/** The element-wise bookkeeping of gain.py around the two networks: the mask
    derived from NaN markers, zero-filling, minibatch row selection, the hint,
    and the two merges `m*x + (1-m)*z` (generator input) and `m*x + (1-m)*g`
    (final imputation). Each merge is written with the source's arithmetic;
    the lemmas show that with a 0/1 mask it is a per-cell selection. */
module GainMasks {
  import opened Matrices

  /** `np.isnan` of one cell, as the number numpy uses in `1 - isnan(..)`. */
  function IsNan(c: Cell): real {
    if c.Missing? then 1.0 else 0.0
  }

  /** `data_m = 1 - np.isnan(data_x)`: the observed-mask of a data matrix. */
  function MaskOf(x: CellMatrix): (m: Matrix)
    ensures SameShape(m, x) && IsBinary(m)
    ensures forall i, j :: 0 <= i < |x| && 0 <= j < |x[i]| ==>
      (m[i][j] == 1.0 <==> x[i][j].Value?) && (m[i][j] == 0.0 <==> x[i][j].Missing?)
  {
    seq(|x|, i requires 0 <= i < |x| =>
      seq(|x[i]|, j requires 0 <= j < |x[i]| => 1.0 - IsNan(x[i][j])))
  }

  /** `np.nan_to_num` of one cell: NaN becomes 0, a number stays. */
  function Num(c: Cell): real {
    match c
    case Missing => 0.0
    case Value(v) => v
  }

  /** `norm_data_x = np.nan_to_num(norm_data, 0)`, as a value. */
  function NanToNum(s: CellMatrix): (r: Matrix)
    ensures SameShape(r, s)
    ensures forall i, j :: 0 <= i < |s| && 0 <= j < |s[i]| ==>
      (s[i][j].Missing? ==> r[i][j] == 0.0) && (s[i][j].Value? ==> r[i][j] == s[i][j].v)
  {
    seq(|s|, i requires 0 <= i < |s| =>
      seq(|s[i]|, j requires 0 <= j < |s[i]| => Num(s[i][j])))
  }

  /** The same zero-fill done in place, as `nan_to_num(.., copy=False)` does:
      every NaN cell of `a` is overwritten with 0 and every other cell is left
      alone, so that afterwards no cell of `a` is missing. */
  method NanToNumInPlace(a: array2<Cell>)
    modifies a
    ensures forall i, j :: 0 <= i < a.Length0 && 0 <= j < a.Length1 ==>
      a[i, j] == Value(NanToNum(old(Grid(a)))[i][j])
    ensures Complete(Grid(a))
  {
    ghost var before := Grid(a);
    for i := 0 to a.Length0
      invariant forall p, q :: 0 <= p < i && 0 <= q < a.Length1 ==> a[p, q] == Value(Num(before[p][q]))
      invariant forall p, q :: i <= p < a.Length0 && 0 <= q < a.Length1 ==> a[p, q] == before[p][q]
    {
      for j := 0 to a.Length1
        invariant forall p, q :: 0 <= p < i && 0 <= q < a.Length1 ==> a[p, q] == Value(Num(before[p][q]))
        invariant forall q :: 0 <= q < j ==> a[i, q] == Value(Num(before[i][q]))
        invariant forall q :: j <= q < a.Length1 ==> a[i, q] == before[i][q]
        invariant forall p, q :: i < p < a.Length0 && 0 <= q < a.Length1 ==> a[p, q] == before[p][q]
      {
        if a[i, j].Missing? {
          a[i, j] := Value(0.0);
        }
      }
    }
  }

  /** `a[batch_idx, :]`: the rows of `a` named by the index list, in its order
      (repetitions allowed, as numpy fancy indexing allows them). */
  function Rows<T>(a: seq<seq<T>>, idx: seq<nat>): (r: seq<seq<T>>)
    requires forall k :: 0 <= k < |idx| ==> idx[k] < |a|
    ensures |r| == |idx| && forall k :: 0 <= k < |idx| ==> r[k] == a[idx[k]]
  {
    seq(|idx|, k requires 0 <= k < |idx| => a[idx[k]])
  }

  /** Element-wise product `a * b` of two matrices of the same shape. */
  function Product(a: Matrix, b: Matrix): (r: Matrix)
    requires SameShape(a, b)
    ensures SameShape(r, a)
    ensures forall i, j :: 0 <= i < |a| && 0 <= j < |a[i]| ==> r[i][j] == a[i][j] * b[i][j]
  {
    seq(|a|, i requires 0 <= i < |a| =>
      seq(|a[i]|, j requires 0 <= j < |a[i]| => a[i][j] * b[i][j]))
  }

  /** `m * x + (1 - m) * z`, element-wise: the form of both merges in gain.py. */
  function Merge(m: Matrix, x: Matrix, z: Matrix): (r: Matrix)
    requires SameShape(m, x) && SameShape(m, z)
    ensures SameShape(r, m)
    ensures forall i, j :: 0 <= i < |m| && 0 <= j < |m[i]| ==>
      r[i][j] == m[i][j] * x[i][j] + (1.0 - m[i][j]) * z[i][j]
  {
    seq(|m|, i requires 0 <= i < |m| =>
      seq(|m[i]|, j requires 0 <= j < |m[i]| => m[i][j] * x[i][j] + (1.0 - m[i][j]) * z[i][j]))
  }

  /** Zero-filled data already vanishes off its mask: `M * X == X`, so the
      observed part `X * M` of every merge is the zero-filled data itself. */
  lemma ZeroFilledVanishesOffMask(s: CellMatrix)
    ensures Product(MaskOf(s), NanToNum(s)) == NanToNum(s)
  {
    var m, x := MaskOf(s), NanToNum(s);
    var p := Product(m, x);
    forall i | 0 <= i < |s|
      ensures p[i] == x[i]
    {
      forall j | 0 <= j < |s[i]|
        ensures p[i][j] == x[i][j]
      {
        if s[i][j].Missing? {
          assert m[i][j] == 0.0;
        } else {
          assert m[i][j] == 1.0;
        }
      }
    }
  }

  /** Slicing the data and slicing its mask with the same index list keeps
      them aligned: the mask of the sliced data is the sliced mask, and the
      sliced mask is still 0/1. */
  lemma {:induction false} BatchAligned(x: CellMatrix, idx: seq<nat>)
    requires forall k :: 0 <= k < |idx| ==> idx[k] < |x|
    ensures Rows(MaskOf(x), idx) == MaskOf(Rows(x, idx))
    ensures IsBinary(Rows(MaskOf(x), idx))
    ensures SameShape(Rows(NanToNum(x), idx), Rows(MaskOf(x), idx))
  {
    var left, right := Rows(MaskOf(x), idx), MaskOf(Rows(x, idx));
    forall k | 0 <= k < |idx|
      ensures left[k] == right[k]
    {
      var row := x[idx[k]];
      assert |left[k]| == |row| == |right[k]|;
      forall j | 0 <= j < |row|
        ensures left[k][j] == right[k][j]
      {
        if row[j].Missing? {
          assert left[k][j] == 0.0 && right[k][j] == 0.0;
        } else {
          assert left[k][j] == 1.0 && right[k][j] == 1.0;
        }
      }
    }
  }

  /** Hint containment, `H_mb = M_mb * B`: with a 0/1 mask and a 0/1 draw the
      hint is 0/1, is 1 exactly where both are 1, is 0 wherever the mask is 0,
      and never exceeds the mask. */
  lemma HintContainment(m: Matrix, b: Matrix)
    requires SameShape(m, b) && IsBinary(m) && IsBinary(b)
    ensures IsBinary(Product(m, b))
    ensures forall i, j :: 0 <= i < |m| && 0 <= j < |m[i]| ==>
      var h := Product(m, b)[i][j];
      (h == 1.0 <==> m[i][j] == 1.0 && b[i][j] == 1.0) &&
      (m[i][j] == 0.0 ==> h == 0.0) &&
      (h == 0.0 || h == m[i][j]) &&
      h <= m[i][j]
  {
    var h := Product(m, b);
    forall i, j | 0 <= i < |m| && 0 <= j < |m[i]|
      ensures h[i][j] == if m[i][j] == 1.0 && b[i][j] == 1.0 then 1.0 else 0.0
    {
      assert h[i][j] == m[i][j] * b[i][j];
    }
  }

  /** With a 0/1 mask the merge `m*x + (1-m)*z` takes `x` at the cells where
      the mask is 1 and `z` at the cells where it is 0. */
  lemma MergeSelects(m: Matrix, x: Matrix, z: Matrix)
    requires SameShape(m, x) && SameShape(m, z) && IsBinary(m)
    ensures forall i, j :: 0 <= i < |m| && 0 <= j < |m[i]| ==>
      (m[i][j] == 1.0 ==> Merge(m, x, z)[i][j] == x[i][j]) &&
      (m[i][j] == 0.0 ==> Merge(m, x, z)[i][j] == z[i][j])
  {
    var r := Merge(m, x, z);
    forall i, j | 0 <= i < |m| && 0 <= j < |m[i]|
      ensures r[i][j] == m[i][j] * x[i][j] + (1.0 - m[i][j]) * z[i][j]
    {
    }
  }

  /** Observed values survive the noise: merging the generator input again
      with the same data gives what merging the data directly gives, so the
      noise written at missing cells never reaches an observed cell. */
  lemma {:induction false} MergeAbsorbs(m: Matrix, x: Matrix, z: Matrix, g: Matrix)
    requires SameShape(m, x) && SameShape(m, z) && SameShape(m, g) && IsBinary(m)
    ensures Merge(m, Merge(m, x, z), g) == Merge(m, x, g)
  {
    var inner := Merge(m, x, z);
    MergeSelects(m, x, z);
    MergeSelects(m, inner, g);
    MergeSelects(m, x, g);
    var left, right := Merge(m, inner, g), Merge(m, x, g);
    forall i | 0 <= i < |m|
      ensures left[i] == right[i]
    {
      forall j | 0 <= j < |m[i]|
        ensures left[i][j] == right[i][j]
      {
        if m[i][j] == 1.0 {
          assert left[i][j] == inner[i][j] == x[i][j];
        }
      }
    }
  }

  /** The generator input `X_mb = M_mb * X_mb + (1 - M_mb) * Z_mb` of a data
      matrix: it is the zero-filled value at every observed cell and the
      noise at every missing cell, and has the data's shape. */
  lemma GeneratorInputSelects(data: CellMatrix, norm: CellMatrix, z: Matrix)
    requires SameShape(data, norm) && SameShape(data, z)
    ensures SameShape(Merge(MaskOf(data), NanToNum(norm), z), data)
    ensures forall i, j :: 0 <= i < |data| && 0 <= j < |data[i]| ==>
      (data[i][j].Value? ==> Merge(MaskOf(data), NanToNum(norm), z)[i][j] == NanToNum(norm)[i][j]) &&
      (data[i][j].Missing? ==> Merge(MaskOf(data), NanToNum(norm), z)[i][j] == z[i][j])
  {
    MergeSelects(MaskOf(data), NanToNum(norm), z);
  }

  /** Observed-value preservation of `imputed = data_m * norm_data_x +
      (1 - data_m) * G`: every observed cell keeps its normalized value,
      every missing cell takes the generator's value; when normalization
      keeps the missing cells where they were, the observed cells carry the
      normalized numbers themselves and no cell of the result is 0-filled
      noise or NaN. */
  lemma ImputationPreservesObserved(data: CellMatrix, norm: CellMatrix, g: Matrix)
    requires SameShape(data, norm) && SameShape(data, g)
    ensures forall i, j :: 0 <= i < |data| && 0 <= j < |data[i]| ==>
      (data[i][j].Value? ==> Merge(MaskOf(data), NanToNum(norm), g)[i][j] == NanToNum(norm)[i][j]) &&
      (data[i][j].Missing? ==> Merge(MaskOf(data), NanToNum(norm), g)[i][j] == g[i][j])
    ensures (forall i, j :: 0 <= i < |data| && 0 <= j < |data[i]| ==> (data[i][j].Value? <==> norm[i][j].Value?)) ==>
      forall i, j :: 0 <= i < |data| && 0 <= j < |data[i]| && data[i][j].Value? ==>
        Merge(MaskOf(data), NanToNum(norm), g)[i][j] == norm[i][j].v
  {
    MergeSelects(MaskOf(data), NanToNum(norm), g);
  }
}
