/** data_loader.py without the CSV reading and the one-hot encoding: choose
    the encoding branch, record the feature names and dimensions, and
    introduce missingness by copying the data and writing NaN wherever the
    sampled mask is 0. */
module DataLoader {
  import opened Results
  import opened Matrices
  import opened GainMasks

  /** The DataFrame read from the CSV file: column names and rows. */
  datatype Table = Table(columns: seq<string>, rows: CellMatrix)

  /** Every row has one cell per column, as in any DataFrame. */
  predicate WellFormed(t: Table) {
    IsShape(t.rows, |t.rows|, |t.columns|)
  }

  datatype LoaderError = IndexError

  /** Line 34 as written: `data.shape[2] is not None`. A DataFrame's shape
      has two entries, so indexing the third raises; a third entry, were
      there one, is an int and never None, so the warning would always be
      printed. `Ok(w)` says whether "Dataset not 2D" is printed. */
  function DimensionCheckAsWritten(shape: seq<nat>): (r: Result<bool, LoaderError>)
    ensures r.Err? <==> |shape| <= 2
    ensures r.Ok? ==> r.value
  {
    if |shape| > 2 then Ok(true) else Err(IndexError)
  }

  /** The check as intended: warn exactly when the data is not 2-D. */
  function DimensionCheck(shape: seq<nat>): (r: Result<bool, LoaderError>)
    ensures r.Ok? && (r.value <==> |shape| != 2)
  {
    Ok(|shape| != 2)
  }

  /** As written, the check raises on every table, so `data_loader` never
      gets past line 34; as intended it lets every table through silently. */
  lemma DimensionCheckOnTables(t: Table)
    ensures DimensionCheckAsWritten([|t.rows|, |t.columns|]) == Err(IndexError)
    ensures DimensionCheck([|t.rows|, |t.columns|]) == Ok(false)
  {
  }

  /** The three branches of lines 39-48. */
  datatype Branch = Encode | NoEncoding | SkipEncoding

  /** Lines 39-48: encode when `onehot > 0` and the leading categorical
      columns have no missing value; take the raw table when `onehot == 0`;
      otherwise skip encoding and take the raw table as well. */
  function ChooseBranch(onehot: int, leadingComplete: bool): (b: Branch)
    ensures b == Encode <==> onehot > 0 && leadingComplete
    ensures b == NoEncoding <==> onehot == 0
    ensures b == SkipEncoding <==> (onehot < 0 || (onehot > 0 && !leadingComplete))
  {
    if leadingComplete && onehot > 0 then Encode
    else if onehot == 0 then NoEncoding
    else SkipEncoding
  }

  /** `miss_data_x = data_x.copy(); miss_data_x[data_m == 0] = np.nan`, as a
      value. */
  function Ablate(x: CellMatrix, m: Matrix): (r: CellMatrix)
    requires SameShape(x, m)
    ensures SameShape(r, x)
    ensures forall i, j :: 0 <= i < |x| && 0 <= j < |x[i]| ==>
      (m[i][j] == 0.0 ==> r[i][j] == Missing) && (m[i][j] != 0.0 ==> r[i][j] == x[i][j])
  {
    seq(|x|, i requires 0 <= i < |x| =>
      seq(|x[i]|, j requires 0 <= j < |x[i]| => if m[i][j] == 0.0 then Missing else x[i][j]))
  }

  /** The mask that `gain` derives from the ablated data is the sampled mask
      times the mask of the data: a cell is observed after ablation exactly
      when it was observed before and the sampled mask kept it. */
  lemma AblationMask(x: CellMatrix, m: Matrix)
    requires SameShape(x, m) && IsBinary(m)
    ensures MaskOf(Ablate(x, m)) == Product(m, MaskOf(x))
  {
    var left, right := MaskOf(Ablate(x, m)), Product(m, MaskOf(x));
    forall i | 0 <= i < |x|
      ensures left[i] == right[i]
    {
      forall j | 0 <= j < |x[i]|
        ensures left[i][j] == right[i][j]
      {
        assert right[i][j] == m[i][j] * MaskOf(x)[i][j];
        if m[i][j] == 0.0 {
          assert left[i][j] == 0.0;
        } else if x[i][j].Missing? {
          assert left[i][j] == 0.0;
        } else {
          assert left[i][j] == 1.0;
        }
      }
    }
  }

  /** In the synthetic-ablation mode the data has no missing value, and the
      mask `gain` derives is exactly the sampled mask. */
  lemma {:induction false} AblationMaskOfCompleteData(x: CellMatrix, m: Matrix)
    requires SameShape(x, m) && IsBinary(m) && Complete(x)
    ensures MaskOf(Ablate(x, m)) == m
  {
    AblationMask(x, m);
    var p := Product(m, MaskOf(x));
    forall i | 0 <= i < |x|
      ensures p[i] == m[i]
    {
      forall j | 0 <= j < |x[i]|
        ensures p[i][j] == m[i][j]
      {
        assert MaskOf(x)[i][j] == 1.0;
      }
    }
  }

  /** Lines 58-60 in place: copy `data_x`, then write NaN into the copy at
      every cell where the sampled mask is 0. The copy is a new array of the
      same shape; `data_x` itself is left unchanged. */
  method IntroduceMissingness(dataX: array2<Cell>, dataM: Matrix) returns (missX: array2<Cell>)
    requires IsShape(dataM, dataX.Length0, dataX.Length1)
    ensures fresh(missX) && missX.Length0 == dataX.Length0 && missX.Length1 == dataX.Length1
    ensures unchanged(dataX)
    ensures Grid(missX) == Ablate(Grid(dataX), dataM)
  {
    missX := new Cell[dataX.Length0, dataX.Length1]((i, j)
      requires 0 <= i < dataX.Length0 && 0 <= j < dataX.Length1 reads dataX => dataX[i, j]);
    for i := 0 to dataX.Length0
      invariant forall p, q :: 0 <= p < i && 0 <= q < dataX.Length1 ==>
        missX[p, q] == if dataM[p][q] == 0.0 then Missing else dataX[p, q]
      invariant forall p, q :: i <= p < dataX.Length0 && 0 <= q < dataX.Length1 ==> missX[p, q] == dataX[p, q]
    {
      for j := 0 to dataX.Length1
        invariant forall p, q :: 0 <= p < i && 0 <= q < dataX.Length1 ==>
          missX[p, q] == if dataM[p][q] == 0.0 then Missing else dataX[p, q]
        invariant forall q :: 0 <= q < j ==> missX[i, q] == if dataM[i][q] == 0.0 then Missing else dataX[i, q]
        invariant forall q :: j <= q < dataX.Length1 ==> missX[i, q] == dataX[i, q]
        invariant forall p, q :: i < p < dataX.Length0 && 0 <= q < dataX.Length1 ==> missX[p, q] == dataX[p, q]
      {
        if dataM[i][j] == 0.0 {
          missX[i, j] := Missing;
        }
      }
    }
    ghost var copy, spec := Grid(missX), Ablate(Grid(dataX), dataM);
    forall i | 0 <= i < dataX.Length0
      ensures copy[i] == spec[i]
    {
      assert |copy[i]| == |spec[i]| == dataX.Length1;
    }
  }

  /** `data_loader` on the non-encoding branches, with the table already read
      and the mask `binary_sampler(1 - miss_rate, no, dim)` drawn. The raw
      table becomes `data_x`, so `dim == ori_data_dim`; the feature names
      are the table's columns, one per original column; `data_m` has the
      shape of `data_x`; and `miss_data_x` is `data_x` with NaN exactly where
      `data_m` is 0. */
  method Load(t: Table, onehot: int, leadingComplete: bool, sampledM: Matrix)
    returns (dataX: array2<Cell>, missX: array2<Cell>, dataM: Matrix, featureName: seq<string>, oriDim: nat)
    requires WellFormed(t)
    requires ChooseBranch(onehot, leadingComplete) != Encode
    requires IsShape(sampledM, |t.rows|, |t.columns|)
    ensures fresh(dataX) && fresh(missX)
    ensures featureName == t.columns && |featureName| == oriDim
    ensures Grid(dataX) == t.rows && dataX.Length1 == oriDim
    ensures dataM == sampledM && IsShape(dataM, dataX.Length0, dataX.Length1)
    ensures Grid(missX) == Ablate(Grid(dataX), dataM)
  {
    var warn := DimensionCheck([|t.rows|, |t.columns|]);
    assert warn == Ok(false);
    var no, dim := |t.rows|, |t.columns|;
    // data_x = np.array(data): a fresh array holding the table
    dataX := new Cell[no, dim]((i, j) requires 0 <= i < no && 0 <= j < dim => t.rows[i][j]);
    featureName := t.columns;
    oriDim := |t.columns|;
    dataM := sampledM;
    missX := IntroduceMissingness(dataX, dataM);
    ghost var g := Grid(dataX);
    forall i | 0 <= i < no
      ensures g[i] == t.rows[i]
    {
      assert |g[i]| == |t.rows[i]| == dim;
    }
  }
}
