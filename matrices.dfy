/** Shared vocabulary for the numpy arrays that flow through GAIN: float cells
    that may be NaN, real matrices, 0/1 masks and their shapes. */
module Matrices {

  /** One float64 entry of a data array; `Missing` is numpy's NaN marker. */
  datatype Cell = Missing | Value(v: real)

  /** A matrix of cells that may be missing (the raw and normalized data). */
  type CellMatrix = seq<seq<Cell>>

  /** A matrix of finite reals (masks, hints, noise, network outputs). */
  type Matrix = seq<seq<real>>

  /** `a` is a rows x cols array, as every 2-D numpy array is. */
  predicate IsShape<T>(a: seq<seq<T>>, rows: nat, cols: nat) {
    |a| == rows && forall i :: 0 <= i < |a| ==> |a[i]| == cols
  }

  /** `a` and `b` have the same number of rows and the same row lengths. */
  predicate SameShape<T, U>(a: seq<seq<T>>, b: seq<seq<U>>) {
    |a| == |b| && forall i :: 0 <= i < |a| ==> |a[i]| == |b[i]|
  }

  /** Every entry of `m` is exactly 0 or 1, as `binary_sampler` and
      `1 - np.isnan(..)` produce. */
  predicate IsBinary(m: Matrix) {
    forall i, j :: 0 <= i < |m| && 0 <= j < |m[i]| ==> m[i][j] == 0.0 || m[i][j] == 1.0
  }

  /** No entry of `x` is NaN. */
  predicate Complete(x: CellMatrix) {
    forall i, j :: 0 <= i < |x| && 0 <= j < |x[i]| ==> x[i][j].Value?
  }

  /** The contents of a 2-D array as a sequence of rows. */
  function Grid<T>(a: array2<T>): (g: seq<seq<T>>)
    reads a
    ensures IsShape(g, a.Length0, a.Length1)
    ensures forall i, j :: 0 <= i < a.Length0 && 0 <= j < a.Length1 ==> g[i][j] == a[i, j]
  {
    seq(a.Length0, i reads a requires 0 <= i < a.Length0 =>
      seq(a.Length1, j reads a requires 0 <= j < a.Length1 => a[i, j]))
  }
}
