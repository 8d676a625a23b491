/** Vectors and weight matrices over exact reals, with the column sums the
    Kesler update keeps in balance. */
module Matrices {

  /** A weight row, or the feature values of one instance. */
  type Vector = seq<real>

  /** One weight row per class; the last column of every row is the bias weight. */
  type Matrix = seq<Vector>

  /** Every row has exactly `cols` entries. */
  predicate Rectangular(W: Matrix, cols: nat)
  {
    forall k :: 0 <= k < |W| ==> |W[k]| == cols
  }

  /** `W` is a `rows` x `cols` matrix. */
  predicate IsMatrix(W: Matrix, rows: nat, cols: nat)
  {
    |W| == rows && Rectangular(W, cols)
  }

  /** The freshly allocated matrix: Java zero-initialises `new double[rows][cols]`. */
  function Zero(rows: nat, cols: nat): (W: Matrix)
    ensures IsMatrix(W, rows, cols)
    ensures forall k, j :: 0 <= k < rows && 0 <= j < cols ==> W[k][j] == 0.0
  {
    seq(rows, _ => seq(cols, _ => 0.0))
  }

  /** Sum of column `j` over the first `n` rows. */
  function ColumnSum(W: Matrix, j: nat, n: nat): real
    requires n <= |W|
    requires forall k :: 0 <= k < n ==> j < |W[k]|
  {
    if n == 0 then 0.0 else ColumnSum(W, j, n - 1) + W[n - 1][j]
  }

  /** Every column of `W` sums to zero over all classes. */
  predicate Balanced(W: Matrix, cols: nat)
    requires Rectangular(W, cols)
  {
    forall j :: 0 <= j < cols ==> ColumnSum(W, j, |W|) == 0.0
  }

  /** Sum of the entries of a vector. */
  function Sum(v: Vector): real
  {
    if |v| == 0 then 0.0 else Sum(v[..|v| - 1]) + v[|v| - 1]
  }

  /** A column of zeros sums to zero. */
  lemma {:induction false} ZeroColumnSum(W: Matrix, j: nat, n: nat)
    requires n <= |W|
    requires forall k :: 0 <= k < n ==> j < |W[k]| && W[k][j] == 0.0
    ensures ColumnSum(W, j, n) == 0.0
  {
    if n > 0 {
      ZeroColumnSum(W, j, n - 1);
    }
  }

  /** The zero matrix is balanced. */
  lemma ZeroIsBalanced(rows: nat, cols: nat)
    ensures Balanced(Zero(rows, cols), cols)
  {
    var W := Zero(rows, cols);
    forall j | 0 <= j < cols
      ensures ColumnSum(W, j, |W|) == 0.0
    {
      ZeroColumnSum(W, j, |W|);
    }
  }

  /** If `W'` differs from `W` in column `j` only at rows `p` and `c`, the
      column sums over the first `n` rows differ by exactly those rows' changes. */
  lemma {:induction false} ColumnSumTwoRows(W: Matrix, W': Matrix, j: nat, p: nat, c: nat, n: nat)
    requires |W| == |W'| && n <= |W| && p < |W| && c < |W| && p != c
    requires forall k :: 0 <= k < |W| ==> j < |W[k]| && j < |W'[k]|
    requires forall k :: 0 <= k < |W| && k != p && k != c ==> W'[k][j] == W[k][j]
    ensures ColumnSum(W', j, n) - ColumnSum(W, j, n)
         == (if p < n then W'[p][j] - W[p][j] else 0.0) + (if c < n then W'[c][j] - W[c][j] else 0.0)
  {
    if n > 0 {
      ColumnSumTwoRows(W, W', j, p, c, n - 1);
    }
  }

  /** A vector that is zero except for a single 1 sums to 1. */
  lemma {:induction false} OneHotSum(v: Vector, hot: nat)
    requires hot < |v| && v[hot] == 1.0
    requires forall k :: 0 <= k < |v| && k != hot ==> v[k] == 0.0
    ensures Sum(v) == 1.0
  {
    var last := |v| - 1;
    if hot == last {
      ZeroSum(v[..last]);
    } else {
      OneHotSum(v[..last], hot);
    }
  }

  /** A vector of zeros sums to zero. */
  lemma {:induction false} ZeroSum(v: Vector)
    requires forall k :: 0 <= k < |v| ==> v[k] == 0.0
    ensures Sum(v) == 0.0
  {
    if |v| > 0 {
      ZeroSum(v[..|v| - 1]);
    }
  }
}
