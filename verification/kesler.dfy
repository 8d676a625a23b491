/** The Kesler update applied on a misclassification: the predicted class's row
    loses the correction vector and the true class's row gains it. */
module Kesler {
  import opened Matrices
  import opened Activations

  /** The correction for column `j` of an `A`-column matrix: the bias constant
      in the last column, the instance's feature everywhere else. */
  function Correction(x: Vector, A: nat, j: nat): real
    requires j < A && A - 1 <= |x|
  {
    if j == A - 1 then Bias else x[j]
  }

  /** Subtract the correction from row `predicted`, add it to row `correct`.
      What happens to each row is stated by `UpdateIsSymmetric`. */
  function KeslerUpdate(W: Matrix, A: nat, x: Vector, predicted: nat, correct: nat): (W': Matrix)
    requires 1 <= A && Rectangular(W, A) && A - 1 <= |x|
    requires predicted < |W| && correct < |W| && predicted != correct
    ensures IsMatrix(W', |W|, A)
  {
    var lowered := seq(A, j requires 0 <= j < A => W[predicted][j] - Correction(x, A, j));
    var raised := seq(A, j requires 0 <= j < A => W[correct][j] + Correction(x, A, j));
    W[predicted := lowered][correct := raised]
  }

  /** Only the predicted and the true rows change: the first loses the
      correction, the second gains it, so the two move by equal and opposite
      amounts in every column. The bias column moves by exactly the bias
      constant, so an update always changes the matrix. */
  lemma UpdateIsSymmetric(W: Matrix, A: nat, x: Vector, predicted: nat, correct: nat)
    requires 1 <= A && Rectangular(W, A) && A - 1 <= |x|
    requires predicted < |W| && correct < |W| && predicted != correct
    ensures var W' := KeslerUpdate(W, A, x, predicted, correct);
      && (forall k :: 0 <= k < |W| && k != predicted && k != correct ==> W'[k] == W[k])
      && (forall j :: 0 <= j < A ==> W'[predicted][j] == W[predicted][j] - Correction(x, A, j))
      && (forall j :: 0 <= j < A ==> W'[correct][j] == W[correct][j] + Correction(x, A, j))
      && (forall j :: 0 <= j < A ==>
            W'[predicted][j] - W[predicted][j] == -(W'[correct][j] - W[correct][j]))
      && W'[predicted][A - 1] == W[predicted][A - 1] - 1.0
      && W'[correct][A - 1] == W[correct][A - 1] + 1.0
      && W' != W
  {
  }

  /** An update keeps every column summing to the same total; in particular a
      balanced matrix stays balanced. */
  lemma UpdateKeepsColumnSums(W: Matrix, A: nat, x: Vector, predicted: nat, correct: nat)
    requires 1 <= A && Rectangular(W, A) && A - 1 <= |x|
    requires predicted < |W| && correct < |W| && predicted != correct
    ensures var W' := KeslerUpdate(W, A, x, predicted, correct);
      && (forall j :: 0 <= j < A ==> ColumnSum(W', j, |W'|) == ColumnSum(W, j, |W|))
      && (Balanced(W, A) ==> Balanced(W', A))
  {
    var W' := KeslerUpdate(W, A, x, predicted, correct);
    UpdateIsSymmetric(W, A, x, predicted, correct);
    forall j | 0 <= j < A
      ensures ColumnSum(W', j, |W'|) == ColumnSum(W, j, |W|)
    {
      ColumnSumTwoRows(W, W', j, predicted, correct, |W|);
    }
  }

  /** The update reads only the features before the bias slot. */
  lemma UpdateIgnoresBiasSlot(W: Matrix, A: nat, x: Vector, y: Vector, predicted: nat, correct: nat)
    requires 1 <= A && Rectangular(W, A) && SameBefore(x, y, A - 1)
    requires predicted < |W| && correct < |W| && predicted != correct
    ensures KeslerUpdate(W, A, x, predicted, correct) == KeslerUpdate(W, A, y, predicted, correct)
  {
    var U, V := KeslerUpdate(W, A, x, predicted, correct), KeslerUpdate(W, A, y, predicted, correct);
    assert U[predicted] == V[predicted];
    assert U[correct] == V[correct];
  }
}
