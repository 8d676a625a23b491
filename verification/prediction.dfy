/** Arg-max over the classes' activations, scanning classes in order with a
    strict comparison, so the lowest-index maximal class wins. */
module Prediction {
  import opened Matrices
  import opened Activations

  /** Java's `Integer.MIN_VALUE`, the running maximum before the first class. */
  const IntMinValue: int := -0x8000_0000

  /** Every class row can be applied to `x`. */
  predicate AllApplicable(W: Matrix, x: Vector)
  {
    forall k :: 0 <= k < |W| ==> Applicable(W[k], x)
  }

  /** `r` is the lowest-index class whose activation is maximal. */
  ghost predicate IsFirstArgMax(W: Matrix, x: Vector, r: nat)
    requires AllApplicable(W, x)
  {
    && r < |W|
    && (forall k :: 0 <= k < |W| ==> Activation(W[k], x) <= Activation(W[r], x))
    && (forall k :: 0 <= k < r ==> Activation(W[k], x) < Activation(W[r], x))
  }

  /** What the scan knows after visiting classes `0 .. i-1`. */
  ghost predicate ScanInvariant(W: Matrix, x: Vector, i: nat, maxActivation: int, best: nat)
    requires AllApplicable(W, x) && i <= |W|
  {
    if i == 0 then
      maxActivation == IntMinValue && best == 0
    else
      && best < i
      && maxActivation == Activation(W[best], x)
      && (forall k :: 0 <= k < i ==> Activation(W[k], x) <= maxActivation)
      && (forall k :: 0 <= k < best ==> Activation(W[k], x) < maxActivation)
  }

  /** The scan from class `i` on: replace the running best only on a strictly
      greater activation. */
  function PredictFrom(W: Matrix, x: Vector, i: nat, maxActivation: int, best: nat): (r: nat)
    requires AllApplicable(W, x) && i <= |W|
    requires ScanInvariant(W, x, i, maxActivation, best)
    ensures |W| == 0 ==> r == 0
    ensures 0 < |W| ==> IsFirstArgMax(W, x, r)
    decreases |W| - i
  {
    if i == |W| then best
    else
      var a := Activation(W[i], x);
      if a > maxActivation then PredictFrom(W, x, i + 1, a, i)
      else PredictFrom(W, x, i + 1, maxActivation, best)
  }

  /** The predicted class: a class index when there is at least one class,
      and the lowest-index class with maximal activation. */
  function Predict(W: Matrix, x: Vector): (r: nat)
    requires AllApplicable(W, x)
    ensures |W| == 0 ==> r == 0
    ensures 0 < |W| ==> r < |W|
    ensures 0 < |W| ==> forall k :: 0 <= k < |W| ==> Activation(W[k], x) <= Activation(W[r], x)
    ensures forall k :: 0 <= k < r ==> Activation(W[k], x) < Activation(W[r], x)
  {
    PredictFrom(W, x, 0, IntMinValue, 0)
  }

  /** Independent reference: the first class from `i` on with activation +1,
      or class 0 when there is none. */
  function FirstActive(W: Matrix, x: Vector, i: nat): nat
    requires AllApplicable(W, x) && i <= |W|
    decreases |W| - i
  {
    if i == |W| then 0
    else if Activation(W[i], x) == 1 then i
    else FirstActive(W, x, i + 1)
  }

  /** Once the running maximum is +1 nothing can beat it. */
  lemma SaturatedScan(W: Matrix, x: Vector, i: nat, best: nat)
    requires AllApplicable(W, x) && 0 < i <= |W|
    requires ScanInvariant(W, x, i, 1, best)
    ensures PredictFrom(W, x, i, 1, best) == best
  {
  }

  /** While every class so far scored -1, the running best is class 0 and the
      scan ends at the first class scoring +1, or stays at 0. */
  lemma {:induction false} NegativeScan(W: Matrix, x: Vector, i: nat)
    requires AllApplicable(W, x) && 0 < i <= |W|
    requires ScanInvariant(W, x, i, -1, 0)
    ensures PredictFrom(W, x, i, -1, 0) == FirstActive(W, x, i)
    decreases |W| - i
  {
    if i < |W| {
      if Activation(W[i], x) == 1 {
        SaturatedScan(W, x, i + 1, i);
      } else {
        NegativeScan(W, x, i + 1);
      }
    }
  }

  /** Because activations are only -1 or +1, the prediction is the first class
      with activation +1, or class 0 if every class scores -1. */
  lemma PredictIsFirstActive(W: Matrix, x: Vector)
    requires AllApplicable(W, x)
    ensures Predict(W, x) == FirstActive(W, x, 0)
  {
    if 0 < |W| {
      if Activation(W[0], x) == 1 {
        SaturatedScan(W, x, 1, 0);
      } else {
        NegativeScan(W, x, 1);
      }
    }
  }

  /** Two classes with the same activation: the higher index is never chosen. */
  lemma TiesGoToLowerIndex(W: Matrix, x: Vector, i: nat, j: nat)
    requires AllApplicable(W, x) && i < j < |W|
    requires Activation(W[i], x) == Activation(W[j], x)
    ensures Predict(W, x) != j
  {
  }

  /** With all-zero weights every class scores +1, so class 0 is predicted. */
  lemma ZeroWeightsPredictFirstClass(W: Matrix, x: Vector)
    requires AllApplicable(W, x)
    requires forall k, j :: 0 <= k < |W| && 0 <= j < |W[k]| ==> W[k][j] == 0.0
    ensures Predict(W, x) == 0
  {
    if 0 < |W| {
      ZeroRowActivates(W[0], x);
    }
  }

  /** Prediction reads only the features before the bias slot. */
  lemma PredictIgnoresBiasSlot(W: Matrix, A: nat, x: Vector, y: Vector)
    requires 1 <= A && Rectangular(W, A) && SameBefore(x, y, A - 1)
    ensures AllApplicable(W, x) && AllApplicable(W, y)
    ensures Predict(W, x) == Predict(W, y)
  {
    forall k | 0 <= k < |W|
      ensures Activation(W[k], x) == Activation(W[k], y)
    {
      ActivationIgnoresBiasSlot(W[k], x, y);
    }
  }
}
