/** The per-class activation: the dot product of a weight row with an
    instance, where the last slot is the bias weight times the constant 1,
    collapsed to a sign. */
module Activations {
  import opened Matrices

  /** The constant input paired with the bias weight (Java's `bias` field). */
  const Bias: real := 1.0

  /** A row can be applied to an instance when it has a bias slot and the
      instance supplies a value for every slot before it. */
  predicate Applicable(w: Vector, x: Vector)
  {
    1 <= |w| && |w| - 1 <= |x|
  }

  /** `x` and `y` both have at least `n` values and agree on the first `n`. */
  predicate SameBefore(x: Vector, y: Vector, n: int)
  {
    0 <= n <= |x| && n <= |y| && forall i :: 0 <= i < n ==> x[i] == y[i]
  }

  /** The first `n` terms of the dot product, accumulated left to right. */
  function PartialDot(w: Vector, x: Vector, n: nat): real
    requires n <= |w| && n <= |x|
  {
    if n == 0 then 0.0 else PartialDot(w, x, n - 1) + w[n - 1] * x[n - 1]
  }

  /** The weighted sum: every slot but the last pairs a weight with a feature,
      the last pairs the bias weight with `Bias`. */
  function Score(w: Vector, x: Vector): real
    requires Applicable(w, x)
  {
    PartialDot(w, x, |w| - 1) + w[|w| - 1] * Bias
  }

  /** The sign of the score; a score of exactly zero counts as positive. */
  function Activation(w: Vector, x: Vector): (a: int)
    requires Applicable(w, x)
    ensures a == -1 || a == 1
    ensures a == 1 <==> Score(w, x) >= 0.0
  {
    if Score(w, x) < 0.0 then -1 else 1
  }

  /** Java's loop: accumulate the feature terms, add the bias term,
      return the sign. */
  method ComputeActivation(w: Vector, x: Vector) returns (a: int)
    requires Applicable(w, x)
    ensures a == Activation(w, x)
    ensures a == -1 || a == 1
  {
    var sum := 0.0;
    var i := 0;
    while i < |w| - 1
      invariant 0 <= i <= |w| - 1
      invariant sum == PartialDot(w, x, i)
    {
      sum := sum + w[i] * x[i];
      i := i + 1;
    }
    sum := sum + w[|w| - 1] * Bias;
    a := if sum < 0.0 then -1 else 1;
  }

  /** Partial dot products only read the first `n` features. */
  lemma {:induction false} PartialDotAgree(w: Vector, x: Vector, y: Vector, n: nat)
    requires n <= |w| && n <= |x| && n <= |y|
    requires forall i :: 0 <= i < n ==> x[i] == y[i]
    ensures PartialDot(w, x, n) == PartialDot(w, y, n)
  {
    if n > 0 {
      PartialDotAgree(w, x, y, n - 1);
    }
  }

  /** The feature in the bias slot (index |w|-1) and anything beyond it is
      never read: instances agreeing before the bias slot score identically. */
  lemma ActivationIgnoresBiasSlot(w: Vector, x: Vector, y: Vector)
    requires Applicable(w, x) && Applicable(w, y)
    requires SameBefore(x, y, |w| - 1)
    ensures Score(w, x) == Score(w, y)
    ensures Activation(w, x) == Activation(w, y)
  {
    PartialDotAgree(w, x, y, |w| - 1);
  }

  /** A partial dot product with zero weights is zero. */
  lemma {:induction false} ZeroPartialDot(w: Vector, x: Vector, n: nat)
    requires n <= |w| && n <= |x|
    requires forall i :: 0 <= i < |w| ==> w[i] == 0.0
    ensures PartialDot(w, x, n) == 0.0
  {
    if n > 0 {
      ZeroPartialDot(w, x, n - 1);
    }
  }

  /** An all-zero row scores exactly zero, so its activation is +1. */
  lemma ZeroRowActivates(w: Vector, x: Vector)
    requires Applicable(w, x)
    requires forall i :: 0 <= i < |w| ==> w[i] == 0.0
    ensures Score(w, x) == 0.0
    ensures Activation(w, x) == 1
  {
    ZeroPartialDot(w, x, |w| - 1);
  }
}
