/** A linearly separable two-class, two-feature dataset: class 0 is
    {(0,0), (0,1)}, class 1 is {(5,5), (5,6)}. Each instance carries a third
    value in the bias slot (the class attribute's own value), which training
    never reads. */
module Convergence {
  import opened Matrices
  import opened Activations
  import opened Prediction
  import opened Kesler
  import opened Training

  const Separable: seq<Instance> := [
    Instance([0.0, 0.0, 0.0], 0),
    Instance([0.0, 1.0, 0.0], 0),
    Instance([5.0, 5.0, 1.0], 1),
    Instance([5.0, 6.0, 1.0], 1)
  ]

  /** The weights and counter after each of the first four epochs. */
  const AfterEpoch1: State := State([[-5.0, -5.0, -1.0], [5.0, 5.0, 1.0]], 1)
  const AfterEpoch2: State := State([[-5.0, -4.0, 1.0], [5.0, 4.0, -1.0]], 3)
  const AfterEpoch3: State := State([[-5.0, -3.0, 2.0], [5.0, 3.0, -2.0]], 4)
  const AfterEpoch4: State := State([[-5.0, -2.0, 3.0], [5.0, 2.0, -3.0]], 5)

  /** Five epochs from zero weights make five updates in all; the fifth epoch
      makes none, because the weights after four epochs classify every
      instance correctly; and any further epochs change nothing. */
  lemma SeparableConverges(data: seq<Instance>, n: nat)
    requires data == Separable
    ensures AllFit(data, 2, 3)
    ensures AllCorrect(AfterEpoch4.weights, 3, data)
    ensures Epoch(AfterEpoch4, 2, 3, data) == AfterEpoch4
    ensures Train(2, 3, data, 4, 0) == AfterEpoch4
    ensures Train(2, 3, data, 5 + n, 0) == AfterEpoch4
  {
    var s0, s1, s2, s3, s4 := State(Zero(2, 3), 0), AfterEpoch1, AfterEpoch2, AfterEpoch3, AfterEpoch4;
    EpochOne(s0, data);
    EpochTwo(s1, data);
    EpochThree(s2, data);
    EpochFour(s3, data);
    EpochFive(s4, data);
    assert Epochs(s3, 2, 3, data, 1) == s4;
    assert Epochs(s2, 2, 3, data, 2) == s4;
    assert Epochs(s1, 2, 3, data, 3) == s4;
    EpochCleanIff(s4, 2, 3, data);
    FixedPointPersists(s4, 2, 3, data, 1 + n);
    EpochsCompose(s0, 2, 3, data, 4, 1 + n);
    assert Train(2, 3, data, 4, 0) == Epochs(s0, 2, 3, data, 4) == s4;
    assert Train(2, 3, data, 5 + n, 0) == Epochs(s0, 2, 3, data, 4 + (1 + n)) == s4;
  }

  /** A three-column row's score: two feature terms and the bias weight. */
  lemma Score3(w: Vector, x: Vector)
    requires |w| == 3 && 2 <= |x|
    ensures Score(w, x) == w[0] * x[0] + w[1] * x[1] + w[2]
  {
    assert PartialDot(w, x, 1) == w[0] * x[0];
  }

  /** With two classes: class 0 if it scores +1, else class 1 if it does, else 0. */
  lemma Predict2(W: Matrix, x: Vector)
    requires IsMatrix(W, 2, 3) && 2 <= |x|
    ensures AllApplicable(W, x)
    ensures Predict(W, x) == if Score(W[0], x) >= 0.0 then 0 else if Score(W[1], x) >= 0.0 then 1 else 0
  {
  }

  /** The Kesler update of a two-class, three-column matrix, written out. */
  lemma Update2(W: Matrix, x: Vector, p: nat, c: nat)
    requires IsMatrix(W, 2, 3) && 2 <= |x| && p < 2 && c < 2 && p != c
    ensures KeslerUpdate(W, 3, x, p, c) == Moved(W, x, p, c)
  {
    var U := KeslerUpdate(W, 3, x, p, c);
    UpdateIsSymmetric(W, 3, x, p, c);
    var lowered := [W[p][0] - x[0], W[p][1] - x[1], W[p][2] - 1.0];
    var raised := [W[c][0] + x[0], W[c][1] + x[1], W[c][2] + 1.0];
    assert U[p] == lowered by {
      assert Correction(x, 3, 0) == x[0] && Correction(x, 3, 1) == x[1] && Correction(x, 3, 2) == 1.0;
    }
    assert U[c] == raised by {
      assert Correction(x, 3, 0) == x[0] && Correction(x, 3, 1) == x[1] && Correction(x, 3, 2) == 1.0;
    }
    assert U == W[p := lowered][c := raised];
  }

  /** An epoch over four instances is four steps. */
  lemma EpochOfFour(s: State, C: nat, A: nat, data: seq<Instance>)
    requires Shaped(s, C, A) && AllFit(data, C, A) && |data| == 4
    ensures Epoch(s, C, A, data)
         == Step(Step(Step(Step(s, C, A, data[0]), C, A, data[1]), C, A, data[2]), C, A, data[3])
  {
    var s1 := Step(s, C, A, data[0]);
    var s2 := Step(s1, C, A, data[1]);
    var s3 := Step(s2, C, A, data[2]);
    var s4 := Step(s3, C, A, data[3]);
    assert data[1..][1..][1..][1..] == [];
    assert Epoch(s3, C, A, data[1..][1..][1..]) == s4;
    assert Epoch(s2, C, A, data[1..][1..]) == s4;
    assert Epoch(s1, C, A, data[1..]) == s4;
  }

  /** An epoch over four instances, given the state after each step. */
  lemma EpochChain(s: State, t1: State, t2: State, t3: State, t4: State, data: seq<Instance>)
    requires Shaped(s, 2, 3) && AllFit(data, 2, 3) && |data| == 4
    requires Step(s, 2, 3, data[0]) == t1
    requires Shaped(t1, 2, 3) && Step(t1, 2, 3, data[1]) == t2
    requires Shaped(t2, 2, 3) && Step(t2, 2, 3, data[2]) == t3
    requires Shaped(t3, 2, 3) && Step(t3, 2, 3, data[3]) == t4
    ensures Epoch(s, 2, 3, data) == t4
  {
    EpochOfFour(s, 2, 3, data);
  }

  /** The class predicted by a two-class, three-column matrix, written out. */
  function Guess(W: Matrix, x: Vector): nat
    requires |W| == 2 && |W[0]| == 3 && |W[1]| == 3 && 2 <= |x|
  {
    if W[0][0] * x[0] + W[0][1] * x[1] + W[0][2] >= 0.0 then 0
    else if W[1][0] * x[0] + W[1][1] * x[1] + W[1][2] >= 0.0 then 1 else 0
  }

  /** The Kesler update of a two-class, three-column matrix, written out. */
  function Moved(W: Matrix, x: Vector, p: nat, c: nat): Matrix
    requires |W| == 2 && |W[0]| == 3 && |W[1]| == 3 && 2 <= |x| && p < 2 && c < 2
  {
    W[p := [W[p][0] - x[0], W[p][1] - x[1], W[p][2] - 1.0]]
     [c := [W[c][0] + x[0], W[c][1] + x[1], W[c][2] + 1.0]]
  }

  /** A step whose written-out guess is wrong makes the written-out update. */
  lemma StepMoves(s: State, inst: Instance)
    requires |s.weights| == 2 && |s.weights[0]| == 3 && |s.weights[1]| == 3
    requires 2 <= |inst.values| && 0 <= inst.classIndex < 2
    requires Guess(s.weights, inst.values) != inst.classIndex
    ensures Shaped(s, 2, 3) && Fits(inst, 2, 3)
    ensures Step(s, 2, 3, inst)
         == State(Moved(s.weights, inst.values, Guess(s.weights, inst.values), inst.classIndex), s.updates + 1)
  {
    assert Shaped(s, 2, 3);
    Score3(s.weights[0], inst.values);
    Score3(s.weights[1], inst.values);
    Predict2(s.weights, inst.values);
    assert Predict(s.weights, inst.values) == Guess(s.weights, inst.values);
    Update2(s.weights, inst.values, Guess(s.weights, inst.values), inst.classIndex);
  }

  lemma EpochOne(s: State, data: seq<Instance>)
    requires s == State(Zero(2, 3), 0) && data == Separable
    ensures AllFit(data, 2, 3)
    ensures Epoch(s, 2, 3, data) == AfterEpoch1
  {
    assert Zero(2, 3)[0] == [0.0, 0.0, 0.0] && Zero(2, 3)[1] == [0.0, 0.0, 0.0];
    assert Zero(2, 3) == [[0.0, 0.0, 0.0], [0.0, 0.0, 0.0]];
    EpochOneStep1(State(Zero(2, 3), 0), data);
    EpochOneStep2(State(Zero(2, 3), 0), data);
    EpochOneStep3(State(Zero(2, 3), 0), data);
    EpochOneStep4(AfterEpoch1, data);
    EpochChain(s, State(Zero(2, 3), 0), State(Zero(2, 3), 0), AfterEpoch1, AfterEpoch1, data);
  }

  lemma EpochTwo(s: State, data: seq<Instance>)
    requires s == AfterEpoch1 && data == Separable
    ensures AllFit(data, 2, 3)
    ensures Epoch(s, 2, 3, data) == AfterEpoch2
  {
    EpochTwoStep1(AfterEpoch1, data);
    EpochTwoStep2(State([[-5.0, -5.0, 0.0], [5.0, 5.0, 0.0]], 2), data);
    EpochTwoStep3(AfterEpoch2, data);
    EpochTwoStep4(AfterEpoch2, data);
    EpochChain(s, State([[-5.0, -5.0, 0.0], [5.0, 5.0, 0.0]], 2), AfterEpoch2, AfterEpoch2, AfterEpoch2, data);
  }

  lemma EpochThree(s: State, data: seq<Instance>)
    requires s == AfterEpoch2 && data == Separable
    ensures AllFit(data, 2, 3)
    ensures Epoch(s, 2, 3, data) == AfterEpoch3
  {
    EpochThreeStep1(AfterEpoch2, data);
    EpochThreeStep2(AfterEpoch2, data);
    EpochThreeStep3(AfterEpoch3, data);
    EpochThreeStep4(AfterEpoch3, data);
    EpochChain(s, AfterEpoch2, AfterEpoch3, AfterEpoch3, AfterEpoch3, data);
  }

  lemma EpochFour(s: State, data: seq<Instance>)
    requires s == AfterEpoch3 && data == Separable
    ensures AllFit(data, 2, 3)
    ensures Epoch(s, 2, 3, data) == AfterEpoch4
  {
    EpochFourStep1(AfterEpoch3, data);
    EpochFourStep2(AfterEpoch3, data);
    EpochFourStep3(AfterEpoch4, data);
    EpochFourStep4(AfterEpoch4, data);
    EpochChain(s, AfterEpoch3, AfterEpoch4, AfterEpoch4, AfterEpoch4, data);
  }

  lemma EpochFive(s: State, data: seq<Instance>)
    requires s == AfterEpoch4 && data == Separable
    ensures AllFit(data, 2, 3)
    ensures Epoch(s, 2, 3, data) == AfterEpoch4
  {
    EpochFiveStep1(AfterEpoch4, data);
    EpochFiveStep2(AfterEpoch4, data);
    EpochFiveStep3(AfterEpoch4, data);
    EpochFiveStep4(AfterEpoch4, data);
    EpochChain(s, AfterEpoch4, AfterEpoch4, AfterEpoch4, AfterEpoch4, data);
  }

  lemma EpochOneStep1(s: State, data: seq<Instance>)
    requires s == State(Zero(2, 3), 0) && data == Separable
    ensures Shaped(s, 2, 3) && Fits(data[0], 2, 3)
    ensures Step(s, 2, 3, data[0]) == State(Zero(2, 3), 0)
  {
  }

  lemma EpochOneStep2(s: State, data: seq<Instance>)
    requires s == State(Zero(2, 3), 0) && data == Separable
    ensures Shaped(s, 2, 3) && Fits(data[1], 2, 3)
    ensures Step(s, 2, 3, data[1]) == State(Zero(2, 3), 0)
  {
  }

  lemma EpochOneStep3(s: State, data: seq<Instance>)
    requires s == State(Zero(2, 3), 0) && data == Separable
    ensures Shaped(s, 2, 3) && Fits(data[2], 2, 3)
    ensures Step(s, 2, 3, data[2]) == AfterEpoch1
  {
    StepMoves(s, data[2]);
  }

  lemma EpochOneStep4(s: State, data: seq<Instance>)
    requires s == AfterEpoch1 && data == Separable
    ensures Shaped(s, 2, 3) && Fits(data[3], 2, 3)
    ensures Step(s, 2, 3, data[3]) == AfterEpoch1
  {
  }

  lemma EpochTwoStep1(s: State, data: seq<Instance>)
    requires s == AfterEpoch1 && data == Separable
    ensures Shaped(s, 2, 3) && Fits(data[0], 2, 3)
    ensures Step(s, 2, 3, data[0]) == State([[-5.0, -5.0, 0.0], [5.0, 5.0, 0.0]], 2)
  {
    StepMoves(s, data[0]);
  }

  lemma EpochTwoStep2(s: State, data: seq<Instance>)
    requires s == State([[-5.0, -5.0, 0.0], [5.0, 5.0, 0.0]], 2) && data == Separable
    ensures Shaped(s, 2, 3) && Fits(data[1], 2, 3)
    ensures Step(s, 2, 3, data[1]) == AfterEpoch2
  {
    StepMoves(s, data[1]);
  }

  lemma EpochTwoStep3(s: State, data: seq<Instance>)
    requires s == AfterEpoch2 && data == Separable
    ensures Shaped(s, 2, 3) && Fits(data[2], 2, 3)
    ensures Step(s, 2, 3, data[2]) == AfterEpoch2
  {
  }

  lemma EpochTwoStep4(s: State, data: seq<Instance>)
    requires s == AfterEpoch2 && data == Separable
    ensures Shaped(s, 2, 3) && Fits(data[3], 2, 3)
    ensures Step(s, 2, 3, data[3]) == AfterEpoch2
  {
  }

  lemma EpochThreeStep1(s: State, data: seq<Instance>)
    requires s == AfterEpoch2 && data == Separable
    ensures Shaped(s, 2, 3) && Fits(data[0], 2, 3)
    ensures Step(s, 2, 3, data[0]) == AfterEpoch2
  {
  }

  lemma EpochThreeStep2(s: State, data: seq<Instance>)
    requires s == AfterEpoch2 && data == Separable
    ensures Shaped(s, 2, 3) && Fits(data[1], 2, 3)
    ensures Step(s, 2, 3, data[1]) == AfterEpoch3
  {
    StepMoves(s, data[1]);
  }

  lemma EpochThreeStep3(s: State, data: seq<Instance>)
    requires s == AfterEpoch3 && data == Separable
    ensures Shaped(s, 2, 3) && Fits(data[2], 2, 3)
    ensures Step(s, 2, 3, data[2]) == AfterEpoch3
  {
  }

  lemma EpochThreeStep4(s: State, data: seq<Instance>)
    requires s == AfterEpoch3 && data == Separable
    ensures Shaped(s, 2, 3) && Fits(data[3], 2, 3)
    ensures Step(s, 2, 3, data[3]) == AfterEpoch3
  {
  }

  lemma EpochFourStep1(s: State, data: seq<Instance>)
    requires s == AfterEpoch3 && data == Separable
    ensures Shaped(s, 2, 3) && Fits(data[0], 2, 3)
    ensures Step(s, 2, 3, data[0]) == AfterEpoch3
  {
  }

  lemma EpochFourStep2(s: State, data: seq<Instance>)
    requires s == AfterEpoch3 && data == Separable
    ensures Shaped(s, 2, 3) && Fits(data[1], 2, 3)
    ensures Step(s, 2, 3, data[1]) == AfterEpoch4
  {
    StepMoves(s, data[1]);
  }

  lemma EpochFourStep3(s: State, data: seq<Instance>)
    requires s == AfterEpoch4 && data == Separable
    ensures Shaped(s, 2, 3) && Fits(data[2], 2, 3)
    ensures Step(s, 2, 3, data[2]) == AfterEpoch4
  {
  }

  lemma EpochFourStep4(s: State, data: seq<Instance>)
    requires s == AfterEpoch4 && data == Separable
    ensures Shaped(s, 2, 3) && Fits(data[3], 2, 3)
    ensures Step(s, 2, 3, data[3]) == AfterEpoch4
  {
  }

  lemma EpochFiveStep1(s: State, data: seq<Instance>)
    requires s == AfterEpoch4 && data == Separable
    ensures Shaped(s, 2, 3) && Fits(data[0], 2, 3)
    ensures Step(s, 2, 3, data[0]) == AfterEpoch4
  {
  }

  lemma EpochFiveStep2(s: State, data: seq<Instance>)
    requires s == AfterEpoch4 && data == Separable
    ensures Shaped(s, 2, 3) && Fits(data[1], 2, 3)
    ensures Step(s, 2, 3, data[1]) == AfterEpoch4
  {
  }

  lemma EpochFiveStep3(s: State, data: seq<Instance>)
    requires s == AfterEpoch4 && data == Separable
    ensures Shaped(s, 2, 3) && Fits(data[2], 2, 3)
    ensures Step(s, 2, 3, data[2]) == AfterEpoch4
  {
  }

  lemma EpochFiveStep4(s: State, data: seq<Instance>)
    requires s == AfterEpoch4 && data == Separable
    ensures Shaped(s, 2, 3) && Fits(data[3], 2, 3)
    ensures Step(s, 2, 3, data[3]) == AfterEpoch4
  {
  }
}
