/** Training: a fixed number of epochs, each an in-order pass over the
    instances, updating the weights only when the current weights mispredict
    and counting every update. */
module Training {
  import opened Matrices
  import opened Activations
  import opened Prediction
  import opened Kesler

  /** A training instance: its attribute values and its class index. The value
      in the bias slot (index A-1) may be absent; it is never read. */
  datatype Instance = Instance(values: Vector, classIndex: int)

  /** The trainer's mutable state: the weight matrix and `numWeightUpdates`. */
  datatype State = State(weights: Matrix, updates: nat)

  /** The instance can be used with a `C`-class, `A`-column weight matrix. */
  predicate Fits(inst: Instance, C: nat, A: nat)
  {
    A - 1 <= |inst.values| && 0 <= inst.classIndex < C
  }

  predicate AllFit(data: seq<Instance>, C: nat, A: nat)
  {
    forall i :: 0 <= i < |data| ==> Fits(data[i], C, A)
  }

  /** The state holds a `C` x `A` weight matrix with a bias column. */
  predicate Shaped(s: State, C: nat, A: nat)
  {
    1 <= A && IsMatrix(s.weights, C, A)
  }

  /** `inst` is classified correctly by the weights `W`. */
  predicate Correct(W: Matrix, A: nat, inst: Instance)
    requires 1 <= A && Rectangular(W, A) && A - 1 <= |inst.values|
  {
    Predict(W, inst.values) == inst.classIndex
  }

  /** Every instance of `data` is classified correctly by the fixed weights `W`. */
  predicate AllCorrect(W: Matrix, A: nat, data: seq<Instance>)
    requires 1 <= A && Rectangular(W, A)
    requires forall i :: 0 <= i < |data| ==> A - 1 <= |data[i].values|
  {
    forall i :: 0 <= i < |data| ==> Correct(W, A, data[i])
  }

  /** One instance: predict with the current weights; on a mistake apply the
      Kesler update and count it. */
  function Step(s: State, C: nat, A: nat, inst: Instance): (r: State)
    requires Shaped(s, C, A) && Fits(inst, C, A)
    ensures Shaped(r, C, A)
  {
    var predicted := Predict(s.weights, inst.values);
    if predicted != inst.classIndex then
      State(KeslerUpdate(s.weights, A, inst.values, predicted, inst.classIndex), s.updates + 1)
    else s
  }

  /** One epoch: the instances in order, each seeing the weights left by the one before. */
  function Epoch(s: State, C: nat, A: nat, data: seq<Instance>): (r: State)
    requires Shaped(s, C, A) && AllFit(data, C, A)
    ensures Shaped(r, C, A)
    ensures s.updates <= r.updates <= s.updates + |data|
    decreases |data|
  {
    if |data| == 0 then s else Epoch(Step(s, C, A, data[0]), C, A, data[1..])
  }

  /** `n` epochs in sequence. */
  function Epochs(s: State, C: nat, A: nat, data: seq<Instance>, n: nat): (r: State)
    requires Shaped(s, C, A) && AllFit(data, C, A)
    ensures Shaped(r, C, A)
    ensures s.updates <= r.updates
    decreases n
  {
    if n == 0 then s else Epochs(Epoch(s, C, A, data), C, A, data, n - 1)
  }

  /** Training from a fresh all-zero `C` x `A` matrix; a non-positive epoch
      count runs no epoch at all. The counter starts from `updates`, whatever
      earlier training left in it. */
  function Train(C: nat, A: nat, data: seq<Instance>, epochs: int, updates: nat): (r: State)
    requires 1 <= A && AllFit(data, C, A)
    ensures IsMatrix(r.weights, C, A)
    ensures updates <= r.updates
    ensures epochs <= 0 ==> r == State(Zero(C, A), updates)
  {
    Epochs(State(Zero(C, A), updates), C, A, data, if epochs < 0 then 0 else epochs)
  }

  /** A correct prediction changes nothing; a mistake changes the weights and
      adds exactly one to the counter. So the weights change exactly when the
      counter does. */
  lemma StepChangesIffMistake(s: State, C: nat, A: nat, inst: Instance)
    requires Shaped(s, C, A) && Fits(inst, C, A)
    ensures var r := Step(s, C, A, inst);
      && (Correct(s.weights, A, inst) ==> r == s)
      && (!Correct(s.weights, A, inst) ==> r.updates == s.updates + 1 && r.weights != s.weights)
      && (r.weights == s.weights <==> r.updates == s.updates)
  {
  }

  /** On a mistake only the predicted and the true rows change, by equal and
      opposite amounts: the correction (the feature, or 1 in the bias column). */
  lemma StepUpdatesTwoRows(s: State, C: nat, A: nat, inst: Instance)
    requires Shaped(s, C, A) && Fits(inst, C, A)
    requires !Correct(s.weights, A, inst)
    ensures var r := Step(s, C, A, inst);
      var p, c := Predict(s.weights, inst.values), inst.classIndex;
      && p < C && p != c
      && (forall k :: 0 <= k < C && k != p && k != c ==> r.weights[k] == s.weights[k])
      && (forall j :: 0 <= j < A - 1 ==>
            r.weights[p][j] == s.weights[p][j] - inst.values[j]
            && r.weights[c][j] == s.weights[c][j] + inst.values[j])
      && r.weights[p][A - 1] == s.weights[p][A - 1] - 1.0
      && r.weights[c][A - 1] == s.weights[c][A - 1] + 1.0
  {
  }

  /** An epoch adds nothing to the counter exactly when the starting weights
      classify every instance correctly, and then it leaves the state as it was. */
  lemma {:induction false} EpochCleanIff(s: State, C: nat, A: nat, data: seq<Instance>)
    requires Shaped(s, C, A) && AllFit(data, C, A)
    ensures Epoch(s, C, A, data).updates == s.updates <==> AllCorrect(s.weights, A, data)
    ensures AllCorrect(s.weights, A, data) ==> Epoch(s, C, A, data) == s
    decreases |data|
  {
    if |data| > 0 {
      var s1 := Step(s, C, A, data[0]);
      StepChangesIffMistake(s, C, A, data[0]);
      var rest := data[1..];
      assert AllFit(rest, C, A);
      if Correct(s.weights, A, data[0]) {
        EpochCleanIff(s, C, A, rest);
        assert AllCorrect(s.weights, A, data) <==> AllCorrect(s.weights, A, rest) by {
          if AllCorrect(s.weights, A, rest) {
            forall i | 0 <= i < |data|
              ensures Correct(s.weights, A, data[i])
            {
              if i > 0 {
                assert data[i] == rest[i - 1];
              }
            }
          }
        }
      } else {
        assert !AllCorrect(s.weights, A, data);
      }
    }
  }

  /** The mistakes one epoch makes: the instances the weights current at their
      turn misclassify. */
  function Mistakes(s: State, C: nat, A: nat, data: seq<Instance>): (k: nat)
    requires Shaped(s, C, A) && AllFit(data, C, A)
    ensures k <= |data|
    decreases |data|
  {
    if |data| == 0 then 0
    else (if Correct(s.weights, A, data[0]) then 0 else 1) + Mistakes(Step(s, C, A, data[0]), C, A, data[1..])
  }

  /** The counter grows by exactly one per mistake of the epoch. */
  lemma {:induction false} EpochCountsMistakes(s: State, C: nat, A: nat, data: seq<Instance>)
    requires Shaped(s, C, A) && AllFit(data, C, A)
    ensures Epoch(s, C, A, data).updates == s.updates + Mistakes(s, C, A, data)
    decreases |data|
  {
    if |data| > 0 {
      StepChangesIffMistake(s, C, A, data[0]);
      assert AllFit(data[1..], C, A);
      EpochCountsMistakes(Step(s, C, A, data[0]), C, A, data[1..]);
    }
  }

  /** `n` epochs make at most one update per (epoch, instance) pair. */
  lemma {:induction false} EpochsBound(s: State, C: nat, A: nat, data: seq<Instance>, n: nat)
    requires Shaped(s, C, A) && AllFit(data, C, A)
    ensures Epochs(s, C, A, data, n).updates <= s.updates + n * |data|
    decreases n
  {
    if n > 0 {
      var t := Epoch(s, C, A, data);
      EpochsUnfold(s, t, C, A, data, n);
      EpochsBound(t, C, A, data, n - 1);
      OneMoreRound(n, |data|);
    }
  }

  /** The arithmetic of one more round of `k` updates. */
  lemma OneMoreRound(n: nat, k: nat)
    requires 0 < n
    ensures (n - 1) * k + k == n * k
  {
  }

  /** Epochs after the first, given the state the first one leaves. */
  lemma EpochsUnfold(s: State, t: State, C: nat, A: nat, data: seq<Instance>, n: nat)
    requires Shaped(s, C, A) && AllFit(data, C, A) && 0 < n && Epoch(s, C, A, data) == t
    ensures Shaped(t, C, A) && Epochs(s, C, A, data, n) == Epochs(t, C, A, data, n - 1)
  {
  }

  /** `n + 1` epochs end with one more epoch run on the result of `n`. */
  lemma {:induction false} EpochsLast(s: State, C: nat, A: nat, data: seq<Instance>, n: nat)
    requires Shaped(s, C, A) && AllFit(data, C, A)
    ensures Epochs(s, C, A, data, n + 1) == Epoch(Epochs(s, C, A, data, n), C, A, data)
    decreases n
  {
    if n > 0 {
      var s1 := Epoch(s, C, A, data);
      assert Epochs(s, C, A, data, n + 1) == Epochs(s1, C, A, data, n);
      assert Epochs(s, C, A, data, n) == Epochs(s1, C, A, data, n - 1);
      EpochsLast(s1, C, A, data, n - 1);
    }
  }

  /** Running `m` epochs and then `n` more is running `m + n` epochs. */
  lemma {:induction false} EpochsCompose(s: State, C: nat, A: nat, data: seq<Instance>, m: nat, n: nat)
    requires Shaped(s, C, A) && AllFit(data, C, A)
    ensures Epochs(Epochs(s, C, A, data, m), C, A, data, n) == Epochs(s, C, A, data, m + n)
    decreases m
  {
    if m > 0 {
      var s1 := Epoch(s, C, A, data);
      assert Epochs(s, C, A, data, m) == Epochs(s1, C, A, data, m - 1);
      assert Epochs(s, C, A, data, m + n) == Epochs(s1, C, A, data, (m - 1) + n);
      EpochsCompose(s1, C, A, data, m - 1, n);
    }
  }

  /** A state an epoch leaves unchanged is left unchanged by any number of epochs:
      there is no convergence test, but after a clean epoch nothing moves again. */
  lemma {:induction false} FixedPointPersists(s: State, C: nat, A: nat, data: seq<Instance>, n: nat)
    requires Shaped(s, C, A) && AllFit(data, C, A)
    requires Epoch(s, C, A, data) == s
    ensures Epochs(s, C, A, data, n) == s
    decreases n
  {
    if n > 0 {
      FixedPointPersists(s, C, A, data, n - 1);
    }
  }

  /** A step's effect does not depend on the counter it starts from. */
  lemma StepCounterOffset(s: State, s': State, C: nat, A: nat, inst: Instance)
    requires Shaped(s, C, A) && s'.weights == s.weights && Fits(inst, C, A)
    ensures Step(s', C, A, inst).weights == Step(s, C, A, inst).weights
    ensures Step(s', C, A, inst).updates - s'.updates == Step(s, C, A, inst).updates - s.updates
  {
  }

  /** The weights an epoch produces do not depend on the counter, and the
      counter only accumulates on top of its starting value. */
  lemma {:induction false} EpochCounterOffset(s: State, s': State, C: nat, A: nat, data: seq<Instance>)
    requires Shaped(s, C, A) && s'.weights == s.weights && AllFit(data, C, A)
    ensures Epoch(s', C, A, data).weights == Epoch(s, C, A, data).weights
    ensures Epoch(s', C, A, data).updates - s'.updates == Epoch(s, C, A, data).updates - s.updates
    decreases |data|
  {
    if |data| > 0 {
      StepCounterOffset(s, s', C, A, data[0]);
      assert AllFit(data[1..], C, A);
      EpochCounterOffset(Step(s, C, A, data[0]), Step(s', C, A, data[0]), C, A, data[1..]);
    }
  }

  /** The same for any number of epochs: the counter is never reset, and the
      weights training produces do not depend on what it held before. */
  lemma {:induction false} EpochsCounterOffset(s: State, s': State, C: nat, A: nat, data: seq<Instance>, e: nat)
    requires Shaped(s, C, A) && s'.weights == s.weights && AllFit(data, C, A)
    ensures Epochs(s', C, A, data, e).weights == Epochs(s, C, A, data, e).weights
    ensures Epochs(s', C, A, data, e).updates - s'.updates == Epochs(s, C, A, data, e).updates - s.updates
    decreases e
  {
    if e > 0 {
      EpochCounterOffset(s, s', C, A, data);
      var t, t' := Epoch(s, C, A, data), Epoch(s', C, A, data);
      assert Epochs(s, C, A, data, e) == Epochs(t, C, A, data, e - 1);
      assert Epochs(s', C, A, data, e) == Epochs(t', C, A, data, e - 1);
      EpochsCounterOffset(t, t', C, A, data, e - 1);
    }
  }

  /** Every step keeps the column sums of the weights. */
  lemma {:induction false} EpochKeepsBalance(s: State, C: nat, A: nat, data: seq<Instance>)
    requires Shaped(s, C, A) && AllFit(data, C, A)
    requires Balanced(s.weights, A)
    ensures Balanced(Epoch(s, C, A, data).weights, A)
    decreases |data|
  {
    if |data| > 0 {
      var predicted := Predict(s.weights, data[0].values);
      if predicted != data[0].classIndex {
        UpdateKeepsColumnSums(s.weights, A, data[0].values, predicted, data[0].classIndex);
      }
      EpochKeepsBalance(Step(s, C, A, data[0]), C, A, data[1..]);
    }
  }

  lemma {:induction false} EpochsKeepBalance(s: State, C: nat, A: nat, data: seq<Instance>, n: nat)
    requires Shaped(s, C, A) && AllFit(data, C, A)
    requires Balanced(s.weights, A)
    ensures Balanced(Epochs(s, C, A, data, n).weights, A)
    decreases n
  {
    if n > 0 {
      EpochKeepsBalance(s, C, A, data);
      var t := Epoch(s, C, A, data);
      EpochsUnfold(s, t, C, A, data, n);
      EpochsKeepBalance(t, C, A, data, n - 1);
    }
  }

  /** Training starts from zero and every update is equal and opposite, so
      every column of the trained weights sums to zero over the classes. */
  lemma TrainedColumnsSumToZero(C: nat, A: nat, data: seq<Instance>, epochs: int, updates: nat)
    requires 1 <= A && AllFit(data, C, A)
    ensures Balanced(Train(C, A, data, epochs, updates).weights, A)
  {
    ZeroIsBalanced(C, A);
    EpochsKeepBalance(State(Zero(C, A), updates), C, A, data, if epochs < 0 then 0 else epochs);
  }

  /** Two datasets with the same labels whose values agree before the bias slot. */
  predicate SameUpToBiasSlot(data: seq<Instance>, data': seq<Instance>, A: nat)
  {
    && |data| == |data'|
    && forall i :: 0 <= i < |data| ==>
         data[i].classIndex == data'[i].classIndex && SameBefore(data[i].values, data'[i].values, A - 1)
  }

  lemma StepIgnoresBiasSlot(s: State, C: nat, A: nat, inst: Instance, inst': Instance)
    requires Shaped(s, C, A) && Fits(inst, C, A) && Fits(inst', C, A)
    requires inst.classIndex == inst'.classIndex && SameBefore(inst.values, inst'.values, A - 1)
    ensures Step(s, C, A, inst) == Step(s, C, A, inst')
  {
    PredictIgnoresBiasSlot(s.weights, A, inst.values, inst'.values);
    var predicted := Predict(s.weights, inst.values);
    if predicted != inst.classIndex {
      UpdateIgnoresBiasSlot(s.weights, A, inst.values, inst'.values, predicted, inst.classIndex);
    }
  }

  lemma {:induction false} EpochIgnoresBiasSlot(s: State, C: nat, A: nat, data: seq<Instance>, data': seq<Instance>)
    requires Shaped(s, C, A) && AllFit(data, C, A) && AllFit(data', C, A)
    requires SameUpToBiasSlot(data, data', A)
    ensures Epoch(s, C, A, data) == Epoch(s, C, A, data')
    decreases |data|
  {
    if |data| > 0 {
      StepIgnoresBiasSlot(s, C, A, data[0], data'[0]);
      var rest, rest' := data[1..], data'[1..];
      assert SameUpToBiasSlot(rest, rest', A) by {
        forall i | 0 <= i < |rest|
          ensures rest[i].classIndex == rest'[i].classIndex && SameBefore(rest[i].values, rest'[i].values, A - 1)
        {
          assert rest[i] == data[i + 1] && rest'[i] == data'[i + 1];
        }
      }
      EpochIgnoresBiasSlot(Step(s, C, A, data[0]), C, A, rest, rest');
    }
  }

  lemma {:induction false} EpochsIgnoreBiasSlot(s: State, C: nat, A: nat, data: seq<Instance>, data': seq<Instance>, n: nat)
    requires Shaped(s, C, A) && AllFit(data, C, A) && AllFit(data', C, A)
    requires SameUpToBiasSlot(data, data', A)
    ensures Epochs(s, C, A, data, n) == Epochs(s, C, A, data', n)
    decreases n
  {
    if n > 0 {
      EpochIgnoresBiasSlot(s, C, A, data, data');
      var t := Epoch(s, C, A, data);
      EpochsIgnoreBiasSlot(t, C, A, data, data', n - 1);
      EpochsUnfold(s, t, C, A, data, n);
      EpochsUnfold(s, t, C, A, data', n);
    }
  }

  /** The value in the bias slot of an instance never influences training:
      datasets that differ only there train to the same weights and count. */
  lemma TrainingIgnoresBiasSlot(C: nat, A: nat, data: seq<Instance>, data': seq<Instance>, epochs: int, updates: nat)
    requires 1 <= A && AllFit(data, C, A) && AllFit(data', C, A)
    requires SameUpToBiasSlot(data, data', A)
    ensures Train(C, A, data, epochs, updates) == Train(C, A, data', epochs, updates)
  {
    EpochsIgnoreBiasSlot(State(Zero(C, A), updates), C, A, data, data', if epochs < 0 then 0 else epochs);
  }
}
