/** The classifier object: configuration, the update counter that survives
    retraining, building from a dataset, and inference. */
module Classifier {
  import opened Matrices
  import opened Activations
  import opened Prediction
  import opened Training

  /** The classifier's fields. `weights` is empty until the classifier is built;
      after building it has one row per class of the training data. */
  datatype Perceptron = Perceptron(
    inputFileName: string,
    numTrainingEpochs: int,
    numWeightUpdates: nat,
    weights: Matrix)

  /** A dataset as the host framework supplies it. */
  datatype Dataset = Dataset(numClasses: nat, numAttributes: nat, instances: seq<Instance>)

  /** Building fails at the first instance the training loop cannot use: one
      with too few values, or a class index outside the weight matrix. */
  datatype BuildError = BadInstance(index: nat)

  datatype Result<T> = Success(value: T) | Failure(error: BuildError)

  /** The constructor, with the epoch count already parsed. */
  function NewPerceptron(inputFileName: string, numTrainingEpochs: int): (p: Perceptron)
    ensures p.inputFileName == inputFileName && p.numTrainingEpochs == numTrainingEpochs
    ensures p.numWeightUpdates == 0 && |p.weights| == 0
  {
    Perceptron(inputFileName, numTrainingEpochs, 0, [])
  }

  /** Index of the first instance from `i` on that does not fit, or `|data|`. */
  function FirstMisfit(data: seq<Instance>, C: nat, A: nat, i: nat): (r: nat)
    requires i <= |data|
    ensures i <= r <= |data|
    ensures forall k :: i <= k < r ==> Fits(data[k], C, A)
    ensures r < |data| ==> !Fits(data[r], C, A)
    decreases |data| - i
  {
    if i == |data| then |data|
    else if !Fits(data[i], C, A) then i
    else FirstMisfit(data, C, A, i + 1)
  }

  /** Allocate a zero `numClasses` x `numAttributes` matrix and train on it.
      The epoch loop runs only for a positive epoch count; when it runs, the
      first unusable instance aborts the build. The counter is carried over
      from before, never reset. */
  function BuildClassifier(p: Perceptron, d: Dataset): (r: Result<Perceptron>)
    requires 1 <= d.numClasses && 1 <= d.numAttributes
    ensures r.Failure? <==> 0 < p.numTrainingEpochs && !AllFit(d.instances, d.numClasses, d.numAttributes)
    ensures r.Failure? ==>
      && r.error.index < |d.instances|
      && !Fits(d.instances[r.error.index], d.numClasses, d.numAttributes)
      && forall k :: 0 <= k < r.error.index ==> Fits(d.instances[k], d.numClasses, d.numAttributes)
    ensures r.Success? ==>
      && r.value.inputFileName == p.inputFileName
      && r.value.numTrainingEpochs == p.numTrainingEpochs
      && IsMatrix(r.value.weights, d.numClasses, d.numAttributes)
      && p.numWeightUpdates <= r.value.numWeightUpdates
    ensures r.Success? && p.numTrainingEpochs <= 0 ==>
      r.value.weights == Zero(d.numClasses, d.numAttributes) && r.value.numWeightUpdates == p.numWeightUpdates
    ensures r.Success? && 0 < p.numTrainingEpochs ==>
      var run := Train(d.numClasses, d.numAttributes, d.instances, p.numTrainingEpochs, 0);
      && r.value.weights == run.weights
      && r.value.numWeightUpdates == p.numWeightUpdates + run.updates
  {
    var C, A := d.numClasses, d.numAttributes;
    if p.numTrainingEpochs <= 0 then
      Success(p.(weights := Zero(C, A)))
    else
      var bad := FirstMisfit(d.instances, C, A, 0);
      if bad < |d.instances| then
        Failure(BadInstance(bad))
      else
        var s := Train(C, A, d.instances, p.numTrainingEpochs, p.numWeightUpdates);
        EpochsCounterOffset(State(Zero(C, A), 0), State(Zero(C, A), p.numWeightUpdates),
                            C, A, d.instances, p.numTrainingEpochs);
        Success(p.(weights := s.weights, numWeightUpdates := s.updates))
  }

  /** One-hot vector over the classes, with the 1 at the predicted class. */
  function DistributionForInstance(p: Perceptron, x: Vector): (r: seq<real>)
    requires 1 <= |p.weights| && AllApplicable(p.weights, x)
    ensures |r| == |p.weights|
    ensures r[Predict(p.weights, x)] == 1.0
    ensures forall k :: 0 <= k < |r| && k != Predict(p.weights, x) ==> r[k] == 0.0
    ensures Sum(r) == 1.0
  {
    var hot := Predict(p.weights, x);
    var r := seq(|p.weights|, k => if k == hot then 1.0 else 0.0);
    OneHotSum(r, hot);
    r
  }

  /** Java's `classifyInstance`: a stub answering class 0 whatever the
      weights and the instance. */
  function ClassifyInstance(p: Perceptron, x: Vector): real
  {
    0.0
  }

  /** The stub does not follow the distribution: a two-class perceptron whose
      only weights are biases -1 and +1 puts the 1 of its distribution at class
      1 while the stub answers 0. */
  lemma ClassifyInstanceIgnoresWeights()
    ensures var p := Perceptron("", 1, 0, [[-1.0], [1.0]]);
      && AllApplicable(p.weights, [])
      && DistributionForInstance(p, [])[1] == 1.0
      && ClassifyInstance(p, []) == 0.0
  {
  }
}
