# Multi-class perceptron (Kesler construction) in Dafny

This project models `MulticlassPerceptron`, a Weka classifier that trains one
weight row per class with the Kesler construction of the perceptron rule. It
covers:

- the activation of a weight row on an instance (`computeActivation`). This is a
  dot product whose last slot pairs the bias weight with the constant 1,
  collapsed to -1 or +1.
- the arg-max prediction (`predict`). It starts from `Integer.MIN_VALUE` and
  replaces the best class only on a strictly greater activation.
- the training loop of `buildClassifier`. It allocates a zero matrix, runs a
  fixed number of epochs over the instances in order, applies the Kesler update
  on each mistake and counts the updates.
- the one-hot `distributionForInstance` and the constant `classifyInstance`.

Weights and features are exact `real`s. Every property below is structural: the
sign range, the tie-break order, which rows change, equal and opposite
corrections, isolation of the bias column, counter bookkeeping and the one-hot
shape. None of it depends on floating-point rounding.

Modules follow the program's structure:

- `Matrices` holds vectors, matrices, the zero matrix and column sums.
- `Activations` holds the score and its sign.
- `Prediction` holds the arg-max scan.
- `Kesler` holds the weight update.
- `Training` holds a step, an epoch, `n` epochs and training from zero.
- `Classifier` holds the classifier object, building and inference.
- `Convergence` works one linearly separable dataset through to convergence.

The model follows the code as written:

- The epoch count is any parsed integer. A zero or negative count runs no epoch
  and is not rejected.
- The code does no up-front validation. An empty dataset trains to the zero
  matrix. An instance that is too short, or whose class lies outside the matrix,
  makes the Java code throw, but only once the epoch loop reaches it. The model
  reports it as `Failure(BadInstance(i))`, where `i` is the first such instance,
  and only when at least one epoch runs.

## Model

| member | source | states |
|---|---|---|
| Activations.Activation | MulticlassPerceptron.java:74-98 | the activation is -1 or +1, and it is +1 exactly when the feature terms plus the bias weight times 1 sum to zero or more |
| Activations.ComputeActivation | MulticlassPerceptron.java:74-98 | the loop over all slots but the last, followed by the bias term and the sign, computes that activation |
| Activations.ActivationIgnoresBiasSlot | MulticlassPerceptron.java:81-92 | instances agreeing on every value before the bias slot get the same score and activation: the value in the last slot is never read |
| Activations.ZeroRowActivates | MulticlassPerceptron.java:92-98 | an all-zero row scores exactly 0, which counts as activation +1 |
| Prediction.PredictFrom | MulticlassPerceptron.java:106-123 | the scan continued from any point where its accumulator is consistent ends at the first class of maximal activation, or at 0 when there are no classes |
| Prediction.Predict | MulticlassPerceptron.java:101-126 | the predicted class is a valid index, its activation is maximal, and every lower class has a strictly smaller activation |
| Prediction.PredictIsFirstActive | MulticlassPerceptron.java:101-126 | the prediction equals the first class with activation +1, or class 0 if every class scores -1 |
| Prediction.TiesGoToLowerIndex | MulticlassPerceptron.java:116-118 | of two classes with equal activation the later one is never predicted, because only a strictly greater activation replaces the best |
| Prediction.ZeroWeightsPredictFirstClass | MulticlassPerceptron.java:32 | with the freshly allocated all-zero weights every class activates and class 0 is predicted |
| Prediction.PredictIgnoresBiasSlot | MulticlassPerceptron.java:81-92 | instances agreeing before the bias slot get the same prediction |
| Kesler.KeslerUpdate | MulticlassPerceptron.java:55-59 | the update keeps the matrix C x A |
| Kesler.UpdateIsSymmetric | MulticlassPerceptron.java:55-59 | only the predicted and the true rows change. In each column the predicted row loses the correction and the true row gains it; the correction is the instance's value, or 1 in the bias column. The two rows move by equal and opposite amounts, so an update always changes the matrix |
| Kesler.UpdateKeepsColumnSums | MulticlassPerceptron.java:55-59 | every column sum over the classes is the same after the update, so a balanced matrix stays balanced |
| Kesler.UpdateIgnoresBiasSlot | MulticlassPerceptron.java:56 | the update reads only the values before the bias slot; the constant 1 stands in for the last one |
| Training.Step | MulticlassPerceptron.java:39-67 | one instance keeps the weight matrix C x A with a bias column |
| Training.Epoch | MulticlassPerceptron.java:38-68 | an epoch keeps the shape and adds between 0 and one update per instance to the counter |
| Training.Epochs | MulticlassPerceptron.java:35-71 | any number of epochs keeps the shape and never decreases the counter |
| Training.Train | MulticlassPerceptron.java:32-71 | training yields a C x A matrix, never decreases the counter, and with no epochs leaves the zero matrix and the counter as they were |
| Training.StepChangesIffMistake | MulticlassPerceptron.java:46-67 | a correct prediction changes neither weights nor counter; a mistake changes the weights and adds exactly one to the counter; the weights change exactly when the counter does |
| Training.StepUpdatesTwoRows | MulticlassPerceptron.java:46-59 | on a mistake only the predicted and the true rows change, by minus and plus the instance's value in each feature column and by minus and plus 1 in the bias column |
| Training.EpochCleanIff | MulticlassPerceptron.java:38-68 | an epoch adds no update exactly when the starting weights classify every instance correctly, and then it returns the state unchanged |
| Training.EpochCountsMistakes | MulticlassPerceptron.java:46-54 | an epoch adds to the counter exactly the number of instances misclassified by the weights current at their turn |
| Training.EpochsBound | MulticlassPerceptron.java:35-54 | n epochs add at most n times the number of instances to the counter |
| Training.EpochsLast | MulticlassPerceptron.java:35-71 | n + 1 epochs are n epochs followed by one more |
| Training.EpochsCompose | MulticlassPerceptron.java:35-71 | m epochs followed by n epochs are m + n epochs |
| Training.FixedPointPersists | MulticlassPerceptron.java:35-71 | a state that one epoch leaves unchanged is unchanged by any number of epochs |
| Training.EpochCounterOffset | MulticlassPerceptron.java:54 | the weights an epoch produces do not depend on the counter's starting value, and the counter only accumulates on top of it |
| Training.EpochsCounterOffset | MulticlassPerceptron.java:16 | the same over any number of epochs: the counter is initialised once and never reset, and the trained weights do not depend on it |
| Training.EpochKeepsBalance | MulticlassPerceptron.java:38-68 | an epoch keeps every column sum of a balanced matrix at zero |
| Training.EpochsKeepBalance | MulticlassPerceptron.java:35-71 | any number of epochs keep a balanced matrix balanced |
| Training.TrainedColumnsSumToZero | MulticlassPerceptron.java:32-59 | trained weights, starting from the zero matrix, have every column summing to zero over the classes |
| Training.StepIgnoresBiasSlot | MulticlassPerceptron.java:56 | two instances with the same class that agree before the bias slot make the same step |
| Training.EpochIgnoresBiasSlot | MulticlassPerceptron.java:38 | datasets that differ only in the bias slot give the same epoch |
| Training.EpochsIgnoreBiasSlot | MulticlassPerceptron.java:35 | datasets that differ only in the bias slot give the same result after any number of epochs |
| Training.TrainingIgnoresBiasSlot | MulticlassPerceptron.java:56 | datasets that differ only in the bias slot train to the same weights and counter |
| Classifier.NewPerceptron | MulticlassPerceptron.java:16-24 | a new classifier stores the file name and the epoch count it is given, and starts with zero updates and no weights |
| Classifier.FirstMisfit | MulticlassPerceptron.java:38-58 | it finds the first instance the training loop cannot use (too few values or a class index outside the matrix), or reports that there is none |
| Classifier.BuildClassifier | MulticlassPerceptron.java:26-72 | building fails exactly when an epoch runs and some instance is unusable, naming the first one; otherwise it keeps the configuration, yields a C x A matrix equal to training from zero, and adds that run's updates to the counter it already had |
| Classifier.DistributionForInstance | MulticlassPerceptron.java:159-163 | the distribution has one entry per class: 1 at the predicted class and 0 elsewhere, summing to 1 |
| Classifier.ClassifyInstanceIgnoresWeights | MulticlassPerceptron.java:170-173 | the classifier answers class 0 even when its distribution puts the 1 on class 1 |
| Convergence.SeparableConverges | MulticlassPerceptron.java:35-71 | on a four-instance separable dataset, training from zero makes five updates over four epochs; the result classifies every instance correctly, and any later epoch changes nothing |

## Left out

- Weka types: `Instances`, `Instance`, `Capabilities` and the classifier interface are replaced by a dataset of real-valued instances with an integer class index. `getCapabilities` returns null and is not modelled.
- Console output: the header, the per-instance progress marks, the epoch lines and all debug tracing are I/O with no effect on the state.
- `toString` and `appendWeights`: these are text formatting of doubles through a library format string.
- Constructor parsing: `Integer.parseInt` of the option strings is library parsing, so `NewPerceptron` takes the epoch count already parsed. A malformed count, which throws in Java, is not modelled.
- Floating point: weights and features are exact reals. The equal-and-opposite and zero-column-sum properties hold exactly in the model, not bit for bit on Java doubles.
- Training.Epoch: the counter is an unbounded natural. Java's `int` field would wrap after 2^31 - 1 updates.
- Class labels: Weka stores the class value as a double that the loop casts to `int`. The model takes the integer class index directly.
- Prediction.Predict: the scan runs over the rows of the weight matrix, not over `inst.numClasses()`. The two agree for instances of the training data's header, which is the only case the classifier is used on.
- The defensive copy `new Instances(instances)`: it only serves to report the class count later, and `Dataset.numClasses` stands in for it.
- Classifier.BuildClassifier: on an unusable instance Java has already allocated a new matrix and may have updated it and the counter before throwing. The model returns the failure without that partial state.
- Classifier.BuildClassifier: at least one class and one attribute are required. Weka only provides a class count once a class attribute exists, so the source always has both.
- Classifier.DistributionForInstance: it requires a built classifier with at least one class. Before building, Java's weight array is null and the call throws.
- `classifyInstance` is modelled by `Classifier.ClassifyInstance`, which always answers 0.0. It has no contract beyond that constant, so its row is the lemma contrasting it with the distribution.
