# PhPMachinist in Dafny

A verified model of the learning algorithms of PhPMachinist, a small PHP library of
machine-learning models:

- the support vector machine trained by sequential minimal optimisation (SMO), with linear,
  polynomial and RBF kernels;
- a two-layer backpropagation network and its neurons;
- multinomial naive Bayes;
- k-nearest neighbour;
- simple linear regression;
- logistic regression by gradient descent;
- a feed-forward-only network.

All arithmetic is over Dafny `real`. The transcendental functions are not computed; they are
parameters of the model:

- `exp` is a function value that is positive and maps 0 to 1; the sigmoid 1 / (1 + exp(-x)) is
  defined from it.
- `log` (naive Bayes) is an arbitrary function; the lemmas that need it take it to be monotone
  with log(1) = 0.
- `sqrt` (k-nearest neighbour) is an arbitrary function; the lemmas that need it take it to be
  strictly increasing on the non-negatives.

Random numbers are oracle parameters:

- The SMO partner index is `pick(c, i)`, where c counts the draws so far. The only constraint is
  that, for n >= 2, it returns an index below n other than i.
- The neurons' `rand(-100, 100)` draws are a `Draw`, an integer in [-100, 100].

Files and modules:

- `numerics.dfy`
  - `Wrappers`: Option and Result.
  - `Numerics`: sigmoid, dot product, squared distance, sums, truncation to int.
  - `Tally`: counting maps.
- `smo.dfy` (`Smo`): the SMO pass loop as pure state transitions, with its invariants.
- `svm.dfy` (`SupportVectorMachine`): kernels, the decision function, support-vector extraction,
  and the class `SVM`, whose in-place training loops are proved to compute the `Smo` functions.
- `backprop.dfy` (`Backpropagation`): classes `Neuron` and `NeuralNetwork`, proved against a
  value-level step function `Step`.
- `naivebayes.dfy` (`NaiveBayes`), `knn.dfy` (`NearestNeighbour`), `linreg.dfy`
  (`LeastSquares`), `logreg.dfy` (`Logistic`), `feedforward.dfy` (`FeedForward`): one class per
  PHP class, each method specified by a function whose properties are proved as lemmas.

Behaviour of the code that the model reproduces deliberately:

- SVM training errors. `train` computes every E_i with `predict`, which reads the stored fields.
  Those fields are written only after the loop, so the errors are frozen for the whole call.
  Platt's sequential minimal optimisation (1998) computes E_i from the current multipliers;
  this model follows the code.
- The SVM `degree` property is an `int`, and `pow` with a negative exponent gives the
  reciprocal power, so any integer degree is accepted.
- The SVM `bias` property is declared `int`. The trained bias is therefore stored truncated
  toward zero, and only when some multiplier is positive.
- The `===` test of L against H (SVM.php:156) compares value and PHP type. The multipliers
  start as the int 0 of `array_fill`; a bound or multiplier becomes a float once a float enters
  its computation. The model tracks whether each multiplier is a float (`State.floats`) and
  whether L and H are (`Smo.BoundKinds`). So a pair with L and H equal in value but of
  different types goes on to the eta test, as in PHP. For multipliers in [0, C] and a positive
  tolerance, `Smo.StrictEqualityHarmless` proves that the types change neither the skip
  decision nor any number. For tolerance 0, `Smo.StrictEqualityMatters` exhibits a pair where
  they decide whether a change is counted.
- With a single training instance, an instance that fails the KKT test enters the
  `do { } while ($j === $i)` loop of SVM.php:140-142, and that loop cannot end. The model marks
  the state `hung` and stops the run there (see Findings).
- The SMO loop stops after `maxIterations` consecutive passes that change nothing. It is a
  patience counter, not a cap on the number of passes.
- In the feed-forward network, layer x > 0 neurons get one more weight than their inputs. That
  weight is never read.
- The feed-forward `int` bias stores r/100 truncated, so it is -1, 0 or 1.
- The feed-forward layer sizes are arbitrary integers. A `for` loop up to a negative bound
  runs no turn, so a negative size gives an empty layer, or neurons without weights in the
  next layer.
- Reading a typed property that was never assigned (linear and logistic regression before
  `train`) is the `Uninitialised` error.
- Dividing by zero (linear regression with no points or constant x) is the `DivisionByZero`
  error.

## Model

| member | source | states |
|---|---|---|
| Numerics.Sigmoid | src/PhpMachinist/NeuralNetworks/BackpropagationFeedForward/NeuralNetwork.php:43-46 | the logistic function lies strictly between 0 and 1 and is 1/2 at 0 |
| Numerics.SigmoidDerivative | src/PhpMachinist/NeuralNetworks/BackpropagationFeedForward/NeuralNetwork.php:48-51 | a(1-a) is in (0, 1/4] for an activation in (0,1) and 0 at the ends |
| Numerics.TruncateToInt | src/PhpMachinist/Models/SVM.php:33 | storing a float into an int property truncates toward zero: the result is the integer part |
| Numerics.IntPowerReciprocal | src/PhpMachinist/Models/SVM.php:293 | for a non-zero base, `pow` with exponents e and -e gives reciprocal values |
| Numerics.Scaled | src/PhpMachinist/NeuralNetworks/BackpropagationFeedForward/Neuron.php:13-17 | rand(-100,100)/100 lies in [-1, 1] and is exactly the draw divided by 100 |
| Numerics.DotSymmetric | src/PhpMachinist/Models/SVM.php:319-329 | the dot product of equal-length vectors is symmetric |
| Numerics.DotOnlyReadsPrefix | src/PhpMachinist/Models/SVM.php:319-329 | the dot product reads only the first \|x\| entries of y |
| Numerics.DistanceSquaredProperties | src/PhpMachinist/Models/KNearestNeighbour.php:105-114 | the squared distance is non-negative, symmetric and zero between a vector and itself |
| Numerics.DistanceSquaredOnlyReadsPrefix | src/PhpMachinist/Models/SVM.php:336-346 | the squared distance reads only the first \|x\| entries of y |
| Tally.IncrementAllCounts | src/PhpMachinist/Models/KNearestNeighbour.php:84-87 | counting a list into a map adds the number of occurrences of each key |
| Tally.IncrementAllTotal | src/PhpMachinist/Models/KNearestNeighbour.php:84-87 | counting a list into a map adds its length to the total of the map |
| Tally.MapSumIncrement | src/PhpMachinist/Models/MultinomialNaiveBayes.php:52 | one increment raises the total of a counting map by one |
| Smo.Visit | src/PhpMachinist/Models/SVM.php:133-202 | visiting an instance keeps the number of multipliers and of their type tags |
| Smo.Run | src/PhpMachinist/Models/SVM.php:129-210 | the pass loop keeps the number of multipliers and of their type tags |
| Smo.Initial | src/PhpMachinist/Models/SVM.php:90-99 | training starts from n multipliers that are all the int 0, bias 0, no change counted, no draw made and no hang |
| Smo.BoundsInBox | src/PhpMachinist/Models/SVM.php:148-154 | with both multipliers in [0,C], L and H satisfy 0 <= L <= alpha_j <= H <= C |
| Smo.PairStepInBox | src/PhpMachinist/Models/SVM.php:148-180 | with ±1 labels, an applied pair step leaves both multipliers in [0,C] |
| Smo.CompensateConserves | src/PhpMachinist/Models/SVM.php:180 | the alpha_i update keeps y_i·alpha_i + y_j·alpha_j |
| Smo.PairStepConserves | src/PhpMachinist/Models/SVM.php:166-180 | an applied pair step keeps y_i·alpha_i + y_j·alpha_j |
| Smo.PairStepCases | src/PhpMachinist/Models/SVM.php:148-197 | for multipliers in [0,C] and tolerance > 0, whatever their PHP types: a pair is skipped iff L = H, eta >= 0 or the clipped change is below tolerance; otherwise alpha_j is in [L,H], it moved by at least the tolerance, and the bias is b1 if alpha_i is inside (0,C), else b2 if alpha_j is, else (b1+b2)/2 |
| Smo.StrictEqualityHarmless | src/PhpMachinist/Models/SVM.php:156 | for multipliers in [0,C] and tolerance > 0, the PHP types of alpha_i and alpha_j change neither whether the pair is skipped nor the new multipliers and bias |
| Smo.StrictEqualityMatters | src/PhpMachinist/Models/SVM.php:148-158 | with tolerance 0, a float alpha_i = 0.0 and an int alpha_j = 0 give the int L = 0 and the float H = 0.0, so `===` fails and a step that moves nothing is applied and counted; with both ints the pair is skipped |
| Smo.PairStepKinds | src/PhpMachinist/Models/SVM.php:149-180 | if every int-typed multiplier is 0 before a pair step, every int-typed multiplier it returns is 0 |
| Smo.SignedSumUpdate | src/PhpMachinist/Models/SVM.php:173-180 | replacing one multiplier changes Σ y_k·alpha_k by y_i times the change |
| Smo.SignedSumZero | src/PhpMachinist/Models/SVM.php:90 | Σ y_k·alpha_k is 0 for the all-zero start |
| Smo.VisitSkipDiscipline | src/PhpMachinist/Models/SVM.php:136-201 | a non-violating instance leaves the state unchanged; a violating one hangs when it is the only instance, and otherwise draws one partner j and either leaves multipliers, types, bias and changed count alone (skipped step) or writes both multipliers, their types and the bias and counts one change |
| Smo.PairUpdateKeepsSum | src/PhpMachinist/Models/SVM.php:199-200 | writing back a pair that keeps y_i·alpha_i + y_j·alpha_j keeps Σ y_k·alpha_k |
| Smo.InBoxUpdatePair | src/PhpMachinist/Models/SVM.php:199-200 | writing back two multipliers in [0,C] keeps every multiplier in [0,C] |
| Smo.PairStepKeepsInvariant | src/PhpMachinist/Models/SVM.php:148-200 | with ±1 labels and multipliers in [0,C], an applied pair step on two distinct instances keeps every multiplier in [0,C] and keeps Σ y_k·alpha_k |
| Smo.VisitInvariant | src/PhpMachinist/Models/SVM.php:133-202 | one visit keeps every multiplier in [0,C] and keeps Σ y_k·alpha_k |
| Smo.SweepInvariant | src/PhpMachinist/Models/SVM.php:133-202 | one pass keeps every multiplier in [0,C] and keeps Σ y_k·alpha_k |
| Smo.RunInvariant | src/PhpMachinist/Models/SVM.php:129-210 | the pass loop keeps every multiplier in [0,C] and keeps Σ y_k·alpha_k |
| Smo.OptimiseInvariant | src/PhpMachinist/Models/SVM.php:90-210 | with ±1 labels and C >= 0, training ends with every multiplier in [0,C] and Σ y_k·alpha_k = 0 |
| Smo.VisitDisciplined | src/PhpMachinist/Models/SVM.php:133-202 | a visit keeps every int-typed multiplier 0 and hangs only on a one-instance problem |
| Smo.SweepDisciplined | src/PhpMachinist/Models/SVM.php:132-203 | a pass keeps the same two facts |
| Smo.RunDisciplined | src/PhpMachinist/Models/SVM.php:129-210 | the pass loop keeps the same two facts |
| Smo.OptimiseDisciplined | src/PhpMachinist/Models/SVM.php:90-210 | for any labels, C and tolerance, training ends with every int-typed multiplier 0, and it hangs only with a single instance |
| Smo.RunAlone | src/PhpMachinist/Models/SVM.php:129-210 | with one instance that passes the KKT test, every pass changes nothing and the counter climbs to maxIterations, or by one per pass of fuel |
| Smo.OptimiseAlone | src/PhpMachinist/Models/SVM.php:136-142 | with one instance the multiplier stays 0; the run hangs iff the instance violates the KKT test and a pass runs; otherwise, with enough fuel, the loop ends after maxIterations passes |
| Smo.GuardedVisit | src/PhpMachinist/Models/SVM.php:133-202 | the visit with a guard against a missing partner keeps the number of multipliers and of their types |
| Smo.GuardedVisitNeverHangs | src/PhpMachinist/Models/SVM.php:140-142 | the guarded visit never hangs from a state that has not hung, and it equals the code's visit wherever that one does not hang |
| Smo.RunPatience | src/PhpMachinist/Models/SVM.php:101-209 | the counter always equals the number of trailing no-change passes; the loop stops only when it reaches maxIterations, a pass hangs or passes run out, and it never reached maxIterations earlier |
| Smo.OptimisePatience | src/PhpMachinist/Models/SVM.php:101-209 | from the start of training the same holds, and maxIterations <= 0 runs no pass and leaves the initial state |
| Smo.RunHangsEarly | src/PhpMachinist/Models/SVM.php:129-142 | a run that hangs does so while its counter is below maxIterations |
| Smo.OptimiseHangsEarly | src/PhpMachinist/Models/SVM.php:129-142 | a training run that hangs ends with its counter below maxIterations |
| SupportVectorMachine.Gram | src/PhpMachinist/Models/SVM.php:73-79 | the Gram matrix is n by n |
| SupportVectorMachine.TrainingErrors | src/PhpMachinist/Models/SVM.php:133-144 | one error per training instance |
| SupportVectorMachine.ApplySymmetric | src/PhpMachinist/Models/SVM.php:269-294 | the linear and polynomial kernels are symmetric; so is RBF for symmetric squared distance |
| SupportVectorMachine.RbfOfSelf | src/PhpMachinist/Models/SVM.php:304-309 | the RBF kernel of a vector with itself is 1 |
| SupportVectorMachine.GramSymmetric | src/PhpMachinist/Models/SVM.php:73-79 | the Gram matrix is symmetric |
| SupportVectorMachine.PredictWithoutSupportVectors | src/PhpMachinist/Models/SVM.php:234-243 | with no support vectors the prediction is 1 iff the bias is >= 0; a fresh model predicts 1 |
| SupportVectorMachine.TrainingErrorsRange | src/PhpMachinist/Models/SVM.php:133-144 | with ±1 labels every training error is -2, 0 or 2 |
| SupportVectorMachine.SupportExtraction | src/PhpMachinist/Models/SVM.php:213-221 | the support vectors and weights are exactly the instances with alpha > 0, in index order, with weight alpha·label, and both lists have the same length |
| SupportVectorMachine.SupportIndicesOrdered | src/PhpMachinist/Models/SVM.php:213-221 | the loop keeps an instance iff its alpha is > 0, and it visits instances in increasing index order |
| SupportVectorMachine.SupportVectorsAt | src/PhpMachinist/Models/SVM.php:213-221 | there is one support vector per kept index, and it is the feature vector at that index |
| SupportVectorMachine.SupportWeightsAt | src/PhpMachinist/Models/SVM.php:213-221 | there is one weight per kept index, and it is alpha times label at that index |
| SupportVectorMachine.SupportWeightsSum | src/PhpMachinist/Models/SVM.php:213-221 | for non-negative multipliers the stored weights add up to Σ y_k·alpha_k |
| SupportVectorMachine.TrainingProblem | src/PhpMachinist/Models/SVM.php:73-144 | the fixed inputs of one training call are well formed, with the first n labels |
| SupportVectorMachine.SupportWeightsBounds | src/PhpMachinist/Models/SVM.php:213-221 | with ±1 labels and multipliers in [0,C] every stored weight is non-zero and in [-C, C] |
| SupportVectorMachine.TrainedWeights | src/PhpMachinist/Models/SVM.php:90-221 | after training, every stored weight is non-zero and in [-C,C], and the weights add up to 0 |
| SupportVectorMachine.WeightInRange | src/PhpMachinist/Models/SVM.php:218 | a weight alpha·label with 0 < alpha <= C is non-zero and in [-C, C] |
| SupportVectorMachine.CollectSupportVectors | src/PhpMachinist/Models/SVM.php:213-221 | the appending loop builds exactly the support vectors and weights |
| SupportVectorMachine.SVM.constructor | src/PhpMachinist/Models/SVM.php:38-46 | a new model has no support vectors, no weights, bias 0 and the given kernel settings, for any integer degree |
| SupportVectorMachine.SVM.DotProduct | src/PhpMachinist/Models/SVM.php:319-329 | the accumulator loop computes the dot product |
| SupportVectorMachine.SVM.EuclideanDistanceSquared | src/PhpMachinist/Models/SVM.php:336-346 | the accumulator loop computes the squared distance |
| SupportVectorMachine.SVM.LinearKernel | src/PhpMachinist/Models/SVM.php:269-272 | the linear kernel is the dot product |
| SupportVectorMachine.SVM.PolynomialKernel | src/PhpMachinist/Models/SVM.php:291-294 | the polynomial kernel is (dot + 1)^degree, the reciprocal power for a negative degree |
| SupportVectorMachine.SVM.RbfKernel | src/PhpMachinist/Models/SVM.php:304-309 | the RBF kernel is exp(-gamma·squared distance) |
| SupportVectorMachine.SVM.KernelFunction | src/PhpMachinist/Models/SVM.php:248-259 | the three kernel names dispatch to their kernels; any other name is the UnsupportedKernel error |
| SupportVectorMachine.SVM.Predict | src/PhpMachinist/Models/SVM.php:234-243 | 1 if bias + Σ weights[k]·K(sv_k, x) >= 0, otherwise -1; an unknown kernel with support vectors is the error |
| SupportVectorMachine.SVM.GramMatrix | src/PhpMachinist/Models/SVM.php:73-79 | the nested loops fill the Gram matrix, or fail with UnsupportedKernel exactly when there is an instance and the kernel name is unknown |
| SupportVectorMachine.SVM.VisitInstance | src/PhpMachinist/Models/SVM.php:133-202 | the in-place body of the `for` loop computes `Smo.Visit`, on the multipliers and on their PHP types |
| SupportVectorMachine.SVM.Pass | src/PhpMachinist/Models/SVM.php:131-203 | one in-place pass computes `Smo.Sweep` from a changed count of 0 |
| SupportVectorMachine.SVM.Round | src/PhpMachinist/Models/SVM.php:129-210 | one iteration of the `while` loop advances `Smo.Run` by one pass |
| SupportVectorMachine.SVM.Passes | src/PhpMachinist/Models/SVM.php:99-210 | the `while` loop over the in-place arrays ends with the multipliers, types, bias, counter and hang flag of `Smo.Optimise` |
| SupportVectorMachine.SVM.Optimise | src/PhpMachinist/Models/SVM.php:90-210 | the multipliers, bias, counter and hang flag of the call are those of `Smo.Optimise` on the errors from the stored fields |
| SupportVectorMachine.SVM.Train | src/PhpMachinist/Models/SVM.php:68-229 | returns true and stores exactly the support vectors and weights of the optimised multipliers; the bias is overwritten, truncated to int, only when there is a support vector; `finished` says whether the loop reached its exit test, and a hung run never finishes; an unknown kernel with data fails and changes nothing |
| Backpropagation.LayerOutput | src/PhpMachinist/NeuralNetworks/BackpropagationFeedForward/NeuralNetwork.php:124-142 | one activation per neuron, each in (0,1) |
| Backpropagation.ForwardShape | src/PhpMachinist/NeuralNetworks/BackpropagationFeedForward/NeuralNetwork.php:53-56 | for any input no longer than the hidden neurons' weight lists, the forward pass returns one value per output neuron, each in (0,1) |
| Backpropagation.DeltaSign | src/PhpMachinist/NeuralNetworks/BackpropagationFeedForward/NeuralNetwork.php:83-86 | a delta error·o·(1-o) has the sign of the error, is at most a quarter of it in size, and is zero iff the error is |
| Backpropagation.StepKeepsShape | src/PhpMachinist/NeuralNetworks/BackpropagationFeedForward/NeuralNetwork.php:97-121 | a training step keeps both layer sizes and every weight-vector length |
| Backpropagation.StepWithoutLearning | src/PhpMachinist/NeuralNetworks/BackpropagationFeedForward/NeuralNetwork.php:97-121 | with learning rate 0 a training step changes no parameter |
| Backpropagation.StepMovesOutput | src/PhpMachinist/NeuralNetworks/BackpropagationFeedForward/NeuralNetwork.php:83-107 | output weight j moves by lr·outDelta_i·h_j and the output bias by lr·outDelta_i, with outDelta_i = (target_i - o_i)·o_i·(1 - o_i) |
| Backpropagation.StepMovesHidden | src/PhpMachinist/NeuralNetworks/BackpropagationFeedForward/NeuralNetwork.php:88-121 | hidden weight j moves by lr·hidDelta_i·input_j and the hidden bias by lr·hidDelta_i, with hidDelta_i = (Σ_j outDelta_j·w_ji)·h_i·(1 - h_i) over the pre-update output weights |
| Backpropagation.Neuron.constructor | src/PhpMachinist/NeuralNetworks/BackpropagationFeedForward/Neuron.php:11-18 | inputSize weights, each weight and the bias a draw divided by 100, hence in [-1,1] |
| Backpropagation.Neuron.Compute | src/PhpMachinist/NeuralNetworks/BackpropagationFeedForward/Neuron.php:20-29 | sigmoid of Σ_{i<\|in\|} in_i·w_i + bias, in (0,1), reading only the first \|in\| weights and changing no field |
| Backpropagation.Neuron.GetWeights | src/PhpMachinist/NeuralNetworks/BackpropagationFeedForward/Neuron.php:36-39 | returns the weights |
| Backpropagation.Neuron.SetWeights | src/PhpMachinist/NeuralNetworks/BackpropagationFeedForward/Neuron.php:41-44 | the weights become w, so a later GetWeights returns w; the bias is unchanged |
| Backpropagation.Neuron.GetBias | src/PhpMachinist/NeuralNetworks/BackpropagationFeedForward/Neuron.php:46-49 | returns the bias |
| Backpropagation.Neuron.SetBias | src/PhpMachinist/NeuralNetworks/BackpropagationFeedForward/Neuron.php:51-54 | the bias becomes b, so a later GetBias returns b; the weights are unchanged |
| Backpropagation.Units | src/PhpMachinist/NeuralNetworks/BackpropagationFeedForward/NeuralNetwork.php:10-15 | the parameters of a layer are those of its neurons, in order |
| Backpropagation.NeuralNetwork.constructor | src/PhpMachinist/NeuralNetworks/BackpropagationFeedForward/NeuralNetwork.php:21-40 | hiddenLayerSize fresh neurons with inputLayerSize weights each and outputLayerSize fresh neurons with hiddenLayerSize weights each, all weights and biases in [-1,1] |
| Backpropagation.NeuralNetwork.NewLayer | src/PhpMachinist/NeuralNetworks/BackpropagationFeedForward/NeuralNetwork.php:27-37 | the construction loop makes `size` distinct fresh neurons of `numInputs` weights in [-1,1] |
| Backpropagation.NeuralNetwork.CalculateHiddenOutput | src/PhpMachinist/NeuralNetworks/BackpropagationFeedForward/NeuralNetwork.php:124-132 | the activation of every hidden neuron on the input |
| Backpropagation.NeuralNetwork.CalculateOutput | src/PhpMachinist/NeuralNetworks/BackpropagationFeedForward/NeuralNetwork.php:134-142 | the activation of every output neuron on the hidden output |
| Backpropagation.NeuralNetwork.ForwardPropagation | src/PhpMachinist/NeuralNetworks/BackpropagationFeedForward/NeuralNetwork.php:53-56 | for any input no longer than inputLayerSize, exactly outputLayerSize values, the forward pass of the current parameters, changing no neuron |
| Backpropagation.NeuralNetwork.Deltas | src/PhpMachinist/NeuralNetworks/BackpropagationFeedForward/NeuralNetwork.php:82-95 | the loops build the output deltas and then the hidden deltas from the current output weights |
| Backpropagation.NeuralNetwork.Update | src/PhpMachinist/NeuralNetworks/BackpropagationFeedForward/NeuralNetwork.php:97-107 | one neuron's weights move by lr·delta·x_j and its bias by lr·delta, through its setters |
| Backpropagation.NeuralNetwork.Signals | src/PhpMachinist/NeuralNetworks/BackpropagationFeedForward/NeuralNetwork.php:78-95 | the hidden output and both delta vectors are those of the value-level step |
| Backpropagation.NeuralNetwork.UpdateNeurons | src/PhpMachinist/NeuralNetworks/BackpropagationFeedForward/NeuralNetwork.php:97-121 | updating a layer in place moves each neuron by its own delta |
| Backpropagation.NeuralNetwork.UpdateOutputLayer | src/PhpMachinist/NeuralNetworks/BackpropagationFeedForward/NeuralNetwork.php:97-107 | the output layer moves by the output deltas; the hidden layer is unchanged |
| Backpropagation.NeuralNetwork.UpdateHiddenLayer | src/PhpMachinist/NeuralNetworks/BackpropagationFeedForward/NeuralNetwork.php:109-121 | the hidden layer moves by the hidden deltas; the output layer is unchanged |
| Backpropagation.NeuralNetwork.BackPropagation | src/PhpMachinist/NeuralNetworks/BackpropagationFeedForward/NeuralNetwork.php:76-122 | the new parameters are exactly one `Step` from the old ones, with the same neurons in the same layers |
| NaiveBayes.Set | src/PhpMachinist/Models/MultinomialNaiveBayes.php:80-86 | writing one count changes that count in that column |
| NaiveBayes.SetLeavesOthers | src/PhpMachinist/Models/MultinomialNaiveBayes.php:80-86 | writing one column leaves every other (class, key) column unchanged |
| NaiveBayes.FirstIndex | src/PhpMachinist/Models/MultinomialNaiveBayes.php:46-49 | the first position of a label |
| NaiveBayes.ClassRatio | src/PhpMachinist/Models/MultinomialNaiveBayes.php:102 | a class frequency count/total lies in (0,1] |
| NaiveBayes.StepListed | src/PhpMachinist/Models/MultinomialNaiveBayes.php:43-52 | registering and counting one label keeps the classes list distinct and equal to the counted classes |
| NaiveBayes.TrainListed | src/PhpMachinist/Models/MultinomialNaiveBayes.php:42-52 | training keeps the classes list distinct and equal to the counted classes, each counted at least once |
| NaiveBayes.TrainClassCounts | src/PhpMachinist/Models/MultinomialNaiveBayes.php:52 | classCounts[c] grows by the number of samples labelled c and is never reset |
| NaiveBayes.TrainTotal | src/PhpMachinist/Models/MultinomialNaiveBayes.php:52 | the class counts grow in total by the number of samples |
| NaiveBayes.CountFeaturesColumns | src/PhpMachinist/Models/MultinomialNaiveBayes.php:80-86 | counting one sample bumps the value of its feature k in column (c, k) for each of its keys, and nothing else |
| NaiveBayes.TrainFeatureCounts | src/PhpMachinist/Models/MultinomialNaiveBayes.php:80-86 | featureCounts[c][k][v] grows by the number of samples labelled c whose feature k is v |
| NaiveBayes.TrainColumnSums | src/PhpMachinist/Models/MultinomialNaiveBayes.php:80-86 | the column (c, k) grows in total by the number of samples labelled c that have key k |
| NaiveBayes.WithKeyCountsAll | src/PhpMachinist/Models/MultinomialNaiveBayes.php:52-85 | if every sample labelled c has key k, the samples with key k are all the samples labelled c |
| NaiveBayes.FreshTotals | src/PhpMachinist/Models/MultinomialNaiveBayes.php:40-88 | after training a fresh model, the class counts add up to the number of samples, and Σ_v featureCounts[c][k][v] = classCounts[c] when every sample of c has key k |
| NaiveBayes.TrainClasses | src/PhpMachinist/Models/MultinomialNaiveBayes.php:46-49 | training only appends to the classes list, which stays distinct and holds exactly the old classes and the labels seen |
| NaiveBayes.NewClassFromLabels | src/PhpMachinist/Models/MultinomialNaiveBayes.php:46-49 | every appended class is a new label seen in training |
| NaiveBayes.TrainClassesOrder | src/PhpMachinist/Models/MultinomialNaiveBayes.php:46-49 | the appended classes are in order of first appearance among the labels |
| NaiveBayes.SmoothedInUnitInterval | src/PhpMachinist/Models/MultinomialNaiveBayes.php:126-133 | the smoothed ratio (count+1)/(Σ+distinct) of a seen value and 1/(Σ+distinct+1) of an unseen one lie in (0,1] |
| NaiveBayes.LogTermsNonPositive | src/PhpMachinist/Models/MultinomialNaiveBayes.php:102-133 | each feature ratio lies in (0,1], so, for a monotone log with log 1 = 0, each log term and the class term are <= 0 |
| NaiveBayes.BestIsFirstMaximum | src/PhpMachinist/Models/MultinomialNaiveBayes.php:92-142 | the choice is the first class whose score is strictly greater than the scores before it and than PHP_INT_MIN, and no class scores higher; none if no score beats PHP_INT_MIN |
| NaiveBayes.ArraySum | src/PhpMachinist/Models/MultinomialNaiveBayes.php:128 | `array_sum` of a map of counts is its total; the same helper sums the class counts at line 102 |
| NaiveBayes.MultinomialNaiveBayes.constructor | src/PhpMachinist/Models/MultinomialNaiveBayes.php:24-26 | a new model has empty tables |
| NaiveBayes.MultinomialNaiveBayes.CountSample | src/PhpMachinist/Models/MultinomialNaiveBayes.php:80-86 | the loop over a sample's features bumps each feature value's count for the label |
| NaiveBayes.MultinomialNaiveBayes.CountLabel | src/PhpMachinist/Models/MultinomialNaiveBayes.php:43-52 | a new label is appended to the classes and the label's count grows by one |
| NaiveBayes.MultinomialNaiveBayes.Train | src/PhpMachinist/Models/MultinomialNaiveBayes.php:40-88 | the tables become those of counting all samples on top of the old tables |
| NaiveBayes.MultinomialNaiveBayes.ClassScore | src/PhpMachinist/Models/MultinomialNaiveBayes.php:102-134 | log of the class frequency plus the log of every smoothed feature ratio |
| NaiveBayes.MultinomialNaiveBayes.Consider | src/PhpMachinist/Models/MultinomialNaiveBayes.php:136-139 | a class replaces the best so far only when its score is strictly greater |
| NaiveBayes.MultinomialNaiveBayes.Predict | src/PhpMachinist/Models/MultinomialNaiveBayes.php:90-143 | the first class, in insertion order, with the strictly greatest score |
| NearestNeighbour.DistanceSquaredNonNegative | src/PhpMachinist/Models/KNearestNeighbour.php:105-114 | the squared distance is non-negative |
| NearestNeighbour.DistancesAfter | src/PhpMachinist/Models/KNearestNeighbour.php:67-74 | one distance entry per training item considered |
| NearestNeighbour.DistancesEntries | src/PhpMachinist/Models/KNearestNeighbour.php:67-74 | entry i carries the class of item i and its distance to the sample |
| NearestNeighbour.InsertSorted | src/PhpMachinist/Models/KNearestNeighbour.php:77 | inserting into a list sorted by distance keeps it sorted |
| NearestNeighbour.InsertPermutes | src/PhpMachinist/Models/KNearestNeighbour.php:77 | inserting adds exactly the one entry |
| NearestNeighbour.SortSorted | src/PhpMachinist/Models/KNearestNeighbour.php:77 | the sort orders by non-decreasing distance and is a permutation |
| NearestNeighbour.SortKeepsSorted | src/PhpMachinist/Models/KNearestNeighbour.php:77 | sorting a sorted list leaves it as it is |
| NearestNeighbour.Slice | src/PhpMachinist/Models/KNearestNeighbour.php:80 | `array_slice(d, 0, k)` is the prefix of length min(k, n) for k >= 0, and drops the last -k entries for k < 0 |
| NearestNeighbour.VotesCount | src/PhpMachinist/Models/KNearestNeighbour.php:84-87 | each class's vote is its number of occurrences among the selected neighbours |
| NearestNeighbour.VotesTotal | src/PhpMachinist/Models/KNearestNeighbour.php:84-87 | the votes add up to the number of selected neighbours |
| NearestNeighbour.KeysAfterVotes | src/PhpMachinist/Models/KNearestNeighbour.php:84-87 | the vote keys are distinct and are exactly the selected classes |
| NearestNeighbour.CountedIsPresent | src/PhpMachinist/Models/KNearestNeighbour.php:84-87 | a class has a vote iff it is among the selected neighbours |
| NearestNeighbour.TopVotedIsFirstMaximum | src/PhpMachinist/Models/KNearestNeighbour.php:89-92 | there is a winner iff there are votes; it has the maximum vote |
| NearestNeighbour.PredictionIsMajority | src/PhpMachinist/Models/KNearestNeighbour.php:48-93 | with a non-empty selection the answer is the class of a selected neighbour with the most votes; with none there is no answer |
| NearestNeighbour.NearestAreClosest | src/PhpMachinist/Models/KNearestNeighbour.php:67-80 | the sorted list is a permutation of the distances, the selection is its prefix of length min(k, n), and no unselected entry is closer than a selected one |
| NearestNeighbour.Rescaled | src/PhpMachinist/Models/KNearestNeighbour.php:113 | applying sqrt to each distance keeps the list length |
| NearestNeighbour.InsertRescaled | src/PhpMachinist/Models/KNearestNeighbour.php:77 | inserting by sqrt distance gives the same order as by squared distance |
| NearestNeighbour.SortRescaled | src/PhpMachinist/Models/KNearestNeighbour.php:77 | sorting by sqrt distance gives the same order as by squared distance |
| NearestNeighbour.DistancesRescaled | src/PhpMachinist/Models/KNearestNeighbour.php:67-74 | the distances are sqrt of the squared distances, which are non-negative |
| NearestNeighbour.PredictionIgnoresSqrt | src/PhpMachinist/Models/KNearestNeighbour.php:48-93 | for any strictly increasing sqrt, the prediction equals the one made on squared distances |
| NearestNeighbour.NearestRescaled | src/PhpMachinist/Models/KNearestNeighbour.php:77-87 | the selected classes do not depend on sqrt |
| NearestNeighbour.SliceRescaled | src/PhpMachinist/Models/KNearestNeighbour.php:80 | slicing commutes with rescaling the distances |
| NearestNeighbour.ClassNamesRescaled | src/PhpMachinist/Models/KNearestNeighbour.php:84-87 | rescaling the distances keeps the classes |
| NearestNeighbour.KNearestNeighbour.constructor | src/PhpMachinist/Models/KNearestNeighbour.php:22-26 | stores k, with no training data |
| NearestNeighbour.KNearestNeighbour.Train | src/PhpMachinist/Models/KNearestNeighbour.php:28-31 | replaces the stored training data wholesale |
| NearestNeighbour.KNearestNeighbour.EuclideanDistance | src/PhpMachinist/Models/KNearestNeighbour.php:105-114 | sqrt of the accumulated squared distance |
| NearestNeighbour.KNearestNeighbour.DistanceList | src/PhpMachinist/Models/KNearestNeighbour.php:67-74 | the appending loop builds one (class, distance) entry per training item, in order |
| NearestNeighbour.KNearestNeighbour.CountVotes | src/PhpMachinist/Models/KNearestNeighbour.php:81-87 | the vote loop builds the vote map and its keys in first-seen order |
| NearestNeighbour.KNearestNeighbour.Predict | src/PhpMachinist/Models/KNearestNeighbour.php:48-93 | sort, slice, vote and pick a class with the most votes among the k nearest |
| LeastSquares.CrossDeviations | src/PhpMachinist/Models/LinearRegression.php:68 | one cross-deviation term per point |
| LeastSquares.SquaredDeviations | src/PhpMachinist/Models/LinearRegression.php:80 | one squared-deviation term per point |
| LeastSquares.Predictions | src/PhpMachinist/Models/LinearRegression.php:102-114 | one prediction per input |
| LeastSquares.SquaredDeviationSign | src/PhpMachinist/Models/LinearRegression.php:80 | each squared deviation is >= 0 and is 0 iff x_i equals the mean |
| LeastSquares.SumOfNonNegative | src/PhpMachinist/Models/LinearRegression.php:80 | a sum of non-negative terms is >= 0 and is 0 iff every term is |
| LeastSquares.SumAffine | src/PhpMachinist/Models/LinearRegression.php:41-42 | the sum of a + b·x_i is n·a + b·Σx |
| LeastSquares.DenominatorNonNegative | src/PhpMachinist/Models/LinearRegression.php:80 | the denominator Σ(x_i - meanX)² is >= 0 |
| LeastSquares.DenominatorZeroIffConstant | src/PhpMachinist/Models/LinearRegression.php:41-80 | the denominator is 0 iff all x are equal |
| LeastSquares.FitFailsIff | src/PhpMachinist/Models/LinearRegression.php:41-88 | training divides by zero iff there are no points or all x are equal |
| LeastSquares.FitThroughMeans | src/PhpMachinist/Models/LinearRegression.php:96 | the fitted line passes through (meanX, meanY) |
| LeastSquares.ExactFit | src/PhpMachinist/Models/LinearRegression.php:68-96 | points on y = a + b·x with non-constant x give slope b and intercept a |
| LeastSquares.ExactMeans | src/PhpMachinist/Models/LinearRegression.php:41-42 | the mean of points on a line lies on the line |
| LeastSquares.ExactTerms | src/PhpMachinist/Models/LinearRegression.php:68-80 | for points on y = a + b·x each cross-deviation term is b times the squared deviation |
| LeastSquares.ExactFitReproduces | src/PhpMachinist/Models/LinearRegression.php:68-114 | for points on a line with non-constant x, predicting at the training x gives back the training y |
| LeastSquares.PredictionsOnLine | src/PhpMachinist/Models/LinearRegression.php:102-114 | predicting with line (b, a) gives a + b·x for every x |
| LeastSquares.ResidualsCancel | src/PhpMachinist/Models/LinearRegression.php:96-111 | the fitted predictions at the training x add up to Σy |
| LeastSquares.ThroughMeansCancels | src/PhpMachinist/Models/LinearRegression.php:96-111 | any line through the mean point has predictions that add up to Σy |
| LeastSquares.PredictionsSum | src/PhpMachinist/Models/LinearRegression.php:111 | the predictions add up to n·intercept + slope·Σx |
| LeastSquares.SumDeviations | src/PhpMachinist/Models/LinearRegression.php:57-81 | the accumulator loop computes the numerator and the denominator |
| LeastSquares.LinearRegression.constructor | src/PhpMachinist/Models/LinearRegression.php:24-25 | a new model has no fitted line |
| LeastSquares.LinearRegression.Train | src/PhpMachinist/Models/LinearRegression.php:31-100 | stores the least-squares line, or fails with DivisionByZero and changes nothing |
| LeastSquares.LinearRegression.Predict | src/PhpMachinist/Models/LinearRegression.php:102-114 | one value slope·x + intercept per input, in order, and no field changes; before training, non-empty input is the Uninitialised error |
| Logistic.Probabilities | src/PhpMachinist/Models/LogisticRegression.php:167-198 | one probability per sample, each in (0,1) |
| Logistic.Errors | src/PhpMachinist/Models/LogisticRegression.php:117-119 | `array_map` over two lists has the length of the longer one |
| Logistic.Gradient | src/PhpMachinist/Models/LogisticRegression.php:148-150 | one gradient term per error |
| Logistic.Descended | src/PhpMachinist/Models/LogisticRegression.php:132-163 | the weight update keeps the number of weights |
| Logistic.Step | src/PhpMachinist/Models/LogisticRegression.php:99-164 | one iteration keeps the number of weights |
| Logistic.Iterate | src/PhpMachinist/Models/LogisticRegression.php:99-164 | any number of iterations keeps the number of weights |
| Logistic.Labels | src/PhpMachinist/Models/LogisticRegression.php:200-207 | one label per probability, each 0 or 1 |
| Logistic.FitShape | src/PhpMachinist/Models/LogisticRegression.php:67-87 | training fails iff there are no samples, and otherwise keeps numFeatures weights |
| Logistic.FitWithoutIterations | src/PhpMachinist/Models/LogisticRegression.php:87-99 | with numIterations <= 0 the weights stay zero and the intercept 0 |
| Logistic.ZeroWeightedSum | src/PhpMachinist/Models/LogisticRegression.php:179-185 | zero weights give logit 0 |
| Logistic.FirstProbabilities | src/PhpMachinist/Models/LogisticRegression.php:87-106 | from the zero start every first prediction is 1/2 |
| Logistic.DescendWithoutLearning | src/PhpMachinist/Models/LogisticRegression.php:127-162 | learning rate 0 leaves a parameter unchanged |
| Logistic.StepWithoutLearning | src/PhpMachinist/Models/LogisticRegression.php:127-162 | with learning rate 0 an iteration changes nothing |
| Logistic.StepAtPerfectFit | src/PhpMachinist/Models/LogisticRegression.php:117-162 | when every error is 0 an iteration changes nothing |
| Logistic.IterateFixedPoint | src/PhpMachinist/Models/LogisticRegression.php:99-164 | a parameter set that one iteration leaves unchanged stays unchanged for any number of iterations |
| Logistic.DescendDirection | src/PhpMachinist/Models/LogisticRegression.php:127-162 | with a positive learning rate a parameter decreases when the summed gradient is positive, increases when it is negative, and stays when it is 0 |
| Logistic.InterceptDirection | src/PhpMachinist/Models/LogisticRegression.php:127 | the intercept falls when every error is positive and rises when every error is negative |
| Logistic.WeightDirection | src/PhpMachinist/Models/LogisticRegression.php:148-162 | weight i moves against the sign of its summed gradient, computed from the same error vector |
| Logistic.LabelsMonotone | src/PhpMachinist/Models/LogisticRegression.php:204-206 | a label is 1 iff the probability reaches the threshold, and raising the threshold never turns a 0 into a 1 |
| Logistic.DecisionBoundary | src/PhpMachinist/Models/LogisticRegression.php:193-206 | for an increasing exp, threshold 1/2 labels a sample 1 iff its logit is >= 0 |
| Logistic.LogisticRegression.constructor | src/PhpMachinist/Models/LogisticRegression.php:30-31 | a new model has no trained parameters |
| Logistic.LogisticRegression.SampleLogit | src/PhpMachinist/Models/LogisticRegression.php:179-185 | the accumulator loop computes intercept + Σ_i w_i·x_i |
| Logistic.LogisticRegression.PredictProbability | src/PhpMachinist/Models/LogisticRegression.php:167-198 | one sigmoid(intercept + Σ_i w_i·x_i) per sample, changing nothing; before training, non-empty input is the Uninitialised error |
| Logistic.LogisticRegression.Predict | src/PhpMachinist/Models/LogisticRegression.php:200-207 | each probability mapped to 1 if it reaches the threshold, else 0, in order |
| Logistic.LogisticRegression.UpdateWeights | src/PhpMachinist/Models/LogisticRegression.php:132-163 | every weight i decreases by lr·mean(error_s·x_s[i]) and the intercept is untouched |
| Logistic.LogisticRegression.Iteration | src/PhpMachinist/Models/LogisticRegression.php:104-164 | one iteration is exactly `Step`: one shared error vector, then the intercept and every weight move |
| Logistic.LogisticRegression.Train | src/PhpMachinist/Models/LogisticRegression.php:64-165 | from zero weights and intercept, the iterations yield the parameters of `Fit`; no samples fails and changes nothing |
| Logistic.LogisticRegression.GetWeights | src/PhpMachinist/Models/LogisticRegression.php:209-212 | the weights, or Uninitialised before training |
| Logistic.LogisticRegression.GetIntercept | src/PhpMachinist/Models/LogisticRegression.php:214-217 | the intercept, or Uninitialised before training |
| FeedForward.InitialBias | src/PhpMachinist/NeuralNetworks/FeedForward/Neuron.php:47 | the `int` bias stores r/100 truncated: -1 iff r = -100, 1 iff r = 100, else 0 |
| FeedForward.LayerOutput | src/PhpMachinist/NeuralNetworks/FeedForward/NeuralNetwork.php:73-81 | one activation per neuron, each in (0,1) |
| FeedForward.Propagate | src/PhpMachinist/NeuralNetworks/FeedForward/NeuralNetwork.php:67-84 | after some layers the width is that of the last layer applied, or of the input when none is |
| FeedForward.ForwardShape | src/PhpMachinist/NeuralNetworks/FeedForward/NeuralNetwork.php:40-84 | a network of the constructor's shape accepts any input no longer than a non-empty first layer's weights; the output has max(0, layerSizes[last]) values in (0,1), or is the input when there are no layers |
| FeedForward.ActivationReadsPrefix | src/PhpMachinist/NeuralNetworks/FeedForward/Neuron.php:63-64 | an activation reads only the bias and the first \|inputs\| weights |
| FeedForward.PropagateReadsPrefix | src/PhpMachinist/NeuralNetworks/FeedForward/NeuralNetwork.php:73-81 | two networks that agree on the weights each layer reads give the same output |
| FeedForward.LastWeightUnused | src/PhpMachinist/NeuralNetworks/FeedForward/NeuralNetwork.php:40 | changing the extra last weight of any neuron that has weights in a layer x > 0 keeps the shape and does not change the output |
| FeedForward.Neuron.constructor | src/PhpMachinist/NeuralNetworks/FeedForward/Neuron.php:9-48 | max(0, numInputs) weights, each a draw divided by 100 (hence in [-1,1]), and the truncated bias of the next draw |
| FeedForward.Neuron.Activate | src/PhpMachinist/NeuralNetworks/FeedForward/Neuron.php:50-68 | sigmoid(bias + Σ_{i<\|in\|} in_i·w_i), changing no field |
| FeedForward.NeuralNetwork.constructor | src/PhpMachinist/NeuralNetworks/FeedForward/NeuralNetwork.php:18-61 | one layer per size, layer x with max(0, layerSizes[x]) neurons; layer 0 neurons get max(0, layerSizes[0]) weights and layer x > 0 neurons max(0, layerSizes[x-1] + 1), each weight a draw divided by 100 |
| FeedForward.NeuralNetwork.ForwardLayer | src/PhpMachinist/NeuralNetworks/FeedForward/NeuralNetwork.php:73-80 | the appending loop computes every neuron's activation on the previous layer's output |
| FeedForward.NeuralNetwork.Forward | src/PhpMachinist/NeuralNetworks/FeedForward/NeuralNetwork.php:67-84 | each layer's output is the next layer's input, and the result is the propagation through all layers, changing no neuron |

## Left out

- Floating point: IEEE rounding, overflow, NaN and infinities are not modelled; every number is
  an exact real.
- `exp`, `log` and `sqrt` are parameters, not computed, so nothing is proved about numeric
  quality: accuracy of any model, XOR convergence, or SMO convergence.
- Random draws: `mt_rand` in SMO is the `pick` oracle, and the neurons' `rand` calls are
  `Draw` parameters. No distribution is modelled.
- Smo.Run: the number of passes is bounded by a `fuel` parameter. PHP's loop has no bound and need
  not end; the model says nothing about runs longer than the fuel.
- Numerics.IntPower: PHP's `pow` gives INF for a zero base and a negative exponent; reals have
  no infinity, and the model gives 0 there (part of floating point, left out above).
- Backpropagation.NeuralNetwork.constructor: the three sizes are `nat`. PHP's `int` parameters
  also take negative sizes, for which the `for` loops build an empty layer; the model does not
  take such sizes.
- Backpropagation.Neuron.constructor: `inputSize` is a `nat`. PHP's `int $inputSize` also takes a
  negative size, which gives an empty weight list; the only caller passes the network's `nat`
  sizes.
- SupportVectorMachine.SVM.Train: the stored fields are PHP's only when `finished` is true. When
  the loop needs more passes than the fuel, or a single violating instance hangs it, the model
  still returns, and `finished` is false.
- SupportVectorMachine.SVM.Train: labels are integers. PHP takes any numeric labels, floats such
  as ±1.0 included; float labels, and the int/float mixes they bring into `===` and into the
  multipliers' types, are not modelled.
- SupportVectorMachine.SVM.Train: does not require ±1 labels, because PHP does not check them.
  The box and conservation invariants (`Smo.OptimiseInvariant`, `SupportVectorMachine.TrainedWeights`)
  are proved for ±1 labels only.
- Dimension checks: the methods require that every vector read is at least as long as the
  vector it is combined with. PHP reads past the end as null. Two models do reproduce such a
  read, as 0: logistic regression (its loops index the weights by the sample) and linear
  regression (a `yData` shorter than `xData`).
- PHP array keys: numeric-string key coercion is not modelled. Labels and feature values are
  strings; feature keys are the positions 0..n-1.
- NaiveBayes: the nested arrays `featureCounts[c][k][v]` are one map keyed by (c, k), because
  the code only ever reads them together.
- NaiveBayes.MultinomialNaiveBayes.Predict: requires every class to have a column for each key
  of the sample. Otherwise `array_sum(null)` throws in PHP 8. With no class, or no score above
  PHP_INT_MIN, the method would return null although it is declared `string`, so PHP 8 throws a
  TypeError; the model's None stands for that TypeError.
- NearestNeighbour.KNearestNeighbour.Predict: the winner among tied vote counts depends on the
  stability of `arsort` across PHP versions. The model picks the first maximum in first-seen
  order; only "has the maximum vote" is proved. `usort` ties are kept in insertion order
  (insertion sort), which PHP 8's stable sort also does.
- NearestNeighbour.KNearestNeighbour.Predict: with k = 0 or no data the method would return null
  although it is declared `string`, so PHP 8 throws a TypeError; the model's None stands for
  that TypeError.
- Logistic: labels are reals. PHP subtracts whatever is in `$y`; only numeric labels are modelled.
- Default arguments: Dafny has none, so every PHP default is an explicit parameter the caller
  passes: `$kernel = 'linear'`, `$degree = 3` and `$gamma = 0.5` of the SVM constructor
  (SVM.php:38); `$regularization = 1.0`, `$tolerance = 0.001` and `$maxIterations = 100` of SVM
  `train` (SVM.php:68); `$learningRate = 0.01` and `$numIterations = 100` of logistic `train`
  (LogisticRegression.php:64); `$threshold = 0.5` of logistic `predict`
  (LogisticRegression.php:200).
- The scripts of the Examples directory are command-line demonstrations with literal data and `echo`;
  they are not part of this model.

## Findings

| source | as written | input that shows it | evidently intended | confidence | as-written member | corrected member |
|---|---|---|---|---|---|---|
| src/PhpMachinist/Models/SVM.php:140-142 | `do { $j = mt_rand(0, $numInstances - 1); } while ($j === $i);` with nothing to check that a second instance exists | one training instance that fails the KKT test: features [[1.0]] and labels [-1] on a fresh model with the default C = 1.0 and tolerance 0.001 (predict gives 1, so y·E = -2 < -0.001 and alpha = 0 < C); `mt_rand(0, 0)` is always 0 = i, so `train` never returns | an instance without a partner is passed over, as if no pair step applied | not executed | Smo.OptimiseAlone | Smo.GuardedVisitNeverHangs |
