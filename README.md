# Feed-forward network trainer, modelled in Dafny

This project models the feed-forward neural network of
`project2/src/neural_network.py`: a regression network that predicts one value
per sample. It is built from a width sequence `p` as `len(p) - 2` Hidden layers
(relu, xavier initialisation) and one Output layer (identity, xavier). It is
trained by mini-batch gradient descent with an L2 penalty:

- every epoch shuffles an index array in place;
- it then runs `backprop` on each full batch of that order;
- it ends by appending the training and test mean squared errors to a history.

The model follows the source's imperative form:

- `HiddenLayer`, `OutputLayer` and `FFNN` are classes whose methods update
  their fields in place.
- `forward` overwrites `input` and `z`. `backward` stages `delta`, `dW` and
  `db`. `update` steps `weights` and `bias`.
- `set_layers` builds the layers in a loop, `predict` threads a batch through
  them in a loop, and `backprop` sweeps the Hidden layers in reverse.
- `train` shuffles an `array<nat>` in place and appends to the history map
  inside nested loops.

Every method is proved against pure functions:

- `LayerMath` holds the per-layer formulas;
- `NetworkSpec` holds the whole network as a value: `Propagate`, `Predicted`,
  `AfterBackprop`, `AfterBatches`, `AfterEpochs` and `History`;
- the properties the source relies on are lemmas about those functions.

Numbers are exact `real`s. A matrix is a `seq<seq<real>>` whose shape is stated
by `IsMatrix`.

Three random or external pieces are parameters:

- the initial weights each layer draws (`Draw`);
- the permutation `np.random.shuffle` applies in each epoch (`shuffles`);
- the four activation functions with their derivatives (`Catalogue`), because
  the activations module is not part of this model.

Modules, in dependency order:

- `LinearAlgebra`: the array operations.
- `Activations`: name-keyed resolution of activations and initialisers, with
  configuration errors.
- `LayerMath`: the forward map, the two `backward` variants and the regularised
  step, as functions.
- `Squeeze`: the Output layer's weight squeeze, at the level of shapes (see
  Findings).
- `Layers`: the two layer classes.
- `Batching`: index permutations, `n // batch_size` and the batch slices.
- `NetworkSpec`: the network, `backprop` and `train` as functions.
- `Network`: the `FFNN` class.

The source keeps one list `layers` whose last entry is the Output layer. The
model keeps the Hidden layers in `hidden` and the Output layer in `output`.
`Wired()` fixes how many layers there are, their widths along `p`, and that no
layer object appears twice. `SetLayers` additionally pins each layer's
activation and initialiser names.

## Model

| member | source | states |
|---|---|---|
| Activations.ResolveActivation | project2/src/neural_network.py:21-25 | resolution succeeds iff the name is one of the four imported activations, and each name selects the activation of that name; otherwise it is a configuration error naming the activation |
| Activations.ResolveInit | project2/src/neural_network.py:27-31 | resolution succeeds iff the name is `xavier` or `kaiming`; otherwise it is a configuration error naming the initialiser |
| Activations.ResolveLayer | project2/src/neural_network.py:18-31 | a layer configuration resolves iff both names do; an unknown initialiser is reported first, since the weights are set before the activation; on success the pair holds the named scheme and the activation its name selects |
| Activations.NetworkConfigurationsResolve | project2/src/neural_network.py:80-81 | the two configurations `set_layers` uses, (xavier, relu) and (xavier, identity), both resolve, so building a network never fails |
| LayerMath.PreActivation | project2/src/neural_network.py:35 | `input @ W + b` of a B-by-n batch is B-by-m |
| LayerMath.DenseForward | project2/src/neural_network.py:33-36 | a Hidden layer's output keeps the batch's row count and has the layer's width |
| LayerMath.HeadPreActivation | project2/src/neural_network.py:35 | with squeezed weights, the Output layer's `z` has one entry per row |
| LayerMath.HeadForward | project2/src/neural_network.py:33-36 | the Output layer predicts one value per row of the batch |
| LayerMath.HiddenDelta | project2/src/neural_network.py:50 | `upstream * d_act(z)` has the shape of `z` |
| LayerMath.Downstream | project2/src/neural_network.py:51 | `delta @ W.T` is batch-by-n_input, the shape the preceding layer's output had |
| LayerMath.SampleOuterProducts | project2/src/neural_network.py:52 | `np.einsum('ij,ik->jki', input, delta)` is an n_input-by-n_output-by-B array |
| LayerMath.MeanLastAxis | project2/src/neural_network.py:52 | `.mean(axis=-1)` of an n-by-m-by-B array is n-by-m, entry (j, k) being the mean over the batch axis |
| LayerMath.HiddenWeightGrad | project2/src/neural_network.py:52 | the einsum-and-mean weight gradient has the weight matrix's shape |
| LayerMath.HiddenWeightGradIsScaledProduct | project2/src/neural_network.py:52 | the einsum-and-mean gradient equals `input.T @ delta / B`, i.e. `dW[j][k] = (1/B) Σ_i input[i][j] delta[i][k]` |
| LayerMath.HiddenBiasGradIsUnitInputGrad | project2/src/neural_network.py:52-53 | `delta.mean(axis=0)` is the weight gradient of a constant input of 1, so bias and weights follow the same rule |
| LayerMath.HeadError | project2/src/neural_network.py:63 | `error[i] = 2 (y_pred[i] - y_true[i])` for every sample |
| LayerMath.HeadWeightGrad | project2/src/neural_network.py:65 | the Output weight gradient has one entry per input |
| LayerMath.HeadWeightGradIsScaledProduct | project2/src/neural_network.py:65 | `(error * input.T).mean(axis=-1)` equals `input.T @ error / B`, i.e. `dW[j] = mean_i error[i] input[i][j]` |
| LayerMath.RegularisedGradient | project2/src/neural_network.py:40 | `dW + 2 reg W` keeps the weights' shape |
| LayerMath.GradientStep | project2/src/neural_network.py:41 | `W - lr g` keeps the weights' shape |
| LayerMath.StepIsWeightDecay | project2/src/neural_network.py:38-41 | the regularised step sets every weight to `(1 - 2 lr reg) W - lr dW` and keeps the shape |
| LayerMath.StepWithoutGradientKeepsWeights | project2/src/neural_network.py:38-42 | with `reg = 0`, `dW = 0` and `db = 0` the step leaves weights and bias unchanged, for any learning rate |
| Squeeze.SqueezeAll | project2/src/neural_network.py:60 | `.squeeze()` drops every length-1 axis: it leaves no length-1 axis, keeps the number of entries, and turns an n-by-1 column into the vector of its n entries when n != 1 and into a 0-d array when n == 1 |
| Squeeze.MatmulDefined | project2/src/neural_network.py:35 | numpy's `@` of a 2-d batch and an operand of one or two axes is defined iff the operand's first axis matches the batch's last |
| Squeeze.SqueezedForwardDefinedIff | project2/src/neural_network.py:60 | with the weights squeezed as written, the Output layer's `input @ weights` is defined iff the layer does not have exactly one input |
| Squeeze.SingleInputOutputCannotForward | project2/src/neural_network.py:60 | a (1, 1) weight array squeezes to a 0-d array, and `forward` on it is undefined |
| Squeeze.SqueezeOutputAxis | project2/src/neural_network.py:60 | squeezing only the output axis turns the drawn n-by-1 column into the vector of its n entries |
| Squeeze.SqueezedOutputAxisForwards | project2/src/neural_network.py:60 | with only the output axis squeezed, `forward` is defined for every number of inputs |
| Layers.HiddenLayer.constructor | project2/src/neural_network.py:14-19 | a Hidden layer stores its shape, both names, the resolved activation and the drawn weights and bias, and has seen no batch and staged no gradient |
| Layers.HiddenLayer.Forward | project2/src/neural_network.py:33-36 | `forward` stores `input` and `z = input @ W + b` and returns `act(z)`, a batch-by-n_output matrix; the parameters are untouched |
| Layers.HiddenLayer.Backward | project2/src/neural_network.py:49-54 | `backward` stages `delta`, `dW` and `db` by the closed-form formulas and returns `delta @ W.T`; weights and bias are untouched |
| Layers.HiddenLayer.Update | project2/src/neural_network.py:38-42 | `update` first adds `2 reg W` to `dW` in place, then sets `W := W - lr dW` and `b := b - lr db`, keeping both shapes |
| Layers.NewHidden | project2/src/neural_network.py:14-31 | construction succeeds iff both names resolve; otherwise it returns the configuration error, initialiser first; on success a fresh valid layer holds the draw |
| Layers.OutputLayer.constructor | project2/src/neural_network.py:57-60 | an Output layer stores the drawn weight column squeezed to a vector of n_input entries, and the single bias entry |
| Layers.OutputLayer.Forward | project2/src/neural_network.py:33-36 | `forward` stores `input` and `z`, and returns one prediction per row |
| Layers.OutputLayer.Backward | project2/src/neural_network.py:62-67 | `backward` stages `delta = outer(error, w)`, `dW = mean_i error[i] input[i]` and `db = mean(error)` with `error = 2 (y_pred - y_true)`, returns `delta`, and leaves `w` and `b` untouched |
| Layers.OutputLayer.Update | project2/src/neural_network.py:38-42 | the inherited `update` for the vector-shaped weights: `dW += 2 reg w`, `w -= lr dW`, `b -= lr db` |
| Layers.NewOutput | project2/src/neural_network.py:57-60 | as for a Hidden layer, then the weight column is squeezed to a vector |
| Batching.Range | project2/src/neural_network.py:100 | `np.arange(n)` is the identity permutation of 0 .. n-1 |
| Batching.Permute | project2/src/neural_network.py:104 | a shuffle by `perm` puts at position k what position `perm[k]` held |
| Batching.PermuteKeepsPermutation | project2/src/neural_network.py:104 | shuffling a permutation of 0 .. n-1 yields a permutation of 0 .. n-1 |
| Batching.NumBatches | project2/src/neural_network.py:99 | `n // batch_size` is the number of full batches: they fit in n, and fewer than one batch is left over |
| Batching.OversizedBatchGivesNoBatch | project2/src/neural_network.py:99 | a batch size larger than the training set gives zero batches |
| Batching.BatchFits | project2/src/neural_network.py:105-106 | every batch of the loop lies inside the index array |
| Batching.Batch | project2/src/neural_network.py:106 | batch b is the `batch_size` indices starting at `b * batch_size` |
| Batching.BatchesCover | project2/src/neural_network.py:105-106 | the first k batches laid end to end are exactly the first `k * batch_size` shuffled indices, in order |
| Batching.BatchesDisjoint | project2/src/neural_network.py:105-106 | two different batches of a permutation share no sample |
| Batching.BatchOfPermutation | project2/src/neural_network.py:106 | each batch of a permutation holds valid sample indices, none twice |
| Batching.BatchOf | project2/src/neural_network.py:106-107 | the batch handed to `backprop` has `batch_size` valid sample indices |
| NetworkSpec.Propagate | project2/src/neural_network.py:83-86 | the batch reaching layer j is batch-by-p[j], so each layer's output fits the next layer |
| NetworkSpec.Predicted | project2/src/neural_network.py:83-86 | `predict` gives one value per input row |
| NetworkSpec.MeanSquaredError | project2/src/neural_network.py:112 | the mean squared error is never negative, and it is zero exactly when the predictions equal the targets |
| NetworkSpec.Scored | project2/src/neural_network.py:111-112 | `score(X, y)` is never negative, and it is zero exactly when `predict(X)` equals `y` |
| NetworkSpec.MeanSquaredErrorSymmetric | project2/src/neural_network.py:112 | the mean squared error does not depend on which argument is the target |
| NetworkSpec.HiddenStep | project2/src/neural_network.py:38-54 | `backward` then `update` keeps the layer's shape and activation, and hands down a signal shaped like the layer's input |
| NetworkSpec.Signal | project2/src/neural_network.py:91-93 | the signal layer j hands to layer j - 1 in the sweep (`grad` itself for j = len(hidden)) is batch-by-p[j] |
| NetworkSpec.StepAt | project2/src/neural_network.py:92-94 | layer j steps on the batch it saw in `predict` and on the batch-by-p[j+1] signal that layer j + 1 hands down (`Signal(j + 1)`), keeping shape and activation |
| NetworkSpec.Swept | project2/src/neural_network.py:92-94 | the swept Hidden layers keep the chained shapes and each layer's activation |
| NetworkSpec.SweptAt | project2/src/neural_network.py:92-94 | layer j after the sweep is layer j after its own step, computed from its pre-update weights |
| NetworkSpec.SweptIsTraced | project2/src/neural_network.py:88-94 | the sweep visits every Hidden layer once, from last to first; each step uses that layer's forward-pass input and the signal of the layer after it |
| NetworkSpec.AfterBackprop | project2/src/neural_network.py:88-94 | `backprop` keeps every shape and activation, and leaves the Output layer's weights and bias unchanged |
| NetworkSpec.NoHiddenLayerNoStep | project2/src/neural_network.py:91-94 | with no Hidden layer, `backprop` changes no parameter |
| NetworkSpec.IndexOrder | project2/src/neural_network.py:104 | the index order of every epoch is a permutation of the training rows |
| NetworkSpec.AfterBatches | project2/src/neural_network.py:105-107 | `backprop` over the batches keeps every shape and never changes the Output layer |
| NetworkSpec.AfterEpochs | project2/src/neural_network.py:103-107 | training keeps every shape and never changes the Output layer |
| NetworkSpec.TrainHistory | project2/src/neural_network.py:116 | after e epochs the training-score list holds exactly e entries |
| NetworkSpec.TestHistory | project2/src/neural_network.py:117 | after e epochs the test-score list holds exactly e entries |
| NetworkSpec.Logged | project2/src/neural_network.py:114-117 | `eval` appends one score to each of the two lists and adds no key |
| NetworkSpec.History | project2/src/neural_network.py:102 | the history has exactly the two keys `Train MSE` and `Test MSE` |
| NetworkSpec.HistoryGrows | project2/src/neural_network.py:103-117 | each epoch's `eval` appends the scores of the network that epoch ends with |
| NetworkSpec.OversizedBatchNeverTrains | project2/src/neural_network.py:99-107 | with `batch_size > n` no `backprop` happens and training leaves every parameter as it was |
| NetworkSpec.ShallowBatchesNeverTrain | project2/src/neural_network.py:105-107 | with no Hidden layer, the batch loop changes no parameter |
| NetworkSpec.ShallowNetworkNeverTrains | project2/src/neural_network.py:91-94 | with `len(p) == 2`, training changes no parameter, because the Output layer is never updated |
| Network.StagedStepIsHiddenStep | project2/src/neural_network.py:38-54 | what `backward` stages and `update` stores, value by value, is the layer step of the spec |
| Network.Shuffle | project2/src/neural_network.py:104 | the in-place shuffle leaves the array holding the permuted order |
| Network.ShuffleForEpoch | project2/src/neural_network.py:103-104 | the shuffle at the start of an epoch turns the previous epoch's order into this epoch's |
| Network.InitialNet | project2/src/neural_network.py:77-81 | the parameters `set_layers` installs chain the widths of `p` |
| Network.FFNN.constructor | project2/src/neural_network.py:71-75 | a new network stores `p`, `reg_param` and `learning_rate`, and its layers hold the initial parameters |
| Network.FFNN.SetLayers | project2/src/neural_network.py:77-81 | `len(p) - 2` fresh, distinct Hidden layers of shape `(p[i], p[i+1])` with relu and xavier, then one Output layer of input width `p[-2]` with identity and xavier, all holding the drawn parameters |
| Network.FFNN.ForwardLayer | project2/src/neural_network.py:84-85 | one iteration of `predict`: layer i maps the batch reaching it to the batch reaching layer i + 1, and keeps it |
| Network.FFNN.ForwardHidden | project2/src/neural_network.py:84-85 | the Hidden layers' `forward` calls in order, each on the previous one's output; parameters unchanged |
| Network.FFNN.Predict | project2/src/neural_network.py:83-86 | `predict` returns `Predicted` of the current parameters, one value per row, leaves the parameters unchanged, and leaves each layer holding the batch it saw |
| Network.FFNN.PredictWith | project2/src/neural_network.py:83-86 | as `Predict`, stated for given parameters `net` that the layers hold |
| Network.FFNN.BackwardLayer | project2/src/neural_network.py:92-94 | `backward` then `update` on layer i leave it holding the spec's step, and return the signal computed from its pre-update weights |
| Network.FFNN.BackwardHidden | project2/src/neural_network.py:92-94 | the reverse loop over the Hidden layers leaves layer j holding the traced step for every j |
| Network.FFNN.SweepHidden | project2/src/neural_network.py:92-94 | after `predict`, the backward sweep leaves the Hidden layers holding `Swept` and the Output layer unchanged |
| Network.FFNN.HeadBackward | project2/src/neural_network.py:91 | the Output layer's `backward` returns `outer(2 (y_pred - y), w)`, batch-by-p[-2] |
| Network.FFNN.Backprop | project2/src/neural_network.py:88-94 | `backprop` leaves the network holding `AfterBackprop` of its previous parameters |
| Network.FFNN.Score | project2/src/neural_network.py:111-112 | `score` is the mean squared error of the current predictions; parameters unchanged |
| Network.FFNN.Eval | project2/src/neural_network.py:114-117 | `eval` appends the current training and test scores to the two lists; parameters unchanged |
| Network.FFNN.TrainBatch | project2/src/neural_network.py:106-107 | `backprop` on batch b advances the parameters from `AfterBatches(.., b)` to `AfterBatches(.., b + 1)` |
| Network.FFNN.RunBatches | project2/src/neural_network.py:105-107 | the batch loop leaves the parameters at `AfterBatches` over all `n // batch_size` batches |
| Network.FFNN.ShuffleAndRun | project2/src/neural_network.py:104-107 | shuffle and batch loop take the parameters and the index array from epoch e to epoch e + 1 |
| Network.FFNN.EvalEpoch | project2/src/neural_network.py:109 | the closing `eval` extends the history of e epochs to that of e + 1 |
| Network.FFNN.TrainEpoch | project2/src/neural_network.py:103-109 | one epoch takes parameters, index order and history from epoch e to epoch e + 1 |
| Network.FFNN.RunEpochs | project2/src/neural_network.py:103-109 | after the epoch loop, parameters, index order and history are those of `n_epochs` epochs |
| Network.FFNN.Train | project2/src/neural_network.py:96-109 | `train` resets the history, then leaves the parameters at `AfterEpochs` and the history at `History` of `n_epochs` epochs (each list exactly `n_epochs` long) |

## Left out

- Floating point: every number is an exact real. Rounding, overflow, NaN and numpy broadcasting beyond what the network uses are not modelled.
- Random initialisation: `xavier` and `kaiming` are in a module that is not part of this model. What each layer draws is a parameter (`Draw`), and only the name lookup is modelled.
- Shuffling: `np.random.shuffle` is modelled as a given permutation per epoch (`shuffles`), applied to the current order in place.
- Activations: the activations module is not part of this model. The four activations and their derivatives are a `Catalogue` parameter. The model resolves the names but does not evaluate relu or identity.
- Configuration errors: the error is a `ConfigError` value naming the offending name, not a raised `ValueError` with its message. The bare `except` also catches failures inside an initialiser or activation call; the model treats only an unknown name as a failure.
- `mean_squared_error` from sklearn is defined as the mean of squared differences. Its `sample_weight` and `multioutput` options are not modelled; the network uses neither.
- Network.FFNN.constructor: requires `len(p) >= 2` and `p[-1] == 1`. With a shorter `p`, `p[-2]` fails in the source. The Output layer is modelled only as the single-output layer the model's regression targets need.
- Network.FFNN.SetLayers: same requirements as the constructor, and one draw of the right shape per layer.
- Network.FFNN.Train: requires `batch_size > 0`; with 0 the source fails at `n // batch_size`. It also requires non-empty training and test sets, each with one target per row. For `n_epochs >= 1` the source needs that too, since `eval` calls `mean_squared_error`, which rejects empty input. With `n_epochs = 0` the source never scores and accepts empty data; the model does not cover that case. The index array is local to `train`, so its final order is not part of the postcondition.
- Network.FFNN.Backprop: requires a non-empty batch. `train` only ever passes full batches of `batch_size > 0` rows.
- Network.FFNN.Score: requires a non-empty batch with one target per row, as `mean_squared_error` does.
- Network.FFNN.Backprop, Network.FFNN.Score, Network.FFNN.Eval and the training methods that call them state only the new parameters and the history. They do not state which `input` and `z` each layer keeps from its last `forward`, nor the `delta`, `dW` and `db` it staged. Network.FFNN.Predict and Network.FFNN.PredictWith state the kept batches; the layer methods state the staged gradients.
- Layers.HiddenLayer.Forward: requires a batch with `n_input` columns. numpy's shape-mismatch `ValueError` from `@` on any other batch is not modelled.
- Layers.OutputLayer.Forward: requires a batch with `n_input` columns. The shape-mismatch `ValueError` from `@` is not modelled.
- Network.FFNN.Predict: requires a batch with `p[0]` columns. The `ValueError` the first layer's `@` raises on any other batch is not modelled. The same holds for Network.FFNN.PredictWith.
- Layers.HiddenLayer.Backward: requires an earlier `forward` on a non-empty batch and an upstream signal of the layer's output shape. The `AttributeError` of a `backward` before any `forward`, and the errors of a mismatched signal, are not modelled.
- Layers.OutputLayer.Backward: requires an earlier `forward` on a non-empty batch, and predictions and targets of the batch's length. The `AttributeError` of a `backward` before any `forward` is not modelled.
- Layers.HiddenLayer.Update: requires `backward` to have staged `dW` and `db` (`Staged()`). The `AttributeError` of an `update` before any `backward` is not modelled.
- Layers.OutputLayer.Update: requires staged gradients, as for the Hidden layer. The `AttributeError` of an `update` before any `backward` is not modelled.
- Network.FFNN.Eval: requires a history holding both keys, and non-empty data of the input width. The `AttributeError` of an `eval` before `train` has created `hist` is not modelled.
- Layers.OutputLayer.Update is modelled, but the network never calls it. The Output layer's staged gradients stay unused, as in the source.
- Layers.OutputLayer.constructor: stores the weight column squeezed on its output axis only (`Squeeze.SqueezeOutputAxis`), the corrected squeeze of the Findings row, not the source's `.squeeze()`. When `p[-2] == 1` the model's `Predict`, `Backprop` and `Train` therefore succeed, where the source's first `predict` fails at line 35. The same holds for Layers.NewOutput and Network.InitialNet.
- The one list `layers` is split into `hidden` and `output`. Code that indexes `layers` from outside the class is not modelled.
- `src/linear_regression.py`, the project 1 and project 3 scripts, and all plotting and figure saving are not part of this model.

## Findings

| source | as written | input that shows it | evidently intended | confidence | as-written member | corrected member |
|---|---|---|---|---|---|---|
| project2/src/neural_network.py:60 | `self.weights.squeeze()` removes every length-1 axis of the drawn `(n_input, 1)` weights | `p = [1, 1]`, or any `p` whose second-to-last width is 1: the (1, 1) array becomes 0-d, and `input @ weights` in `forward` (line 35) has no axis to contract | squeeze only the output axis, keeping a vector of `n_input` entries | medium; not executed | Squeeze.SqueezeAll, Squeeze.SingleInputOutputCannotForward | Squeeze.SqueezeOutputAxis, Squeeze.SqueezedOutputAxisForwards |
