/**
 * The feed-forward network as a value: its layers' parameters, what
 * `predict` computes from them, what one `backprop` call does to them, and
 * what `train` does over its epochs and batches. The class FFNN in module
 * Network is proved against these functions.
 */
module NetworkSpec {
  import opened LinearAlgebra
  import opened LayerMath
  import opened Batching

  /** The parameters of every layer: the Hidden layers in construction
      order, then the Output layer. */
  datatype Net = Net(hidden: seq<Dense>, head: Head)

  /** The constructor arguments that stay fixed: the width sequence `p`,
      the L2 coefficient and the learning rate. */
  datatype Hyper = Hyper(p: seq<nat>, regParam: real, learningRate: real)

  /** `(X_train, X_test, y_train, y_test)`. */
  datatype Dataset = Dataset(xTrain: Matrix, xTest: Matrix, yTrain: Vector, yTest: Vector)

  predicate DataShaped(data: Dataset, nIn: nat) {
    && |data.xTrain| > 0 && IsMatrix(data.xTrain, |data.xTrain|, nIn) && |data.yTrain| == |data.xTrain|
    && |data.xTest| > 0 && IsMatrix(data.xTest, |data.xTest|, nIn) && |data.yTest| == |data.xTest|
  }

  /** Hidden layer `j` maps `p[j]` inputs to `p[j + 1]` outputs. */
  predicate ChainShaped(layers: seq<Dense>, p: seq<nat>) {
    |layers| < |p| && forall j :: 0 <= j < |layers| ==> DenseShaped(layers[j], p[j], p[j + 1])
  }

  /** `len(p) - 2` Hidden layers chaining the widths of `p`, then an Output
      layer fed by the last of them. */
  predicate Shaped(net: Net, p: seq<nat>) {
    && |p| >= 2 && |net.hidden| == |p| - 2
    && ChainShaped(net.hidden, p)
    && |net.head.weights| == p[|p| - 2]
  }

  // ----------------------------------------------------------------- predict

  /** The batch handed to layer `j` during `predict`: the input of the
      network passed through the first `j` layers, each layer's output being
      the next layer's input. */
  function Propagate(layers: seq<Dense>, p: seq<nat>, X: Matrix, j: nat): (A: Matrix)
    requires ChainShaped(layers, p) && IsMatrix(X, |X|, p[0]) && j <= |layers|
    ensures IsMatrix(A, |X|, p[j])
    decreases j
  {
    if j == 0 then X
    else
      assert DenseShaped(layers[j - 1], p[j - 1], p[j]);
      DenseForward(layers[j - 1], Propagate(layers, p, X, j - 1))
  }

  /** `predict(X)`: one prediction per row of `X`. */
  function Predicted(net: Net, p: seq<nat>, X: Matrix): (yPred: Vector)
    requires Shaped(net, p) && IsMatrix(X, |X|, p[0])
    ensures |yPred| == |X|
  {
    HeadForward(net.head, Propagate(net.hidden, p, X, |net.hidden|))
  }

  function Square(x: real): real {
    x * x
  }

  /** A square is non-negative, and positive for every non-zero number. */
  lemma SquareNonNegative(x: real)
    ensures Square(x) >= 0.0
    ensures x != 0.0 ==> Square(x) > 0.0
  {
    assert Square(0.0) == 0.0;
    hide Square;
    if x > 0.0 {
      PositiveSquare(x);
    } else if x < 0.0 {
      PositiveSquare(-x);
      SquareOfNegation(x);
    }
  }

  lemma PositiveSquare(x: real)
    requires x > 0.0
    ensures Square(x) > 0.0
  {
    calc {
      Square(x);
    ==
      x * x;
    > { assert x * x > 0.0; }
      0.0;
    }
  }

  lemma SquareOfNegation(x: real)
    ensures Square(-x) == Square(x)
  {
  }

  /** The mean of the squared differences: never negative, and zero exactly
      when the prediction matches the target. */
  function MeanSquaredError(a: Vector, b: Vector): (r: real)
    requires |a| == |b| > 0
    ensures r >= 0.0
    ensures r == 0.0 <==> a == b
  {
    var squares := seq(|a|, i requires 0 <= i < |a| => Square(a[i] - b[i]));
    SquaredDifferences(a, b, squares);
    Mean(squares)
  }

  /** Entrywise penalties that are zero where `a` and `b` agree and positive
      where they differ sum to zero exactly when the vectors are equal. */
  lemma {:induction false} PenaltySum(a: Vector, b: Vector, s: Vector)
    requires |a| == |b| == |s|
    requires forall i :: 0 <= i < |s| ==> s[i] >= 0.0
    requires forall i :: 0 <= i < |s| ==> (a[i] == b[i] <==> s[i] == 0.0)
    ensures Sum(s) >= 0.0
    ensures Sum(s) == 0.0 <==> a == b
  {
    SumNonNegative(s);
    if Sum(s) == 0.0 {
      assert forall i :: 0 <= i < |a| ==> a[i] == b[i];
    }
  }

  /** The squared differences are non-negative, and sum to zero exactly
      when the two vectors agree. */
  lemma SquaredDifferences(a: Vector, b: Vector, squares: Vector)
    requires |a| == |b| == |squares| && forall i :: 0 <= i < |a| ==> squares[i] == Square(a[i] - b[i])
    ensures Sum(squares) >= 0.0
    ensures Sum(squares) == 0.0 <==> a == b
  {
    assert Square(0.0) == 0.0;
    hide Square;
    forall i | 0 <= i < |a|
      ensures squares[i] >= 0.0 && (a[i] == b[i] <==> squares[i] == 0.0)
    {
      SquareNonNegative(a[i] - b[i]);
    }
    PenaltySum(a, b, squares);
  }

  /** The error does not depend on which of the two vectors is the target. */
  lemma MeanSquaredErrorSymmetric(a: Vector, b: Vector)
    requires |a| == |b| > 0
    ensures MeanSquaredError(a, b) == MeanSquaredError(b, a)
  {
    var squares := seq(|a|, i requires 0 <= i < |a| => Square(a[i] - b[i]));
    var swapped := seq(|a|, i requires 0 <= i < |a| => Square(b[i] - a[i]));
    assert squares == swapped;
  }

  /** `score(X, y)`: the mean squared error of the predictions. */
  function Scored(net: Net, p: seq<nat>, X: Matrix, y: Vector): (r: real)
    requires Shaped(net, p) && |X| > 0 && IsMatrix(X, |X|, p[0]) && |y| == |X|
    ensures r >= 0.0
    ensures r == 0.0 <==> Predicted(net, p, X) == y
  {
    MeanSquaredError(Predicted(net, p, X), y)
  }

  // ---------------------------------------------------------------- backprop

  /** What `backward` followed by `update` does to one Hidden layer that saw
      `input`: the layer afterwards, and the signal for the layer before it,
      which is computed from the weights before the step. */
  datatype Step = Step(layer: Dense, downstream: Matrix)

  function HiddenStep(L: Dense, input: Matrix, upstream: Matrix, n: nat, m: nat, reg: real, lr: real): (s: Step)
    requires DenseShaped(L, n, m) && |input| > 0 && IsMatrix(input, |input|, n) && IsMatrix(upstream, |input|, m)
    ensures DenseShaped(s.layer, n, m) && s.layer.act == L.act
    ensures IsMatrix(s.downstream, |input|, n)
  {
    var z := PreActivation(input, L.weights, L.bias);
    var delta := HiddenDelta(upstream, z, L.act.derivative, m);
    var dW := HiddenWeightGrad(input, delta, n, m);
    var db := ColumnMean(delta, m);
    var weights := GradientStep(L.weights, RegularisedGradient(dW, L.weights, reg, m), lr, m);
    Step(Dense(weights, VecAxpy(L.bias, -lr, db), L.act), Downstream(delta, L.weights, m))
  }

  /** The signal that reaches layer `j - 1` in the backward sweep: `grad`
      arrives at the last Hidden layer, and each layer from the last down to
      `j` hands the one before it the downstream signal of its step. */
  function Signal(layers: seq<Dense>, p: seq<nat>, X: Matrix, grad: Matrix, reg: real, lr: real, j: nat): (g: Matrix)
    requires ChainShaped(layers, p) && |X| > 0 && IsMatrix(X, |X|, p[0])
    requires j <= |layers| && IsMatrix(grad, |X|, p[|layers|])
    ensures IsMatrix(g, |X|, p[j])
    decreases |layers| - j, 1
  {
    if j == |layers| then grad
    else StepAt(layers, p, X, grad, reg, lr, j).downstream
  }

  /** The step layer `j` takes in the backward sweep: on the batch that
      reached it in the forward pass and the signal from the layer after it. */
  function StepAt(layers: seq<Dense>, p: seq<nat>, X: Matrix, grad: Matrix, reg: real, lr: real, j: nat): (s: Step)
    requires ChainShaped(layers, p) && |X| > 0 && IsMatrix(X, |X|, p[0])
    requires j < |layers| && IsMatrix(grad, |X|, p[|layers|])
    ensures DenseShaped(s.layer, p[j], p[j + 1]) && s.layer.act == layers[j].act
    ensures IsMatrix(s.downstream, |X|, p[j])
    decreases |layers| - j, 0
  {
    assert DenseShaped(layers[j], p[j], p[j + 1]);
    HiddenStep(layers[j], Propagate(layers, p, X, j), Signal(layers, p, X, grad, reg, lr, j + 1),
               p[j], p[j + 1], reg, lr)
  }

  /** The first `k` Hidden layers after their steps. Each layer keeps its
      shape and its activation. */
  function Swept(layers: seq<Dense>, p: seq<nat>, X: Matrix, grad: Matrix, reg: real, lr: real, k: nat): (r: seq<Dense>)
    requires ChainShaped(layers, p) && |X| > 0 && IsMatrix(X, |X|, p[0])
    requires k <= |layers| && IsMatrix(grad, |X|, p[|layers|])
    ensures |r| == k && ChainShaped(r, p)
    ensures forall j :: 0 <= j < k ==> r[j].act == layers[j].act
    decreases k
  {
    if k == 0 then []
    else Swept(layers, p, X, grad, reg, lr, k - 1) + [StepAt(layers, p, X, grad, reg, lr, k - 1).layer]
  }

  /** Layer `j` of the swept list is layer `j` after its own step. */
  lemma {:induction false} SweptAt(layers: seq<Dense>, p: seq<nat>, X: Matrix, grad: Matrix, reg: real, lr: real, k: nat, j: nat)
    requires ChainShaped(layers, p) && |X| > 0 && IsMatrix(X, |X|, p[0])
    requires k <= |layers| && IsMatrix(grad, |X|, p[|layers|]) && j < k
    ensures Swept(layers, p, X, grad, reg, lr, k)[j] == StepAt(layers, p, X, grad, reg, lr, j).layer
    decreases k
  {
    if j < k - 1 {
      SweptAt(layers, p, X, grad, reg, lr, k - 1, j);
    }
  }

  /** The batch handed to each Hidden layer during `predict`, in order. */
  function Inputs(layers: seq<Dense>, p: seq<nat>, X: Matrix): (r: seq<Matrix>)
    requires ChainShaped(layers, p) && IsMatrix(X, |X|, p[0])
    ensures |r| == |layers| && forall j :: 0 <= j < |layers| ==> r[j] == Propagate(layers, p, X, j)
  {
    seq(|layers|, j requires 0 <= j < |layers| => Propagate(layers, p, X, j))
  }

  /** The signal reaching each Hidden layer during the backward sweep,
      followed by `grad`, which is what reaches the last one. */
  function Signals(layers: seq<Dense>, p: seq<nat>, X: Matrix, grad: Matrix, reg: real, lr: real): (r: seq<Matrix>)
    requires ChainShaped(layers, p) && |X| > 0 && IsMatrix(X, |X|, p[0]) && IsMatrix(grad, |X|, p[|layers|])
    ensures |r| == |layers| + 1 && forall j :: 0 <= j <= |layers| ==> r[j] == Signal(layers, p, X, grad, reg, lr, j)
  {
    seq(|layers| + 1, j requires 0 <= j <= |layers| => Signal(layers, p, X, grad, reg, lr, j))
  }

  /** The backward sweep laid out layer by layer: layer `j`, which saw
      `inputs[j]` (a batch of `rows` rows) and received `signals[j + 1]`,
      becomes `after[j]` and hands `signals[j]` to the layer before it. */
  ghost predicate SweepTrace(layers: seq<Dense>, p: seq<nat>, rows: nat, reg: real, lr: real,
                             inputs: seq<Matrix>, signals: seq<Matrix>, after: seq<Dense>)
    requires ChainShaped(layers, p) && rows > 0
  {
    && |inputs| == |layers| && |signals| == |layers| + 1 && |after| == |layers|
    && (forall j :: 0 < j <= |layers| ==> IsMatrix(signals[j], rows, p[j]))
    && forall j :: 0 <= j < |layers| ==>
         && IsMatrix(inputs[j], rows, p[j])
         && HiddenStep(layers[j], inputs[j], signals[j + 1], p[j], p[j + 1], reg, lr) == Step(after[j], signals[j])
  }

  /** The sweep `Swept` describes is traced by the batches of `predict` and
      the signals of `Signal`. */
  lemma SweptIsTraced(layers: seq<Dense>, p: seq<nat>, X: Matrix, grad: Matrix, reg: real, lr: real)
    requires ChainShaped(layers, p) && |X| > 0 && IsMatrix(X, |X|, p[0]) && IsMatrix(grad, |X|, p[|layers|])
    ensures SweepTrace(layers, p, |X|, reg, lr, Inputs(layers, p, X), Signals(layers, p, X, grad, reg, lr),
                       Swept(layers, p, X, grad, reg, lr, |layers|))
  {
    var inputs, signals := Inputs(layers, p, X), Signals(layers, p, X, grad, reg, lr);
    var after := Swept(layers, p, X, grad, reg, lr, |layers|);
    forall j | 0 <= j < |layers|
      ensures HiddenStep(layers[j], inputs[j], signals[j + 1], p[j], p[j + 1], reg, lr) == Step(after[j], signals[j])
    {
      SweptAt(layers, p, X, grad, reg, lr, |layers|, j);
    }
  }

  /** `backprop(X, y)`: the Output layer's error signal drives the sweep
      over the Hidden layers; the Output layer itself is left as it was. */
  function AfterBackprop(net: Net, h: Hyper, X: Matrix, y: Vector): (r: Net)
    requires Shaped(net, h.p) && |X| > 0 && IsMatrix(X, |X|, h.p[0]) && |y| == |X|
    ensures Shaped(r, h.p)
    ensures r.head == net.head
    ensures forall j :: 0 <= j < |r.hidden| ==> r.hidden[j].act == net.hidden[j].act
  {
    var error := HeadError(Predicted(net, h.p, X), y);
    var grad := Outer(error, net.head.weights);
    Net(Swept(net.hidden, h.p, X, grad, h.regParam, h.learningRate, |net.hidden|), net.head)
  }

  /** Without Hidden layers `backprop` changes nothing: the Output layer's
      gradients are computed but never applied. */
  lemma NoHiddenLayerNoStep(net: Net, h: Hyper, X: Matrix, y: Vector)
    requires Shaped(net, h.p) && |X| > 0 && IsMatrix(X, |X|, h.p[0]) && |y| == |X|
    requires |h.p| == 2
    ensures AfterBackprop(net, h, X, y) == net
  {
  }

  // ------------------------------------------------------------------- train

  /** The index order of epoch `e` (1-based): `np.arange(n)` shuffled in
      place once per epoch, each shuffle acting on the previous order. */
  function IndexOrder(n: nat, shuffles: seq<seq<nat>>, e: nat): (idx: seq<nat>)
    requires e <= |shuffles| && forall t :: 0 <= t < |shuffles| ==> IsPermutation(shuffles[t], n)
    ensures IsPermutation(idx, n)
  {
    if e == 0 then Range(n)
    else
      var previous := IndexOrder(n, shuffles, e - 1);
      PermuteKeepsPermutation(previous, shuffles[e - 1], n);
      Permute(previous, shuffles[e - 1])
  }

  /** The network after `backprop` on the first `k` batches of the order
      `idx`, in batch order. */
  function AfterBatches(net: Net, h: Hyper, data: Dataset, idx: seq<nat>, batchSize: nat, k: nat): (r: Net)
    requires Shaped(net, h.p) && DataShaped(data, h.p[0]) && batchSize > 0
    requires IsPermutation(idx, |data.xTrain|) && k <= NumBatches(|data.xTrain|, batchSize)
    ensures Shaped(r, h.p) && r.head == net.head
    decreases k
  {
    if k == 0 then net
    else
      var previous := AfterBatches(net, h, data, idx, batchSize, k - 1);
      var batch := BatchOf(idx, |data.xTrain|, batchSize, k - 1);
      AfterBackprop(previous, h, SelectRows(data.xTrain, batch), SelectRows(data.yTrain, batch))
  }

  predicate ShufflesFit(shuffles: seq<seq<nat>>, n: nat) {
    forall t :: 0 <= t < |shuffles| ==> IsPermutation(shuffles[t], n)
  }

  /** What `train` starts from: parameters and data of the widths `h.p`, a
      positive batch size, and one permutation of the training rows for
      each epoch. */
  predicate Trainable(net: Net, h: Hyper, data: Dataset, batchSize: nat, shuffles: seq<seq<nat>>) {
    && Shaped(net, h.p) && DataShaped(data, h.p[0]) && batchSize > 0
    && ShufflesFit(shuffles, |data.xTrain|)
  }

  /** The network after the first `e` epochs of `train`. */
  function AfterEpochs(net: Net, h: Hyper, data: Dataset, batchSize: nat, shuffles: seq<seq<nat>>, e: nat): (r: Net)
    requires Trainable(net, h, data, batchSize, shuffles) && e <= |shuffles|
    ensures Shaped(r, h.p) && r.head == net.head
    decreases e
  {
    if e == 0 then net
    else
      var n := |data.xTrain|;
      AfterBatches(AfterEpochs(net, h, data, batchSize, shuffles, e - 1), h, data,
                   IndexOrder(n, shuffles, e), batchSize, NumBatches(n, batchSize))
  }

  /** Epoch `e + 1` runs the full batches of its own index order, starting
      from where epoch `e` ended. */
  lemma EpochRunsBatches(net: Net, h: Hyper, data: Dataset, batchSize: nat, shuffles: seq<seq<nat>>, e: nat)
    requires Trainable(net, h, data, batchSize, shuffles) && e < |shuffles|
    ensures AfterEpochs(net, h, data, batchSize, shuffles, e + 1)
         == AfterBatches(AfterEpochs(net, h, data, batchSize, shuffles, e), h, data,
                         IndexOrder(|data.xTrain|, shuffles, e + 1), batchSize, NumBatches(|data.xTrain|, batchSize))
  {
  }

  /** `hist["Train MSE"]` after `e` epochs: one score per epoch, taken at
      the end of that epoch. */
  function TrainHistory(net: Net, h: Hyper, data: Dataset, batchSize: nat, shuffles: seq<seq<nat>>, e: nat): (r: seq<real>)
    requires Trainable(net, h, data, batchSize, shuffles) && e <= |shuffles|
    ensures |r| == e
  {
    if e == 0 then []
    else
      TrainHistory(net, h, data, batchSize, shuffles, e - 1)
        + [Scored(AfterEpochs(net, h, data, batchSize, shuffles, e), h.p, data.xTrain, data.yTrain)]
  }

  /** `hist["Test MSE"]` after `e` epochs. */
  function TestHistory(net: Net, h: Hyper, data: Dataset, batchSize: nat, shuffles: seq<seq<nat>>, e: nat): (r: seq<real>)
    requires Trainable(net, h, data, batchSize, shuffles) && e <= |shuffles|
    ensures |r| == e
  {
    if e == 0 then []
    else
      TestHistory(net, h, data, batchSize, shuffles, e - 1)
        + [Scored(AfterEpochs(net, h, data, batchSize, shuffles, e), h.p, data.xTest, data.yTest)]
  }

  const TrainKey := "Train MSE"
  const TestKey := "Test MSE"

  /** What `eval` does to the history: one score appended to each list. */
  function Logged(hist: map<string, seq<real>>, trainScore: real, testScore: real): (r: map<string, seq<real>>)
    requires TrainKey in hist && TestKey in hist
    ensures r.Keys == hist.Keys
    ensures r[TrainKey] == hist[TrainKey] + [trainScore] && r[TestKey] == hist[TestKey] + [testScore]
  {
    hist[TrainKey := hist[TrainKey] + [trainScore]][TestKey := hist[TestKey] + [testScore]]
  }

  /** `hist` after `e` epochs of `train`. */
  function History(net: Net, h: Hyper, data: Dataset, batchSize: nat, shuffles: seq<seq<nat>>, e: nat): (r: map<string, seq<real>>)
    requires Trainable(net, h, data, batchSize, shuffles) && e <= |shuffles|
    ensures r.Keys == {TrainKey, TestKey}
  {
    map[TrainKey := TrainHistory(net, h, data, batchSize, shuffles, e),
        TestKey := TestHistory(net, h, data, batchSize, shuffles, e)]
  }

  /** Each epoch's `eval` logs the scores of the network it ends with. */
  lemma HistoryGrows(net: Net, h: Hyper, data: Dataset, batchSize: nat, shuffles: seq<seq<nat>>, e: nat)
    requires Trainable(net, h, data, batchSize, shuffles) && e < |shuffles|
    ensures History(net, h, data, batchSize, shuffles, e + 1)
         == Logged(History(net, h, data, batchSize, shuffles, e),
                   Scored(AfterEpochs(net, h, data, batchSize, shuffles, e + 1), h.p, data.xTrain, data.yTrain),
                   Scored(AfterEpochs(net, h, data, batchSize, shuffles, e + 1), h.p, data.xTest, data.yTest))
  {
    hide AfterEpochs, Scored;
    var before := History(net, h, data, batchSize, shuffles, e);
    var after := History(net, h, data, batchSize, shuffles, e + 1);
    var trained := AfterEpochs(net, h, data, batchSize, shuffles, e + 1);
    var logged := Logged(before, Scored(trained, h.p, data.xTrain, data.yTrain), Scored(trained, h.p, data.xTest, data.yTest));
    assert after.Keys == logged.Keys;
  }

  /** With a batch size above the number of training samples no batch is
      formed, so training leaves every parameter as it was. */
  lemma {:induction false} OversizedBatchNeverTrains(net: Net, h: Hyper, data: Dataset, batchSize: nat, shuffles: seq<seq<nat>>, e: nat)
    requires Shaped(net, h.p) && DataShaped(data, h.p[0]) && batchSize > |data.xTrain|
    requires e <= |shuffles| && ShufflesFit(shuffles, |data.xTrain|)
    ensures AfterEpochs(net, h, data, batchSize, shuffles, e) == net
  {
    if e > 0 {
      OversizedBatchNeverTrains(net, h, data, batchSize, shuffles, e - 1);
      OversizedBatchGivesNoBatch(|data.xTrain|, batchSize);
    }
  }

  lemma {:induction false} ShallowBatchesNeverTrain(net: Net, h: Hyper, data: Dataset, idx: seq<nat>, batchSize: nat, k: nat)
    requires Shaped(net, h.p) && DataShaped(data, h.p[0]) && batchSize > 0 && |h.p| == 2
    requires IsPermutation(idx, |data.xTrain|) && k <= NumBatches(|data.xTrain|, batchSize)
    ensures AfterBatches(net, h, data, idx, batchSize, k) == net
  {
    if k > 0 {
      ShallowBatchesNeverTrain(net, h, data, idx, batchSize, k - 1);
    }
  }

  /** A network without Hidden layers (`len(p) == 2`) is never changed by
      training, because the Output layer is never updated. */
  lemma {:induction false} ShallowNetworkNeverTrains(net: Net, h: Hyper, data: Dataset, batchSize: nat, shuffles: seq<seq<nat>>, e: nat)
    requires Shaped(net, h.p) && DataShaped(data, h.p[0]) && batchSize > 0 && |h.p| == 2
    requires e <= |shuffles| && ShufflesFit(shuffles, |data.xTrain|)
    ensures AfterEpochs(net, h, data, batchSize, shuffles, e) == net
  {
    if e > 0 {
      var n := |data.xTrain|;
      ShallowNetworkNeverTrains(net, h, data, batchSize, shuffles, e - 1);
      ShallowBatchesNeverTrain(net, h, data, IndexOrder(n, shuffles, e), batchSize, NumBatches(n, batchSize));
    }
  }
}
