/**
 * `FFNN`: the network object. It owns its layers and a history of scores,
 * and every method works by mutating them: `predict` runs `forward` layer by
 * layer, `backprop` runs `backward` and `update` over the Hidden layers in
 * reverse, and `train` shuffles an index array in place and appends to the
 * history lists. Each method is proved against the functions of module
 * NetworkSpec.
 *
 * The source keeps one list `layers` whose last entry is the Output layer;
 * here the Hidden layers are the sequence `hidden` and the Output layer is
 * the field `output`.
 */
module Network {
  import opened LinearAlgebra
  import opened Activations
  import opened LayerMath
  import opened Layers
  import opened Batching
  import opened NetworkSpec
  import opened Squeeze

  /** The parameters of a list of Hidden layers, in order. */
  ghost function Snapshots(layers: seq<HiddenLayer>): (r: seq<Dense>)
    reads layers`weights, layers`bias
    ensures |r| == |layers| && forall j :: 0 <= j < |layers| ==> r[j] == layers[j].Snapshot()
  {
    if layers == [] then [] else Snapshots(layers[..|layers| - 1]) + [layers[|layers| - 1].Snapshot()]
  }

  /** `layer`, whose parameters are `L`, has seen the batch `A` in its last
      `forward`. */
  ghost predicate Saw(layer: HiddenLayer, A: Matrix, L: Dense)
    reads layer`input, layer`z
  {
    && layer.input == A && layer.Fed()
    && IsMatrix(L.weights, |L.weights|, |L.bias|) && IsMatrix(A, |A|, |L.weights|)
    && layer.z == PreActivation(A, L.weights, L.bias)
  }

  /** What a Hidden layer's `backward` and `update` stage and store, one
      value at a time, is the step the spec takes on the layer. */
  lemma StagedStepIsHiddenStep(L: Dense, A: Matrix, grad: Matrix, n: nat, m: nat, reg: real, lr: real,
                               z: Matrix, delta: Matrix, dW: Matrix, db: Vector,
                               dW2: Matrix, W2: Matrix, b2: Vector)
    requires DenseShaped(L, n, m) && |A| > 0 && IsMatrix(A, |A|, n) && IsMatrix(grad, |A|, m)
    requires z == PreActivation(A, L.weights, L.bias)
    requires delta == HiddenDelta(grad, z, L.act.derivative, m)
    requires dW == HiddenWeightGrad(A, delta, n, m) && db == ColumnMean(delta, m)
    requires dW2 == RegularisedGradient(dW, L.weights, reg, m)
    requires W2 == GradientStep(L.weights, dW2, lr, m) && b2 == VecAxpy(L.bias, -lr, db)
    ensures Dense(W2, b2, L.act) == HiddenStep(L, A, grad, n, m, reg, lr).layer
    ensures Downstream(delta, L.weights, m) == HiddenStep(L, A, grad, n, m, reg, lr).downstream
  {
  }

  /** `np.random.shuffle(idx)`, with the permutation it draws as a
      parameter: afterwards position `k` holds what position `perm[k]` held. */
  method Shuffle(idx: array<nat>, perm: seq<nat>)
    requires IsPermutation(perm, idx.Length)
    modifies idx
    ensures idx[..] == Permute(old(idx[..]), perm)
  {
    var before := idx[..];
    forall k | 0 <= k < idx.Length {
      idx[k] := before[perm[k]];
    }
  }

  /** The shuffle at the start of epoch `e + 1` turns the index order of
      epoch `e` into that of epoch `e + 1`. */
  method ShuffleForEpoch(idx: array<nat>, n: nat, shuffles: seq<seq<nat>>, e: nat)
    requires ShufflesFit(shuffles, n) && e < |shuffles|
    requires idx[..] == IndexOrder(n, shuffles, e)
    modifies idx
    ensures idx[..] == IndexOrder(n, shuffles, e + 1)
  {
    Shuffle(idx, shuffles[e]);
  }

  class FFNN {
    const p: seq<nat>
    const regParam: real
    const learningRate: real

    var hidden: seq<HiddenLayer>
    var output: OutputLayer
    var hist: map<string, seq<real>>

    /** The layer list as built: widths that chain `p`, no layer twice. It
        reads only which layers there are, so no layer method can break it. */
    ghost predicate Wired()
      reads this`hidden, this`output
    {
      && |p| >= 2 && p[|p| - 1] == 1
      && |hidden| == |p| - 2
      && (forall j :: 0 <= j < |hidden| ==> hidden[j].nIn == p[j] && hidden[j].nOut == p[j + 1])
      && (forall i, j :: 0 <= i < j < |hidden| ==> hidden[i] != hidden[j])
      && (forall j :: 0 <= j < |hidden| ==> hidden[j] as object != output)
      && output.nIn == p[|p| - 2]
    }

    ghost predicate Valid()
      reads this`hidden, this`output, hidden`weights, hidden`bias, output`weights
    {
      Wired() && (forall j :: 0 <= j < |hidden| ==> hidden[j].Valid()) && output.Valid()
    }

    /** The parameters of every layer, as a value. */
    ghost function Params(): Net
      reads this`hidden, this`output, hidden`weights, hidden`bias, output`weights, output`bias
    {
      Net(Snapshots(hidden), output.Snapshot())
    }

    /** The layers hold the parameters `net`, layer by layer. */
    ghost predicate Holds(net: Net)
      reads this`hidden, this`output, hidden`weights, hidden`bias, output`weights, output`bias
    {
      && |net.hidden| == |hidden|
      && (forall j :: 0 <= j < |hidden| ==> hidden[j].Snapshot() == net.hidden[j])
      && output.Snapshot() == net.head
    }

    lemma HoldsParams(net: Net)
      ensures Holds(net) <==> Params() == net
    {
      if Holds(net) {
        assert Snapshots(hidden) == net.hidden;
      }
    }

    /** The first `k` Hidden layers hold the batches that reach them under
        the parameters `net`. */
    ghost predicate SawUpTo(net: Net, X: Matrix, k: nat)
      requires k <= |hidden|
      reads this`hidden, hidden[..k]`input, hidden[..k]`z
      decreases k
    {
      && Shaped(net, p) && IsMatrix(X, |X|, p[0]) && |net.hidden| == |hidden|
      && (k > 0 ==>
            && SawUpTo(net, X, k - 1)
            && Saw(hidden[k - 1], Propagate(net.hidden, p, X, k - 1), net.hidden[k - 1]))
    }

    /** Every Hidden layer holds the batch that reaches it under the
        parameters `net`, and the Output layer holds the last of them. */
    ghost predicate Primed(net: Net, X: Matrix)
      reads this`hidden, this`output, hidden`input, hidden`z, output`input, output`z
    {
      && SawUpTo(net, X, |hidden|)
      && output.input == Propagate(net.hidden, p, X, |hidden|) && output.Fed()
    }

    ghost function Settings(): Hyper {
      Hyper(p, regParam, learningRate)
    }

    /** Layers holding parameters of the right shapes are valid layers. */
    lemma HoldsShapedValid(net: Net)
      requires Wired() && Holds(net) && Shaped(net, p)
      ensures Valid()
    {
      forall j | 0 <= j < |hidden|
        ensures hidden[j].Valid()
      {
        assert hidden[j].Snapshot() == net.hidden[j] && DenseShaped(net.hidden[j], p[j], p[j + 1]);
        assert hidden[j].weights == net.hidden[j].weights && hidden[j].bias == net.hidden[j].bias;
      }
    }

    lemma ValidShaped()
      requires Valid()
      ensures Shaped(Params(), p)
    {
    }

    /** `FFNN(p, reg_param, learning_rate)`: builds the layers, with the
        drawn initial parameters of layer `j` given as `draws[j]`. The
        network predicts a single value, so `p` ends in 1. */
    constructor (p: seq<nat>, regParam: real, learningRate: real, catalogue: Catalogue, draws: seq<Draw>)
      requires |p| >= 2 && p[|p| - 1] == 1
      requires |draws| == |p| - 1 && forall j :: 0 <= j < |draws| ==> DrawShaped(draws[j], p[j], p[j + 1])
      ensures Valid() && this.p == p && this.regParam == regParam && this.learningRate == learningRate
      ensures fresh(output) && forall j :: 0 <= j < |hidden| ==> fresh(hidden[j])
      ensures Params() == InitialNet(p, catalogue, draws)
      ensures hist == map[]
    {
      this.p, this.regParam, this.learningRate := p, regParam, learningRate;
      var layers, last := SetLayers(p, catalogue, draws);
      hidden, output := layers, last;
      hist := map[];
    }

    /** `set_layers`: one Hidden layer (relu, xavier) per consecutive pair
        of widths, then the Output layer (identity, xavier). */
    static method SetLayers(p: seq<nat>, catalogue: Catalogue, draws: seq<Draw>)
      returns (hidden: seq<HiddenLayer>, output: OutputLayer)
      requires |p| >= 2 && p[|p| - 1] == 1
      requires |draws| == |p| - 1 && forall j :: 0 <= j < |draws| ==> DrawShaped(draws[j], p[j], p[j + 1])
      ensures |hidden| == |p| - 2
      ensures forall j :: 0 <= j < |hidden| ==>
        && fresh(hidden[j]) && hidden[j].Valid() && hidden[j].nIn == p[j] && hidden[j].nOut == p[j + 1]
        && hidden[j].activation == "relu" && hidden[j].weightInit == "xavier"
      ensures forall i, j :: 0 <= i < j < |hidden| ==> hidden[i] != hidden[j]
      ensures Snapshots(hidden) == InitialNet(p, catalogue, draws).hidden
      ensures fresh(output) && output.Valid() && output.nIn == p[|p| - 2]
      ensures output.activation == "identity" && output.weightInit == "xavier"
      ensures output.Snapshot() == InitialNet(p, catalogue, draws).head
    {
      NetworkConfigurationsResolve(catalogue);
      hidden := [];
      for i := 0 to |p| - 2
        invariant |hidden| == i
        invariant forall j :: 0 <= j < i ==>
          && fresh(hidden[j]) && hidden[j].Valid() && hidden[j].nIn == p[j] && hidden[j].nOut == p[j + 1]
          && hidden[j].activation == "relu" && hidden[j].weightInit == "xavier"
          && hidden[j].Snapshot() == InitialNet(p, catalogue, draws).hidden[j]
        invariant forall i', j :: 0 <= i' < j < i ==> hidden[i'] != hidden[j]
      {
        var made := NewHidden(p[i], p[i + 1], "relu", "xavier", catalogue, draws[i]);
        hidden := hidden + [made.value];
      }
      var made := NewOutput(p[|p| - 2], "identity", "xavier", catalogue, draws[|p| - 2]);
      output := made.value;
    }

    /** `predict(X)`: every layer's `forward` in turn, each fed the output of
        the one before. The parameters stay as they were; each layer keeps
        the batch it saw. */
    method ForwardLayer(i: nat, X: Matrix, a: Matrix, ghost net: Net) returns (out: Matrix)
      requires Valid() && Holds(net) && Shaped(net, p) && IsMatrix(X, |X|, p[0]) && i < |hidden|
      requires a == Propagate(net.hidden, p, X, i)
      requires SawUpTo(net, X, i)
      modifies (this.hidden[i] as HiddenLayer)`input, (this.hidden[i] as HiddenLayer)`z
      ensures Valid() && Holds(net)
      ensures out == Propagate(net.hidden, p, X, i + 1)
      ensures SawUpTo(net, X, i + 1)
    {
      out := hidden[i].Forward(a);
    }

    /** The Hidden layers' share of `predict`: each layer's `forward` in
        turn, each fed the output of the one before. */
    method ForwardHidden(X: Matrix, ghost net: Net) returns (a: Matrix)
      requires Valid() && Holds(net) && Shaped(net, p) && IsMatrix(X, |X|, p[0])
      modifies hidden
      ensures Valid() && Holds(net)
      ensures a == Propagate(net.hidden, p, X, |hidden|)
      ensures SawUpTo(net, X, |hidden|)
    {
      assert Propagate(net.hidden, p, X, 0) == X && SawUpTo(net, X, 0);
      hide Propagate, SawUpTo;
      a := X;
      for i := 0 to |hidden|
        invariant Valid() && Holds(net)
        invariant a == Propagate(net.hidden, p, X, i)
        invariant SawUpTo(net, X, i)
      {
        a := ForwardLayer(i, X, a, net);
      }
    }

    method Predict(X: Matrix) returns (yPred: Vector)
      requires Valid() && IsMatrix(X, |X|, p[0])
      modifies hidden, output
      ensures Valid() && Params() == old(Params())
      ensures Shaped(Params(), p) && yPred == Predicted(Params(), p, X)
      ensures Primed(Params(), X)
    {
      ValidShaped();
      ghost var net := Params();
      HoldsParams(net);
      yPred := PredictWith(X, net);
      HoldsParams(net);
    }

    method PredictWith(X: Matrix, ghost net: Net) returns (yPred: Vector)
      requires Valid() && Holds(net) && Shaped(net, p) && IsMatrix(X, |X|, p[0])
      modifies hidden, output
      ensures Valid() && Holds(net)
      ensures yPred == Predicted(net, p, X)
      ensures Primed(net, X)
    {
      hide Propagate, HeadForward, HeadPreActivation, PreActivation;
      var a := ForwardHidden(X, net);
      yPred := output.Forward(a);
    }

    /** One step of the backward sweep: layer `i`, holding `L` and having
        seen `A`, turns the signal reaching it into the signal for layer
        `i - 1` with `backward`, then takes its step with `update`. */
    method BackwardLayer(i: nat, signal: Matrix, ghost A: Matrix, ghost L: Dense) returns (down: Matrix)
      requires Wired() && i < |hidden| && DenseShaped(L, p[i], p[i + 1])
      requires hidden[i].Snapshot() == L && Saw(hidden[i], A, L)
      requires |A| > 0 && IsMatrix(signal, |A|, p[i + 1])
      modifies (this.hidden[i] as HiddenLayer)`delta, (this.hidden[i] as HiddenLayer)`dW,
               (this.hidden[i] as HiddenLayer)`db, (this.hidden[i] as HiddenLayer)`hasGradients,
               (this.hidden[i] as HiddenLayer)`weights, (this.hidden[i] as HiddenLayer)`bias
      ensures hidden[i].Snapshot() == HiddenStep(L, A, signal, p[i], p[i + 1], regParam, learningRate).layer
      ensures down == HiddenStep(L, A, signal, p[i], p[i + 1], regParam, learningRate).downstream
    {
      var layer := hidden[i];
      ghost var z := layer.z;
      down := layer.Backward(signal);
      ghost var delta, dW, db := layer.delta, layer.dW, layer.db;
      layer.Update(regParam, learningRate);
      ghost var dW2, W2, b2 := layer.dW, layer.weights, layer.bias;
      StagedStepIsHiddenStep(L, A, signal, p[i], p[i + 1], regParam, learningRate, z, delta, dW, db, dW2, W2, b2);
    }

    /** The layers that saw a batch under `net` each keep it, layer by layer. */
    lemma {:induction false} SawEach(net: Net, X: Matrix, k: nat)
      requires k <= |hidden| && SawUpTo(net, X, k)
      ensures forall j :: 0 <= j < k ==> Saw(hidden[j], Propagate(net.hidden, p, X, j), net.hidden[j])
      decreases k
    {
      if k > 0 {
        SawEach(net, X, k - 1);
      }
    }

    /** The Hidden layers' share of `backprop`: `backward` and `update` on
        each of them, from the last to the first, along the sweep traced by
        `inputs` and `signals`. */
    method BackwardHidden(grad: Matrix, rows: nat, ghost net: Net, ghost inputs: seq<Matrix>, ghost signals: seq<Matrix>, ghost after: seq<Dense>)
      requires Wired() && Holds(net) && Shaped(net, p) && rows > 0
      requires SweepTrace(net.hidden, p, rows, regParam, learningRate, inputs, signals, after)
      requires signals[|hidden|] == grad
      requires forall j :: 0 <= j < |hidden| ==> Saw(hidden[j], inputs[j], net.hidden[j])
      modifies hidden
      ensures Wired() && Holds(Net(after, net.head))
    {
      hide HiddenStep, PreActivation;
      var i := |hidden|;
      var signal := grad;
      while i > 0
        invariant 0 <= i <= |hidden|
        invariant Wired()
        invariant forall j :: 0 <= j < |hidden| ==> Saw(hidden[j], inputs[j], net.hidden[j])
        invariant forall j :: 0 <= j < |hidden| ==> hidden[j].Snapshot() == if j < i then net.hidden[j] else after[j]
        invariant signal == signals[i]
      {
        i := i - 1;
        signal := BackwardLayer(i, signal, inputs[i], net.hidden[i]);
      }
    }

    /** The backward sweep over the Hidden layers, once `predict` has left
        each of them holding the batch that reached it: the layers then
        hold the parameters `Swept` gives. */
    method SweepHidden(X: Matrix, grad: Matrix, ghost net: Net)
      requires Wired() && Holds(net) && Shaped(net, p) && |X| > 0 && IsMatrix(X, |X|, p[0])
      requires IsMatrix(grad, |X|, p[|hidden|]) && SawUpTo(net, X, |hidden|)
      modifies hidden
      ensures Valid() && Holds(Net(Swept(net.hidden, p, X, grad, regParam, learningRate, |hidden|), net.head))
    {
      ghost var after := Swept(net.hidden, p, X, grad, regParam, learningRate, |hidden|);
      SweptIsTraced(net.hidden, p, X, grad, regParam, learningRate);
      SawEach(net, X, |hidden|);
      BackwardHidden(grad, |X|, net, Inputs(net.hidden, p, X), Signals(net.hidden, p, X, grad, regParam, learningRate), after);
      HoldsShapedValid(Net(after, net.head));
    }

    /** The Output layer's `backward`: the signal it hands the last Hidden
        layer. What it stages is left in the Output layer, unused. */
    method HeadBackward(yPred: Vector, y: Vector) returns (grad: Matrix)
      requires output.Valid() && output.Fed() && |output.input| > 0 && |yPred| == |output.input| && |y| == |yPred|
      modifies this.output`delta, this.output`dW, this.output`db, this.output`hasGradients
      ensures grad == Outer(HeadError(yPred, y), output.weights) && IsMatrix(grad, |yPred|, output.nIn)
    {
      grad := output.Backward(yPred, y);
    }

    /** `backprop(X, y)`: a `predict`, then the Output layer's `backward`,
        then `backward` and `update` on each Hidden layer from the last to
        the first. The Output layer is never updated. */
    method Backprop(X: Matrix, y: Vector)
      requires Valid() && |X| > 0 && IsMatrix(X, |X|, p[0]) && |y| == |X|
      modifies hidden, output
      ensures Valid()
      ensures Params() == AfterBackprop(old(Params()), Settings(), X, y)
    {
      hide Swept, Predicted, Outer, HeadError, Propagate;
      ValidShaped();
      ghost var net := Params();
      HoldsParams(net);
      var yPred := PredictWith(X, net);
      var grad := HeadBackward(yPred, y);
      SweepHidden(X, grad, net);
      HoldsParams(AfterBackprop(net, Settings(), X, y));
    }

    /** `score(X, y)`: the mean squared error of `predict(X)` against `y`. */
    method Score(X: Matrix, y: Vector) returns (mse: real)
      requires Valid() && |X| > 0 && IsMatrix(X, |X|, p[0]) && |y| == |X|
      modifies hidden, output
      ensures Valid() && Params() == old(Params())
      ensures Shaped(Params(), p) && mse == Scored(Params(), p, X, y)
    {
      var yPred := Predict(X);
      mse := MeanSquaredError(yPred, y);
    }

    /** `eval`: appends the current training and test scores to the two
        history lists. */
    method Eval(data: Dataset)
      requires Valid() && DataShaped(data, p[0])
      requires TrainKey in hist && TestKey in hist
      modifies this`hist, hidden, output
      ensures Valid() && Params() == old(Params()) && Shaped(Params(), p)
      ensures hist == Logged(old(hist), Scored(Params(), p, data.xTrain, data.yTrain), Scored(Params(), p, data.xTest, data.yTest))
    {
      hide Scored, Logged;
      var trainScore := Score(data.xTrain, data.yTrain);
      var testScore := Score(data.xTest, data.yTest);
      hist := Logged(hist, trainScore, testScore);
    }

    /** One pass of the batch loop of `train`: `backprop` on batch `b` of
        the index order `idx`. */
    method TrainBatch(data: Dataset, idx: seq<nat>, batchSize: nat, b: nat, ghost start: Net)
      requires Valid() && DataShaped(data, p[0]) && batchSize > 0
      requires IsPermutation(idx, |data.xTrain|) && b < NumBatches(|data.xTrain|, batchSize)
      requires Shaped(start, p) && Params() == AfterBatches(start, Settings(), data, idx, batchSize, b)
      modifies hidden, output
      ensures Valid() && Params() == AfterBatches(start, Settings(), data, idx, batchSize, b + 1)
    {
      var batch := BatchOf(idx, |data.xTrain|, batchSize, b);
      Backprop(SelectRows(data.xTrain, batch), SelectRows(data.yTrain, batch));
    }

    /** The batch loop of one epoch of `train`: `backprop` on each full
        batch of the index order `idx`, in order. */
    method RunBatches(data: Dataset, idx: seq<nat>, batchSize: nat)
      requires Valid() && DataShaped(data, p[0]) && batchSize > 0
      requires IsPermutation(idx, |data.xTrain|)
      modifies hidden, output
      ensures Valid() && Shaped(old(Params()), p)
      ensures Params() == AfterBatches(old(Params()), Settings(), data, idx, batchSize, NumBatches(|data.xTrain|, batchSize))
    {
      ValidShaped();
      var nBatches := |data.xTrain| / batchSize;
      for b := 0 to nBatches
        invariant Valid()
        invariant Params() == AfterBatches(old(Params()), Settings(), data, idx, batchSize, b)
      {
        TrainBatch(data, idx, batchSize, b, old(Params()));
      }
    }

    /** The state after the batch loop of epoch `e` (for `e == 0`, after
        the set-up of `train`): the parameters are those of the first `e`
        epochs of training from `net0`, and `idx` holds the index order that
        epoch `e` shuffled into. */
    ghost predicate Ran(net0: Net, data: Dataset, batchSize: nat, shuffles: seq<seq<nat>>, e: nat, idx: array<nat>)
      requires Trainable(net0, Settings(), data, batchSize, shuffles) && e <= |shuffles|
      reads this`hidden, this`output, hidden`weights, hidden`bias, output`weights, output`bias, idx
    {
      && Valid() && idx[..] == IndexOrder(|data.xTrain|, shuffles, e)
      && Params() == AfterEpochs(net0, Settings(), data, batchSize, shuffles, e)
    }

    /** The state after epoch `e`: as `Ran`, and the history holds the
        scores of the first `e` epochs. */
    ghost predicate TrainedFor(net0: Net, data: Dataset, batchSize: nat, shuffles: seq<seq<nat>>, e: nat, idx: array<nat>)
      requires Trainable(net0, Settings(), data, batchSize, shuffles) && e <= |shuffles|
      reads this`hidden, this`output, hidden`weights, hidden`bias, output`weights, output`bias, this`hist, idx
    {
      Ran(net0, data, batchSize, shuffles, e, idx) && hist == History(net0, Settings(), data, batchSize, shuffles, e)
    }

    /** The training part of an epoch of `train`: shuffle the index array
        in place, then run the batch loop over it. */
    method ShuffleAndRun(data: Dataset, batchSize: nat, shuffles: seq<seq<nat>>, e: nat, idx: array<nat>, ghost net0: Net)
      requires Trainable(net0, Settings(), data, batchSize, shuffles) && e < |shuffles|
      requires Ran(net0, data, batchSize, shuffles, e, idx)
      modifies hidden, output, idx
      ensures Ran(net0, data, batchSize, shuffles, e + 1, idx)
    {
      hide AfterEpochs, AfterBatches;
      EpochRunsBatches(net0, Settings(), data, batchSize, shuffles, e);
      ShuffleForEpoch(idx, |data.xTrain|, shuffles, e);
      RunBatches(data, idx[..], batchSize);
    }

    /** The end of an epoch of `train`: `eval` logs the scores of the
        network the epoch ends with. */
    method EvalEpoch(data: Dataset, batchSize: nat, shuffles: seq<seq<nat>>, e: nat, idx: array<nat>, ghost net0: Net)
      requires Trainable(net0, Settings(), data, batchSize, shuffles) && e < |shuffles|
      requires Ran(net0, data, batchSize, shuffles, e + 1, idx)
      requires hist == History(net0, Settings(), data, batchSize, shuffles, e)
      modifies this`hist, hidden, output
      ensures TrainedFor(net0, data, batchSize, shuffles, e + 1, idx)
    {
      HistoryGrows(net0, Settings(), data, batchSize, shuffles, e);
      hide AfterEpochs, History, Scored, Logged;
      Eval(data);
    }

    /** One epoch of `train`: shuffle, the batch loop, then `eval`. */
    method TrainEpoch(data: Dataset, batchSize: nat, shuffles: seq<seq<nat>>, e: nat, idx: array<nat>, ghost net0: Net)
      requires Trainable(net0, Settings(), data, batchSize, shuffles) && e < |shuffles|
      requires TrainedFor(net0, data, batchSize, shuffles, e, idx)
      modifies this`hist, hidden, output, idx
      ensures TrainedFor(net0, data, batchSize, shuffles, e + 1, idx)
    {
      ShuffleAndRun(data, batchSize, shuffles, e, idx, net0);
      EvalEpoch(data, batchSize, shuffles, e, idx, net0);
    }

    /** The epoch loop of `train`, from the history and the index order
        that `train` sets up. */
    method RunEpochs(data: Dataset, nEpochs: nat, batchSize: nat, shuffles: seq<seq<nat>>, idx: array<nat>, ghost net0: Net)
      requires Trainable(net0, Settings(), data, batchSize, shuffles) && |shuffles| == nEpochs
      requires TrainedFor(net0, data, batchSize, shuffles, 0, idx)
      modifies this`hist, hidden, output, idx
      ensures TrainedFor(net0, data, batchSize, shuffles, nEpochs, idx)
    {
      for e := 0 to nEpochs
        invariant TrainedFor(net0, data, batchSize, shuffles, e, idx)
      {
        TrainEpoch(data, batchSize, shuffles, e, idx, net0);
      }
    }

    /** `train(data, n_epochs, batch_size)`: the history is reset; every
        epoch shuffles the index array in place (by `shuffles[e]`), runs
        `backprop` on each full batch of it in order, then `eval`. */
    method Train(data: Dataset, nEpochs: nat, batchSize: nat, shuffles: seq<seq<nat>>)
      requires Valid() && DataShaped(data, p[0]) && batchSize > 0
      requires |shuffles| == nEpochs && ShufflesFit(shuffles, |data.xTrain|)
      modifies this`hist, hidden, output
      ensures Valid() && Shaped(old(Params()), p)
      ensures Params() == AfterEpochs(old(Params()), Settings(), data, batchSize, shuffles, nEpochs)
      ensures hist == History(old(Params()), Settings(), data, batchSize, shuffles, nEpochs)
    {
      ValidShaped();
      var idx := new nat[|data.xTrain|](i => i);
      assert idx[..] == Range(|data.xTrain|);
      hist := map[TrainKey := [], TestKey := []];
      assert Params() == old(Params());
      assert hist == History(old(Params()), Settings(), data, batchSize, shuffles, 0);
      assert TrainedFor(old(Params()), data, batchSize, shuffles, 0, idx);
      hide AfterEpochs, History;
      RunEpochs(data, nEpochs, batchSize, shuffles, idx, old(Params()));
    }
  }

  /** The parameters `set_layers` gives the layers: the drawn weights and
      biases, relu on every Hidden layer and identity on the Output layer,
      whose weight column is squeezed and whose bias is its single entry. */
  ghost function InitialNet(p: seq<nat>, catalogue: Catalogue, draws: seq<Draw>): (net: Net)
    requires |p| >= 2 && p[|p| - 1] == 1
    requires |draws| == |p| - 1 && forall j :: 0 <= j < |draws| ==> DrawShaped(draws[j], p[j], p[j + 1])
    ensures Shaped(net, p)
  {
    var k := |p| - 2;
    assert DrawShaped(draws[k], p[k], 1);
    var hidden := seq(k, j requires 0 <= j < k => Dense(draws[j].weights, draws[j].bias, catalogue.relu));
    assert forall j :: 0 <= j < k ==> DrawShaped(draws[j], p[j], p[j + 1]) && hidden[j].weights == draws[j].weights && hidden[j].bias == draws[j].bias;
    var head := Head(SqueezeOutputAxis(draws[k].weights), draws[k].bias[0], catalogue.identity);
    assert |head.weights| == p[k];
    Net(hidden, head)
  }
}
