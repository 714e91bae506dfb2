/**
 * The two layer variants of the network module, as classes whose fields the
 * methods update in place: `forward` overwrites the stored `input` and `z`,
 * `backward` stages `delta`, `dW` and `db`, and `update` applies the
 * regularised gradient step to `weights` and `bias`.
 *
 * The source has one base class `Layer` with subclasses `Hidden` and
 * `Output`; here they are two classes, and the shared `forward`/`update` are
 * written once per class over the shared formulas of module LayerMath.
 */
module Layers {
  import opened LinearAlgebra
  import opened Activations
  import opened LayerMath
  import opened Squeeze

  /** What a weight initialiser returned for one layer: a weight matrix and
      a bias vector. The draw is random, so it is a parameter. */
  datatype Draw = Draw(weights: Matrix, bias: Vector)

  predicate DrawShaped(d: Draw, nIn: nat, nOut: nat) {
    IsMatrix(d.weights, nIn, nOut) && |d.bias| == nOut
  }

  class HiddenLayer {
    const nIn: nat
    const nOut: nat
    const weightInit: string
    const activation: string
    /** `(self.act, self.d_act)`, as resolved from `activation`. */
    const act: Activation

    var weights: Matrix
    var bias: Vector
    /** The batch seen by the last `forward`, and its pre-activation. */
    var input: Matrix
    var z: Matrix
    /** Staged by `backward`; `hasGradients` records that `dW` and `db`
        exist, which they do only once `backward` has run. */
    var delta: Matrix
    var dW: Matrix
    var db: Vector
    var hasGradients: bool

    /** The parameters have the layer's shape. */
    ghost predicate Valid()
      reads this`weights, this`bias
    {
      IsMatrix(weights, nIn, nOut) && |bias| == nOut
    }

    /** `input` and `z` agree in shape: `z` has a row of width `n_output` per
        row of `input`. Trivially so before any `forward`, when both are empty. */
    ghost predicate Fed()
      reads this`input, this`z
    {
      IsMatrix(input, |input|, nIn) && IsMatrix(z, |input|, nOut)
    }

    /** Gradients have been staged by `backward`. */
    ghost predicate Staged()
      reads this`hasGradients, this`dW, this`db
    {
      hasGradients && IsMatrix(dW, nIn, nOut) && |db| == nOut
    }

    /** The layer's parameters as a value. */
    ghost function Snapshot(): Dense
      reads this`weights, this`bias
    {
      Dense(weights, bias, act)
    }

    /** The construction that succeeds: both names resolved, the drawn
        weights and bias stored. No batch has been seen yet. */
    constructor (nIn: nat, nOut: nat, weightInit: string, activation: string,
                 catalogue: Catalogue, draw: Draw)
      requires ResolveLayer(weightInit, activation, catalogue).Ok?
      requires DrawShaped(draw, nIn, nOut)
      ensures Valid() && Fed() && !hasGradients && input == [] && z == []
      ensures this.nIn == nIn && this.nOut == nOut
      ensures this.weightInit == weightInit && this.activation == activation
      ensures act == ResolveLayer(weightInit, activation, catalogue).value.1
      ensures weights == draw.weights && bias == draw.bias
    {
      this.nIn, this.nOut := nIn, nOut;
      this.weightInit, this.activation := weightInit, activation;
      act := ResolveLayer(weightInit, activation, catalogue).value.1;
      weights, bias := draw.weights, draw.bias;
      input, z := [], [];
      delta, dW, db := [], [], [];
      hasGradients := false;
    }

    /** `forward`: stores the batch and `z = input @ W + b`, returns `act(z)`. */
    method Forward(X: Matrix) returns (out: Matrix)
      requires Valid() && IsMatrix(X, |X|, nIn)
      modifies this`input, this`z
      ensures Fed()
      ensures input == X && z == PreActivation(X, weights, bias)
      ensures out == DenseForward(Snapshot(), X)
      ensures IsMatrix(out, |X|, nOut)
    {
      input := X;
      z := PreActivation(input, weights, bias);
      out := MapEntries(act.apply, z);
    }

    /** `Hidden.backward`: stages `delta = upstream * d_act(z)`, the batch-mean
        gradients `dW` and `db`, and returns `delta @ W.T`. The weights and
        the bias are not touched. */
    method Backward(upstream: Matrix) returns (downstream: Matrix)
      requires Valid() && Fed() && |input| > 0 && IsMatrix(upstream, |input|, nOut)
      modifies this`delta, this`dW, this`db, this`hasGradients
      ensures Staged()
      ensures delta == HiddenDelta(upstream, z, act.derivative, nOut)
      ensures dW == HiddenWeightGrad(input, delta, nIn, nOut)
      ensures db == ColumnMean(delta, nOut)
      ensures downstream == Downstream(delta, weights, nOut)
      ensures IsMatrix(downstream, |input|, nIn)
    {
      delta := HiddenDelta(upstream, z, act.derivative, nOut);
      downstream := Downstream(delta, weights, nOut);
      dW := HiddenWeightGrad(input, delta, nIn, nOut);
      db := ColumnMean(delta, nOut);
      hasGradients := true;
    }

    /** `update`: adds the L2 penalty to the staged `dW` (in place), then
        steps the weights and the bias against their gradients. */
    method Update(regParam: real, learningRate: real)
      requires Valid() && Staged()
      modifies this`dW, this`weights, this`bias
      ensures Valid()
      ensures dW == RegularisedGradient(old(dW), old(weights), regParam, nOut)
      ensures weights == GradientStep(old(weights), dW, learningRate, nOut)
      ensures bias == VecAxpy(old(bias), -learningRate, db)
    {
      dW := RegularisedGradient(dW, weights, regParam, nOut);
      weights := GradientStep(weights, dW, learningRate, nOut);
      bias := VecAxpy(bias, -learningRate, db);
    }
  }

  /** `Hidden(n_input, n_output, activation, weight_init)`: the initialiser
      name is resolved first, then the activation name; either failure is a
      configuration error and no layer is made. */
  method NewHidden(nIn: nat, nOut: nat, activation: string, weightInit: string,
                   catalogue: Catalogue, draw: Draw) returns (r: Result<HiddenLayer>)
    requires DrawShaped(draw, nIn, nOut)
    ensures r.Ok? <==> ResolveLayer(weightInit, activation, catalogue).Ok?
    ensures r.Err? ==> r.error == ResolveLayer(weightInit, activation, catalogue).error
    ensures r.Ok? ==> fresh(r.value) && r.value.Valid() && r.value.Fed() && !r.value.hasGradients
    ensures r.Ok? ==> r.value.nIn == nIn && r.value.nOut == nOut
    ensures r.Ok? ==> r.value.activation == activation && r.value.weightInit == weightInit
    ensures r.Ok? ==> r.value.Snapshot() == Dense(draw.weights, draw.bias, ResolveLayer(weightInit, activation, catalogue).value.1)
  {
    var resolved := ResolveLayer(weightInit, activation, catalogue);
    if resolved.Err? {
      return Err(resolved.error);
    }
    var layer := new HiddenLayer(nIn, nOut, weightInit, activation, catalogue, draw);
    return Ok(layer);
  }

  class OutputLayer {
    const nIn: nat
    const weightInit: string
    const activation: string
    const act: Activation

    /** The drawn `nIn`-by-1 weight column, squeezed to a vector. */
    var weights: Vector
    /** The single bias entry. */
    var bias: real
    var input: Matrix
    var z: Vector
    var delta: Matrix
    var dW: Vector
    var db: real
    var hasGradients: bool

    /** The weight vector has the layer's width. */
    ghost predicate Valid()
      reads this`weights
    {
      |weights| == nIn
    }

    /** One pre-activation per row of `input`. Trivially so before any
        `forward`, when both are empty. */
    ghost predicate Fed()
      reads this`input, this`z
    {
      IsMatrix(input, |input|, nIn) && |z| == |input|
    }

    /** Gradients have been staged by `backward`. */
    ghost predicate Staged()
      reads this`hasGradients, this`dW
    {
      hasGradients && |dW| == nIn
    }

    ghost function Snapshot(): Head
      reads this`weights, this`bias
    {
      Head(weights, bias, act)
    }

    /** The construction that succeeds, for a single output unit; the
        weight column is squeezed to a vector of `nIn` entries. */
    constructor (nIn: nat, weightInit: string, activation: string,
                 catalogue: Catalogue, draw: Draw)
      requires ResolveLayer(weightInit, activation, catalogue).Ok?
      requires DrawShaped(draw, nIn, 1)
      ensures Valid() && Fed() && !hasGradients && input == []
      ensures this.nIn == nIn
      ensures this.weightInit == weightInit && this.activation == activation
      ensures act == ResolveLayer(weightInit, activation, catalogue).value.1
      ensures weights == SqueezeOutputAxis(draw.weights) && bias == draw.bias[0]
    {
      this.nIn := nIn;
      this.weightInit, this.activation := weightInit, activation;
      act := ResolveLayer(weightInit, activation, catalogue).value.1;
      weights := SqueezeOutputAxis(draw.weights);
      bias := draw.bias[0];
      input, z := [], [];
      delta, dW, db := [], [], 0.0;
      hasGradients := false;
    }

    /** `forward`: stores the batch and `z = input @ w + b`, returns `act(z)`,
        one prediction per row. */
    method Forward(X: Matrix) returns (out: Vector)
      requires Valid() && IsMatrix(X, |X|, nIn)
      modifies this`input, this`z
      ensures Fed()
      ensures input == X && z == HeadPreActivation(X, weights, bias)
      ensures out == HeadForward(Snapshot(), X) && |out| == |X|
    {
      input := X;
      z := HeadPreActivation(input, weights, bias);
      out := HeadForward(Head(weights, bias, act), X);
    }

    /** `Output.backward`: with `error = 2 * (y_pred - y_true)`, stages
        `delta = outer(error, w)`, `dW` and `db = mean(error)` and returns
        `delta`. The weights and the bias are not touched. */
    method Backward(yPred: Vector, yTrue: Vector) returns (signal: Matrix)
      requires Valid() && Fed() && |input| > 0 && |yPred| == |input| && |yTrue| == |input|
      modifies this`delta, this`dW, this`db, this`hasGradients
      ensures Staged()
      ensures delta == Outer(HeadError(yPred, yTrue), weights)
      ensures dW == HeadWeightGrad(input, HeadError(yPred, yTrue), nIn)
      ensures db == Mean(HeadError(yPred, yTrue))
      ensures signal == delta && IsMatrix(signal, |input|, nIn)
    {
      var error := HeadError(yPred, yTrue);
      delta := Outer(error, weights);
      dW := HeadWeightGrad(input, error, nIn);
      db := Mean(error);
      hasGradients := true;
      signal := delta;
    }

    /** `update`, inherited from the base layer: never called by the network. */
    method Update(regParam: real, learningRate: real)
      requires Valid() && Staged()
      modifies this`dW, this`weights, this`bias
      ensures Valid()
      ensures dW == VecAxpy(old(dW), 2.0 * regParam, old(weights))
      ensures weights == VecAxpy(old(weights), -learningRate, dW)
      ensures bias == old(bias) - learningRate * db
    {
      dW := VecAxpy(dW, 2.0 * regParam, weights);
      weights := VecAxpy(weights, -learningRate, dW);
      bias := bias - learningRate * db;
    }
  }

  /** `Output(n_input, 1, activation, weight_init)`: resolution as for a
      Hidden layer, then the weight column is squeezed. */
  method NewOutput(nIn: nat, activation: string, weightInit: string,
                   catalogue: Catalogue, draw: Draw) returns (r: Result<OutputLayer>)
    requires DrawShaped(draw, nIn, 1)
    ensures r.Ok? <==> ResolveLayer(weightInit, activation, catalogue).Ok?
    ensures r.Err? ==> r.error == ResolveLayer(weightInit, activation, catalogue).error
    ensures r.Ok? ==> fresh(r.value) && r.value.Valid() && r.value.Fed() && !r.value.hasGradients
    ensures r.Ok? ==> r.value.nIn == nIn
    ensures r.Ok? ==> r.value.activation == activation && r.value.weightInit == weightInit
    ensures r.Ok? ==> r.value.Snapshot() == Head(SqueezeOutputAxis(draw.weights), draw.bias[0], ResolveLayer(weightInit, activation, catalogue).value.1)
  {
    var resolved := ResolveLayer(weightInit, activation, catalogue);
    if resolved.Err? {
      return Err(resolved.error);
    }
    var layer := new OutputLayer(nIn, weightInit, activation, catalogue, draw);
    return Ok(layer);
  }
}
