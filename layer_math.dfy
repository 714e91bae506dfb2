/**
 * The closed-form arithmetic of one layer: the forward map, the error
 * signals and gradients computed by the two `backward` variants, and the
 * L2-regularised gradient step of `update`. The layer classes in module
 * Layers are proved against these functions.
 */
module LayerMath {
  import opened LinearAlgebra
  import opened Activations

  /** The parameters of a Hidden layer: an `nIn`-by-`nOut` weight matrix, a
      bias of `nOut` entries and the activation. */
  datatype Dense = Dense(weights: Matrix, bias: Vector, act: Activation)

  predicate DenseShaped(L: Dense, nIn: nat, nOut: nat) {
    IsMatrix(L.weights, nIn, nOut) && |L.bias| == nOut
  }

  /** The parameters of the single-unit Output layer: the weight column
      squeezed to a vector of `nIn` entries, the one bias entry and the
      activation. */
  datatype Head = Head(weights: Vector, bias: real, act: Activation)

  // ---------------------------------------------------------------- forward

  /** `input @ W + b`, the bias broadcast over the rows of the batch. */
  function PreActivation(X: Matrix, W: Matrix, b: Vector): (Z: Matrix)
    requires IsMatrix(W, |W|, |b|) && IsMatrix(X, |X|, |W|)
    ensures IsMatrix(Z, |X|, |b|)
  {
    AddRowVector(MatMul(X, W, |b|), b)
  }

  /** What `forward` returns for a Hidden layer: `act(input @ W + b)`. */
  function DenseForward(L: Dense, X: Matrix): (A: Matrix)
    requires IsMatrix(L.weights, |L.weights|, |L.bias|) && IsMatrix(X, |X|, |L.weights|)
    ensures IsMatrix(A, |X|, |L.bias|)
  {
    MapEntries(L.act.apply, PreActivation(X, L.weights, L.bias))
  }

  /** `input @ w + b` for the squeezed Output weights: one value per row. */
  function HeadPreActivation(X: Matrix, w: Vector, b: real): (z: Vector)
    requires IsMatrix(X, |X|, |w|)
    ensures |z| == |X|
  {
    seq(|X|, i requires 0 <= i < |X| => Dot(X[i], w) + b)
  }

  /** What `forward` returns for the Output layer. */
  function HeadForward(H: Head, X: Matrix): (y: Vector)
    requires IsMatrix(X, |X|, |H.weights|)
    ensures |y| == |X|
  {
    var z := HeadPreActivation(X, H.weights, H.bias);
    seq(|X|, i requires 0 <= i < |X| => H.act.apply(z[i]))
  }

  // --------------------------------------------------------- Hidden backward

  /** `upstream * d_act(z)`. */
  function HiddenDelta(upstream: Matrix, z: Matrix, dAct: real -> real, m: nat): (delta: Matrix)
    requires IsMatrix(upstream, |upstream|, m) && IsMatrix(z, |upstream|, m)
    ensures IsMatrix(delta, |upstream|, m)
  {
    Hadamard(upstream, MapEntries(dAct, z), m)
  }

  /** `delta @ W.T`: the signal handed to the preceding layer. */
  function Downstream(delta: Matrix, W: Matrix, m: nat): (r: Matrix)
    requires IsMatrix(delta, |delta|, m) && IsMatrix(W, |W|, m)
    ensures IsMatrix(r, |delta|, |W|)
  {
    MatMul(delta, Transpose(W, m), |W|)
  }

  /** `np.einsum('ij,ik->jki', input, delta)`: for every weight (j, k) the
      products of input feature j and error signal k, one per sample. */
  function SampleOuterProducts(input: Matrix, delta: Matrix, n: nat, m: nat): (T: seq<Matrix>)
    requires IsMatrix(input, |input|, n) && IsMatrix(delta, |input|, m)
    ensures |T| == n && forall j :: 0 <= j < n ==> IsMatrix(T[j], m, |input|)
  {
    seq(n, j requires 0 <= j < n =>
      seq(m, k requires 0 <= k < m =>
        seq(|input|, i requires 0 <= i < |input| => input[i][j] * delta[i][k])))
  }

  /** `.mean(axis=-1)` of a three-axis array. */
  function MeanLastAxis(T: seq<Matrix>, m: nat, batch: nat): (r: Matrix)
    requires batch > 0 && forall j :: 0 <= j < |T| ==> IsMatrix(T[j], m, batch)
    ensures IsMatrix(r, |T|, m)
    ensures forall j, k :: 0 <= j < |T| && 0 <= k < m ==> IsMatrix(T[j], m, batch) && r[j][k] == Mean(T[j][k])
  {
    var r := seq(|T|, j requires 0 <= j < |T| =>
      assert IsMatrix(T[j], m, batch); RowMean(T[j], batch));
    assert forall j :: 0 <= j < |T| ==> IsMatrix(T[j], m, batch) && |r[j]| == m;
    r
  }

  /** The Hidden layer's `dW`: the batch mean of the per-sample outer products. */
  function HiddenWeightGrad(input: Matrix, delta: Matrix, n: nat, m: nat): (dW: Matrix)
    requires |input| > 0 && IsMatrix(input, |input|, n) && IsMatrix(delta, |input|, m)
    ensures IsMatrix(dW, n, m)
  {
    MeanLastAxis(SampleOuterProducts(input, delta, n, m), m, |input|)
  }

  /** The einsum-and-mean gradient is the textbook `input.T @ delta / B`. */
  lemma HiddenWeightGradIsScaledProduct(input: Matrix, delta: Matrix, n: nat, m: nat)
    requires |input| > 0 && IsMatrix(input, |input|, n) && IsMatrix(delta, |input|, m)
    ensures HiddenWeightGrad(input, delta, n, m)
         == MatScale(1.0 / (|input| as real), MatMul(Transpose(input, n), delta, m))
  {
    var B := |input|;
    var G := HiddenWeightGrad(input, delta, n, m);
    var P := MatMul(Transpose(input, n), delta, m);
    var S := MatScale(1.0 / (B as real), P);
    forall j, k | 0 <= j < n && 0 <= k < m
      ensures G[j][k] == S[j][k]
    {
      var products := SampleOuterProducts(input, delta, n, m)[j][k];
      var terms := seq(B, i requires 0 <= i < B => Transpose(input, n)[j][i] * Column(delta, k)[i]);
      SumCongruent(products, terms);
      assert P[j][k] == Sum(terms);
    }
    assert forall j :: 0 <= j < n ==> G[j] == S[j];
  }

  /** The bias gradient is the weight gradient of a constant input of 1:
      `delta.mean(axis=0)` is the einsum mean against a column of ones. */
  lemma HiddenBiasGradIsUnitInputGrad(delta: Matrix, m: nat)
    requires |delta| > 0 && IsMatrix(delta, |delta|, m)
    ensures HiddenWeightGrad(seq(|delta|, i => [1.0]), delta, 1, m)[0] == ColumnMean(delta, m)
  {
    var ones := seq(|delta|, i => [1.0]);
    var G := HiddenWeightGrad(ones, delta, 1, m);
    var C := ColumnMean(delta, m);
    forall k | 0 <= k < m
      ensures G[0][k] == C[k]
    {
      SumCongruent(SampleOuterProducts(ones, delta, 1, m)[0][k], Column(delta, k));
    }
  }

  // --------------------------------------------------------- Output backward

  /** `2 * (y_pred - y_true)`: the derivative of the squared error with
      respect to each prediction. */
  function HeadError(yPred: Vector, yTrue: Vector): (e: Vector)
    requires |yPred| == |yTrue|
    ensures |e| == |yPred| && forall i :: 0 <= i < |e| ==> e[i] == 2.0 * (yPred[i] - yTrue[i])
  {
    VecScale(2.0, VecAxpy(yPred, -1.0, yTrue))
  }

  /** `(error * input.T).mean(axis=-1)`: error broadcast along the rows of
      the transposed input, then the mean of each row. */
  function HeadWeightGrad(input: Matrix, error: Vector, n: nat): (dW: Vector)
    requires |input| > 0 && IsMatrix(input, |input|, n) && |error| == |input|
    ensures |dW| == n
  {
    var inputT := Transpose(input, n);
    var M := seq(n, j requires 0 <= j < n =>
      seq(|input|, i requires 0 <= i < |input| => error[i] * inputT[j][i]));
    RowMean(M, |input|)
  }

  /** The broadcast gradient is the textbook `input.T @ error / B`. */
  lemma HeadWeightGradIsScaledProduct(input: Matrix, error: Vector, n: nat)
    requires |input| > 0 && IsMatrix(input, |input|, n) && |error| == |input|
    ensures HeadWeightGrad(input, error, n)
         == VecScale(1.0 / (|input| as real), MatVec(Transpose(input, n), error))
  {
    var B := |input|;
    var inputT := Transpose(input, n);
    var G := HeadWeightGrad(input, error, n);
    var S := VecScale(1.0 / (B as real), MatVec(inputT, error));
    forall j | 0 <= j < n
      ensures G[j] == S[j]
    {
      var products := seq(B, i requires 0 <= i < B => error[i] * inputT[j][i]);
      var terms := seq(B, i requires 0 <= i < B => inputT[j][i] * error[i]);
      SumCongruent(products, terms);
    }
  }

  // ------------------------------------------------------------------ update

  /** `dW + 2 * reg * W`: the gradient with the L2 penalty added. */
  function RegularisedGradient(dW: Matrix, W: Matrix, reg: real, m: nat): (g: Matrix)
    requires IsMatrix(dW, |dW|, m) && IsMatrix(W, |dW|, m)
    ensures IsMatrix(g, |dW|, m)
  {
    MatAxpy(dW, 2.0 * reg, W, m)
  }

  /** `W - lr * g`. */
  function GradientStep(W: Matrix, g: Matrix, lr: real, m: nat): (W': Matrix)
    requires IsMatrix(W, |W|, m) && IsMatrix(g, |W|, m)
    ensures IsMatrix(W', |W|, m)
  {
    MatAxpy(W, -lr, g, m)
  }

  /** The regularised step is weight decay: every weight is shrunk by the
      factor `1 - 2 lr reg` and moved against its gradient. */
  lemma StepIsWeightDecay(W: Matrix, dW: Matrix, reg: real, lr: real, n: nat, m: nat)
    requires IsMatrix(W, n, m) && IsMatrix(dW, n, m)
    ensures var W' := GradientStep(W, RegularisedGradient(dW, W, reg, m), lr, m);
      IsMatrix(W', n, m) &&
      forall j, k :: 0 <= j < n && 0 <= k < m ==>
        W'[j][k] == (1.0 - 2.0 * lr * reg) * W[j][k] - lr * dW[j][k]
  {
  }

  /** With no penalty and a zero gradient the step leaves the weights as
      they are, whatever the learning rate. */
  lemma StepWithoutGradientKeepsWeights(W: Matrix, b: Vector, lr: real, n: nat, m: nat)
    requires IsMatrix(W, n, m) && |b| == m
    ensures GradientStep(W, RegularisedGradient(Zeros(n, m), W, 0.0, m), lr, m) == W
    ensures VecAxpy(b, -lr, seq(m, k => 0.0)) == b
  {
    var W' := GradientStep(W, RegularisedGradient(Zeros(n, m), W, 0.0, m), lr, m);
    assert forall j :: 0 <= j < n ==> W'[j] == W[j];
  }
}
