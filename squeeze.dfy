/**
 * The Output layer's weight squeeze, at the level of array shapes.
 *
 * The Output constructor draws an `n_input`-by-1 weight array and calls
 * `.squeeze()` on it with no axis, which drops EVERY axis of length 1. For
 * `n_input > 1` that leaves a vector of `n_input` entries, as intended; for
 * `n_input == 1` it leaves a 0-d array, and `input @ weights` in `forward`
 * then has no axis to contract over. Squeezing only the output axis gives a
 * vector of `n_input` entries for every `n_input`; that is what the Output
 * layer of this model stores.
 */
module Squeeze {
  import opened LinearAlgebra

  /** The number of entries of an array of this shape. */
  function Size(shape: seq<nat>): nat {
    if shape == [] then 1 else shape[0] * Size(shape[1..])
  }

  /** `a.squeeze()`: the shape with every axis of length 1 removed. No entry
      is lost and no length-1 axis is left; an `n`-by-1 column keeps only its
      `n` axis, and only when `n` is not 1. */
  function SqueezeAll(shape: seq<nat>): (r: seq<nat>)
    ensures |r| <= |shape| && forall i :: 0 <= i < |r| ==> r[i] != 1
    ensures Size(r) == Size(shape)
    ensures |shape| == 2 && shape[1] == 1 ==> r == (if shape[0] == 1 then [] else [shape[0]])
  {
    if shape == [] then []
    else if shape[0] == 1 then SqueezeAll(shape[1..])
    else [shape[0]] + SqueezeAll(shape[1..])
  }

  /** numpy's `a @ b` for a 2-d `a` and a `b` of at most two axes is defined
      when `b` has an axis and its first axis matches the last of `a`. */
  predicate MatmulDefined(a: seq<nat>, b: seq<nat>)
    requires |a| == 2
  {
    1 <= |b| <= 2 && b[0] == a[1]
  }

  /** As written, the Output layer's `forward` on a batch of `batch` rows is
      defined exactly when its layer has more or fewer than one input. */
  lemma {:induction false} SqueezedForwardDefinedIff(batch: nat, nIn: nat)
    ensures MatmulDefined([batch, nIn], SqueezeAll([nIn, 1])) <==> nIn != 1
  {
    assert [nIn, 1][1..] == [1] && [1][1..] == [];
    if nIn == 1 {
      assert SqueezeAll([nIn, 1]) == [];
    } else {
      assert SqueezeAll([nIn, 1]) == [nIn];
    }
  }

  /** A network whose last Hidden layer has width 1 (or `p == [1, 1]`)
      cannot predict: its squeezed Output weights have no axis left. */
  lemma SingleInputOutputCannotForward(batch: nat)
    ensures SqueezeAll([1, 1]) == []
    ensures !MatmulDefined([batch, 1], SqueezeAll([1, 1]))
  {
    SqueezedForwardDefinedIff(batch, 1);
  }

  /** `weights.squeeze(axis=-1)`: the drawn `n`-by-1 column as a vector of
      `n` entries, whatever `n` is. */
  function SqueezeOutputAxis(W: Matrix): (w: Vector)
    requires IsMatrix(W, |W|, 1)
    ensures |w| == |W| && forall i :: 0 <= i < |W| ==> w[i] == W[i][0]
  {
    Column(W, 0)
  }

  /** With only the output axis squeezed, `forward` is defined for every
      number of inputs, including one. */
  lemma SqueezedOutputAxisForwards(W: Matrix, batch: nat, nIn: nat)
    requires IsMatrix(W, nIn, 1)
    ensures MatmulDefined([batch, nIn], [|SqueezeOutputAxis(W)|])
  {
  }
}
