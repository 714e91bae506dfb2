/**
 * The index arithmetic of the mini-batch loop: the index permutation that
 * `train` keeps across epochs and reshuffles in place, the number of full
 * batches, and the slices of the permutation that make up the batches.
 */
module Batching {

  /** `s` lists each of 0 .. n-1 exactly once. */
  predicate IsPermutation(s: seq<nat>, n: nat) {
    && |s| == n
    && (forall i :: 0 <= i < n ==> s[i] < n)
    && (forall i, j :: 0 <= i < j < n ==> s[i] != s[j])
  }

  /** `np.arange(n)`. */
  function Range(n: nat): (r: seq<nat>)
    ensures IsPermutation(r, n)
    ensures forall i :: 0 <= i < n ==> r[i] == i
  {
    seq(n, i requires 0 <= i => i)
  }

  /** The rearrangement of `s` that puts its entry `perm[k]` at position `k`:
      what a shuffle does to the array it shuffles. */
  function Permute(s: seq<nat>, perm: seq<nat>): (r: seq<nat>)
    requires forall k :: 0 <= k < |perm| ==> perm[k] < |s|
    ensures |r| == |perm| && forall k :: 0 <= k < |perm| ==> r[k] == s[perm[k]]
  {
    seq(|perm|, k requires 0 <= k < |perm| => s[perm[k]])
  }

  /** Shuffling a permutation of 0 .. n-1 by a permutation gives a
      permutation of 0 .. n-1 again. */
  lemma PermuteKeepsPermutation(s: seq<nat>, perm: seq<nat>, n: nat)
    requires IsPermutation(s, n) && IsPermutation(perm, n)
    ensures IsPermutation(Permute(s, perm), n)
  {
    var r := Permute(s, perm);
    forall i, j | 0 <= i < j < n
      ensures r[i] != r[j]
    {
      if perm[i] < perm[j] {
        assert s[perm[i]] != s[perm[j]];
      } else {
        assert s[perm[j]] != s[perm[i]];
      }
    }
  }

  /** `n // batch_size`: the number of full batches, with fewer than one
      batch's worth of samples left over. */
  function NumBatches(n: nat, batchSize: nat): (k: nat)
    requires batchSize > 0
    ensures k * batchSize <= n < (k + 1) * batchSize
  {
    n / batchSize
  }

  /** A batch size larger than the training set gives no batch at all. */
  lemma OversizedBatchGivesNoBatch(n: nat, batchSize: nat)
    requires batchSize > n
    ensures NumBatches(n, batchSize) == 0
  {
    var k := NumBatches(n, batchSize);
    if k > 0 {
      assert k * batchSize >= batchSize by { MulMonotone(1, k, batchSize); }
    }
  }

  lemma MulMonotone(a: nat, b: nat, c: nat)
    requires a <= b
    ensures a * c <= b * c
  {
  }

  /** Batch `b` of the full batches lies inside the index array. */
  lemma BatchFits(n: nat, batchSize: nat, b: nat)
    requires batchSize > 0 && b < NumBatches(n, batchSize)
    ensures (b + 1) * batchSize <= n
  {
    MulMonotone(b + 1, NumBatches(n, batchSize), batchSize);
  }

  /** `idx[b * batch_size : (b + 1) * batch_size]`. */
  function Batch(idx: seq<nat>, b: nat, batchSize: nat): (r: seq<nat>)
    requires (b + 1) * batchSize <= |idx|
    ensures |r| == batchSize
    ensures forall i :: 0 <= i < batchSize ==> r[i] == idx[b * batchSize + i]
  {
    idx[b * batchSize .. (b + 1) * batchSize]
  }

  /** The first `k` batches laid end to end. */
  function Batches(idx: seq<nat>, k: nat, batchSize: nat): seq<nat>
    requires k * batchSize <= |idx|
  {
    if k == 0 then []
    else
      MulMonotone(k - 1, k, batchSize);
      Batches(idx, k - 1, batchSize) + Batch(idx, k - 1, batchSize)
  }

  /** The batches are consecutive slices: together the first `k` of them are
      exactly the first `k * batch_size` shuffled indices, in order. */
  lemma {:induction false} BatchesCover(idx: seq<nat>, k: nat, batchSize: nat)
    requires k * batchSize <= |idx|
    ensures Batches(idx, k, batchSize) == idx[..k * batchSize]
  {
    if k > 0 {
      MulMonotone(k - 1, k, batchSize);
      BatchesCover(idx, k - 1, batchSize);
      assert idx[..k * batchSize] == idx[..(k - 1) * batchSize] + idx[(k - 1) * batchSize .. k * batchSize];
    }
  }

  /** Batch `b1` ends where or before batch `b2` starts, and both fit. */
  lemma BatchesOrdered(n: nat, batchSize: nat, b1: nat, b2: nat)
    requires batchSize > 0 && b1 < b2 < NumBatches(n, batchSize)
    ensures (b1 + 1) * batchSize == b1 * batchSize + batchSize
    ensures (b2 + 1) * batchSize == b2 * batchSize + batchSize
    ensures b1 * batchSize + batchSize <= b2 * batchSize
    ensures (b2 + 1) * batchSize <= n
  {
    BatchFits(n, batchSize, b2);
    MulMonotone(b1 + 1, b2, batchSize);
  }

  /** Two different batches of a permutation share no sample. */
  lemma BatchesDisjoint(idx: seq<nat>, n: nat, batchSize: nat, b1: nat, b2: nat)
    requires IsPermutation(idx, n) && batchSize > 0
    requires b1 < b2 < NumBatches(n, batchSize)
    ensures (b1 + 1) * batchSize <= |idx| && (b2 + 1) * batchSize <= |idx|
    ensures forall x :: x in Batch(idx, b1, batchSize) ==> x !in Batch(idx, b2, batchSize)
  {
    BatchesOrdered(n, batchSize, b1, b2);
    var start1, start2 := b1 * batchSize, b2 * batchSize;
    var first, second := Batch(idx, b1, batchSize), Batch(idx, b2, batchSize);
    forall x | x in first
      ensures x !in second
    {
      var i :| 0 <= i < batchSize && first[i] == x;
      assert x == idx[start1 + i];
      forall j | 0 <= j < batchSize
        ensures second[j] != x
      {
        assert second[j] == idx[start2 + j];
      }
    }
  }

  /** Every batch of a permutation of 0 .. n-1 holds valid sample indices,
      each at most once. */
  lemma BatchOfPermutation(idx: seq<nat>, n: nat, batchSize: nat, b: nat)
    requires IsPermutation(idx, n) && batchSize > 0 && b < NumBatches(n, batchSize)
    ensures (b + 1) * batchSize <= |idx|
    ensures && (forall i :: 0 <= i < batchSize ==> Batch(idx, b, batchSize)[i] < n)
      && (forall i, j :: 0 <= i < j < batchSize ==> Batch(idx, b, batchSize)[i] != Batch(idx, b, batchSize)[j])
  {
    BatchFits(n, batchSize, b);
  }

  /** Batch `b` as the training loop hands it to `backprop`: `batch_size`
      valid sample indices. */
  function BatchOf(idx: seq<nat>, n: nat, batchSize: nat, b: nat): (r: seq<nat>)
    requires IsPermutation(idx, n) && batchSize > 0 && b < NumBatches(n, batchSize)
    ensures |r| == batchSize && forall i :: 0 <= i < batchSize ==> r[i] < n
  {
    BatchOfPermutation(idx, n, batchSize, b);
    Batch(idx, b, batchSize)
  }
}
