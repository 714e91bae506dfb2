/**
 * Dense linear algebra over exact reals: the numpy array operations the
 * network uses (matrix product, transpose, broadcasting a bias over the rows
 * of a batch, elementwise maps and products, means along an axis).
 * A batch is a matrix whose rows are samples.
 */
module LinearAlgebra {

  type Vector = seq<real>
  type Matrix = seq<seq<real>>

  /** `A` has `rows` rows of `cols` entries each. */
  predicate IsMatrix(A: Matrix, rows: nat, cols: nat) {
    |A| == rows && forall i :: 0 <= i < |A| ==> |A[i]| == cols
  }

  function Sum(s: Vector): real {
    if s == [] then 0.0 else s[0] + Sum(s[1..])
  }

  function Mean(s: Vector): real
    requires |s| > 0
  {
    Sum(s) / (|s| as real)
  }

  function Dot(u: Vector, v: Vector): real
    requires |u| == |v|
  {
    Sum(seq(|u|, i requires 0 <= i < |u| => u[i] * v[i]))
  }

  /** Column `k` of `A`. */
  function Column(A: Matrix, k: nat): (c: Vector)
    requires forall i :: 0 <= i < |A| ==> k < |A[i]|
    ensures |c| == |A| && forall i :: 0 <= i < |A| ==> c[i] == A[i][k]
  {
    seq(|A|, i requires 0 <= i < |A| => A[i][k])
  }

  /** `A @ B` for an `|A|`-by-`|B|` matrix and a `|B|`-by-`m` matrix. */
  function MatMul(A: Matrix, B: Matrix, m: nat): (C: Matrix)
    requires IsMatrix(A, |A|, |B|) && IsMatrix(B, |B|, m)
    ensures IsMatrix(C, |A|, m)
  {
    seq(|A|, i requires 0 <= i < |A| =>
      seq(m, k requires 0 <= k < m => Dot(A[i], Column(B, k))))
  }

  /** `A @ v`: one dot product per row. */
  function MatVec(A: Matrix, v: Vector): (r: Vector)
    requires IsMatrix(A, |A|, |v|)
    ensures |r| == |A|
  {
    seq(|A|, i requires 0 <= i < |A| => Dot(A[i], v))
  }

  /** `A.T` for an `|A|`-by-`m` matrix. */
  function Transpose(A: Matrix, m: nat): (T: Matrix)
    requires IsMatrix(A, |A|, m)
    ensures IsMatrix(T, m, |A|)
    ensures forall k, i :: 0 <= k < m && 0 <= i < |A| ==> T[k][i] == A[i][k]
  {
    seq(m, k requires 0 <= k < m => Column(A, k))
  }

  /** `Z + b`: numpy broadcasts the vector `b` over every row of `Z`. */
  function AddRowVector(Z: Matrix, b: Vector): (r: Matrix)
    requires IsMatrix(Z, |Z|, |b|)
    ensures IsMatrix(r, |Z|, |b|)
  {
    seq(|Z|, i requires 0 <= i < |Z| =>
      seq(|b|, k requires 0 <= k < |b| => Z[i][k] + b[k]))
  }

  /** `f(Z)` for an elementwise function `f`. */
  function MapEntries(f: real -> real, Z: Matrix): (r: Matrix)
    ensures |r| == |Z| && forall i :: 0 <= i < |Z| ==> |r[i]| == |Z[i]|
  {
    seq(|Z|, i requires 0 <= i < |Z| =>
      seq(|Z[i]|, k requires 0 <= k < |Z[i]| => f(Z[i][k])))
  }

  /** `A * B` between two matrices of one shape. */
  function Hadamard(A: Matrix, B: Matrix, m: nat): (r: Matrix)
    requires IsMatrix(A, |A|, m) && IsMatrix(B, |A|, m)
    ensures IsMatrix(r, |A|, m)
  {
    seq(|A|, i requires 0 <= i < |A| =>
      seq(m, k requires 0 <= k < m => A[i][k] * B[i][k]))
  }

  /** `np.outer(u, v)`. */
  function Outer(u: Vector, v: Vector): (r: Matrix)
    ensures IsMatrix(r, |u|, |v|)
  {
    seq(|u|, i requires 0 <= i < |u| =>
      seq(|v|, k requires 0 <= k < |v| => u[i] * v[k]))
  }

  /** `A + c * B` between two matrices of one shape. */
  function MatAxpy(A: Matrix, c: real, B: Matrix, m: nat): (r: Matrix)
    requires IsMatrix(A, |A|, m) && IsMatrix(B, |A|, m)
    ensures IsMatrix(r, |A|, m)
  {
    seq(|A|, i requires 0 <= i < |A| =>
      seq(m, k requires 0 <= k < m => A[i][k] + c * B[i][k]))
  }

  /** `u + c * v` between two vectors of one length. */
  function VecAxpy(u: Vector, c: real, v: Vector): (r: Vector)
    requires |u| == |v|
    ensures |r| == |u|
  {
    seq(|u|, i requires 0 <= i < |u| => u[i] + c * v[i])
  }

  /** `c * v`. */
  function VecScale(c: real, v: Vector): (r: Vector)
    ensures |r| == |v|
  {
    seq(|v|, i requires 0 <= i < |v| => c * v[i])
  }

  /** `c * A`. */
  function MatScale(c: real, A: Matrix): (r: Matrix)
    ensures |r| == |A| && forall i :: 0 <= i < |A| ==> |r[i]| == |A[i]|
  {
    seq(|A|, i requires 0 <= i < |A| =>
      seq(|A[i]|, k requires 0 <= k < |A[i]| => c * A[i][k]))
  }

  /** `A.mean(axis=0)` for a non-empty `|A|`-by-`m` matrix. */
  function ColumnMean(A: Matrix, m: nat): (r: Vector)
    requires |A| > 0 && IsMatrix(A, |A|, m)
    ensures |r| == m
  {
    seq(m, k requires 0 <= k < m => Mean(Column(A, k)))
  }

  /** `A.mean(axis=-1)` for an `|A|`-by-`m` matrix with `m > 0`. */
  function RowMean(A: Matrix, m: nat): (r: Vector)
    requires m > 0 && IsMatrix(A, |A|, m)
    ensures |r| == |A|
  {
    seq(|A|, i requires 0 <= i < |A| => Mean(A[i]))
  }

  /** The all-zero `rows`-by-`cols` matrix. */
  function Zeros(rows: nat, cols: nat): (r: Matrix)
    ensures IsMatrix(r, rows, cols)
    ensures forall i, k :: 0 <= i < rows && 0 <= k < cols ==> r[i][k] == 0.0
  {
    seq(rows, i => seq(cols, k => 0.0))
  }

  /** `A[rows]`: numpy fancy indexing selects the listed rows, in order. */
  function SelectRows<T>(A: seq<T>, rows: seq<nat>): (r: seq<T>)
    requires forall j :: 0 <= j < |rows| ==> rows[j] < |A|
    ensures |r| == |rows| && forall j :: 0 <= j < |rows| ==> r[j] == A[rows[j]]
  {
    seq(|rows|, j requires 0 <= j < |rows| => A[rows[j]])
  }

  /** Two sequences that agree entry by entry have the same sum (stated
      through an index-wise hypothesis so that callers need not prove the
      sequences equal first). */
  lemma SumCongruent(s: Vector, t: Vector)
    requires |s| == |t| && forall i :: 0 <= i < |s| ==> s[i] == t[i]
    ensures Sum(s) == Sum(t)
  {
    assert s == t;
  }

  /** A sum of non-negative terms is non-negative, and it is zero exactly
      when every term is zero. */
  lemma {:induction false} SumNonNegative(s: Vector)
    requires forall i :: 0 <= i < |s| ==> s[i] >= 0.0
    ensures Sum(s) >= 0.0
    ensures Sum(s) == 0.0 <==> forall i :: 0 <= i < |s| ==> s[i] == 0.0
  {
    if s != [] {
      SumNonNegative(s[1..]);
      assert forall i :: 1 <= i < |s| ==> s[i] == s[1..][i - 1];
    }
  }
}
