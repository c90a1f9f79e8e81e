/** The fitting routine shared by both DMD variants (`DMD._fit`) and the Vandermonde matrix of the
    eigenvalues (`DMD.C`). The SVD and the eigendecomposition are numpy's; here they are function
    values supplied by the caller, of which only the shapes of their results are known. */
module Decomposition {
  import opened Wrappers
  import opened Matrices
  import opened LinearAlgebra
  import opened Complexes

  /** The economy SVD X = u . diag(sigma) . vh of `np.linalg.svd(X, full_matrices=False)`. */
  datatype Svd = Svd(u: Matrix<real>, sigma: seq<real>, vh: Matrix<real>)

  /** The eigenvalues and eigenvectors (as columns) of `np.linalg.eig`. */
  datatype Eig = Eig(values: seq<Complex>, vectors: Matrix<Complex>)

  /** The numerical routines the model does not look inside. `subtractKnownEffect` is the
      broadcasting expression `Y - B * U[:, :-1]` of the known-B mode, which fails (None) when
      numpy cannot broadcast its operands. */
  datatype Numerics = Numerics(
    svd: Matrix<real> -> Svd,
    eig: Matrix<real> -> Eig,
    reciprocal: real -> real,
    subtractKnownEffect: (Matrix<real>, Matrix<real>, Matrix<real>) -> Option<Matrix<real>>)
  {
    /** What numpy promises about the shapes; a reciprocal inverts every nonzero number (numpy
        gives infinity for zero, which has no counterpart among the reals). */
    ghost predicate Valid() {
      && (forall X: Matrix<real> :: ThinSvdShaped(X, svd(X)))
      && (forall M: Matrix<real> :: M.rows == M.cols ==> EigShaped(M, eig(M)))
      && (forall s: real :: s != 0.0 ==> reciprocal(s) * s == 1.0)
    }
  }

  /** For k = min(rows, cols): u is rows x k, k singular values, vh is k x cols. */
  predicate ThinSvdShaped(X: Matrix<real>, s: Svd) {
    var k := Min(X.rows, X.cols);
    s.u.rows == X.rows && s.u.cols == k && |s.sigma| == k && s.vh.rows == k && s.vh.cols == X.cols
  }

  /** One eigenvalue per row of the square M and one eigenvector column per eigenvalue. */
  predicate EigShaped(M: Matrix<real>, e: Eig) {
    |e.values| == M.rows && e.vectors.rows == M.rows && e.vectors.cols == M.rows
  }

  /** What a successful `_fit` assigns: the reduced operator, its eigenvalues, the modes and the
      full operator, together with the number of modes kept. */
  datatype Decomposition = Decomposition(
    rank: nat, aBar: Matrix<real>, lambda: seq<Complex>, phi: Matrix<Complex>, a: Matrix<real>)

  /** `r if r > 0 else len(sigma)`, and then clamped to the k singular values, as slicing
      `sigma[:r]`, `u_[:, :r]` and `v[:r, :]` does. */
  function Rank(r: int, k: nat): nat {
    Min(if r > 0 then r else k, k)
  }

  /** `DMD._fit(X, Y)` with `self.m == m` and `self.r == r`. It fails exactly when numpy cannot
      multiply `u_[:m, :r]^H @ Y @ v[:r, :]^H`: when Y does not have min(m, rows(X)) rows or does
      not have as many columns as X. Otherwise A_bar is rank x rank, there are rank eigenvalues,
      Phi is rows(X) x rank and A is rows(Y) x rows(X), where rank is r when it is positive (but
      at most the number of singular values) and otherwise min(rows(X), cols(X)). */
  function FitCore(X: Matrix<real>, Y: Matrix<real>, m: nat, r: int, num: Numerics): (res: Result<Decomposition, Error>)
    requires num.Valid()
    ensures res.Failure? <==> Y.rows != Min(m, X.rows) || Y.cols != X.cols
    ensures res.Failure? ==> res.error == OperandShape
    ensures res.Success? ==>
      var d := res.value;
      var k := Min(X.rows, X.cols);
      && d.rank == (if r > 0 then Min(r, k) else k)
      && d.aBar.rows == d.rank && d.aBar.cols == d.rank
      && |d.lambda| == d.rank
      && d.phi.rows == X.rows && d.phi.cols == d.rank
      && d.a.rows == Y.rows && d.a.cols == X.rows
  {
    var s := num.svd(X);
    assert ThinSvdShaped(X, s);
    var rank := Rank(r, |s.sigma|);
    var uR := ColumnsUpTo(s.u, rank);                 // u_[:, :r]
    var uM := TakeRows(uR, m);                        // u_[:m, :r]
    var vR := TakeRows(s.vh, rank);                   // v[:r, :]
    var sigmaInv := Diagonal(seq(rank, i requires 0 <= i < rank => num.reciprocal(s.sigma[i])));
    if Y.rows != uM.rows || Y.cols != X.cols then
      Failure(OperandShape)
    else
      Success(Products(Y, uR, uM, vR, sigmaInv, num))
  }

  /** The products of `_fit` once the shapes fit: A_bar = u_[:m, :r]^H Y v[:r, :]^H diag(1/sigma),
      its eigendecomposition, Phi = u_[:, :r] W and A = Y v[:r, :]^H diag(1/sigma) u_[:, :r]^H. */
  function Products(Y: Matrix<real>, uR: Matrix<real>, uM: Matrix<real>, vR: Matrix<real>, sigmaInv: Matrix<real>, num: Numerics)
    : (d: Decomposition)
    requires num.Valid()
    requires uM.rows == Y.rows && vR.cols == Y.cols
    requires uR.cols == uM.cols == vR.rows == sigmaInv.rows == sigmaInv.cols
    ensures d.rank == uR.cols
    ensures d.aBar.rows == d.rank && d.aBar.cols == d.rank && |d.lambda| == d.rank
    ensures d.phi.rows == uR.rows && d.phi.cols == d.rank
    ensures d.a.rows == Y.rows && d.a.cols == uR.rows
  {
    var aBar := MatMul(MatMul(MatMul(Transpose(uM), Y), Transpose(vR)), sigmaInv);
    var e := num.eig(aBar);
    assert EigShaped(aBar, e);
    var phi := MixedMatMul(uR, e.vectors);
    var a := MatMul(MatMul(MatMul(Y, Transpose(vR)), sigmaInv), Transpose(uR));
    Decomposition(uR.cols, aBar, e.values, phi, a)
  }

  /** `np.vander(Lambda, n, increasing=True)`: one row per eigenvalue, n columns, the entry in
      column k the k-th power of the row's eigenvalue (so column 0 is all ones). */
  function Vandermonde(lambda: seq<Complex>, n: nat): (C: Matrix<Complex>)
    ensures C.rows == |lambda| && C.cols == n
    ensures forall i, k :: 0 <= i < |lambda| && 0 <= k < n ==> C.entries[i][k] == Pow(lambda[i], k)
  {
    Grid(|lambda|, n, seq(|lambda|, i requires 0 <= i < |lambda| =>
      seq(n, k requires 0 <= k < n => Pow(lambda[i], k))))
  }

  /** The Vandermonde matrix is the only matrix whose first column is all ones and whose every
      further column is the previous one scaled entrywise by the eigenvalues: it describes how
      each mode evolves over the n snapshots. */
  lemma {:induction false} VandermondeUnique(M: Matrix<Complex>, lambda: seq<Complex>, n: nat)
    requires M.rows == |lambda| && M.cols == n
    requires forall i :: 0 <= i < M.rows && 0 < n ==> M.entries[i][0] == ONE
    requires forall i, k :: 0 <= i < M.rows && 0 <= k && k + 1 < n ==>
      M.entries[i][k + 1] == Mul(M.entries[i][k], lambda[i])
    ensures M == Vandermonde(lambda, n)
  {
    forall i, k | 0 <= i < M.rows && 0 <= k < n
      ensures M.entries[i][k] == Pow(lambda[i], k)
    {
      VandermondeColumn(M, lambda, n, i, k);
    }
    Extensionality(M, Vandermonde(lambda, n));
  }

  lemma {:induction false} VandermondeColumn(M: Matrix<Complex>, lambda: seq<Complex>, n: nat, i: nat, k: nat)
    requires M.rows == |lambda| && M.cols == n
    requires forall i :: 0 <= i < M.rows && 0 < n ==> M.entries[i][0] == ONE
    requires forall i, k :: 0 <= i < M.rows && 0 <= k && k + 1 < n ==>
      M.entries[i][k + 1] == Mul(M.entries[i][k], lambda[i])
    requires i < M.rows && k < n
    ensures M.entries[i][k] == Pow(lambda[i], k)
  {
    if k > 0 {
      VandermondeColumn(M, lambda, n, i, k - 1);
    }
  }
}
