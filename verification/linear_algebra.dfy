/** Real matrix arithmetic (numpy's `@` on real arrays), idealised: exact `real`s in place of floats. */
module LinearAlgebra {
  import opened Matrices

  /** The inner product of two vectors of the same length. */
  function Dot(u: seq<real>, v: seq<real>): real
    requires |u| == |v|
  {
    if |u| == 0 then 0.0 else u[0] * v[0] + Dot(u[1..], v[1..])
  }

  function Zeros(n: nat): (z: seq<real>)
    ensures |z| == n && forall i :: 0 <= i < n ==> z[i] == 0.0
  {
    seq(n, i => 0.0)
  }

  function VecAdd(u: seq<real>, v: seq<real>): (w: seq<real>)
    requires |u| == |v|
    ensures |w| == |u| && forall i :: 0 <= i < |u| ==> w[i] == u[i] + v[i]
  {
    seq(|u|, i requires 0 <= i < |u| => u[i] + v[i])
  }

  function VecScale(c: real, u: seq<real>): (w: seq<real>)
    ensures |w| == |u| && forall i :: 0 <= i < |u| ==> w[i] == c * u[i]
  {
    seq(|u|, i requires 0 <= i < |u| => c * u[i])
  }

  /** `A @ x` for a vector x. */
  function MatVec(A: Matrix<real>, x: seq<real>): (y: seq<real>)
    requires A.cols == |x|
    ensures |y| == A.rows && forall i :: 0 <= i < A.rows ==> y[i] == Dot(A.entries[i], x)
  {
    seq(A.rows, i requires 0 <= i < A.rows => Dot(A.entries[i], x))
  }

  /** The row vector a times P: entry j is the inner product of a with column j of P. */
  function VecMat(a: seq<real>, P: Matrix<real>): (w: seq<real>)
    requires |a| == P.rows
    ensures |w| == P.cols && forall j :: 0 <= j < P.cols ==> w[j] == Dot(a, Column(P, j))
  {
    seq(P.cols, j requires 0 <= j < P.cols => Dot(a, Column(P, j)))
  }

  /** `A @ B`. */
  function MatMul(A: Matrix<real>, B: Matrix<real>): (C: Matrix<real>)
    requires A.cols == B.rows
    ensures C.rows == A.rows && C.cols == B.cols
    ensures forall i :: 0 <= i < A.rows ==> C.entries[i] == VecMat(A.entries[i], B)
  {
    Grid(A.rows, B.cols, seq(A.rows, i requires 0 <= i < A.rows => VecMat(A.entries[i], B)))
  }

  /** `np.diag(d)` for a vector d: the square matrix with d on its diagonal. */
  function Diagonal(d: seq<real>): (D: Matrix<real>)
    ensures D.rows == D.cols == |d|
    ensures forall i, j :: 0 <= i < |d| && 0 <= j < |d| ==> D.entries[i][j] == if i == j then d[i] else 0.0
  {
    Grid(|d|, |d|, seq(|d|, i requires 0 <= i < |d| =>
      seq(|d|, j requires 0 <= j < |d| => if i == j then d[i] else 0.0)))
  }

  function Identity(n: nat): (I: Matrix<real>)
    ensures I.rows == I.cols == n
  {
    Diagonal(seq(n, i => 1.0))
  }

  /** A^k for a square A, with A^0 the identity. */
  function Power(A: Matrix<real>, k: nat): (P: Matrix<real>)
    requires A.rows == A.cols
    ensures P.rows == P.cols == A.rows
  {
    if k == 0 then Identity(A.rows) else MatMul(A, Power(A, k - 1))
  }

  // ---------------------------------------------------------------------------------------------
  // Algebra of the inner product

  lemma {:induction false} DotZerosLeft(n: nat, x: seq<real>)
    requires |x| == n
    ensures Dot(Zeros(n), x) == 0.0
  {
    if n > 0 {
      assert Zeros(n)[1..] == Zeros(n - 1);
      DotZerosLeft(n - 1, x[1..]);
    }
  }

  lemma {:induction false} DotZerosRight(a: seq<real>, n: nat)
    requires |a| == n
    ensures Dot(a, Zeros(n)) == 0.0
  {
    if n > 0 {
      assert Zeros(n)[1..] == Zeros(n - 1);
      DotZerosRight(a[1..], n - 1);
    }
  }

  lemma {:induction false} DotAddLeft(u: seq<real>, v: seq<real>, x: seq<real>)
    requires |u| == |v| == |x|
    ensures Dot(VecAdd(u, v), x) == Dot(u, x) + Dot(v, x)
  {
    if |u| > 0 {
      assert VecAdd(u, v)[1..] == VecAdd(u[1..], v[1..]);
      DotAddLeft(u[1..], v[1..], x[1..]);
      assert (u[0] + v[0]) * x[0] == u[0] * x[0] + v[0] * x[0];
    }
  }

  lemma {:induction false} DotAddRight(a: seq<real>, u: seq<real>, v: seq<real>)
    requires |a| == |u| == |v|
    ensures Dot(a, VecAdd(u, v)) == Dot(a, u) + Dot(a, v)
  {
    if |a| > 0 {
      assert VecAdd(u, v)[1..] == VecAdd(u[1..], v[1..]);
      DotAddRight(a[1..], u[1..], v[1..]);
      assert a[0] * (u[0] + v[0]) == a[0] * u[0] + a[0] * v[0];
    }
  }

  lemma {:induction false} DotScaleLeft(c: real, u: seq<real>, x: seq<real>)
    requires |u| == |x|
    ensures Dot(VecScale(c, u), x) == c * Dot(u, x)
  {
    if |u| > 0 {
      forall k | 0 <= k < |u| - 1 ensures VecScale(c, u)[1..][k] == VecScale(c, u[1..])[k] { }
      assert VecScale(c, u)[1..] == VecScale(c, u[1..]);
      DotScaleLeft(c, u[1..], x[1..]);
      assert (c * u[0]) * x[0] + c * Dot(u[1..], x[1..]) == c * (u[0] * x[0] + Dot(u[1..], x[1..]));
    }
  }

  /** The inner product with a concatenation splits into the two parts. */
  lemma {:induction false} DotConcat(a: seq<real>, b: seq<real>, x: seq<real>, u: seq<real>)
    requires |a| == |x| && |b| == |u|
    ensures Dot(a + b, x + u) == Dot(a, x) + Dot(b, u)
  {
    if |a| > 0 {
      assert (a + b)[1..] == a[1..] + b;
      assert (x + u)[1..] == x[1..] + u;
      DotConcat(a[1..], b, x[1..], u);
    } else {
      assert a + b == b && x + u == u;
    }
  }

  /** The inner product with the i-th unit vector picks out entry i. */
  lemma {:induction false} DotUnit(n: nat, i: nat, x: seq<real>)
    requires i < n && |x| == n
    ensures Dot(seq(n, j requires 0 <= j < n => if i == j then 1.0 else 0.0), x) == x[i]
  {
    var e := seq(n, j requires 0 <= j < n => if i == j then 1.0 else 0.0);
    if i == 0 {
      assert e[1..] == Zeros(n - 1);
      DotZerosLeft(n - 1, x[1..]);
    } else {
      assert e[1..] == seq(n - 1, j requires 0 <= j < n - 1 => if i - 1 == j then 1.0 else 0.0);
      DotUnit(n - 1, i - 1, x[1..]);
    }
  }

  // ---------------------------------------------------------------------------------------------
  // Matrix-vector products

  /** (a P) x == a (P x): the key step of associativity. */
  lemma {:induction false} VecMatDot(a: seq<real>, P: Matrix<real>, x: seq<real>)
    requires |a| == P.rows && |x| == P.cols
    ensures Dot(VecMat(a, P), x) == Dot(a, MatVec(P, x))
    decreases P.rows
  {
    if P.rows == 0 {
      assert VecMat(a, P) == Zeros(P.cols);
      DotZerosLeft(P.cols, x);
    } else {
      var rest := DropFirstRow(P);
      var scaled, tail := VecScale(a[0], P.entries[0]), VecMat(a[1..], rest);
      var px := MatVec(P, x);
      VecMatFirstRow(a, P);
      DotAddLeft(scaled, tail, x);
      DotScaleLeft(a[0], P.entries[0], x);
      VecMatDot(a[1..], rest, x);
      assert px[1..] == MatVec(rest, x);
      DotFirst(a, px);
    }
  }

  /** The first term of an inner product and the rest. */
  lemma DotFirst(u: seq<real>, v: seq<real>)
    requires |u| == |v| > 0
    ensures Dot(u, v) == u[0] * v[0] + Dot(u[1..], v[1..])
  {
  }

  /** P without its first row. */
  function DropFirstRow(P: Matrix<real>): (R: Matrix<real>)
    requires P.rows > 0
    ensures R.rows == P.rows - 1 && R.cols == P.cols && R.entries == P.entries[1..]
  {
    Grid(P.rows - 1, P.cols, P.entries[1..])
  }

  /** a P splits into the first row of P scaled by a[0] plus the rest of a times the rest of P. */
  lemma VecMatFirstRow(a: seq<real>, P: Matrix<real>)
    requires |a| == P.rows > 0
    ensures VecMat(a, P) == VecAdd(VecScale(a[0], P.entries[0]), VecMat(a[1..], DropFirstRow(P)))
  {
    var rest := DropFirstRow(P);
    forall j | 0 <= j < P.cols
      ensures VecMat(a, P)[j] == VecAdd(VecScale(a[0], P.entries[0]), VecMat(a[1..], rest))[j]
    {
      assert Column(P, j)[1..] == Column(rest, j);
      assert Column(P, j)[0] == P.entries[0][j];
    }
  }

  /** (A P) x == A (P x). */
  lemma MatVecMatMul(A: Matrix<real>, P: Matrix<real>, x: seq<real>)
    requires A.cols == P.rows && |x| == P.cols
    ensures MatVec(MatMul(A, P), x) == MatVec(A, MatVec(P, x))
  {
    forall i | 0 <= i < A.rows
      ensures MatVec(MatMul(A, P), x)[i] == MatVec(A, MatVec(P, x))[i]
    {
      VecMatDot(A.entries[i], P, x);
    }
  }

  lemma MatVecIdentity(x: seq<real>)
    ensures MatVec(Identity(|x|), x) == x
  {
    var n := |x|;
    forall i | 0 <= i < n ensures MatVec(Identity(n), x)[i] == x[i] {
      assert Identity(n).entries[i] == seq(n, j requires 0 <= j < n => if i == j then 1.0 else 0.0);
      DotUnit(n, i, x);
    }
  }

  lemma MatVecAdd(A: Matrix<real>, u: seq<real>, v: seq<real>)
    requires A.cols == |u| == |v|
    ensures MatVec(A, VecAdd(u, v)) == VecAdd(MatVec(A, u), MatVec(A, v))
  {
    forall i | 0 <= i < A.rows
      ensures MatVec(A, VecAdd(u, v))[i] == VecAdd(MatVec(A, u), MatVec(A, v))[i]
    {
      DotAddRight(A.entries[i], u, v);
    }
  }

  lemma MatVecZeros(A: Matrix<real>)
    ensures MatVec(A, Zeros(A.cols)) == Zeros(A.rows)
  {
    forall i | 0 <= i < A.rows ensures MatVec(A, Zeros(A.cols))[i] == 0.0 {
      DotZerosRight(A.entries[i], A.cols);
    }
  }
}
