/** Complex numbers over idealised reals: the eigenvalues and modes of a real operator are complex
    in general. */
module Complexes {
  import opened Matrices

  datatype Complex = Complex(re: real, im: real)

  const ZERO := Complex(0.0, 0.0)
  const ONE := Complex(1.0, 0.0)

  function Add(a: Complex, b: Complex): Complex {
    Complex(a.re + b.re, a.im + b.im)
  }

  function Mul(a: Complex, b: Complex): Complex {
    Complex(a.re * b.re - a.im * b.im, a.re * b.im + a.im * b.re)
  }

  function OfReal(x: real): Complex { Complex(x, 0.0) }

  /** z^k by repeated multiplication, z^0 being one. */
  function Pow(z: Complex, k: nat): Complex {
    if k == 0 then ONE else Mul(Pow(z, k - 1), z)
  }

  /** Inner product of a real vector with a complex one. */
  function MixedDot(u: seq<real>, w: seq<Complex>): Complex
    requires |u| == |w|
  {
    if |u| == 0 then ZERO else Add(Mul(OfReal(u[0]), w[0]), MixedDot(u[1..], w[1..]))
  }

  /** `U @ W` for a real U and a complex W. */
  function MixedMatMul(U: Matrix<real>, W: Matrix<Complex>): (R: Matrix<Complex>)
    requires U.cols == W.rows
    ensures R.rows == U.rows && R.cols == W.cols
    ensures forall i, j :: 0 <= i < R.rows && 0 <= j < R.cols ==>
      R.entries[i][j] == MixedDot(U.entries[i], Column(W, j))
  {
    Grid(U.rows, W.cols, seq(U.rows, i requires 0 <= i < U.rows =>
      seq(W.cols, j requires 0 <= j < W.cols => MixedDot(U.entries[i], Column(W, j)))))
  }
}
