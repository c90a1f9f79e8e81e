/** The DMD model (class `DMD`): snapshot pairing, fitting through the shared routine, the
    Vandermonde matrix of its eigenvalues and the autonomous forecast. */
module Autonomous {
  import opened Wrappers
  import opened Matrices
  import opened LinearAlgebra
  import opened Complexes
  import opened Decomposition
  import opened Forecasting

  /** The (X, Y) pair that `fit` works on. A given Y is taken as it is. Without one, Y is the series
      without its first column (only its first `fittedRows` rows when the model was fitted
      before) and X is the series without its last column, so column k of Y is the state one
      step after column k of X. */
  function SnapshotPair(X: Matrix<real>, Y: Option<Matrix<real>>, fittedRows: Option<nat>): (pair: (Matrix<real>, Matrix<real>))
    ensures Y.Some? ==> pair == (X, Y.value)
    ensures Y.None? ==>
      && pair.0.rows == X.rows
      && pair.0.cols == pair.1.cols == (if X.cols == 0 then 0 else X.cols - 1)
      && pair.1.rows == (if fittedRows.Some? then Min(fittedRows.value, X.rows) else X.rows)
      && (forall i, k :: 0 <= i < pair.0.rows && 0 <= k < pair.0.cols ==> pair.0.entries[i][k] == X.entries[i][k])
      && (forall i, k :: 0 <= i < pair.1.rows && 0 <= k < pair.1.cols ==> pair.1.entries[i][k] == X.entries[i][k + 1])
  {
    match Y
    case Some(target) => (X, target)
    case None =>
      var shifted := ColumnsFrom(X, 1);                                    // X[:, 1:]
      var target := if fittedRows.Some? then TakeRows(shifted, fittedRows.value) else shifted;
      (ColumnsUpTo(X, -1), target)                                         // X[:, :-1]
  }

  class Dmd {
    /** Number of modes to keep; 0 (or less) keeps all of them. */
    const r: int
    /** Whether `m` and `n` have been assigned (Python's `hasattr(self, "m")`). */
    var hasShape: bool
    var m: nat
    var n: nat
    /** The target snapshots `_Y`, once assigned. */
    var snapshots: Option<Matrix<real>>
    /** Whether `A_bar`, `Lambda`, `Phi` and `A` have been assigned, i.e. some fit succeeded. */
    var fitted: bool
    var aBar: Matrix<real>
    var lambda: seq<Complex>
    var phi: Matrix<Complex>
    var a: Matrix<real>

    ghost predicate Valid()
      reads this
    {
      && (fitted ==> hasShape)
      && (hasShape ==> snapshots.Some? && m == snapshots.value.rows && n == snapshots.value.cols)
      && (fitted ==> aBar.rows == aBar.cols == |lambda| == phi.cols && a.cols == phi.rows)
    }

    /** `DMD(r)`: an unfitted model that only knows its rank. */
    constructor (r: int)
      ensures Valid()
      ensures this.r == r && !hasShape && snapshots == None && !fitted
    {
      this.r := r;
      hasShape, m, n := false, 0, 0;
      snapshots := None;
      fitted := false;
      aBar, lambda, phi, a := Grid(0, 0, []), [], Grid(0, 0, []), Grid(0, 0, []);
    }

    /** `DMD.fit(X, Y)`. The pair is formed, `_Y`, `m` and `n` are assigned, and then the shared
        routine runs; when it raises, the derived matrices keep their earlier values (the fields
        assigned before it stay overwritten). Without a Y the fit cannot fail. */
    method Fit(X: Matrix<real>, Y: Option<Matrix<real>>, num: Numerics) returns (outcome: Outcome<Error>)
      requires Valid() && num.Valid()
      modifies this
      ensures Valid()
      ensures
        var pair := SnapshotPair(X, Y, if old(hasShape) then Some(old(m)) else None);
        && hasShape && snapshots == Some(pair.1) && m == pair.1.rows && n == pair.1.cols
        && var res := FitCore(pair.0, pair.1, pair.1.rows, r, num);
        && (res.Failure? ==>
              && outcome == Fail(res.error) && fitted == old(fitted)
              && aBar == old(aBar) && lambda == old(lambda) && phi == old(phi) && a == old(a))
        && (res.Success? ==>
              && outcome == Pass && fitted
              && aBar == res.value.aBar && lambda == res.value.lambda
              && phi == res.value.phi && a == res.value.a)
      ensures Y.None? ==> outcome == Pass
      ensures outcome == Pass ==> a.rows == m
    {
      var pair := SnapshotPair(X, Y, if hasShape then Some(m) else None);
      snapshots := Some(pair.1);
      hasShape, m, n := true, pair.1.rows, pair.1.cols;
      var res := FitCore(pair.0, pair.1, m, r, num);
      if res.Failure? {
        return Fail(res.error);
      }
      Install(res.value);
      outcome := Pass;
    }

    /** The assignments of a successful `_fit`: A_bar, Lambda, Phi and A take the decomposition's
        values. */
    method Install(d: Decomposition)
      requires Valid() && hasShape
      requires d.aBar.rows == d.aBar.cols == |d.lambda| == d.phi.cols && d.a.cols == d.phi.rows
      modifies this
      ensures Valid() && fitted
      ensures hasShape == old(hasShape) && m == old(m) && n == old(n) && snapshots == old(snapshots)
      ensures aBar == d.aBar && lambda == d.lambda && phi == d.phi && a == d.a
    {
      aBar, lambda, phi, a := d.aBar, d.lambda, d.phi, d.a;
      fitted := true;
    }

    /** The property `C`: the Vandermonde matrix of the eigenvalues over the n snapshots. */
    function C(): (c: Result<Matrix<Complex>, Error>)
      reads this
      ensures !fitted ==> c == Failure(NotFitted)
      ensures fitted ==> c.Success? && c.value.rows == |lambda| && c.value.cols == n
      ensures fitted ==> forall i, k :: 0 <= i < |lambda| && 0 <= k < n ==> c.value.entries[i][k] == Pow(lambda[i], k)
    {
      if fitted then Success(Vandermonde(lambda, n)) else Failure(NotFitted)
    }

    /** `DMD.predict(x, forecast)`: the m x forecast matrix of the states 1 .. forecast steps after
        x, the initial state itself left out. Column 0 is A . x, column s is A . column (s - 1),
        hence column s is A^(s+1) . x. */
    method Predict(x: seq<real>, forecast: int) returns (result: Result<Matrix<real>, Error>)
      requires Valid()
      ensures !fitted ==> result == Failure(NotFitted)
      ensures fitted && forecast < -1 ==> result == Failure(NegativeDimension)
      ensures fitted && forecast == -1 ==> result == Failure(IndexOutOfRange)
      ensures fitted && forecast >= 0 && InitialState(x, m).None? ==> result == Failure(OperandShape)
      ensures fitted && forecast >= 1 && InitialState(x, m).Some? && !(a.rows == m && a.cols == m) ==>
        result == Failure(OperandShape)
      ensures result.Success? <==>
        fitted && forecast >= 0 && InitialState(x, m).Some? && (forecast == 0 || (a.rows == m && a.cols == m))
      ensures result.Success? ==> result.value.rows == m && result.value.cols == forecast
      ensures result.Success? && forecast >= 1 ==>
        var x0 := InitialState(x, m).value;
        && a.rows == m && a.cols == m
        && Column(result.value, 0) == MatVec(a, x0)
        && (forall s :: 1 <= s < forecast ==> Column(result.value, s) == MatVec(a, Column(result.value, s - 1)))
        && (forall s :: 0 <= s < forecast ==> Column(result.value, s) == MatVec(Power(a, s + 1), x0))
    {
      if !fitted {
        return Failure(NotFitted);
      }
      if forecast < -1 {
        return Failure(NegativeDimension);
      }
      if forecast == -1 {
        return Failure(IndexOutOfRange);
      }
      var init := InitialState(x, m);
      if init.None? {
        return Failure(OperandShape);
      }
      var x0 := init.value;
      if forecast >= 1 && !(a.rows == m && a.cols == m) {
        return Failure(OperandShape);
      }
      var out := Rollout(a, x0, forecast);
      if forecast >= 1 {
        forall s | 0 <= s < forecast
          ensures Column(out, s) == MatVec(Power(a, s + 1), x0)
        {
          TrajectoryIsPower(a, x0, s + 1);
        }
        forall s | 1 <= s < forecast
          ensures Column(out, s) == MatVec(a, Column(out, s - 1))
        {
          assert Column(out, s - 1) == Trajectory(a, x0, s);
        }
        assert Column(out, 0) == MatVec(a, x0) by {
          assert Trajectory(a, x0, 0) == x0;
        }
      }
      return Success(out);
    }
  }
}
