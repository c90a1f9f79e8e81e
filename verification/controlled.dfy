/** DMD with control (class `DMDwC`): the control signal is stacked under the state when the
    control operator B is unknown, and the fitted operator is split into A and B afterwards. */
module Controlled {
  import opened Wrappers
  import opened Matrices
  import opened LinearAlgebra
  import opened Complexes
  import opened Decomposition
  import opened Forecasting
  import Autonomous

  /** The split of the combined operator K = [A | B] of the unknown-B mode: A is the first m
      columns, B the remaining ones, and the two together are exactly K. */
  function Split(K: Matrix<real>, m: nat): (parts: (Matrix<real>, Matrix<real>))
    requires m <= K.cols
    ensures parts.0.rows == K.rows && parts.0.cols == m
    ensures parts.1.rows == K.rows && parts.1.cols == K.cols - m
    ensures forall i, j :: 0 <= i < K.rows && 0 <= j < K.cols ==>
      K.entries[i][j] == if j < m then parts.0.entries[i][j] else parts.1.entries[i][j - m]
  {
    (ColumnRange(K, 0, m), ColumnRange(K, m, K.cols))
  }

  /** A and B of the split make one step of the controlled recurrence that equals one step of the
      combined operator on the state stacked over the control: A . x + B . u == K . (x ++ u). */
  lemma SplitStep(K: Matrix<real>, x: seq<real>, u: seq<real>)
    requires K.cols == |x| + |u|
    ensures var parts := Split(K, |x|);
      ControlledStep(parts.0, parts.1, x, u) == MatVec(K, x + u)
  {
    var parts := Split(K, |x|);
    CombinedOperatorStep(K, parts.0, parts.1, x, u);
  }

  /** The split as the source writes it, `(K[:, :-l], K[:, -l:])`: B is the last l columns
      only while 0 < l <= cols(K); for l == 0 both slices start at index 0, so B is all of K
      and A has no columns. */
  function SplitAsWritten(K: Matrix<real>, l: nat): (parts: (Matrix<real>, Matrix<real>))
    ensures parts.0.rows == K.rows && parts.1.rows == K.rows
    ensures 0 < l <= K.cols ==> parts.0.cols == K.cols - l && parts.1.cols == l
    ensures l == 0 ==> parts.0.cols == 0 && parts.1.cols == K.cols
  {
    (ColumnsUpTo(K, -(l as int)), ColumnsFrom(K, -(l as int)))
  }

  /** With at least one control channel the written split is the intended one. */
  lemma SplitAsWrittenAgrees(K: Matrix<real>, m: nat, l: nat)
    requires K.cols == m + l && 0 < l
    ensures SplitAsWritten(K, l) == Split(K, m)
  {
    var written, intended := SplitAsWritten(K, l), Split(K, m);
    Extensionality(written.0, intended.0);
    Extensionality(written.1, intended.1);
  }

  /** Without control channels the written split hands the whole operator to B and leaves A with
      no columns, where the intended split keeps all of K as A. */
  lemma SplitAsWrittenWithoutControl(K: Matrix<real>)
    requires 0 < K.cols
    ensures SplitAsWritten(K, 0).0.cols == 0 && SplitAsWritten(K, 0).1 == K
    ensures Split(K, K.cols).0 == K && Split(K, K.cols).1.cols == 0
    ensures SplitAsWritten(K, 0) != Split(K, K.cols)
  {
    Extensionality(SplitAsWritten(K, 0).1, K);
    Extensionality(Split(K, K.cols).0, K);
  }

  /** The input and the target that the shared routine is fitted on, given the shifted pair
      (xs, ys) and the controls U: X stacked over U against Y when B is unknown, X against Y minus
      the known control effect otherwise; or the error raised before the routine is reached. */
  function FitArguments(xs: Matrix<real>, ys: Matrix<real>, U: Matrix<real>, knownB: bool, b: Option<Matrix<real>>, num: Numerics)
    : (args: Result<(Matrix<real>, Matrix<real>), Error>)
    requires knownB ==> b.Some?
    ensures args.Failure? <==> xs.cols != U.cols || (knownB && num.subtractKnownEffect(ys, b.value, U).None?)
    ensures xs.cols != U.cols ==> args == Failure(TimeStepMismatch(xs.cols, U.cols))
    ensures args.Success? && !knownB ==>
      && args.value.0.rows == xs.rows + U.rows && args.value.0.cols == xs.cols && args.value.1 == ys
      && (forall i, k :: 0 <= i < xs.rows && 0 <= k < xs.cols ==> args.value.0.entries[i][k] == xs.entries[i][k])
      && (forall i, k :: 0 <= i < U.rows && 0 <= k < xs.cols ==> args.value.0.entries[xs.rows + i][k] == U.entries[i][k])
    ensures args.Success? && knownB ==>
      args.value.0 == xs && args.value.1 == num.subtractKnownEffect(ys, b.value, U).value
    ensures xs.cols == U.cols && knownB && num.subtractKnownEffect(ys, b.value, U).None? ==>
      args == Failure(BroadcastFailure)
  {
    if xs.cols != U.cols then Failure(TimeStepMismatch(xs.cols, U.cols))
    else if !knownB then Success((StackRows(xs, U), ys))
    else match num.subtractKnownEffect(ys, b.value, U)
      case None => Failure(BroadcastFailure)
      case Some(target) => Success((xs, target))
  }

  class DmdWithControl {
    /** Number of modes to keep; 0 (or less) keeps all of them. */
    const r: int
    /** Whether B was given at construction (`known_B`). */
    const knownB: bool
    /** The control operator B, once known. */
    var b: Option<Matrix<real>>
    /** Whether `l`, `m` and `n` have been assigned. */
    var hasShape: bool
    var l: nat
    var m: nat
    var n: nat
    /** The target snapshots `_Y`, once assigned. */
    var snapshots: Option<Matrix<real>>
    /** Whether `A_bar`, `Lambda`, `Phi` and `A` have been assigned, i.e. some fit succeeded. */
    var fitted: bool
    var aBar: Matrix<real>
    var lambda: seq<Complex>
    var phi: Matrix<Complex>
    var a: Matrix<real>

    ghost predicate Valid()
      reads this
    {
      && (knownB ==> b.Some?)
      && (fitted ==> hasShape && b.Some?)
      && (fitted ==> aBar.rows == aBar.cols == |lambda| == phi.cols)
    }

    /** `DMDwC(r, B)`: an unfitted model, in known-B mode exactly when B is given. */
    constructor (r: int, b: Option<Matrix<real>>)
      ensures Valid()
      ensures this.r == r && this.b == b && knownB == b.Some?
      ensures !hasShape && snapshots == None && !fitted
    {
      this.r := r;
      this.b := b;
      knownB := b.Some?;
      hasShape, l, m, n := false, 0, 0, 0;
      snapshots := None;
      fitted := false;
      aBar, lambda, phi, a := Grid(0, 0, []), [], Grid(0, 0, []), Grid(0, 0, []);
    }

    /** `DMDwC.fit(X, U, Y)`. Without a Y, X is split into shifted X/Y views; U is never shifted.
        l, m and n are assigned before the time steps of X and U are compared, so a failing fit
        still overwrites them. In unknown-B mode the fit runs on X stacked over U against Y and
        the result is split into A and B by the slices `[:, :-l]` and `[:, -l:]` (a partition of
        the combined operator when l > 0, see `SplitAsWritten`); in known-B mode it runs on X against Y minus the known
        control effect. */
    method Fit(X: Matrix<real>, U: Matrix<real>, Y: Option<Matrix<real>>, num: Numerics) returns (outcome: Outcome<Error>)
      requires Valid() && num.Valid()
      modifies this
      ensures Valid()
      ensures
        var pair := Autonomous.SnapshotPair(X, Y, None);
        && hasShape && l == U.rows && m == pair.0.rows && n == pair.0.cols
        && var args := FitArguments(pair.0, pair.1, U, knownB, old(b), num);
        && (args.Failure? ==>
              && outcome == Fail(args.error) && snapshots == old(snapshots) && fitted == old(fitted)
              && b == old(b) && aBar == old(aBar) && lambda == old(lambda) && phi == old(phi) && a == old(a))
        && (args.Success? ==>
              && snapshots == Some(args.value.1)
              && var res := FitCore(args.value.0, args.value.1, m, r, num);
              && (res.Failure? ==>
                    && outcome == Fail(res.error) && fitted == old(fitted)
                    && b == old(b) && aBar == old(aBar) && lambda == old(lambda) && phi == old(phi) && a == old(a))
              && (res.Success? ==>
                    && outcome == Pass && fitted
                    && aBar == res.value.aBar && lambda == res.value.lambda && phi == res.value.phi
                    && (knownB ==> a == res.value.a && b == old(b))
                    && (!knownB ==> res.value.a.cols == m + l && (a, b.value) == SplitAsWritten(res.value.a, l))
                    && (!knownB && l > 0 ==> (a, b.value) == Split(res.value.a, m))
                    && (!knownB && l == 0 ==> a.cols == 0 && b.value == res.value.a)))
      ensures !knownB && Y.None? ==> (outcome.Pass? <==> Autonomous.SnapshotPair(X, Y, None).0.cols == U.cols)
      ensures outcome.Pass? && !knownB && l > 0 ==>
        a.rows == m && a.cols == m && b.value.rows == m && b.value.cols == l
      ensures outcome.Pass? && !knownB && l == 0 ==>
        a.rows == m && a.cols == 0 && b.value.rows == m && b.value.cols == m
    {
      var pair := Autonomous.SnapshotPair(X, Y, None);
      hasShape, l, m, n := true, U.rows, pair.0.rows, pair.0.cols;
      var args := FitArguments(pair.0, pair.1, U, knownB, b, num);
      if args.Failure? {
        return Fail(args.error);
      }
      outcome := FitOn(args.value.0, args.value.1, num);
    }

    /** The part of `DMDwC.fit` after the checks: `_Y` is assigned and `_fit` runs on the prepared
        input and target; only when it succeeds are the derived matrices replaced. */
    method FitOn(input: Matrix<real>, target: Matrix<real>, num: Numerics) returns (outcome: Outcome<Error>)
      requires Valid() && num.Valid() && hasShape
      requires !knownB ==> input.rows == m + l
      modifies this
      ensures Valid()
      ensures hasShape && l == old(l) && m == old(m) && n == old(n) && snapshots == Some(target)
      ensures
        var res := FitCore(input, target, m, r, num);
        && (res.Failure? ==>
              && outcome == Fail(res.error) && fitted == old(fitted)
              && b == old(b) && aBar == old(aBar) && lambda == old(lambda) && phi == old(phi) && a == old(a))
        && (res.Success? ==>
              && outcome == Pass && fitted
              && aBar == res.value.aBar && lambda == res.value.lambda && phi == res.value.phi
              && (knownB ==> a == res.value.a && b == old(b))
              && (!knownB ==> res.value.a.cols == m + l && (a, b.value) == SplitAsWritten(res.value.a, l))
              && (!knownB && l > 0 ==> (a, b.value) == Split(res.value.a, m))
              && (!knownB && l == 0 ==> a.cols == 0 && b.value == res.value.a))
    {
      snapshots := Some(target);
      var res := FitCore(input, target, m, r, num);
      if res.Failure? {
        return Fail(res.error);
      }
      Install(res.value);
      outcome := Pass;
    }

    /** The assignments after a successful `_fit`: A_bar, Lambda, Phi and A take the decomposition's
        values and, in unknown-B mode, the combined operator K is split as the code writes it,
        B = K[:, -l:] and A = K[:, :-l]. With l > 0 these are the last l and the first m columns;
        with l == 0 B is all of K and A has no columns. */
    method Install(d: Decomposition)
      requires Valid() && hasShape
      requires d.aBar.rows == d.aBar.cols == |d.lambda| == d.phi.cols
      requires !knownB ==> d.a.cols == m + l
      modifies this
      ensures Valid() && fitted
      ensures hasShape == old(hasShape) && l == old(l) && m == old(m) && n == old(n) && snapshots == old(snapshots)
      ensures aBar == d.aBar && lambda == d.lambda && phi == d.phi
      ensures knownB ==> a == d.a && b == old(b)
      ensures !knownB ==> b.Some? && (a, b.value) == SplitAsWritten(d.a, l)
      ensures !knownB && l > 0 ==> (a, b.value) == Split(d.a, m)
      ensures !knownB && l == 0 ==> a.cols == 0 && b.value == d.a
    {
      aBar, lambda, phi, a := d.aBar, d.lambda, d.phi, d.a;
      fitted := true;
      if !knownB {
        var parts := SplitAsWritten(a, l);
        b, a := Some(parts.1), parts.0;
        if l > 0 {
          SplitAsWrittenAgrees(d.a, m, l);
        } else {
          Extensionality(parts.1, d.a);
        }
      }
    }

    /** The property `C`, inherited from `DMD`. */
    function C(): (c: Result<Matrix<Complex>, Error>)
      reads this
      ensures !fitted ==> c == Failure(NotFitted)
      ensures fitted ==> c.Success? && c.value.rows == |lambda| && c.value.cols == n
      ensures fitted ==> forall i, k :: 0 <= i < |lambda| && 0 <= k < n ==> c.value.entries[i][k] == Pow(lambda[i], k)
    {
      if fitted then Success(Vandermonde(lambda, n)) else Failure(NotFitted)
    }

    /** Whether one step of the forecast fits together: A is m x m and B takes a control column of
        u to a vector of length m. */
    predicate StepShapesFit(u: Matrix<real>)
      reads this
      requires b.Some?
    {
      a.rows == m && a.cols == m && b.value.rows == m && b.value.cols == u.rows
    }

    /** `DMDwC.predict(x, u, forecast)`: the m x forecast matrix of the states 1 .. forecast
        steps after x, state s being A . state (s - 1) + B . u[:, s - 1]. u must have exactly
        `forecast` columns, except that with `forecast == 1` its width is not checked (and only
        its first column is used). */
    method Predict(x: seq<real>, u: Matrix<real>, forecast: int) returns (result: Result<Matrix<real>, Error>)
      requires Valid()
      ensures !fitted ==> result == Failure(NotFitted)
      ensures fitted && forecast != 1 && u.cols != forecast ==> result == Failure(ForecastMismatch(u.cols, forecast))
      ensures fitted && (forecast == 1 || u.cols == forecast) && InitialState(x, m).None? ==>
        result == Failure(OperandShape)
      ensures fitted && forecast == 1 && u.cols == 0 && InitialState(x, m).Some? ==>
        result == Failure(IndexOutOfRange)
      ensures fitted && forecast >= 1 && (forecast == 1 || u.cols == forecast) && u.cols >= 1
        && InitialState(x, m).Some? && !StepShapesFit(u)
        ==> result == Failure(OperandShape)
      ensures result.Success? <==>
        && fitted && (forecast == 1 || u.cols == forecast) && InitialState(x, m).Some?
        && (forecast == 0 || (u.cols >= 1 && StepShapesFit(u)))
      ensures result.Success? ==> forecast >= 0 && result.value.rows == m && result.value.cols == forecast
      ensures result.Success? && forecast >= 1 ==>
        var x0 := InitialState(x, m).value;
        && StepShapesFit(u) && forecast <= u.cols
        && Column(result.value, 0) == VecAdd(MatVec(a, x0), MatVec(b.value, Column(u, 0)))
        && (forall s :: 1 <= s < forecast ==>
              Column(result.value, s) == VecAdd(MatVec(a, Column(result.value, s - 1)), MatVec(b.value, Column(u, s))))
        && (forall s :: 0 <= s < forecast ==> Column(result.value, s) == ControlledTrajectory(a, b.value, x0, u, s + 1))
    {
      if !fitted {
        return Failure(NotFitted);
      }
      if forecast != 1 && u.cols != forecast {
        return Failure(ForecastMismatch(u.cols, forecast));
      }
      var init := InitialState(x, m);
      if init.None? {
        return Failure(OperandShape);
      }
      var x0 := init.value;
      if forecast >= 1 && u.cols == 0 {
        return Failure(IndexOutOfRange);
      }
      if forecast >= 1 && !StepShapesFit(u) {
        return Failure(OperandShape);
      }
      var out := ControlledRollout(a, b.value, x0, u, forecast);
      if forecast >= 1 {
        forall s | 1 <= s < forecast
          ensures Column(out, s) == VecAdd(MatVec(a, Column(out, s - 1)), MatVec(b.value, Column(u, s)))
        {
          assert Column(out, s - 1) == ControlledTrajectory(a, b.value, x0, u, s);
        }
        assert Column(out, 0) == VecAdd(MatVec(a, x0), MatVec(b.value, Column(u, 0))) by {
          assert ControlledTrajectory(a, b.value, x0, u, 0) == x0;
        }
      }
      return Success(out);
    }
  }
}
