/** The forecast recurrences of `DMD.predict` and `DMDwC.predict`, as functions of the operator,
    and what they amount to. `.real` is the identity on the real operators of this model. */
module Forecasting {
  import opened Wrappers
  import opened Matrices
  import opened LinearAlgebra

  /** The state s steps after x under A: state_0 = x, state_s = A . state_(s-1). */
  function Trajectory(A: Matrix<real>, x: seq<real>, s: nat): (state: seq<real>)
    requires A.rows == A.cols == |x|
    ensures |state| == |x|
  {
    if s == 0 then x else MatVec(A, Trajectory(A, x, s - 1))
  }

  /** The state s steps after x when column t of U is the control applied at step t + 1:
      state_s = A . state_(s-1) + B . U[:, s-1]. */
  function ControlledTrajectory(A: Matrix<real>, B: Matrix<real>, x: seq<real>, U: Matrix<real>, s: nat): (state: seq<real>)
    requires A.rows == A.cols == |x| && B.rows == |x| && B.cols == U.rows && s <= U.cols
    ensures |state| == |x|
  {
    if s == 0 then x else ControlledStep(A, B, ControlledTrajectory(A, B, x, U, s - 1), Column(U, s - 1))
  }

  /** One step of the controlled recurrence: A . state + B . control. */
  function ControlledStep(A: Matrix<real>, B: Matrix<real>, state: seq<real>, control: seq<real>): (next: seq<real>)
    requires A.cols == |state| && B.cols == |control| && A.rows == B.rows
    ensures |next| == A.rows
  {
    VecAdd(MatVec(A, state), MatVec(B, control))
  }

  /** `mat[:, 0] = x` for a column of length m: x must have m entries, or a single entry that
      numpy broadcasts to every row; anything else is a ValueError (None). */
  function InitialState(x: seq<real>, m: nat): (x0: Option<seq<real>>)
    ensures x0.Some? <==> |x| == m || |x| == 1
    ensures x0.Some? ==> |x0.value| == m
    ensures x0.Some? && |x| == m ==> x0.value == x
    ensures x0.Some? && |x| != m ==> forall i :: 0 <= i < m ==> x0.value[i] == x[0]
  {
    if |x| == m then Some(x)
    else if |x| == 1 then Some(seq(m, i => x[0]))
    else None
  }

  /** The current contents of a two-dimensional buffer, as a matrix. */
  function Contents(mat: array2<real>): (M: Matrix<real>)
    reads mat
    ensures M.rows == mat.Length0 && M.cols == mat.Length1
    ensures forall i, j :: 0 <= i < M.rows && 0 <= j < M.cols ==> M.entries[i][j] == mat[i, j]
  {
    Grid(mat.Length0, mat.Length1, seq(mat.Length0, i requires 0 <= i < mat.Length0 reads mat =>
      seq(mat.Length1, j requires 0 <= j < mat.Length1 reads mat => mat[i, j])))
  }

  /** `mat[:, s] = v`: column s becomes v, every other entry stays. */
  method SetColumn(mat: array2<real>, s: nat, v: seq<real>)
    requires s < mat.Length1 && |v| == mat.Length0
    modifies mat
    ensures forall i, t :: 0 <= i < mat.Length0 && 0 <= t < mat.Length1 ==>
      mat[i, t] == if t == s then v[i] else old(mat[i, t])
  {
    for i := 0 to mat.Length0
      invariant forall i', t :: 0 <= i' < mat.Length0 && 0 <= t < mat.Length1 ==>
        mat[i', t] == if t == s && i' < i then v[i'] else old(mat[i', t])
    {
      mat[i, s] := v[i];
    }
  }

  /** `mat[:, 1:]` as a matrix, for a buffer whose column t holds states[t] from column 1 on. */
  method TailColumns(mat: array2<real>, ghost states: seq<seq<real>>) returns (out: Matrix<real>)
    requires |states| == mat.Length1 >= 1
    requires forall t :: 1 <= t < |states| ==> |states[t]| == mat.Length0
    requires forall i, t :: 0 <= i < mat.Length0 && 1 <= t < mat.Length1 ==> mat[i, t] == states[t][i]
    ensures out.rows == mat.Length0 && out.cols == mat.Length1 - 1
    ensures forall s :: 0 <= s < out.cols ==> Column(out, s) == states[s + 1]
  {
    out := ColumnsFrom(Contents(mat), 1);
    forall s | 0 <= s < out.cols ensures Column(out, s) == states[s + 1] {
      assert forall i :: 0 <= i < out.rows ==> Column(out, s)[i] == mat[i, s + 1];
    }
  }

  /** The buffer loop of `DMD.predict`: `mat` has the initial state in column 0 and gets
      column s = A . column (s - 1) for s = 1 .. forecast; columns 1 .. forecast are returned. */
  method Rollout(A: Matrix<real>, x0: seq<real>, forecast: nat) returns (out: Matrix<real>)
    requires forecast >= 1 ==> A.rows == A.cols == |x0|
    ensures out.rows == |x0| && out.cols == forecast
    ensures forall s :: 0 <= s < forecast ==> Column(out, s) == Trajectory(A, x0, s + 1)
  {
    var m := |x0|;
    var mat := new real[m, forecast + 1];
    SetColumn(mat, 0, x0);
    if forecast == 0 {
      return ColumnsFrom(Contents(mat), 1);
    }
    ghost var states := seq(forecast + 1, t requires 0 <= t <= forecast => Trajectory(A, x0, t));
    var prev := x0;
    for s := 1 to forecast + 1
      invariant prev == states[s - 1]
      invariant forall i, t :: 0 <= i < m && 1 <= t < s ==> mat[i, t] == states[t][i]
    {
      var next := MatVec(A, prev);
      SetColumn(mat, s, next);
      prev := next;
    }
    out := TailColumns(mat, states);
    assert forall t :: 1 <= t <= forecast ==> states[t] == Trajectory(A, x0, t);
  }

  /** The buffer loop of `DMDwC.predict`: column s of `mat` gets A . column (s - 1) plus the
      action B . U[:, s - 1]; columns 1 .. forecast are returned. */
  method ControlledRollout(A: Matrix<real>, B: Matrix<real>, x0: seq<real>, U: Matrix<real>, forecast: nat)
    returns (out: Matrix<real>)
    requires forecast >= 1 ==>
      A.rows == A.cols == |x0| && B.rows == |x0| && B.cols == U.rows && forecast <= U.cols
    ensures out.rows == |x0| && out.cols == forecast
    ensures forall s :: 0 <= s < forecast ==> Column(out, s) == ControlledTrajectory(A, B, x0, U, s + 1)
  {
    var m := |x0|;
    var mat := new real[m, forecast + 1];
    SetColumn(mat, 0, x0);
    if forecast == 0 {
      return ColumnsFrom(Contents(mat), 1);
    }
    ghost var states := seq(forecast + 1, t requires 0 <= t <= forecast => ControlledTrajectory(A, B, x0, U, t));
    var prev := x0;
    for s := 1 to forecast + 1
      invariant prev == states[s - 1]
      invariant forall i, t :: 0 <= i < m && 1 <= t < s ==> mat[i, t] == states[t][i]
    {
      var next := ControlledStep(A, B, prev, Column(U, s - 1));
      SetColumn(mat, s, next);
      prev := next;
    }
    out := TailColumns(mat, states);
    assert forall t :: 1 <= t <= forecast ==> states[t] == ControlledTrajectory(A, B, x0, U, t);
  }

  /** Forecasting s steps is applying the s-th power of the operator: column s - 1 of a DMD
      forecast is A^s . x. */
  lemma {:induction false} TrajectoryIsPower(A: Matrix<real>, x: seq<real>, s: nat)
    requires A.rows == A.cols == |x|
    ensures Trajectory(A, x, s) == MatVec(Power(A, s), x)
  {
    if s == 0 {
      MatVecIdentity(x);
    } else {
      TrajectoryIsPower(A, x, s - 1);
      MatVecMatMul(A, Power(A, s - 1), x);
    }
  }

  /** Forecasting s + t steps is forecasting t steps from the state reached after s. */
  lemma {:induction false} TrajectoryRestart(A: Matrix<real>, x: seq<real>, s: nat, t: nat)
    requires A.rows == A.cols == |x|
    ensures Trajectory(A, x, s + t) == Trajectory(A, Trajectory(A, x, s), t)
  {
    if t > 0 {
      TrajectoryRestart(A, x, s, t - 1);
    }
  }

  /** With every control input zero, the controlled forecast is the autonomous one. */
  lemma {:induction false} ZeroControlIsAutonomous(A: Matrix<real>, B: Matrix<real>, x: seq<real>, U: Matrix<real>, s: nat)
    requires A.rows == A.cols == |x| && B.rows == |x| && B.cols == U.rows && s <= U.cols
    requires forall i, j :: 0 <= i < U.rows && 0 <= j < U.cols ==> U.entries[i][j] == 0.0
    ensures ControlledTrajectory(A, B, x, U, s) == Trajectory(A, x, s)
  {
    if s > 0 {
      ZeroControlIsAutonomous(A, B, x, U, s - 1);
      assert Column(U, s - 1) == Zeros(B.cols);
      MatVecZeros(B);
    }
  }

  /** The controlled forecast is the free response to the initial state plus the forced response
      to the controls from the zero state. */
  lemma {:induction false} Superposition(A: Matrix<real>, B: Matrix<real>, x: seq<real>, U: Matrix<real>, s: nat)
    requires A.rows == A.cols == |x| && B.rows == |x| && B.cols == U.rows && s <= U.cols
    ensures ControlledTrajectory(A, B, x, U, s)
         == VecAdd(Trajectory(A, x, s), ControlledTrajectory(A, B, Zeros(|x|), U, s))
  {
    if s == 0 {
      assert VecAdd(x, Zeros(|x|)) == x;
    } else {
      var free := Trajectory(A, x, s - 1);
      var forced := ControlledTrajectory(A, B, Zeros(|x|), U, s - 1);
      Superposition(A, B, x, U, s - 1);
      MatVecAdd(A, free, forced);
      var bu := MatVec(B, Column(U, s - 1));
      assert VecAdd(VecAdd(MatVec(A, free), MatVec(A, forced)), bu)
          == VecAdd(MatVec(A, free), VecAdd(MatVec(A, forced), bu));
    }
  }

  /** One step of the combined operator K = [A | B], fitted on the state stacked over the
      control, is one step of the controlled recurrence: K . (x ++ u) = A . x + B . u. */
  lemma CombinedOperatorStep(K: Matrix<real>, A: Matrix<real>, B: Matrix<real>, x: seq<real>, u: seq<real>)
    requires A.rows == B.rows == K.rows && A.cols == |x| && B.cols == |u| && K.cols == |x| + |u|
    requires forall i, j :: 0 <= i < K.rows && 0 <= j < K.cols ==>
      K.entries[i][j] == if j < |x| then A.entries[i][j] else B.entries[i][j - |x|]
    ensures MatVec(K, x + u) == VecAdd(MatVec(A, x), MatVec(B, u))
  {
    forall i | 0 <= i < K.rows
      ensures MatVec(K, x + u)[i] == VecAdd(MatVec(A, x), MatVec(B, u))[i]
    {
      assert K.entries[i] == A.entries[i] + B.entries[i];
      DotConcat(A.entries[i], B.entries[i], x, u);
    }
  }
}
