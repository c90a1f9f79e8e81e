# Dynamic Mode Decomposition, modelled in Dafny

This project models the two model classes of `functions/dmd.py`:

- **`DMD`** fits a linear operator A to a series of snapshots. It uses an economy SVD of the
  input snapshots and an eigendecomposition of the reduced operator `A_bar`. From these it exposes:
  - the eigenvalues `Lambda`;
  - the modes `Phi`;
  - the Vandermonde matrix `C` of the eigenvalues.

  It forecasts by applying A repeatedly to an initial state.
- **`DMDwC`** (DMD with control) does the same for a system driven by a control signal U.
  - When the control operator B is unknown, the state is stacked over the control. The combined
    operator K = [A | B] is fitted and then split into A and B.
  - When B is known, the known control effect is subtracted from the targets.
  - It forecasts with the controlled recurrence state_s = A·state_(s-1) + B·u[:, s-1].

## How the model is organised

| file | module | contents |
|---|---|---|
| `wrappers.dfy` | `Wrappers` | `Option`, `Result`, `Outcome` and the exceptions the code raises (`Error`). |
| `matrices.dfy` | `Matrices` | Matrices with an explicit shape, and numpy's column slicing: negative bounds and clamping via `SliceBound`, `np.vstack`, the transpose. |
| `linear_algebra.dfy` | `LinearAlgebra` | `@` over exact reals, matrix powers, and the algebra needed for the forecast lemmas. |
| `complex.dfy` | `Complexes` | Complex numbers, for eigenvalues, modes and the Vandermonde matrix. |
| `decomposition.dfy` | `Decomposition` | `_fit` as the pure function `FitCore`, and `C` as `Vandermonde`. |
| `forecasting.dfy` | `Forecasting` | The two recurrences as functions, and the two buffer loops of `predict` as methods over `array2`. |
| `autonomous.dfy` | `Autonomous` | The snapshot pairing, and the class `Dmd`. |
| `controlled.dfy` | `Controlled` | The preparation of the fit arguments, the split of K, and the class `DmdWithControl`. |

Modelling choices:

- **Numerical routines are parameters.** numpy's SVD, eigendecomposition and `reciprocal`, and
  the known-B subtraction `Y - B * U[:, :-1]`, are function-valued fields of a `Numerics`
  value. `Numerics.Valid()` states what numpy promises about the shapes of the SVD and
  eigendecomposition results, and that `reciprocal` inverts every nonzero number.
- **Arithmetic is exact.** It is over `real` (and complex pairs of reals); `.real` is the
  identity on the real operators of the model.
- **Attributes are fields.** Attributes that Python only has after an assignment become fields
  guarded by flags:
  - `hasShape` stands for `hasattr(self, "m")`;
  - `fitted` stands for `A` being defined.
- **Fitting is not atomic.** `m`, `n`, `l` and `_Y` are assigned before `_fit` can raise, so a
  failed fit leaves them overwritten while `A_bar`, `Lambda`, `Phi` and `A` keep their earlier
  values. The model follows the code here, which differs from a description of fitting as
  all-or-nothing.
- **Errors are values.** Every exception the modelled code raises from shape, index or
  argument checks is a value of `Error` in a `Result` or an `Outcome`. None of them is excluded
  by a precondition. A `LinAlgError` raised inside `np.linalg.svd` or `np.linalg.eig` is outside
  the model: those routines are total functions here (see "## Left out").

## Model

| member | source | states |
|---|---|---|
| Autonomous.SnapshotPair | functions/dmd.py:104-109 | Without Y: X loses its last column and Y is X without its first column, so Y[i][k] == X[i][k+1]. Y keeps only its first m rows once m is known. A given Y is taken unchanged. |
| Autonomous.Dmd.constructor | functions/dmd.py:40-49 | A new model knows only r: no shape, no snapshots, no fitted operator. |
| Autonomous.Dmd.Fit | functions/dmd.py:94-115 | `_Y` becomes the paired Y and (m, n) its shape, before `_fit` runs. On success A_bar, Lambda, Phi and A are the decomposition's; on failure they keep their earlier values. Without Y the fit raises no shape error, and A then has m rows. |
| Autonomous.Dmd.Install | functions/dmd.py:75-92 | After a successful `_fit`, A_bar, Lambda, Phi and A hold the decomposition's values and nothing else changes. |
| Autonomous.Dmd.C | functions/dmd.py:51-53 | Unfitted: an error. Otherwise \|Lambda\| rows and n columns, with entry (i, k) equal to Lambda[i]^k. |
| Autonomous.Dmd.Predict | functions/dmd.py:117-140 | Errors: unfitted model; forecast < -1 (negative dimension); forecast == -1 (index 0 of an empty slice); x neither of length m nor broadcastable; A not m x m. It succeeds exactly when none of these holds. The result is m x forecast, column 0 is A·x, column s is A·column(s-1), hence column s is A^(s+1)·x. |
| Decomposition.FitCore | functions/dmd.py:69-92 | Fails (a numpy shape error) exactly when Y does not have min(m, rows X) rows and cols X columns. Otherwise the rank is r (clamped to k = min(rows X, cols X)) or k when r <= 0, A_bar is rank x rank with rank eigenvalues, Phi is rows X x rank and A is rows Y x rows X. |
| Decomposition.Products | functions/dmd.py:75-92 | The products of `_fit` have the shapes listed for FitCore whenever their operands fit. |
| Decomposition.Vandermonde | functions/dmd.py:53 | One row per eigenvalue and n columns; entry (i, k) is Lambda[i]^k, so column 0 is all ones. |
| Decomposition.VandermondeUnique | functions/dmd.py:53 | Any matrix whose first column is ones and whose column k+1 is column k scaled by the eigenvalues is the Vandermonde matrix. |
| Forecasting.Rollout | functions/dmd.py:136-140 | The buffer loop of `DMD.predict` returns an m x forecast matrix whose column s is the state s+1 steps after x0. |
| Forecasting.ControlledRollout | functions/dmd.py:205-210 | The buffer loop of `DMDwC.predict` returns an m x forecast matrix whose column s is the controlled state s+1 steps after x0. |
| Forecasting.SetColumn | functions/dmd.py:137-139 | `mat[:, s] = v` changes column s to v and no other entry. |
| Forecasting.TailColumns | functions/dmd.py:140 | `mat[:, 1:]` has columns 1, 2, ... of the buffer as its columns 0, 1, .... |
| Forecasting.InitialState | functions/dmd.py:137 | `mat[:, 0] = x` works exactly for x of length m (taken as is) or of length 1 (broadcast to every row). |
| Forecasting.TrajectoryIsPower | functions/dmd.py:138-139 | s steps of the recurrence from x equal A^s·x. |
| Forecasting.TrajectoryRestart | functions/dmd.py:138-139 | Forecasting s + t steps is forecasting t steps from the state after s. |
| Forecasting.ZeroControlIsAutonomous | functions/dmd.py:207-209 | With all controls zero the controlled forecast is the autonomous one. |
| Forecasting.Superposition | functions/dmd.py:207-209 | The controlled forecast is the free response from x plus the forced response from the zero state. |
| Forecasting.CombinedOperatorStep | functions/dmd.py:166-178 | If K = [A \| B] column-wise, then K·(x ++ u) == A·x + B·u. |
| Controlled.Split | functions/dmd.py:175-178 | A is the first m columns of K and B the rest; every entry of K is in exactly one of them at the matching position. |
| Controlled.SplitStep | functions/dmd.py:165-178 | One step with the split A and B equals one step of the combined operator on the state stacked over the control. |
| Controlled.SplitAsWritten | functions/dmd.py:177-178 | `K[:, :-l]` and `K[:, -l:]`: the last l columns go to B when 0 < l <= cols K; when l == 0, B is all of K and A is empty. |
| Controlled.SplitAsWrittenAgrees | functions/dmd.py:177-178 | With l > 0 the written split is the intended split. |
| Controlled.SplitAsWrittenWithoutControl | functions/dmd.py:177-178 | With l == 0 the written split gives A no columns and B all of K, unlike the intended split. |
| Controlled.FitArguments | functions/dmd.py:160-171 | A time-step mismatch between X and U is raised first. Unknown B: the input is X stacked over U (rows of X, then rows of U) and the target is Y unchanged. Known B: the input is X and the target is exactly the value of the known-effect subtraction; when that subtraction fails, the error is `BroadcastFailure`. |
| Controlled.DmdWithControl.constructor | functions/dmd.py:144-148 | A new model knows r and B and is in known-B mode exactly when B is given. |
| Controlled.DmdWithControl.Fit | functions/dmd.py:150-178 | U is never shifted. l, m and n are assigned before the column check, so a failing fit still overwrites them. Without Y in unknown-B mode the fit succeeds exactly when the shifted X and U have the same number of columns, numerical `LinAlgError`s aside (see "## Left out"). A successful unknown-B fit installs the slices as written, A = K[:, :-l] and B = K[:, -l:]. With l > 0 these are the first m and the last l columns, partitioning K (A m x m, B m x l). With l == 0, A has no columns and B is all of K (m x m). |
| Controlled.DmdWithControl.FitOn | functions/dmd.py:168-178 | `_Y` is assigned, then `_fit` runs; only on success are the derived matrices replaced. In unknown-B mode A and B are the written slices of the fitted operator: the partition Split(K, m) when l > 0, and A with no columns and B == K when l == 0. |
| Controlled.DmdWithControl.Install | functions/dmd.py:174-178 | After `_fit`, unknown-B mode sets B = K[:, -l:] and A = K[:, :-l]: the last l and the first m columns when l > 0; B == K and A with no columns when l == 0. Known-B mode keeps B and takes A as fitted. |
| Controlled.DmdWithControl.C | functions/dmd.py:51-53 | As `DMD.C`, inherited. |
| Controlled.DmdWithControl.Predict | functions/dmd.py:180-210 | ValueError exactly when forecast != 1 and u does not have forecast columns. With forecast == 1 the width of u is not checked, but an empty u fails on index 0. It succeeds exactly when fitted, the widths agree, x fits, and for forecast >= 1 u has a column and the operator shapes fit. The result is m x forecast with state_s = A·state_(s-1) + B·u[:, s-1] from x. |

## Left out

- `np.linalg.svd` and `np.linalg.eig` are parameters of which only the result shapes are known. Nothing is stated about the decomposition being correct or accurate.
- Floating point is replaced by exact reals. The reciprocal of a zero singular value (numpy's infinity) has no counterpart, `.conj()` is the identity on real matrices, and `.real` is the identity on the real operators of the model.
- `Decomposition.FitCore`: the complex part of an operator is not modelled, so A, A_bar and the forecasts are real. The eigenvalues and Phi are complex.
- `Autonomous.Dmd.Fit` and `Controlled.DmdWithControl.Fit`: a numerical `LinAlgError` is not modelled. When a zero singular value is kept (for example X all zeros), `np.reciprocal` gives infinity, `A_bar` holds non-finite entries, and `np.linalg.eig` raises after `A_bar` has been assigned but before `Lambda`, `Phi` and `A` are. A non-converging `np.linalg.svd` also raises. In the model such a fit passes and installs all four matrices.
- `xi` (functions/dmd.py:55-67) is a scipy optimisation, and its getter calls itself without end. It is not part of this model.
- The known-B target `Y - B * U_[:, :-1]` is the parameter `subtractKnownEffect`, including its broadcasting failures. Only the branch choice and the error path are modelled.
- The `RuntimeError` guards of both `predict` methods cannot be reached. `self.A` only exists after a successful fit, so an unfitted model fails with `AttributeError` first; this is the `NotFitted` error.
- `feature_names_in_` is never assigned and is not modelled.
- `Autonomous.Dmd.Predict` and `Controlled.DmdWithControl.Predict`: the initial state x must be one-dimensional (a sequence). numpy's broadcasting of a 1 x n operator against an m-row column is not modelled: such shapes are reported as `OperandShape`.
- `Decomposition.FitCore`: the SVD and eigendecomposition of a matrix with no rows or columns are assumed to return well-shaped empty results.

## Findings

`DmdWithControl` installs the split as the code writes it, so that its state after `fit` is the
code's state for every l. Its contracts also state that this is the intended partition `Split`
whenever l > 0. The intended split and its step property (`SplitStep`) are what the row below
proposes for l == 0.

| source | as written | input that shows it | evidently intended | confidence | as-written member | corrected member |
|---|---|---|---|---|---|---|
| functions/dmd.py:177-178 | `B = A[:, -l:]` and `A = A[:, :-l]`. With l == 0, `-0` is 0, so B becomes the whole combined operator and A has no columns. | `DMDwC(r=0).fit(X, U)` with U of shape (0, n-1): a control signal with no channels. | B is the last l columns and A the first m columns, so with l == 0, A is all of K and B has no columns. | medium, not executed | Controlled.SplitAsWritten, Controlled.SplitAsWrittenWithoutControl | Controlled.Split, Controlled.SplitStep |
