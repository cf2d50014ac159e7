# First-order solvers and their objectives, modelled in Dafny

This project models the optimisation core of a small machine-learning
project: the five first-order solvers of `scripts/solver.py` and the
objective functions of `scripts/classifiers.py` that they minimise.

The solvers share one shape. An objective callback maps a weight vector
`w` to a loss `f` and a gradient `g`. An outer loop runs a line search on
the step size, re-estimates the step with the Barzilai-Borwein quotient,
guards it, commits the step, and tests two stopping conditions:

- `gradient_descent` and `GD_linesearch` do smooth descent. They backtrack
  by quadratic interpolation, and collapse the step to `10^-k` after an
  infinite trial loss.
- `gradient_descent_L1` and `GD_L1` do proximal gradient descent on
  `f(w) + lambda |w|_1`. They take soft-threshold steps and halve the step on
  each rejection.
- `GD` takes fixed-size gradient steps.

The two halves of `scripts/solver.py` ("for the classifiers" and "for the
Models") pair up as `gradient_descent` with `GD_linesearch` and
`gradient_descent_L1` with `GD_L1`; `GD` has no counterpart. The smooth pair
differs in its guard's lower bound (1e-60 against 1e-10) and in its reset
value: `gradient_descent` resets to `gamma_is_inf`, while `GD_linesearch`
keeps no `gamma_is_inf` and resets to 1. The L1 pair differs only in the
lower bound (1e-30 against 1e-10); both reset alpha to 1 (scripts/solver.py
156 and 379). The model keeps the pairs apart through the `Family` datatype
and shares one loop per pair. For `GD_linesearch` the loop still tracks the
fallback step of an infinite trial, but its guard never reads it.

Each shared loop is specified by a reference function for the run it makes.
`SmoothRunFrom` (with `SmoothSearch` and `SmoothRunAt`) and `ProxRunFrom`
(with `ProxSearch` and `ProxRunAt`) define it by recursion over the trial
index and the evaluation counter, from a state of iterate, starting step and
counter:
- the line search tries trial 0, 1, ... until one is accepted;
- after the accepted trial, the run stops as optimal or out of budget, or
  goes on from the successor state;
- when all trials are rejected, the run stalls.
Each descent method returns exactly the reference run of the source's
initial state. For the smooth solvers that is counter 0 and both steps 1;
for the L1 solvers, counter 1 and step 1. Lemmas prove that every
reference run meets the outcome predicates `SmoothOutcome` and
`ProxOutcome`.

Modules, one file each:

- `Vectors` (`vectors.dfy`): real vectors and the numpy primitives. These are
  dot product, elementwise arithmetic, sign, absolute value and the infinity
  norm.
- `Matrices` (`matrices.dfy`): dense matrices as sequences of rows. They
  provide products, transpose, the sum of squared entries, and row-major
  reshape and flatten.
- `Objectives` (`objective.dfy`): what a solver needs from its callback.
  - A `Loss` is finite or +inf.
  - `IsObjective(obj, d)` says the callback accepts every vector of dimension
    d and returns a gradient of dimension d.
- `Steps` (`steps.dfy`): the step rules as pure functions. These are the
  proximal operator, the L1 penalty, the interpolation, the infinite-loss
  step, the BB quotient, the guards and the stationarity measure.
- `Solver` (`solver.dfy`): the five solvers as imperative methods with loops
  over the state the source reassigns.
- `Classifiers` (`classifiers.dfy`): least squares with and without an L2
  penalty, the sign predictor, and the two alternating PCA objectives. Each
  can be bound to its data as a solver callback.

Arithmetic is over Dafny's unbounded `real`. numpy's `inf` loss is the
`Infinite` case of `Loss`. numpy's NaN from the BB quotient `0/0` is the
`None` case of an `Option`, which every guard maps to its reset value.

The documentation comment of `gradient_descent_L1` (`scripts/solver.py`
98-100) and of `GD_L1` (321-323) describes the line search as finding a
decrease of the L1-regularised loss. The code's acceptance test does not
guarantee that. It compares against `gamma * alpha * gtd`, where
`gtd = g.(w_new - w)` leaves out the change of the penalty. The model
follows the code: the L1 outcome promises no monotone decrease.
`Solver.L1AcceptanceAllowsIncrease` exhibits one accepted step that raises
the regularised loss. The smooth solvers do decrease (`SmoothOutcome`).

## Model

| member | source | states |
|---|---|---|
| Vectors.NormInf | scripts/solver.py:82 | `np.linalg.norm(g, inf)` is non-negative and bounds every entry's magnitude; defined only on non-empty vectors, where numpy raises otherwise |
| Vectors.NormInfAttained | scripts/solver.py:82 | the infinity norm equals the magnitude of some entry |
| Vectors.Sign | scripts/solver.py:120 | `np.sign` is -1, 0 or 1, positive exactly for positive input and negative exactly for negative input, and `sign(x) * |x| = x` |
| Vectors.DotSelf | scripts/solver.py:38 | `gg = g.g` is non-negative and is zero exactly when every entry of g is zero |
| Vectors.DotSub | scripts/classifiers.py:64 | the dot product distributes over the residual `y - X @ w` |
| Steps.SoftThreshold | scripts/solver.py:120 | one entry of `proxL1` is zero exactly when its magnitude is at most the threshold; otherwise it keeps its sign and loses exactly the threshold; it never grows for a non-negative threshold |
| Steps.ProxL1 | scripts/solver.py:120 | `proxL1(v, alpha)` keeps the length of v and, entry by entry, the zero, sign and magnitude facts above with threshold `L1_lambda * alpha` (the same lambda at scripts/solver.py:343) |
| Steps.L1Term | scripts/solver.py:121 | the penalty is non-negative for a non-negative lambda and zero for lambda = 0 |
| Steps.ProxL1Identity | scripts/solver.py:120 | with lambda = 0 the proximal operator is the identity |
| Steps.ProxStepKeepsZero | scripts/solver.py:127-128 | a zero weight whose gradient entry is at most lambda in magnitude stays exactly zero after a proximal step of any positive size |
| Steps.ProxStationarity | scripts/solver.py:164 | the L1 optimality measure `norm(w - proxL1(w - g, 1), inf)` is non-negative |
| Steps.ProxStationarityZero | scripts/solver.py:164 | the measure is zero exactly when w is a fixed point of the unit proximal step, `w = proxL1(w - g, 1)` |
| Steps.Interpolate | scripts/solver.py:61 | after a rejected finite trial with gamma > 0 and gg > 0, the interpolated step `gamma^2 gg / (2 (f_new - f + gamma gg))` is positive and below `gamma / (2 (1 - 1e-4))`, hence below the rejected gamma; the same update is at scripts/solver.py:282 |
| Steps.InfiniteStep | scripts/solver.py:57-59 | the step `1 / 10^k` after an infinite trial is in (0, 1], and at most 0.1 from the first trial on |
| Steps.BarzilaiBorwein | scripts/solver.py:68-69 | the quotient is undefined exactly when `y.y = 0`; otherwise it solves `step' * (y.y) = -step * (y.g)` |
| Steps.BarzilaiBorweinUndefined | scripts/solver.py:69 | when the quotient is undefined, y is the zero vector and the numerator `y.g` is zero too, so numpy computes 0/0 = NaN |
| Steps.Safeguard | scripts/solver.py:72-74 | the guarded step is the quotient when the quotient is defined and inside [lo, hi], and the reset value exactly when it is undefined, below lo or above hi |
| Steps.SmoothGuard | scripts/solver.py:71-74 | `gradient_descent`: an undefined quotient or one outside [1e-60, 1e10] gives `gamma_is_inf`, an in-range one passes unchanged, and the result is positive; `GD_linesearch` (scripts/solver.py:292-294): outside [1e-10, 1e10] or undefined gives 1, so the result is always in [1e-10, 1e10] |
| Steps.ProxGuard | scripts/solver.py:154-156 | `gradient_descent_L1`: an undefined quotient or one outside [1e-30, 1e10] gives 1 and an in-range one passes unchanged, so the step is in [1e-30, 1e10]; `GD_L1` (scripts/solver.py:377-379): the same with [1e-10, 1e10] |
| Solver.RejectionNeedsSlope | scripts/solver.py:49-61 | a trial is rejected only at a finite current loss and a non-zero gradient, so the interpolation's preconditions hold whenever it runs |
| Objectives.Shift | scripts/solver.py:49 | `f - c` keeps an infinite loss infinite and moves a finite loss by exactly c, as `inf - c` and `x - c` do in numpy |
| Objectives.AtMostCompares | scripts/solver.py:49 | the comparison `<=` on losses is reflexive, is `<=` of the values on finite losses, holds for an infinite left side only against inf, and always holds against inf |
| Solver.SufficientDecrease | scripts/solver.py:49 | the Armijo test `f_new <= f - 1e-4 gamma gg` always passes at an infinite current loss, and at a finite one passes exactly when the trial loss is finite and at most `f - 1e-4 gamma gg`; the same test is at scripts/solver.py:271 |
| Solver.Backtrack | scripts/solver.py:56-61 | after a rejected trial, an infinite trial loss gives step and fallback `1 / 10^k` at the k-th trial, and a finite one gives a smaller positive interpolated step with the fallback unchanged |
| Solver.SmoothTrialSteps | scripts/solver.py:41-61 | the step and fallback before trial j of the smooth line search stay positive from a positive start; each rejected trial applies `Backtrack`, an accepted one leaves them unchanged |
| Solver.RejectedTrialBacktracks | scripts/solver.py:49-61 | after rejected trial j the current loss is finite, gg > 0, and the next step is `Backtrack` of the step tried |
| Solver.InfiniteTrialCollapses | scripts/solver.py:57-59 | a rejected trial j with infinite loss sets both step and fallback to `1 / 10^(j+1)` |
| Solver.SmoothFallback | scripts/solver.py:33 | after j trials the fallback `gamma_is_inf` is its starting value or `1 / 10^k` for some trial count 1 <= k <= j |
| Solver.SmoothTrial | scripts/solver.py:43-61 | one trial evaluates `w - gamma g` and passes exactly when the Armijo test holds; when it fails, every trial up to this one has been rejected, and it returns the next step and fallback |
| Solver.SmoothLineSearch | scripts/solver.py:38-61 | the inner loop makes at least one and at most `maxTrials` trials; the step and fallback it ends with are those `SmoothTrialSteps` reaches after the trials it made, so every step tried is positive and follows the backtracking rule; every trial before the accepted one was rejected, and all of them when none is accepted; an accepted step gives `w - gamma g`, evaluated, with `f_new <= f - 1e-4 gamma gg` |
| Solver.AcceptedDecreases | scripts/solver.py:49-51 | a trial that passes the Armijo test with a positive step does not raise the loss, so the loss stays at most the initial one |
| Solver.SmoothSuccessor | scripts/solver.py:68-79 | the state after accepted trial j: the iterate `w - gamma g` keeps the dimension of w, and the next start (the family's guard of the BB quotient, with the fallback as the search left it) is one the guard admits (`SmoothStartStep`) |
| Solver.SmoothSearchSkips | scripts/solver.py:41-61 | rejected trials are skipped: when trials j..i-1 at w are all rejected, the reference run from trial j is the reference run from trial i |
| Solver.SmoothRunStalls | scripts/solver.py:41-61 | when all `maxTrials` trials at w are rejected, the reference run is the stalled run at w, `maxTrials` evaluations later |
| Solver.SmoothRunSteps | scripts/solver.py:41-90 | when the trials before j are rejected and trial j is accepted, with successor state (w', s'), the reference run is `Optimal` at w' if its gradient norm is below 1e-2, else `BudgetSpent` at w' if the counter plus j + 1 reaches the budget, else the reference run from (w', s') with the counter advanced by j + 1 |
| Solver.SmoothAcceptedDecreases | scripts/solver.py:49-51 | the successor of an accepted trial has a loss at most that of w, hence at most any bound on w's loss |
| Solver.SmoothOutcomeAt | scripts/solver.py:82-90 | a run that stops at a w of the right dimension, with loss at most the initial one, the counter in range and its stop reason true at w, meets `SmoothOutcome` |
| Solver.SmoothRunOutcome | scripts/solver.py:29-92 | every reference run from an iterate of w0's dimension whose loss is at most w0's, from an admissible start and a counter that is 0 or below the budget, meets `SmoothOutcome`: f is the loss of the returned w and never rose above the initial loss, the counter is at least 1 and overruns the budget by at most one line search, `Optimal` means the gradient norm is below 1e-2, `BudgetSpent` that it is not while the budget is spent, `Stalled` that `maxTrials` evaluations were spent |
| Solver.SmoothSearchOutcome | scripts/solver.py:41-92 | the same for the reference run from any trial j of the line search at w |
| Solver.SmoothRunAtOutcome | scripts/solver.py:77-92 | the same for the reference run at a point a line search accepted after between 1 and `maxTrials` trials |
| Solver.SmoothIteration | scripts/solver.py:38-79 | one outer iteration. If the line search gives up, all `maxTrials` trials were rejected and the reference run from the state before is the stalled run at w. Otherwise the new iterate is evaluated, its start is admissible, and the reference run from before is `Optimal` or `BudgetSpent` at the new iterate, or the reference run from the new state, exactly as the stopping tests decide |
| Solver.SmoothDescent | scripts/solver.py:29-92 | the shared smooth loop returns exactly the reference run `SmoothRunFrom` from w0 with both steps at 1 and the counter at 0, so it meets `SmoothOutcome`; a `Stalled` result meets `SmoothStalled`: the line search at the returned w, started from a step the guard admits, rejected all `maxTrials` trials |
| Solver.GradientDescent | scripts/solver.py:10-92 | `gradient_descent` (guard [1e-60, 1e10], fallback `gamma_is_inf`) returns the reference run for the classifiers from counter 0, `gamma = gamma_is_inf = 1` (scripts/solver.py:31-33); it meets `SmoothOutcome`, and a stalled run meets `SmoothStalled` |
| Solver.GDLinesearch | scripts/solver.py:233-312 | `GD_linesearch` (guard [1e-10, 1e10], reset 1) returns the reference run for the models from counter 0, `gamma = 1` (scripts/solver.py:254-255); it meets `SmoothOutcome`, and a stalled run meets `SmoothStalled` |
| Solver.Halved | scripts/solver.py:144 | the k-th halving of a positive step stays positive and, from the first halving on, is below the initial step |
| Solver.HalvedIsPower | scripts/solver.py:98-100 | k halvings divide the step by exactly `2^k` |
| Solver.ProxSufficientDecrease | scripts/solver.py:136 | the L1 test always passes at an infinite current loss, and at a finite one passes exactly when the trial loss is finite and `f_new + L1(w_new) <= f + L1(w) + 1e-4 alpha gtd` |
| Solver.ProxTrialPoint | scripts/solver.py:127-128 | trial j of the L1 line search is `proxL1(w - alpha g, alpha)` with alpha the j-th halving of the start, and it keeps the dimension of w |
| Solver.ProxTrial | scripts/solver.py:127-136 | one L1 trial evaluates the proximal point and passes exactly when the L1 test holds against the fixed gtd; when it fails, every halving up to this one has been rejected |
| Solver.ProxLineSearch | scripts/solver.py:123-144 | the L1 inner loop makes between one and `maxTrials` trials; an accepted step is `alpha0 / 2^(trials-1)`; the accepted point is `proxL1(w - alpha g, alpha)`, evaluated; `gtd` is fixed from the first trial; the accepted point satisfies `f_new + L1(w_new) <= f + L1(w) + 1e-4 alpha gtd`; every earlier halving was rejected, and all `maxTrials` of them when none is accepted |
| Solver.ProxSuccessor | scripts/solver.py:151-161 | the state after accepted halving j: the proximal trial point keeps the dimension of w, and the next step, the family's guard of the BB quotient of `alpha0 / 2^j`, lies within the family's guard bounds |
| Solver.ProxSearchSkips | scripts/solver.py:126-144 | rejected halvings are skipped: when halvings j..i-1 at w are all rejected, the reference run from halving j is the reference run from halving i |
| Solver.ProxRunStalls | scripts/solver.py:126-144 | when all `maxTrials` halvings at w are rejected, the reference run is the stalled run at w, `maxTrials` evaluations later |
| Solver.ProxRunSteps | scripts/solver.py:126-174 | when the halvings before j are rejected and halving j is accepted, with the trial point w' and the guarded step a', the reference run is `Optimal` at w' if the proximal stationarity measure there is below 1e-2, else `BudgetSpent` at w' if the counter plus j + 1 reaches the budget, else the reference run from (w', a') with the counter advanced by j + 1 |
| Solver.ProxOutcomeAt | scripts/solver.py:164-174 | a run that stops at a w of the right dimension, with the counter in range and its stop reason true at w, meets `ProxOutcome` |
| Solver.ProxRunOutcome | scripts/solver.py:111-176 | every reference run from an iterate of w0's dimension, from a positive step and a counter that is 1 or below the budget, meets `ProxOutcome`: f is the unregularised loss of the returned w, the counter is at least 2 and overruns the budget by at most one line search, `Optimal` means the proximal stationarity measure is below 1e-2, `BudgetSpent` that it is not and the budget is spent, `Stalled` that the counter is at least `1 + maxTrials` |
| Solver.ProxSearchOutcome | scripts/solver.py:126-176 | the same for the reference run from any halving j of the line search at w |
| Solver.ProxRunAtOutcome | scripts/solver.py:159-176 | the same for the reference run at a point a line search accepted after between 1 and `maxTrials` trials |
| Solver.ProxIteration | scripts/solver.py:124-161 | one outer L1 iteration. If the line search gives up, all `maxTrials` halvings were rejected and the reference run from the state before is the stalled run at w. Otherwise the new iterate is evaluated, the new step lies within the guard bounds, and the reference run from before is `Optimal` or `BudgetSpent` at the new iterate, or the reference run from the new state, exactly as the stopping tests decide |
| Solver.ProxDescent | scripts/solver.py:111-176 | the shared L1 loop returns exactly the reference run `ProxRunFrom` from w0 with step 1 and the counter at 1, so it meets `ProxOutcome`; a `Stalled` result meets `ProxStalled`: the line search at the returned w, started from a step within the family's guard bounds, rejected all `maxTrials` halvings |
| Solver.GradientDescentL1 | scripts/solver.py:94-176 | `gradient_descent_L1` (guard [1e-30, 1e10], reset 1) returns the reference run for the classifiers from counter 1, `alpha = 1` (scripts/solver.py:117-119); it meets `ProxOutcome`, and a stalled run meets `ProxStalled` |
| Solver.GDL1 | scripts/solver.py:315-399 | `GD_L1` (guard [1e-10, 1e10], reset 1) returns the reference run for the models from counter 1, `alpha = 1` (scripts/solver.py:340-342); it meets `ProxOutcome`, and a stalled run meets `ProxStalled` |
| Solver.FixedSteps | scripts/solver.py:202-217 | n fixed-size gradient steps keep the dimension of w |
| Solver.FixedStepResidual | scripts/solver.py:220 | the gradient norm at the n-th fixed-step iterate is non-negative |
| Solver.FixedStep | scripts/solver.py:204-208 | one `GD` iteration from the n-th fixed-step iterate returns the (n+1)-th iterate with its loss and gradient, whose norm is the residual at n+1 |
| Solver.ResidualsAt | scripts/solver.py:220 | entry j of the recorded history of gradient norms is the norm at the j-th fixed-step iterate |
| Solver.AllContinuedExtends | scripts/solver.py:220-228 | after an iterate that fails both stopping tests, every recorded iterate up to it failed them too |
| Solver.GD | scripts/solver.py:183-230 | `GD` returns the iterate after exactly `evals` steps with its loss; it takes at least one and at most max(max_iters, 1) steps; `Optimal` means the gradient norm is below 1e-4 and `BudgetSpent` that it is not while `evals >= max_iters`; the recorded gradient norms of every earlier iterate failed the optimality test with the count below the limit |
| Solver.L1AcceptanceAllowsIncrease | scripts/solver.py:127-136 | for the one-dimensional objective `-(v-1)/2 + 1.00004 (v-1)^2`, one accepted L1 step raises `f + L1Term` from 1 to 1.00001: from w = [1], g = [-1/2], lambda = 1, alpha = 1 the first trial point is `[0.5]`, gtd is 0.25, and the trial is not rejected (`!ProxRejected`) |
| Matrices.TransposeTimesIsMatVec | scripts/classifiers.py:64 | `X.T @ e` equals the product of the transposed matrix with e |
| Matrices.TransposeTwice | scripts/classifiers.py:365 | transposing `W.transpose()` again gives W back |
| Matrices.MatVecSub | scripts/classifiers.py:58 | `X @ (a - b) = X @ a - X @ b` |
| Matrices.MatMulRows | scripts/classifiers.py:363 | row i of `np.dot(Z, W)` is `W.T @ Z[i]` |
| Matrices.SumSquaresZero | scripts/classifiers.py:364 | `np.sum(R ** 2)` is non-negative and zero exactly when every entry of R is zero |
| Matrices.ResidualZero | scripts/classifiers.py:363-364 | the squared residual of two matrices of one shape is zero exactly when they are equal |
| Matrices.Reshape | scripts/classifiers.py:360-361 | a row-major reshape of a vector of length rows * cols is a rows-by-cols matrix |
| Matrices.FlattenLength | scripts/classifiers.py:367 | flattening a rows-by-cols matrix gives rows * cols entries |
| Matrices.FlattenReshape | scripts/classifiers.py:360-367 | flattening a reshaped vector gives the vector back |
| Matrices.ReshapeFlatten | scripts/classifiers.py:365-367 | reshaping a flattened matrix with its own shape gives the matrix back |
| Classifiers.LeastSquaresObjective | scripts/classifiers.py:44-66 | the loss `sum(e^2) / (2n)` is finite, non-negative and zero exactly when `X @ w = y`; the gradient has the dimension of w; at least one row, since `1/(2n)` raises for n = 0 |
| Classifiers.LeastSquaresStationary | scripts/classifiers.py:63-64 | the gradient vanishes exactly at the solutions of the normal equations `X.T X w = X.T y`, the system `LeastSquares.fit` solves at scripts/classifiers.py:41 |
| Classifiers.LeastSquaresGradientEntry | scripts/classifiers.py:64 | each gradient entry vanishes exactly when the matching normal equation holds |
| Classifiers.LeastSquaresL2Objective | scripts/classifiers.py:140-156 | the regularised loss is finite and non-negative for lambda >= 0; for lambda > 0 it is zero exactly at w = 0 with y = 0; the gradient has the dimension of w |
| Classifiers.PenalisedFitZero | scripts/classifiers.py:153 | for lambda > 0, a base loss that is zero exactly on an exact fit plus `lambda/2 w.w` is zero exactly at w = 0 with y = 0 |
| Classifiers.ZeroWeights | scripts/classifiers.py:58 | at w = 0 the fit `X @ w = y` is exact exactly when y = 0 |
| Classifiers.L2Regularise | scripts/classifiers.py:152-154 | adding ridge regularisation raises the loss by exactly `lambda/2 w.w` and each gradient entry by exactly `lambda w_i`, nothing else changes; lambda = 0 leaves loss and gradient unchanged; lambda >= 0 never lowers the loss |
| Classifiers.LeastSquaresL2Unregularised | scripts/classifiers.py:150-154 | with lambda = 0 the regularised objective returns the same loss and gradient as plain least squares |
| Classifiers.Predict | scripts/classifiers.py:76 | `np.sign(X @ w)` has one label per row, in {-1, 0, 1}, positive exactly for a positive score and negative exactly for a negative one; `LogisticRegression.predict` at scripts/classifiers.py:229 is the same expression |
| Classifiers.LeastSquaresFunObj | scripts/classifiers.py:44-66 | `function_object` with the data bound is an objective of dimension d, as the solvers require |
| Classifiers.LeastSquaresL2FunObj | scripts/classifiers.py:140-156 | the regularised `function_object` with the data bound is an objective of dimension d |
| Classifiers.PcaResidual | scripts/classifiers.py:363 | `R = Z W - X` has the shape of X |
| Classifiers.PcaLoss | scripts/classifiers.py:364 | the PCA loss `sum(R^2) / 2` is non-negative and zero exactly when `Z W = X` |
| Classifiers.FunObjZ | scripts/classifiers.py:358-367 | `_fun_obj_z` returns a finite non-negative loss that is zero exactly when `Z W = X`, and a flattened gradient with one entry per entry of z (`n k`) |
| Classifiers.FunObjW | scripts/classifiers.py:369-378 | `_fun_obj_w` returns the same kind of loss and a flattened gradient with one entry per entry of w (`k d`) |
| Classifiers.PcaSameLoss | scripts/classifiers.py:364 | both PCA objectives give the same loss at the same (z, w), so the alternating loop of `AlternativePCA.fit` descends one function |
| Classifiers.PcaGradientShapes | scripts/classifiers.py:365-376 | the flattened gradients reshape back to `R @ W.T` (n by k) and `Z.T @ R` (k by d) |
| Classifiers.FunObjZCallback | scripts/classifiers.py:340 | `_fun_obj_z` with w and X bound is an objective of dimension `n k`, as `gradient_descent` receives it |
| Classifiers.FunObjWCallback | scripts/classifiers.py:341 | `_fun_obj_w` with z and X bound is an objective of dimension `k d` |

## Left out

- IEEE floating point. All arithmetic is over unbounded reals: no rounding, overflow or underflow. A BB quotient that overflows to inf is therefore not modelled.
- NaN and -inf losses. A `Loss` can only be finite or +inf. A NaN trial loss would make the interpolation at scripts/solver.py:61 produce NaN and loop, which cannot be modelled faithfully.
- Termination of the inner line searches. It depends on the objective, because the source loops `while True` until a trial passes. Each line search therefore gets `maxTrials` trials. Using them all up ends the run as `Stalled`, where the source would keep backtracking.
- Solver.SmoothDescent: the outcome does not promise that the stationarity measure is below 1e-2 or the budget spent. That holds only when no line search stalls, and the `Stalled` case is a product of the trial bound.
- Solver.ProxDescent: the outcome promises no decrease of the regularised loss, because the code's acceptance test does not guarantee one.
- Empty weight vectors. Every solver requires `|w0| > 0`, because `np.linalg.norm(g, inf)` raises on an empty vector.
- Empty data. The least-squares objectives require at least one row, because `1/(2*n)` raises `ZeroDivisionError` for n = 0.
- The objective's extra arguments. numpy's `*args` become the explicit data parameters bound by the callback functions in `Classifiers`.
- The position of `verbose` in `GD`, `GD_linesearch` and `GD_L1` (scripts/solver.py:183, 233, 315). It is declared before `*args` there, so the first extra positional argument binds to `verbose` and not to the objective; in `gradient_descent` and `gradient_descent_L1` (lines 10, 94) it is keyword-only. The model always passes the data to the objective.
- `verbose` printing throughout scripts/solver.py. It has no effect on the results.
- The `fit` methods of scripts/classifiers.py. They call `np.linalg.solve` and `np.linalg.svd` (lines 41, 138, 312), draw random starting points (336-337), print (342) and assign `self.w`.
- `compress` and `expand` of the PCA classes.
- The logistic-regression objectives. They use `np.exp` and `log_1_plus_exp_safe`, a transcendental function from a module that is not part of this model.
- `LogisticRegressionL1.funObj` (scripts/classifiers.py:257). It calls a method that does not exist high in the class hierarchy and raises.
- `LogisticRegressionL2.fit` calling the L1 solver (scripts/classifiers.py:296). It is a wiring mistake outside the solvers and objectives.
- `RobustPCA`. It uses `sqrt`, and its `np.sum` collapses the "gradient" to a scalar (scripts/classifiers.py:389, 401), so it has no coherent contract.
- scripts/run.py. It loads CSV data, engineers features, cross-validates and writes submissions.
