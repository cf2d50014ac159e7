/** The five solvers of scripts/solver.py as imperative methods over the
    state the source reassigns: the iterate `w`, its loss `f` and gradient
    `g`, the step size, the evaluation counter and, in the smooth solver for
    the classifiers, the fallback step `gamma_is_inf`.

    The inner line searches need not terminate (that depends on the
    objective), so each is bounded by `maxTrials` trials; a line search
    that uses them all up ends the run with `Stalled`, where the source
    would keep backtracking. */
module Solver {
  import opened Vectors
  import opened Objectives
  import opened Steps

  /** Why a run ended: the optimality test passed, the evaluation budget was
      spent, or a line search used up its `maxTrials` trials. */
  datatype Stop = Optimal | BudgetSpent | Stalled

  /** The returned `(w, f)` with the number of objective evaluations made
      and the reason for stopping. */
  datatype Run = Run(w: Vector, f: Loss, evals: int, stop: Stop)

  /** The smooth line search's acceptance test
      `f_new <= f - beta * gamma * gg`, with `gg = g.g`. */
  predicate SufficientDecrease(fNew: Loss, f: Loss, gamma: real, gg: real)
    ensures f.Infinite? ==> SufficientDecrease(fNew, f, gamma, gg)
    ensures f.Finite? ==> (SufficientDecrease(fNew, f, gamma, gg) <==>
      fNew.Finite? && fNew.value <= f.value - Beta * gamma * gg)
  {
    AtMost(fNew, Shift(f, -Beta * gamma * gg))
  }

  /** A step that passes the test with a positive step and `gg >= 0` does
      not raise the loss, so the loss stays at most the initial one. */
  lemma AcceptedDecreases(fNew: Loss, f: Loss, f0: Loss, gamma: real, gg: real)
    requires gamma > 0.0 && gg >= 0.0
    requires SufficientDecrease(fNew, f, gamma, gg) && AtMost(f, f0)
    ensures AtMost(fNew, f0)
  {
    assert Beta * gamma * gg >= 0.0 by {
      assert Beta * gamma > 0.0;
      assert (Beta * gamma) * gg >= 0.0 * gg;
    }
    AtMostShift(fNew, f, -Beta * gamma * gg);
    AtMostTransitive(fNew, f, f0);
  }

  /** A rejected trial of the smooth line search happens only at a finite
      loss and a non-zero gradient: with an infinite f every trial passes,
      and with g = 0 the trial point is w itself. */
  lemma RejectionNeedsSlope(obj: Vector --> Eval, w: Vector, f: Loss, g: Vector, gamma: real)
    requires IsObjective(obj, |w|) && |g| == |w| && obj(w) == Eval(f, g)
    requires !SufficientDecrease(obj(Sub(w, Scale(gamma, g))).f, f, gamma, Dot(g, g))
    ensures f.Finite? && Dot(g, g) > 0.0
  {
    RejectedOnlyWhenFinite(obj(Sub(w, Scale(gamma, g))).f, f, gamma, Dot(g, g));
    DotSelf(g);
    if Dot(g, g) == 0.0 {
      ZeroSlopeAccepted(obj, w, f, g, gamma);
      assert false;
    }
  }

  lemma RejectedOnlyWhenFinite(fNew: Loss, f: Loss, gamma: real, gg: real)
    requires !SufficientDecrease(fNew, f, gamma, gg)
    ensures f.Finite?
  {
  }

  /** With a zero gradient the trial point is w and its loss passes. */
  lemma ZeroSlopeAccepted(obj: Vector --> Eval, w: Vector, f: Loss, g: Vector, gamma: real)
    requires IsObjective(obj, |w|) && |g| == |w| && obj(w) == Eval(f, g)
    requires forall i :: 0 <= i < |g| ==> g[i] == 0.0
    ensures Dot(g, g) == 0.0
    ensures SufficientDecrease(obj(Sub(w, Scale(gamma, g))).f, f, gamma, Dot(g, g))
  {
    ZeroDot(g);
    ZeroStep(w, gamma, g);
    assert SufficientDecrease(f, f, gamma, 0.0);
  }

  /** The step `gamma` and the fallback `gamma_is_inf` of the smooth line
      search before one of its trials. */
  datatype TrialSteps = TrialSteps(gamma: real, gammaIsInf: real)

  /** The loss at the trial point `w - gamma * g`. */
  function TrialLoss(obj: Vector --> Eval, w: Vector, g: Vector, gamma: real): Loss
    requires IsObjective(obj, |w|) && |g| == |w|
  {
    obj(Sub(w, Scale(gamma, g))).f
  }

  /** The update after the k-th trial failed the test: an infinite loss
      collapses the step to 10^-k and records it as `gamma_is_inf`, a finite
      one shrinks the step by quadratic interpolation and keeps the
      fallback. */
  function Backtrack(s: TrialSteps, fTrial: Loss, f: Loss, gg: real, k: nat): (r: TrialSteps)
    requires s.gamma > 0.0 && gg > 0.0 && f.Finite?
    requires !SufficientDecrease(fTrial, f, s.gamma, gg)
    ensures r.gamma > 0.0
    ensures s.gammaIsInf > 0.0 ==> r.gammaIsInf > 0.0
    ensures fTrial.Infinite? ==> r.gamma == InfiniteStep(k) && r.gammaIsInf == InfiniteStep(k)
    ensures fTrial.Finite? ==> r.gamma < s.gamma && r.gammaIsInf == s.gammaIsInf
  {
    match fTrial
    case Infinite => TrialSteps(InfiniteStep(k), InfiniteStep(k))
    case Finite(x) => TrialSteps(Interpolate(s.gamma, gg, f.value, x), s.gammaIsInf)
  }

  /** The step and fallback before trial j (counting from 0) of the smooth
      line search at w that starts from `start`, when the trials before it
      were all rejected. A trial that passes ends the search, so what
      follows it is never used; it is left unchanged. */
  function SmoothTrialSteps(obj: Vector --> Eval, w: Vector, f: Loss, g: Vector,
                            start: TrialSteps, j: nat): (s: TrialSteps)
    requires IsObjective(obj, |w|) && |g| == |w| && obj(w) == Eval(f, g)
    requires start.gamma > 0.0 && start.gammaIsInf > 0.0
    ensures s.gamma > 0.0 && s.gammaIsInf > 0.0
  {
    if j == 0 then start
    else
      var prev := SmoothTrialSteps(obj, w, f, g, start, j - 1);
      var fTrial := TrialLoss(obj, w, g, prev.gamma);
      if SufficientDecrease(fTrial, f, prev.gamma, Dot(g, g)) then prev
      else
        RejectionNeedsSlope(obj, w, f, g, prev.gamma);
        Backtrack(prev, fTrial, f, Dot(g, g), j)
  }

  /** Trial j of that line search failed the sufficient-decrease test. */
  predicate SmoothRejected(obj: Vector --> Eval, w: Vector, f: Loss, g: Vector,
                           start: TrialSteps, j: nat)
    requires IsObjective(obj, |w|) && |g| == |w| && obj(w) == Eval(f, g)
    requires start.gamma > 0.0 && start.gammaIsInf > 0.0
  {
    var gamma := SmoothTrialSteps(obj, w, f, g, start, j).gamma;
    !SufficientDecrease(TrialLoss(obj, w, g, gamma), f, gamma, Dot(g, g))
  }

  /** A trial rejected with an infinite loss sets the step and the fallback
      to `1 / 10^k`, k being the number of trials made. */
  lemma InfiniteTrialCollapses(obj: Vector --> Eval, w: Vector, f: Loss, g: Vector,
                               start: TrialSteps, j: nat)
    requires IsObjective(obj, |w|) && |g| == |w| && obj(w) == Eval(f, g)
    requires start.gamma > 0.0 && start.gammaIsInf > 0.0
    requires SmoothRejected(obj, w, f, g, start, j)
    requires TrialLoss(obj, w, g, SmoothTrialSteps(obj, w, f, g, start, j).gamma).Infinite?
    ensures SmoothTrialSteps(obj, w, f, g, start, j + 1) == TrialSteps(InfiniteStep(j + 1), InfiniteStep(j + 1))
  {
  }

  /** After a rejected trial j the line search moves to the `Backtrack` of
      its step, so a finite loss shrinks the step and keeps the fallback. */
  lemma RejectedTrialBacktracks(obj: Vector --> Eval, w: Vector, f: Loss, g: Vector,
                                start: TrialSteps, j: nat)
    requires IsObjective(obj, |w|) && |g| == |w| && obj(w) == Eval(f, g)
    requires start.gamma > 0.0 && start.gammaIsInf > 0.0
    requires SmoothRejected(obj, w, f, g, start, j)
    ensures f.Finite? && Dot(g, g) > 0.0
    ensures var s := SmoothTrialSteps(obj, w, f, g, start, j);
      !SufficientDecrease(TrialLoss(obj, w, g, s.gamma), f, s.gamma, Dot(g, g)) &&
      SmoothTrialSteps(obj, w, f, g, start, j + 1) ==
        Backtrack(s, TrialLoss(obj, w, g, s.gamma), f, Dot(g, g), j + 1)
  {
    var s := SmoothTrialSteps(obj, w, f, g, start, j);
    RejectionNeedsSlope(obj, w, f, g, s.gamma);
  }

  /** The fallback before trial j is the starting one or `1 / 10^k` for
      some trial count k <= j. */
  lemma {:induction false} SmoothFallback(obj: Vector --> Eval, w: Vector, f: Loss, g: Vector,
                                          start: TrialSteps, j: nat)
    requires IsObjective(obj, |w|) && |g| == |w| && obj(w) == Eval(f, g)
    requires start.gamma > 0.0 && start.gammaIsInf > 0.0
    ensures SmoothTrialSteps(obj, w, f, g, start, j).gammaIsInf == start.gammaIsInf ||
      exists k :: 1 <= k <= j && SmoothTrialSteps(obj, w, f, g, start, j).gammaIsInf == InfiniteStep(k)
  {
    if j > 0 {
      SmoothFallback(obj, w, f, g, start, j - 1);
      var prev := SmoothTrialSteps(obj, w, f, g, start, j - 1);
      if !SufficientDecrease(TrialLoss(obj, w, g, prev.gamma), f, prev.gamma, Dot(g, g)) &&
         TrialLoss(obj, w, g, prev.gamma).Infinite? {
        assert SmoothTrialSteps(obj, w, f, g, start, j).gammaIsInf == InfiniteStep(j);
      }
    }
  }

  /** Trial j of the smooth line search: evaluate `w - gamma * g` and, when
      it fails the test, backtrack to the step of trial j + 1. */
  method SmoothTrial(obj: Vector --> Eval, w: Vector, f: Loss, g: Vector,
                     ghost start: TrialSteps, j: nat, gamma: real, gammaIsInf: real)
    returns (passed: bool, wNew: Vector, eNew: Eval, next: TrialSteps)
    requires IsObjective(obj, |w|) && |g| == |w| && obj(w) == Eval(f, g)
    requires start.gamma > 0.0 && start.gammaIsInf > 0.0
    requires TrialSteps(gamma, gammaIsInf) == SmoothTrialSteps(obj, w, f, g, start, j)
    requires forall k :: 0 <= k < j ==> SmoothRejected(obj, w, f, g, start, k)
    ensures wNew == Sub(w, Scale(gamma, g)) && eNew == obj(wNew)
    ensures passed <==> SufficientDecrease(eNew.f, f, gamma, Dot(g, g))
    ensures passed ==> !SmoothRejected(obj, w, f, g, start, j)
    ensures !passed ==> next == SmoothTrialSteps(obj, w, f, g, start, j + 1)
    ensures !passed ==> forall k :: 0 <= k < j + 1 ==> SmoothRejected(obj, w, f, g, start, k)
  {
    var gg := Dot(g, g);
    wNew := Sub(w, Scale(gamma, g));
    eNew := obj(wNew);
    passed := SufficientDecrease(eNew.f, f, gamma, gg);
    next := TrialSteps(gamma, gammaIsInf);
    if !passed {
      RejectedTrialBacktracks(obj, w, f, g, start, j);
      next := Backtrack(next, eNew.f, f, gg, j + 1);
    }
  }

  /** The inner loop of `gradient_descent` and `GD_linesearch`: try
      `w - gamma * g` until its loss passes the sufficient-decrease test,
      backtracking after each rejection. The trials are those of
      `SmoothTrialSteps`; every trial before the last was rejected, and so
      was the last one when the search gives up. */
  method SmoothLineSearch(obj: Vector --> Eval, w: Vector, f: Loss, g: Vector,
                          gamma0: real, gammaIsInf0: real, maxTrials: nat)
    returns (accepted: bool, gamma: real, wNew: Vector, eNew: Eval, trials: nat, gammaIsInf: real)
    requires IsObjective(obj, |w|) && |g| == |w| && obj(w) == Eval(f, g)
    requires gamma0 > 0.0 && gammaIsInf0 > 0.0
    ensures trials <= maxTrials
    ensures accepted ==> trials >= 1
    ensures !accepted ==> trials == maxTrials
    ensures gamma > 0.0 && gammaIsInf > 0.0
    ensures TrialSteps(gamma, gammaIsInf) == SmoothTrialSteps(obj, w, f, g, TrialSteps(gamma0, gammaIsInf0),
                                                              if accepted then trials - 1 else trials)
    ensures forall j :: 0 <= j < (if accepted then trials - 1 else trials) ==>
      SmoothRejected(obj, w, f, g, TrialSteps(gamma0, gammaIsInf0), j)
    ensures accepted ==> wNew == Sub(w, Scale(gamma, g)) && eNew == obj(wNew)
    ensures accepted ==> SufficientDecrease(eNew.f, f, gamma, Dot(g, g))
    ensures accepted ==> !SmoothRejected(obj, w, f, g, TrialSteps(gamma0, gammaIsInf0), trials - 1)
  {
    ghost var start := TrialSteps(gamma0, gammaIsInf0);
    gamma, gammaIsInf, trials := gamma0, gammaIsInf0, 0;
    accepted, wNew, eNew := false, w, obj(w);
    while trials < maxTrials
      invariant trials <= maxTrials && !accepted
      invariant TrialSteps(gamma, gammaIsInf) == SmoothTrialSteps(obj, w, f, g, start, trials)
      invariant forall j :: 0 <= j < trials ==> SmoothRejected(obj, w, f, g, start, j)
      decreases maxTrials - trials
    {
      var passed, next;
      ghost var rejected := trials;
      passed, wNew, eNew, next := SmoothTrial(obj, w, f, g, start, trials, gamma, gammaIsInf);
      trials := trials + 1;
      if passed {
        accepted := true;
        assert trials - 1 == rejected;
        return;
      }
      gamma, gammaIsInf := next.gamma, next.gammaIsInf;
    }
  }

  /** The step a smooth line search starts from: within the family's guard
      bounds, or, in `gradient_descent`, the fallback `gamma_is_inf`. */
  predicate SmoothStartStep(family: Family, start: TrialSteps)
  {
    && start.gamma > 0.0 && start.gammaIsInf > 0.0
    && (SmoothStepMin(family) <= start.gamma <= StepMax ||
        (family == ForClassifiers && start.gamma == start.gammaIsInf))
  }

  /** What a smooth solver promises about its result: `w` keeps the
      dimension of `w0` and `f` is its loss; the loss never rose above the
      initial one; at least one evaluation was made, and the last line
      search started before the budget was spent (or was the first), so the
      budget is overrun by at most one line search; `Optimal` means the
      gradient's infinity norm is below the tolerance, `BudgetSpent` that it
      is not and the budget is spent, and `Stalled` that the trials ran out
      (see `SmoothStalled`). */
  ghost predicate SmoothOutcome(obj: Vector --> Eval, w0: Vector, maxEvaluations: int,
                                maxTrials: nat, r: Run)
    requires |w0| > 0 && IsObjective(obj, |w0|)
  {
    && |r.w| == |w0|
    && r.f == obj(r.w).f
    && AtMost(r.f, obj(w0).f)
    && 1 <= r.evals <= (if maxEvaluations > 1 then maxEvaluations - 1 else 0) + maxTrials
    && (r.stop == Optimal ==> NormInf(obj(r.w).g) < OptTol)
    && (r.stop == BudgetSpent ==> NormInf(obj(r.w).g) >= OptTol && r.evals >= maxEvaluations)
    && (r.stop == Stalled ==> r.evals >= maxTrials)
  }

  /** A stalled smooth run gave up at its final `w`: the line search there,
      started from `start` (a step the guard admits), rejected all
      `maxTrials` trials. */
  ghost predicate SmoothStalled(family: Family, obj: Vector --> Eval, maxTrials: nat, r: Run, start: TrialSteps)
    requires IsObjective(obj, |r.w|)
  {
    && SmoothStartStep(family, start)
    && r.f == obj(r.w).f
    && forall j :: 0 <= j < maxTrials ==> SmoothRejected(obj, r.w, r.f, obj(r.w).g, start, j)
  }

  /** The iterate and the starting steps that follow a smooth line search
      at w from `s` that accepted its trial j: the accepted point
      `w - gamma g`, and the family's guard applied to the Barzilai-Borwein
      quotient of the accepted step, with the fallback as the search left
      it. The guard keeps the new start admissible. */
  function SmoothSuccessor(family: Family, obj: Vector --> Eval, w: Vector, s: TrialSteps, j: nat)
    : (next: (Vector, TrialSteps))
    requires IsObjective(obj, |w|) && s.gamma > 0.0 && s.gammaIsInf > 0.0
    ensures |next.0| == |w| && SmoothStartStep(family, next.1)
  {
    var e := obj(w);
    var steps := SmoothTrialSteps(obj, w, e.f, e.g, s, j);
    var wNext := Sub(w, Scale(steps.gamma, e.g));
    (wNext, TrialSteps(SmoothGuard(family, BarzilaiBorwein(steps.gamma, Sub(obj(wNext).g, e.g), e.g),
                                   steps.gammaIsInf),
                       steps.gammaIsInf))
  }

  /** The run of a smooth solver from the iterate `w`, the starting steps
      `s` and the counter `evals`: the line search at w from its first
      trial. */
  function SmoothRunFrom(family: Family, obj: Vector --> Eval, w: Vector, s: TrialSteps, evals: int,
                         maxEvaluations: int, maxTrials: nat): (r: Run)
    requires |w| > 0 && IsObjective(obj, |w|) && s.gamma > 0.0 && s.gammaIsInf > 0.0
    decreases if evals < maxEvaluations then maxEvaluations - evals else 0, 2, 0
  {
    SmoothSearch(family, obj, w, s, 0, evals, maxEvaluations, maxTrials)
  }

  /** The run from trial j of the line search at w: when all `maxTrials`
      trials are used up, a stalled run at w having spent `maxTrials` more
      evaluations; when trial j is accepted, the run at its successor,
      reached after j + 1 trials; otherwise the run from trial j + 1. */
  function SmoothSearch(family: Family, obj: Vector --> Eval, w: Vector, s: TrialSteps, j: nat, evals: int,
                        maxEvaluations: int, maxTrials: nat): (r: Run)
    requires |w| > 0 && IsObjective(obj, |w|) && s.gamma > 0.0 && s.gammaIsInf > 0.0
    decreases if evals < maxEvaluations then maxEvaluations - evals else 0, 1, maxTrials - j
  {
    var e := obj(w);
    if j >= maxTrials then Run(w, e.f, evals + maxTrials, Stalled)
    else if !SmoothRejected(obj, w, e.f, e.g, s, j) then
      SmoothRunAt(family, obj, SmoothSuccessor(family, obj, w, s, j), evals, j + 1, maxEvaluations, maxTrials)
    else SmoothSearch(family, obj, w, s, j + 1, evals, maxEvaluations, maxTrials)
  }

  /** The run of a smooth solver at the point `next.0` a line search accepted
      after `trials` trials, the counter having been `evals` before it: the
      run ends as optimal when the gradient's infinity norm there is below
      the tolerance, as out of budget when the counter has reached
      `maxEvaluations`, and otherwise goes on from there with the starting
      steps `next.1`. */
  function SmoothRunAt(family: Family, obj: Vector --> Eval, next: (Vector, TrialSteps), evals: int, trials: nat,
                       maxEvaluations: int, maxTrials: nat): (r: Run)
    requires |next.0| > 0 && IsObjective(obj, |next.0|) && next.1.gamma > 0.0 && next.1.gammaIsInf > 0.0
    requires trials >= 1
    decreases if evals < maxEvaluations then maxEvaluations - evals else 0, 0, 0
  {
    var e := obj(next.0);
    if NormInf(e.g) < OptTol then Run(next.0, e.f, evals + trials, Optimal)
    else if evals + trials >= maxEvaluations then Run(next.0, e.f, evals + trials, BudgetSpent)
    else SmoothRunFrom(family, obj, next.0, next.1, evals + trials, maxEvaluations, maxTrials)
  }

  /** Rejected trials are skipped: when trials j..i-1 are all rejected, the
      run from trial j is the run from trial i. */
  lemma {:induction false} SmoothSearchSkips(family: Family, obj: Vector --> Eval, w: Vector, s: TrialSteps,
                                             j: nat, i: nat, evals: int, maxEvaluations: int, maxTrials: nat)
    requires |w| > 0 && IsObjective(obj, |w|) && s.gamma > 0.0 && s.gammaIsInf > 0.0
    requires j <= i <= maxTrials
    requires forall k :: j <= k < i ==> SmoothRejected(obj, w, obj(w).f, obj(w).g, s, k)
    ensures SmoothSearch(family, obj, w, s, j, evals, maxEvaluations, maxTrials) ==
      SmoothSearch(family, obj, w, s, i, evals, maxEvaluations, maxTrials)
    decreases i - j
  {
    if j < i {
      SmoothSearchSkips(family, obj, w, s, j + 1, i, evals, maxEvaluations, maxTrials);
    }
  }

  /** A smooth run whose line search rejects all `maxTrials` trials stalls
      at once, at w. */
  lemma SmoothRunStalls(family: Family, obj: Vector --> Eval, w: Vector, s: TrialSteps, evals: int,
                        maxEvaluations: int, maxTrials: nat)
    requires |w| > 0 && IsObjective(obj, |w|) && s.gamma > 0.0 && s.gammaIsInf > 0.0
    requires forall k :: 0 <= k < maxTrials ==> SmoothRejected(obj, w, obj(w).f, obj(w).g, s, k)
    ensures SmoothRunFrom(family, obj, w, s, evals, maxEvaluations, maxTrials) ==
      Run(w, obj(w).f, evals + maxTrials, Stalled)
  {
    SmoothSearchSkips(family, obj, w, s, 0, maxTrials, evals, maxEvaluations, maxTrials);
  }

  /** A smooth run whose line search rejects the trials before j and
      accepts trial j, reaching `wNext` and the starting steps `sNext`,
      stops there as optimal or out of budget, or goes on from there,
      j + 1 evaluations later. */
  lemma SmoothRunSteps(family: Family, obj: Vector --> Eval, w: Vector, s: TrialSteps, evals: int,
                       maxEvaluations: int, maxTrials: nat, j: nat, wNext: Vector, sNext: TrialSteps)
    requires |w| > 0 && IsObjective(obj, |w|) && s.gamma > 0.0 && s.gammaIsInf > 0.0
    requires j < maxTrials
    requires forall k :: 0 <= k < j ==> SmoothRejected(obj, w, obj(w).f, obj(w).g, s, k)
    requires !SmoothRejected(obj, w, obj(w).f, obj(w).g, s, j)
    requires SmoothSuccessor(family, obj, w, s, j) == (wNext, sNext)
    ensures |wNext| == |w| && sNext.gamma > 0.0 && sNext.gammaIsInf > 0.0
    ensures SmoothRunFrom(family, obj, w, s, evals, maxEvaluations, maxTrials) ==
      if NormInf(obj(wNext).g) < OptTol then Run(wNext, obj(wNext).f, evals + j + 1, Optimal)
      else if evals + j + 1 >= maxEvaluations then Run(wNext, obj(wNext).f, evals + j + 1, BudgetSpent)
      else SmoothRunFrom(family, obj, wNext, sNext, evals + j + 1, maxEvaluations, maxTrials)
  {
    SmoothSearchSkips(family, obj, w, s, 0, j, evals, maxEvaluations, maxTrials);
    assert SmoothSearch(family, obj, w, s, j, evals, maxEvaluations, maxTrials) ==
      SmoothRunAt(family, obj, (wNext, sNext), evals, j + 1, maxEvaluations, maxTrials);
  }

  /** An accepted trial leads to a successor whose loss is at most that of
      w, hence at most any bound of w's. */
  lemma SmoothAcceptedDecreases(family: Family, obj: Vector --> Eval, w: Vector, s: TrialSteps, j: nat, f0: Loss)
    requires IsObjective(obj, |w|) && s.gamma > 0.0 && s.gammaIsInf > 0.0
    requires !SmoothRejected(obj, w, obj(w).f, obj(w).g, s, j)
    requires AtMost(obj(w).f, f0)
    ensures AtMost(obj(SmoothSuccessor(family, obj, w, s, j).0).f, f0)
  {
    var e := obj(w);
    var gamma := SmoothTrialSteps(obj, w, e.f, e.g, s, j).gamma;
    assert obj(SmoothSuccessor(family, obj, w, s, j).0).f == TrialLoss(obj, w, e.g, gamma);
    DotSelf(e.g);
    AcceptedDecreases(TrialLoss(obj, w, e.g, gamma), e.f, f0, gamma, Dot(e.g, e.g));
  }

  /** A run that stops at `w`, `trials` evaluations after a counter that
      was 0 or below the budget, for a reason that holds there, has the
      outcome `SmoothOutcome` promises. */
  lemma SmoothOutcomeAt(obj: Vector --> Eval, w0: Vector, maxEvaluations: int, maxTrials: nat,
                        w: Vector, evals: int, trials: nat, stop: Stop)
    requires |w0| > 0 && IsObjective(obj, |w0|) && |w| == |w0|
    requires AtMost(obj(w).f, obj(w0).f)
    requires evals == 0 || 1 <= evals < maxEvaluations
    requires 1 <= trials <= maxTrials
    requires stop == Stalled ==> trials == maxTrials
    requires stop == Optimal ==> NormInf(obj(w).g) < OptTol
    requires stop == BudgetSpent ==> NormInf(obj(w).g) >= OptTol && evals + trials >= maxEvaluations
    ensures SmoothOutcome(obj, w0, maxEvaluations, maxTrials, Run(w, obj(w).f, evals + trials, stop))
  {
  }

  /** Every smooth run from an iterate of the dimension of `w0` whose loss is
      at most `w0`'s, from an admissible start and a counter that is 0 or
      below the budget, has the outcome `SmoothOutcome` promises: the loss
      never rises, the counter stays in bounds, and each stop reason holds
      of the final iterate. */
  lemma {:induction false} SmoothRunOutcome(family: Family, obj: Vector --> Eval, w0: Vector, w: Vector,
                                            s: TrialSteps, evals: int, maxEvaluations: int, maxTrials: nat,
                                            r: Run)
    requires |w0| > 0 && IsObjective(obj, |w0|) && |w| == |w0| && maxTrials > 0
    requires SmoothStartStep(family, s) && AtMost(obj(w).f, obj(w0).f)
    requires evals == 0 || 1 <= evals < maxEvaluations
    requires r == SmoothRunFrom(family, obj, w, s, evals, maxEvaluations, maxTrials)
    ensures SmoothOutcome(obj, w0, maxEvaluations, maxTrials, r)
    decreases if evals < maxEvaluations then maxEvaluations - evals else 0, 2, 0
  {
    SmoothSearchOutcome(family, obj, w0, w, s, 0, evals, maxEvaluations, maxTrials, r);
  }

  /** The same for the run from trial j of the line search at w. */
  lemma {:induction false} SmoothSearchOutcome(family: Family, obj: Vector --> Eval, w0: Vector, w: Vector,
                                               s: TrialSteps, j: nat, evals: int, maxEvaluations: int,
                                               maxTrials: nat, r: Run)
    requires |w0| > 0 && IsObjective(obj, |w0|) && |w| == |w0| && maxTrials > 0
    requires SmoothStartStep(family, s) && AtMost(obj(w).f, obj(w0).f)
    requires evals == 0 || 1 <= evals < maxEvaluations
    requires r == SmoothSearch(family, obj, w, s, j, evals, maxEvaluations, maxTrials)
    ensures SmoothOutcome(obj, w0, maxEvaluations, maxTrials, r)
    decreases if evals < maxEvaluations then maxEvaluations - evals else 0, 1, maxTrials - j
  {
    var e := obj(w);
    if j >= maxTrials {
      SmoothOutcomeAt(obj, w0, maxEvaluations, maxTrials, w, evals, maxTrials, Stalled);
    } else if !SmoothRejected(obj, w, e.f, e.g, s, j) {
      SmoothAcceptedDecreases(family, obj, w, s, j, obj(w0).f);
      SmoothRunAtOutcome(family, obj, w0, SmoothSuccessor(family, obj, w, s, j), evals, j + 1,
                         maxEvaluations, maxTrials, r);
    } else {
      SmoothSearchOutcome(family, obj, w0, w, s, j + 1, evals, maxEvaluations, maxTrials, r);
    }
  }

  /** The same for a run at a point a line search accepted after `trials`
      of the `maxTrials` trials. */
  lemma {:induction false} SmoothRunAtOutcome(family: Family, obj: Vector --> Eval, w0: Vector,
                                              next: (Vector, TrialSteps), evals: int, trials: nat,
                                              maxEvaluations: int, maxTrials: nat, r: Run)
    requires |w0| > 0 && IsObjective(obj, |w0|) && |next.0| == |w0|
    requires SmoothStartStep(family, next.1) && AtMost(obj(next.0).f, obj(w0).f)
    requires evals == 0 || 1 <= evals < maxEvaluations
    requires 1 <= trials <= maxTrials
    requires r == SmoothRunAt(family, obj, next, evals, trials, maxEvaluations, maxTrials)
    ensures SmoothOutcome(obj, w0, maxEvaluations, maxTrials, r)
    decreases if evals < maxEvaluations then maxEvaluations - evals else 0, 0, 0
  {
    if NormInf(obj(next.0).g) < OptTol {
      SmoothOutcomeAt(obj, w0, maxEvaluations, maxTrials, next.0, evals, trials, Optimal);
    } else if evals + trials >= maxEvaluations {
      SmoothOutcomeAt(obj, w0, maxEvaluations, maxTrials, next.0, evals, trials, BudgetSpent);
    } else {
      SmoothRunOutcome(family, obj, w0, next.0, next.1, evals + trials, maxEvaluations, maxTrials, r);
    }
  }

  /** One outer iteration of a smooth solver at `w` from the starting steps
      `(gamma, gammaIsInf)`: the line search and, when it accepts, the guarded
      Barzilai-Borwein step for the next iteration. The run from before the
      iteration is the stalled run at w, the run stopping at the new iterate,
      or the run from there. */
  method SmoothIteration(family: Family, obj: Vector --> Eval, w: Vector, f: Loss, g: Vector,
                         gamma: real, gammaIsInf: real,
                         ghost evals: int, ghost maxEvaluations: int, maxTrials: nat)
    returns (accepted: bool, wNew: Vector, eNew: Eval, trials: nat, gammaNext: real, gammaIsInfNext: real)
    requires |w| > 0 && IsObjective(obj, |w|) && |g| == |w| && obj(w) == Eval(f, g)
    requires SmoothStartStep(family, TrialSteps(gamma, gammaIsInf))
    ensures !accepted ==> trials == maxTrials
    ensures !accepted ==> forall j :: 0 <= j < maxTrials ==>
      SmoothRejected(obj, w, f, g, TrialSteps(gamma, gammaIsInf), j)
    ensures accepted ==> trials >= 1 && |wNew| == |w| && eNew == obj(wNew)
    ensures accepted ==> SmoothStartStep(family, TrialSteps(gammaNext, gammaIsInfNext))
    ensures SmoothRunFrom(family, obj, w, TrialSteps(gamma, gammaIsInf), evals, maxEvaluations, maxTrials) ==
      if !accepted then Run(w, f, evals + trials, Stalled)
      else if NormInf(eNew.g) < OptTol then Run(wNew, eNew.f, evals + trials, Optimal)
      else if evals + trials >= maxEvaluations then Run(wNew, eNew.f, evals + trials, BudgetSpent)
      else SmoothRunFrom(family, obj, wNew, TrialSteps(gammaNext, gammaIsInfNext), evals + trials,
                         maxEvaluations, maxTrials)
  {
    var gammaTried;
    accepted, gammaTried, wNew, eNew, trials, gammaIsInfNext :=
      SmoothLineSearch(obj, w, f, g, gamma, gammaIsInf, maxTrials);
    gammaNext := gamma;
    if accepted {
      gammaNext := SmoothGuard(family, BarzilaiBorwein(gammaTried, Sub(eNew.g, g), g), gammaIsInfNext);
      SmoothRunSteps(family, obj, w, TrialSteps(gamma, gammaIsInf), evals, maxEvaluations, maxTrials,
                     trials - 1, wNew, TrialSteps(gammaNext, gammaIsInfNext));
    } else {
      SmoothRunStalls(family, obj, w, TrialSteps(gamma, gammaIsInf), evals, maxEvaluations, maxTrials);
    }
  }

  /** The outer loop shared by `gradient_descent` and `GD_linesearch`: line
      search, Barzilai-Borwein re-estimate, the family's guard, commit, and
      the two termination tests. The evaluation counter starts at 0 and both
      steps at 1; the result is the `SmoothRunFrom` of that state, and a
      stalled run comes with the start of its last line search. */
  method SmoothDescent(family: Family, obj: Vector --> Eval, w0: Vector, maxEvaluations: int, maxTrials: nat)
    returns (r: Run, ghost start: TrialSteps)
    requires |w0| > 0 && IsObjective(obj, |w0|)
    requires maxTrials > 0
    ensures SmoothOutcome(obj, w0, maxEvaluations, maxTrials, r)
    ensures r.stop == Stalled ==> |r.w| == |w0| && SmoothStalled(family, obj, maxTrials, r, start)
    ensures r == SmoothRunFrom(family, obj, w0, TrialSteps(1.0, 1.0), 0, maxEvaluations, maxTrials)
  {
    var e0 := obj(w0);
    var w, f, g := w0, e0.f, e0.g;
    var evals := 0;
    var gamma := 1.0;
    var gammaIsInf := 1.0;
    ghost var run := SmoothRunFrom(family, obj, w0, TrialSteps(1.0, 1.0), 0, maxEvaluations, maxTrials);
    ghost var budget := if maxEvaluations > 0 then maxEvaluations else 0;
    while true
      invariant |w| == |w0| && obj(w) == Eval(f, g)
      invariant SmoothStartStep(family, TrialSteps(gamma, gammaIsInf))
      invariant evals == 0 || (1 <= evals < maxEvaluations)
      invariant SmoothRunFrom(family, obj, w, TrialSteps(gamma, gammaIsInf), evals, maxEvaluations, maxTrials) == run
      decreases budget - evals
    {
      start := TrialSteps(gamma, gammaIsInf);
      var accepted, wNew, eNew, trials, gammaNext, gammaIsInfNext :=
        SmoothIteration(family, obj, w, f, g, gamma, gammaIsInf, evals, maxEvaluations, maxTrials);
      if !accepted {
        r := Run(w, f, evals + trials, Stalled);
        SmoothRunOutcome(family, obj, w0, w0, TrialSteps(1.0, 1.0), 0, maxEvaluations, maxTrials, r);
        return;
      }
      evals := evals + trials;
      gamma, gammaIsInf := gammaNext, gammaIsInfNext;
      w, f, g := wNew, eNew.f, eNew.g;
      if NormInf(g) < OptTol {
        r := Run(w, f, evals, Optimal);
        SmoothRunOutcome(family, obj, w0, w0, TrialSteps(1.0, 1.0), 0, maxEvaluations, maxTrials, r);
        return;
      }
      if evals >= maxEvaluations {
        r := Run(w, f, evals, BudgetSpent);
        SmoothRunOutcome(family, obj, w0, w0, TrialSteps(1.0, 1.0), 0, maxEvaluations, maxTrials, r);
        return;
      }
    }
  }

  /** `gradient_descent`: the smooth solver for the classifiers, guard
      bounds [1e-60, 1e10] and fallback `gamma_is_inf`. */
  method GradientDescent(obj: Vector --> Eval, w0: Vector, maxEvaluations: int, maxTrials: nat)
    returns (r: Run, ghost start: TrialSteps)
    requires |w0| > 0 && IsObjective(obj, |w0|)
    requires maxTrials > 0
    ensures SmoothOutcome(obj, w0, maxEvaluations, maxTrials, r)
    ensures r.stop == Stalled ==> |r.w| == |w0| && SmoothStalled(ForClassifiers, obj, maxTrials, r, start)
    ensures r == SmoothRunFrom(ForClassifiers, obj, w0, TrialSteps(1.0, 1.0), 0, maxEvaluations, maxTrials)
  {
    r, start := SmoothDescent(ForClassifiers, obj, w0, maxEvaluations, maxTrials);
  }

  /** `GD_linesearch`: the smooth solver for the models, guard bounds
      [1e-10, 1e10] and reset 1. */
  method GDLinesearch(obj: Vector --> Eval, w0: Vector, maxIters: int, maxTrials: nat)
    returns (r: Run, ghost start: TrialSteps)
    requires |w0| > 0 && IsObjective(obj, |w0|)
    requires maxTrials > 0
    ensures SmoothOutcome(obj, w0, maxIters, maxTrials, r)
    ensures r.stop == Stalled ==> |r.w| == |w0| && SmoothStalled(ForModels, obj, maxTrials, r, start)
    ensures r == SmoothRunFrom(ForModels, obj, w0, TrialSteps(1.0, 1.0), 0, maxIters, maxTrials)
  {
    r, start := SmoothDescent(ForModels, obj, w0, maxIters, maxTrials);
  }

  /** `alpha0 / 2^k`, the step of the (k+1)-th trial of the L1 line search. */
  function Halved(alpha0: real, k: nat): (r: real)
    requires alpha0 > 0.0
    ensures r > 0.0
    ensures k > 0 ==> r < alpha0
  {
    if k == 0 then alpha0 else Halved(alpha0, k - 1) / 2.0
  }

  /** Halving k times divides by 2^k, the closed form of the doc comment's
      "divides the step size by 2". */
  lemma {:induction false} HalvedIsPower(alpha0: real, k: nat)
    requires alpha0 > 0.0
    ensures Halved(alpha0, k) * Pow2(k) == alpha0
  {
    if k > 0 {
      HalvedIsPower(alpha0, k - 1);
      assert Halved(alpha0, k) * Pow2(k) == (Halved(alpha0, k - 1) / 2.0) * (2.0 * Pow2(k - 1));
    }
  }

  /** The L1 line search's acceptance test
      `f_new + L1Term(w_new) <= f + L1Term(w) + gamma * alpha * gtd`. */
  predicate ProxSufficientDecrease(fNew: Loss, wNew: Vector, f: Loss, w: Vector,
                                   lam: real, alpha: real, gtd: real)
    ensures f.Infinite? ==> ProxSufficientDecrease(fNew, wNew, f, w, lam, alpha, gtd)
    ensures f.Finite? ==> (ProxSufficientDecrease(fNew, wNew, f, w, lam, alpha, gtd) <==>
      fNew.Finite? && fNew.value + L1Term(wNew, lam) <= f.value + L1Term(w, lam) + L1Armijo * alpha * gtd)
  {
    AtMost(Shift(fNew, L1Term(wNew, lam)), Shift(f, L1Term(w, lam) + L1Armijo * alpha * gtd))
  }

  /** Trial j (counting from 0) of the L1 line search at w with initial
      step alpha0: `proxL1(w - alpha * g, alpha)` with `alpha = alpha0 / 2^j`. */
  function ProxTrialPoint(w: Vector, g: Vector, lam: real, alpha0: real, j: nat): (p: Vector)
    requires |g| == |w| && alpha0 > 0.0
    ensures |p| == |w|
  {
    var alpha := Halved(alpha0, j);
    ProxL1(Sub(w, Scale(alpha, g)), lam, alpha)
  }

  /** `gtd = g.(w_new - w)`, fixed at the first trial point. */
  function ProxSlope(w: Vector, g: Vector, lam: real, alpha0: real): real
    requires |g| == |w| && alpha0 > 0.0
  {
    Dot(g, Sub(ProxTrialPoint(w, g, lam, alpha0, 0), w))
  }

  /** Trial j of that line search failed the L1 sufficient-decrease test. */
  predicate ProxRejected(obj: Vector --> Eval, lam: real, w: Vector, f: Loss, g: Vector, alpha0: real, j: nat)
    requires IsObjective(obj, |w|) && |g| == |w| && alpha0 > 0.0
  {
    var p := ProxTrialPoint(w, g, lam, alpha0, j);
    !ProxSufficientDecrease(obj(p).f, p, f, w, lam, Halved(alpha0, j), ProxSlope(w, g, lam, alpha0))
  }

  /** Trial j of the L1 line search: evaluate the proximal point of step
      `alpha0 / 2^j` and test it against `gtd`. */
  method ProxTrial(obj: Vector --> Eval, lam: real, w: Vector, f: Loss, g: Vector,
                   ghost alpha0: real, ghost j: nat, alpha: real, gtd: real)
    returns (passed: bool, wNew: Vector, eNew: Eval)
    requires IsObjective(obj, |w|) && |g| == |w| && alpha0 > 0.0
    requires alpha == Halved(alpha0, j) && gtd == ProxSlope(w, g, lam, alpha0)
    requires forall k :: 0 <= k < j ==> ProxRejected(obj, lam, w, f, g, alpha0, k)
    ensures wNew == ProxTrialPoint(w, g, lam, alpha0, j) && eNew == obj(wNew)
    ensures wNew == ProxL1(Sub(w, Scale(alpha, g)), lam, alpha)
    ensures passed <==> ProxSufficientDecrease(eNew.f, wNew, f, w, lam, alpha, gtd)
    ensures !passed ==> forall k :: 0 <= k < j + 1 ==> ProxRejected(obj, lam, w, f, g, alpha0, k)
  {
    wNew := ProxL1(Sub(w, Scale(alpha, g)), lam, alpha);
    eNew := obj(wNew);
    passed := ProxSufficientDecrease(eNew.f, wNew, f, w, lam, alpha, gtd);
  }

  /** The inner loop of `gradient_descent_L1` and `GD_L1`: propose
      `proxL1(w - alpha * g, alpha)`, fix `gtd = g.(w_new - w)` at the first
      trial, and halve alpha until the L1-regularised loss passes the
      sufficient-decrease test against that gtd. Every trial before the
      last was rejected, and so was the last one when the search gives up,
      so an accepted step is the first halving that passes. */
  method ProxLineSearch(obj: Vector --> Eval, lam: real, w: Vector, f: Loss, g: Vector,
                        alpha0: real, maxTrials: nat)
    returns (accepted: bool, alpha: real, wNew: Vector, eNew: Eval, gtd: real, trials: nat)
    requires IsObjective(obj, |w|) && |g| == |w| && obj(w) == Eval(f, g)
    requires alpha0 > 0.0
    ensures trials <= maxTrials
    ensures accepted ==> trials >= 1
    ensures !accepted ==> trials == maxTrials
    ensures alpha > 0.0
    ensures accepted ==> alpha == Halved(alpha0, trials - 1)
    ensures accepted ==> wNew == ProxL1(Sub(w, Scale(alpha, g)), lam, alpha) && eNew == obj(wNew)
    ensures accepted ==> wNew == ProxTrialPoint(w, g, lam, alpha0, trials - 1)
    ensures trials >= 1 ==> gtd == Dot(g, Sub(ProxL1(Sub(w, Scale(alpha0, g)), lam, alpha0), w))
    ensures accepted ==> ProxSufficientDecrease(eNew.f, wNew, f, w, lam, alpha, gtd)
    ensures accepted ==> !ProxRejected(obj, lam, w, f, g, alpha0, trials - 1)
    ensures forall j :: 0 <= j < (if accepted then trials - 1 else trials) ==>
      ProxRejected(obj, lam, w, f, g, alpha0, j)
  {
    alpha, trials := alpha0, 0;
    gtd := ProxSlope(w, g, lam, alpha0);
    accepted, wNew, eNew := false, w, obj(w);
    while trials < maxTrials
      invariant trials <= maxTrials && !accepted
      invariant alpha == Halved(alpha0, trials)
      invariant gtd == ProxSlope(w, g, lam, alpha0)
      invariant forall j :: 0 <= j < trials ==> ProxRejected(obj, lam, w, f, g, alpha0, j)
      decreases maxTrials - trials
    {
      var passed;
      passed, wNew, eNew := ProxTrial(obj, lam, w, f, g, alpha0, trials, alpha, gtd);
      trials := trials + 1;
      if passed {
        accepted := true;
        return;
      }
      alpha := alpha / 2.0;
    }
  }

  /** What an L1 solver promises about its result: `w` keeps the dimension of
      `w0` and `f` is its (unregularised) loss; the counter, which starts at 1
      for the initial evaluation, is at least 2 and overruns the budget by at
      most one line search; `Optimal` means the proximal stationarity measure
      is below the tolerance, `BudgetSpent` that it is not and the budget is
      spent, and `Stalled` that the trials ran out (see `ProxStalled`). */
  ghost predicate ProxOutcome(obj: Vector --> Eval, lam: real, w0: Vector,
                              maxEvaluations: int, maxTrials: nat, r: Run)
    requires |w0| > 0 && IsObjective(obj, |w0|)
  {
    && |r.w| == |w0|
    && r.f == obj(r.w).f
    && 2 <= r.evals <= (if maxEvaluations > 2 then maxEvaluations - 1 else 1) + maxTrials
    && (r.stop == Optimal ==> ProxStationarity(r.w, obj(r.w).g, lam) < OptTol)
    && (r.stop == BudgetSpent ==>
          ProxStationarity(r.w, obj(r.w).g, lam) >= OptTol && r.evals >= maxEvaluations)
    && (r.stop == Stalled ==> r.evals >= 1 + maxTrials)
  }

  /** A stalled L1 run gave up at its final `w`: the line search there,
      started from a step `alphaStart` within the family's guard bounds,
      rejected all `maxTrials` halvings. */
  ghost predicate ProxStalled(family: Family, obj: Vector --> Eval, lam: real, maxTrials: nat,
                              r: Run, alphaStart: real)
    requires IsObjective(obj, |r.w|)
  {
    && ProxStepMin(family) <= alphaStart <= StepMax
    && r.f == obj(r.w).f
    && forall j :: 0 <= j < maxTrials ==> ProxRejected(obj, lam, r.w, r.f, obj(r.w).g, alphaStart, j)
  }

  /** The iterate and the starting step that follow an L1 line search at w
      from `alpha0` that accepted its halving j: the proximal point of step
      `alpha0 / 2^j`, and the family's guard applied to the Barzilai-Borwein
      quotient of that step. The guard keeps the new step within the
      family's bounds. */
  function ProxSuccessor(family: Family, obj: Vector --> Eval, lam: real, w: Vector, alpha0: real, j: nat)
    : (next: (Vector, real))
    requires IsObjective(obj, |w|) && alpha0 > 0.0
    ensures |next.0| == |w| && ProxStepMin(family) <= next.1 <= StepMax
  {
    var g := obj(w).g;
    var wNext := ProxTrialPoint(w, g, lam, alpha0, j);
    (wNext, ProxGuard(family, BarzilaiBorwein(Halved(alpha0, j), Sub(obj(wNext).g, g), g)))
  }

  /** The run of an L1 solver from the iterate `w`, the starting step
      `alpha` and the counter `evals`: the line search at w from its first
      halving. */
  function ProxRunFrom(family: Family, obj: Vector --> Eval, lam: real, w: Vector, alpha: real, evals: int,
                       maxEvaluations: int, maxTrials: nat): (r: Run)
    requires |w| > 0 && IsObjective(obj, |w|) && alpha > 0.0
    decreases if evals < maxEvaluations then maxEvaluations - evals else 0, 2, 0
  {
    ProxSearch(family, obj, lam, w, alpha, 0, evals, maxEvaluations, maxTrials)
  }

  /** The run from halving j of the line search at w: when all `maxTrials`
      halvings are used up, a stalled run at w having spent `maxTrials` more
      evaluations; when halving j is accepted, the run at its successor,
      reached after j + 1 trials; otherwise the run from halving j + 1. */
  function ProxSearch(family: Family, obj: Vector --> Eval, lam: real, w: Vector, alpha: real, j: nat,
                      evals: int, maxEvaluations: int, maxTrials: nat): (r: Run)
    requires |w| > 0 && IsObjective(obj, |w|) && alpha > 0.0
    decreases if evals < maxEvaluations then maxEvaluations - evals else 0, 1, maxTrials - j
  {
    var e := obj(w);
    if j >= maxTrials then Run(w, e.f, evals + maxTrials, Stalled)
    else if !ProxRejected(obj, lam, w, e.f, e.g, alpha, j) then
      ProxRunAt(family, obj, lam, ProxSuccessor(family, obj, lam, w, alpha, j), evals, j + 1,
                maxEvaluations, maxTrials)
    else ProxSearch(family, obj, lam, w, alpha, j + 1, evals, maxEvaluations, maxTrials)
  }

  /** The run of an L1 solver at the point `next.0` a line search accepted
      after `trials` trials, the counter having been `evals` before it: the
      run ends as optimal when the proximal stationarity measure there is
      below the tolerance, as out of budget when the counter has reached
      `maxEvaluations`, and otherwise goes on from there with the step
      `next.1`. */
  function ProxRunAt(family: Family, obj: Vector --> Eval, lam: real, next: (Vector, real), evals: int,
                     trials: nat, maxEvaluations: int, maxTrials: nat): (r: Run)
    requires |next.0| > 0 && IsObjective(obj, |next.0|) && next.1 > 0.0
    requires trials >= 1
    decreases if evals < maxEvaluations then maxEvaluations - evals else 0, 0, 0
  {
    var e := obj(next.0);
    if ProxStationarity(next.0, e.g, lam) < OptTol then Run(next.0, e.f, evals + trials, Optimal)
    else if evals + trials >= maxEvaluations then Run(next.0, e.f, evals + trials, BudgetSpent)
    else ProxRunFrom(family, obj, lam, next.0, next.1, evals + trials, maxEvaluations, maxTrials)
  }

  /** Rejected halvings are skipped: when halvings j..i-1 are all rejected,
      the run from halving j is the run from halving i. */
  lemma {:induction false} ProxSearchSkips(family: Family, obj: Vector --> Eval, lam: real, w: Vector,
                                           alpha: real, j: nat, i: nat, evals: int, maxEvaluations: int,
                                           maxTrials: nat)
    requires |w| > 0 && IsObjective(obj, |w|) && alpha > 0.0
    requires j <= i <= maxTrials
    requires forall k :: j <= k < i ==> ProxRejected(obj, lam, w, obj(w).f, obj(w).g, alpha, k)
    ensures ProxSearch(family, obj, lam, w, alpha, j, evals, maxEvaluations, maxTrials) ==
      ProxSearch(family, obj, lam, w, alpha, i, evals, maxEvaluations, maxTrials)
    decreases i - j
  {
    if j < i {
      ProxSearchSkips(family, obj, lam, w, alpha, j + 1, i, evals, maxEvaluations, maxTrials);
    }
  }

  /** An L1 run whose line search rejects all `maxTrials` halvings stalls
      at once, at w. */
  lemma ProxRunStalls(family: Family, obj: Vector --> Eval, lam: real, w: Vector, alpha: real, evals: int,
                      maxEvaluations: int, maxTrials: nat)
    requires |w| > 0 && IsObjective(obj, |w|) && alpha > 0.0
    requires forall k :: 0 <= k < maxTrials ==> ProxRejected(obj, lam, w, obj(w).f, obj(w).g, alpha, k)
    ensures ProxRunFrom(family, obj, lam, w, alpha, evals, maxEvaluations, maxTrials) ==
      Run(w, obj(w).f, evals + maxTrials, Stalled)
  {
    ProxSearchSkips(family, obj, lam, w, alpha, 0, maxTrials, evals, maxEvaluations, maxTrials);
  }

  /** An L1 run whose line search rejects the halvings before j and accepts
      halving j, reaching `wNext` and the guarded step `alphaNext`, stops
      there as optimal or out of budget, or goes on from there, j + 1
      evaluations later. */
  lemma ProxRunSteps(family: Family, obj: Vector --> Eval, lam: real, w: Vector, alpha: real, evals: int,
                     maxEvaluations: int, maxTrials: nat, j: nat, wNext: Vector, alphaNext: real)
    requires |w| > 0 && IsObjective(obj, |w|) && alpha > 0.0
    requires j < maxTrials
    requires forall k :: 0 <= k < j ==> ProxRejected(obj, lam, w, obj(w).f, obj(w).g, alpha, k)
    requires !ProxRejected(obj, lam, w, obj(w).f, obj(w).g, alpha, j)
    requires wNext == ProxTrialPoint(w, obj(w).g, lam, alpha, j)
    requires alphaNext == ProxGuard(family, BarzilaiBorwein(Halved(alpha, j), Sub(obj(wNext).g, obj(w).g), obj(w).g))
    ensures |wNext| == |w| && ProxStepMin(family) <= alphaNext <= StepMax
    ensures ProxRunFrom(family, obj, lam, w, alpha, evals, maxEvaluations, maxTrials) ==
      if ProxStationarity(wNext, obj(wNext).g, lam) < OptTol then Run(wNext, obj(wNext).f, evals + j + 1, Optimal)
      else if evals + j + 1 >= maxEvaluations then Run(wNext, obj(wNext).f, evals + j + 1, BudgetSpent)
      else ProxRunFrom(family, obj, lam, wNext, alphaNext, evals + j + 1, maxEvaluations, maxTrials)
  {
    ProxSearchSkips(family, obj, lam, w, alpha, 0, j, evals, maxEvaluations, maxTrials);
    assert ProxSuccessor(family, obj, lam, w, alpha, j) == (wNext, alphaNext);
    assert ProxSearch(family, obj, lam, w, alpha, j, evals, maxEvaluations, maxTrials) ==
      ProxRunAt(family, obj, lam, (wNext, alphaNext), evals, j + 1, maxEvaluations, maxTrials);
  }

  /** A run that stops at `w`, `trials` evaluations after a counter that
      was 1 or below the budget, for a reason that holds there, has the
      outcome `ProxOutcome` promises. */
  lemma ProxOutcomeAt(obj: Vector --> Eval, lam: real, w0: Vector, maxEvaluations: int, maxTrials: nat,
                      w: Vector, evals: int, trials: nat, stop: Stop)
    requires |w0| > 0 && IsObjective(obj, |w0|) && |w| == |w0|
    requires evals == 1 || 2 <= evals < maxEvaluations
    requires 1 <= trials <= maxTrials
    requires stop == Stalled ==> trials == maxTrials
    requires stop == Optimal ==> ProxStationarity(w, obj(w).g, lam) < OptTol
    requires stop == BudgetSpent ==>
      ProxStationarity(w, obj(w).g, lam) >= OptTol && evals + trials >= maxEvaluations
    ensures ProxOutcome(obj, lam, w0, maxEvaluations, maxTrials, Run(w, obj(w).f, evals + trials, stop))
  {
  }

  /** Every L1 run from an iterate of the dimension of `w0`, from a positive
      step and a counter that is 1 or below the budget, has the outcome
      `ProxOutcome` promises. */
  lemma {:induction false} ProxRunOutcome(family: Family, obj: Vector --> Eval, lam: real, w0: Vector,
                                          w: Vector, alpha: real, evals: int, maxEvaluations: int,
                                          maxTrials: nat, r: Run)
    requires |w0| > 0 && IsObjective(obj, |w0|) && |w| == |w0| && maxTrials > 0 && alpha > 0.0
    requires evals == 1 || 2 <= evals < maxEvaluations
    requires r == ProxRunFrom(family, obj, lam, w, alpha, evals, maxEvaluations, maxTrials)
    ensures ProxOutcome(obj, lam, w0, maxEvaluations, maxTrials, r)
    decreases if evals < maxEvaluations then maxEvaluations - evals else 0, 2, 0
  {
    ProxSearchOutcome(family, obj, lam, w0, w, alpha, 0, evals, maxEvaluations, maxTrials, r);
  }

  /** The same for the run from halving j of the line search at w. */
  lemma {:induction false} ProxSearchOutcome(family: Family, obj: Vector --> Eval, lam: real, w0: Vector,
                                             w: Vector, alpha: real, j: nat, evals: int, maxEvaluations: int,
                                             maxTrials: nat, r: Run)
    requires |w0| > 0 && IsObjective(obj, |w0|) && |w| == |w0| && maxTrials > 0 && alpha > 0.0
    requires evals == 1 || 2 <= evals < maxEvaluations
    requires r == ProxSearch(family, obj, lam, w, alpha, j, evals, maxEvaluations, maxTrials)
    ensures ProxOutcome(obj, lam, w0, maxEvaluations, maxTrials, r)
    decreases if evals < maxEvaluations then maxEvaluations - evals else 0, 1, maxTrials - j
  {
    var e := obj(w);
    if j >= maxTrials {
      ProxOutcomeAt(obj, lam, w0, maxEvaluations, maxTrials, w, evals, maxTrials, Stalled);
    } else if !ProxRejected(obj, lam, w, e.f, e.g, alpha, j) {
      ProxRunAtOutcome(family, obj, lam, w0, ProxSuccessor(family, obj, lam, w, alpha, j), evals, j + 1,
                       maxEvaluations, maxTrials, r);
    } else {
      ProxSearchOutcome(family, obj, lam, w0, w, alpha, j + 1, evals, maxEvaluations, maxTrials, r);
    }
  }

  /** The same for a run at a point a line search accepted after `trials`
      of the `maxTrials` trials. */
  lemma {:induction false} ProxRunAtOutcome(family: Family, obj: Vector --> Eval, lam: real, w0: Vector,
                                            next: (Vector, real), evals: int, trials: nat,
                                            maxEvaluations: int, maxTrials: nat, r: Run)
    requires |w0| > 0 && IsObjective(obj, |w0|) && |next.0| == |w0| && next.1 > 0.0
    requires evals == 1 || 2 <= evals < maxEvaluations
    requires 1 <= trials <= maxTrials
    requires r == ProxRunAt(family, obj, lam, next, evals, trials, maxEvaluations, maxTrials)
    ensures ProxOutcome(obj, lam, w0, maxEvaluations, maxTrials, r)
    decreases if evals < maxEvaluations then maxEvaluations - evals else 0, 0, 0
  {
    if ProxStationarity(next.0, obj(next.0).g, lam) < OptTol {
      ProxOutcomeAt(obj, lam, w0, maxEvaluations, maxTrials, next.0, evals, trials, Optimal);
    } else if evals + trials >= maxEvaluations {
      ProxOutcomeAt(obj, lam, w0, maxEvaluations, maxTrials, next.0, evals, trials, BudgetSpent);
    } else {
      ProxRunOutcome(family, obj, lam, w0, next.0, next.1, evals + trials, maxEvaluations, maxTrials, r);
    }
  }

  /** One outer iteration of an L1 solver at `w` from the step `alpha`: the
      line search and, when it accepts, the guarded Barzilai-Borwein step
      for the next iteration. The run from before the iteration is the
      stalled run at w, the run stopping at the new iterate, or the run
      from there. */
  method ProxIteration(family: Family, obj: Vector --> Eval, lam: real, w: Vector, f: Loss, g: Vector,
                       alpha: real, ghost evals: int, ghost maxEvaluations: int, maxTrials: nat)
    returns (accepted: bool, wNew: Vector, eNew: Eval, trials: nat, alphaNext: real)
    requires |w| > 0 && IsObjective(obj, |w|) && |g| == |w| && obj(w) == Eval(f, g)
    requires ProxStepMin(family) <= alpha <= StepMax
    ensures !accepted ==> trials == maxTrials
    ensures !accepted ==> forall j :: 0 <= j < maxTrials ==> ProxRejected(obj, lam, w, f, g, alpha, j)
    ensures accepted ==> trials >= 1 && |wNew| == |w| && eNew == obj(wNew)
    ensures accepted ==> ProxStepMin(family) <= alphaNext <= StepMax
    ensures ProxRunFrom(family, obj, lam, w, alpha, evals, maxEvaluations, maxTrials) ==
      if !accepted then Run(w, f, evals + trials, Stalled)
      else if ProxStationarity(wNew, eNew.g, lam) < OptTol then Run(wNew, eNew.f, evals + trials, Optimal)
      else if evals + trials >= maxEvaluations then Run(wNew, eNew.f, evals + trials, BudgetSpent)
      else ProxRunFrom(family, obj, lam, wNew, alphaNext, evals + trials, maxEvaluations, maxTrials)
  {
    var alphaTried, gtd;
    accepted, alphaTried, wNew, eNew, gtd, trials := ProxLineSearch(obj, lam, w, f, g, alpha, maxTrials);
    alphaNext := alpha;
    if accepted {
      var y := Sub(eNew.g, g);
      alphaNext := ProxGuard(family, BarzilaiBorwein(alphaTried, y, g));
      ProxRunSteps(family, obj, lam, w, alpha, evals, maxEvaluations, maxTrials, trials - 1, wNew, alphaNext);
    } else {
      ProxRunStalls(family, obj, lam, w, alpha, evals, maxEvaluations, maxTrials);
    }
  }

  /** The outer loop shared by `gradient_descent_L1` and `GD_L1`: line
      search, Barzilai-Borwein re-estimate, the family's guard, commit, and
      the two termination tests. The evaluation counter starts at 1 for the
      initial evaluation and the step at 1; the result is the `ProxRunFrom`
      of that state, and a stalled run comes with the step its last line
      search started from. */
  method ProxDescent(family: Family, obj: Vector --> Eval, w0: Vector, lam: real,
                     maxEvaluations: int, maxTrials: nat)
    returns (r: Run, ghost alphaStart: real)
    requires |w0| > 0 && IsObjective(obj, |w0|)
    requires maxTrials > 0
    ensures ProxOutcome(obj, lam, w0, maxEvaluations, maxTrials, r)
    ensures r.stop == Stalled ==> |r.w| == |w0| && ProxStalled(family, obj, lam, maxTrials, r, alphaStart)
    ensures r == ProxRunFrom(family, obj, lam, w0, 1.0, 1, maxEvaluations, maxTrials)
  {
    var e0 := obj(w0);
    var w, f, g := w0, e0.f, e0.g;
    var evals := 1;
    var alpha := 1.0;
    ghost var run := ProxRunFrom(family, obj, lam, w0, 1.0, 1, maxEvaluations, maxTrials);
    ghost var budget := if maxEvaluations > 1 then maxEvaluations else 1;
    while true
      invariant |w| == |w0| && obj(w) == Eval(f, g)
      invariant ProxStepMin(family) <= alpha <= StepMax
      invariant evals == 1 || (2 <= evals < maxEvaluations)
      invariant ProxRunFrom(family, obj, lam, w, alpha, evals, maxEvaluations, maxTrials) == run
      decreases budget - evals
    {
      alphaStart := alpha;
      var accepted, wNew, eNew, trials, alphaNext :=
        ProxIteration(family, obj, lam, w, f, g, alpha, evals, maxEvaluations, maxTrials);
      if !accepted {
        r := Run(w, f, evals + trials, Stalled);
        ProxRunOutcome(family, obj, lam, w0, w0, 1.0, 1, maxEvaluations, maxTrials, r);
        return;
      }
      evals := evals + trials;
      alpha := alphaNext;
      w, f, g := wNew, eNew.f, eNew.g;
      if ProxStationarity(w, g, lam) < OptTol {
        r := Run(w, f, evals, Optimal);
        ProxRunOutcome(family, obj, lam, w0, w0, 1.0, 1, maxEvaluations, maxTrials, r);
        return;
      }
      if evals >= maxEvaluations {
        r := Run(w, f, evals, BudgetSpent);
        ProxRunOutcome(family, obj, lam, w0, w0, 1.0, 1, maxEvaluations, maxTrials, r);
        return;
      }
    }
  }

  /** `gradient_descent_L1`: guard bounds [1e-30, 1e10]. */
  method GradientDescentL1(obj: Vector --> Eval, w0: Vector, lam: real, maxEvaluations: int, maxTrials: nat)
    returns (r: Run, ghost alphaStart: real)
    requires |w0| > 0 && IsObjective(obj, |w0|)
    requires maxTrials > 0
    ensures ProxOutcome(obj, lam, w0, maxEvaluations, maxTrials, r)
    ensures r.stop == Stalled ==> |r.w| == |w0| && ProxStalled(ForClassifiers, obj, lam, maxTrials, r, alphaStart)
    ensures r == ProxRunFrom(ForClassifiers, obj, lam, w0, 1.0, 1, maxEvaluations, maxTrials)
  {
    r, alphaStart := ProxDescent(ForClassifiers, obj, w0, lam, maxEvaluations, maxTrials);
  }

  /** `GD_L1`: guard bounds [1e-10, 1e10]. */
  method GDL1(obj: Vector --> Eval, w0: Vector, lam: real, maxIters: int, maxTrials: nat)
    returns (r: Run, ghost alphaStart: real)
    requires |w0| > 0 && IsObjective(obj, |w0|)
    requires maxTrials > 0
    ensures ProxOutcome(obj, lam, w0, maxIters, maxTrials, r)
    ensures r.stop == Stalled ==> |r.w| == |w0| && ProxStalled(ForModels, obj, lam, maxTrials, r, alphaStart)
    ensures r == ProxRunFrom(ForModels, obj, lam, w0, 1.0, 1, maxIters, maxTrials)
  {
    r, alphaStart := ProxDescent(ForModels, obj, w0, lam, maxIters, maxTrials);
  }

  /** The iterate after n fixed-size gradient steps from w0. */
  function FixedSteps(obj: Vector --> Eval, w0: Vector, gamma: real, n: nat): (w: Vector)
    requires IsObjective(obj, |w0|)
    ensures |w| == |w0|
  {
    if n == 0 then w0
    else
      var v := FixedSteps(obj, w0, gamma, n - 1);
      Sub(v, Scale(gamma, obj(v).g))
  }

  /** One iteration of `GD`: the step `w - gamma g` from the n-th iterate
      is the (n+1)-th, evaluated once. */
  method FixedStep(obj: Vector --> Eval, w0: Vector, gamma: real, n: nat, w: Vector, g: Vector)
    returns (wNew: Vector, fNew: Loss, gNew: Vector, residual: real, next: nat)
    requires |w0| > 0 && IsObjective(obj, |w0|)
    requires w == FixedSteps(obj, w0, gamma, n) && g == obj(w).g
    ensures next == n + 1
    ensures |wNew| == |w0| && wNew == FixedSteps(obj, w0, gamma, next)
    ensures obj(wNew) == Eval(fNew, gNew)
    ensures residual == NormInf(gNew) == FixedStepResidual(obj, w0, gamma, next)
  {
    next := n + 1;
    wNew := Sub(w, Scale(gamma, g));
    var e := obj(wNew);
    fNew, gNew := e.f, e.g;
    residual := NormInf(gNew);
  }

  /** The gradient's infinity norm at the n-th fixed-step iterate. */
  function FixedStepResidual(obj: Vector --> Eval, w0: Vector, gamma: real, n: nat): (r: real)
    requires |w0| > 0 && IsObjective(obj, |w0|)
    ensures r >= 0.0
  {
    NormInf(obj(FixedSteps(obj, w0, gamma, n)).g)
  }

  /** The gradient norms at the iterates 1..n, in order. */
  ghost function Residuals(obj: Vector --> Eval, w0: Vector, gamma: real, n: nat): (r: seq<real>)
    requires |w0| > 0 && IsObjective(obj, |w0|)
    ensures |r| == n
  {
    if n == 0 then [] else Residuals(obj, w0, gamma, n - 1) + [FixedStepResidual(obj, w0, gamma, n)]
  }

  /** The (j+1)-th entry of the history is the residual at iterate j+1. */
  lemma {:induction false} ResidualsAt(obj: Vector --> Eval, w0: Vector, gamma: real, n: nat, j: nat)
    requires |w0| > 0 && IsObjective(obj, |w0|)
    requires 1 <= j <= n
    ensures Residuals(obj, w0, gamma, n)[j - 1] == FixedStepResidual(obj, w0, gamma, j)
  {
    var prev := Residuals(obj, w0, gamma, n - 1);
    assert Residuals(obj, w0, gamma, n) == prev + [FixedStepResidual(obj, w0, gamma, n)];
    if j < n {
      ResidualsAt(obj, w0, gamma, n - 1, j);
      assert (prev + [FixedStepResidual(obj, w0, gamma, n)])[j - 1] == prev[j - 1];
    }
  }

  /** Every recorded residual failed the optimality test and its iterate's
      count was below the iteration limit: `GD` kept going after each. */
  predicate AllContinued(res: seq<real>, maxIters: int)
  {
    forall j :: 0 <= j < |res| ==> res[j] >= FixedStepTol && j + 1 < maxIters
  }

  lemma AllContinuedExtends(res: seq<real>, x: real, maxIters: int)
    requires AllContinued(res, maxIters)
    requires x >= FixedStepTol && |res| + 1 < maxIters
    ensures AllContinued(res + [x], maxIters)
  {
  }

  /** `GD`: fixed-step gradient descent with one evaluation per iteration.
      It returns the iterate after exactly `evals` steps, stops at the first
      step whose gradient norm is below 1e-4 or whose count reaches
      `max_iters`, and so takes at most max(max_iters, 1) steps. */
  method GD(obj: Vector --> Eval, w0: Vector, maxIters: int, gamma: real) returns (r: Run)
    requires |w0| > 0 && IsObjective(obj, |w0|)
    ensures 1 <= r.evals && (r.evals <= maxIters || r.evals == 1)
    ensures r.w == FixedSteps(obj, w0, gamma, r.evals) && r.f == obj(r.w).f
    ensures r.stop != Stalled
    ensures r.stop == Optimal ==> FixedStepResidual(obj, w0, gamma, r.evals) < FixedStepTol
    ensures r.stop == BudgetSpent ==>
      FixedStepResidual(obj, w0, gamma, r.evals) >= FixedStepTol && r.evals >= maxIters
    ensures AllContinued(Residuals(obj, w0, gamma, r.evals - 1), maxIters)
  {
    var e0 := obj(w0);
    var w, f, g := w0, e0.f, e0.g;
    var evals: nat := 0;
    ghost var budget := if maxIters > 0 then maxIters else 0;
    ghost var history: seq<real> := [];
    while true
      invariant |w| == |w0| && obj(w) == Eval(f, g)
      invariant w == FixedSteps(obj, w0, gamma, evals)
      invariant evals == 0 || evals < maxIters
      invariant history == Residuals(obj, w0, gamma, evals) && AllContinued(history, maxIters)
      decreases budget - evals
    {
      var residual;
      ghost var done := evals;
      w, f, g, residual, evals := FixedStep(obj, w0, gamma, evals, w, g);
      assert evals - 1 == done;
      if residual < FixedStepTol {
        return Run(w, f, evals, Optimal);
      }
      if evals >= maxIters {
        return Run(w, f, evals, BudgetSpent);
      }
      AllContinuedExtends(history, residual, maxIters);
      history := history + [residual];
    }
  }


  // ---------------------------------------------------------------------
  // The L1 acceptance test and the regularised loss

  /** A one-dimensional objective with f(1) = 0, gradient -1/2 at 1 and
      f(1/2) = 0.50001: `-(v - 1)/2 + 1.00004 (v - 1)^2`. */
  function NonMonotoneExample(v: Vector): (e: Eval)
    requires |v| == 1
    ensures e.f.Finite? && |e.g| == 1
  {
    var t := v[0] - 1.0;
    Eval(Finite(-0.5 * t + 1.00004 * (t * t)), [-0.5 + 2.00008 * t])
  }

  /** The L1 acceptance test compares against `gamma * alpha * gtd` with
      `gtd = g.(w_new - w)`, which leaves out the change of the penalty, so
      an accepted step can raise `f + L1Term`: from w = [1] with lam = 1
      and alpha = 1 on the objective above, the first trial
      `proxL1([1.5], 1) = [0.5]` has gtd = 0.25 and passes the test, while the
      regularised loss goes from 1 to 1.00001. */
  lemma L1AcceptanceAllowsIncrease()
    ensures IsObjective(NonMonotoneExample, 1)
    ensures NonMonotoneExample([1.0]) == Eval(Finite(0.0), [-0.5])
    ensures ProxTrialPoint([1.0], [-0.5], 1.0, 1.0, 0) == [0.5]
    ensures ProxSlope([1.0], [-0.5], 1.0, 1.0) == 0.25
    ensures NonMonotoneExample([0.5]).f == Finite(0.50001)
    ensures !ProxRejected(NonMonotoneExample, 1.0, [1.0], Finite(0.0), [-0.5], 1.0, 0)
    ensures 0.50001 + L1Term([0.5], 1.0) > 0.0 + L1Term([1.0], 1.0)
  {
    assert ProxTrialPoint([1.0], [-0.5], 1.0, 1.0, 0)[0] == 0.5;
    assert Sub([0.5], [1.0]) == [-0.5];
    assert SumAbs([0.5]) == 0.5;
    assert SumAbs([1.0]) == 1.0;
  }
}
