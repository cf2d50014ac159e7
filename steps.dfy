/** The step rules of scripts/solver.py, one function each: the soft-threshold
    proximal operator and the L1 penalty of the L1 solvers, the quadratic
    interpolation and the infinite-loss collapse of the smooth line search,
    the Barzilai-Borwein re-estimate, the safety guards, and the two
    stationarity measures. */
module Steps {
  import opened Vectors

  /** `linesearch_optTol` of the four line-search solvers */
  const OptTol: real := 1e-2
  /** `optimal_g` of the fixed-step solver */
  const FixedStepTol: real := 1e-4
  /** `linesearch_beta`, the sufficient-decrease constant of the smooth line search */
  const Beta: real := 1e-4
  /** the variable `gamma = 1e-4` of the L1 solvers: their sufficient-decrease constant */
  const L1Armijo: real := 1e-4
  /** upper bound of every step-size guard */
  const StepMax: real := 1e10

  datatype Option<T> = None | Some(value: T)

  /** Which half of scripts/solver.py a solver comes from: the "Solvers used
      for the classifiers" (`gradient_descent`, `gradient_descent_L1`) or the
      "Solvers used for the Models" (`GD`, `GD_linesearch`, `GD_L1`). The two
      halves guard their step sizes with different bounds and resets. */
  datatype Family = ForClassifiers | ForModels

  // ---------------------------------------------------------------------
  // L1 proximal operator and penalty

  /** One entry of `np.sign(v) * np.maximum(abs(v) - t, 0)`. */
  function SoftThreshold(x: real, t: real): (r: real)
    ensures r == 0.0 <==> (Abs(x) <= t || x == 0.0)
    ensures r != 0.0 ==> Sign(r) == Sign(x) && Abs(r) == Abs(x) - t
    ensures t >= 0.0 ==> Abs(r) <= Abs(x)
  {
    Sign(x) * Max(Abs(x) - t, 0.0)
  }

  /** `proxL1(v, alpha)` with threshold `L1_lambda * alpha`: entry i becomes
      zero exactly when |v_i| is at most the threshold (or v_i is already
      zero); otherwise it keeps the sign of v_i and loses exactly the
      threshold in magnitude, so for a non-negative threshold it never
      grows. */
  function ProxL1(v: Vector, lam: real, alpha: real): (r: Vector)
    ensures |r| == |v|
    ensures forall i :: 0 <= i < |v| ==>
      (r[i] == 0.0 <==> (Abs(v[i]) <= lam * alpha || v[i] == 0.0))
    ensures forall i :: 0 <= i < |v| && r[i] != 0.0 ==>
      Sign(r[i]) == Sign(v[i]) && Abs(r[i]) == Abs(v[i]) - lam * alpha
    ensures lam * alpha >= 0.0 ==> forall i :: 0 <= i < |v| ==> Abs(r[i]) <= Abs(v[i])
  {
    seq(|v|, i requires 0 <= i < |v| => SoftThreshold(v[i], lam * alpha))
  }

  /** `L1Term(w) = L1_lambda * np.sum(np.abs(w))` */
  function L1Term(w: Vector, lam: real): (r: real)
    ensures lam >= 0.0 ==> r >= 0.0
    ensures lam == 0.0 ==> r == 0.0
  {
    lam * SumAbs(w)
  }

  /** With no penalty the proximal operator is the identity. */
  lemma ProxL1Identity(v: Vector, alpha: real)
    ensures ProxL1(v, 0.0, alpha) == v
  {
    var r := ProxL1(v, 0.0, alpha);
    forall i | 0 <= i < |v| ensures r[i] == v[i] {
      assert r[i] == Sign(v[i]) * Max(Abs(v[i]), 0.0);
    }
  }

  /** A coordinate at zero whose gradient entry is dominated by the penalty
      stays exactly zero after a proximal gradient step of any positive
      size. */
  lemma ProxStepKeepsZero(w: Vector, g: Vector, lam: real, alpha: real, i: nat)
    requires |w| == |g| && i < |w|
    requires alpha > 0.0 && w[i] == 0.0 && Abs(g[i]) <= lam
    ensures ProxL1(Sub(w, Scale(alpha, g)), lam, alpha)[i] == 0.0
  {
    var u := Sub(w, Scale(alpha, g));
    assert u[i] == -(alpha * g[i]);
    assert Abs(u[i]) == alpha * Abs(g[i]);
    assert alpha * Abs(g[i]) <= alpha * lam;
  }

  /** `np.linalg.norm(w - proxL1(w - g, 1.0), inf)`, the optimality measure
      of the L1 solvers. */
  function ProxStationarity(w: Vector, g: Vector, lam: real): (r: real)
    requires |w| == |g| && |w| > 0
    ensures r >= 0.0
  {
    NormInf(Sub(w, ProxL1(Sub(w, g), lam, 1.0)))
  }

  /** The measure is zero exactly when w is a fixed point of the unit
      proximal step. */
  lemma ProxStationarityZero(w: Vector, g: Vector, lam: real)
    requires |w| == |g| && |w| > 0
    ensures ProxStationarity(w, g, lam) == 0.0 <==> w == ProxL1(Sub(w, g), lam, 1.0)
  {
    var p := ProxL1(Sub(w, g), lam, 1.0);
    NormInfZero(Sub(w, p));
    SubZero(w, p);
  }

  /** w is a fixed point of a proximal step exactly when the step moves no
      entry: an infinity norm is zero only for the zero vector. */
  lemma NormInfZero(v: Vector)
    requires |v| > 0
    ensures NormInf(v) == 0.0 <==> forall i :: 0 <= i < |v| ==> v[i] == 0.0
  {
    if NormInf(v) == 0.0 {
      forall i | 0 <= i < |v| ensures v[i] == 0.0 {
        assert Abs(v[i]) <= NormInf(v);
      }
    } else {
      NormInfAttained(v);
      var i :| 0 <= i < |v| && Abs(v[i]) == NormInf(v);
      assert v[i] != 0.0;
    }
  }

  lemma SubZero(a: Vector, b: Vector)
    requires |a| == |b|
    ensures (forall i :: 0 <= i < |a| ==> Sub(a, b)[i] == 0.0) <==> a == b
  {
    if forall i :: 0 <= i < |a| ==> Sub(a, b)[i] == 0.0 {
      forall i | 0 <= i < |a| ensures a[i] == b[i] {
        assert Sub(a, b)[i] == a[i] - b[i];
      }
    }
  }

  // ---------------------------------------------------------------------
  // Smooth line search

  /** `(gamma ** 2) * gg / (2. * (f_new - f + gamma * gg))`, evaluated after
      a finite trial loss failed the sufficient-decrease test. A rejected
      trial shrinks the step: the interpolated step is positive and below
      gamma / (2 (1 - beta)), hence below gamma. */
  function Interpolate(gamma: real, gg: real, f: real, fNew: real): (r: real)
    requires gamma > 0.0 && gg > 0.0
    requires fNew > f - Beta * gamma * gg
    ensures 0.0 < r < gamma / (2.0 * (1.0 - Beta))
    ensures r < gamma
  {
    var p := gamma * gg;
    var d := fNew - f + p;
    InterpolationDenominator(gamma, gg, f, fNew);
    InterpolationBounds(gamma, p, d);
    gamma * p / (2.0 * d)
  }

  lemma InterpolationDenominator(gamma: real, gg: real, f: real, fNew: real)
    requires gamma > 0.0 && gg > 0.0
    requires fNew > f - Beta * gamma * gg
    ensures fNew - f + gamma * gg > (1.0 - Beta) * (gamma * gg) > 0.0
  {
    assert gamma * gg > 0.0;
  }

  lemma InterpolationBounds(gamma: real, p: real, d: real)
    requires gamma > 0.0 && p > 0.0 && d > (1.0 - Beta) * p
    ensures 0.0 < gamma * p / (2.0 * d) < gamma / (2.0 * (1.0 - Beta))
    ensures gamma * p / (2.0 * d) < gamma
  {
    var q := p / d;
    assert q * d == p;
    assert 0.0 < q < 1.0 / (1.0 - Beta);
    assert gamma * p / (2.0 * d) == gamma * q / 2.0;
  }

  /** `1. / (10 ** k)`, the step after the k-th trial of a line search
      produced an infinite loss. */
  function InfiniteStep(k: nat): (r: real)
    ensures 0.0 < r <= 1.0
    ensures k > 0 ==> r <= 0.1
  {
    1.0 / Pow10(k)
  }

  // ---------------------------------------------------------------------
  // Barzilai-Borwein re-estimate and guards

  /** `-step * np.dot(y, g) / np.dot(y, y)`; `None` when `y.y = 0`, where
      numpy evaluates 0/0 to NaN. */
  function BarzilaiBorwein(step: real, y: Vector, g: Vector): (r: Option<real>)
    requires |y| == |g|
    ensures r.None? <==> Dot(y, y) == 0.0
    ensures r.Some? ==> r.value * Dot(y, y) == -step * Dot(y, g)
  {
    var yy := Dot(y, y);
    if yy == 0.0 then None else Some(-step * Dot(y, g) / yy)
  }

  /** When the quotient is undefined, both its numerator and its denominator
      are zero: `y` is the zero vector, so numpy computes 0/0 = NaN. */
  lemma BarzilaiBorweinUndefined(step: real, y: Vector, g: Vector)
    requires |y| == |g| && BarzilaiBorwein(step, y, g).None?
    ensures forall i :: 0 <= i < |y| ==> y[i] == 0.0
    ensures Dot(y, g) == 0.0
  {
    DotSelf(y);
    DotWithZero(y, g);
  }

  lemma {:induction false} DotWithZero(y: Vector, g: Vector)
    requires |y| == |g| && forall i :: 0 <= i < |y| ==> y[i] == 0.0
    ensures Dot(y, g) == 0.0
  {
    if |y| > 0 {
      assert forall i :: 0 <= i < |y| - 1 ==> y[1..][i] == y[i + 1];
      DotWithZero(y[1..], g[1..]);
    }
  }

  /** `if np.isnan(step) or step < lo or step > hi: step = reset`. */
  function Safeguard(bb: Option<real>, lo: real, hi: real, reset: real): (r: real)
    ensures (lo <= r <= hi) || r == reset
    ensures bb.Some? && lo <= bb.value <= hi ==> r == bb.value
    ensures bb.None? || bb.value < lo || bb.value > hi ==> r == reset
  {
    match bb
    case None => reset
    case Some(x) => if x < lo || x > hi then reset else x
  }

  /** Lower guard bound of the smooth solvers: 1e-60 in `gradient_descent`,
      1e-10 in `GD_linesearch`. */
  function SmoothStepMin(family: Family): real
  {
    match family
    case ForClassifiers => 1e-60
    case ForModels => 1e-10
  }

  /** Lower guard bound of the L1 solvers: 1e-30 in `gradient_descent_L1`,
      1e-10 in `GD_L1`. */
  function ProxStepMin(family: Family): real
  {
    match family
    case ForClassifiers => 1e-30
    case ForModels => 1e-10
  }

  /** The smooth solvers' guard: `gradient_descent` falls back to
      `gamma_is_inf`, `GD_linesearch` to 1. */
  function SmoothGuard(family: Family, bb: Option<real>, gammaIsInf: real): (r: real)
    ensures family == ForClassifiers ==> (1e-60 <= r <= 1e10 || r == gammaIsInf)
    ensures family == ForModels ==> 1e-10 <= r <= 1e10
    ensures gammaIsInf > 0.0 ==> r > 0.0
    ensures bb.Some? && SmoothStepMin(family) <= bb.value <= StepMax ==> r == bb.value
    ensures bb.None? || bb.value < SmoothStepMin(family) || bb.value > StepMax ==>
      r == (if family == ForClassifiers then gammaIsInf else 1.0)
  {
    Safeguard(bb, SmoothStepMin(family), StepMax,
              if family == ForClassifiers then gammaIsInf else 1.0)
  }

  /** The L1 solvers' guard: reset to 1 outside the family's bounds, so the
      step is always within them, also when `y.y = 0`. */
  function ProxGuard(family: Family, bb: Option<real>): (r: real)
    ensures family == ForClassifiers ==> 1e-30 <= r <= 1e10
    ensures family == ForModels ==> 1e-10 <= r <= 1e10
    ensures bb.Some? && ProxStepMin(family) <= bb.value <= StepMax ==> r == bb.value
    ensures bb.None? || bb.value < ProxStepMin(family) || bb.value > StepMax ==> r == 1.0
  {
    Safeguard(bb, ProxStepMin(family), StepMax, 1.0)
  }
}
