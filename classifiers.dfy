/** The objectives of scripts/classifiers.py that the solvers are run on:
    least squares with and without an L2 penalty, the sign predictor, and
    the two alternating objectives of the gradient-descent PCA. Each takes
    the data as explicit parameters (numpy's `*args`) and returns an `Eval`
    with a finite loss. The regularisation strength `self.lambda_` is the
    parameter `lam`. */
module Classifiers {
  import opened Vectors
  import opened Matrices
  import opened Objectives

  /** A positive multiple of a non-negative number is non-negative, and zero
      exactly when the number is. */
  lemma PositiveMultiple(c: real, s: real)
    requires c > 0.0 && s >= 0.0
    ensures c * s >= 0.0
    ensures c * s == 0.0 <==> s == 0.0
  {
    if s > 0.0 {
      assert c * s > 0.0 * s;
    }
  }

  /** The squared residual `sum((y - p) ** 2)` is non-negative and zero
      exactly when the prediction p equals y. */
  lemma ResidualSquares(y: Vector, p: Vector)
    requires |y| == |p|
    ensures Dot(Sub(y, p), Sub(y, p)) >= 0.0
    ensures Dot(Sub(y, p), Sub(y, p)) == 0.0 <==> p == y
  {
    var e := Sub(y, p);
    DotSelf(e);
    if forall i :: 0 <= i < |e| ==> e[i] == 0.0 {
      assert forall i :: 0 <= i < |y| ==> p[i] == y[i];
    }
  }

  /** `LeastSquares.function_object`: with `e = y - X @ w` the loss
      `sum(e ** 2) / (2n)` and the gradient `-(1/n) X.T @ e`. The loss is
      finite, never negative, and zero exactly when `X @ w` reproduces `y`;
      the gradient has the dimension of w. Python's `1/(2*n)` raises for
      n = 0, hence at least one row. */
  function LeastSquaresObjective(w: Vector, y: Vector, X: Matrix): (r: Eval)
    requires |X| > 0 && |y| == |X| && IsMatrix(X, |X|, |w|)
    ensures r.f.Finite? && r.f.value >= 0.0
    ensures r.f.value == 0.0 <==> MatVec(X, w) == y
    ensures |r.g| == |w|
  {
    var n := |X| as real;
    var e := Sub(y, MatVec(X, w));
    ResidualSquares(y, MatVec(X, w));
    PositiveMultiple(1.0 / (2.0 * n), Dot(e, e));
    Eval(Finite(1.0 / (2.0 * n) * Dot(e, e)), Scale(-1.0 / n, TransposeTimes(X, e, |w|)))
  }

  /** The least-squares gradient vanishes exactly at the solutions of the
      normal equations `X.T @ X @ w = X.T @ y`, the system `LeastSquares.fit`
      hands to `np.linalg.solve`. */
  lemma LeastSquaresStationary(w: Vector, y: Vector, X: Matrix)
    requires |X| > 0 && |y| == |X| && IsMatrix(X, |X|, |w|)
    ensures (forall j :: 0 <= j < |w| ==> LeastSquaresObjective(w, y, X).g[j] == 0.0)
        <==> TransposeTimes(X, MatVec(X, w), |w|) == TransposeTimes(X, y, |w|)
  {
    var g := LeastSquaresObjective(w, y, X).g;
    var a := TransposeTimes(X, MatVec(X, w), |w|);
    var b := TransposeTimes(X, y, |w|);
    forall j | 0 <= j < |w|
      ensures g[j] == 0.0 <==> a[j] == b[j]
    {
      LeastSquaresGradientEntry(w, y, X, j);
    }
    if forall j :: 0 <= j < |w| ==> g[j] == 0.0 {
      assert forall j :: 0 <= j < |w| ==> a[j] == b[j];
    }
  }

  lemma LeastSquaresGradientEntry(w: Vector, y: Vector, X: Matrix, j: nat)
    requires |X| > 0 && |y| == |X| && IsMatrix(X, |X|, |w|) && j < |w|
    ensures LeastSquaresObjective(w, y, X).g[j] == 0.0
        <==> TransposeTimes(X, MatVec(X, w), |w|)[j] == TransposeTimes(X, y, |w|)[j]
  {
    var c := -1.0 / (|X| as real);
    var p := MatVec(X, w);
    var t := Dot(Column(X, j), Sub(y, p));
    assert LeastSquaresObjective(w, y, X).g[j] == c * t;
    DotSub(Column(X, j), y, p);
    NonzeroFactor(c, t);
  }

  lemma NonzeroFactor(c: real, t: real)
    requires c != 0.0
    ensures c * t == 0.0 <==> t == 0.0
  {
    if t != 0.0 {
      assert (c * t) / c == t;
    }
  }

  /** The `+=` of `LeastSquaresL2.function_object`: `lam/2 w.w` added to
      the loss and `lam w` to the gradient. The loss rises by exactly the
      penalty and each gradient entry by exactly `lam w_i`; with
      lam = 0 nothing changes, and a non-negative lam never lowers the
      loss. */
  function L2Regularise(e: Eval, w: Vector, lam: real): (r: Eval)
    requires e.f.Finite? && |e.g| == |w|
    ensures r.f.Finite? && |r.g| == |w|
    ensures r.f.value - e.f.value == lam / 2.0 * Dot(w, w)
    ensures forall i :: 0 <= i < |w| ==> r.g[i] - e.g[i] == lam * w[i]
    ensures lam == 0.0 ==> r == e
    ensures lam >= 0.0 ==> r.f.value >= e.f.value
  {
    L2Penalty(w, lam);
    NoPenalty(e.g, w);
    Eval(Finite(e.f.value + lam / 2.0 * Dot(w, w)), Add(e.g, Scale(lam, w)))
  }

  lemma NoPenalty(g: Vector, w: Vector)
    requires |g| == |w|
    ensures Add(g, Scale(0.0, w)) == g
  {
  }

  /** `LeastSquaresL2.function_object`: the least-squares objective with the
      L2 penalty added. For a non-negative lam the loss stays
      non-negative; for a positive lam it is zero only at w = 0 with
      y = 0. */
  function LeastSquaresL2Objective(w: Vector, y: Vector, X: Matrix, lam: real): (r: Eval)
    requires |X| > 0 && |y| == |X| && IsMatrix(X, |X|, |w|)
    ensures r.f.Finite? && |r.g| == |w|
    ensures lam >= 0.0 ==> r.f.value >= 0.0
    ensures lam > 0.0 ==>
      (r.f.value == 0.0 <==> (forall i :: 0 <= i < |w| ==> w[i] == 0.0) && (forall i :: 0 <= i < |y| ==> y[i] == 0.0))
  {
    var base := LeastSquaresObjective(w, y, X);
    PenalisedFitZero(w, y, X, lam, base.f.value);
    L2Regularise(base, w, lam)
  }

  lemma L2Penalty(w: Vector, lam: real)
    ensures lam >= 0.0 ==> lam / 2.0 * Dot(w, w) >= 0.0
  {
    DotSelf(w);
    if lam > 0.0 {
      PositiveMultiple(lam / 2.0, Dot(w, w));
    }
  }

  lemma PenalisedFitZero(w: Vector, y: Vector, X: Matrix, lam: real, fb: real)
    requires |y| == |X| && IsMatrix(X, |X|, |w|)
    requires fb >= 0.0 && (fb == 0.0 <==> MatVec(X, w) == y)
    ensures lam > 0.0 ==>
      (fb + lam / 2.0 * Dot(w, w) == 0.0 <==>
        (forall i :: 0 <= i < |w| ==> w[i] == 0.0) && (forall i :: 0 <= i < |y| ==> y[i] == 0.0))
  {
    if lam > 0.0 {
      if forall i :: 0 <= i < |w| ==> w[i] == 0.0 {
        ZeroWeights(X, w, y);
      }
      L2Zero(fb, w, lam, MatVec(X, w) == y, forall i :: 0 <= i < |y| ==> y[i] == 0.0);
    }
  }

  /** For a positive lam, a base loss fb that is zero exactly on an exact
      fit, and an exact fit at w = 0 exactly when y = 0: the penalised loss
      is zero exactly at w = 0 with y = 0. */
  lemma L2Zero(fb: real, w: Vector, lam: real, exact: bool, yZero: bool)
    requires lam > 0.0
    requires fb >= 0.0 && (fb == 0.0 <==> exact)
    requires (forall i :: 0 <= i < |w| ==> w[i] == 0.0) ==> (exact <==> yZero)
    ensures fb + lam / 2.0 * Dot(w, w) == 0.0 <==> (forall i :: 0 <= i < |w| ==> w[i] == 0.0) && yZero
  {
    L2PenaltyZero(w, lam);
    ZeroSum(fb, lam / 2.0 * Dot(w, w), exact, forall i :: 0 <= i < |w| ==> w[i] == 0.0, yZero);
  }

  lemma L2PenaltyZero(w: Vector, lam: real)
    requires lam > 0.0
    ensures lam / 2.0 * Dot(w, w) >= 0.0
    ensures lam / 2.0 * Dot(w, w) == 0.0 <==> forall i :: 0 <= i < |w| ==> w[i] == 0.0
  {
    DotSelf(w);
    PositiveMultiple(lam / 2.0, Dot(w, w));
  }

  /** fb + pen vanishes, for two non-negative terms, exactly when both do. */
  lemma ZeroSum(fb: real, pen: real, exact: bool, wZero: bool, yZero: bool)
    requires fb >= 0.0 && (fb == 0.0 <==> exact)
    requires pen >= 0.0 && (pen == 0.0 <==> wZero)
    requires wZero ==> (exact <==> yZero)
    ensures fb + pen == 0.0 <==> wZero && yZero
  {
  }

  /** At w = 0 every score is zero, so the fit is exact iff y = 0. */
  lemma ZeroWeights(X: Matrix, w: Vector, y: Vector)
    requires |y| == |X| && IsMatrix(X, |X|, |w|)
    requires forall i :: 0 <= i < |w| ==> w[i] == 0.0
    ensures MatVec(X, w) == y <==> forall i :: 0 <= i < |y| ==> y[i] == 0.0
  {
    var p := MatVec(X, w);
    forall i | 0 <= i < |X| ensures p[i] == 0.0 {
      DotZeroRight(X[i], w);
    }
  }

  /** With lam = 0 the regularised objective is plain least squares. */
  lemma LeastSquaresL2Unregularised(w: Vector, y: Vector, X: Matrix)
    requires |X| > 0 && |y| == |X| && IsMatrix(X, |X|, |w|)
    ensures LeastSquaresL2Objective(w, y, X, 0.0) == LeastSquaresObjective(w, y, X)
  {
  }

  /** `np.sign(X @ w)`, the `predict` of both `LeastSquares` and
      `LogisticRegression`: one label in {-1, 0, 1} per row, positive exactly
      when the row's score is positive and negative exactly when it is
      negative. */
  function Predict(X: Matrix, w: Vector): (r: Vector)
    requires forall i :: 0 <= i < |X| ==> |X[i]| == |w|
    ensures |r| == |X|
    ensures forall i :: 0 <= i < |X| ==> r[i] == -1.0 || r[i] == 0.0 || r[i] == 1.0
    ensures forall i :: 0 <= i < |X| ==>
      (r[i] > 0.0 <==> Dot(X[i], w) > 0.0) && (r[i] < 0.0 <==> Dot(X[i], w) < 0.0)
  {
    seq(|X|, i requires 0 <= i < |X| => Sign(Dot(X[i], w)))
  }

  /** The objectives as the solvers' callbacks: `function_object` with the
      data bound, defined on every weight vector of dimension d. */
  function LeastSquaresFunObj(y: Vector, X: Matrix, d: nat): (obj: Vector --> Eval)
    requires |X| > 0 && |y| == |X| && IsMatrix(X, |X|, d)
    ensures IsObjective(obj, d)
  {
    (w: Vector) requires |w| == d && |X| > 0 && |y| == |X| && IsMatrix(X, |X|, d) =>
      LeastSquaresObjective(w, y, X)
  }

  function LeastSquaresL2FunObj(y: Vector, X: Matrix, d: nat, lam: real): (obj: Vector --> Eval)
    requires |X| > 0 && |y| == |X| && IsMatrix(X, |X|, d)
    ensures IsObjective(obj, d)
  {
    (w: Vector) requires |w| == d && |X| > 0 && |y| == |X| && IsMatrix(X, |X|, d) =>
      LeastSquaresL2Objective(w, y, X, lam)
  }

  // ---------------------------------------------------------------------
  // AlternativePCA

  /** `R = np.dot(Z, W) - X` for `Z = z.reshape(n, k)`, `W = w.reshape(k, d)`. */
  function PcaResidual(z: Vector, w: Vector, X: Matrix, d: nat, k: nat): (R: Matrix)
    requires IsMatrix(X, |X|, d) && |z| == |X| * k && |w| == k * d
    ensures IsMatrix(R, |X|, d)
  {
    MatSub(MatMul(Reshape(z, |X|, k), Reshape(w, k, d), k, d), X, d)
  }

  /** The PCA loss `np.sum(R ** 2) / 2` is never negative and zero exactly
      when `Z W` reproduces X. */
  lemma PcaLoss(z: Vector, w: Vector, X: Matrix, d: nat, k: nat)
    requires IsMatrix(X, |X|, d) && |z| == |X| * k && |w| == k * d
    ensures SumSquares(PcaResidual(z, w, X, d, k)) / 2.0 >= 0.0
    ensures SumSquares(PcaResidual(z, w, X, d, k)) / 2.0 == 0.0
        <==> MatMul(Reshape(z, |X|, k), Reshape(w, k, d), k, d) == X
  {
    ResidualZero(MatMul(Reshape(z, |X|, k), Reshape(w, k, d), k, d), X, d);
  }

  /** `AlternativePCA._fun_obj_z`: the loss and the flattened gradient
      `R @ W.T` with respect to z, one entry per entry of z. */
  function FunObjZ(z: Vector, w: Vector, X: Matrix, d: nat, k: nat): (r: Eval)
    requires IsMatrix(X, |X|, d) && |z| == |X| * k && |w| == k * d
    ensures r.f.Finite? && r.f.value >= 0.0
    ensures r.f.value == 0.0 <==> MatMul(Reshape(z, |X|, k), Reshape(w, k, d), k, d) == X
    ensures |r.g| == |z|
  {
    var R := PcaResidual(z, w, X, d, k);
    var G := MatMul(R, Transpose(Reshape(w, k, d), d), d, k);
    PcaLoss(z, w, X, d, k);
    FlattenLength(G, |X|, k);
    Eval(Finite(SumSquares(R) / 2.0), Flatten(G))
  }

  /** `AlternativePCA._fun_obj_w`: the same loss and the flattened gradient
      `Z.T @ R` with respect to w, one entry per entry of w. */
  function FunObjW(w: Vector, z: Vector, X: Matrix, d: nat, k: nat): (r: Eval)
    requires IsMatrix(X, |X|, d) && |z| == |X| * k && |w| == k * d
    ensures r.f.Finite? && r.f.value >= 0.0
    ensures r.f.value == 0.0 <==> MatMul(Reshape(z, |X|, k), Reshape(w, k, d), k, d) == X
    ensures |r.g| == |w|
  {
    var R := PcaResidual(z, w, X, d, k);
    var G := MatMul(Transpose(Reshape(z, |X|, k), k), R, |X|, d);
    PcaLoss(z, w, X, d, k);
    FlattenLength(G, k, d);
    Eval(Finite(SumSquares(R) / 2.0), Flatten(G))
  }

  /** Both alternating objectives measure the same loss at the same (z, w),
      so the outer loop of `AlternativePCA.fit` descends one function. */
  lemma PcaSameLoss(z: Vector, w: Vector, X: Matrix, d: nat, k: nat)
    requires IsMatrix(X, |X|, d) && |z| == |X| * k && |w| == k * d
    ensures FunObjZ(z, w, X, d, k).f == FunObjW(w, z, X, d, k).f
  {
  }

  /** The gradients reshape to the matrices numpy computes before
      flattening: an n-by-k matrix for z and a k-by-d matrix for w. */
  lemma PcaGradientShapes(z: Vector, w: Vector, X: Matrix, d: nat, k: nat)
    requires IsMatrix(X, |X|, d) && |z| == |X| * k && |w| == k * d
    ensures Reshape(FunObjZ(z, w, X, d, k).g, |X|, k)
      == MatMul(PcaResidual(z, w, X, d, k), Transpose(Reshape(w, k, d), d), d, k)
    ensures Reshape(FunObjW(w, z, X, d, k).g, k, d)
      == MatMul(Transpose(Reshape(z, |X|, k), k), PcaResidual(z, w, X, d, k), |X|, d)
  {
    ReshapeFlatten(MatMul(PcaResidual(z, w, X, d, k), Transpose(Reshape(w, k, d), d), d, k), |X|, k);
    ReshapeFlatten(MatMul(Transpose(Reshape(z, |X|, k), k), PcaResidual(z, w, X, d, k), |X|, d), k, d);
  }

  /** `_fun_obj_z` with w and X bound, as `AlternativePCA.fit` and
      `compress` pass it to `gradient_descent`. */
  function FunObjZCallback(w: Vector, X: Matrix, d: nat, k: nat): (obj: Vector --> Eval)
    requires IsMatrix(X, |X|, d) && |w| == k * d
    ensures IsObjective(obj, |X| * k)
  {
    (z: Vector) requires |z| == |X| * k && IsMatrix(X, |X|, d) && |w| == k * d =>
      FunObjZ(z, w, X, d, k)
  }

  /** `_fun_obj_w` with z and X bound. */
  function FunObjWCallback(z: Vector, X: Matrix, d: nat, k: nat): (obj: Vector --> Eval)
    requires IsMatrix(X, |X|, d) && |z| == |X| * k
    ensures IsObjective(obj, k * d)
  {
    (w: Vector) requires |w| == k * d && IsMatrix(X, |X|, d) && |z| == |X| * k =>
      FunObjW(w, z, X, d, k)
  }
}
