/** Real vectors and the numpy primitives the solvers share: dot product,
    elementwise arithmetic, absolute value, sign and the infinity norm.
    Floating point is idealised to Dafny's unbounded `real`. */
module Vectors {

  type Vector = seq<real>

  function Abs(x: real): (r: real)
    ensures r >= 0.0 && (r == x || r == -x)
  {
    if x < 0.0 then -x else x
  }

  function Max(a: real, b: real): (r: real)
    ensures r >= a && r >= b && (r == a || r == b)
  {
    if a < b then b else a
  }

  /** `np.sign`: -1, 0 or 1, with sign(0) = 0. */
  function Sign(x: real): (r: real)
    ensures r == -1.0 || r == 0.0 || r == 1.0
    ensures (r > 0.0 <==> x > 0.0) && (r < 0.0 <==> x < 0.0)
    ensures r * Abs(x) == x
  {
    if x > 0.0 then 1.0 else if x < 0.0 then -1.0 else 0.0
  }

  /** `10 ** k` */
  function Pow10(k: nat): (r: real)
    ensures r >= 1.0
  {
    if k == 0 then 1.0 else 10.0 * Pow10(k - 1)
  }

  /** `2 ** k` */
  function Pow2(k: nat): (r: real)
    ensures r >= 1.0
  {
    if k == 0 then 1.0 else 2.0 * Pow2(k - 1)
  }

  function Add(a: Vector, b: Vector): (r: Vector)
    requires |a| == |b|
    ensures |r| == |a| && forall i :: 0 <= i < |a| ==> r[i] == a[i] + b[i]
  {
    seq(|a|, i requires 0 <= i < |a| => a[i] + b[i])
  }

  function Sub(a: Vector, b: Vector): (r: Vector)
    requires |a| == |b|
    ensures |r| == |a| && forall i :: 0 <= i < |a| ==> r[i] == a[i] - b[i]
  {
    seq(|a|, i requires 0 <= i < |a| => a[i] - b[i])
  }

  function Scale(c: real, a: Vector): (r: Vector)
    ensures |r| == |a| && forall i :: 0 <= i < |a| ==> r[i] == c * a[i]
  {
    seq(|a|, i requires 0 <= i < |a| => c * a[i])
  }

  /** `a.dot(b)` */
  function Dot(a: Vector, b: Vector): real
    requires |a| == |b|
  {
    if |a| == 0 then 0.0 else a[0] * b[0] + Dot(a[1..], b[1..])
  }

  /** `np.sum(np.abs(v))` */
  function SumAbs(v: Vector): (r: real)
    ensures r >= 0.0
  {
    if |v| == 0 then 0.0 else Abs(v[0]) + SumAbs(v[1..])
  }

  /** `np.linalg.norm(v, float('inf'))`; numpy raises on an empty vector. */
  function NormInf(v: Vector): (r: real)
    requires |v| > 0
    ensures r >= 0.0
    ensures forall i :: 0 <= i < |v| ==> Abs(v[i]) <= r
  {
    if |v| == 1 then Abs(v[0])
    else
      var rest := NormInf(v[1..]);
      assert forall i :: 1 <= i < |v| ==> v[i] == v[1..][i - 1];
      Max(Abs(v[0]), rest)
  }

  /** The infinity norm is attained: it is the magnitude of some entry. */
  lemma {:induction false} NormInfAttained(v: Vector)
    requires |v| > 0
    ensures exists i :: 0 <= i < |v| && Abs(v[i]) == NormInf(v)
  {
    if |v| == 1 || Abs(v[0]) >= NormInf(v[1..]) {
      assert Abs(v[0]) == NormInf(v);
    } else {
      NormInfAttained(v[1..]);
      var i :| 0 <= i < |v[1..]| && Abs(v[1..][i]) == NormInf(v[1..]);
      assert Abs(v[i + 1]) == NormInf(v);
    }
  }

  lemma SquarePositive(x: real)
    ensures x * x >= 0.0
    ensures x != 0.0 ==> x * x > 0.0
  {
    if x < 0.0 {
      var y := -x;
      assert y * y > 0.0 * y;
      assert x * x == y * y;
    } else if x > 0.0 {
      assert x * x > 0.0 * x;
    }
  }

  /** A vector dotted with itself is a sum of squares: it is never negative,
      and it is zero exactly for the zero vector. */
  lemma DotSelf(v: Vector)
    ensures Dot(v, v) >= 0.0
    ensures Dot(v, v) == 0.0 <==> forall i :: 0 <= i < |v| ==> v[i] == 0.0
  {
    DotSelfNonnegative(v);
    if exists i :: 0 <= i < |v| && v[i] != 0.0 {
      var i :| 0 <= i < |v| && v[i] != 0.0;
      DotSelfPositive(v, i);
    } else if |v| > 0 {
      ZeroDot(v);
    }
  }

  lemma {:induction false} DotSelfNonnegative(v: Vector)
    ensures Dot(v, v) >= 0.0
  {
    if |v| > 0 {
      DotSelfNonnegative(v[1..]);
      SquarePositive(v[0]);
    }
  }

  lemma {:induction false} ZeroDot(v: Vector)
    requires forall i :: 0 <= i < |v| ==> v[i] == 0.0
    ensures Dot(v, v) == 0.0
  {
    if |v| > 0 {
      assert forall i :: 0 <= i < |v[1..]| ==> v[1..][i] == v[i + 1];
      ZeroDot(v[1..]);
    }
  }

  lemma HeadSquarePositive(v: Vector)
    requires |v| > 0 && v[0] != 0.0
    ensures v[0] * v[0] > 0.0
  {
    SquarePositive(v[0]);
  }

  /** One non-zero entry makes the sum of squares strictly positive. */
  lemma {:induction false} DotSelfPositive(v: Vector, k: nat)
    requires k < |v| && v[k] != 0.0
    ensures Dot(v, v) > 0.0
  {
    DotSelfNonnegative(v[1..]);
    if k > 0 {
      SquarePositive(v[0]);
      assert v[1..][k - 1] == v[k];
      DotSelfPositive(v[1..], k - 1);
    } else {
      calc {
        Dot(v, v);
        == v[0] * v[0] + Dot(v[1..], v[1..]);
        >= v[0] * v[0];
        > { HeadSquarePositive(v); }
        0.0;
      }
    }
  }

  /** The dot product is symmetric. */
  lemma {:induction false} DotComm(a: Vector, b: Vector)
    requires |a| == |b|
    ensures Dot(a, b) == Dot(b, a)
  {
    if |a| > 0 {
      DotComm(a[1..], b[1..]);
    }
  }

  /** Dot distributes over a difference in its second argument. */
  lemma {:induction false} DotSub(a: Vector, b: Vector, c: Vector)
    requires |a| == |b| == |c|
    ensures Dot(a, Sub(b, c)) == Dot(a, b) - Dot(a, c)
  {
    if |a| > 0 {
      assert Sub(b, c)[1..] == Sub(b[1..], c[1..]);
      DotSub(a[1..], b[1..], c[1..]);
    }
  }

  /** Any vector dotted with the zero vector gives zero. */
  lemma {:induction false} DotZeroRight(a: Vector, z: Vector)
    requires |a| == |z| && forall i :: 0 <= i < |z| ==> z[i] == 0.0
    ensures Dot(a, z) == 0.0
  {
    if |a| > 0 {
      assert forall i :: 0 <= i < |z| - 1 ==> z[1..][i] == z[i + 1];
      DotZeroRight(a[1..], z[1..]);
    }
  }

  /** Stepping from w along a zero direction leaves w unchanged. */
  lemma ZeroStep(w: Vector, c: real, g: Vector)
    requires |w| == |g| && forall i :: 0 <= i < |g| ==> g[i] == 0.0
    ensures Sub(w, Scale(c, g)) == w
  {
  }
}
