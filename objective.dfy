/** What a solver needs from an objective callback: a loss value and a
    gradient of the same dimension as the point it was evaluated at.

    A loss is a real number or +inf (numpy's `np.inf`, which the smooth line
    search tests for with `np.isinf`). NaN and -inf losses are not
    representable: the solvers' line searches cannot handle them. */
module Objectives {
  import opened Vectors

  datatype Loss = Finite(value: real) | Infinite

  /** `a + c` for a finite shift c, with inf + c = inf. */
  function Shift(a: Loss, c: real): (r: Loss)
    ensures r.Infinite? <==> a.Infinite?
    ensures a.Finite? ==> r.value - a.value == c
  {
    match a
    case Finite(x) => Finite(x + c)
    case Infinite => Infinite
  }

  /** The comparison `a <= b` on losses: everything is at most +inf, and +inf
      is at most nothing finite. */
  predicate AtMost(a: Loss, b: Loss)
  {
    match b
    case Infinite => true
    case Finite(y) => a.Finite? && a.value <= y
  }

  /** `AtMost` is Python's `<=` on floats extended with +inf: reflexive,
      the real order on finite values, and +inf above everything. */
  lemma AtMostCompares(a: Loss, b: Loss)
    ensures AtMost(a, a)
    ensures a.Finite? && b.Finite? ==> (AtMost(a, b) <==> a.value <= b.value)
    ensures a.Infinite? ==> (AtMost(a, b) <==> b.Infinite?)
    ensures b.Infinite? ==> AtMost(a, b)
  {
  }

  lemma AtMostTransitive(a: Loss, b: Loss, c: Loss)
    requires AtMost(a, b) && AtMost(b, c)
    ensures AtMost(a, c)
  {
  }

  /** Lowering the right-hand side by a non-negative amount keeps `<=`. */
  lemma AtMostShift(a: Loss, b: Loss, c: real)
    requires c <= 0.0 && AtMost(a, Shift(b, c))
    ensures AtMost(a, b)
  {
  }

  /** The pair `(f, g)` an objective returns. */
  datatype Eval = Eval(f: Loss, g: Vector)

  /** `obj` accepts every vector of dimension d and returns a gradient of
      dimension d. */
  ghost predicate IsObjective(obj: Vector --> Eval, d: nat)
  {
    forall v: Vector | |v| == d :: obj.requires(v) && |obj(v).g| == d
  }
}
