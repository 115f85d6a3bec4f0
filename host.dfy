/**
 * The host's numeric library (`Math.sin`, `Math.cos`, `Math.sqrt`,
 * `Math.cbrt`, `Math.acos`). Their values are not modelled: callers receive
 * them as function-valued parameters, and the predicates below state the few
 * facts about them that the model relies on.
 */
module Host {

  import opened Linear

  datatype Numerics = Numerics(
    sin: real -> real,
    cos: real -> real,
    sqrt: real -> real,
    cbrt: real -> real,
    acos: real -> real)

  /** `Math.PI` as the double literal JavaScript uses. */
  const Pi: real := 3.141592653589793

  /** The square root of a non-negative number is non-negative. */
  ghost predicate SqrtNonNegative(m: Numerics)
  {
    forall v :: 0.0 <= v ==> 0.0 <= m.sqrt(v)
  }

  /** Sine and cosine stay in [-1, 1]; the cube root maps [0, 1) into [0, 1). */
  ghost predicate UnitBounded(m: Numerics)
  {
    && (forall a :: -1.0 <= m.sin(a) <= 1.0)
    && (forall a :: -1.0 <= m.cos(a) <= 1.0)
    && (forall v :: 0.0 <= v < 1.0 ==> 0.0 <= m.cbrt(v) < 1.0)
  }

  /** Scaling a sine or cosine by a non-negative bound stays within that bound. */
  lemma TrigScale(m: Numerics, a: real, bound: real)
    ensures UnitBounded(m) && 0.0 <= bound ==>
      -bound <= m.sin(a) * bound <= bound && -bound <= m.cos(a) * bound <= bound
  {
    if UnitBounded(m) && 0.0 <= bound {
      ScaleWithin(m.sin(a), bound);
      ScaleWithin(m.cos(a), bound);
    }
  }
}
