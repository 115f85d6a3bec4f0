/**
 * Three-component vectors and the linear interpolation that THREE's
 * `Vector3.lerp` and `Color.lerp` perform (`this.x += (v.x - this.x) * alpha`).
 */
module Linear {

  datatype Vec3 = Vec3(x: real, y: real, z: real)

  function Abs(a: real): (r: real)
    ensures 0.0 <= r && (r == a || r == -a)
  {
    if a < 0.0 then -a else a
  }

  /** JavaScript's `Math.max` on two (non-NaN) numbers. */
  function Max(a: real, b: real): (r: real)
    ensures a <= r && b <= r && (r == a || r == b)
  {
    if a < b then b else a
  }

  /** The value `t` of the way from `a` to `b`. */
  function Lerp(a: real, b: real, t: real): (r: real)
    ensures t == 0.0 ==> r == a
    ensures t == 1.0 ==> r == b
    ensures a == b ==> r == a
  {
    a + (b - a) * t
  }

  lemma MulNonNegative(p: real, q: real)
    ensures 0.0 <= p && 0.0 <= q ==> 0.0 <= p * q
  {
  }

  lemma MulPositive(p: real, q: real)
    requires 0.0 < p && 0.0 < q
    ensures 0.0 < p * q
  {
  }

  /** The magnitude of a product is the product of the magnitudes. */
  lemma AbsMul(u: real, d: real)
    ensures Abs(u * d) == Abs(u) * Abs(d)
  {
    if u < 0.0 && d < 0.0 {
      MulNonNegative(-u, -d);
    } else if u < 0.0 {
      MulNonNegative(-u, d);
      assert u * d == -((-u) * d);
    } else if d < 0.0 {
      MulNonNegative(u, -d);
      assert u * d == -(u * -d);
    } else {
      MulNonNegative(u, d);
    }
  }

  /** Multiplying by a factor in [-1, 1] keeps a number within the same bound. */
  lemma ScaleBound(x: real, a: real, bound: real)
    requires -1.0 <= a <= 1.0 && -bound <= x <= bound
    ensures -bound <= x * a <= bound
  {
    var u, w := 1.0 - a, 1.0 + a;
    var p, q := bound - x, bound + x;
    MulNonNegative(p, u);
    MulNonNegative(q, w);
    MulNonNegative(p, w);
    MulNonNegative(q, u);
    assert p * u + q * w == 2.0 * (bound + x * a);
    assert p * w + q * u == 2.0 * (bound - x * a);
  }

  /** A factor in [-1, 1] times a non-negative bound stays within that bound. */
  lemma ScaleWithin(a: real, bound: real)
    ensures -1.0 <= a <= 1.0 && 0.0 <= bound ==> -bound <= a * bound <= bound
  {
    if -1.0 <= a <= 1.0 && 0.0 <= bound {
      ScaleBound(bound, a, bound);
    }
  }

  /** A positive factor keeps the sign of what it multiplies. */
  lemma SignOfScale(x: real, k: real)
    ensures 0.0 < k ==> (0.0 < x * k <==> 0.0 < x) && (x * k < 0.0 <==> x < 0.0)
  {
    if 0.0 < k {
      if 0.0 < x {
        assert 0.0 < x * k;
      } else if x < 0.0 {
        assert 0.0 < (-x) * k;
      } else {
        assert x * k == 0.0;
      }
    }
  }

  /** For a factor in [0, 1] the result lies between the two end points. */
  lemma LerpBetween(a: real, b: real, t: real)
    ensures 0.0 <= t <= 1.0 && a <= b ==> a <= Lerp(a, b, t) <= b
    ensures 0.0 <= t <= 1.0 && b <= a ==> b <= Lerp(a, b, t) <= a
  {
    if 0.0 <= t <= 1.0 {
      var d, u := b - a, 1.0 - t;
      assert Lerp(a, b, t) == a + d * t;
      assert b - Lerp(a, b, t) == d * u;
      if 0.0 <= d {
        assert 0.0 <= d * t && 0.0 <= d * u;
      } else {
        assert d * t <= 0.0 && d * u <= 0.0;
      }
    }
  }

  /**
   * The gap to the target after one step is the old gap times `|1 - t|`:
   * a factor in [0, 2] never moves further away, and a factor above 2
   * overshoots so far that the result is further from the target than the
   * starting point was.
   */
  lemma LerpCloser(a: real, b: real, t: real)
    ensures Abs(b - Lerp(a, b, t)) == Abs(1.0 - t) * Abs(b - a)
    ensures 0.0 <= t <= 2.0 ==> Abs(b - Lerp(a, b, t)) <= Abs(b - a)
    ensures 2.0 < t && a != b ==> Abs(b - a) < Abs(b - Lerp(a, b, t))
  {
    var d, u := b - a, 1.0 - t;
    assert b - Lerp(a, b, t) == u * d;
    AbsMul(u, d);
    var gap := Abs(u) * Abs(d);
    assert Abs(b - Lerp(a, b, t)) == gap;
    if 0.0 <= t <= 2.0 {
      MulNonNegative(1.0 - Abs(u), Abs(d));
      assert (1.0 - Abs(u)) * Abs(d) == Abs(d) - gap;
    }
    if 2.0 < t && a != b {
      var k := Abs(u) - 1.0;
      assert 0.0 < k && 0.0 < Abs(d);
      MulPositive(k, Abs(d));
      assert k * Abs(d) == gap - Abs(d);
    }
  }

  function LerpVec(a: Vec3, b: Vec3, t: real): (r: Vec3)
    ensures a == b ==> r == a
    ensures t == 1.0 ==> r == b
  {
    Vec3(Lerp(a.x, b.x, t), Lerp(a.y, b.y, t), Lerp(a.z, b.z, t))
  }
}
