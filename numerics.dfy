/**
 * The floating-point primitives the library computes with, left
 * uninterpreted: the kotlin.math functions, the degree/radian and square
 * wrappers, the WGS 84 eccentricity, Krüger's forward coefficients, the scale
 * constant and the meridian arc, and the inverse Gauss–Krüger map that a
 * coordinate uses for its latitude and longitude.
 */
module Numerics {
  import opened Datums

  datatype Primitives = Primitives(
    // kotlin.math
    sin: real -> real,
    cos: real -> real,
    sinh: real -> real,
    cosh: real -> real,
    atanh: real -> real,
    atan2: (real, real) -> real,
    hypot: (real, real) -> real,
    sqrt: real -> real,
    // degree-to-radian conversion and squaring
    rad: real -> real,
    square: real -> real,
    // WGS 84 eccentricity, forward series ALPHA, scale ZETA, meridian arc length
    eccentricity: real,
    alpha: seq<real>,
    zeta: real,
    meridian: real -> real,
    // inverse projection: (x, y, datum) to latitude and to longitude, in degrees
    latitude: (real, real, Datum) -> real,
    longitude: (real, real, Datum) -> real
  ) {

    /**
     * What every use of the primitives relies on: the forward series has
     * five coefficients, a square is never negative and the square root of a
     * positive number is positive (so the division in the forward map is
     * defined).
     */
    ghost predicate Lawful() {
      && |alpha| == 5
      && (forall t :: square(t) >= 0.0)
      && (forall t :: t > 0.0 ==> sqrt(t) > 0.0)
    }

    /** `hypot(u, v)` is the non-negative square root of u² + v². */
    ghost predicate HypotIsEuclidean() {
      forall u, v :: hypot(u, v) >= 0.0 && hypot(u, v) * hypot(u, v) == u * u + v * v
    }

    /** sin² + cos² = 1 at every angle. */
    ghost predicate Pythagorean() {
      forall t :: sin(t) * sin(t) + cos(t) * cos(t) == 1.0
    }
  }

  type Library = p: Primitives | p.Lawful()
    witness Primitives(
      t => 0.0, t => 0.0, t => 0.0, t => 0.0, t => 0.0,
      (u, v) => 0.0, (u, v) => 0.0, t => 1.0,
      t => t, t => 0.0,
      0.0, [0.0, 0.0, 0.0, 0.0, 0.0], 1.0, t => 0.0,
      (x, y, d) => 0.0, (x, y, d) => 0.0)

  /** Two non-negative reals with the same square are equal. */
  lemma NonNegativeRootsAgree(r: real, s: real)
    requires r >= 0.0 && s >= 0.0
    requires r * r == s * s
    ensures r == s
  {
    assert (r - s) * (r + s) == r * r - s * s;
    if r + s == 0.0 {
    } else {
      assert r - s == 0.0;
    }
  }

  /** Scaling equal values gives equal results. */
  lemma ScaleEqual(k: real, u: real, v: real)
    requires u == v
    ensures k * u == k * v
  {
  }

  /** Two non-negative lengths of the same segment, measured from either end, agree. */
  lemma DistanceIsSymmetric(r: real, s: real, x1: real, y1: real, x2: real, y2: real)
    requires r >= 0.0 && s >= 0.0
    requires r * r == (x1 - x2) * (x1 - x2) + (y1 - y2) * (y1 - y2)
    requires s * s == (x2 - x1) * (x2 - x1) + (y2 - y1) * (y2 - y1)
    ensures r == s
  {
    assert (x1 - x2) * (x1 - x2) == (x2 - x1) * (x2 - x1);
    assert (y1 - y2) * (y1 - y2) == (y2 - y1) * (y2 - y1);
    NonNegativeRootsAgree(r, s);
  }

  /** Two points with distinct abscissas lie on exactly one line y = p·x + q. */
  lemma LineThroughTwoPoints(x1: real, y1: real, x2: real, y2: real, p: real, q: real, p': real, q': real)
    requires x1 != x2
    requires y1 == p * x1 + q && y2 == p * x2 + q
    requires y1 == p' * x1 + q' && y2 == p' * x2 + q'
    ensures p == p' && q == q'
  {
    assert (p - p') * (x2 - x1) == 0.0;
    assert p == p';
    assert p * x1 == p' * x1;
  }
}
