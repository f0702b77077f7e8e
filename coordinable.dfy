/**
 * The default operations of the coordinate capability (Coordinable.kt):
 * aligning to another coordinate's datum, distance, and the line through two
 * points. Each first re-expresses the other point in this point's datum.
 */
module Coordinable {
  import opened Outcomes
  import opened Datums
  import opened Numerics
  import opened Coordinates
  import opened Factory
  import opened CoordinateMethods

  /** `to(that)`: align `c` to the datum of `that`. */
  function ToDatumOf(c: Coordinate, that: Coordinate, lib: Library): (r: Coordinate)
    ensures r == To(c, that.datum, lib)
    ensures r.datum == that.datum
    ensures c.datum == that.datum ==> r == c
  {
    To(c, that.datum, lib)
  }

  /**
   * `between`: with a Euclidean `hypot`, the non-negative distance from `a`
   * to `b` once `b` is aligned to `a`'s datum.
   */
  function Between(a: Coordinate, b: Coordinate, lib: Library): (r: real)
    ensures var it := To(b, a.datum, lib);
      lib.HypotIsEuclidean() ==>
        r >= 0.0 && r * r == (a.x - it.x) * (a.x - it.x) + (a.y - it.y) * (a.y - it.y)
  {
    var it := ToDatumOf(b, a, lib);
    lib.hypot(a.x - it.x, a.y - it.y)
  }

  /**
   * `line`: slope and intercept (first, second) of the straight line through
   * `a` and `b` aligned to `a`'s datum; both points lie on it.
   */
  function Line(a: Coordinate, b: Coordinate, lib: Library): (r: (real, real))
    requires To(b, a.datum, lib).x != a.x
    ensures var it := To(b, a.datum, lib);
      a.y == r.0 * a.x + r.1 && it.y == r.0 * it.x + r.1
  {
    var it := ToDatumOf(b, a, lib);
    var p := (it.y - a.y) / (it.x - a.x);
    (p, -p * a.x + a.y)
  }

  /** Any line through both points is the one `line` returns. */
  lemma LineIsUnique(a: Coordinate, b: Coordinate, lib: Library, slope: real, intercept: real)
    requires To(b, a.datum, lib).x != a.x
    requires var it := To(b, a.datum, lib);
      a.y == slope * a.x + intercept && it.y == slope * it.x + intercept
    ensures Line(a, b, lib) == (slope, intercept)
  {
    var it := To(b, a.datum, lib);
    var r := Line(a, b, lib);
    LineThroughTwoPoints(a.x, a.y, it.x, it.y, r.0, r.1, slope, intercept);
  }

  /** Within one datum the line through two points does not depend on their order. */
  lemma LineIsSymmetricWithinDatum(a: Coordinate, b: Coordinate, lib: Library)
    requires a.datum == b.datum && a.x != b.x
    ensures Line(a, b, lib) == Line(b, a, lib)
  {
    var r := Line(b, a, lib);
    LineIsUnique(a, b, lib, r.0, r.1);
  }

  /** The line through (3, 0) and (11, 6) in the default datum, either way round. */
  lemma LineExample(lib: Library)
    ensures Line(Xy(3.0, 0.0, None), Xy(11.0, 6.0, None), lib) == (0.75, -2.25)
    ensures Line(Xy(11.0, 6.0, None), Xy(3.0, 0.0, None), lib) == (0.75, -2.25)
  {
    LineIsUnique(Xy(3.0, 0.0, None), Xy(11.0, 6.0, None), lib, 0.75, -2.25);
    LineIsUnique(Xy(11.0, 6.0, None), Xy(3.0, 0.0, None), lib, 0.75, -2.25);
  }

  /** A point is at distance zero from itself. */
  lemma BetweenSelfIsZero(c: Coordinate, lib: Library)
    requires lib.HypotIsEuclidean()
    ensures Between(c, c, lib) == 0.0
  {
    var r := Between(c, c, lib);
    NonNegativeRootsAgree(r, 0.0);
  }

  /** Within one datum, distance is symmetric. */
  lemma BetweenIsSymmetricWithinDatum(a: Coordinate, b: Coordinate, lib: Library)
    requires lib.HypotIsEuclidean()
    requires a.datum == b.datum
    ensures Between(a, b, lib) == Between(b, a, lib)
  {
    DistanceIsSymmetric(Between(a, b, lib), Between(b, a, lib), a.x, a.y, b.x, b.y);
  }

  /** From (0, 0) to (10, 10) in one datum the distance is √200. */
  lemma BetweenExample(datum: Datum, lib: Library)
    requires lib.HypotIsEuclidean()
    ensures var r := Between(Xy(0.0, 0.0, Some(datum)), Xy(10.0, 10.0, Some(datum)), lib);
      r >= 0.0 && r * r == 200.0
  {
  }
}
