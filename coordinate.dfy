/**
 * The coordinate value (Coordinate.kt): the canonical triple (x, y, datum)
 * and the representations derived from it. Equality is that of the triple;
 * the derived values are functions of it and take no part in equality.
 */
module Coordinates {
  import opened Datums
  import opened Numerics

  /** Plane position in metres relative to `datum`. */
  datatype Coordinate = Coordinate(x: real, y: real, datum: Datum)

  /** Polar radius, `hypot(x, y)`: the distance of the point from the origin. */
  function Radial(c: Coordinate, lib: Library): (r: real)
    ensures lib.HypotIsEuclidean() ==> r >= 0.0 && r * r == c.x * c.x + c.y * c.y
  {
    lib.hypot(c.x, c.y)
  }

  /** Polar angle, `atan2(y, x)`. */
  function Theta(c: Coordinate, lib: Library): real {
    lib.atan2(c.y, c.x)
  }

  /** Geodetic latitude by the inverse projection. */
  function Latitude(c: Coordinate, lib: Library): real {
    lib.latitude(c.x, c.y, c.datum)
  }

  /** Geodetic longitude by the inverse projection. */
  function Longitude(c: Coordinate, lib: Library): real {
    lib.longitude(c.x, c.y, c.datum)
  }

  /**
   * Two coordinates are equal exactly when their triples are, and equal
   * coordinates agree on every derived representation.
   */
  lemma EqualityIsOverTriple(a: Coordinate, b: Coordinate, lib: Library)
    ensures a == b <==> a.x == b.x && a.y == b.y && a.datum == b.datum
    ensures a == b ==> Radial(a, lib) == Radial(b, lib) && Theta(a, lib) == Theta(b, lib)
    ensures a == b ==> Latitude(a, lib) == Latitude(b, lib) && Longitude(a, lib) == Longitude(b, lib)
  {
  }
}
