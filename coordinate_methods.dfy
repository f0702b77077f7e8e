/**
 * The operations of a coordinate (Coordinate.kt): re-expressing it against
 * another datum, the copy functions that route through the factories, and
 * datum-aware addition and subtraction. Every operation returns a new value;
 * coordinates are never updated in place.
 */
module CoordinateMethods {
  import opened Outcomes
  import opened Datums
  import opened Numerics
  import opened Coordinates
  import opened Factory

  /**
   * `to(datum)`: the same coordinate when the datum is already `datum`;
   * otherwise its latitude and longitude re-projected against `datum`.
   */
  function To(c: Coordinate, datum: Datum, lib: Library): (r: Coordinate)
    ensures r.datum == datum
    ensures c.datum == datum ==> r == c
    ensures c.datum != datum ==> r == GaussKruger(Latitude(c, lib), Longitude(c, lib), datum, lib)
  {
    if c.datum == datum then c else GaussKruger(Latitude(c, lib), Longitude(c, lib), datum, lib)
  }

  /** Aligning twice to the same datum is aligning once. */
  lemma ToIsIdempotent(c: Coordinate, datum: Datum, lib: Library)
    ensures To(To(c, datum, lib), datum, lib) == To(c, datum, lib)
  {
  }

  /** `copyByXY`: `xy` of the given values, each omitted one taken from `c`. */
  function CopyByXY(c: Coordinate, x: Option<real>, y: Option<real>, datum: Option<Datum>): (r: Coordinate)
    ensures r == Xy(x.GetOr(c.x), y.GetOr(c.y), Some(datum.GetOr(c.datum)))
    ensures x == None && y == None && datum == None ==> r == c
  {
    Xy(x.GetOr(c.x), y.GetOr(c.y), Some(datum.GetOr(c.datum)))
  }

  /** `copyByPolar`: `polar` of the given values, each omitted one taken from `c`. */
  function CopyByPolar(c: Coordinate, radial: Option<real>, theta: Option<real>, datum: Option<Datum>, lib: Library): (r: Coordinate)
    ensures r == Polar(radial.GetOr(Radial(c, lib)), theta.GetOr(Theta(c, lib)), Some(datum.GetOr(c.datum)), lib)
    ensures r.datum == datum.GetOr(c.datum)
  {
    Polar(radial.GetOr(Radial(c, lib)), theta.GetOr(Theta(c, lib)), Some(datum.GetOr(c.datum)), lib)
  }

  /** `copyByLatLng`: `latlng` of the given values, each omitted one taken from `c`. */
  function CopyByLatLng(c: Coordinate, latitude: Option<real>, longitude: Option<real>, datum: Option<Datum>, lib: Library): (r: Coordinate)
    ensures r == GaussKruger(latitude.GetOr(Latitude(c, lib)), longitude.GetOr(Longitude(c, lib)), datum.GetOr(c.datum), lib)
    ensures r.datum == datum.GetOr(c.datum)
  {
    GaussKruger(latitude.GetOr(Latitude(c, lib)), longitude.GetOr(Longitude(c, lib)), datum.GetOr(c.datum), lib)
  }

  /**
   * `plus`: the right operand is first aligned to the left one's datum; the
   * sum is componentwise and keeps the left operand's datum.
   */
  function Plus(a: Coordinate, b: Coordinate, lib: Library): (r: Coordinate)
    ensures r.datum == a.datum
    ensures var aligned := To(b, a.datum, lib); r.x == a.x + aligned.x && r.y == a.y + aligned.y
    ensures a.datum == b.datum ==> r.x == a.x + b.x && r.y == a.y + b.y
  {
    var aligned := To(b, a.datum, lib);
    Xy(a.x + aligned.x, a.y + aligned.y, Some(a.datum))
  }

  /**
   * `minus`: the right operand is first aligned to the left one's datum; the
   * difference is componentwise and keeps the left operand's datum.
   */
  function Minus(a: Coordinate, b: Coordinate, lib: Library): (r: Coordinate)
    ensures r.datum == a.datum
    ensures var aligned := To(b, a.datum, lib); r.x == a.x - aligned.x && r.y == a.y - aligned.y
    ensures a.datum == b.datum ==> r.x == a.x - b.x && r.y == a.y - b.y
  {
    var aligned := To(b, a.datum, lib);
    Xy(a.x - aligned.x, a.y - aligned.y, Some(a.datum))
  }

  /** Within one datum, subtracting what was added gives back the left operand. */
  lemma PlusMinusRoundTrip(a: Coordinate, b: Coordinate, lib: Library)
    requires a.datum == b.datum
    ensures Minus(Plus(a, b, lib), b, lib) == a
  {
  }

  /** Within one datum, addition commutes. */
  lemma PlusCommutesWithinDatum(a: Coordinate, b: Coordinate, lib: Library)
    requires a.datum == b.datum
    ensures Plus(a, b, lib) == Plus(b, a, lib)
  {
  }

  /** A coordinate minus itself is the datum's origin. */
  lemma MinusSelfIsOrigin(a: Coordinate, lib: Library)
    ensures Minus(a, a, lib) == Xy(0.0, 0.0, Some(a.datum))
  {
  }

  /** Sum and difference see the right operand only through its alignment. */
  lemma OperandsSeenAligned(a: Coordinate, b: Coordinate, lib: Library)
    ensures Plus(a, b, lib) == Plus(a, To(b, a.datum, lib), lib)
    ensures Minus(a, b, lib) == Minus(a, To(b, a.datum, lib), lib)
  {
  }
}
