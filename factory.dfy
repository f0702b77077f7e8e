/**
 * The factory functions (CoordinateFactory.kt), the only way the library
 * builds a coordinate. An omitted datum (`None`) defaults to JGD.
 */
module Factory {
  import opened Outcomes
  import opened Datums
  import opened Numerics
  import opened Series
  import opened Coordinates

  /** `xy`: stores the plane position and the datum unchanged. */
  function Xy(x: real, y: real, datum: Option<Datum>): (c: Coordinate)
    ensures c.x == x && c.y == y
    ensures c.datum == datum.GetOr(JGD)
  {
    Coordinate(x, y, datum.GetOr(JGD))
  }

  /** `polar`: the plane point at distance `radial` and angle `theta`. */
  function Polar(radial: real, theta: real, datum: Option<Datum>, lib: Library): (c: Coordinate)
    ensures c.x == radial * lib.cos(theta) && c.y == radial * lib.sin(theta)
    ensures c.datum == datum.GetOr(JGD)
  {
    Coordinate(radial * lib.cos(theta), radial * lib.sin(theta), datum.GetOr(JGD))
  }

  /** With a Euclidean `hypot` and sin² + cos² = 1, a polar point keeps its radius. */
  lemma PolarKeepsRadius(radial: real, theta: real, datum: Option<Datum>, lib: Library)
    requires radial >= 0.0
    requires lib.HypotIsEuclidean() && lib.Pythagorean()
    ensures Radial(Polar(radial, theta, datum, lib), lib) == radial
  {
    var c := Polar(radial, theta, datum, lib);
    var r := Radial(c, lib);
    var s, k := lib.sin(theta), lib.cos(theta);
    assert s * s + k * k == 1.0;
    calc {
      r * r;
      (radial * k) * (radial * k) + (radial * s) * (radial * s);
      radial * radial * (k * k + s * s);
      radial * radial;
    }
    NonNegativeRootsAgree(r, radial);
  }

  /** Omitting the datum of `xy` or `polar` gives JGD (for `latlng`, see LatLng). */
  lemma FactoriesDefaultToJgd(x: real, y: real, lib: Library)
    ensures Xy(x, y, None).datum == JGD
    ensures Polar(x, y, None, lib).datum == JGD
  {
  }

  /**
   * The conformal-sphere position (ξ', η') of a geodetic point relative to
   * `datum`, before Krüger's correction: ξ = sinh(atanh(sin φ) − e·atanh(e·sin φ)),
   * η = λ − λ₀, ξ' = atan2(ξ, cos η), η' = atanh(sin η / sqrt(1 + ξ²)).
   */
  function Conformal(latitude: real, longitude: real, datum: Datum, lib: Library): (real, real) {
    var s := lib.sin(lib.rad(latitude));
    var xi := lib.sinh(lib.atanh(s) - lib.eccentricity * lib.atanh(lib.eccentricity * s));
    var eta := lib.rad(longitude) - lib.rad(datum.longitude);
    assert lib.sqrt(1.0 + lib.square(xi)) > 0.0;
    (lib.atan2(xi, lib.cos(eta)), lib.atanh(lib.sin(eta) / lib.sqrt(1.0 + lib.square(xi))))
  }

  /**
   * Krüger's correction and the final scaling of the forward map: the
   * conformal coordinates plus their series, scaled by ZETA, with x shifted
   * by the meridian arc of the datum's latitude.
   */
  function Corrected(xiDash: real, etaDash: real, datum: Datum, lib: Library): (c: Coordinate)
    ensures c.datum == datum
  {
    Coordinate(
      lib.zeta * Accumulate(lib, xiDash, lib.alpha, SinCosh, xiDash, etaDash) - lib.meridian(lib.rad(datum.latitude)),
      lib.zeta * Accumulate(lib, etaDash, lib.alpha, CosSinh, xiDash, etaDash),
      datum)
  }

  /**
   * The closed form of the correction: with s = 2(i + 1),
   * x = ZETA·(ξ' + Σ αᵢ sin(sξ')cosh(sη')) − meridian(rad(datum latitude)) and
   * y = ZETA·(η' + Σ αᵢ cos(sξ')sinh(sη')).
   */
  lemma CorrectedClosedForm(xiDash: real, etaDash: real, datum: Datum, lib: Library)
    ensures Corrected(xiDash, etaDash, datum, lib).x
         == lib.zeta * (xiDash + Sigma(lib, lib.alpha, SinCosh, xiDash, etaDash, 0)) - lib.meridian(lib.rad(datum.latitude))
    ensures Corrected(xiDash, etaDash, datum, lib).y
         == lib.zeta * (etaDash + Sigma(lib, lib.alpha, CosSinh, xiDash, etaDash, 0))
  {
    AccumulateIsSigma(lib, xiDash, lib.alpha, SinCosh, xiDash, etaDash);
    AccumulateIsSigma(lib, etaDash, lib.alpha, CosSinh, xiDash, etaDash);
    ScaleEqual(lib.zeta, Accumulate(lib, xiDash, lib.alpha, SinCosh, xiDash, etaDash),
      xiDash + Sigma(lib, lib.alpha, SinCosh, xiDash, etaDash, 0));
    ScaleEqual(lib.zeta, Accumulate(lib, etaDash, lib.alpha, CosSinh, xiDash, etaDash),
      etaDash + Sigma(lib, lib.alpha, CosSinh, xiDash, etaDash, 0));
  }

  /** Scaling the fully accumulated values is the correction step. */
  lemma ScalingCompletesCorrection(xiDash: real, etaDash: real, datum: Datum, lib: Library, x: real, y: real)
    requires x == Accumulate(lib, xiDash, lib.alpha, SinCosh, xiDash, etaDash)
    requires y == Accumulate(lib, etaDash, lib.alpha, CosSinh, xiDash, etaDash)
    ensures Corrected(xiDash, etaDash, datum, lib)
         == Coordinate(lib.zeta * x - lib.meridian(lib.rad(datum.latitude)), lib.zeta * y, datum)
  {
    var ax := Accumulate(lib, xiDash, lib.alpha, SinCosh, xiDash, etaDash);
    var ay := Accumulate(lib, etaDash, lib.alpha, CosSinh, xiDash, etaDash);
    ScaleEqual(lib.zeta, x, ax);
    ScaleEqual(lib.zeta, y, ay);
    assert Corrected(xiDash, etaDash, datum, lib)
        == Coordinate(lib.zeta * ax - lib.meridian(lib.rad(datum.latitude)), lib.zeta * ay, datum);
  }

  /**
   * The forward Gauss–Krüger map `latlng`, as a value: the corrected and
   * scaled conformal coordinates of the point, relative to `datum`.
   */
  function GaussKruger(latitude: real, longitude: real, datum: Datum, lib: Library): (c: Coordinate)
    ensures c.datum == datum
  {
    var conformal := Conformal(latitude, longitude, datum, lib);
    Corrected(conformal.0, conformal.1, datum, lib)
  }

  /**
   * `latlng`: the forward projection as the library runs it, updating the
   * running (x, y) once per ALPHA coefficient and scaling at the end.
   */
  method LatLng(latitude: real, longitude: real, datum: Option<Datum>, lib: Library) returns (c: Coordinate)
    ensures c == GaussKruger(latitude, longitude, datum.GetOr(JGD), lib)
    ensures c.datum == datum.GetOr(JGD)
  {
    var d := datum.GetOr(JGD);
    var conformal := Conformal(latitude, longitude, d, lib);
    var xiDash, etaDash := conformal.0, conformal.1;
    var x, y := xiDash, etaDash;
    var i := 0;
    while i < |lib.alpha|
      invariant 0 <= i <= |lib.alpha|
      invariant x == Accumulate(lib, xiDash, lib.alpha[..i], SinCosh, xiDash, etaDash)
      invariant y == Accumulate(lib, etaDash, lib.alpha[..i], CosSinh, xiDash, etaDash)
    {
      var s := Multiplier(i);
      AccumulateStep(lib, xiDash, lib.alpha, SinCosh, xiDash, etaDash, i);
      AccumulateStep(lib, etaDash, lib.alpha, CosSinh, xiDash, etaDash, i);
      // the two updates are d·sin(sξ')·cosh(sη') and d·cos(sξ')·sinh(sη')
      x := x + SinCosh.Term(lib, lib.alpha[i], s, xiDash, etaDash);
      y := y + CosSinh.Term(lib, lib.alpha[i], s, xiDash, etaDash);
      i := i + 1;
    }
    assert lib.alpha[..i] == lib.alpha;
    ScalingCompletesCorrection(xiDash, etaDash, d, lib, x, y);
    c := Coordinate(lib.zeta * x - lib.meridian(lib.rad(d.latitude)), lib.zeta * y, d);
  }
}
