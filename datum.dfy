/**
 * The projection origin (Datum.kt): an immutable (latitude, longitude) pair in
 * degrees whose construction rejects values outside the closed ranges
 * [-90, 90] and [-180, 180], checking latitude first.
 */
module Datums {
  import opened Outcomes

  /** A (latitude, longitude) pair in degrees, before any validation. */
  datatype Origin = Origin(latitude: real, longitude: real) {

    predicate LatitudeInRange() {
      -90.0 <= latitude <= 90.0
    }

    predicate LongitudeInRange() {
      -180.0 <= longitude <= 180.0
    }
  }

  /** A datum: an origin that passed both range checks of the constructor. */
  type Datum = o: Origin | o.LatitudeInRange() && o.LongitudeInRange()
    witness Origin(0.0, 0.0)

  /** The field a failed construction names. */
  datatype Field = LatitudeField | LongitudeField

  /** The failed `require`: the offending field and the value it was given. */
  datatype RangeViolation = RangeViolation(field: Field, value: real)

  /** The Japanese geodetic origin, the default datum of the whole library. */
  const JGD: Datum := Origin(35.65809922222222, 139.7413574722222)

  /**
   * The `Datum` constructor. An omitted argument (`None`) takes the
   * corresponding field of `JGD`. Succeeds exactly when both values are in
   * range; otherwise reports latitude whenever latitude is out of range, and
   * longitude only when latitude is fine.
   */
  function New(latitude: Option<real>, longitude: Option<real>): (r: Result<Datum, RangeViolation>)
    ensures var o := Origin(latitude.GetOr(JGD.latitude), longitude.GetOr(JGD.longitude));
      && (r.Success? <==> o.LatitudeInRange() && o.LongitudeInRange())
      && (r.Success? ==> r.value == o)
      && (r.Failure? ==> (r.error.field == LatitudeField <==> !o.LatitudeInRange()))
      && (r.Failure? ==> r.error.value == if r.error.field == LatitudeField then o.latitude else o.longitude)
  {
    var o := Origin(latitude.GetOr(JGD.latitude), longitude.GetOr(JGD.longitude));
    if !o.LatitudeInRange() then
      Failure(RangeViolation(LatitudeField, o.latitude))
    else if !o.LongitudeInRange() then
      Failure(RangeViolation(LongitudeField, o.longitude))
    else
      Success(o)
  }

  /** The bounds are inclusive: ±90 and ±180 pass, one degree beyond fails. */
  lemma BoundsAreInclusive()
    ensures New(Some(-90.0), Some(0.0)) == Success(Origin(-90.0, 0.0))
    ensures New(Some(90.0), Some(0.0)) == Success(Origin(90.0, 0.0))
    ensures New(Some(0.0), Some(-180.0)) == Success(Origin(0.0, -180.0))
    ensures New(Some(0.0), Some(180.0)) == Success(Origin(0.0, 180.0))
    ensures New(Some(-91.0), Some(0.0)) == Failure(RangeViolation(LatitudeField, -91.0))
    ensures New(Some(91.0), Some(0.0)) == Failure(RangeViolation(LatitudeField, 91.0))
    ensures New(Some(0.0), Some(-181.0)) == Failure(RangeViolation(LongitudeField, -181.0))
    ensures New(Some(0.0), Some(181.0)) == Failure(RangeViolation(LongitudeField, 181.0))
  {
  }

  /** When both values are out of range, the latitude is the one reported. */
  lemma LatitudeReportedFirst(latitude: real, longitude: real)
    requires !Origin(latitude, longitude).LatitudeInRange()
    requires !Origin(latitude, longitude).LongitudeInRange()
    ensures New(Some(latitude), Some(longitude)) == Failure(RangeViolation(LatitudeField, latitude))
  {
  }

  /** `Datum()` with no arguments takes both fields of JGD. */
  lemma DefaultIsJgd()
    ensures New(None, None) == Success(JGD)
  {
  }

  /** JGD's own construction passes both checks. */
  lemma JgdIsConstructible()
    ensures New(Some(35.65809922222222), Some(139.7413574722222)) == Success(JGD)
  {
  }

  /** Datum equality is field by field. */
  lemma EqualityIsFieldwise(a: Datum, b: Datum)
    ensures a == b <==> a.latitude == b.latitude && a.longitude == b.longitude
  {
  }
}
