# coorkit in Dafny

A verified model of the core of coorkit, a Kotlin library that converts a
position between plane coordinates (x, y), polar coordinates (radial, theta)
and geographic coordinates (latitude, longitude), all relative to a
reference origin called a *datum*. Plane and geographic coordinates are
related by the Gauss–Krüger (transverse Mercator) projection, evaluated with
Krüger's series on the WGS 84 ellipsoid (its defining constants are those of
section 3.2 of NIMA TR8350.2).

The model is exact over Dafny `real`s. It keeps the parts of the library
that are logic rather than numerics:

- `Datums`: the validated `Datum` (a subset type of the raw `Origin` pair),
  its constructor `New` with its two range checks in their fixed order,
  the error it raises (`RangeViolation`: field and value), and the default
  datum `JGD`.
- `Numerics`: the floating-point primitives, as fields of one record
  (`Primitives`) that every operation takes as its last argument `lib`. They
  are sin, cos, sinh, cosh, atanh, atan2, hypot and sqrt; degree-to-radian
  conversion and squaring; the WGS 84 eccentricity, the forward
  coefficients ALPHA, the scale ZETA and the meridian arc; and the inverse
  projection. The subset type `Library` adds the only laws every operation
  relies on: ALPHA has five entries, squares are non-negative, and square
  roots of positive numbers are positive. Two more laws are never assumed
  globally: `HypotIsEuclidean` is the premise of the contracts of
  `Coordinates.Radial` and `Coordinable.Between` and a requires of the
  distance and radius lemmas; `Pythagorean` is used only by
  `Factory.PolarKeepsRadius`.
- `Series`: the correction loop of the forward map. `Accumulate` is the
  running value in the order the source adds terms. `Sigma` is the series
  summed independently from its first term. They are proved equal.
- `Coordinates`: the canonical triple `Coordinate(x, y, datum)` and the
  values derived from it.
- `Factory`: `xy`, `polar` and `latlng`. `latlng` appears twice: as the
  function `GaussKruger` and as the method `LatLng`, which runs the
  source's loop over ALPHA and is proved equal to the function.
- `CoordinateMethods`: `to(datum)`, `copyByXY`/`copyByPolar`/`copyByLatLng`,
  `plus` and `minus`.
- `Coordinable`: the default methods `to(coordinate)`, `between` and `line`.

Kotlin default arguments are modelled as `Option` parameters: `None` means
the caller left the argument out. The defaults of the `copyBy*` methods are
declared in src/main/kotlin/io/hapix/coorkit/Coordinable.kt:92-108. Coordinates are values, so no operation
can change its operands.

## Model

| member | source | states |
|---|---|---|
| `Datums.New` | src/main/kotlin/io/hapix/coorkit/Datum.kt:11-35 | construction succeeds iff -90 ≤ latitude ≤ 90 and -180 ≤ longitude ≤ 180, and then holds exactly those values; a failure names latitude iff latitude is out of range (so latitude wins when both are) and carries the offending value; omitted arguments take JGD's fields |
| `Datums.BoundsAreInclusive` | src/main/kotlin/io/hapix/coorkit/Datum.kt:29-34 | ±90 and ±180 are accepted; ±91 and ±181 are rejected with the matching field and value |
| `Datums.LatitudeReportedFirst` | src/main/kotlin/io/hapix/coorkit/Datum.kt:29-34 | when both values are out of range, the latitude error is reported |
| `Datums.DefaultIsJgd` | src/main/kotlin/io/hapix/coorkit/Datum.kt:18-25 | `Datum()` with no arguments is JGD |
| `Datums.JgdIsConstructible` | src/main/kotlin/io/hapix/coorkit/Datum.kt:44-47 | building JGD from its literal latitude and longitude never fails |
| `Datums.EqualityIsFieldwise` | src/main/kotlin/io/hapix/coorkit/Datum.kt:11 | two datums are equal iff their latitudes and longitudes are equal |
| `Series.AccumulateStep` | src/main/kotlin/io/hapix/coorkit/CoordinateFactory.kt:57-61 | one loop step adds exactly the term of coefficient i, with multiplier s = 2(i + 1) |
| `Series.SigmaSnoc` | src/main/kotlin/io/hapix/coorkit/CoordinateFactory.kt:57-61 | appending a coefficient to the table adds exactly its own term to the series |
| `Series.AccumulateIsSigma` | src/main/kotlin/io/hapix/coorkit/CoordinateFactory.kt:56-61 | adding the terms one by one in index order ends at the start value plus the whole series Σ αᵢ·h(2(i + 1)) |
| `Coordinates.Radial` | src/main/kotlin/io/hapix/coorkit/Coordinate.kt:25-27 | with a Euclidean hypot, the radius is non-negative and its square is x² + y² |
| `Coordinates.EqualityIsOverTriple` | src/main/kotlin/io/hapix/coorkit/Coordinate.kt:19-23 | coordinates are equal iff x, y and datum are equal, and equal coordinates agree on radial, theta, latitude and longitude |
| `Factory.Xy` | src/main/kotlin/io/hapix/coorkit/CoordinateFactory.kt:21-23 | stores x, y and the datum unchanged; an omitted datum is JGD |
| `Factory.Polar` | src/main/kotlin/io/hapix/coorkit/CoordinateFactory.kt:35-37 | x = r·cos θ and y = r·sin θ, with the given datum (JGD when omitted) |
| `Factory.PolarKeepsRadius` | src/main/kotlin/io/hapix/coorkit/CoordinateFactory.kt:35-37 | with a Euclidean hypot and sin² + cos² = 1, a point built by `polar` from radius r ≥ 0 has radius r |
| `Factory.FactoriesDefaultToJgd` | src/main/kotlin/io/hapix/coorkit/CoordinateFactory.kt:21-37 | `xy` and `polar` without a datum use JGD |
| `Factory.Corrected` | src/main/kotlin/io/hapix/coorkit/CoordinateFactory.kt:56-62 | the corrected and scaled point is expressed relative to the given datum |
| `Factory.CorrectedClosedForm` | src/main/kotlin/io/hapix/coorkit/CoordinateFactory.kt:56-62 | x = ZETA·(ξ' + Σ αᵢ sin(sξ')cosh(sη')) − meridian(rad(datum latitude)) and y = ZETA·(η' + Σ αᵢ cos(sξ')sinh(sη')), with s = 2(i + 1) |
| `Factory.ScalingCompletesCorrection` | src/main/kotlin/io/hapix/coorkit/CoordinateFactory.kt:62 | scaling the fully accumulated values by ZETA and shifting x by the meridian arc gives the corrected point |
| `Factory.GaussKruger` | src/main/kotlin/io/hapix/coorkit/CoordinateFactory.kt:49-63 | the forward projection of any latitude and longitude is expressed relative to the requested datum |
| `Factory.LatLng` | src/main/kotlin/io/hapix/coorkit/CoordinateFactory.kt:49-63 | the loop over ALPHA followed by the scaling computes exactly the forward projection against the given datum (JGD when omitted), and the result carries that datum |
| `CoordinateMethods.To` | src/main/kotlin/io/hapix/coorkit/Coordinate.kt:54-59 | the result always carries the target datum; when the datum is already the target, the coordinate itself comes back unchanged; otherwise its latitude and longitude are re-projected against the target |
| `CoordinateMethods.ToIsIdempotent` | src/main/kotlin/io/hapix/coorkit/Coordinate.kt:54-59 | aligning to a datum twice is the same as aligning once |
| `CoordinateMethods.CopyByXY` | src/main/kotlin/io/hapix/coorkit/Coordinate.kt:61-63 | the copy is `xy` of the given values, each omitted one taken from the original; with nothing overridden it equals the original |
| `CoordinateMethods.CopyByPolar` | src/main/kotlin/io/hapix/coorkit/Coordinate.kt:65-67 | the copy is `polar` of the given values, each omitted one taken from the original's radial, theta or datum |
| `CoordinateMethods.CopyByLatLng` | src/main/kotlin/io/hapix/coorkit/Coordinate.kt:69-71 | the copy is `latlng` of the given values, each omitted one taken from the original's latitude, longitude or datum |
| `CoordinateMethods.Plus` | src/main/kotlin/io/hapix/coorkit/Coordinate.kt:73-77 | the result keeps the left datum and is the componentwise sum with the right operand aligned to that datum; within one datum it is the plain componentwise sum |
| `CoordinateMethods.Minus` | src/main/kotlin/io/hapix/coorkit/Coordinate.kt:79-83 | the result keeps the left datum and is the componentwise difference with the right operand aligned to that datum; within one datum it is the plain componentwise difference |
| `CoordinateMethods.PlusMinusRoundTrip` | src/main/kotlin/io/hapix/coorkit/Coordinate.kt:73-83 | for a and b in one datum, (a + b) − b equals a in x, y and datum |
| `CoordinateMethods.PlusCommutesWithinDatum` | src/main/kotlin/io/hapix/coorkit/Coordinate.kt:73-77 | within one datum, a + b = b + a |
| `CoordinateMethods.MinusSelfIsOrigin` | src/main/kotlin/io/hapix/coorkit/Coordinate.kt:79-83 | a − a is the point (0, 0) of a's datum |
| `CoordinateMethods.OperandsSeenAligned` | src/main/kotlin/io/hapix/coorkit/Coordinate.kt:73-83 | plus and minus depend on the right operand only through its alignment to the left datum |
| `Coordinable.ToDatumOf` | src/main/kotlin/io/hapix/coorkit/Coordinable.kt:64-66 | `to(that)` is exactly `to(that.datum)`; the result carries that datum, and a coordinate already in it is returned unchanged |
| `Coordinable.Between` | src/main/kotlin/io/hapix/coorkit/Coordinable.kt:74-78 | with a Euclidean hypot, the distance is non-negative and its square is Δx² + Δy², measured after aligning the other point to this point's datum |
| `Coordinable.Line` | src/main/kotlin/io/hapix/coorkit/Coordinable.kt:85-90 | both this point and the aligned other point satisfy y = slope·x + intercept |
| `Coordinable.LineIsUnique` | src/main/kotlin/io/hapix/coorkit/Coordinable.kt:85-90 | every (slope, intercept) through both points is the one `line` returns |
| `Coordinable.LineIsSymmetricWithinDatum` | src/main/kotlin/io/hapix/coorkit/Coordinable.kt:85-90 | within one datum and with distinct x, a.line(b) = b.line(a) |
| `Coordinable.LineExample` | src/test/kotlin/io/hapix/coorkit/CoordinateTest.kt:110-115 | (3, 0) and (11, 6) in the default datum give slope 0.75 and intercept −2.25, in either order |
| `Coordinable.BetweenSelfIsZero` | src/main/kotlin/io/hapix/coorkit/Coordinable.kt:74-78 | with a Euclidean hypot, a point is at distance 0 from itself |
| `Coordinable.BetweenIsSymmetricWithinDatum` | src/main/kotlin/io/hapix/coorkit/Coordinable.kt:74-78 | with a Euclidean hypot and one datum, a.between(b) = b.between(a) |
| `Coordinable.BetweenExample` | src/test/kotlin/io/hapix/coorkit/CoordinateTest.kt:90-92 | with a Euclidean hypot, from (0, 0) to (10, 10) in one datum the distance is the non-negative root of 200 |

## Left out

- Floating-point numerics: the kotlin.math functions, `rad` and `square` (Math.kt) and the constants, coefficient tables and meridian arc of WGS84.kt are uninterpreted fields of `Numerics.Primitives`. Only the laws named above are assumed of them. Their values and their rounding are not modelled.
- Coordinates.Latitude, Coordinates.Longitude: the inverse projection (Coordinate.kt:32-52, including its loop over BETA and its fold over DELTA) is one uninterpreted field each, so these two functions carry no contract of their own.
- Factory.Conformal: composes the uninterpreted primitives exactly as src/main/kotlin/io/hapix/coorkit/CoordinateFactory.kt:50-55 does (ξ = sinh(atanh(sin φ) − e·atanh(e·sin φ)), η = rad(λ) − rad(λ₀), ξ' = atan2(ξ, cos η), η' = atanh(sin η / sqrt(1 + ξ²))), so it carries no contract of its own; its result feeds `Factory.Corrected`, whose closed form is proved.
- Coordinates.Theta: `atan2` is uninterpreted, so theta has no contract, and the angle half of the polar round trip is not proved.
- Accuracy of the projection: `latlng` followed by latitude/longitude is an approximate inverse only, so no round trip between geographic and plane coordinates is claimed.
- The lazy, synchronized caching of radial, theta, latitude and longitude (Coordinate.kt:25-52) is a concurrency and performance device; the model computes these values as plain functions of the triple.
- Coordinable.Line: requires that the aligned x differ from this point's x. The source divides by zero there and returns Infinity or NaN, which `real` cannot represent.
- IEEE 754 special values (NaN, infinities, signed zero) and the boxed-Double equality of Kotlin data classes are not modelled.
- Coordinable.Between, Coordinates.Radial: their contracts hold only under `HypotIsEuclidean`, since hypot itself is uninterpreted.
- The text of the range-violation message: the model keeps the field it names and the value it carries, not the formatted string.
- The `Coordinate` constructor is internal in the source. Dafny cannot hide it here, so the model simply builds coordinates only through `Xy`, `Polar` and `GaussKruger`/`LatLng`.
- The Coordinable interface itself: its one implementation, Coordinate, is modelled directly, so its default methods are functions on `Coordinate`.
- `hashCode`, `toString` and the component functions of the data classes are not modelled.
- Test-side I/O: the survey web service, random inputs and sleeps in the tests, and the build configuration.
