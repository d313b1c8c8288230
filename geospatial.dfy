/**
 * The server-side geospatial helpers (GeoVision/geospatial.py): haversine
 * distance, initial bearing, the pair of polar distances, and the two
 * display formatters for coordinates and bearings.
 *
 * Floats are modelled as exact reals. The library functions `math.sin`,
 * `math.cos`, `math.sqrt` and `math.atan2` are not defined here: every
 * formula takes them as a `MathLib` value, so that what is proved holds for
 * any implementation of them, and facts about them that a proof needs (such
 * as sin 0 = 0) appear as preconditions of that proof.
 */
module Geospatial {
  import opened Rounding

  /** The floating-point library functions the formulas call. */
  datatype MathLib = MathLib(
    sin: real -> real,
    cos: real -> real,
    sqrt: real -> real,
    atan2: (real, real) -> real)

  /** A computation that yields a value, or raises Python's
      `ValueError: math domain error` (from `math.sqrt` of a negative). */
  datatype Outcome<T> = Ok(value: T) | DomainError

  /** Earth's radius in kilometres. */
  const EarthRadiusKm: real := 6371.0

  /** `math.pi` to the digits Python prints. */
  const Pi: real := 3.141592653589793

  function Radians(deg: real): real { deg * Pi / 180.0 }

  function Degrees(rad: real): real { rad * 180.0 / Pi }

  function Square(x: real): real { x * x }

  /** The haversine of the central angle between the two points,
      sin²(Δφ/2) + cos φ1 · cos φ2 · sin²(Δλ/2). It is 0 between a point
      and itself when sin 0 = 0, and never negative when the two cosines
      have a non-negative product (as they do for latitudes in [-90, 90]);
      only a value above 1 can then make `calculate_distance` raise. */
  function HaversineA(m: MathLib, lat1: real, lon1: real, lat2: real, lon2: real): (a: real)
    ensures lat1 == lat2 && lon1 == lon2 && m.sin(0.0) == 0.0 ==> a == 0.0
    ensures m.cos(Radians(lat1)) * m.cos(Radians(lat2)) >= 0.0 ==> a >= 0.0
  {
    var dlat := Radians(lat2) - Radians(lat1);
    var dlon := Radians(lon2) - Radians(lon1);
    Square(m.sin(dlat / 2.0)) + m.cos(Radians(lat1)) * m.cos(Radians(lat2)) * Square(m.sin(dlon / 2.0))
  }

  /** `calculate_distance`: great-circle distance in kilometres,
      R * 2 * atan2(sqrt(a), sqrt(1 - a)). Fails exactly when one of the two
      square roots is taken of a negative number. */
  function CalculateDistance(m: MathLib, lat1: real, lon1: real, lat2: real, lon2: real): (r: Outcome<real>)
    ensures r.DomainError? <==> !(0.0 <= HaversineA(m, lat1, lon1, lat2, lon2) <= 1.0)
  {
    var a := HaversineA(m, lat1, lon1, lat2, lon2);
    if a < 0.0 || 1.0 - a < 0.0 then DomainError
    else
      var c := 2.0 * m.atan2(m.sqrt(a), m.sqrt(1.0 - a));
      Ok(EarthRadiusKm * c)
  }

  /** With sin 0 = 0, sqrt 0 = 0, sqrt 1 = 1 and atan2(0, 1) = 0, the
      distance from a point to itself is zero (and never raises). */
  lemma DistanceToSelf(m: MathLib, lat: real, lon: real)
    requires m.sin(0.0) == 0.0 && m.sqrt(0.0) == 0.0 && m.sqrt(1.0) == 1.0
    requires m.atan2(0.0, 1.0) == 0.0
    ensures CalculateDistance(m, lat, lon, lat, lon) == Ok(0.0)
  {
    assert HaversineA(m, lat, lon, lat, lon) == 0.0;
  }

  /** The `(deg + 360) % 360` step of `calculate_bearing`. */
  function NormalizeBearing(deg: real): (r: real)
    ensures 0.0 <= r < 360.0
  {
    Mod360(deg + 360.0)
  }

  /** `Mod360` of a value within one turn of a multiple of 360. */
  lemma Mod360NearTurn(t: int, e: real)
    requires -360.0 <= e < 360.0
    ensures Mod360(360.0 * t as real + e) == if e >= 0.0 then e else e + 360.0
  {
    var x := 360.0 * t as real + e;
    var q := (x / 360.0).Floor;
    assert x / 360.0 == t as real + e / 360.0;
    if e >= 0.0 {
      assert q == t;
    } else {
      assert q == t - 1;
    }
  }

  /** For an `atan2` result in degrees, [-180, 180], normalisation leaves a
      non-negative bearing alone and adds one full turn to a negative one. */
  lemma NormalizeBearingOfAtan2(deg: real)
    requires -180.0 <= deg <= 180.0
    ensures NormalizeBearing(deg) == if deg >= 0.0 then deg else deg + 360.0
  {
    Mod360NearTurn(1, deg);
  }

  /** `calculate_bearing`: initial bearing from point 1 to point 2, in
      degrees clockwise from north, always in [0, 360). */
  function CalculateBearing(m: MathLib, lat1: real, lon1: real, lat2: real, lon2: real): (r: real)
    ensures 0.0 <= r < 360.0
  {
    var lat1Rad := Radians(lat1);
    var lat2Rad := Radians(lat2);
    var dlonRad := Radians(lon2 - lon1);
    var y := m.sin(dlonRad) * m.cos(lat2Rad);
    var x := m.cos(lat1Rad) * m.sin(lat2Rad) - m.sin(lat1Rad) * m.cos(lat2Rad) * m.cos(dlonRad);
    NormalizeBearing(Degrees(m.atan2(y, x)))
  }

  /** `calculate_polar_distances`: (distance to the North Pole (90, 0),
      distance to the South Pole (-90, 0)), in that order, each measured with
      the point as first argument; raises if either distance raises. */
  function PolarDistances(m: MathLib, lat: real, lon: real): (r: Outcome<(real, real)>)
    ensures r.Ok? <==> CalculateDistance(m, lat, lon, 90.0, 0.0).Ok? && CalculateDistance(m, lat, lon, -90.0, 0.0).Ok?
    ensures r.Ok? ==> r.value.0 == CalculateDistance(m, lat, lon, 90.0, 0.0).value
    ensures r.Ok? ==> r.value.1 == CalculateDistance(m, lat, lon, -90.0, 0.0).value
  {
    var north := CalculateDistance(m, lat, lon, 90.0, 0.0);
    var south := CalculateDistance(m, lat, lon, -90.0, 0.0);
    if north.DomainError? || south.DomainError? then DomainError
    else Ok((north.value, south.value))
  }

  /** The first component is the North Pole's: it vanishes at (90, 0); the
      second is the South Pole's: it vanishes at (-90, 0). */
  lemma PolarDistancesAtPoles(m: MathLib)
    requires m.sin(0.0) == 0.0 && m.sqrt(0.0) == 0.0 && m.sqrt(1.0) == 1.0
    requires m.atan2(0.0, 1.0) == 0.0
    ensures PolarDistances(m, 90.0, 0.0).Ok? ==> PolarDistances(m, 90.0, 0.0).value.0 == 0.0
    ensures PolarDistances(m, -90.0, 0.0).Ok? ==> PolarDistances(m, -90.0, 0.0).value.1 == 0.0
  {
    DistanceToSelf(m, 90.0, 0.0);
    DistanceToSelf(m, -90.0, 0.0);
  }

  /** A coordinate pair as `format_coordinates` shows it: magnitudes with a
      hemisphere letter each (the digits themselves are not modelled). */
  datatype CoordinateText = CoordinateText(
    latDegrees: real, latHemisphere: char,
    lonDegrees: real, lonHemisphere: char)

  /** The signed latitude and longitude a reader recovers from the text. */
  function SignedLatitude(t: CoordinateText): real
  {
    if t.latHemisphere == 'S' then -t.latDegrees else t.latDegrees
  }

  function SignedLongitude(t: CoordinateText): real
  {
    if t.lonHemisphere == 'W' then -t.lonDegrees else t.lonDegrees
  }

  /** `format_coordinates`: 'N' exactly for non-negative latitudes (so the
      equator reads N), 'E' exactly for non-negative longitudes, magnitudes
      shown without sign; the text determines the signed values again. */
  function FormatCoordinates(lat: real, lon: real): (r: CoordinateText)
    ensures r.latHemisphere in "NS" && (r.latHemisphere == 'N' <==> lat >= 0.0)
    ensures r.lonHemisphere in "EW" && (r.lonHemisphere == 'E' <==> lon >= 0.0)
    ensures r.latDegrees >= 0.0 && r.lonDegrees >= 0.0
    ensures SignedLatitude(r) == lat && SignedLongitude(r) == lon
  {
    var latDir := if lat >= 0.0 then 'N' else 'S';
    var lonDir := if lon >= 0.0 then 'E' else 'W';
    CoordinateText(Abs(lat), latDir, Abs(lon), lonDir)
  }

  function Abs(x: real): real { if x >= 0.0 then x else -x }

  /** The sixteen compass points, clockwise from north, 22.5 degrees apart. */
  const Directions: seq<string> :=
    ["N", "NNE", "NE", "ENE", "E", "ESE", "SE", "SSE",
     "S", "SSW", "SW", "WSW", "W", "WNW", "NW", "NNW"]

  /** The angle between two directions, in [0, 180]. */
  function AngularGap(a: real, b: real): (r: real)
    ensures 0.0 <= r <= 180.0
  {
    var d := Mod360(a - b);
    if d <= 180.0 then d else 360.0 - d
  }

  /** The compass point of index `k % 16` is within half a sector of a
      bearing whose nearest multiple of 22.5 degrees is `22.5 * k`. */
  lemma NearestPointGap(bearing: real, k: int)
    requires -0.5 <= k as real - bearing / 22.5 <= 0.5
    ensures AngularGap(bearing, 22.5 * (k % 16) as real) <= 11.25
  {
    var i, t := k % 16, k / 16;
    var e := bearing - 22.5 * k as real;
    assert -11.25 <= e <= 11.25;
    assert bearing - 22.5 * i as real == 360.0 * t as real + e;
    Mod360NearTurn(t, e);
  }

  /** `format_bearing`'s index `round(bearing / 22.5) % 16`. Python's `%`
      by 16 is never negative, so the index is always a valid position in
      `Directions`, for any bearing, and it names a compass point within
      half a sector of the bearing. */
  function CompassIndex(bearing: real): (i: int)
    ensures 0 <= i < 16
    ensures AngularGap(bearing, 22.5 * i as real) <= 11.25
  {
    var k := RoundHalfEven(bearing / 22.5);
    NearestPointGap(bearing, k);
    k % 16
  }

  /** A bearing as `format_bearing` shows it: the degrees and a compass
      point (the digits themselves are not modelled). */
  datatype BearingText = BearingText(degrees: real, compass: string)

  /** `format_bearing`. */
  function FormatBearing(bearing: real): (r: BearingText)
    ensures r.degrees == bearing && r.compass in Directions
  {
    BearingText(bearing, Directions[CompassIndex(bearing)])
  }

  /** A bearing that is exactly a compass point's direction is named by that
      point. */
  lemma FormatBearingAtCompassPoint(k: int)
    requires 0 <= k < 16
    ensures CompassIndex(22.5 * k as real) == k
    ensures FormatBearing(22.5 * k as real).compass == Directions[k]
  {
    var x := 22.5 * k as real / 22.5;
    assert x == k as real;
    assert x.Floor == k;
  }

  /** The cardinal points: 0 reads N, 90 reads E, 180 reads S, 270 reads W. */
  lemma FormatBearingCardinalPoints()
    ensures FormatBearing(0.0).compass == "N" && FormatBearing(90.0).compass == "E"
    ensures FormatBearing(180.0).compass == "S" && FormatBearing(270.0).compass == "W"
  {
    FormatBearingAtCompassPoint(0);
    FormatBearingAtCompassPoint(4);
    FormatBearingAtCompassPoint(8);
    FormatBearingAtCompassPoint(12);
  }

  /** 360 and 349 round to index 16, which wraps round to N. */
  lemma FormatBearingWrapsToNorth()
    ensures CompassIndex(360.0) == 0 && FormatBearing(360.0).compass == "N"
    ensures CompassIndex(349.0) == 0 && FormatBearing(349.0).compass == "N"
  {
    assert (360.0 / 22.5).Floor == 16;
    assert (349.0 / 22.5).Floor == 15;
  }

  /** Half-way values round to the even index: 11.25 to 0 (N), 33.75 to
      2 (NE). */
  lemma FormatBearingTiesToEven()
    ensures CompassIndex(11.25) == 0 && FormatBearing(11.25).compass == "N"
    ensures CompassIndex(33.75) == 2 && FormatBearing(33.75).compass == "NE"
  {
    assert (11.25 / 22.5).Floor == 0;
    assert (33.75 / 22.5).Floor == 1;
  }
}
