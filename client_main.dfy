/**
 * The display helpers and the upload check of the browser script
 * GeoVision/static/js/main.js: `formatCoordinates`, `formatDistance`,
 * `formatBearing`, `getConfidenceClass` and the checks of
 * `validateAndDisplayFile`.
 *
 * Numbers are exact reals, as on the server side. `Math.round` rounds half
 * up and `%` keeps the sign of the dividend, which is where the script's
 * `formatBearing` parts company with the server's `format_bearing`.
 */
module ClientMain {
  import opened Rounding
  import Geospatial

  // ---------------------------------------------------------------------
  // formatCoordinates

  /** `formatCoordinates`: the same hemisphere letters and magnitudes as the
      server's `format_coordinates`: 'N' exactly for non-negative latitudes,
      'E' exactly for non-negative longitudes. */
  function FormatCoordinates(lat: real, lon: real): (r: Geospatial.CoordinateText)
    ensures r.latHemisphere == 'N' <==> lat >= 0.0
    ensures r.lonHemisphere == 'E' <==> lon >= 0.0
  {
    var latDir := if lat >= 0.0 then 'N' else 'S';
    var lonDir := if lon >= 0.0 then 'E' else 'W';
    Geospatial.CoordinateText(
      if lat < 0.0 then -lat else lat, latDir,
      if lon < 0.0 then -lon else lon, lonDir)
  }

  /** The browser and the server show every coordinate pair alike. */
  lemma FormatCoordinatesAgree(lat: real, lon: real)
    ensures FormatCoordinates(lat, lon) == Geospatial.FormatCoordinates(lat, lon)
  {
    var js, py := FormatCoordinates(lat, lon), Geospatial.FormatCoordinates(lat, lon);
    assert js.latDegrees == py.latDegrees && js.lonDegrees == py.lonDegrees;
  }

  // ---------------------------------------------------------------------
  // formatDistance

  datatype DistanceUnit = Metres | Kilometres

  /** A distance as `formatDistance` shows it: an amount, its unit and the
      number of decimals `toFixed` is asked for (the digits are not
      modelled). */
  datatype DistanceText = DistanceText(amount: real, unit: DistanceUnit, decimals: nat)

  /** The distance in kilometres that a shown amount stands for. */
  function InKilometres(t: DistanceText): real
  {
    if t.unit == Metres then t.amount / 1000.0 else t.amount
  }

  /** `formatDistance`: metres, with no decimals, below 1 km; kilometres
      with one decimal from 1 km up to but excluding 100 km; whole
      kilometres from 100 km on. The amount shown stands for the distance
      given. */
  function FormatDistance(km: real): (r: DistanceText)
    ensures r.unit == Metres <==> km < 1.0
    ensures r.decimals == 1 <==> 1.0 <= km < 100.0
    ensures r.decimals == 0 <==> km < 1.0 || km >= 100.0
    ensures InKilometres(r) == km
  {
    if km < 1.0 then DistanceText(km * 1000.0, Metres, 0)
    else if km < 100.0 then DistanceText(km, Kilometres, 1)
    else DistanceText(km, Kilometres, 0)
  }

  // ---------------------------------------------------------------------
  // formatBearing

  /** `Math.round(bearing / 22.5) % 16`. The index is a valid position in
      the list of sixteen compass points for every bearing of at least
      -11.25 degrees (below that it may be negative); a valid index names a
      point within half a sector of the bearing, and a negative one is that
      point's index minus sixteen. */
  function JsCompassIndex(bearing: real): (i: int)
    ensures -16 < i < 16
    ensures bearing >= -11.25 ==> 0 <= i
    ensures 0 <= i ==> Geospatial.AngularGap(bearing, 22.5 * i as real) <= 11.25
    ensures i < 0 ==> Geospatial.AngularGap(bearing, 22.5 * (i + 16) as real) <= 11.25
  {
    var k := RoundHalfUp(bearing / 22.5);
    var i := TruncRem16(k);
    Geospatial.NearestPointGap(bearing, k);
    i
  }

  /** `directions[index]` interpolated into the text: the compass point, or
      the word "undefined" that JavaScript prints for an index outside the
      list. */
  function JsDirection(i: int): (r: string)
    ensures r in Geospatial.Directions <==> 0 <= i < 16
  {
    if 0 <= i < 16 then Geospatial.Directions[i] else "undefined"
  }

  /** `formatBearing`: the degrees and a compass point, which is a real
      compass point at least for every bearing of -11.25 or more, and
      otherwise a compass point or "undefined" (-20 gives "undefined", -360
      gives N). */
  function FormatBearing(bearing: real): (r: Geospatial.BearingText)
    ensures r.degrees == bearing
    ensures bearing >= -11.25 ==> r.compass in Geospatial.Directions
    ensures r.compass in Geospatial.Directions || r.compass == "undefined"
  {
    Geospatial.BearingText(bearing, JsDirection(JsCompassIndex(bearing)))
  }

  /** `x` lies half-way between two integers. */
  predicate IsTie(x: real)
  {
    (x + 0.5).Floor as real == x + 0.5
  }

  /** Away from the half-way values, rounding half up and rounding half to
      even agree. */
  lemma RoundingsAgreeOffTies(x: real)
    requires !IsTie(x)
    ensures RoundHalfUp(x) == RoundHalfEven(x)
  {
    var up, even := RoundHalfUp(x), RoundHalfEven(x);
    assert up as real - x != -0.5 && up as real - x != 0.5;
    assert even as real - x != -0.5 && even as real - x != 0.5;
  }

  /** For every bearing above -11.25 degrees that is not half-way between
      two compass points, the browser and the server name the same point. */
  lemma FormatBearingAgreesOffTies(bearing: real)
    requires bearing > -11.25 && !IsTie(bearing / 22.5)
    ensures FormatBearing(bearing).compass == Geospatial.FormatBearing(bearing).compass
  {
    var x := bearing / 22.5;
    RoundingsAgreeOffTies(x);
    var k := RoundHalfUp(x);
    assert k >= 0;
    assert JsCompassIndex(bearing) == k % 16 == Geospatial.CompassIndex(bearing);
  }

  /** At the half-way bearing 11.25 the browser rounds up to NNE, where the
      server rounds to the even index and shows N. */
  lemma FormatBearingHalfWayDisagrees()
    ensures JsCompassIndex(11.25) == 1 && FormatBearing(11.25).compass == "NNE"
    ensures Geospatial.CompassIndex(11.25) == 0 && Geospatial.FormatBearing(11.25).compass == "N"
  {
    assert (11.25 / 22.5 + 0.5).Floor == 1;
    assert (11.25 / 22.5).Floor == 0;
  }

  /** At -20 degrees the browser's index is -1 and the text reads
      "undefined", where the server shows NNW (index 15). */
  lemma FormatBearingNegativeDisagrees()
    ensures JsCompassIndex(-20.0) == -1 && FormatBearing(-20.0).compass == "undefined"
    ensures Geospatial.CompassIndex(-20.0) == 15 && Geospatial.FormatBearing(-20.0).compass == "NNW"
  {
    assert (-20.0 / 22.5 + 0.5).Floor == -1;
    assert (-20.0 / 22.5).Floor == -1;
  }

  // ---------------------------------------------------------------------
  // getConfidenceClass

  datatype ConfidenceClass = High | Medium | Low

  /** The CSS class names the script returns. */
  function ClassName(c: ConfidenceClass): string
  {
    match c
    case High => "confidence-high"
    case Medium => "confidence-medium"
    case Low => "confidence-low"
  }

  /** `getConfidenceClass`: high from 0.9, medium from 0.7 below 0.9, low
      below 0.7. */
  function GetConfidenceClass(confidence: real): (r: ConfidenceClass)
    ensures r == High <==> confidence >= 0.9
    ensures r == Medium <==> 0.7 <= confidence < 0.9
    ensures r == Low <==> confidence < 0.7
    ensures ClassName(r) == "confidence-high" <==> confidence >= 0.9
    ensures ClassName(r) == "confidence-medium" <==> 0.7 <= confidence < 0.9
    ensures ClassName(r) == "confidence-low" <==> confidence < 0.7
  {
    if confidence >= 0.9 then High
    else if confidence >= 0.7 then Medium
    else Low
  }

  function ClassLevel(c: ConfidenceClass): int
  {
    match c
    case Low => 0
    case Medium => 1
    case High => 2
  }

  /** A higher confidence never gets a lower class. */
  lemma ConfidenceClassMonotone(a: real, b: real)
    requires a <= b
    ensures ClassLevel(GetConfidenceClass(a)) <= ClassLevel(GetConfidenceClass(b))
  {
  }

  /** A confidence the search produces, `k` thousandths with k in
      [700, 950], is never shown as low; it is high exactly from 900. */
  lemma SearchConfidenceNeverLow(k: int)
    requires 700 <= k <= 950
    ensures GetConfidenceClass(k as real / 1000.0) != Low
    ensures GetConfidenceClass(k as real / 1000.0) == High <==> k >= 900
  {
  }

  // ---------------------------------------------------------------------
  // validateAndDisplayFile

  /** The fields of the browser's `File` that the check reads. */
  datatype UploadFile = UploadFile(name: string, mimeType: string, size: int)

  /** 50 MB, as the script counts it. */
  const MaxUploadBytes: int := 50 * 1024 * 1024

  const AllowedTypes: seq<string> := ["image/jpeg", "image/jpg", "image/png", "image/tiff"]

  const InvalidTypeAlert: string := "Invalid file type. Please select a JPEG, PNG, or TIFF image."

  const TooLargeAlert: string := "File too large. Maximum size is 50MB."

  /** The outcome of `validateAndDisplayFile`: `Accepted` where it returns
      true (and shows the file's details), `Rejected` with the alert it
      shows where it returns false. */
  datatype FileCheck = Accepted | Rejected(alert: string)

  /** `validateAndDisplayFile`: accepts exactly the files of an allowed
      type of at most 50 MiB. The type is checked first: a file of the
      wrong type is refused for its type whatever its size, and only a file
      of an allowed type can be refused for its size. */
  function ValidateAndDisplayFile(file: UploadFile): (r: FileCheck)
    ensures r.Accepted? <==> file.mimeType in AllowedTypes && file.size <= MaxUploadBytes
    ensures file.mimeType !in AllowedTypes ==> r == Rejected(InvalidTypeAlert)
    ensures file.mimeType in AllowedTypes && file.size > MaxUploadBytes ==> r == Rejected(TooLargeAlert)
  {
    if file.mimeType !in AllowedTypes then Rejected(InvalidTypeAlert)
    else if file.size > MaxUploadBytes then Rejected(TooLargeAlert)
    else Accepted
  }

  /** The limit is inclusive: a PNG of exactly 52428800 bytes is accepted,
      one byte more is refused for its size, and an oversized GIF is
      refused for its type. */
  lemma UploadLimitBoundary(name: string)
    ensures ValidateAndDisplayFile(UploadFile(name, "image/png", 52428800)) == Accepted
    ensures ValidateAndDisplayFile(UploadFile(name, "image/png", 52428801)) == Rejected(TooLargeAlert)
    ensures ValidateAndDisplayFile(UploadFile(name, "image/gif", 52428801)) == Rejected(InvalidTypeAlert)
  {
    assert "image/png" == AllowedTypes[2];
    assert "image/gif" != AllowedTypes[0] && "image/gif" != AllowedTypes[1];
    assert "image/gif" != AllowedTypes[2] && "image/gif" != AllowedTypes[3];
  }
}
