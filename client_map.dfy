/**
 * The results map of the browser script GeoVision/static/js/map.js: the
 * marker colour banding, which fields a popup shows, where the map is
 * centred, and the markers `addResultMarkers` and `addUserLocation` push
 * into the page's `markers` list.
 *
 * The page's globals `map`, `markers` and `userMarker` are the fields of
 * the class `MapPage`; Leaflet itself (tiles, icons, popups bound to
 * markers) is reduced to the values the script hands it.
 */
module ClientMap {
  import opened Wrappers
  import ClientMain

  // ---------------------------------------------------------------------
  // getMarkerColor

  datatype MarkerColor = Green | Yellow | Red

  /** The colours as the script writes them. */
  function ColorHex(c: MarkerColor): string
  {
    match c
    case Green => "#28a745"
    case Yellow => "#ffc107"
    case Red => "#dc3545"
  }

  /** `getMarkerColor`: green from 0.9, yellow from 0.8 below 0.9, red
      below 0.8. */
  function GetMarkerColor(confidence: real): (r: MarkerColor)
    ensures r == Green <==> confidence >= 0.9
    ensures r == Yellow <==> 0.8 <= confidence < 0.9
    ensures r == Red <==> confidence < 0.8
    ensures ColorHex(r) == "#28a745" <==> confidence >= 0.9
    ensures ColorHex(r) == "#ffc107" <==> 0.8 <= confidence < 0.9
    ensures ColorHex(r) == "#dc3545" <==> confidence < 0.8
  {
    if confidence >= 0.9 then Green
    else if confidence >= 0.8 then Yellow
    else Red
  }

  function ColorLevel(c: MarkerColor): int
  {
    match c
    case Red => 0
    case Yellow => 1
    case Green => 2
  }

  /** A higher confidence never gets a lower colour. */
  lemma MarkerColorMonotone(a: real, b: real)
    requires a <= b
    ensures ColorLevel(GetMarkerColor(a)) <= ColorLevel(GetMarkerColor(b))
  {
  }

  /** The map's colours and the page's confidence classes agree at the top
      band, but not below it: a confidence in [0.7, 0.8) is a medium class
      on a red marker. */
  lemma MarkerColorAgainstConfidenceClass(confidence: real)
    ensures GetMarkerColor(confidence) == Green <==> ClientMain.GetConfidenceClass(confidence) == ClientMain.High
    ensures GetMarkerColor(confidence) == Yellow ==> ClientMain.GetConfidenceClass(confidence) == ClientMain.Medium
    ensures 0.7 <= confidence < 0.8 <==>
      GetMarkerColor(confidence) == Red && ClientMain.GetConfidenceClass(confidence) == ClientMain.Medium
  {
  }

  // ---------------------------------------------------------------------
  // createPopupContent

  /** One entry of `mapData.results`. `distance` and `bearing` are absent
      when the search was made without the user's position. */
  datatype MapResult = MapResult(
    name: string,
    lat: real,
    lng: real,
    confidence: real,
    distance: Option<real>,
    bearing: Option<real>)

  /** What a popup shows (the digits of the numbers are not modelled): the
      rank badge, the name, the confidence with its colour, the coordinates,
      and the optional distance and bearing lines. */
  datatype Popup = Popup(
    rank: int,
    name: string,
    confidence: real,
    color: MarkerColor,
    lat: real,
    lng: real,
    distanceLine: Option<real>,
    bearingLine: Option<real>)

  /** `value > 0` on a value that may be missing: JavaScript compares
      `null` and `undefined` as not greater than 0. */
  function IfPositive(value: Option<real>): (r: Option<real>)
    ensures r.Some? <==> value.Some? && value.value > 0.0
    ensures r.Some? ==> r == value
  {
    if value.Some? && value.value > 0.0 then value else None
  }

  /** `createPopupContent`: the distance line is shown exactly when the
      distance is present and positive, the bearing line exactly when the
      bearing is present and positive, so a due-north bearing of 0 is not
      shown; the badge carries the given rank and the confidence is
      coloured as the marker is. */
  function CreatePopupContent(result: MapResult, rank: int): (p: Popup)
    ensures p.rank == rank && p.name == result.name && p.confidence == result.confidence
    ensures p.color == GetMarkerColor(result.confidence)
    ensures p.lat == result.lat && p.lng == result.lng
    ensures p.distanceLine.Some? <==> result.distance.Some? && result.distance.value > 0.0
    ensures p.distanceLine.Some? ==> p.distanceLine == result.distance
    ensures p.bearingLine.Some? <==> result.bearing.Some? && result.bearing.value > 0.0
    ensures p.bearingLine.Some? ==> p.bearingLine == result.bearing
  {
    Popup(rank, result.name, result.confidence, GetMarkerColor(result.confidence),
          result.lat, result.lng, IfPositive(result.distance), IfPositive(result.bearing))
  }

  // ---------------------------------------------------------------------
  // Map centre and markers

  /** The world view used when there are no results. */
  const DefaultCenter: (real, real) := (20.0, 0.0)

  /** The zoom level the map is first shown at. */
  const InitialZoom: int := 3

  /** The centre chosen in `initializeResultsMap`. */
  function MapCenter(results: seq<MapResult>): (c: (real, real))
    ensures results != [] ==> c == (results[0].lat, results[0].lng)
    ensures results == [] ==> c == DefaultCenter
  {
    if |results| > 0 then (results[0].lat, results[0].lng) else DefaultCenter
  }

  /** A marker of the page: a numbered, coloured result marker with its
      popup, or the user's own position. */
  datatype Marker =
    | ResultMarker(lat: real, lng: real, number: int, color: MarkerColor, popup: Popup)
    | UserLocationMarker(lat: real, lng: real)

  /** The marker `addResultMarkers` makes for the result at `index`: at the
      result's position, numbered `index + 1`, coloured by its confidence,
      with a popup of the same rank. */
  function MarkerFor(result: MapResult, index: nat): (mk: Marker)
    ensures mk.ResultMarker? && mk.lat == result.lat && mk.lng == result.lng
    ensures mk.number == index + 1 && mk.popup.rank == mk.number
    ensures mk.color == mk.popup.color == GetMarkerColor(result.confidence)
  {
    var rank := index + 1;
    ResultMarker(result.lat, result.lng, rank, GetMarkerColor(result.confidence),
                 CreatePopupContent(result, rank))
  }

  /** The markers for a list of results: one per result, in result order,
      the i-th at that result's position, numbered i + 1 and with a popup
      of rank i + 1 for that result. */
  function MarkersFor(results: seq<MapResult>): (ms: seq<Marker>)
    ensures |ms| == |results|
    ensures forall i :: 0 <= i < |ms| ==>
      && ms[i].ResultMarker?
      && ms[i].lat == results[i].lat && ms[i].lng == results[i].lng
      && ms[i].number == i + 1 && ms[i].popup.rank == i + 1
      && ms[i].popup == CreatePopupContent(results[i], i + 1)
      && ms[i].color == GetMarkerColor(results[i].confidence)
  {
    seq(|results|, i requires 0 <= i < |results| => MarkerFor(results[i], i))
  }

  lemma MarkersForPrefix(results: seq<MapResult>, i: nat)
    requires i < |results|
    ensures MarkersFor(results[..i + 1]) == MarkersFor(results[..i]) + [MarkerFor(results[i], i)]
  {
    var longer, shorter := MarkersFor(results[..i + 1]), MarkersFor(results[..i]);
    assert longer[i] == MarkerFor(results[i], i);
    assert longer[..i] == shorter;
    assert longer == longer[..i] + [longer[i]];
  }

  /** How the map is shown: centred at a point with a zoom level, or fitted
      (with padding) to the bounds of a list of markers. */
  datatype MapView =
    | Centered(center: (real, real), zoom: int)
    | Fitted(bounds: seq<Marker>, padding: real)

  /** Both hidden inputs holding the user's position exist and are
      non-empty. */
  predicate UserLocationGiven(userLat: Option<string>, userLon: Option<string>)
  {
    userLat.Some? && userLon.Some? && userLat.value != "" && userLon.value != ""
  }

  /** The markers `addUserLocation` pushes: one user-location marker when
      both inputs exist and are non-empty, at the parsed position, and
      none otherwise. */
  function UserMarkers(userLat: Option<string>, userLon: Option<string>, parseFloat: string -> real): (ms: seq<Marker>)
    ensures |ms| <= 1
    ensures ms != [] <==> UserLocationGiven(userLat, userLon)
    ensures ms != [] ==> ms[0] == UserLocationMarker(parseFloat(userLat.value), parseFloat(userLon.value))
  {
    if UserLocationGiven(userLat, userLon) then
      [UserLocationMarker(parseFloat(userLat.value), parseFloat(userLon.value))]
    else []
  }

  /** The page state the script keeps in its globals `map`, `markers` and
      `userMarker`. */
  class MapPage {
    var view: Option<MapView>
    var markers: seq<Marker>
    var userMarker: Option<Marker>

    /** The page before any script ran: no map, no markers. */
    constructor ()
      ensures view == None && markers == [] && userMarker == None
    {
      view := None;
      markers := [];
      userMarker := None;
    }

    /** `addResultMarkers`: pushes one marker per result, in order, behind
        the markers already there. */
    method AddResultMarkers(results: seq<MapResult>)
      modifies this
      ensures markers == old(markers) + MarkersFor(results)
      ensures view == old(view) && userMarker == old(userMarker)
    {
      var i := 0;
      while i < |results|
        invariant 0 <= i <= |results|
        invariant markers == old(markers) + MarkersFor(results[..i])
        invariant view == old(view) && userMarker == old(userMarker)
      {
        MarkersForPrefix(results, i);
        markers := markers + [MarkerFor(results[i], i)];
        i := i + 1;
      }
      assert results[..i] == results;
    }

    /** `addUserLocation`. `userLat` and `userLon` are the values of the
        page's hidden inputs, `None` where the element is missing;
        `parseFloat` is the browser's number parser. The user marker is
        made and pushed only when both elements exist and are non-empty. */
    method AddUserLocation(userLat: Option<string>, userLon: Option<string>, parseFloat: string -> real)
      modifies this
      ensures view == old(view)
      ensures markers == old(markers) + UserMarkers(userLat, userLon, parseFloat)
      ensures userMarker == if UserLocationGiven(userLat, userLon) then Some(markers[|markers| - 1]) else old(userMarker)
    {
      if userLat.Some? && userLon.Some? && userLat.value != "" && userLon.value != "" {
        var lat := parseFloat(userLat.value);
        var lng := parseFloat(userLon.value);
        var marker := UserLocationMarker(lat, lng);
        userMarker := Some(marker);
        markers := markers + [marker];
      }
    }

    /** `initializeResultsMap`: centres the map on the first result (or the
        default world view) at the initial zoom, adds the result markers
        and the user's marker, then fits the map to all markers when there
        are any. The default view therefore stays only on a page that has
        no marker at all, and never when there is a result. */
    method InitializeResultsMap(results: seq<MapResult>, userLat: Option<string>, userLon: Option<string>,
                                parseFloat: string -> real)
      modifies this
      ensures markers == old(markers) + MarkersFor(results) + UserMarkers(userLat, userLon, parseFloat)
      ensures view == if markers != [] then Some(Fitted(markers, 0.1))
                      else Some(Centered(MapCenter(results), InitialZoom))
      ensures results != [] ==> view.value.Fitted?
      ensures userMarker == if UserLocationGiven(userLat, userLon) then Some(markers[|markers| - 1]) else old(userMarker)
    {
      view := Some(Centered(MapCenter(results), InitialZoom));
      AddResultMarkers(results);
      AddUserLocation(userLat, userLon, parseFloat);
      if |markers| > 0 {
        view := Some(Fitted(markers, 0.1));
      }
    }
  }
}
