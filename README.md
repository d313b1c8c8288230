# GeoVision core in Dafny

GeoVision takes a user's photo, ranks the catalog images by a similarity
score (in the source a random placeholder, drawn per image) and returns the
five best. Each match is annotated with its distance and bearing from the user
and with its distances to both poles. It also shows the matches on a map in
the browser. This project models the logic of that pipeline and proves what
it promises:

- `Routes` (`routes.dfy`) models the upload filename check `allowed_file`.
  It also models `perform_similarity_search`, which walks the catalog and
  skips images without coordinates. For each image it keeps, it scores the
  image, computes its metrics and records a search result. It then returns
  the five best matches under a stable descending sort. The search is an
  imperative method whose contract ties it to two specification functions:
  `ScanCatalog` for the loop and `Ranked` for the sort and the slice. The
  result store is a class whose rows the search appends to.
- `Geospatial` (`geospatial.dfy`) models `geospatial.py`: the haversine
  distance and its domain error, the bearing and its normalisation, the
  polar-distance pair, and the coordinate and compass formatters.
- `ClientMain` (`client_main.dfy`) models the display helpers and the upload
  check of `static/js/main.js`. It also states where the browser's
  `formatBearing` disagrees with the server's `format_bearing`.
- `ClientMap` (`client_map.dfy`) models `static/js/map.js`: marker colours,
  popup fields, the map centre, and the markers pushed into the page's
  `markers` list. The page's globals are a class.
- `Rounding` (`rounding.dfy`) defines the operators of the two languages:
  Python's round-half-to-even `round`, JavaScript's round-half-up
  `Math.round`, Python's floored float `% 360` and JavaScript's truncating
  `% 16`.

Floats are exact reals. `math.sin`, `math.cos`, `math.sqrt` and `math.atan2`
are not defined: each formula takes them as a `MathLib` value. So every
result holds for any implementation of them, and the facts a proof needs
(such as sin 0 = 0) are its preconditions. In `Routes` the search goes one
step further. It takes the geospatial functions it imports as a `Geo` value
(distance, bearing, polar distances), and `GeoOf(m)` is the geospatial
module's own triple. `math.sqrt` of a negative number raises `ValueError`,
which is `DomainError` in the model. That is the exception path on which the
search returns `[]`.

An image without coordinates could have been scored without annotations.
The code `continue`s past it, so it is not scored, recorded or returned, and
the model follows the code.

## Model

| member | source | states |
|---|---|---|
| Rounding.RoundHalfEven | GeoVision/geospatial.py:62 | Python `round`: within 0.5 of the argument, and even on a tie |
| Rounding.RoundHalfUp | GeoVision/static/js/main.js:234 | `Math.round`: within (-0.5, 0.5] of the argument, so ties go up |
| Rounding.Mod360 | GeoVision/geospatial.py:36 | Python float `% 360`: lies in [0, 360) and differs from the argument by whole turns |
| Rounding.TruncRem16 | GeoVision/static/js/main.js:234 | JS `% 16`: takes the dividend's sign, and equals Python's `% 16` minus 16 exactly when negative |
| Routes.Lower | GeoVision/routes.py:14 | `str.lower`: same length, each upper-case ASCII letter replaced by its lower-case letter and every other character kept, so no upper-case ASCII letter remains |
| Routes.RSplitDot | GeoVision/routes.py:14 | `rsplit('.', 1)`: no split exactly when there is no '.'; otherwise the two parts rebuild the name around its last '.' |
| Routes.LastDotUnique | GeoVision/routes.py:14 | a name has at most one last '.' |
| Routes.AllowedFile | GeoVision/routes.py:11-14 | true iff the name has a '.' and the lower-cased text after the last '.' is png, jpg, jpeg, tiff or tif |
| Routes.AllowedFileUpperCase | GeoVision/routes.py:14 | "X.PNG" and "photo.Tif" are accepted |
| Routes.AllowedFileBareExtension | GeoVision/routes.py:14 | ".png" is accepted |
| Routes.AllowedFileNeedsDot | GeoVision/routes.py:14 | "png" is refused |
| Routes.AllowedFileLastExtension | GeoVision/routes.py:14 | "a.png.exe" is refused: only the last extension counts |
| Routes.Coordinated | GeoVision/routes.py:87-89 | the images with both coordinates: exactly the catalog's coordinated images, no more of them than the catalog has |
| Routes.RecordsOf | GeoVision/routes.py:105-114 | one row per match in order, with that match's image id and confidence, the query id, and both polar distances present |
| Routes.Images | GeoVision/routes.py:118 | the i-th entry is the image of the i-th match |
| Routes.Confidence | GeoVision/routes.py:93 | `round(random.uniform(0.7, 0.95), 3)` in thousandths: within half a thousandth of 0.7 + 0.25u, and in [700, 950] for a draw u in [0, 1] |
| Routes.AnnotateImage | GeoVision/routes.py:92-124 | the loop body for one coordinated image: a match carrying that image, the given row id and the draw's confidence, with distance and bearing present iff both user coordinates are given |
| Routes.AnnotateImageSpec | GeoVision/routes.py:93-124 | the match for an image carries that image, its row id and the draw's confidence, and is well annotated; there is none iff the user-to-image distance or a polar distance raises |
| Routes.ScanCatalog | GeoVision/routes.py:87-124 | the loop over the catalog: never more matches than catalog images (the lemmas below state the rest) |
| Routes.ScanFollowsCatalog | GeoVision/routes.py:87-89 | images without coordinates are skipped: the matches' images are a prefix of the coordinated images, in catalog order, and all of them when nothing raised |
| Routes.ScanNumbering | GeoVision/routes.py:93-114 | the k-th match is scored by the k-th draw and gets the k-th new row id |
| Routes.ScanAnnotations | GeoVision/routes.py:96-103 | every match has distance and bearing iff both user coordinates are given, computed user-to-image, and always both polar distances |
| Routes.ScanConfidences | GeoVision/routes.py:93 | with draws in [0, 1], every confidence is in [700, 950] thousandths |
| Routes.ScanBearingsNormalised | GeoVision/routes.py:100 | with the geospatial module's own functions, every bearing a match carries is in [0, 360) |
| Routes.ScanFailureIsFinal | GeoVision/routes.py:130-132 | after an exception, the rest of the catalog changes nothing |
| Routes.InsertDesc | GeoVision/routes.py:127 | insertion keeps the multiset and adds the new element |
| Routes.SortedTailBelow | GeoVision/routes.py:127-128 | in a descending list, nothing after position n-1 exceeds it |
| Routes.SortedSlice | GeoVision/routes.py:128 | a slice of a descending list is descending |
| Routes.SortedCons | GeoVision/routes.py:127 | a descending list stays descending behind an element no smaller than its own |
| Routes.InsertDescElements | GeoVision/routes.py:127 | an inserted list holds only the new element and the old ones |
| Routes.InsertDescSorted | GeoVision/routes.py:127 | insertion into a descending list keeps it descending |
| Routes.SortDesc | GeoVision/routes.py:127 | `matches.sort(key=confidence, reverse=True)`: a permutation of the same length, in descending confidence |
| Routes.WithConfidenceCons | GeoVision/routes.py:127 | filtering by one confidence distributes over a leading element |
| Routes.InsertDescWithConfidence | GeoVision/routes.py:127 | insertion puts the new element before all old elements of its own confidence |
| Routes.SortDescStable | GeoVision/routes.py:127 | stability: the elements of any one confidence keep their input order |
| Routes.WithConfidencePrefix | GeoVision/routes.py:128 | the elements of one confidence in a prefix are a prefix of those in the whole |
| Routes.Ranked | GeoVision/routes.py:127-128 | the sort and `[:5]`: min(5, n) matches, each one of the input matches |
| Routes.TopFiveSelection | GeoVision/routes.py:127-128 | `matches[:5]` has min(5, n) elements, descending, taken from the matches, and every match left out scores no more than the last returned |
| Routes.RankedStable | GeoVision/routes.py:127-128 | the returned matches of any one confidence are the first ones of that confidence in catalog order |
| Routes.SearchResults | GeoVision/routes.py:127-132 | [] after an exception, else min(5, n) of the n matches |
| Routes.SearchResultCount | GeoVision/routes.py:105-132 | without an exception, one row per coordinated image is computed and min(5, that many) are returned; with one, none are returned |
| Routes.ResultStore.constructor | GeoVision/storage.py:50-69 | the store starts empty |
| Routes.ResultStore.CreateSearchResult | GeoVision/storage.py:50-69 | appends the row and returns its id, its position |
| Routes.RecordsOfAppend | GeoVision/routes.py:105-114 | recording one more match appends its row |
| Routes.AnnotateImageOk | GeoVision/routes.py:93-124 | the match built from the computed distance, bearing and polar distances is the specified one |
| Routes.ScanSkips | GeoVision/routes.py:88-89 | an image without coordinates leaves the loop state unchanged |
| Routes.ScanExtends | GeoVision/routes.py:116-124 | a coordinated image appends its match |
| Routes.ScanRaises | GeoVision/routes.py:130-132 | an exception on one image ends the loop with the matches so far |
| Routes.AnnotateAndRecord | GeoVision/routes.py:92-124 | the loop body: returns the specified match and appends exactly its row, or returns none and writes nothing when a distance raises |
| Routes.PerformSimilaritySearch | GeoVision/routes.py:80-132 | the rows written are those of the loop's matches (they stay written when it raises); returns [] after an exception, else the top five of the stable descending sort |
| Geospatial.HaversineA | GeoVision/geospatial.py:7-19 | the haversine a: 0 between a point and itself when sin 0 = 0, and never negative when cos φ1 · cos φ2 ≥ 0 |
| Geospatial.CalculateDistance | GeoVision/geospatial.py:3-22 | raises iff a lies outside [0, 1] (the distance R·2·atan2(√a, √(1−a)), R = 6371, is the body, not the contract) |
| Geospatial.DistanceToSelf | GeoVision/geospatial.py:14-22 | with sin 0 = 0, √0 = 0, √1 = 1 and atan2(0, 1) = 0, a point is at distance 0 from itself |
| Geospatial.NormalizeBearing | GeoVision/geospatial.py:36 | `(b + 360) % 360` lies in [0, 360) |
| Geospatial.Mod360NearTurn | GeoVision/geospatial.py:36 | `% 360` of a value within a turn of a multiple of 360 |
| Geospatial.NormalizeBearingOfAtan2 | GeoVision/geospatial.py:34-38 | for b in [-180, 180], the normalised bearing is b when b ≥ 0 and b + 360 otherwise |
| Geospatial.CalculateBearing | GeoVision/geospatial.py:24-38 | the bearing always lies in [0, 360) |
| Geospatial.PolarDistances | GeoVision/geospatial.py:40-48 | (distance to (90, 0), distance to (−90, 0)), in that order, with the point as first argument; raises iff either raises |
| Geospatial.PolarDistancesAtPoles | GeoVision/geospatial.py:40-48 | the first component vanishes at the North Pole, the second at the South Pole |
| Geospatial.FormatCoordinates | GeoVision/geospatial.py:50-55 | 'N' iff lat ≥ 0 and 'E' iff lon ≥ 0, non-negative magnitudes, and the text gives back the signed values |
| Geospatial.AngularGap | GeoVision/geospatial.py:59-62 | the angle between two directions lies in [0, 180] |
| Geospatial.NearestPointGap | GeoVision/geospatial.py:62 | the compass point of index k mod 16 is within 11.25° of a bearing whose nearest multiple of 22.5 is 22.5k |
| Geospatial.CompassIndex | GeoVision/geospatial.py:62 | `round(b / 22.5) % 16` lies in [0, 15] for every bearing, and names a point within 11.25° of it |
| Geospatial.FormatBearing | GeoVision/geospatial.py:57-63 | the text shows the bearing and one of the sixteen compass points |
| Geospatial.FormatBearingAtCompassPoint | GeoVision/geospatial.py:59-63 | a bearing of exactly 22.5k degrees reads as point k |
| Geospatial.FormatBearingCardinalPoints | GeoVision/geospatial.py:59-63 | 0 → N, 90 → E, 180 → S, 270 → W |
| Geospatial.FormatBearingWrapsToNorth | GeoVision/geospatial.py:62 | 360 and 349 round to 16 and wrap round to N |
| Geospatial.FormatBearingTiesToEven | GeoVision/geospatial.py:62 | 11.25 rounds to 0 (N) and 33.75 to 2 (NE) |
| ClientMain.FormatCoordinates | GeoVision/static/js/main.js:213-217 | 'N' iff lat ≥ 0, 'E' iff lon ≥ 0 |
| ClientMain.FormatCoordinatesAgree | GeoVision/static/js/main.js:213-217 | the browser and the server format every coordinate pair alike |
| ClientMain.FormatDistance | GeoVision/static/js/main.js:220-228 | metres iff km < 1; one decimal iff 1 ≤ km < 100; whole units otherwise; the amount shown stands for the distance given |
| ClientMain.JsCompassIndex | GeoVision/static/js/main.js:234 | `Math.round(b / 22.5) % 16` lies in (-16, 16), is a valid index for b ≥ -11.25, and names a point within 11.25° (a negative index being that point minus 16) |
| ClientMain.JsDirection | GeoVision/static/js/main.js:232-235 | a compass point iff the index is in [0, 15], "undefined" otherwise |
| ClientMain.FormatBearing | GeoVision/static/js/main.js:231-236 | shows the bearing with a compass point whenever b ≥ -11.25, and otherwise with a compass point or "undefined" |
| ClientMain.RoundingsAgreeOffTies | GeoVision/static/js/main.js:234 | away from ties, `Math.round` and Python `round` agree |
| ClientMain.FormatBearingAgreesOffTies | GeoVision/static/js/main.js:234 | for b > -11.25 off the half-way values, the browser and the server name the same point |
| ClientMain.FormatBearingHalfWayDisagrees | GeoVision/static/js/main.js:234 | 11.25 reads NNE in the browser and N on the server |
| ClientMain.FormatBearingNegativeDisagrees | GeoVision/static/js/main.js:234-235 | -20 gives index -1 and "undefined" in the browser, NNW on the server |
| ClientMain.GetConfidenceClass | GeoVision/static/js/main.js:239-243 | "confidence-high" iff c ≥ 0.9, "confidence-medium" iff 0.7 ≤ c < 0.9, "confidence-low" iff c < 0.7 |
| ClientMain.ConfidenceClassMonotone | GeoVision/static/js/main.js:239-243 | a higher confidence never gets a lower class |
| ClientMain.SearchConfidenceNeverLow | GeoVision/static/js/main.js:239-243 | a search confidence (700 to 950 thousandths) is never low, and is high iff ≥ 900 |
| ClientMain.ValidateAndDisplayFile | GeoVision/static/js/main.js:82-101 | accepted iff the type is one of the four allowed and size ≤ 50·1024·1024; the type check comes first, each refusal with its own alert |
| ClientMain.UploadLimitBoundary | GeoVision/static/js/main.js:83-96 | a PNG of exactly 50 MiB is accepted, one byte more is refused for size, and an oversized GIF is refused for its type |
| ClientMap.GetMarkerColor | GeoVision/static/js/map.js:102-106 | green (#28a745) iff c ≥ 0.9, yellow (#ffc107) iff 0.8 ≤ c < 0.9, red (#dc3545) iff c < 0.8 |
| ClientMap.MarkerColorMonotone | GeoVision/static/js/map.js:102-106 | a higher confidence never gets a lower colour |
| ClientMap.MarkerColorAgainstConfidenceClass | GeoVision/static/js/map.js:102-106 | green iff the page class is high, and yellow implies medium; the two bandings differ exactly on [0.7, 0.8), which is red but medium |
| ClientMap.IfPositive | GeoVision/static/js/map.js:110-116 | `x > 0` on a value that may be null: present iff present and positive |
| ClientMap.CreatePopupContent | GeoVision/static/js/map.js:109-138 | the distance line iff the distance is present and > 0, the bearing line iff the bearing is present and > 0 (so 0 is omitted); the given rank and the marker's colour |
| ClientMap.MapCenter | GeoVision/static/js/map.js:11-13 | the first result's position, or (20, 0) when there are no results |
| ClientMap.MarkerFor | GeoVision/static/js/map.js:59-95 | the marker for the result at index i: at its position, numbered i+1, coloured by `getMarkerColor`, with a popup of the same rank and colour |
| ClientMap.MarkersFor | GeoVision/static/js/map.js:59-97 | one marker per result, in order, the i-th at that result's position, numbered i+1, with its colour and a popup of rank i+1 |
| ClientMap.MarkersForPrefix | GeoVision/static/js/map.js:59-97 | one more result adds its marker at the end |
| ClientMap.UserMarkers | GeoVision/static/js/map.js:145-191 | at most one marker; one iff both inputs exist and are non-empty, a user-location marker at the parsed position |
| ClientMap.MapPage.constructor | GeoVision/static/js/map.js:3-5 | the page starts with no map, no markers and no user marker |
| ClientMap.MapPage.AddResultMarkers | GeoVision/static/js/map.js:58-99 | pushes exactly the result markers, in order, behind those already there; changes nothing else |
| ClientMap.MapPage.AddUserLocation | GeoVision/static/js/map.js:141-193 | the user marker is made and pushed iff both inputs exist and are non-empty; otherwise nothing changes |
| ClientMap.MapPage.InitializeResultsMap | GeoVision/static/js/map.js:8-55 | centres on MapCenter at zoom 3, adds the result and user markers, and fits the map to all markers when there are any, which is always the case when there is a result; `userMarker` is the pushed user marker, or unchanged |

## Left out

- Floating point: numbers are exact reals, so float rounding in the trigonometry, in `round(..., 3)` and in the threshold comparisons is not modelled.
- The math library: `sin`, `cos`, `sqrt` and `atan2` are parameters. No trigonometric identity is assumed, and numeric distances or bearings between real places are not derived.
- Randomness: the scorer's `random.uniform(0.7, 0.95)` is `0.7 + 0.25·draw(k)`, where the k-th draw is a parameter of the search.
- Persistence: `get_all_images` is the catalog parameter of the search. The `search_results` table is the `ResultStore` class. A row's UUID is its position in the store. A database error in `create_search_result` is not modelled, though the source would catch it like any other exception and return `[]`.
- Routes.PerformSimilaritySearch: `matches.sort` sorts the list in place. The model assigns the list its sorted value, `SortDesc`, a stable insertion sort, rather than modelling Python's in-place sort algorithm.
- Routes.Lower: only ASCII letters are lowered. Other characters are kept, which does not change which names `allowed_file` accepts.
- Decimal rendering: `toFixed`, `:.4f` and `:.1f` are not modelled. Each formatter returns the numbers and letters it would print, plus the number of decimals requested where that is the branch being chosen.
- Routes.PerformSimilaritySearch: the `query_vector` argument is not a parameter, because the source never reads it.
- Routes.PerformSimilaritySearch: the `app.logger.error` call on the exception path is logging only and is not modelled; the model returns `[]` as the source does.
- Non-finite numbers: `math.sin` of an infinite coordinate (a form value of "inf") raises `ValueError`, so the search returns `[]`, and a NaN passes `math.sqrt` without raising. `MathLib.sin` is total and `DomainError` comes only from the square roots, so the model shows neither case.
- ClientMap.MapCenter: the results page reads the recorded rows without an ordering, so the first result the map centres on need not be the best one.
- `parseFloat` is a parameter returning a real. A non-numeric input value, for which the browser gets `NaN`, is not modelled.
- The Flask route handlers in `routes.py`, `image_processor.py`, `storage.py` beyond `create_search_result`, `models.py` and `sample_data.py`: request plumbing, image processing, ORM and seeding.
- DOM, Leaflet and event handling in `main.js` and `map.js`: tiles, icons, popup HTML, alerts, `displayFileInfo`, geolocation, drag and drop, and the `try`/`catch` around the map set-up.
- ClientMap.MapPage.InitializeResultsMap: `fitBounds` is the view `Fitted(markers, 0.1)`. The bounds Leaflet computes from it are not modelled.
