/**
 * The logic of GeoVision/routes.py: the upload filename check
 * `allowed_file`, and `perform_similarity_search`, which walks the image
 * catalog, scores and annotates every image that has coordinates, records
 * one search result per such image, and returns the five best matches.
 *
 * The search is the imperative method `PerformSimilaritySearch`, proved
 * against the specification functions `ScanCatalog` (the loop) and
 * `Ranked` (the sort and the slice); the lemmas below state what the
 * source promises about those two. The geospatial functions the search
 * imports are a parameter of type `Geo`; `GeoOf` gives the ones the
 * geospatial module defines.
 */
module Routes {
  import opened Wrappers
  import opened Rounding
  import opened Geospatial

  // ---------------------------------------------------------------------
  // allowed_file

  const AllowedExtensions: set<string> := {"png", "jpg", "jpeg", "tiff", "tif"}

  /** `str.lower` on one character. Only ASCII letters matter here: no other
      character lowers to a one-letter ASCII string that can occur in an
      allowed extension. */
  function LowerChar(c: char): char
  {
    if 'A' <= c <= 'Z' then (c as int + 32) as char else c
  }

  /** `str.lower` on a name: each upper-case ASCII letter becomes its
      lower-case letter, every other character is kept, so no upper-case
      ASCII letter is left. */
  function Lower(s: string): (r: string)
    ensures |r| == |s|
    ensures forall i :: 0 <= i < |s| ==>
      if 'A' <= s[i] <= 'Z' then r[i] as int == s[i] as int + 32 else r[i] == s[i]
    ensures forall i :: 0 <= i < |r| ==> !('A' <= r[i] <= 'Z')
  {
    seq(|s|, i requires 0 <= i < |s| => LowerChar(s[i]))
  }

  /** `s.rsplit('.', 1)`: the text before and after the last '.', or `None`
      when there is no '.' (Python then returns the one-element list). */
  function RSplitDot(s: string): (r: Option<(string, string)>)
    ensures r.None? <==> '.' !in s
    ensures r.Some? ==> s == r.value.0 + "." + r.value.1 && '.' !in r.value.1
    decreases |s|
  {
    if s == [] then None
    else
      var last := s[|s| - 1];
      assert s == s[..|s| - 1] + [last];
      if last == '.' then Some((s[..|s| - 1], ""))
      else match RSplitDot(s[..|s| - 1])
        case None => None
        case Some(parts) => Some((parts.0, parts.1 + [last]))
  }

  /** Position `i` holds the last '.' of `s`. */
  predicate IsLastDot(s: string, i: int)
  {
    0 <= i < |s| && s[i] == '.' && '.' !in s[i + 1..]
  }

  /** A string has at most one last '.'. */
  lemma LastDotUnique(s: string, i: int, j: int)
    requires IsLastDot(s, i) && IsLastDot(s, j)
    ensures i == j
  {
  }

  /** `allowed_file`: true exactly when the name has a '.' and the text after
      its last '.', lower-cased, is png, jpg, jpeg, tiff or tif. */
  function AllowedFile(filename: string): (r: bool)
    ensures r <==> exists i :: IsLastDot(filename, i) && Lower(filename[i + 1..]) in AllowedExtensions
  {
    match RSplitDot(filename)
    case None => false
    case Some(parts) =>
      var i := |parts.0|;
      assert filename[i + 1..] == parts.1;
      assert IsLastDot(filename, i);
      forall j | IsLastDot(filename, j) ensures j == i {
        LastDotUnique(filename, i, j);
      }
      Lower(parts.1) in AllowedExtensions
  }

  /** Upper-case extensions are accepted. */
  lemma AllowedFileUpperCase()
    ensures AllowedFile("X.PNG") && AllowedFile("photo.Tif")
  {
    assert IsLastDot("X.PNG", 1) && "X.PNG"[2..] == "PNG" && Lower("PNG") == "png";
    assert IsLastDot("photo.Tif", 5) && "photo.Tif"[6..] == "Tif" && Lower("Tif") == "tif";
  }

  /** A name that is only a dot and an extension is accepted. */
  lemma AllowedFileBareExtension()
    ensures AllowedFile(".png")
  {
    assert IsLastDot(".png", 0) && ".png"[1..] == "png" && Lower("png") == "png";
  }

  /** A name without '.' is refused, even when it spells an extension. */
  lemma AllowedFileNeedsDot()
    ensures !AllowedFile("png")
  {
    assert forall i :: !IsLastDot("png", i);
  }

  /** Only the last extension counts. */
  lemma AllowedFileLastExtension()
    ensures !AllowedFile("a.png.exe")
  {
    assert IsLastDot("a.png.exe", 5) && "a.png.exe"[6..] == "exe" && Lower("exe") == "exe";
    forall i | IsLastDot("a.png.exe", i) ensures Lower("a.png.exe"[i + 1..]) !in AllowedExtensions {
      LastDotUnique("a.png.exe", i, 5);
    }
  }

  // ---------------------------------------------------------------------
  // Data of perform_similarity_search

  /** A catalog image (an `Image` row); latitude and longitude may be NULL. */
  datatype CatalogImage = CatalogImage(id: string, latitude: Option<real>, longitude: Option<real>)

  predicate HasCoordinates(img: CatalogImage)
  {
    img.latitude.Some? && img.longitude.Some?
  }

  /** The catalog images that have both coordinates, in catalog order. */
  function Coordinated(images: seq<CatalogImage>): (r: seq<CatalogImage>)
    ensures |r| <= |images|
    ensures forall img :: img in r <==> img in images && HasCoordinates(img)
    decreases |images|
  {
    if images == [] then []
    else
      var last := images[|images| - 1];
      assert images == images[..|images| - 1] + [last];
      Coordinated(images[..|images| - 1]) + (if HasCoordinates(last) then [last] else [])
  }

  /** The query: the uploaded image's id and the user's optional position. */
  datatype Query = Query(imageId: string, userLat: Option<real>, userLon: Option<real>)

  predicate HasUserLocation(q: Query)
  {
    q.userLat.Some? && q.userLon.Some?
  }

  /** The geospatial functions the search imports: the distance and the
      bearing from a first point to a second (the user's position first),
      and the pair of polar distances of a point, north first. */
  datatype Geo = Geo(
    distance: (real, real, real, real) -> Outcome<real>,
    bearing: (real, real, real, real) -> real,
    polar: (real, real) -> Outcome<(real, real)>)

  /** The functions of the geospatial module over one math library. */
  function GeoOf(m: MathLib): Geo
  {
    Geo((lat1, lon1, lat2, lon2) => CalculateDistance(m, lat1, lon1, lat2, lon2),
        (lat1, lon1, lat2, lon2) => CalculateBearing(m, lat1, lon1, lat2, lon2),
        (lat, lon) => PolarDistances(m, lat, lon))
  }

  /** One entry of the `matches` list; `confidence` is in thousandths,
      since the source rounds it to three decimals. */
  datatype Match = Match(
    id: nat,
    image: CatalogImage,
    confidence: int,
    distance: Option<real>,
    bearing: Option<real>,
    northPoleDistance: real,
    southPoleDistance: real)

  /** A `SearchResult` row as `create_search_result` stores it. */
  datatype SearchRecord = SearchRecord(
    queryImageId: string,
    matchImageId: string,
    confidence: int,
    distance: Option<real>,
    bearing: Option<real>,
    distanceFromNorthPole: Option<real>,
    distanceFromSouthPole: Option<real>)

  function RecordOf(queryImageId: string, x: Match): SearchRecord
  {
    SearchRecord(queryImageId, x.image.id, x.confidence, x.distance, x.bearing,
                 Some(x.northPoleDistance), Some(x.southPoleDistance))
  }

  /** The rows recorded for a list of matches: one each, in order, every one
      with both polar distances. */
  function RecordsOf(queryImageId: string, ms: seq<Match>): (rs: seq<SearchRecord>)
    ensures |rs| == |ms|
    ensures forall i :: 0 <= i < |ms| ==> rs[i].matchImageId == ms[i].image.id && rs[i].confidence == ms[i].confidence
    ensures forall r :: r in rs ==> r.queryImageId == queryImageId && r.distanceFromNorthPole.Some? && r.distanceFromSouthPole.Some?
  {
    seq(|ms|, i requires 0 <= i < |ms| => RecordOf(queryImageId, ms[i]))
  }

  /** The images of a list of matches, one per match, in order. */
  function Images(ms: seq<Match>): (r: seq<CatalogImage>)
    ensures |r| == |ms|
    ensures forall i :: 0 <= i < |ms| ==> r[i] == ms[i].image
  {
    seq(|ms|, i requires 0 <= i < |ms| => ms[i].image)
  }

  /** `round(random.uniform(0.7, 0.95), 3)` in thousandths, where `u` is the
      `random.random()` draw that `uniform` scales: the result is within
      half a thousandth of 0.7 + 0.25 u, and lies in [700, 950] whenever the
      draw lies in [0, 1]. */
  function Confidence(u: real): (k: int)
    ensures -0.5 <= k as real - 1000.0 * (0.7 + 0.25 * u) <= 0.5
    ensures 0.0 <= u <= 1.0 ==> 700 <= k <= 950
  {
    RoundHalfEven(1000.0 * (0.7 + 0.25 * u))
  }

  /** What the loop body makes of one image that has coordinates: the
      match, or `None` when a distance computation raises. */
  function AnnotateImage(g: Geo, q: Query, img: CatalogImage, u: real, id: nat): (r: Option<Match>)
    requires HasCoordinates(img)
    ensures r.Some? ==> r.value.image == img && r.value.id == id && r.value.confidence == Confidence(u)
    ensures r.Some? ==> (r.value.distance.Some? <==> HasUserLocation(q)) && (r.value.bearing.Some? <==> HasUserLocation(q))
  {
    var lat, lon := img.latitude.value, img.longitude.value;
    var confidence := Confidence(u);
    var user :=
      if HasUserLocation(q) then
        var d := g.distance(q.userLat.value, q.userLon.value, lat, lon);
        if d.DomainError? then DomainError
        else Ok((Some(d.value), Some(g.bearing(q.userLat.value, q.userLon.value, lat, lon))))
      else Ok((None, None));
    var poles := g.polar(lat, lon);
    if user.DomainError? || poles.DomainError? then None
    else Some(Match(id, img, confidence, user.value.0, user.value.1, poles.value.0, poles.value.1))
  }

  /** The match built for an image carries that image, the given id and the
      confidence of the draw, and satisfies the annotation invariant; there
      is none exactly when the user-to-image distance or a polar distance
      raises. */
  lemma AnnotateImageSpec(g: Geo, q: Query, img: CatalogImage, u: real, id: nat)
    requires HasCoordinates(img)
    ensures var r := AnnotateImage(g, q, img, u, id);
      && (r.Some? ==> r.value.image == img && r.value.id == id && r.value.confidence == Confidence(u))
      && (r.Some? ==> WellAnnotated(g, q, r.value))
      && (r.None? <==>
           || (HasUserLocation(q) && g.distance(q.userLat.value, q.userLon.value,
                                                       img.latitude.value, img.longitude.value).DomainError?)
           || g.polar(img.latitude.value, img.longitude.value).DomainError?)
  {
  }

  /** The annotation invariant of a match: its image has coordinates;
      distance and bearing are present exactly when the user gave both
      coordinates, and are then measured from the user to the image; both
      polar distances are those of the image. */
  ghost predicate WellAnnotated(g: Geo, q: Query, x: Match)
  {
    && HasCoordinates(x.image)
    && (x.distance.Some? <==> HasUserLocation(q))
    && (x.bearing.Some? <==> HasUserLocation(q))
    && (HasUserLocation(q) ==>
          && g.distance(q.userLat.value, q.userLon.value,
                               x.image.latitude.value, x.image.longitude.value) == Ok(x.distance.value)
          && x.bearing.value == g.bearing(q.userLat.value, q.userLon.value,
                                                 x.image.latitude.value, x.image.longitude.value))
    && g.polar(x.image.latitude.value, x.image.longitude.value)
         == Ok((x.northPoleDistance, x.southPoleDistance))
  }

  /** The state of the loop over the catalog: the matches built so far, and
      whether an exception has ended it. */
  datatype Scan = Scan(matches: seq<Match>, failed: bool)

  /** The loop of `perform_similarity_search` over `images`: images without
      coordinates are skipped; the k-th image kept is scored from the k-th
      random draw `draw(k)`, and its result row gets id `base + k`; the first
      exception stops the loop. */
  function ScanCatalog(g: Geo, q: Query, images: seq<CatalogImage>, draw: nat -> real, base: nat): (s: Scan)
    ensures |s.matches| <= |images|
    decreases |images|
  {
    if images == [] then Scan([], false)
    else
      var prev := ScanCatalog(g, q, images[..|images| - 1], draw, base);
      var img := images[|images| - 1];
      if prev.failed || !HasCoordinates(img) then prev
      else match AnnotateImage(g, q, img, draw(|prev.matches|), base + |prev.matches|)
        case None => Scan(prev.matches, true)
        case Some(x) => Scan(prev.matches + [x], false)
  }

  /** Images without coordinates are neither scored nor recorded nor
      returned: the matches are the coordinated images, in catalog order,
      all of them unless an exception stopped the loop. */
  lemma {:induction false} ScanFollowsCatalog(g: Geo, q: Query, images: seq<CatalogImage>, draw: nat -> real, base: nat)
    ensures var s := ScanCatalog(g, q, images, draw, base);
      && |s.matches| <= |Coordinated(images)|
      && Images(s.matches) == Coordinated(images)[..|s.matches|]
      && (!s.failed ==> |s.matches| == |Coordinated(images)|)
    decreases |images|
  {
    if images != [] {
      var init := images[..|images| - 1];
      ScanFollowsCatalog(g, q, init, draw, base);
      var prev := ScanCatalog(g, q, init, draw, base);
      var s := ScanCatalog(g, q, images, draw, base);
      var img := images[|images| - 1];
      if !prev.failed && HasCoordinates(img) {
        var c := Coordinated(images);
        assert c == Coordinated(init) + [img];
        if !s.failed {
          AnnotateImageSpec(g, q, img, draw(|prev.matches|), base + |prev.matches|);
          assert s.matches == prev.matches + [s.matches[|prev.matches|]];
          assert Images(s.matches) == Images(prev.matches) + [img];
        }
      }
    }
  }

  /** The k-th match of the scan is scored by the k-th draw and identified
      by the k-th new row. */
  lemma {:induction false} ScanNumbering(g: Geo, q: Query, images: seq<CatalogImage>, draw: nat -> real, base: nat)
    ensures var s := ScanCatalog(g, q, images, draw, base);
      forall i :: 0 <= i < |s.matches| ==>
        s.matches[i].id == base + i && s.matches[i].confidence == Confidence(draw(i))
    decreases |images|
  {
    if images != [] {
      var init := images[..|images| - 1];
      ScanNumbering(g, q, init, draw, base);
      var prev := ScanCatalog(g, q, init, draw, base);
      var s := ScanCatalog(g, q, images, draw, base);
      var img := images[|images| - 1];
      if !prev.failed && HasCoordinates(img) && !s.failed {
        var n := |prev.matches|;
        AnnotateImageSpec(g, q, img, draw(n), base + n);
        var x := AnnotateImage(g, q, img, draw(n), base + n).value;
        assert s.matches == prev.matches + [x];
        forall i | 0 <= i < |s.matches|
          ensures s.matches[i].id == base + i && s.matches[i].confidence == Confidence(draw(i))
        {
          if i < n {
            assert s.matches[i] == prev.matches[i];
          }
        }
      }
    }
  }

  /** Every match of the scan satisfies the annotation invariant. */
  lemma {:induction false} ScanAnnotations(g: Geo, q: Query, images: seq<CatalogImage>, draw: nat -> real, base: nat)
    ensures forall x :: x in ScanCatalog(g, q, images, draw, base).matches ==> WellAnnotated(g, q, x)
    decreases |images|
  {
    if images != [] {
      var init := images[..|images| - 1];
      ScanAnnotations(g, q, init, draw, base);
      var prev := ScanCatalog(g, q, init, draw, base);
      var img := images[|images| - 1];
      if !prev.failed && HasCoordinates(img) {
        AnnotateImageSpec(g, q, img, draw(|prev.matches|), base + |prev.matches|);
      }
    }
  }

  /** With draws in [0, 1], as `random.random()` gives, every confidence
      lies in [700, 950] thousandths. */
  lemma ScanConfidences(g: Geo, q: Query, images: seq<CatalogImage>, draw: nat -> real, base: nat)
    requires forall k: nat :: 0.0 <= draw(k) <= 1.0
    ensures forall x :: x in ScanCatalog(g, q, images, draw, base).matches ==> 700 <= x.confidence <= 950
  {
    var s := ScanCatalog(g, q, images, draw, base);
    ScanNumbering(g, q, images, draw, base);
    forall x | x in s.matches ensures 700 <= x.confidence <= 950 {
      var i :| 0 <= i < |s.matches| && s.matches[i] == x;
      assert 0.0 <= draw(i) <= 1.0;
    }
  }

  /** With the geospatial module's own functions, every bearing the search
      computes is normalised to [0, 360). */
  lemma ScanBearingsNormalised(m: MathLib, q: Query, images: seq<CatalogImage>, draw: nat -> real, base: nat)
    ensures forall x :: x in ScanCatalog(GeoOf(m), q, images, draw, base).matches && x.bearing.Some? ==>
      0.0 <= x.bearing.value < 360.0
  {
    ScanAnnotations(GeoOf(m), q, images, draw, base);
  }

  /** Once the loop has raised, the rest of the catalog changes nothing. */
  lemma {:induction false} ScanFailureIsFinal(g: Geo, q: Query, images: seq<CatalogImage>, draw: nat -> real, base: nat, n: nat)
    requires n <= |images|
    requires ScanCatalog(g, q, images[..n], draw, base).failed
    ensures ScanCatalog(g, q, images, draw, base) == ScanCatalog(g, q, images[..n], draw, base)
    decreases |images|
  {
    if n < |images| {
      var init := images[..|images| - 1];
      assert init[..n] == images[..n];
      ScanFailureIsFinal(g, q, init, draw, base, n);
    } else {
      assert images[..n] == images;
    }
  }

  // ---------------------------------------------------------------------
  // matches.sort(key=confidence, reverse=True); matches[:5]

  predicate SortedDesc(s: seq<Match>)
  {
    forall i, j :: 0 <= i < j < |s| ==> s[i].confidence >= s[j].confidence
  }

  /** Inserts `x` after every element of larger confidence and before the
      first one of equal or smaller confidence. */
  function InsertDesc(x: Match, s: seq<Match>): (r: seq<Match>)
    ensures multiset(r) == multiset(s) + multiset{x}
    decreases |s|
  {
    if s == [] || s[0].confidence <= x.confidence then [x] + s
    else
      assert s == [s[0]] + s[1..];
      [s[0]] + InsertDesc(x, s[1..])
  }

  /** In a descending list, nothing after position `n - 1` is larger. */
  lemma SortedTailBelow(s: seq<Match>, n: int)
    requires SortedDesc(s) && 0 < n <= |s|
    ensures forall y :: y in s[n..] ==> y.confidence <= s[n - 1].confidence
  {
    forall y | y in s[n..] ensures y.confidence <= s[n - 1].confidence {
      var j :| 0 <= j < |s[n..]| && s[n..][j] == y;
      assert s[n + j] == y;
    }
  }

  /** Slices of a descending list are descending. */
  lemma SortedSlice(s: seq<Match>, lo: int, hi: int)
    requires SortedDesc(s) && 0 <= lo <= hi <= |s|
    ensures SortedDesc(s[lo..hi])
  {
    var t := s[lo..hi];
    forall i, j | 0 <= i < j < |t| ensures t[i].confidence >= t[j].confidence {
      assert t[i] == s[lo + i] && t[j] == s[lo + j];
    }
  }

  /** A descending list stays descending behind an element no smaller than
      any of its own. */
  lemma SortedCons(y: Match, s: seq<Match>)
    requires SortedDesc(s)
    requires forall z :: z in s ==> z.confidence <= y.confidence
    ensures SortedDesc([y] + s)
  {
    var r := [y] + s;
    forall i, j | 0 <= i < j < |r| ensures r[i].confidence >= r[j].confidence {
      assert r[j] == s[j - 1];
      if i > 0 {
        assert r[i] == s[i - 1];
      }
    }
  }

  /** Every element of `InsertDesc(x, s)` is `x` or an element of `s`. */
  lemma InsertDescElements(x: Match, s: seq<Match>, y: Match)
    requires y in InsertDesc(x, s)
    ensures y == x || y in s
  {
    assert y in multiset(InsertDesc(x, s));
  }

  lemma {:induction false} InsertDescSorted(x: Match, s: seq<Match>)
    requires SortedDesc(s)
    ensures SortedDesc(InsertDesc(x, s))
    decreases |s|
  {
    if s == [] || s[0].confidence <= x.confidence {
      forall z | z in s ensures z.confidence <= x.confidence {
        var j :| 0 <= j < |s| && s[j] == z;
      }
      SortedCons(x, s);
    } else {
      var tail := s[1..];
      var rest := InsertDesc(x, tail);
      SortedSlice(s, 1, |s|);
      InsertDescSorted(x, tail);
      forall y | y in rest ensures y.confidence <= s[0].confidence {
        InsertDescElements(x, tail, y);
        if y != x {
          var j :| 0 <= j < |tail| && tail[j] == y;
          assert s[j + 1] == y;
        }
      }
      SortedCons(s[0], rest);
    }
  }

  /** A stable sort by descending confidence, as Python's `list.sort` with
      `reverse=True` performs it: a permutation, in descending order. */
  function SortDesc(s: seq<Match>): (r: seq<Match>)
    ensures |r| == |s| && multiset(r) == multiset(s)
    ensures SortedDesc(r)
    decreases |s|
  {
    if s == [] then []
    else
      assert s == [s[0]] + s[1..];
      assert multiset(s) == multiset(s[1..]) + multiset{s[0]};
      var sortedTail := SortDesc(s[1..]);
      InsertDescSorted(s[0], sortedTail);
      var r := InsertDesc(s[0], sortedTail);
      assert |r| == |multiset(r)|;
      r
  }

  /** The elements of `s` whose confidence is `c`, in order. */
  function WithConfidence(s: seq<Match>, c: int): seq<Match>
    decreases |s|
  {
    if s == [] then []
    else (if s[0].confidence == c then [s[0]] else []) + WithConfidence(s[1..], c)
  }

  lemma WithConfidenceCons(y: Match, s: seq<Match>, c: int)
    ensures WithConfidence([y] + s, c) == (if y.confidence == c then [y] else []) + WithConfidence(s, c)
  {
    assert ([y] + s)[1..] == s;
  }

  lemma {:induction false} InsertDescWithConfidence(x: Match, s: seq<Match>, c: int)
    ensures WithConfidence(InsertDesc(x, s), c)
         == (if x.confidence == c then [x] else []) + WithConfidence(s, c)
    decreases |s|
  {
    if s == [] || s[0].confidence <= x.confidence {
      WithConfidenceCons(x, s, c);
    } else {
      var rest := InsertDesc(x, s[1..]);
      InsertDescWithConfidence(x, s[1..], c);
      WithConfidenceCons(s[0], rest, c);
      assert s == [s[0]] + s[1..];
      WithConfidenceCons(s[0], s[1..], c);
    }
  }

  /** Stability: for every confidence value, the matches with that value
      come out in the order they went in. */
  lemma {:induction false} SortDescStable(s: seq<Match>, c: int)
    ensures WithConfidence(SortDesc(s), c) == WithConfidence(s, c)
    decreases |s|
  {
    if s != [] {
      SortDescStable(s[1..], c);
      InsertDescWithConfidence(s[0], SortDesc(s[1..]), c);
    }
  }

  lemma {:induction false} WithConfidencePrefix(s: seq<Match>, n: nat, c: int)
    requires n <= |s|
    ensures var p := WithConfidence(s[..n], c);
      |p| <= |WithConfidence(s, c)| && p == WithConfidence(s, c)[..|p|]
    decreases n
  {
    if n > 0 {
      assert s[..n][1..] == s[1..][..n - 1];
      WithConfidencePrefix(s[1..], n - 1, c);
    }
  }

  function Min(a: int, b: int): int { if a <= b then a else b }

  /** The sort and the slice: the first five of the stable descending sort. */
  function Ranked(ms: seq<Match>): (r: seq<Match>)
    ensures |r| == Min(5, |ms|)
    ensures forall x :: x in r ==> x in ms
  {
    var sorted := SortDesc(ms);
    assert forall x :: x in sorted[..Min(5, |sorted|)] ==> x in ms by {
      forall x | x in sorted[..Min(5, |sorted|)] ensures x in ms {
        assert x in multiset(sorted);
      }
    }
    sorted[..Min(5, |sorted|)]
  }

  /** Top-5 selection: `min(5, n)` matches in descending confidence, taken
      from the computed ones, and every computed match left out has a
      confidence no larger than the last one returned. */
  lemma TopFiveSelection(ms: seq<Match>)
    ensures var r := Ranked(ms);
      && |r| == Min(5, |ms|)
      && SortedDesc(r)
      && multiset(r) <= multiset(ms)
      && forall x :: x in multiset(ms) - multiset(r) ==> |r| > 0 && x.confidence <= r[|r| - 1].confidence
  {
    var sorted := SortDesc(ms);
    var n := Min(5, |ms|);
    var r := sorted[..n];
    var rest := sorted[n..];
    SortedSlice(sorted, 0, n);
    assert sorted[0..n] == r;
    assert sorted == r + rest;
    assert multiset(ms) - multiset(r) == multiset(rest);
    if n > 0 {
      SortedTailBelow(sorted, n);
    } else {
      assert rest == [];
    }
  }

  /** Ties keep catalog order in the result: the returned matches of any one
      confidence are the first ones of that confidence in the input. */
  lemma RankedStable(ms: seq<Match>, c: int)
    ensures var p := WithConfidence(Ranked(ms), c);
      |p| <= |WithConfidence(ms, c)| && p == WithConfidence(ms, c)[..|p|]
  {
    var sorted := SortDesc(ms);
    WithConfidencePrefix(sorted, Min(5, |sorted|), c);
    SortDescStable(ms, c);
  }

  /** The value `perform_similarity_search` returns for a finished loop:
      the empty list when an exception was caught, else the top five. */
  function SearchResults(s: Scan): (r: seq<Match>)
    ensures s.failed ==> r == []
    ensures !s.failed ==> |r| == Min(5, |s.matches|)
  {
    if s.failed then [] else Ranked(s.matches)
  }

  /** The result count: without an exception, one match per coordinated
      image was computed (and recorded), and `min(5, that many)` are
      returned, even when more than five were recorded; with one, none. */
  lemma SearchResultCount(g: Geo, q: Query, catalog: seq<CatalogImage>, draw: nat -> real, base: nat)
    ensures var s := ScanCatalog(g, q, catalog, draw, base);
      && (s.failed ==> SearchResults(s) == [])
      && (!s.failed ==> |s.matches| == |Coordinated(catalog)|
                        && |SearchResults(s)| == Min(5, |Coordinated(catalog)|))
  {
    ScanFollowsCatalog(g, q, catalog, draw, base);
    TopFiveSelection(ScanCatalog(g, q, catalog, draw, base).matches);
  }

  // ---------------------------------------------------------------------
  // The persistence sink and the search itself

  /** The `search_results` table, which `create_search_result` appends to. */
  class ResultStore {
    var rows: seq<SearchRecord>

    constructor ()
      ensures rows == []
    {
      rows := [];
    }

    /** `create_search_result`: stores the row and returns its id (the
        row's position stands for the generated UUID). */
    method CreateSearchResult(r: SearchRecord) returns (id: nat)
      modifies this
      ensures rows == old(rows) + [r] && id == |old(rows)|
    {
      id := |rows|;
      rows := rows + [r];
    }
  }

  lemma RecordsOfAppend(queryImageId: string, ms: seq<Match>, x: Match)
    ensures RecordsOf(queryImageId, ms + [x]) == RecordsOf(queryImageId, ms) + [RecordOf(queryImageId, x)]
  {
  }

  /** `AnnotateImage` in terms of the values the loop body computes. */
  lemma AnnotateImageOk(g: Geo, q: Query, img: CatalogImage, u: real, id: nat,
                        distance: Option<real>, bearing: Option<real>, north: real, south: real)
    requires HasCoordinates(img)
    requires HasUserLocation(q) ==>
      && distance.Some?
      && g.distance(q.userLat.value, q.userLon.value, img.latitude.value, img.longitude.value) == Ok(distance.value)
      && bearing == Some(g.bearing(q.userLat.value, q.userLon.value, img.latitude.value, img.longitude.value))
    requires !HasUserLocation(q) ==> distance.None? && bearing.None?
    requires g.polar(img.latitude.value, img.longitude.value) == Ok((north, south))
    ensures AnnotateImage(g, q, img, u, id) == Some(Match(id, img, Confidence(u), distance, bearing, north, south))
  {
  }

  /** The loop skips an image without coordinates. */
  lemma ScanSkips(g: Geo, q: Query, catalog: seq<CatalogImage>, draw: nat -> real, base: nat, i: nat)
    requires i < |catalog| && !HasCoordinates(catalog[i])
    ensures ScanCatalog(g, q, catalog[..i + 1], draw, base) == ScanCatalog(g, q, catalog[..i], draw, base)
  {
    assert catalog[..i + 1][..i] == catalog[..i];
  }

  /** The loop appends the match it computed for a coordinated image. */
  lemma ScanExtends(g: Geo, q: Query, catalog: seq<CatalogImage>, draw: nat -> real, base: nat, i: nat,
                    matches: seq<Match>, x: Match)
    requires i < |catalog| && HasCoordinates(catalog[i])
    requires ScanCatalog(g, q, catalog[..i], draw, base) == Scan(matches, false)
    requires AnnotateImage(g, q, catalog[i], draw(|matches|), base + |matches|) == Some(x)
    ensures ScanCatalog(g, q, catalog[..i + 1], draw, base) == Scan(matches + [x], false)
  {
    assert catalog[..i + 1][..i] == catalog[..i];
  }

  /** An exception while annotating a coordinated image ends the whole scan. */
  lemma ScanRaises(g: Geo, q: Query, catalog: seq<CatalogImage>, draw: nat -> real, base: nat, i: nat,
                   matches: seq<Match>)
    requires i < |catalog| && HasCoordinates(catalog[i])
    requires ScanCatalog(g, q, catalog[..i], draw, base) == Scan(matches, false)
    requires AnnotateImage(g, q, catalog[i], draw(|matches|), base + |matches|).None?
    ensures ScanCatalog(g, q, catalog, draw, base) == Scan(matches, true)
  {
    assert catalog[..i + 1][..i] == catalog[..i];
    ScanFailureIsFinal(g, q, catalog, draw, base, i + 1);
  }

  /** The body of the loop of `perform_similarity_search` for an image with
      coordinates: scores it, computes its metrics, records a result row and
      returns the match; returns `None`, with nothing recorded, when a
      distance computation raises. */
  method AnnotateAndRecord(g: Geo, q: Query, image: CatalogImage, u: real, store: ResultStore)
    returns (x: Option<Match>)
    requires HasCoordinates(image)
    modifies store
    ensures x == AnnotateImage(g, q, image, u, old(|store.rows|))
    ensures store.rows == old(store.rows) + if x.Some? then [RecordOf(q.imageId, x.value)] else []
  {
    var lat, lon := image.latitude.value, image.longitude.value;
    var confidence := Confidence(u);

    var distance: Option<real> := None;
    var bearing: Option<real> := None;
    if q.userLat.Some? && q.userLon.Some? {
      var d := g.distance(q.userLat.value, q.userLon.value, lat, lon);
      if d.DomainError? {
        return None;
      }
      distance := Some(d.value);
      bearing := Some(g.bearing(q.userLat.value, q.userLon.value, lat, lon));
    }

    var poles := g.polar(lat, lon);
    if poles.DomainError? {
      return None;
    }

    var id := store.CreateSearchResult(SearchRecord(
      q.imageId, image.id, confidence, distance, bearing, Some(poles.value.0), Some(poles.value.1)));
    AnnotateImageOk(g, q, image, u, id, distance, bearing, poles.value.0, poles.value.1);
    x := Some(Match(id, image, confidence, distance, bearing, poles.value.0, poles.value.1));
  }

  /** `perform_similarity_search`. The catalog is what `get_all_images`
      returned; `draw(k)` is the k-th `random.random()` value. Every row it
      writes stays written, also when an exception makes it return []. */
  method PerformSimilaritySearch(g: Geo, q: Query, catalog: seq<CatalogImage>, draw: nat -> real, store: ResultStore)
    returns (result: seq<Match>)
    modifies store
    ensures var s := ScanCatalog(g, q, catalog, draw, old(|store.rows|));
      && store.rows == old(store.rows) + RecordsOf(q.imageId, s.matches)
      && result == SearchResults(s)
  {
    ghost var base := |store.rows|;
    var matches: seq<Match> := [];
    var i := 0;
    while i < |catalog|
      invariant 0 <= i <= |catalog|
      invariant ScanCatalog(g, q, catalog[..i], draw, base) == Scan(matches, false)
      invariant store.rows == old(store.rows) + RecordsOf(q.imageId, matches)
      invariant |store.rows| == base + |matches|
    {
      var image := catalog[i];
      if image.latitude.None? || image.longitude.None? {
        ScanSkips(g, q, catalog, draw, base, i);
        i := i + 1;
        continue;
      }
      var x := AnnotateAndRecord(g, q, image, draw(|matches|), store);
      if x.None? {
        ScanRaises(g, q, catalog, draw, base, i, matches);
        return [];
      }
      ScanExtends(g, q, catalog, draw, base, i, matches, x.value);
      RecordsOfAppend(q.imageId, matches, x.value);
      matches := matches + [x.value];
      i := i + 1;
    }
    assert catalog[..i] == catalog;
    matches := SortDesc(matches);
    result := matches[..Min(5, |matches|)];
  }
}
