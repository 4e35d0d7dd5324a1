/** Clipping each region to the crop, dropping degenerate ones, and running the
    edge detector on the survivors (`apply_canny_on_landmarks`). */
module EdgeScorer {
  import opened Imaging
  import opened Landmarks

  /** The low and high hysteresis thresholds handed to the edge detector. */
  datatype Threshold = Threshold(low: int, high: int)

  /** One surviving region: where its rectangle starts in the crop, and its edge map. */
  datatype EdgeResult = EdgeResult(topLeft: Point, edges: EdgeMap)

  function Max(a: int, b: int): int { if a >= b then a else b }

  function Min(a: int, b: int): int { if a <= b then a else b }

  /** Upper-left corner of the region's rectangle, clipped at 0. The extent is
      halved with floor division (the same as `/` here, the divisor being 2). */
  function TopLeft(r: Region): Point {
    Point(Max(r.center.x - r.extent.x / 2, 0), Max(r.center.y - r.extent.y / 2, 0))
  }

  /** Lower-right corner (exclusive) of the region's rectangle, clipped at the
      crop's width and height. */
  function BottomRight(r: Region, width: int, height: int): Point {
    Point(Min(r.center.x + r.extent.x / 2, width), Min(r.center.y + r.extent.y / 2, height))
  }

  /** A region survives clipping when its clipped rectangle is at least 2 by 2. */
  predicate Survives(r: Region, width: int, height: int) {
    BottomRight(r, width, height).x - TopLeft(r).x >= 2 &&
    BottomRight(r, width, height).y - TopLeft(r).y >= 2
  }

  /** The source's two skip tests, as written: first an empty or inverted
      rectangle, then a slice with no cells or with fewer than 2 rows or columns. */
  predicate SkippedAsWritten(r: Region, width: nat, height: nat) {
    var tl, br := TopLeft(r), BottomRight(r, width, height);
    tl.x >= br.x || tl.y >= br.y ||
    (br.y - tl.y) * (br.x - tl.x) == 0 || br.y - tl.y < 2 || br.x - tl.x < 2
  }

  /** The two skip tests skip a region exactly when its clipped rectangle is
      narrower or shorter than 2. The first test adds nothing to which regions
      are skipped, but it still keeps the slice bounds non-negative, which
      `Crop` requires. */
  lemma SkipTestsAgree(r: Region, width: nat, height: nat)
    ensures SkippedAsWritten(r, width, height) <==> !Survives(r, width, height)
  {
    var tl, br := TopLeft(r), BottomRight(r, width, height);
    if br.y - tl.y >= 2 && br.x - tl.x >= 2 {
      assert (br.y - tl.y) * (br.x - tl.x) >= 4 by {
        MulAtLeast(br.y - tl.y, br.x - tl.x);
      }
    }
  }

  lemma MulAtLeast(a: int, b: int)
    requires a >= 2 && b >= 2
    ensures a * b >= 4
  {
  }

  /** A surviving region's clipped rectangle lies inside the crop and is at least 2 by 2. */
  lemma SurvivorInside(r: Region, width: nat, height: nat)
    requires Survives(r, width, height)
    ensures 0 <= TopLeft(r).x && TopLeft(r).x + 2 <= BottomRight(r, width, height).x <= width
    ensures 0 <= TopLeft(r).y && TopLeft(r).y + 2 <= BottomRight(r, width, height).y <= height
  {
  }

  /** The result the scorer emits for pair `i` when that region survives. */
  function ScoreAt(face: Image, landmarks: seq<Region>, thresholds: seq<Threshold>,
                   canny: EdgeOperator, i: nat): EdgeResult
    requires face.Valid()
    requires i < |landmarks| && i < |thresholds|
    requires Survives(landmarks[i], face.width, face.height)
  {
    var r := landmarks[i];
    var tl, br := TopLeft(r), BottomRight(r, face.width, face.height);
    EdgeResult(tl, canny(Crop(face, tl, br), thresholds[i].low, thresholds[i].high))
  }

  /** The edge map of a surviving region has exactly its clipped rectangle's dimensions. */
  lemma ScoreAtShape(face: Image, landmarks: seq<Region>, thresholds: seq<Threshold>,
                     canny: EdgeOperator, i: nat)
    requires face.Valid() && ShapePreserving(canny)
    requires i < |landmarks| && i < |thresholds|
    requires Survives(landmarks[i], face.width, face.height)
    ensures var e := ScoreAt(face, landmarks, thresholds, canny, i);
            e.topLeft == TopLeft(landmarks[i]) &&
            e.edges.Valid() &&
            e.edges.width == BottomRight(landmarks[i], face.width, face.height).x - e.topLeft.x &&
            e.edges.height == BottomRight(landmarks[i], face.width, face.height).y - e.topLeft.y
  {
  }

  /** No pair is dropped exactly when every region survives clipping. */
  lemma {:induction false} NothingDroppedIffAllSurvive(face: Image, landmarks: seq<Region>,
                                                       thresholds: seq<Threshold>,
                                                       canny: EdgeOperator, n: nat)
    requires face.Valid()
    requires n <= |landmarks| && n <= |thresholds|
    ensures |CannyResults(face, landmarks, thresholds, canny, n)| <= n
    ensures |CannyResults(face, landmarks, thresholds, canny, n)| == n <==>
              forall i :: 0 <= i < n ==> Survives(landmarks[i], face.width, face.height)
  {
    if n > 0 {
      NothingDroppedIffAllSurvive(face, landmarks, thresholds, canny, n - 1);
    }
  }

  /** A rectangle anchored at the result's top-left corner with the dimensions
      of its edge map lies inside a `width` by `height` crop and is at least 2 by 2. */
  predicate InsideAndLarge(e: EdgeResult, width: nat, height: nat) {
    e.edges.Valid() &&
    0 <= e.topLeft.x && 2 <= e.edges.width && e.topLeft.x + e.edges.width <= width &&
    0 <= e.topLeft.y && 2 <= e.edges.height && e.topLeft.y + e.edges.height <= height
  }

  /** Every emitted result describes a rectangle inside the crop of at least 2 by 2. */
  lemma ScoreAtInside(face: Image, landmarks: seq<Region>, thresholds: seq<Threshold>,
                      canny: EdgeOperator, i: nat)
    requires face.Valid() && ShapePreserving(canny)
    requires i < |landmarks| && i < |thresholds|
    requires Survives(landmarks[i], face.width, face.height)
    ensures InsideAndLarge(ScoreAt(face, landmarks, thresholds, canny, i), face.width, face.height)
  {
    ScoreAtShape(face, landmarks, thresholds, canny, i);
  }

  /** The results for the first `n` (region, threshold) pairs, in order. */
  function CannyResults(face: Image, landmarks: seq<Region>, thresholds: seq<Threshold>,
                        canny: EdgeOperator, n: nat): seq<EdgeResult>
    requires face.Valid()
    requires n <= |landmarks| && n <= |thresholds|
  {
    if n == 0 then []
    else
      CannyResults(face, landmarks, thresholds, canny, n - 1) +
      (if Survives(landmarks[n - 1], face.width, face.height)
       then [ScoreAt(face, landmarks, thresholds, canny, n - 1)] else [])
  }

  /** The indices among the first `n` whose regions survive clipping, in increasing order. */
  function Kept(landmarks: seq<Region>, width: nat, height: nat, n: nat): (ks: seq<nat>)
    requires n <= |landmarks|
    ensures |ks| <= n
    ensures forall k :: 0 <= k < |ks| ==> ks[k] < n && Survives(landmarks[ks[k]], width, height)
    ensures forall k, k' :: 0 <= k < k' < |ks| ==> ks[k] < ks[k']
    ensures forall i :: 0 <= i < n && Survives(landmarks[i], width, height) ==> i in ks
  {
    if n == 0 then []
    else
      Kept(landmarks, width, height, n - 1) +
      (if Survives(landmarks[n - 1], width, height) then [n - 1] else [])
  }

  /** The results are, in their original order, exactly the scores of the
      surviving pairs: nothing else is dropped and nothing is reordered. */
  lemma {:induction false} CannyResultsAreKeptScores(face: Image, landmarks: seq<Region>,
                                                     thresholds: seq<Threshold>,
                                                     canny: EdgeOperator, n: nat)
    requires face.Valid()
    requires n <= |landmarks| && n <= |thresholds|
    ensures var rs, ks := CannyResults(face, landmarks, thresholds, canny, n),
                          Kept(landmarks, face.width, face.height, n);
            |rs| == |ks| &&
            forall k :: 0 <= k < |ks| ==> rs[k] == ScoreAt(face, landmarks, thresholds, canny, ks[k])
  {
    if n > 0 {
      CannyResultsAreKeptScores(face, landmarks, thresholds, canny, n - 1);
      var prev := CannyResults(face, landmarks, thresholds, canny, n - 1);
      var prevKept := Kept(landmarks, face.width, face.height, n - 1);
      if Survives(landmarks[n - 1], face.width, face.height) {
        var rs := prev + [ScoreAt(face, landmarks, thresholds, canny, n - 1)];
        var ks := prevKept + [n - 1];
        forall k | 0 <= k < |ks|
          ensures rs[k] == ScoreAt(face, landmarks, thresholds, canny, ks[k])
        {
          if k < |prevKept| {
            assert rs[k] == prev[k] && ks[k] == prevKept[k];
          }
        }
      }
    }
  }


  /** Clips each region against the crop, skips degenerate rectangles and runs
      the edge detector on the rest with the paired thresholds. The pairs are
      those of `zip`: as many as the shorter of the two lists. */
  method ApplyCannyOnLandmarks(face: Image, landmarks: seq<Region>, thresholds: seq<Threshold>,
                               canny: EdgeOperator)
    returns (results: seq<EdgeResult>)
    requires face.Valid()
    requires ShapePreserving(canny)
    ensures |results| <= |landmarks| && |results| <= |thresholds|
    ensures results == CannyResults(face, landmarks, thresholds, canny,
                                    Min(|landmarks|, |thresholds|))
    ensures forall k :: 0 <= k < |results| ==> InsideAndLarge(results[k], face.width, face.height)
  {
    var h, w := face.height, face.width;
    var pairs := Min(|landmarks|, |thresholds|);
    results := [];
    for i := 0 to pairs
      invariant |results| <= i
      invariant results == CannyResults(face, landmarks, thresholds, canny, i)
      invariant forall k :: 0 <= k < |results| ==> InsideAndLarge(results[k], w, h)
    {
      var region, threshold := landmarks[i], thresholds[i];
      var topLeft := TopLeft(region);
      var bottomRight := BottomRight(region, w, h);
      if topLeft.x >= bottomRight.x || topLeft.y >= bottomRight.y {
        assert !Survives(region, w, h);
        continue;
      }
      var roi := Crop(face, topLeft, bottomRight);
      // `roi.size` counts the three channels too; it is zero exactly when the area is
      var empty := roi.Area() == 0;
      assert roi.height >= 2 && roi.width >= 2 ==> !empty by {
        if roi.height >= 2 && roi.width >= 2 { MulAtLeast(roi.height, roi.width); }
      }
      if empty || roi.height < 2 || roi.width < 2 {
        assert !Survives(region, w, h);
        continue;
      }
      assert Survives(region, w, h);
      var edges := canny(roi, threshold.low, threshold.high);
      assert EdgeResult(topLeft, edges) == ScoreAt(face, landmarks, thresholds, canny, i);
      ScoreAtInside(face, landmarks, thresholds, canny, i);
      results := results + [EdgeResult(topLeft, edges)];
    }
  }
}
