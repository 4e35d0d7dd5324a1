/** Turning the edge maps of the surviving regions into one wrinkle score: the
    mean, over the regions, of the percentage of edge pixels in each map.
    Percentages are exact rationals here. */
module Aggregator {
  import opened Imaging
  import opened Landmarks
  import opened EdgeScorer

  /** A result whose edge map can be measured: well formed, with at least one cell
      (otherwise the percentage would divide by zero). */
  predicate Measurable(e: EdgeResult) {
    e.edges.Valid() && e.edges.Area() > 0
  }

  predicate AllMeasurable(results: seq<EdgeResult>) {
    forall k :: 0 <= k < |results| ==> Measurable(results[k])
  }

  /** Percentage of edge pixels in one map, over the map's own area. */
  function EdgePercentage(e: EdgeResult): (p: real)
    requires Measurable(e)
    ensures 0.0 <= p <= 100.0
    ensures p == 0.0 <==> CountNonZero(e.edges) == 0
    ensures p == 100.0 <==> CountNonZero(e.edges) == e.edges.Area()
  {
    PercentBounds(CountNonZero(e.edges), e.edges.Area());
    Percent(CountNonZero(e.edges), e.edges.Area())
  }

  /** `count` out of `area`, as a percentage. */
  function Percent(count: nat, area: nat): real
    requires area > 0
  {
    (count as real / area as real) * 100.0
  }

  lemma PercentBounds(count: nat, area: nat)
    requires 0 < area && count <= area
    ensures 0.0 <= Percent(count, area) <= 100.0
    ensures Percent(count, area) == 0.0 <==> count == 0
    ensures Percent(count, area) == 100.0 <==> count == area
  {
    var c, a := count as real, area as real;
    DivAtMostOne(c, a);
    assert c / a * a == c;
  }

  lemma DivAtMostOne(a: real, b: real)
    requires 0.0 <= a <= b && b > 0.0
    ensures 0.0 <= a / b <= 1.0
  {
    assert a / b * b == a;
  }

  lemma MeanAtMost(total: real, n: real)
    requires 0.0 <= total <= 100.0 * n && n > 0.0
    ensures 0.0 <= total / n <= 100.0
  {
    DivAtMostOne(total, 100.0 * n);
    assert total / n == 100.0 * (total / (100.0 * n));
  }

  /** Sum of the percentages of all results. */
  function TotalPercentage(results: seq<EdgeResult>): real
    requires AllMeasurable(results)
  {
    if results == [] then 0.0
    else TotalPercentage(results[..|results| - 1]) + EdgePercentage(results[|results| - 1])
  }

  /** The sum of `n` percentages lies between 0 and `100 * n`. */
  lemma {:induction false} TotalPercentageBounds(results: seq<EdgeResult>)
    requires AllMeasurable(results)
    ensures 0.0 <= TotalPercentage(results) <= 100.0 * |results| as real
  {
    if results != [] {
      TotalPercentageBounds(results[..|results| - 1]);
    }
  }

  /** The wrinkle score of a non-empty list of results: the mean percentage. */
  function MeanPercentage(results: seq<EdgeResult>): (score: real)
    requires |results| > 0 && AllMeasurable(results)
    ensures 0.0 <= score <= 100.0
  {
    TotalPercentageBounds(results);
    MeanAtMost(TotalPercentage(results), |results| as real);
    TotalPercentage(results) / |results| as real
  }

  /** The main loop's aggregation: add up each map's edge percentage and divide
      by the number of results. An empty list would divide by zero. */
  method AverageWrinklePercentage(results: seq<EdgeResult>) returns (average: real)
    requires |results| > 0
    requires AllMeasurable(results)
    ensures average == MeanPercentage(results)
    ensures 0.0 <= average <= 100.0
  {
    var total := 0.0;
    for i := 0 to |results|
      invariant total == TotalPercentage(results[..i])
    {
      var edges := results[i].edges;
      var edgePixels := CountNonZero(edges);
      var areaPixels := edges.width * edges.height;
      var percentage := (edgePixels as real / areaPixels as real) * 100.0;
      assert percentage == EdgePercentage(results[i]);
      assert results[..i + 1][..i] == results[..i];
      total := total + percentage;
    }
    assert results[..|results|] == results;
    average := total / |results| as real;
  }

  /** Each result's percentage is taken over its clipped rectangle's area, not
      over the region's unclipped extent. */
  lemma DenominatorIsClippedArea(face: Image, landmarks: seq<Region>, thresholds: seq<Threshold>,
                                 canny: EdgeOperator, n: nat, k: nat)
    requires face.Valid() && ShapePreserving(canny)
    requires n <= |landmarks| && n <= |thresholds|
    requires k < |CannyResults(face, landmarks, thresholds, canny, n)|
    ensures var e, ks := CannyResults(face, landmarks, thresholds, canny, n)[k],
                         Kept(landmarks, face.width, face.height, n);
            k < |ks| &&
            var r := landmarks[ks[k]];
            Measurable(e) &&
            e.edges.Area() == (BottomRight(r, face.width, face.height).y - TopLeft(r).y) *
                              (BottomRight(r, face.width, face.height).x - TopLeft(r).x)
  {
    var ks := Kept(landmarks, face.width, face.height, n);
    CannyResultsAreKeptScores(face, landmarks, thresholds, canny, n);
    ScoreAtShape(face, landmarks, thresholds, canny, ks[k]);
    var e := CannyResults(face, landmarks, thresholds, canny, n)[k];
    MulAtLeast(e.edges.height, e.edges.width);
  }

  /** Maps with no edge pixel at all score 0. */
  lemma {:induction false} NoEdgesScoreZero(results: seq<EdgeResult>)
    requires |results| > 0 && AllMeasurable(results)
    requires forall k :: 0 <= k < |results| ==> CountNonZero(results[k].edges) == 0
    ensures MeanPercentage(results) == 0.0
  {
    TotalNoEdges(results);
  }

  lemma {:induction false} TotalNoEdges(results: seq<EdgeResult>)
    requires AllMeasurable(results)
    requires forall k :: 0 <= k < |results| ==> CountNonZero(results[k].edges) == 0
    ensures TotalPercentage(results) == 0.0
  {
    if results != [] {
      TotalNoEdges(results[..|results| - 1]);
    }
  }

  /** Maps made only of edge pixels score 100. */
  lemma {:induction false} AllEdgesScoreHundred(results: seq<EdgeResult>)
    requires |results| > 0 && AllMeasurable(results)
    requires forall k :: 0 <= k < |results| ==> CountNonZero(results[k].edges) == results[k].edges.Area()
    ensures MeanPercentage(results) == 100.0
  {
    TotalAllEdges(results);
  }

  lemma {:induction false} TotalAllEdges(results: seq<EdgeResult>)
    requires AllMeasurable(results)
    requires forall k :: 0 <= k < |results| ==> CountNonZero(results[k].edges) == results[k].edges.Area()
    ensures TotalPercentage(results) == 100.0 * |results| as real
  {
    if results != [] {
      TotalAllEdges(results[..|results| - 1]);
    }
  }
}
