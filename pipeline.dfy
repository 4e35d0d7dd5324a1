/** The per-face analysis of the main loop: resample the detected face to the
    canonical size, place the regions, score them, average and classify. */
module Pipeline {
  import opened Imaging
  import opened Landmarks
  import opened EdgeScorer
  import opened Aggregator
  import opened AgeClassifier

  /** Canonical crop size every detected face is resampled to. */
  const ExpectedWidth: nat := 250
  const ExpectedHeight: nat := 250

  /** Edge-detector thresholds per region, in layout order: the flatter forehead
      and cheeks get lower low thresholds than the eyes. */
  const Thresholds: seq<Threshold> :=
    [Threshold(10, 155), Threshold(10, 160), Threshold(8, 170), Threshold(6, 180), Threshold(6, 190)]

  /** The region's rectangle is not cut by the crop's border. */
  predicate Unclipped(r: Region, width: int, height: int) {
    TopLeft(r) == Point(r.center.x - r.extent.x / 2, r.center.y - r.extent.y / 2) &&
    BottomRight(r, width, height) == Point(r.center.x + r.extent.x / 2, r.center.y + r.extent.y / 2)
  }

  /** The layout fits a crop without clipping exactly when the crop is at least
      173 pixels wide (right cheek) and 234 pixels high (forehead). */
  lemma LayoutUnclippedIff(face: Image)
    ensures (forall i :: 0 <= i < 5 ==> Unclipped(DetectLandmarks(face)[i], face.width, face.height))
            <==> face.width >= 173 && face.height >= 234
  {
    var landmarks := DetectLandmarks(face);
    if face.width < 173 {
      assert !Unclipped(landmarks[RightCheek], face.width, face.height);
    } else if face.height < 234 {
      assert !Unclipped(landmarks[Forehead], face.width, face.height);
    }
  }

  /** On the canonical 250 by 250 crop every region survives, with these rectangles. */
  lemma CanonicalCropKeepsAllRegions(face: Image, canny: EdgeOperator)
    requires face.Valid() && face.width == ExpectedWidth && face.height == ExpectedHeight
    ensures var landmarks := DetectLandmarks(face);
            TopLeft(landmarks[LeftEye]) == Point(50, 111) &&
            BottomRight(landmarks[LeftEye], 250, 250) == Point(100, 125) &&
            TopLeft(landmarks[RightEye]) == Point(145, 111) &&
            BottomRight(landmarks[RightEye], 250, 250) == Point(195, 125) &&
            TopLeft(landmarks[Forehead]) == Point(65, 8) &&
            BottomRight(landmarks[Forehead], 250, 250) == Point(185, 62) &&
            TopLeft(landmarks[LeftCheek]) == Point(48, 143) &&
            BottomRight(landmarks[LeftCheek], 250, 250) == Point(82, 157) &&
            TopLeft(landmarks[RightCheek]) == Point(178, 143) &&
            BottomRight(landmarks[RightCheek], 250, 250) == Point(212, 157)
    ensures |CannyResults(face, DetectLandmarks(face), Thresholds, canny, 5)| == 5
  {
    var landmarks := DetectLandmarks(face);
    LayoutUnclippedIff(face);
    forall i | 0 <= i < 5
      ensures Survives(landmarks[i], 250, 250)
    {
      assert Unclipped(landmarks[i], face.width, face.height);
    }
    NothingDroppedIffAllSurvive(face, landmarks, Thresholds, canny, 5);
  }

  /** A region centred on the crop's corner is clipped, not dropped: with the
      extent halved, (50, 15) centred at (0, 0) keeps a 25 by 7 rectangle. */
  lemma CornerRegionIsClippedNotDropped()
    ensures var r := Region(Point(0, 0), Point(50, 15));
            TopLeft(r) == Point(0, 0) && BottomRight(r, 250, 250) == Point(25, 7) &&
            Survives(r, 250, 250)
  {
  }

  /** The main loop's work for one detected face. */
  method AnalyzeFace(detected: Image, resize: Resampler, canny: EdgeOperator)
    returns (score: real, category: AgeCategory)
    requires detected.Valid() && detected.Area() > 0
    requires ResamplesTo(resize) && ShapePreserving(canny)
    ensures 0.0 <= score <= 100.0
    ensures category == CategorizeAge(score)
    ensures var face := resize(detected, ExpectedWidth, ExpectedHeight);
            var results := CannyResults(face, DetectLandmarks(face), Thresholds, canny, 5);
            |results| == 5 && AllMeasurable(results) && score == MeanPercentage(results)
  {
    var face := resize(detected, ExpectedWidth, ExpectedHeight);
    var landmarks := DetectLandmarks(face);
    var results := ApplyCannyOnLandmarks(face, landmarks, Thresholds, canny);
    CanonicalCropKeepsAllRegions(face, canny);
    forall k | 0 <= k < |results|
      ensures Measurable(results[k])
    {
      MulAtLeast(results[k].edges.height, results[k].edges.width);
    }
    score := AverageWrinklePercentage(results);
    category := CategorizeAge(score);
  }
}
