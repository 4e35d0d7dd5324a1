# Wrinkle-based age categorisation — verified model of the per-face core

This project models the per-face analysis of `wrinklage.py`, a small camera
program that guesses an age bracket from the density of edges ("wrinkles") in
five fixed regions of a face crop. For each detected face the program:

1. resamples the crop to 250 by 250 pixels;
2. places five regions (left eye, right eye, forehead, left cheek, right
   cheek) at fixed offsets from the crop's centre (`detect_landmarks`);
3. clips each region's rectangle to the crop, skips any rectangle narrower
   or shorter than 2 pixels, and runs the Canny edge detector on the rest
   with a per-region pair of thresholds (`apply_canny_on_landmarks`);
4. averages, over the surviving regions, the percentage of nonzero pixels
   in each edge map (inlined in the main loop);
5. maps that average to Young, Middle-aged or Elderly (`categorize_age`).

Modules, one per component:

- `Imaging` (imaging.dfy): images and edge maps as shaped 2-D grids, array
  slicing (`Crop`), the nonzero count, and the shape-only contracts that
  stand for the resampler and the edge detector.
- `Landmarks` (landmarks.dfy): the region layout.
- `EdgeScorer` (edge_scorer.dfy): clipping, the skip rule, and the scoring
  loop as an imperative method proved against a recursive specification
  function `CannyResults`.
- `Aggregator` (aggregator.dfy): per-map percentages and their mean, with
  the averaging loop lifted into a method of its own.
- `AgeClassifier` (age_classifier.dfy): the three brackets and their cutoffs.
- `Pipeline` (pipeline.dfy): the threshold table, the canonical 250 by 250
  layout, and the whole per-face analysis.

Modelling decisions:

- Unbounded `int` needs no wrap-around here. Python's `//` (floor division)
  is only ever applied here with divisor 2, and for a positive divisor it
  agrees with Dafny's `/`.
- Percentages are exact `real` values, not IEEE floats.
- The edge detector is a function parameter of type `EdgeOperator`. The only
  thing assumed about it (`ShapePreserving`) is that it returns a well-formed
  map of the size of its input. The resampler is a parameter too. The only
  thing assumed about it (`ResamplesTo`) is that, given a non-empty image, it
  returns an image of the requested size.
- The region's second pair is a FULL extent that the scorer halves; it is
  not a half-extent added on each side of the centre. For example, a region
  centred at (0, 0) with extent (50, 15) on a 250 by 250 crop keeps a 25 by 7
  rectangle, not 50 by 15 (`Pipeline.CornerRegionIsClippedNotDropped`). Likewise the odd
  extents lose a pixel: the eyes are 50 by 14, not 50 by 15.
- A score of exactly 8 is Young and exactly 15 is Middle-aged. The cutoffs
  are strict `>` tests, so a score of 8.0 is not Middle-aged.
- The code raises `ZeroDivisionError` at line 89 if no region survives. The
  model makes a non-empty list a precondition of the aggregation and proves
  that on the canonical crop all five regions always survive
  (`Pipeline.CanonicalCropKeepsAllRegions`). So the main loop's division is
  never by zero. The code has no "no valid regions" error value for an
  empty list, and neither has the model.

## Model

| member | source | states |
|---|---|---|
| `Imaging.Crop` | wrinklage.py:28 | slicing `face[tl.y:br.y, tl.x:br.x]` of an in-range rectangle gives a well-formed grid of `br.y - tl.y` rows and `br.x - tl.x` columns |
| `Imaging.CropSelectsCells` | wrinklage.py:28 | cell (i, j) of the slice is cell (tl.y + i, tl.x + j) of the crop |
| `Imaging.CountRow` | wrinklage.py:85 | the nonzero count of a row is at most its length, zero exactly when every sample is zero, and full exactly when none is |
| `Imaging.CountNonZero` | wrinklage.py:85 | the nonzero count of an edge map is at most its area, zero exactly when the map is all zero, and equal to the area exactly when no cell is zero |
| `Imaging.CountRowsFull` | wrinklage.py:85 | a list of rows has a full count exactly when every cell is nonzero |
| `Landmarks.Center` | wrinklage.py:7-9 | no contract; `(w // 2, h // 2)` for a crop `w` wide and `h` high |
| `Landmarks.DetectLandmarks` | wrinklage.py:6-17 | exactly five regions in the order left eye, right eye, forehead, left cheek, right cheek; centre i is the crop centre `(w//2, h//2)` plus the fixed offset i, and extent i is the fixed extent i |
| `Landmarks.LayoutFollowsCenter` | wrinklage.py:7-16 | the layout depends on the crop only through its width and height; for two crops, each region moves exactly as the centre moves and keeps its extent |
| `EdgeScorer.TopLeft` | wrinklage.py:24 | no contract; `(max(c.x - ext.x // 2, 0), max(c.y - ext.y // 2, 0))` for centre `c` and extent `ext` |
| `EdgeScorer.BottomRight` | wrinklage.py:25 | no contract; `(min(c.x + ext.x // 2, w), min(c.y + ext.y // 2, h))` for a `w` by `h` crop |
| `EdgeScorer.Survives` | wrinklage.py:26-29 | no contract; `br.x - tl.x >= 2 && br.y - tl.y >= 2` for the clipped corners `tl` and `br` |
| `EdgeScorer.SkippedAsWritten` | wrinklage.py:26-29 | no contract; the two skip tests as written: `tl.x >= br.x or tl.y >= br.y`, then `(br.y - tl.y) * (br.x - tl.x) == 0 or br.y - tl.y < 2 or br.x - tl.x < 2` |
| `EdgeScorer.SkipTestsAgree` | wrinklage.py:26-30 | the two skip tests together (inverted rectangle; empty slice or fewer than 2 rows or columns) skip a region exactly when its clipped rectangle is narrower or shorter than 2; the first test adds nothing to which regions are skipped, but it still keeps the slice bounds at line 28 non-negative, which `Imaging.Crop`'s precondition relies on |
| `EdgeScorer.SurvivorInside` | wrinklage.py:24-29 | a surviving rectangle satisfies `0 <= tl.x`, `tl.x + 2 <= br.x <= w`, and likewise for y |
| `EdgeScorer.ScoreAt` | wrinklage.py:28-32 | no contract; `EdgeResult(tl, canny(Crop(face, tl, br), thresholds[i].low, thresholds[i].high))` for pair i's clipped corners `tl` and `br`: region i is paired with threshold i |
| `EdgeScorer.ScoreAtShape` | wrinklage.py:28-32 | a survivor's result starts at its clipped top-left corner, and its edge map is well formed with dimensions `(br.y - tl.y, br.x - tl.x)` |
| `EdgeScorer.ScoreAtInside` | wrinklage.py:24-32 | a survivor's result, anchored at its top-left corner with its edge map's size, lies inside the crop and is at least 2 by 2 |
| `EdgeScorer.Kept` | wrinklage.py:22-30 | the indices of the surviving pairs among the first n are strictly increasing, each below n, each a survivor, and every survivor among them is listed |
| `EdgeScorer.CannyResultsAreKeptScores` | wrinklage.py:22-33 | the results are exactly the scores of the kept indices, in order: an order-preserving subsequence of the zipped pairs, with only the degenerate ones dropped |
| `EdgeScorer.NothingDroppedIffAllSurvive` | wrinklage.py:22-33 | there are at most n results for n pairs, and exactly n exactly when every region survives clipping |
| `EdgeScorer.CannyResults` | wrinklage.py:19-33 | no contract; empty for n = 0, otherwise the results for the first n - 1 pairs followed by pair n - 1's score when its region survives |
| `EdgeScorer.ApplyCannyOnLandmarks` | wrinklage.py:19-33 | the loop over `zip` returns the specification's results for `min(|landmarks|, |thresholds|)` pairs, at most as many as either list, each inside the crop and at least 2 by 2 |
| `Aggregator.EdgePercentage` | wrinklage.py:82-87 | a map's edge percentage lies in [0, 100]; it is 0 exactly when the map has no edge pixel and 100 exactly when every pixel is an edge |
| `Aggregator.Percent` | wrinklage.py:87 | no contract; `count / area * 100` over the reals, for a positive area |
| `Aggregator.PercentBounds` | wrinklage.py:85-87 | `count / area * 100` lies in [0, 100] when the count is at most the area, and hits each end exactly at count 0 and count = area |
| `Aggregator.TotalPercentage` | wrinklage.py:79-88 | no contract; empty gives 0, otherwise the total of all but the last result plus the last result's `EdgePercentage` |
| `Aggregator.TotalPercentageBounds` | wrinklage.py:79-88 | the running total of n percentages lies in [0, 100 n] |
| `Aggregator.MeanPercentage` | wrinklage.py:89 | the mean of a non-empty list of percentages lies in [0, 100] |
| `Aggregator.AverageWrinklePercentage` | wrinklage.py:79-89 | the accumulate-then-divide loop returns the mean percentage of a non-empty list of measurable results, which lies in [0, 100] |
| `Aggregator.DenominatorIsClippedArea` | wrinklage.py:82-86 | the area a result's percentage divides by is its clipped rectangle's area `(br.y - tl.y) * (br.x - tl.x)` |
| `Aggregator.NoEdgesScoreZero` | wrinklage.py:79-89 | edge maps with no edge pixel give a score of 0 |
| `Aggregator.AllEdgesScoreHundred` | wrinklage.py:79-89 | edge maps made only of edge pixels give a score of 100 |
| `AgeClassifier.CategorizeAge` | wrinklage.py:35-41 | total, one of three brackets: Young exactly when the score is at most 8, Middle-aged exactly when it is in (8, 15], Elderly exactly when it is above 15 |
| `AgeClassifier.CategorizeAgeMonotone` | wrinklage.py:35-41 | a higher score never gives a younger bracket |
| `AgeClassifier.CutoffsAreInclusiveBelow` | wrinklage.py:36-41 | 8 is Young, 15 is Middle-aged, 0 is Young and 100 is Elderly |
| `AgeClassifier.Label` | wrinklage.py:37-41 | no contract; the strings `categorize_age` returns: "Young", "Middle-aged" and "Elderly" for Young, MiddleAged and Elderly (line 91 draws them after the prefix "Age Category: ") |
| `AgeClassifier.LabelsDistinct` | wrinklage.py:37-41 | the three strings `categorize_age` returns are pairwise distinct |
| `Pipeline.Thresholds` | wrinklage.py:70-76 | no contract; the (low, high) pairs (10, 155), (10, 160), (8, 170), (6, 180), (6, 190) for left eye, right eye, forehead, left cheek, right cheek |
| `Pipeline.LayoutUnclippedIff` | wrinklage.py:6-25 | no region's rectangle is cut by the border exactly when the crop is at least 173 wide and 234 high |
| `Pipeline.CanonicalCropKeepsAllRegions` | wrinklage.py:66-77 | on a 250 by 250 crop all five regions survive, with rectangles (50,111)-(100,125), (145,111)-(195,125), (65,8)-(185,62), (48,143)-(82,157) and (178,143)-(212,157) |
| `Pipeline.CornerRegionIsClippedNotDropped` | wrinklage.py:24-29 | a region of extent (50, 15) centred at the crop's corner is clipped to (0,0)-(25,7) and kept |
| `Pipeline.AnalyzeFace` | wrinklage.py:64-90 | a face gives five scored regions, a score in [0, 100] equal to their mean percentage, and the bracket of that score |

## Left out

- Resampling (`cv2.resize` with area interpolation, line 4): only its output shape is modelled. It is library image processing.
- The Canny operator's internals (line 31): only the shape of its output is modelled. It is a foreign library call. The `int(...)` conversion of the thresholds is the identity on the integer table, so it is not modelled.
- `cv2.countNonZero` (line 85) is modelled by its meaning, the number of nonzero cells, not by the library code.
- The Haar-cascade face detector, the camera capture and frame loop, `imshow`, `waitKey` and window teardown (lines 43-62, 94-100). These are I/O and external models. `AnalyzeFace` takes the detected face crop as its input.
- Drawing on the resized face at lines 83-84 (`cv2.rectangle` and the in-place overwrite with the colour-converted edge map). The edge maps are computed before that loop, so this cannot change the face's score.
- The drawing on `frame` at lines 91-92 (the face box and the `putText` label; the label is "Age Category: " followed by the string `AgeClassifier.Label` gives). This is NOT presentation only. Every face of a frame is sliced out of that same `frame` at line 65, and the slice is a view. So a box or label drawn for an earlier face that overlaps a later face's box becomes part of the later face's crop, adds strong edges, and can change its score.
- The per-frame loop over detected faces (line 64) and its shared, mutated `frame`. `Pipeline.AnalyzeFace` models one face on a crop with no drawing on it. It does not capture how the annotations of earlier faces in the same frame feed into later faces' crops, or the order in which that happens.
- AverageWrinklePercentage: requires every edge map to have a positive area. An empty map would raise `ZeroDivisionError` at line 87. This cannot happen in the program: the scorer emits only maps of at least 2 by 2 (`EdgeScorer.ApplyCannyOnLandmarks`), and `Pipeline.AnalyzeFace` discharges the requirement.
- IEEE floating-point rounding of the percentages. Exact rationals are used instead.
- The failure of `cv2.resize` on an empty crop: `AnalyzeFace` requires a non-empty detected face. The detector only reports boxes of positive size.
