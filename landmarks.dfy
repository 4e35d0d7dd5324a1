/** Placement of the five regions of interest over a face crop
    (`detect_landmarks`). No facial features are detected: each region is a
    fixed offset from the crop's centre. */
module Landmarks {
  import opened Imaging

  /** A region of interest: its centre and its FULL extent (width, height).
      The edge scorer halves the extent on each side of the centre. */
  datatype Region = Region(center: Point, extent: Point)

  /** Positions of the regions in the layout; the threshold table is indexed the same way. */
  const LeftEye := 0
  const RightEye := 1
  const Forehead := 2
  const LeftCheek := 3
  const RightCheek := 4

  /** Offset of each region's centre from the crop's centre, in layout order. */
  const CenterOffsets: seq<Point> :=
    [Point(-50, -7), Point(45, -7), Point(0, -90), Point(-60, 25), Point(70, 25)]

  /** Extent of each region, in layout order. */
  const Extents: seq<Point> :=
    [Point(50, 15), Point(50, 15), Point(120, 55), Point(35, 15), Point(35, 15)]

  /** The crop's centre: the integer halves of its width and height. */
  function Center(face: Image): Point {
    Point(face.width / 2, face.height / 2)
  }

  /** The five regions of a crop, in the order left eye, right eye, forehead,
      left cheek, right cheek. */
  function DetectLandmarks(face: Image): (landmarks: seq<Region>)
    ensures |landmarks| == 5
    ensures forall i :: 0 <= i < 5 ==>
              landmarks[i].center == Point(Center(face).x + CenterOffsets[i].x,
                                           Center(face).y + CenterOffsets[i].y) &&
              landmarks[i].extent == Extents[i]
  {
    var x := face.width / 2;
    var y := face.height / 2;
    [ Region(Point(x - 50, y - 7), Point(50, 15)),   // left eye
      Region(Point(x + 45, y - 7), Point(50, 15)),   // right eye
      Region(Point(x, y - 90), Point(120, 55)),      // forehead
      Region(Point(x - 60, y + 25), Point(35, 15)),  // left cheek
      Region(Point(x + 70, y + 25), Point(35, 15)) ] // right cheek
  }

  /** The layout depends on the crop only through its width and height, and
      moving the centre moves every region by the same amount while the
      extents stay fixed. */
  lemma LayoutFollowsCenter(a: Image, b: Image, i: nat)
    requires i < 5
    ensures DetectLandmarks(b)[i].center.x - DetectLandmarks(a)[i].center.x == Center(b).x - Center(a).x
    ensures DetectLandmarks(b)[i].center.y - DetectLandmarks(a)[i].center.y == Center(b).y - Center(a).y
    ensures DetectLandmarks(b)[i].extent == DetectLandmarks(a)[i].extent
    ensures a.width == b.width && a.height == b.height ==> DetectLandmarks(a) == DetectLandmarks(b)
  {
  }
}
