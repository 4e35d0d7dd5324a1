/** Images, edge maps and the image-library operations the core relies on:
    array slicing, counting nonzero cells, and the abstract shape contracts
    of the resampler and of the edge detector. */
module Imaging {

  /** An unsigned 8-bit sample. */
  newtype byte = x: int | 0 <= x < 256

  /** A pixel coordinate: `x` is the column, `y` the row; the origin is top-left. */
  datatype Point = Point(x: int, y: int)

  /** One pixel of a three-channel, 8-bit colour image (blue, green, red). */
  datatype Pixel = Pixel(b: byte, g: byte, r: byte)

  /** A two-dimensional array that carries its own shape, as an image array does:
      `height` rows, each of `width` cells. */
  datatype Grid<T> = Grid(height: nat, width: nat, cells: seq<seq<T>>) {

    /** The cells really have the shape the grid claims. */
    predicate Valid() {
      |cells| == height && forall row :: 0 <= row < |cells| ==> |cells[row]| == width
    }

    /** Number of cells, `width * height`. */
    function Area(): nat {
      height * width
    }
  }

  /** A colour face crop. */
  type Image = Grid<Pixel>

  /** A single-channel edge map: zero where there is no edge. */
  type EdgeMap = Grid<byte>

  /** The sub-array `g[tl.y:br.y, tl.x:br.x]` for a rectangle that lies inside `g`. */
  function Crop<T>(g: Grid<T>, tl: Point, br: Point): (sub: Grid<T>)
    requires g.Valid()
    requires 0 <= tl.x <= br.x <= g.width && 0 <= tl.y <= br.y <= g.height
    ensures sub.Valid()
    ensures sub.height == br.y - tl.y && sub.width == br.x - tl.x
  {
    Grid(br.y - tl.y, br.x - tl.x,
         seq(br.y - tl.y, i requires 0 <= i < br.y - tl.y => g.cells[tl.y + i][tl.x .. br.x]))
  }

  /** Cell `(i, j)` of the crop is cell `(tl.y + i, tl.x + j)` of the grid. */
  lemma CropSelectsCells<T>(g: Grid<T>, tl: Point, br: Point, i: nat, j: nat)
    requires g.Valid()
    requires 0 <= tl.x <= br.x <= g.width && 0 <= tl.y <= br.y <= g.height
    requires i < br.y - tl.y && j < br.x - tl.x
    ensures Crop(g, tl, br).cells[i][j] == g.cells[tl.y + i][tl.x + j]
  {
  }

  /** Number of nonzero samples in one row. */
  function CountRow(row: seq<byte>): (n: nat)
    ensures n <= |row|
    ensures n == 0 <==> forall j :: 0 <= j < |row| ==> row[j] == 0
    ensures n == |row| <==> forall j :: 0 <= j < |row| ==> row[j] != 0
  {
    if row == [] then 0
    else CountRow(row[..|row| - 1]) + (if row[|row| - 1] != 0 then 1 else 0)
  }

  /** Number of nonzero samples in a list of rows that are each `width` long. */
  function CountRows(rows: seq<seq<byte>>, width: nat): (n: nat)
    requires forall r :: 0 <= r < |rows| ==> |rows[r]| == width
    ensures n <= |rows| * width
    ensures n == 0 <==> forall r, j :: 0 <= r < |rows| && 0 <= j < width ==> rows[r][j] == 0
  {
    if rows == [] then 0
    else
      var last := |rows| - 1;
      var m := CountRows(rows[..last], width);
      var c := CountRow(rows[last]);
      MulSucc(last, width);
      m + c
  }

  /** A full count means every cell is nonzero, and conversely. */
  lemma {:induction false} CountRowsFull(rows: seq<seq<byte>>, width: nat)
    requires forall r :: 0 <= r < |rows| ==> |rows[r]| == width
    ensures CountRows(rows, width) == |rows| * width <==>
              forall r, j :: 0 <= r < |rows| && 0 <= j < width ==> rows[r][j] != 0
  {
    if rows != [] {
      var last := |rows| - 1;
      CountRowsFull(rows[..last], width);
      MulSucc(last, width);
      assert rows[..last] + [rows[last]] == rows;
    }
  }

  lemma MulSucc(a: nat, b: nat)
    ensures (a + 1) * b == a * b + b
  {
  }

  /** The edge detector's count of edge pixels (`cv2.countNonZero`): the
      nonzero cells of the map. */
  function CountNonZero(m: EdgeMap): (n: nat)
    requires m.Valid()
    ensures n <= m.Area()
    ensures n == 0 <==> forall r, j :: 0 <= r < m.height && 0 <= j < m.width ==> m.cells[r][j] == 0
    ensures n == m.Area() <==>
              forall r, j :: 0 <= r < m.height && 0 <= j < m.width ==> m.cells[r][j] != 0
  {
    CountRowsFull(m.cells, m.width);
    CountRows(m.cells, m.width)
  }

  /** An edge detector with its two hysteresis thresholds (`cv2.Canny`). */
  type EdgeOperator = (Image, int, int) -> EdgeMap

  /** The only thing the core relies on about the edge detector: it returns a
      well-formed map with the dimensions of the image it was given. */
  ghost predicate ShapePreserving(canny: EdgeOperator) {
    forall roi: Image, low: int, high: int ::
      roi.Valid() ==>
        canny(roi, low, high).Valid() &&
        canny(roi, low, high).height == roi.height &&
        canny(roi, low, high).width == roi.width
  }

  /** A resampler (`cv2.resize`) taking an image and the target width and height. */
  type Resampler = (Image, nat, nat) -> Image

  /** The only thing the core relies on about the resampler: given a non-empty
      image it returns a well-formed image of the requested width and height. */
  ghost predicate ResamplesTo(resize: Resampler) {
    forall img: Image, width: nat, height: nat ::
      img.Valid() && img.Area() > 0 ==>
        resize(img, width, height).Valid() &&
        resize(img, width, height).width == width &&
        resize(img, width, height).height == height
  }
}
