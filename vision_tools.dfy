/** The discrete parts of the vision helpers: the shape decision rule and the shape tally, the
    nine-way split of a frame, and the centroid averaging of the middle row and column of
    segments. Contour extraction, moments and drawing belong to OpenCV; their results enter as
    values. */
module VisionTools {
  import opened Common

  // Shapes

  const RATIO_TOLERANCE: real := 0.15

  datatype Shape = Square | Rectangle | Triangle | Circle

  /** What `detect_shape` learns from a contour: the vertex count of its polygon approximation
      and the width and height from `extract_dimensions`. */
  datatype Outline = Outline(vertices: nat, width: real, height: real)

  /** The ratio test of `detect_shape`: width over height, 0 for a height of 0. */
  predicate NearlySquare(o: Outline) {
    var ratio := if o.height != 0.0 then o.width / o.height else 0.0;
    1.0 - RATIO_TOLERANCE <= ratio <= 1.0 + RATIO_TOLERANCE
  }

  /** `detect_shape`: three vertices make a triangle, four a square or a rectangle by the
      ratio test, anything else a circle. */
  function DetectShape(o: Outline): (s: Shape)
    ensures s == Triangle <==> o.vertices == 3
    ensures s == Circle <==> o.vertices != 3 && o.vertices != 4
    ensures s == Square <==> o.vertices == 4 && o.height != 0.0 && 0.85 <= o.width / o.height <= 1.15
    ensures s == Rectangle <==> o.vertices == 4 && (o.height == 0.0 || !(0.85 <= o.width / o.height <= 1.15))
  {
    if o.vertices == 3 then Triangle
    else if o.vertices == 4 then (if NearlySquare(o) then Square else Rectangle)
    else Circle
  }

  /** The ratio test is not symmetric: an 86 by 100 quadrilateral is a square, the same one
      turned a quarter is a rectangle. Within ratios 1/1.15 to 1.15 the orientation does not
      matter. */
  lemma SquareOrientation(w: real, h: real)
    requires w > 0.0 && h > 0.0
    ensures DetectShape(Outline(4, 86.0, 100.0)) == Square && DetectShape(Outline(4, 100.0, 86.0)) == Rectangle
    ensures 1.0 <= w / h * 1.15 && w / h <= 1.15 ==>
      DetectShape(Outline(4, w, h)) == Square && DetectShape(Outline(4, h, w)) == Square
  {
    assert 100.0 / 86.0 > 1.15;
    if 1.0 <= w / h * 1.15 && w / h <= 1.15 {
      Reciprocal(w, h);
      assert h / w <= 1.15;
      assert h / w >= 1.0 / 1.15;
    }
  }

  lemma Reciprocal(w: real, h: real)
    requires w > 0.0 && h > 0.0
    ensures h / w == 1.0 / (w / h)
    ensures w / h <= 1.15 ==> h / w >= 1.0 / 1.15
    ensures 1.0 <= w / h * 1.15 ==> h / w <= 1.15
  {
  }

  /** How many outlines of `outlines` are detected as `s`. */
  function Count(outlines: seq<Outline>, s: Shape): nat {
    if outlines == [] then 0
    else Count(outlines[..|outlines| - 1], s) + (if DetectShape(outlines[|outlines| - 1]) == s then 1 else 0)
  }

  /** Every outline is counted exactly once. */
  lemma {:induction false} CountsSum(outlines: seq<Outline>)
    ensures Count(outlines, Square) + Count(outlines, Rectangle) + Count(outlines, Triangle) + Count(outlines, Circle) == |outlines|
  {
    if outlines != [] {
      CountsSum(outlines[..|outlines| - 1]);
    }
  }

  /** The count of triangles is the number of three-vertex outlines, in any order. */
  lemma {:induction false} TrianglesAreThreeVertexOutlines(outlines: seq<Outline>)
    ensures Count(outlines, Triangle) == |set i | 0 <= i < |outlines| && outlines[i].vertices == 3|
  {
    if outlines != [] {
      var n := |outlines| - 1;
      var prefix := outlines[..n];
      TrianglesAreThreeVertexOutlines(prefix);
      var before := set i | 0 <= i < n && prefix[i].vertices == 3;
      var after := set i | 0 <= i < |outlines| && outlines[i].vertices == 3;
      if outlines[n].vertices == 3 {
        assert after == before + {n};
      } else {
        assert after == before;
      }
    }
  }

  /** `count_shapes` on the valid contours of a frame: all four counts start at zero and each
      contour adds one to the count of its shape. */
  method CountShapes(outlines: seq<Outline>) returns (counts: map<Shape, nat>)
    ensures counts.Keys == {Square, Rectangle, Triangle, Circle}
    ensures forall s :: s in counts ==> counts[s] == Count(outlines, s)
  {
    counts := map[Square := 0, Rectangle := 0, Triangle := 0, Circle := 0];
    var i := 0;
    while i < |outlines|
      invariant 0 <= i <= |outlines|
      invariant counts.Keys == {Square, Rectangle, Triangle, Circle}
      invariant forall s :: s in counts ==> counts[s] == Count(outlines[..i], s)
    {
      assert outlines[..i + 1][..i] == outlines[..i];
      var shape := DetectShape(outlines[i]);
      counts := counts[shape := counts[shape] + 1];
      i := i + 1;
    }
    assert outlines[..i] == outlines;
  }

  // Splitting a frame

  /** A rectangle of pixels: rows `top` up to `bottom`, columns `left` up to `right`. */
  datatype Region = Region(top: int, bottom: int, left: int, right: int)

  predicate Contains(r: Region, y: int, x: int) {
    r.top <= y < r.bottom && r.left <= x < r.right
  }

  /** `split_frame` on a frame of `rows` by `cols` pixels: nine segments in row-major order, each
      a third of the frame (rounded down), the last row and column absorbing the remainder. */
  function SplitFrame(rows: nat, cols: nat): (r: seq<Region>)
    ensures |r| == 9
  {
    var h, w := rows / 3, cols / 3;
    [Region(0, h, 0, w), Region(0, h, w, 2 * w), Region(0, h, 2 * w, cols),
     Region(h, 2 * h, 0, w), Region(h, 2 * h, w, 2 * w), Region(h, 2 * h, 2 * w, cols),
     Region(2 * h, rows, 0, w), Region(2 * h, rows, w, 2 * w), Region(2 * h, rows, 2 * w, cols)]
  }

  /** Which third of `0..n` a coordinate falls in. */
  function Band(v: int, n: nat): int {
    if v < n / 3 then 0 else if v < 2 * (n / 3) then 1 else 2
  }

  /** The split is a partition in row-major order: every pixel of the frame lies in exactly
      one segment, the one at its row band and column band. */
  lemma SplitPartition(rows: nat, cols: nat, y: int, x: int)
    requires 0 <= y < rows && 0 <= x < cols
    ensures forall k :: 0 <= k < 9 ==> (Contains(SplitFrame(rows, cols)[k], y, x) <==> k == 3 * Band(y, rows) + Band(x, cols))
  {
  }

  /** Each segment spans its third of the rows and columns; only the last row and column of
      segments take the remainder. */
  lemma SplitSizes(rows: nat, cols: nat)
    ensures forall k :: 0 <= k < 9 ==>
      var s := SplitFrame(rows, cols)[k];
      s.bottom - s.top == (if k / 3 < 2 then rows / 3 else rows - 2 * (rows / 3)) &&
      s.right - s.left == (if k % 3 < 2 then cols / 3 else cols - 2 * (cols / 3))
  {
  }

  // Centroids

  datatype Point = Point(x: int, y: int)

  function Sum(xs: seq<int>): int {
    if xs == [] then 0 else Sum(xs[..|xs| - 1]) + xs[|xs| - 1]
  }

  /** `sum(xs) // len(xs)` */
  function FloorMean(xs: seq<int>): int
    requires xs != []
  {
    Sum(xs) / |xs|
  }

  function Xs(ps: seq<Point>): (r: seq<int>)
    ensures |r| == |ps| && forall i :: 0 <= i < |ps| ==> r[i] == ps[i].x
  {
    seq(|ps|, i requires 0 <= i < |ps| => ps[i].x)
  }

  function Ys(ps: seq<Point>): (r: seq<int>)
    ensures |r| == |ps| && forall i :: 0 <= i < |ps| ==> r[i] == ps[i].y
  {
    seq(|ps|, i requires 0 <= i < |ps| => ps[i].y)
  }

  /** The floor average of points, coordinate by coordinate. */
  function Mean(ps: seq<Point>): Point
    requires ps != []
  {
    Point(FloorMean(Xs(ps)), FloorMean(Ys(ps)))
  }

  lemma {:induction false} SumBounds(xs: seq<int>, lo: int, hi: int)
    requires forall i :: 0 <= i < |xs| ==> lo <= xs[i] <= hi
    ensures |xs| * lo <= Sum(xs) <= |xs| * hi
  {
    if xs != [] {
      SumBounds(xs[..|xs| - 1], lo, hi);
      assert (|xs| - 1) * lo + lo == |xs| * lo && (|xs| - 1) * hi + hi == |xs| * hi;
    }
  }

  lemma MulLe(n: int, a: int, b: int)
    requires n >= 0 && a <= b
    ensures n * a <= n * b
  {
  }

  lemma MulStep(n: int, a: int, b: int)
    requires n > 0
    ensures a < b ==> n * a + n <= n * b
  {
    if a < b {
      MulLe(n, a + 1, b);
      assert n * (a + 1) == n * a + n;
    }
  }

  lemma DivBounds(s: int, n: int, lo: int, hi: int)
    requires n > 0 && n * lo <= s <= n * hi
    ensures lo <= s / n <= hi
  {
    var q, r := s / n, s % n;
    assert s == n * q + r && 0 <= r < n;
    MulStep(n, q, lo);
    MulStep(n, hi, q);
  }

  /** A floor average lies between the least and the greatest of the values. */
  lemma FloorMeanBounds(xs: seq<int>, lo: int, hi: int)
    requires xs != [] && forall i :: 0 <= i < |xs| ==> lo <= xs[i] <= hi
    ensures lo <= FloorMean(xs) <= hi
  {
    SumBounds(xs, lo, hi);
    DivBounds(Sum(xs), |xs|, lo, hi);
  }

  /** Every point of `ps` lies in `r`. */
  predicate AllIn(ps: seq<Point>, r: Region) {
    forall i :: 0 <= i < |ps| ==> Contains(r, ps[i].y, ps[i].x)
  }

  /** The floor average of points inside a region is inside the region. */
  lemma MeanInside(ps: seq<Point>, r: Region)
    requires ps != [] && AllIn(ps, r)
    ensures Contains(r, Mean(ps).y, Mean(ps).x)
  {
    FloorMeanBounds(Xs(ps), r.left, r.right - 1);
    FloorMeanBounds(Ys(ps), r.top, r.bottom - 1);
  }

  /** A segment's centroid (the floor average of its contours' centroids, in the segment's own
      coordinates) moved by the segment's offset in the frame. */
  function Placed(local: seq<Point>, offset: Point): Point
    requires local != []
  {
    var m := Mean(local);
    Point(m.x + offset.x, m.y + offset.y)
  }

  /** The placed centroids of the segments that have any contour, in order. */
  function Contributions(segments: seq<seq<Point>>, offsets: seq<Point>): seq<Point>
    requires |segments| == |offsets|
  {
    if segments == [] then []
    else
      var n := |segments| - 1;
      Contributions(segments[..n], offsets[..n]) + (if segments[n] != [] then [Placed(segments[n], offsets[n])] else [])
  }

  /** The centroid of a line of segments: the floor average of the placed segment centroids, if
      any segment had a contour. */
  function LineCentroid(segments: seq<seq<Point>>, offsets: seq<Point>): Option<Point>
    requires |segments| == |offsets|
  {
    var c := Contributions(segments, offsets);
    if c == [] then None else Some(Mean(c))
  }

  /** The offset of a segment as intended: its top-left corner in the frame. */
  function Origin(r: Region): Point {
    Point(r.left, r.top)
  }

  function Origins(regions: seq<Region>): (r: seq<Point>)
    ensures |r| == |regions| && forall k :: 0 <= k < |regions| ==> r[k] == Origin(regions[k])
  {
    seq(|regions|, k requires 0 <= k < |regions| => Origin(regions[k]))
  }

  /** The offsets `find_centroids` adds as written, for the middle row (segments 3, 4, 5) and
      the middle column (segments 1, 4, 7): multiples of the segment's OWN height and width,
      which for the last segment include the remainder of the split. */
  function RowOffsetsAsWritten(rows: nat, cols: nat): seq<Point> {
    var s := SplitFrame(rows, cols);
    var h3, w5 := s[3].bottom - s[3].top, s[5].right - s[5].left;
    [Point(0, h3), Point(s[4].right - s[4].left, s[4].bottom - s[4].top), Point(2 * w5, s[5].bottom - s[5].top)]
  }

  function ColumnOffsetsAsWritten(rows: nat, cols: nat): seq<Point> {
    var s := SplitFrame(rows, cols);
    var w1, h7 := s[1].right - s[1].left, s[7].bottom - s[7].top;
    [Point(w1, 0), Point(s[4].right - s[4].left, s[4].bottom - s[4].top), Point(s[7].right - s[7].left, 2 * h7)]
  }

  /** The segments of the middle row and of the middle column. */
  function RowRegions(rows: nat, cols: nat): seq<Region> {
    var s := SplitFrame(rows, cols);
    [s[3], s[4], s[5]]
  }

  function ColumnRegions(rows: nat, cols: nat): seq<Region> {
    var s := SplitFrame(rows, cols);
    [s[1], s[4], s[7]]
  }

  /** `find_centroids` as written on the contour centroids of the nine segments. */
  function MiddleCentroidsAsWritten(rows: nat, cols: nat, centroids: seq<seq<Point>>): (Option<Point>, Option<Point>)
    requires |centroids| == 9
  {
    (LineCentroid([centroids[3], centroids[4], centroids[5]], RowOffsetsAsWritten(rows, cols)),
     LineCentroid([centroids[1], centroids[4], centroids[7]], ColumnOffsetsAsWritten(rows, cols)))
  }

  /** `find_centroids` with each segment placed at its origin. */
  function MiddleCentroids(rows: nat, cols: nat, centroids: seq<seq<Point>>): (Option<Point>, Option<Point>)
    requires |centroids| == 9
  {
    (LineCentroid([centroids[3], centroids[4], centroids[5]], Origins(RowRegions(rows, cols))),
     LineCentroid([centroids[1], centroids[4], centroids[7]], Origins(ColumnRegions(rows, cols))))
  }

  /** As written, the offsets agree with the segment origins except for the last segment of
      each line, which is placed right only when the frame divides by three. */
  lemma OffsetsAsWrittenAgreeIffDivisible(rows: nat, cols: nat)
    ensures RowOffsetsAsWritten(rows, cols)[..2] == Origins(RowRegions(rows, cols))[..2]
    ensures ColumnOffsetsAsWritten(rows, cols)[..2] == Origins(ColumnRegions(rows, cols))[..2]
    ensures RowOffsetsAsWritten(rows, cols)[2] == Origins(RowRegions(rows, cols))[2] <==> cols % 3 == 0
    ensures ColumnOffsetsAsWritten(rows, cols)[2] == Origins(ColumnRegions(rows, cols))[2] <==> rows % 3 == 0
  {
  }

  /** A line whose only contours are in its last segment is centred where that segment's
      centroid is placed. */
  lemma LastSegmentOnly(local: seq<Point>, offsets: seq<Point>)
    requires local != [] && |offsets| == 3
    ensures LineCentroid([[], [], local], offsets) == Some(Placed(local, offsets[2]))
  {
    var segments := [[], [], local];
    ContributionsEmpty(segments[..2], offsets[..2]);
    assert segments[..2][0] == [] && segments[..2][1] == [];
    var p := Placed(local, offsets[2]);
    assert Contributions(segments, offsets) == [p];
    assert Sum(Xs([p])) == Sum([]) + p.x && Sum(Ys([p])) == Sum([]) + p.y;
  }

  /** In a 9 by 10 frame, one contour centred at (3, 0) of segment 5 is put at x = 11, outside
      the frame, instead of at (9, 3); in a 10 by 9 frame one centred at (0, 3) of segment 7
      is put at y = 11 instead of at (3, 9). */
  lemma CentroidAsWrittenLeavesFrame()
    ensures var c := [[], [], [], [], [], [Point(3, 0)], [], [], []];
      MiddleCentroidsAsWritten(9, 10, c).0 == Some(Point(11, 3)) &&
      MiddleCentroids(9, 10, c).0 == Some(Point(9, 3))
    ensures var c := [[], [], [], [], [], [], [], [Point(0, 3)], []];
      MiddleCentroidsAsWritten(10, 9, c).1 == Some(Point(3, 11)) &&
      MiddleCentroids(10, 9, c).1 == Some(Point(3, 9))
  {
    var one, other := [Point(3, 0)], [Point(0, 3)];
    assert Mean(one) == Point(3, 0) by {
      assert Sum(Xs(one)) == Sum([]) + 3 && Sum(Ys(one)) == Sum([]) + 0;
    }
    assert Mean(other) == Point(0, 3) by {
      assert Sum(Xs(other)) == Sum([]) + 0 && Sum(Ys(other)) == Sum([]) + 3;
    }
    assert RowOffsetsAsWritten(9, 10)[2] == Point(8, 3);
    assert Origins(RowRegions(9, 10))[2] == Point(6, 3);
    assert ColumnOffsetsAsWritten(10, 9)[2] == Point(3, 8);
    assert Origins(ColumnRegions(10, 9))[2] == Point(3, 6);
    LastSegmentOnly(one, RowOffsetsAsWritten(9, 10));
    LastSegmentOnly(one, Origins(RowRegions(9, 10)));
    LastSegmentOnly(other, ColumnOffsetsAsWritten(10, 9));
    LastSegmentOnly(other, Origins(ColumnRegions(10, 9)));
  }

  /** The extent of a region in its own coordinates. */
  function Extent(r: Region): Region {
    Region(0, r.bottom - r.top, 0, r.right - r.left)
  }

  predicate Within(r: Region, band: Region) {
    band.top <= r.top && r.bottom <= band.bottom && band.left <= r.left && r.right <= band.right
  }

  /** Placing a segment's centroid at the segment's origin puts it inside the segment. */
  lemma PlacedInside(local: seq<Point>, s: Region)
    requires local != [] && AllIn(local, Extent(s))
    ensures Contains(s, Placed(local, Origin(s)).y, Placed(local, Origin(s)).x)
  {
    MeanInside(local, Extent(s));
  }

  /** Every contribution of a line of segments placed at their origins lies in the band that
      holds those segments. */
  lemma {:induction false} ContributionsInside(segments: seq<seq<Point>>, regions: seq<Region>, band: Region)
    requires |segments| == |regions|
    requires forall k :: 0 <= k < |regions| ==> AllIn(segments[k], Extent(regions[k])) && Within(regions[k], band)
    ensures AllIn(Contributions(segments, Origins(regions)), band)
  {
    if segments != [] {
      var n := |segments| - 1;
      assert Origins(regions)[..n] == Origins(regions[..n]);
      ContributionsInside(segments[..n], regions[..n], band);
      if segments[n] != [] {
        PlacedInside(segments[n], regions[n]);
      }
    }
  }

  /** A line contributes nothing exactly when none of its segments has a contour. */
  lemma {:induction false} ContributionsEmpty(segments: seq<seq<Point>>, offsets: seq<Point>)
    requires |segments| == |offsets|
    ensures Contributions(segments, offsets) == [] <==> forall k :: 0 <= k < |segments| ==> segments[k] == []
  {
    if segments != [] {
      var n := |segments| - 1;
      ContributionsEmpty(segments[..n], offsets[..n]);
      assert forall k :: 0 <= k < n ==> segments[..n][k] == segments[k];
    }
  }

  /** Contour centroids of segment `k` given in its own coordinates lie inside it. */
  predicate LocallyInside(rows: nat, cols: nat, k: int, local: seq<Point>)
    requires 0 <= k < 9
  {
    AllIn(local, Extent(SplitFrame(rows, cols)[k]))
  }

  /** The centroid of a line lies in the band holding its segments, and is absent exactly when
      none of them had a contour. */
  lemma LineCentroidInBand(segments: seq<seq<Point>>, regions: seq<Region>, band: Region)
    requires |segments| == |regions|
    requires forall k :: 0 <= k < |regions| ==> AllIn(segments[k], Extent(regions[k])) && Within(regions[k], band)
    ensures var c := LineCentroid(segments, Origins(regions));
      (c.None? <==> forall k :: 0 <= k < |segments| ==> segments[k] == []) &&
      (c.Some? ==> Contains(band, c.value.y, c.value.x))
  {
    ContributionsInside(segments, regions, band);
    ContributionsEmpty(segments, Origins(regions));
    var cs := Contributions(segments, Origins(regions));
    if cs != [] {
      MeanInside(cs, band);
    }
  }

  /** The middle row of segments lies in the middle band of rows, the middle column in the
      middle band of columns. */
  lemma MiddleRegionsInBands(rows: nat, cols: nat)
    ensures forall k :: 0 <= k < 3 ==> Within(RowRegions(rows, cols)[k], Region(rows / 3, 2 * (rows / 3), 0, cols))
    ensures forall k :: 0 <= k < 3 ==> Within(ColumnRegions(rows, cols)[k], Region(0, rows, cols / 3, 2 * (cols / 3)))
  {
  }

  /** The centroid of a line of three segments, each placed at its origin, lies in the band
      holding them, and is absent exactly when none of them had a contour. */
  lemma ThreeInBand(a: seq<Point>, b: seq<Point>, c: seq<Point>, regions: seq<Region>, band: Region)
    requires |regions| == 3
    requires AllIn(a, Extent(regions[0])) && AllIn(b, Extent(regions[1])) && AllIn(c, Extent(regions[2]))
    requires forall k :: 0 <= k < 3 ==> Within(regions[k], band)
    ensures var r := LineCentroid([a, b, c], Origins(regions));
      (r.None? <==> a == [] && b == [] && c == []) &&
      (r.Some? ==> Contains(band, r.value.y, r.value.x))
  {
    var segments := [a, b, c];
    LineCentroidInBand(segments, regions, band);
    assert segments[0] == a && segments[1] == b && segments[2] == c;
  }

  /** The row centroid (when any segment of the middle row had a contour) lies in the middle
      band of rows, and the column centroid in the middle band of columns; each is absent
      exactly when no segment of its line had a contour. */
  lemma MiddleCentroidsInBands(rows: nat, cols: nat, centroids: seq<seq<Point>>)
    requires |centroids| == 9
    requires forall k :: 0 <= k < 9 ==> LocallyInside(rows, cols, k, centroids[k])
    ensures var (row, column) := MiddleCentroids(rows, cols, centroids);
      (row.None? <==> centroids[3] == [] && centroids[4] == [] && centroids[5] == []) &&
      (column.None? <==> centroids[1] == [] && centroids[4] == [] && centroids[7] == []) &&
      (row.Some? ==> Contains(Region(rows / 3, 2 * (rows / 3), 0, cols), row.value.y, row.value.x)) &&
      (column.Some? ==> Contains(Region(0, rows, cols / 3, 2 * (cols / 3)), column.value.y, column.value.x))
  {
    MiddleRegionsInBands(rows, cols);
    assert LocallyInside(rows, cols, 3, centroids[3]) && LocallyInside(rows, cols, 4, centroids[4]);
    assert LocallyInside(rows, cols, 5, centroids[5]) && LocallyInside(rows, cols, 1, centroids[1]);
    assert LocallyInside(rows, cols, 7, centroids[7]);
    ThreeInBand(centroids[3], centroids[4], centroids[5], RowRegions(rows, cols), Region(rows / 3, 2 * (rows / 3), 0, cols));
    ThreeInBand(centroids[1], centroids[4], centroids[7], ColumnRegions(rows, cols), Region(0, rows, cols / 3, 2 * (cols / 3)));
  }

  /** One line of `find_centroids`: the loop over its three segments collects the placed
      segment centroids, then averages them if there are any. */
  method LineCentroidOf(segments: seq<seq<Point>>, offsets: seq<Point>) returns (c: Option<Point>)
    requires |segments| == |offsets|
    ensures c == LineCentroid(segments, offsets)
  {
    var found: seq<Point> := [];
    var i := 0;
    while i < |segments|
      invariant 0 <= i <= |segments|
      invariant found == Contributions(segments[..i], offsets[..i])
    {
      assert segments[..i + 1][..i] == segments[..i] && offsets[..i + 1][..i] == offsets[..i];
      if segments[i] != [] {
        var local := Mean(segments[i]);
        found := found + [Point(local.x + offsets[i].x, local.y + offsets[i].y)];
      }
      i := i + 1;
    }
    assert segments[..i] == segments && offsets[..i] == offsets;
    if |found| > 0 {
      c := Some(Point(Sum(Xs(found)) / |found|, Sum(Ys(found)) / |found|));
    } else {
      c := None;
    }
  }

  /** `find_centroids` on the contour centroids of the nine segments of a `rows` by `cols`
      frame, each segment placed at its origin. */
  method FindCentroids(rows: nat, cols: nat, centroids: seq<seq<Point>>) returns (row: Option<Point>, column: Option<Point>)
    requires |centroids| == 9
    ensures (row, column) == MiddleCentroids(rows, cols, centroids)
  {
    row := LineCentroidOf([centroids[3], centroids[4], centroids[5]], Origins(RowRegions(rows, cols)));
    column := LineCentroidOf([centroids[1], centroids[4], centroids[7]], Origins(ColumnRegions(rows, cols)));
  }
}
