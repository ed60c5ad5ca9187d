/** Boxes and points, and `get_bounding_box`, the tight axis-aligned box of
    a point list (GetColorShapeImg.py:87-93). */
module Geometry {
  import opened Wrappers
  import opened Numeric

  /** A pixel box `(x1, y1, x2, y2)` with integer corners. */
  datatype Box = Box(x1: int, y1: int, x2: int, y2: int)

  /** A point with real coordinates; integer vertices embed through `as real`. */
  datatype Point = Point(x: real, y: real)

  /** A box with real corners, the type of every box the renderers return. */
  datatype RealBox = RealBox(x1: real, y1: real, x2: real, y2: real)

  /** Both extents are positive. */
  predicate WellFormed(b: Box)
  {
    b.x1 < b.x2 && b.y1 < b.y2
  }

  /** Neither extent is negative. */
  predicate Ordered(b: Box)
  {
    b.x1 <= b.x2 && b.y1 <= b.y2
  }

  predicate RealOrdered(b: RealBox)
  {
    b.x1 <= b.x2 && b.y1 <= b.y2
  }

  predicate RealWellFormed(b: RealBox)
  {
    b.x1 < b.x2 && b.y1 < b.y2
  }

  function ToReal(b: Box): RealBox
  {
    RealBox(b.x1 as real, b.y1 as real, b.x2 as real, b.y2 as real)
  }

  /** `inner` lies within `outer` (edges may touch). */
  predicate Within(inner: RealBox, outer: RealBox)
  {
    outer.x1 <= inner.x1 && inner.x2 <= outer.x2 && outer.y1 <= inner.y1 && inner.y2 <= outer.y2
  }

  predicate Covers(b: RealBox, p: Point)
  {
    b.x1 <= p.x <= b.x2 && b.y1 <= p.y <= b.y2
  }

  /** Each edge of `b` passes through some point of `pts`. */
  predicate Attained(b: RealBox, pts: seq<Point>)
  {
    && (exists k :: 0 <= k < |pts| && pts[k].x == b.x1)
    && (exists k :: 0 <= k < |pts| && pts[k].y == b.y1)
    && (exists k :: 0 <= k < |pts| && pts[k].x == b.x2)
    && (exists k :: 0 <= k < |pts| && pts[k].y == b.y2)
  }

  /** The min/max coordinates of a non-empty point list, accumulated from
      the front. */
  function Bounds(pts: seq<Point>): (r: RealBox)
    requires |pts| > 0
    ensures forall k :: 0 <= k < |pts| ==> Covers(r, pts[k])
    ensures Attained(r, pts)
  {
    if |pts| == 1 then
      RealBox(pts[0].x, pts[0].y, pts[0].x, pts[0].y)
    else
      var init := pts[..|pts| - 1];
      var b := Bounds(init);
      var p := pts[|pts| - 1];
      assert forall k :: 0 <= k < |init| ==> pts[k] == init[k];
      RealBox(RMin(b.x1, p.x), RMin(b.y1, p.y), RMax(b.x2, p.x), RMax(b.y2, p.y))
  }

  /** `get_bounding_box(pts)`; None is the ValueError `min` raises on an
      empty list. The result covers every point and each of its edges is
      attained, so it is the smallest box covering the points. */
  function BoundingBox(pts: seq<Point>): (r: Option<RealBox>)
    ensures r.None? <==> |pts| == 0
    ensures r.Some? ==> (forall k :: 0 <= k < |pts| ==> Covers(r.value, pts[k])) && Attained(r.value, pts)
  {
    if |pts| == 0 then None else Some(Bounds(pts))
  }

  /** Any box covering the points contains their bounding box. */
  lemma BoundingBoxSmallest(pts: seq<Point>, b: RealBox)
    requires |pts| > 0
    requires forall k :: 0 <= k < |pts| ==> Covers(b, pts[k])
    ensures Within(Bounds(pts), b)
  {
    var r := Bounds(pts);
    var k1 :| 0 <= k1 < |pts| && pts[k1].x == r.x1;
    var k2 :| 0 <= k2 < |pts| && pts[k2].y == r.y1;
    var k3 :| 0 <= k3 < |pts| && pts[k3].x == r.x2;
    var k4 :| 0 <= k4 < |pts| && pts[k4].y == r.y2;
    assert Covers(b, pts[k1]) && Covers(b, pts[k2]) && Covers(b, pts[k3]) && Covers(b, pts[k4]);
  }

  /** A box that covers every point and whose four edges each pass through
      a point is the bounding box. */
  lemma BoundingBoxUnique(pts: seq<Point>, b: RealBox)
    requires |pts| > 0
    requires forall k :: 0 <= k < |pts| ==> Covers(b, pts[k])
    requires Attained(b, pts)
    ensures Bounds(pts) == b
  {
    BoundingBoxSmallest(pts, b);
    var r := Bounds(pts);
    var k1 :| 0 <= k1 < |pts| && pts[k1].x == b.x1;
    var k2 :| 0 <= k2 < |pts| && pts[k2].y == b.y1;
    var k3 :| 0 <= k3 < |pts| && pts[k3].x == b.x2;
    var k4 :| 0 <= k4 < |pts| && pts[k4].y == b.y2;
    assert Covers(r, pts[k1]) && Covers(r, pts[k2]) && Covers(r, pts[k3]) && Covers(r, pts[k4]);
  }
}
