/** ShapeRenderer: the box each drawing function returns for the requested
    box (GetColorShapeImg.py:95-147). The rasterising calls are not modelled;
    what is modelled is the returned box and, for the triangle and the
    diamond, the vertex list handed to the rasteriser, so that the claim
    that those shapes touch all four edges of their box can be checked. */
module ShapeRenderer {
  import opened Wrappers
  import opened Geometry
  import opened Numeric
  import ClassRegistry

  /** `draw_square`: the side is the smaller extent of the requested box and
      the square keeps the requested top-left corner. The result is the
      largest such square inside the requested box: it touches its right or
      its bottom edge. */
  function SquareBox(b: Box): (r: Box)
    ensures r.x1 == b.x1 && r.y1 == b.y1
    ensures r.x2 - r.x1 == r.y2 - r.y1 == Min(b.x2 - b.x1, b.y2 - b.y1)
    ensures Ordered(b) ==> Ordered(r) && Within(ToReal(r), ToReal(b)) && (r.x2 == b.x2 || r.y2 == b.y2)
    ensures WellFormed(b) ==> WellFormed(r)
  {
    var side := Min(b.x2 - b.x1, b.y2 - b.y1);
    Box(b.x1, b.y1, b.x1 + side, b.y1 + side)
  }

  /** The triangle's apex abscissa `(x1 + x2) // 2` (floor division). */
  function Apex(b: Box): (r: int)
    ensures 2 * r <= b.x1 + b.x2 < 2 * r + 2
    ensures b.x1 <= b.x2 ==> b.x1 <= r <= b.x2
  {
    (b.x1 + b.x2) / 2
  }

  /** `draw_triangle`'s vertices: apex at the top, base on the bottom edge. */
  function TriangleVertices(b: Box): (r: seq<Point>)
    ensures |r| == 3
    ensures Ordered(b) ==> forall k :: 0 <= k < |r| ==> Covers(ToReal(b), r[k])
    ensures r[0].y == b.y1 as real && r[1].y == b.y2 as real && r[2].y == b.y2 as real
    ensures r[1].x == b.x1 as real && r[2].x == b.x2 as real
  {
    [Point(Apex(b) as real, b.y1 as real), Point(b.x1 as real, b.y2 as real), Point(b.x2 as real, b.y2 as real)]
  }

  /** `draw_diamond`'s vertices: the midpoints of the four edges. */
  function DiamondVertices(b: Box): (r: seq<Point>)
    ensures |r| == 4
    ensures Ordered(b) ==> forall k :: 0 <= k < |r| ==> Covers(ToReal(b), r[k])
    ensures r[0].y == b.y1 as real && r[1].x == b.x2 as real && r[2].y == b.y2 as real && r[3].x == b.x1 as real
    ensures r[0].x == r[2].x && 2.0 * r[0].x == (b.x1 + b.x2) as real
    ensures r[1].y == r[3].y && 2.0 * r[1].y == (b.y1 + b.y2) as real
  {
    var cx := (b.x1 + b.x2) as real / 2.0;
    var cy := (b.y1 + b.y2) as real / 2.0;
    [Point(cx, b.y1 as real), Point(b.x2 as real, cy), Point(cx, b.y2 as real), Point(b.x1 as real, cy)]
  }

  /** The triangle touches all four edges of its box, so returning the
      requested box unchanged is the tight box of the drawn triangle. */
  lemma TriangleTight(b: Box)
    requires Ordered(b)
    ensures BoundingBox(TriangleVertices(b)) == Some(ToReal(b))
  {
    var pts := TriangleVertices(b);
    var rb := ToReal(b);
    assert Covers(rb, pts[0]) && Covers(rb, pts[1]) && Covers(rb, pts[2]);
    assert pts[1].x == rb.x1 && pts[0].y == rb.y1 && pts[2].x == rb.x2 && pts[2].y == rb.y2;
    BoundingBoxUnique(pts, rb);
  }

  /** The diamond touches all four edges of its box as well. */
  lemma DiamondTight(b: Box)
    requires Ordered(b)
    ensures BoundingBox(DiamondVertices(b)) == Some(ToReal(b))
  {
    var pts := DiamondVertices(b);
    var rb := ToReal(b);
    var cx := (b.x1 + b.x2) as real / 2.0;
    var cy := (b.y1 + b.y2) as real / 2.0;
    assert rb.x1 <= cx <= rb.x2 && rb.y1 <= cy <= rb.y2;
    assert Covers(rb, pts[0]) && Covers(rb, pts[1]) && Covers(rb, pts[2]) && Covers(rb, pts[3]);
    assert pts[3].x == rb.x1 && pts[0].y == rb.y1 && pts[1].x == rb.x2 && pts[2].y == rb.y2;
    BoundingBoxUnique(pts, rb);
  }

  /** `bbox = DRAW_FUNCS[shape](draw, bbox, fill_color)`: the box labelled
      for a shape drawn into the requested box `b`. The star's ten vertices
      come from trigonometry that is not modelled; they are the parameter
      `starPts`, and its box is their bounding box. */
  function Render(shape: ClassRegistry.Shape, b: Box, starPts: seq<Point>): (r: RealBox)
    requires shape.Star? ==> |starPts| == 10
    ensures (shape.Circle? || shape.Rectangle? || shape.Triangle? || shape.Diamond?) ==> r == ToReal(b)
    ensures shape.Square? ==> r == ToReal(SquareBox(b))
    ensures shape.Star? ==> (forall k :: 0 <= k < |starPts| ==> Covers(r, starPts[k])) && Attained(r, starPts)
    ensures !shape.Star? && WellFormed(b) ==> RealWellFormed(r)
    ensures shape.Star? || Ordered(b) ==> RealOrdered(r)
    ensures Ordered(b) && (shape.Star? ==> forall k :: 0 <= k < |starPts| ==> Covers(ToReal(b), starPts[k]))
      ==> Within(r, ToReal(b))
  {
    match shape
    case Circle => ToReal(b)
    case Square => ToReal(SquareBox(b))
    case Rectangle => ToReal(b)
    case Triangle => ToReal(b)
    case Star =>
      assert Covers(Bounds(starPts), starPts[0]);
      if forall k :: 0 <= k < |starPts| ==> Covers(ToReal(b), starPts[k]) then
        BoundingBoxSmallest(starPts, ToReal(b));
        Bounds(starPts)
      else
        Bounds(starPts)
    case Diamond => ToReal(b)
  }
}
