/** LayoutPlanner: the requested box of a sample, chosen inside the canvas
    so that it keeps `margin` pixels from every edge
    (GetColorShapeImg.py:177-186). The size bounds `int(max * 0.3)` and
    `int(max * 0.7)` are float-derived and are given as integers; the four
    `randint` draws are given as well. */
module LayoutPlanner {
  import opened Geometry

  datatype Canvas = Canvas(width: int, height: int, margin: int)

  /** The configured canvas: 1080 x 720 pixels with a 50-pixel margin. */
  const Configured: Canvas := Canvas(1080, 720, 50)

  /** Inclusive bounds for the shape width and height draws. */
  datatype SizeRange = SizeRange(loW: int, hiW: int, loH: int, hiH: int)

  /** The configured size bounds `int(max_shape_w * 0.3)`,
      `int(max_shape_w * 0.7)`, `int(max_shape_h * 0.3)` and
      `int(max_shape_h * 0.7)` for the 980 x 620 interior, as the float
      products truncate. */
  const ConfiguredSizes: SizeRange := SizeRange(294, 686, 186, 434)

  /** The four draws: shape width and height, then the top-left corner. */
  datatype LayoutDraws = LayoutDraws(w: int, h: int, x: int, y: int)

  /** `max_shape_w`, `max_shape_h`. */
  function MaxShapeW(c: Canvas): int { c.width - 2 * c.margin }
  function MaxShapeH(c: Canvas): int { c.height - 2 * c.margin }

  /** The canvas minus its margin on every side. */
  function Interior(c: Canvas): RealBox
  {
    RealBox(c.margin as real, c.margin as real, (c.width - c.margin) as real, (c.height - c.margin) as real)
  }

  /** Each draw lies in the inclusive range its `randint` call is given. */
  predicate ValidDraws(c: Canvas, s: SizeRange, d: LayoutDraws)
  {
    && s.loW <= d.w <= s.hiW
    && s.loH <= d.h <= s.hiH
    && c.margin <= d.x <= c.width - c.margin - d.w
    && c.margin <= d.y <= c.height - c.margin - d.h
  }

  /** The size bounds the planner may be configured with: positive and no
      larger than the interior. */
  predicate SaneSizes(c: Canvas, s: SizeRange)
  {
    1 <= s.loW <= s.hiW <= MaxShapeW(c) && 1 <= s.loH <= s.hiH <= MaxShapeH(c)
  }

  /** The requested box `(x1, y1, x1 + shape_w, y1 + shape_h)`. It has the
      drawn size, stays inside the margin, and is well formed whenever the
      drawn sizes are positive. */
  function Plan(c: Canvas, s: SizeRange, d: LayoutDraws): (r: Box)
    requires ValidDraws(c, s, d)
    ensures r.x1 == d.x && r.y1 == d.y
    ensures r.x2 - r.x1 == d.w && r.y2 - r.y1 == d.h
    ensures Within(ToReal(r), Interior(c))
    ensures c.margin <= r.x1 && r.x2 <= c.width - c.margin && c.margin <= r.y1 && r.y2 <= c.height - c.margin
    ensures 1 <= s.loW && 1 <= s.loH ==> WellFormed(r)
  {
    Box(d.x, d.y, d.x + d.w, d.y + d.h)
  }

  /** With sane size bounds no `randint` range is empty: whatever sizes are
      drawn, a corner can be drawn, and the smallest draws are legal. */
  lemma DrawsExist(c: Canvas, s: SizeRange, w: int, h: int)
    requires SaneSizes(c, s)
    requires s.loW <= w <= s.hiW && s.loH <= h <= s.hiH
    ensures ValidDraws(c, s, LayoutDraws(w, h, c.margin, c.margin))
  {
  }

  /** A draw is legal only if the drawn size fits the interior, so the
      planner cannot produce a box wider than the canvas minus both
      margins. */
  lemma SizeFitsInterior(c: Canvas, s: SizeRange, d: LayoutDraws)
    requires ValidDraws(c, s, d)
    ensures d.w <= MaxShapeW(c) && d.h <= MaxShapeH(c)
  {
  }

  /** The configured size bounds are positive and fit the configured
      interior, so the configured program meets the planner's
      precondition, and a 30 to 70 percent draw is what they allow. */
  lemma ConfiguredSizesSane()
    ensures SaneSizes(Configured, ConfiguredSizes)
    ensures MaxShapeW(Configured) == 980 && MaxShapeH(Configured) == 620
    ensures 10 * ConfiguredSizes.loW <= 3 * MaxShapeW(Configured) < 10 * (ConfiguredSizes.loW + 1)
    ensures 10 * ConfiguredSizes.hiW <= 7 * MaxShapeW(Configured) < 10 * (ConfiguredSizes.hiW + 1)
    ensures 10 * ConfiguredSizes.loH <= 3 * MaxShapeH(Configured) < 10 * (ConfiguredSizes.loH + 1)
    ensures 10 * ConfiguredSizes.hiH <= 7 * MaxShapeH(Configured) < 10 * (ConfiguredSizes.hiH + 1)
  {
  }
}
