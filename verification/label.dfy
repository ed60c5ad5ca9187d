/** Labeling: the normalised detection label of a sample's box
    (GetColorShapeImg.py:193-198), over exact reals. The six-decimal
    formatting of the label line is not modelled. */
module Labeling {
  import opened Geometry

  /** `class_id x_center y_center w h`. */
  datatype Label = Label(classId: nat, xCenter: real, yCenter: real, width: real, height: real)

  /** Every field is a fraction of the canvas, and the box the label
      describes, centre plus or minus half extent, stays inside the unit
      square. */
  predicate InUnitSquare(l: Label)
  {
    && 0.0 <= l.xCenter <= 1.0 && 0.0 <= l.yCenter <= 1.0
    && 0.0 <= l.width <= 1.0 && 0.0 <= l.height <= 1.0
    && 0.0 <= l.xCenter - l.width / 2.0 && l.xCenter + l.width / 2.0 <= 1.0
    && 0.0 <= l.yCenter - l.height / 2.0 && l.yCenter + l.height / 2.0 <= 1.0
  }

  /** The whole `w` x `h` canvas as a box. */
  function Frame(w: int, h: int): RealBox
  {
    RealBox(0.0, 0.0, w as real, h as real)
  }

  /** The label of box `b` on a `w` x `h` canvas: centre and extent, each
      divided by the matching canvas dimension. */
  function Normalize(classId: nat, b: RealBox, w: int, h: int): (l: Label)
    requires w > 0 && h > 0
    ensures l.classId == classId
    ensures RealOrdered(b) && Within(b, Frame(w, h)) ==> InUnitSquare(l)
    ensures RealWellFormed(b) ==> l.width > 0.0 && l.height > 0.0
  {
    var W, H := w as real, h as real;
    AxisFacts(b.x1, b.x2, W);
    AxisFacts(b.y1, b.y2, H);
    Label(classId, (b.x1 + b.x2) / 2.0 / W, (b.y1 + b.y2) / 2.0 / H, (b.x2 - b.x1) / W, (b.y2 - b.y1) / H)
  }

  /** One axis of the normalisation: the centre and extent of `[a, z]`
      over a canvas of size `W`. */
  lemma AxisFacts(a: real, z: real, W: real)
    requires W > 0.0
    ensures (a + z) / 2.0 / W - (z - a) / W / 2.0 == a / W
    ensures (a + z) / 2.0 / W + (z - a) / W / 2.0 == z / W
    ensures 0.0 <= a <= z <= W ==> 0.0 <= (a + z) / 2.0 / W <= 1.0 && 0.0 <= (z - a) / W <= 1.0
    ensures 0.0 <= a <= z <= W ==> 0.0 <= a / W && z / W <= 1.0
    ensures a < z ==> (z - a) / W > 0.0
  {
    var c, e := (a + z) / 2.0, z - a;
    DivHalf(e, W);
    DivLinear(c, e / 2.0, W);
    assert c - e / 2.0 == a && c + e / 2.0 == z;
    if 0.0 <= a <= z <= W {
      DivBound(c, W);
      DivBound(e, W);
      DivBound(a, W);
      DivBound(z, W);
    }
    if a < z {
      DivPos(e, W);
    }
  }

  lemma DivLinear(p: real, q: real, W: real)
    requires W > 0.0
    ensures p / W - q / W == (p - q) / W
    ensures p / W + q / W == (p + q) / W
  {
  }

  lemma DivHalf(p: real, W: real)
    requires W > 0.0
    ensures p / W / 2.0 == (p / 2.0) / W
  {
  }

  lemma DivBound(x: real, W: real)
    requires W > 0.0 && 0.0 <= x <= W
    ensures 0.0 <= x / W <= 1.0
  {
    assert x / W * W == x;
  }

  lemma DivPos(x: real, W: real)
    requires W > 0.0 && 0.0 < x
    ensures 0.0 < x / W
  {
  }

  /** The pixel box a label describes on a `w` x `h` canvas. */
  function Denormalize(l: Label, w: int, h: int): RealBox
  {
    var W, H := w as real, h as real;
    RealBox((l.xCenter - l.width / 2.0) * W, (l.yCenter - l.height / 2.0) * H,
            (l.xCenter + l.width / 2.0) * W, (l.yCenter + l.height / 2.0) * H)
  }

  /** Over exact reals the label determines the box: denormalising a
      normalised label gives the box back. */
  lemma RoundTrip(classId: nat, b: RealBox, w: int, h: int)
    requires w > 0 && h > 0
    ensures Denormalize(Normalize(classId, b, w, h), w, h) == b
  {
    AxisRoundTrip(b.x1, b.x2, w as real);
    AxisRoundTrip(b.y1, b.y2, h as real);
  }

  /** One axis of the round trip. */
  lemma AxisRoundTrip(a: real, z: real, W: real)
    requires W > 0.0
    ensures ((a + z) / 2.0 / W - (z - a) / W / 2.0) * W == a
    ensures ((a + z) / 2.0 / W + (z - a) / W / 2.0) * W == z
  {
    AxisFacts(a, z, W);
    DivMul(a, W);
    DivMul(z, W);
  }

  lemma DivMul(x: real, W: real)
    requires W > 0.0
    ensures x / W * W == x
  {
  }
}
