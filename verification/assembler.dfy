/** DatasetAssembler: one iteration of the generation loop and the loop
    itself (GetColorShapeImg.py:157-198, 208), with every random draw given
    as a parameter and the file writes left out. */
module DatasetAssembler {
  import opened Geometry
  import ColorSampler
  import ClassRegistry
  import ShapeRenderer
  import LayoutPlanner
  import SplitAssigner
  import Labeling

  /** The random draws of one iteration. The star's vertices are computed
      with trigonometry that is not modelled, so they are given too. */
  datatype SampleDraws = SampleDraws(
    whiteOnBlack: bool,               // random.choice([True, False])
    colorPick: nat,                   // position drawn by random.choice(COLORS)
    channels: ColorSampler.Rgb,       // the three channel randint draws
    shapePick: nat,                   // position drawn by random.choice(SHAPES)
    layout: LayoutPlanner.LayoutDraws,
    starPts: seq<Point>)

  /** Everything one iteration determines. */
  datatype Sample = Sample(
    index: nat,
    split: SplitAssigner.Split,
    colorName: string,
    shape: ClassRegistry.Shape,
    background: ColorSampler.Rgb,
    fill: ColorSampler.Rgb,
    requested: Box,
    actual: RealBox,
    classId: nat,
    normalized: Labeling.Label)

  /** `IMG_WIDTH` and `IMG_HEIGHT`, taken from the configured canvas. */
  const W: int := LayoutPlanner.Configured.width
  const H: int := LayoutPlanner.Configured.height

  const Black: ColorSampler.Rgb := ColorSampler.Rgb(0, 0, 0)
  const White: ColorSampler.Rgb := ColorSampler.Rgb(255, 255, 255)

  /** Position of "white" in the colour catalogue. */
  const WhiteIndex: nat := 8

  /** Catalogue position of the label colour: "white" on a black
      background, otherwise the picked colour on a white background. */
  function ColorIndex(d: SampleDraws): nat
  {
    if d.whiteOnBlack then WhiteIndex else d.colorPick
  }

  /** The background colour the coin picks. */
  function Background(d: SampleDraws): ColorSampler.Rgb
  {
    if d.whiteOnBlack then Black else White
  }

  function ColorName(d: SampleDraws): string
    requires d.colorPick < |ColorSampler.ColorNames|
  {
    if d.whiteOnBlack then "white" else ColorSampler.ColorNames[d.colorPick]
  }

  /** Every draw lies in the range its random call can produce. */
  predicate ValidDraws(sizes: LayoutPlanner.SizeRange, d: SampleDraws)
  {
    && d.colorPick < |ColorSampler.ColorNames|
    && d.shapePick < |ClassRegistry.Shapes|
    && ColorSampler.DrawsFor(ColorName(d), d.channels)
    && LayoutPlanner.ValidDraws(LayoutPlanner.Configured, sizes, d.layout)
    && (ClassRegistry.Shapes[d.shapePick].Star? ==> |d.starPts| == 10)
  }

  /** The star's given vertices lie in the requested box. */
  predicate StarInside(shape: ClassRegistry.Shape, requested: Box, starPts: seq<Point>)
  {
    shape.Star? ==> forall k :: 0 <= k < |starPts| ==> Covers(ToReal(requested), starPts[k])
  }

  /** The label colour is the catalogue colour at `ColorIndex(d)`; it is
      "white" exactly when the coin chose a black background or the pick
      was white itself. */
  lemma ColorNameAt(d: SampleDraws)
    requires d.colorPick < |ColorSampler.ColorNames|
    ensures ColorIndex(d) < |ColorSampler.ColorNames|
    ensures ColorName(d) == ColorSampler.ColorNames[ColorIndex(d)]
    ensures ColorName(d) == "white" <==> (d.whiteOnBlack || d.colorPick == WhiteIndex)
  {
  }

  /** The comment of the loop promises white shapes on black and other
      colours on white, but the colour pick on a white background ranges
      over the whole catalogue: a white shape on a white background is
      generated whenever the pick is "white", and that is the only way a
      background and a shape's base colour coincide. */
  lemma WhiteOnWhite(d: SampleDraws)
    requires d.colorPick < |ColorSampler.ColorNames|
    ensures (ColorName(d) == "white" && Background(d) == White) <==> (!d.whiteOnBlack && d.colorPick == WhiteIndex)
    ensures ColorName(d) == "black" ==> Background(d) == White
  {
    ColorNameAt(d);
  }

  /** `sample_color_from_base(color_name)`: a catalogue colour always has a
      base value, so the sampler does not fail here. */
  function FillOf(d: SampleDraws): (c: ColorSampler.Rgb)
    requires d.colorPick < |ColorSampler.ColorNames|
    requires ColorSampler.DrawsFor(ColorName(d), d.channels)
    ensures 0 <= c.r <= 255 && 0 <= c.g <= 255 && 0 <= c.b <= 255
    ensures ColorName(d) == "white" ==> c.r >= 230 && c.g >= 230 && c.b >= 230
  {
    ColorNameAt(d);
    ColorSampler.SampleColor(ColorName(d), d.channels).value
  }

  /** `COMBO_CLASSES.index(combo_name)` for the drawn colour and shape: it
      never fails and is the closed form `colour * 6 + shape`. */
  function ClassOf(d: SampleDraws): (id: nat)
    requires d.colorPick < |ColorSampler.ColorNames| && d.shapePick < |ClassRegistry.Shapes|
    ensures id == ColorIndex(d) * 6 + d.shapePick < 54
    ensures id < |ClassRegistry.ComboClasses|
    ensures ClassRegistry.ComboClasses[id] == ClassRegistry.ComboName(ColorName(d), ClassRegistry.ShapeName(ClassRegistry.Shapes[d.shapePick]))
  {
    ColorNameAt(d);
    ClassRegistry.ClassIds(ColorIndex(d), d.shapePick);
    ClassRegistry.ClassId(ColorName(d), ClassRegistry.ShapeName(ClassRegistry.Shapes[d.shapePick])).value
  }

  /** The labelled box stays inside the margin, and its label inside the
      unit square, as long as the star's vertices stay in their box. */
  lemma LabelInside(id: nat, shape: ClassRegistry.Shape, requested: Box, starPts: seq<Point>)
    requires Ordered(requested) && Within(ToReal(requested), LayoutPlanner.Interior(LayoutPlanner.Configured))
    requires shape.Star? ==> |starPts| == 10
    ensures var actual := ShapeRenderer.Render(shape, requested, starPts);
      StarInside(shape, requested, starPts) ==>
        && Within(actual, LayoutPlanner.Interior(LayoutPlanner.Configured))
        && Labeling.InUnitSquare(Labeling.Normalize(id, actual, W, H))
  {
    var actual := ShapeRenderer.Render(shape, requested, starPts);
    if StarInside(shape, requested, starPts) {
      assert Within(actual, ToReal(requested));
      assert Within(actual, Labeling.Frame(W, H));
    }
  }

  /** One iteration of the generation loop for sample `index`. The size
      bounds stand for the configured `int(max * 0.3)` and
      `int(max * 0.7)`, which are positive and fit the interior. What the
      sample satisfies is stated by `GenerateSound`. */
  function Generate(splitMap: seq<SplitAssigner.Split>, index: nat, sizes: LayoutPlanner.SizeRange, d: SampleDraws): (s: Sample)
    requires index < |splitMap|
    requires LayoutPlanner.SaneSizes(LayoutPlanner.Configured, sizes)
    requires ValidDraws(sizes, d)
    ensures s.index == index && s.split == splitMap[index]
    ensures s.classId == ColorIndex(d) * 6 + d.shapePick < 54
  {
    ColorNameAt(d);
    var shape := ClassRegistry.Shapes[d.shapePick];
    var id := ClassOf(d);
    var requested := LayoutPlanner.Plan(LayoutPlanner.Configured, sizes, d.layout);
    var actual := ShapeRenderer.Render(shape, requested, d.starPts);
    Sample(index, splitMap[index], ColorName(d), shape, Background(d),
           FillOf(d), requested, actual, id, Labeling.Normalize(id, actual, W, H))
  }

  /** Everything one iteration guarantees about its sample: the split from
      the map, the background the coin picks, a render colour in range,
      the class id `colour * 6 + shape` naming the drawn class, a well
      formed requested box inside the margin, a labelled box inside it
      (for a star, as long as the star's vertices are), and a label in the
      unit square that round-trips to the labelled box. */
  lemma GenerateSound(splitMap: seq<SplitAssigner.Split>, index: nat, sizes: LayoutPlanner.SizeRange, d: SampleDraws)
    requires index < |splitMap|
    requires LayoutPlanner.SaneSizes(LayoutPlanner.Configured, sizes)
    requires ValidDraws(sizes, d)
    ensures var s := Generate(splitMap, index, sizes, d);
      && s.index == index && s.split == splitMap[index]
      && s.shape == ClassRegistry.Shapes[d.shapePick]
      && s.colorName == ColorSampler.ColorNames[ColorIndex(d)]
      && (s.colorName == "white" <==> (d.whiteOnBlack || d.colorPick == WhiteIndex))
      && s.background == (if d.whiteOnBlack then Black else White)
      && (s.colorName == "white" && s.background == White <==> !d.whiteOnBlack && d.colorPick == WhiteIndex)
      && 0 <= s.fill.r <= 255 && 0 <= s.fill.g <= 255 && 0 <= s.fill.b <= 255
      && (s.colorName == "white" ==> s.fill.r >= 230 && s.fill.g >= 230 && s.fill.b >= 230)
      && s.classId == ColorIndex(d) * 6 + d.shapePick < 54
      && ClassRegistry.ComboClasses[s.classId] == ClassRegistry.ComboName(s.colorName, ClassRegistry.ShapeName(s.shape))
      && WellFormed(s.requested) && Within(ToReal(s.requested), LayoutPlanner.Interior(LayoutPlanner.Configured))
      && (!s.shape.Star? ==> RealWellFormed(s.actual) && Within(s.actual, ToReal(s.requested)))
      && (StarInside(s.shape, s.requested, d.starPts) ==> Within(s.actual, ToReal(s.requested)))
      && (StarInside(s.shape, s.requested, d.starPts) ==>
            Within(s.actual, LayoutPlanner.Interior(LayoutPlanner.Configured)) && Labeling.InUnitSquare(s.normalized))
      && s.normalized.classId == s.classId
      && Labeling.Denormalize(s.normalized, W, H) == s.actual
  {
    var s := Generate(splitMap, index, sizes, d);
    ColorNameAt(d);
    WhiteOnWhite(d);
    var id := ClassOf(d);
    var fill := FillOf(d);
    var requested := LayoutPlanner.Plan(LayoutPlanner.Configured, sizes, d.layout);
    var actual := ShapeRenderer.Render(s.shape, requested, d.starPts);
    LabelInside(id, s.shape, requested, d.starPts);
    Labeling.RoundTrip(id, actual, W, H);
    assert s.requested == requested && s.actual == actual && s.classId == id && s.fill == fill;
  }

  /** The split of each sample, in index order. */
  function Splits(samples: seq<Sample>): (r: seq<SplitAssigner.Split>)
    ensures |r| == |samples|
    ensures forall i :: 0 <= i < |samples| ==> r[i] == samples[i].split
  {
    seq(|samples|, i requires 0 <= i < |samples| => samples[i].split)
  }

  /** The generation loop `for i in range(NUM_IMAGES)`: sample `k` is the
      iteration generated from the `k`-th draws with the split map. The
      iterations share no state, so the run is the sequence of them: it
      has one sample per draw, sample `k` has index `k` and a registered
      class, and the splits of the run are exactly the split map. */
  function Run(splitMap: seq<SplitAssigner.Split>, sizes: LayoutPlanner.SizeRange, draws: seq<SampleDraws>): (r: seq<Sample>)
    requires |splitMap| == |draws|
    requires LayoutPlanner.SaneSizes(LayoutPlanner.Configured, sizes)
    requires forall k :: 0 <= k < |draws| ==> ValidDraws(sizes, draws[k])
    ensures |r| == |draws|
    ensures forall k :: 0 <= k < |r| ==> r[k] == Generate(splitMap, k, sizes, draws[k])
    ensures Splits(r) == splitMap
    ensures forall k :: 0 <= k < |r| ==> r[k].index == k && r[k].classId < 54
  {
    var r := seq(|draws|, k requires 0 <= k < |draws| => Generate(splitMap, k, sizes, draws[k]));
    assert forall k :: 0 <= k < |r| ==> Splits(r)[k] == splitMap[k];
    r
  }

  /** A run of `n` samples cut at `splitIdx` has exactly the split's
      training and validation counts. */
  lemma RunCounts(n: nat, splitIdx: int, sizes: LayoutPlanner.SizeRange, draws: seq<SampleDraws>)
    requires |draws| == n
    requires LayoutPlanner.SaneSizes(LayoutPlanner.Configured, sizes)
    requires forall k :: 0 <= k < n ==> ValidDraws(sizes, draws[k])
    ensures var run := Run(SplitAssigner.SplitMap(n, splitIdx), sizes, draws);
      && SplitAssigner.Count(Splits(run), SplitAssigner.Train) == SplitAssigner.TrainCount(n, splitIdx)
      && SplitAssigner.Count(Splits(run), SplitAssigner.Val) == n - SplitAssigner.TrainCount(n, splitIdx)
  {
    SplitAssigner.SplitCounts(n, splitIdx);
  }

  /** With 10 samples and a cut at 8, 8 samples train and 2 validate. */
  lemma SmallRunCounts(samples: seq<Sample>)
    requires Splits(samples) == SplitAssigner.SplitMap(10, 8)
    ensures SplitAssigner.Count(Splits(samples), SplitAssigner.Train) == 8
    ensures SplitAssigner.Count(Splits(samples), SplitAssigner.Val) == 2
  {
    SplitAssigner.SplitCounts(10, 8);
  }
}
