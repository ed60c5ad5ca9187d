/** ColorSampler: the base colour catalogue, the per-colour jitter table and
    the jittered render colour of a sample (GetColorShapeImg.py:23-47, 64-85).
    Each `random.randint` draw is a parameter whose range is a precondition. */
module ColorSampler {
  import opened Wrappers
  import opened Numeric

  /** An RGB triple. Channels are unbounded integers: the clamping that keeps
      them in 0..255 is part of the model, not of the type. */
  datatype Rgb = Rgb(r: int, g: int, b: int)

  /** The base colour dictionary: label name to unjittered reference value. */
  const BaseColors: map<string, Rgb> := map[
    "red"    := Rgb(255, 0, 0),
    "orange" := Rgb(255, 165, 0),
    "yellow" := Rgb(255, 255, 0),
    "green"  := Rgb(0, 255, 0),
    "cyan"   := Rgb(0, 255, 255),
    "blue"   := Rgb(0, 0, 255),
    "purple" := Rgb(128, 0, 128),
    "black"  := Rgb(0, 0, 0),
    "white"  := Rgb(255, 255, 255)
  ]

  /** `list(BASE_COLORS.keys())`: the keys in insertion order, which is the
      colour order of the class registry. */
  const ColorNames: seq<string> := ["red", "orange", "yellow", "green", "cyan", "blue", "purple", "black", "white"]

  /** Per-colour jitter radius. */
  const JitterTable: map<string, int> := map[
    "red" := 40, "orange" := 40, "yellow" := 40, "green" := 40,
    "cyan" := 40, "blue" := 40, "purple" := 40,
    "black" := 25, "white" := 25
  ]

  /** Radius used for a colour the jitter table does not list. */
  const DefaultJitter: int := 30

  /** Lower bound every channel of a "white" render colour is raised to. */
  const WhiteFloor: int := 230

  /** `clamp(v, lo, hi) = max(lo, min(hi, v))`. When the bounds are
      inverted the outer `max` wins and the result is `lo`. */
  function Clamp(v: int, lo: int, hi: int): (r: int)
    ensures lo <= hi ==> lo <= r <= hi
    ensures lo <= v <= hi ==> r == v
    ensures lo <= hi && v < lo ==> r == lo
    ensures lo <= hi && hi < v ==> r == hi
    ensures hi < lo ==> r == lo
  {
    Max(lo, Min(hi, v))
  }

  /** Clamping never reverses the order of two values. */
  lemma ClampMonotone(u: int, v: int, lo: int, hi: int)
    requires u <= v
    ensures Clamp(u, lo, hi) <= Clamp(v, lo, hi)
  {
  }

  /** The key list holds exactly the dictionary's keys. */
  lemma ColorNamesAreKeys()
    ensures forall name :: name in ColorNames <==> name in BaseColors
  {
  }

  /** `BASE_COLORS[name]`: None is the KeyError of an unknown name. */
  function BaseOf(name: string): (r: Option<Rgb>)
    ensures r.None? <==> name !in ColorNames
  {
    ColorNamesAreKeys();
    if name in BaseColors then Some(BaseColors[name]) else None
  }

  /** `COLOR_JITTER.get(name, 30)`: the listed radius for a listed name,
      30 otherwise; 40 for the hues and 25 for black and white. */
  function JitterOf(name: string): (j: int)
    ensures name in JitterTable ==> j == JitterTable[name]
    ensures name !in JitterTable ==> j == 30
    ensures name == "black" || name == "white" ==> j == 25
    ensures name in ColorNames && name != "black" && name != "white" ==> j == 40
    ensures 25 <= j <= 40
  {
    if name in JitterTable then JitterTable[name] else DefaultJitter
  }

  /** A channel draw lies in `[base - j, base + j]`, the range of
      `random.randint(base - j, base + j)`. */
  predicate DrawInRange(draw: int, base: int, j: int)
  {
    base - j <= draw <= base + j
  }

  /** The three channel draws are legal for `name`. For an unknown name the
      sampler raises before drawing, so any draws are accepted. */
  predicate DrawsFor(name: string, draws: Rgb)
  {
    match BaseOf(name)
    case None => true
    case Some(base) =>
      var j := JitterOf(name);
      DrawInRange(draws.r, base.r, j) && DrawInRange(draws.g, base.g, j) && DrawInRange(draws.b, base.b, j)
  }

  /** A rendered channel of a jittered base channel: in 0..255 and between
      the clamped ends of the jitter interval; for "white" both ends are
      first raised to the floor. */
  predicate ChannelOk(name: string, v: int, base: int, j: int)
  {
    var lo := Clamp(base - j, 0, 255);
    var hi := Clamp(base + j, 0, 255);
    && 0 <= v <= 255
    && (name != "white" ==> lo <= v <= hi)
    && (name == "white" ==> WhiteFloor <= v && Max(WhiteFloor, lo) <= v <= Max(WhiteFloor, hi))
  }

  /** One rendered channel: the clamped draw, raised to the floor for
      "white". */
  function RenderChannel(name: string, draw: int): (v: int)
    ensures 0 <= v <= 255
    ensures name == "white" ==> WhiteFloor <= v
    ensures name != "white" && 0 <= draw <= 255 ==> v == draw
    ensures name == "white" && WhiteFloor <= draw <= 255 ==> v == draw
    ensures draw < 0 ==> v == (if name == "white" then WhiteFloor else 0)
    ensures draw > 255 ==> v == 255
  {
    var c := Clamp(draw, 0, 255);
    if name == "white" then Max(c, WhiteFloor) else c
  }

  /** A draw from the jitter interval renders inside the clamped interval. */
  lemma RenderChannelOk(name: string, draw: int, base: int, j: int)
    requires DrawInRange(draw, base, j)
    ensures ChannelOk(name, RenderChannel(name, draw), base, j)
  {
    ClampMonotone(base - j, draw, 0, 255);
    ClampMonotone(draw, base + j, 0, 255);
  }

  /** `sample_color_from_base(name)` with its three `randint` draws given. */
  function SampleColor(name: string, draws: Rgb): (r: Option<Rgb>)
    requires DrawsFor(name, draws)
    ensures r.None? <==> name !in ColorNames
    ensures r.Some? ==>
      var base := BaseOf(name).value;
      var j := JitterOf(name);
      ChannelOk(name, r.value.r, base.r, j) && ChannelOk(name, r.value.g, base.g, j) && ChannelOk(name, r.value.b, base.b, j)
  {
    match BaseOf(name)
    case None => None
    case Some(base) =>
      var j := JitterOf(name);
      RenderChannelOk(name, draws.r, base.r, j);
      RenderChannelOk(name, draws.g, base.g, j);
      RenderChannelOk(name, draws.b, base.b, j);
      Some(Rgb(RenderChannel(name, draws.r), RenderChannel(name, draws.g), RenderChannel(name, draws.b)))
  }

  /** Every catalogue colour has a base value and a listed jitter radius,
      so the fallback radius is never used by the generator itself. */
  lemma CatalogueComplete()
    ensures forall name :: name in ColorNames ==> BaseOf(name).Some? && name in JitterTable
  {
  }

  /** With the configured white (255, 255, 255) and radius 25 a clamped draw
      is already at least 230, so the white floor never changes a channel. */
  lemma WhiteFloorInactive(draws: Rgb)
    requires DrawsFor("white", draws)
    ensures SampleColor("white", draws) == Some(Rgb(Clamp(draws.r, 0, 255), Clamp(draws.g, 0, 255), Clamp(draws.b, 0, 255)))
  {
    WhiteEntry();
  }

  lemma WhiteEntry()
    ensures BaseOf("white") == Some(Rgb(255, 255, 255)) && JitterOf("white") == 25
  {
  }

  /** The black base (0, 0, 0) with radius 25 renders as a channel in 0..25. */
  lemma BlackRange(draws: Rgb)
    requires DrawsFor("black", draws)
    ensures var c := SampleColor("black", draws).value; 0 <= c.r <= 25 && 0 <= c.g <= 25 && 0 <= c.b <= 25
  {
    BlackEntry();
  }

  lemma BlackEntry()
    ensures BaseOf("black") == Some(Rgb(0, 0, 0)) && JitterOf("black") == 25
  {
  }
}
