# Coloured-shape detection dataset generator — Dafny model

This project models the integer and combinatorial core of
`GetColorShapeImg.py`. That script synthesises a YOLOv8 detection dataset.
Each image holds one coloured shape on a contrasting background. Each image
gets a label line `class_id x_center y_center w h`, and each sample index is
assigned to the train or the validation split. The model covers:

- **ColorSampler** (`color.dfy`): the base colour catalogue, the jitter
  table with its fallback radius 30, `clamp`, and `sample_color_from_base`
  with its white floor of 230. The three `random.randint` channel draws are
  parameters whose ranges are preconditions. An unknown colour name gives
  `None`, which stands for the `KeyError` the dictionary raises.
- **ClassRegistry** (`registry.dfy`): `SHAPES`, `COMBO_CLASSES` (colours
  as the outer loop, shapes as the inner loop) and `list.index`. A missing
  name gives `None`, which stands for `ValueError`. The model proves the
  closed form `class_id = i * |SHAPES| + j` and that the `"{c}_{s}"`
  naming is injective.
- **Geometry** (`geometry.dfy`): pixel boxes, real points, and
  `get_bounding_box` over real points. Integer points embed through
  `as real`. An empty point list gives `None`, which stands for the
  `ValueError` of `min`.
- **ShapeRenderer** (`shapes.dfy`): the box each `draw_*` function
  returns, and the dispatch through `DRAW_FUNCS`. The model also gives the
  triangle and diamond vertex lists handed to the rasteriser. That is enough
  to prove that those two shapes touch all four edges of their box, so
  returning the requested box unchanged is tight.
- **LayoutPlanner** (`layout.dfy`): the requested box arithmetic of lines
  177-186. The float-derived size bounds and the four draws are integer
  parameters.
- **SplitAssigner** (`split.dfy`): `split_map`, with exact train and
  validation counts.
- **Labeling** (`label.dfy`): the normalised label over exact reals, and
  its round trip back to the pixel box.
- **DatasetAssembler** (`assembler.dfy`): one iteration of the generation
  loop with all of its draws given, and the loop over all samples.

Behaviour of the code worth knowing:

- The split: `indices` is shuffled but never read again. Sample `i` trains
  exactly when `i < int(N * (1 - ratio))`; the cut truncates, and the
  training samples are always the first ones generated.
- The loop's comment at GetColorShapeImg.py:158 promises white shapes on a
  black background and other colours on a white one, but the colour pick
  on a white background ranges over the whole catalogue, "white" included,
  so a white shape on a white background is possible
  (`DatasetAssembler.WhiteOnWhite`).
- Because of `COLOR_JITTER`, the white floor of 230 is never active: a
  clamped white channel is already at least 230
  (`ColorSampler.WhiteFloorInactive`).

## Model

| member | source | states |
|---|---|---|
| `ColorSampler.Clamp` | GetColorShapeImg.py:64-65 | With `lo <= hi` the result lies in `[lo, hi]`. It equals `v` when `v` is already in range, and `lo` or `hi` when `v` is below or above. With inverted bounds the result is `lo`. |
| `ColorSampler.ClampMonotone` | GetColorShapeImg.py:64-65 | Clamping preserves the order of two values. |
| `ColorSampler.ColorNamesAreKeys` | GetColorShapeImg.py:53 | The colour list holds exactly the keys of the base colour dictionary. |
| `ColorSampler.BaseOf` | GetColorShapeImg.py:72 | The base-colour lookup fails exactly for a name outside the colour list. |
| `ColorSampler.JitterOf` | GetColorShapeImg.py:73 | The radius is the table's entry for a listed name and 30 otherwise: 40 for the seven hues, 25 for black and white, so always between 25 and 40. |
| `ColorSampler.RenderChannel` | GetColorShapeImg.py:75-83 | A rendered channel is in 0..255, at least 230 for "white". An in-range draw is kept unchanged (for white, one at or above the floor), a negative draw becomes 0 (230 for white) and one above 255 becomes 255. |
| `ColorSampler.SampleColor` | GetColorShapeImg.py:67-85 | It fails exactly for a name outside the catalogue. Otherwise, for draws in `[base - j, base + j]`, with `j` from the jitter table or 30 when unlisted, every channel is in `[0, 255]` and between `clamp(base - j)` and `clamp(base + j)`. For "white" every channel is also at least 230, between the floored ends. |
| `ColorSampler.CatalogueComplete` | GetColorShapeImg.py:23-47 | Every catalogue colour has a base value and a listed jitter radius. |
| `ColorSampler.WhiteFloorInactive` | GetColorShapeImg.py:79-83 | For the configured white and radius 25, the floor at 230 leaves every clamped channel unchanged. |
| `ColorSampler.BlackRange` | GetColorShapeImg.py:45 | A black render colour has every channel in 0..25, as the table's comment promises. |
| `ClassRegistry.Combos` | GetColorShapeImg.py:54 | The enumeration has `|colors| * |shapes|` entries. |
| `ClassRegistry.IndexOf` | GetColorShapeImg.py:174 | `list.index` fails exactly when the element is absent. Otherwise it gives a position holding the element with no earlier occurrence. |
| `ClassRegistry.ClassId` | GetColorShapeImg.py:173-174 | The lookup fails exactly when the class name is not registered. Otherwise it gives a position holding that name, and no other position holds it. |
| `ClassRegistry.ComboNameInjective` | GetColorShapeImg.py:54 | `"{c}_{s}"` determines `c` and `s` (both directions) when colour names contain no underscore. |
| `ClassRegistry.CombosAt` | GetColorShapeImg.py:54 | Entry `i * |shapes| + j` of the enumeration is the class of `colors[i]` and `shapes[j]`. |
| `ClassRegistry.CombosPosition` | GetColorShapeImg.py:54 | Every position of the enumeration is some row `i` and column `j`. |
| `ClassRegistry.OnlyPosition` | GetColorShapeImg.py:54 | For duplicate-free catalogues whose colours contain no underscore, the class of `colors[i]` and `shapes[j]` occurs only at position `i * |shapes| + j`. |
| `ClassRegistry.CombosDistinct` | GetColorShapeImg.py:54 | Distinct colour and shape names give pairwise distinct class names. |
| `ClassRegistry.ClassIdClosedForm` | GetColorShapeImg.py:173-174 | For duplicate-free catalogues whose colours contain no underscore, the index of `"{colors[i]}_{shapes[j]}"` is exactly `i * |shapes| + j`. |
| `ClassRegistry.CataloguesWellFormed` | GetColorShapeImg.py:23-53 | The configured colour and shape names are duplicate-free, and no colour name contains an underscore. |
| `ClassRegistry.ClassIds` | GetColorShapeImg.py:50-54 | `COMBO_CLASSES` has 54 entries. The class id of the `i`-th colour and `j`-th shape is `i * 6 + j`. |
| `Geometry.Bounds` | GetColorShapeImg.py:87-93 | For a non-empty list, every point lies in the box and each of the four edges passes through some point. |
| `Geometry.BoundingBox` | GetColorShapeImg.py:87-93 | It fails exactly on an empty list. Otherwise the box contains every point and each bound is attained. |
| `Geometry.BoundingBoxSmallest` | GetColorShapeImg.py:87-93 | Every box containing the points contains their bounding box. |
| `Geometry.BoundingBoxUnique` | GetColorShapeImg.py:87-93 | A box that covers every point, with each edge passing through some point, is the bounding box. |
| `ShapeRenderer.SquareBox` | GetColorShapeImg.py:104-109 | The square keeps `(x1, y1)`. Its width equals its height equals `min(x2 - x1, y2 - y1)`. It lies in the requested box and touches its right or bottom edge. |
| `ShapeRenderer.Apex` | GetColorShapeImg.py:113 | The apex abscissa is the floor of the midpoint, and it lies in `[x1, x2]` when `x1 <= x2`. |
| `ShapeRenderer.TriangleVertices` | GetColorShapeImg.py:113-115 | The triangle has three vertices inside an ordered box: the apex on the top edge and the two base corners at the bottom left and bottom right. |
| `ShapeRenderer.DiamondVertices` | GetColorShapeImg.py:134-135 | The diamond has four vertices inside an ordered box, one on the midline of each edge: top, right, bottom, left. |
| `ShapeRenderer.TriangleTight` | GetColorShapeImg.py:111-117 | The bounding box of the three triangle vertices is the requested box. |
| `ShapeRenderer.DiamondTight` | GetColorShapeImg.py:132-137 | The bounding box of the four diamond vertices is the requested box. |
| `ShapeRenderer.Render` | GetColorShapeImg.py:95-147 | Circle, rectangle, triangle and diamond return the requested box unchanged. Square returns the recomputed square. Star returns a box containing its vertices, with every bound attained. Non-star boxes are well formed. Square and star boxes lie inside the requested box, for the star as long as its vertices do. |
| `LayoutPlanner.Plan` | GetColorShapeImg.py:177-186 | For draws in their `randint` ranges the box has the drawn size and stays `margin` pixels from every edge: `margin <= x1`, `x2 <= W - margin`, and likewise for y. It is well formed when the size bounds are positive. |
| `LayoutPlanner.ConfiguredSizesSane` | GetColorShapeImg.py:176-181 | The interior is 980 x 620. The configured bounds 294..686 and 186..434 are the truncated 30 and 70 percent of it, are positive and fit the interior, so the configured program meets the planner's precondition. |
| `LayoutPlanner.DrawsExist` | GetColorShapeImg.py:180-183 | With positive size bounds that fit the interior, no `randint` range is empty. |
| `LayoutPlanner.SizeFitsInterior` | GetColorShapeImg.py:178-183 | A legal draw is never larger than the canvas minus both margins. |
| `SplitAssigner.SplitMap` | GetColorShapeImg.py:155 | The map has one entry per sample. Entry `i` is train exactly when `i < split_idx`. |
| `SplitAssigner.SplitCounts` | GetColorShapeImg.py:152-155 | Exactly `split_idx` entries are train and `N - split_idx` are val (a cut outside `0..N` acts as 0 or N). |
| `SplitAssigner.TrainPrefix` | GetColorShapeImg.py:155 | The training entries form the prefix `[0, split_idx)` and the validation entries the rest. |
| `SplitAssigner.ConfiguredCounts` | GetColorShapeImg.py:152-155 | For 2000 samples cut at 1600: 1600 train and 400 val. |
| `Labeling.Normalize` | GetColorShapeImg.py:193-197 | For an ordered box inside the canvas, every label field is in `[0, 1]` and centre plus or minus half extent stays in `[0, 1]`. A well-formed box has positive width and height. |
| `Labeling.RoundTrip` | GetColorShapeImg.py:193-197 | Denormalising the label of a box gives the box back exactly. |
| `DatasetAssembler.ColorNameAt` | GetColorShapeImg.py:159-164 | The label colour is "white" exactly when the coin chose a black background or the pick was white. It is the catalogue colour at the chosen position. |
| `DatasetAssembler.WhiteOnWhite` | GetColorShapeImg.py:158-164 | A white shape on a white background arises exactly when the coin chose a white background and the pick was "white". A black shape always sits on a white background. |
| `DatasetAssembler.FillOf` | GetColorShapeImg.py:170 | The render colour of a sample has channels in 0..255, and at least 230 for white. |
| `DatasetAssembler.ClassOf` | GetColorShapeImg.py:172-174 | The class lookup of a drawn colour and shape never fails. It equals `colour * 6 + shape < 54`, and names the matching class. |
| `DatasetAssembler.LabelInside` | GetColorShapeImg.py:186-197 | As long as star vertices stay in their box, the labelled box stays inside the margin and its label in the unit square. |
| `DatasetAssembler.Generate` | GetColorShapeImg.py:157-198 | One iteration records its index and the split map's entry for it, and its class id is `colour * 6 + shape`, below 54. |
| `DatasetAssembler.GenerateSound` | GetColorShapeImg.py:157-198 | One sample has the split from the map and the background matching the coin; it is white on white exactly when the coin chose a white background and the pick was "white". Its render colour is in range. Its class id equals `colour * 6 + shape` and names its class. Its requested box is well formed inside the margin. Its labelled box lies in the requested box (for a star, as long as the star's vertices do), and its label is in the unit square under the same condition. The label always round-trips to the labelled box. |
| `DatasetAssembler.Run` | GetColorShapeImg.py:157-208 | The loop yields one sample per draw. Sample `i` is exactly the iteration generated from the `i`-th draws with the split map, so it keeps every guarantee of `GenerateSound`. It has index `i` and a class id below 54, and the splits of the run are exactly the split map. |
| `DatasetAssembler.RunCounts` | GetColorShapeImg.py:152-157 | A run of `N` samples cut at `split_idx` has exactly `split_idx` training and `N - split_idx` validation samples (a cut outside `0..N` acts as 0 or N). |
| `DatasetAssembler.SmallRunCounts` | GetColorShapeImg.py:152-155 | A run of 10 samples cut at 8 has 8 train and 2 val samples. |

## Left out

- Directory creation, label and image file writes, `classes.txt` output and
  progress printing (GetColorShapeImg.py:57-60, 204-223). These are file
  system I/O. `ClassRegistry.ComboClasses` is the list written to
  `classes.txt`.
- PIL rasterisation (`Image.new`, `ImageDraw.Draw`, and the `ellipse`,
  `rectangle` and `polygon` calls). This is a foreign library; only the
  returned boxes and the triangle and diamond vertex lists are modelled.
- The `random` module. Every `randint`/`choice` draw and the 0.5 background
  coin are parameters with range preconditions; distributions are not
  modelled. The unused `shuffle(indices)` has no counterpart.
- Star vertex geometry (GetColorShapeImg.py:119-128). It uses `math.cos`,
  `math.sin` and float radii, so the ten vertices are a parameter of
  `ShapeRenderer.Render`.
- ShapeRenderer.Render: the star box is proved to lie inside the requested
  box only under the hypothesis that the given vertices do. It is not proved
  well formed, because the vertex geometry is not modelled.
- DatasetAssembler.GenerateSound: for a star sample, containment in the
  requested box, the margin and the unit-square guarantees carry the same
  vertex hypothesis.
- The circle's tightness: no ellipse geometry is modelled. The returned box
  equals the requested box, as in the code.
- Labeling.Normalize: computed over exact reals, not IEEE doubles. The
  `:.6f` formatting of the label line is not modelled, so the round trip is
  exact rather than within rounding.
- LayoutPlanner.Plan: `int(max_shape_w * 0.3)` and `int(max_shape_w * 0.7)`
  (and the height bounds) are float computations. They are integer
  parameters, assumed positive and no larger than the interior.
- SplitAssigner.SplitMap: the cut `int(NUM_IMAGES * (1 - VAL_RATIO))` is a
  float computation and is an integer parameter.
- The zero-padded file name `{shape}_{color}_{i+1:04d}` (lines 200-202).
  This is cosmetic output naming.
