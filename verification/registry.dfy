/** ClassRegistry: the combination classes `"{color}_{shape}"`, enumerated
    with colours as the outer loop and shapes as the inner loop, and the
    class id of a (colour, shape) pair as its position in that list
    (GetColorShapeImg.py:50-54, 173-174). */
module ClassRegistry {
  import opened Wrappers
  import ColorSampler

  /** The closed set of shape kinds. */
  datatype Shape = Circle | Square | Rectangle | Triangle | Star | Diamond

  /** `SHAPES`, in its declared order. */
  const Shapes: seq<Shape> := [Circle, Square, Rectangle, Triangle, Star, Diamond]

  function ShapeName(s: Shape): string
  {
    match s
    case Circle => "circle"
    case Square => "square"
    case Rectangle => "rectangle"
    case Triangle => "triangle"
    case Star => "star"
    case Diamond => "diamond"
  }

  /** The shape names, in the order of `Shapes`. */
  function ShapeNames(shapes: seq<Shape>): (r: seq<string>)
    ensures |r| == |shapes|
    ensures forall j :: 0 <= j < |shapes| ==> r[j] == ShapeName(shapes[j])
  {
    seq(|shapes|, j requires 0 <= j < |shapes| => ShapeName(shapes[j]))
  }

  /** The class name `f"{color}_{shape}"`. */
  function ComboName(color: string, shape: string): string
  {
    color + "_" + shape
  }

  predicate NoSeparator(name: string)
  {
    '_' !in name
  }

  /** No two positions of `s` hold the same element. */
  predicate Distinct<T(==)>(s: seq<T>)
  {
    forall a, b :: 0 <= a < b < |s| ==> s[a] != s[b]
  }

  /** One pass of the inner loop: the classes of one colour. */
  function Row(color: string, shapes: seq<string>): (r: seq<string>)
    ensures |r| == |shapes|
    ensures forall j :: 0 <= j < |shapes| ==> r[j] == ComboName(color, shapes[j])
  {
    seq(|shapes|, j requires 0 <= j < |shapes| => ComboName(color, shapes[j]))
  }

  /** The list comprehension `[f"{c}_{s}" for c in colors for s in shapes]`:
      one row per colour, rows in colour order. */
  function Combos(colors: seq<string>, shapes: seq<string>): (r: seq<string>)
    ensures |r| == |colors| * |shapes|
  {
    if |colors| == 0 then []
    else
      assert |colors| * |shapes| == |shapes| + (|colors| - 1) * |shapes|;
      Row(colors[0], shapes) + Combos(colors[1..], shapes)
  }

  /** `COMBO_CLASSES`. */
  const ComboClasses: seq<string> := Combos(ColorSampler.ColorNames, ShapeNames(Shapes))

  /** `list.index(x)`: the position of the first occurrence of `x`; None is
      the ValueError raised when `x` is absent. */
  function IndexOf<T(==)>(s: seq<T>, x: T): (r: Option<nat>)
    ensures r.None? <==> x !in s
    ensures r.Some? ==> r.value < |s| && s[r.value] == x && x !in s[..r.value]
  {
    if |s| == 0 then None
    else if s[0] == x then Some(0)
    else
      match IndexOf(s[1..], x)
      case None => None
      case Some(k) =>
        assert s[..k + 1] == [s[0]] + s[1..][..k];
        Some(k + 1)
  }

  /** `COMBO_CLASSES.index(f"{color_name}_{shape}")`: it fails exactly
      for a pair outside the registry, and otherwise gives the one and only
      position of the class name, since the registry has no duplicates. */
  function ClassId(colorName: string, shapeName: string): (r: Option<nat>)
    ensures r.None? <==> ComboName(colorName, shapeName) !in ComboClasses
    ensures r.Some? ==> r.value < |ComboClasses| && ComboClasses[r.value] == ComboName(colorName, shapeName)
    ensures r.Some? ==> forall k :: 0 <= k < |ComboClasses| && ComboClasses[k] == ComboName(colorName, shapeName) ==> k == r.value
  {
    CataloguesWellFormed();
    CombosDistinct(ColorSampler.ColorNames, ShapeNames(Shapes));
    IndexOf(ComboClasses, ComboName(colorName, shapeName))
  }

  /** Splitting at the first underscore recovers both names, so the class
      name determines the pair as long as colour names contain no `_`
      (shape names may). */
  lemma ComboNameInjective(c1: string, s1: string, c2: string, s2: string)
    requires NoSeparator(c1) && NoSeparator(c2)
    ensures ComboName(c1, s1) == ComboName(c2, s2) <==> c1 == c2 && s1 == s2
  {
    var n1, n2 := ComboName(c1, s1), ComboName(c2, s2);
    SeparatorAt(c1, s1);
    SeparatorAt(c2, s2);
    if n1 == n2 {
      if |c1| != |c2| {
        assert false;
      } else {
        assert c1 == n1[..|c1|] == n2[..|c2|] == c2;
        assert s1 == n1[|c1| + 1..] == n2[|c2| + 1..] == s2;
      }
    }
  }

  /** The first `_` of a class name is the one after the colour. */
  lemma SeparatorAt(c: string, s: string)
    requires NoSeparator(c)
    ensures |c| < |ComboName(c, s)| && ComboName(c, s)[|c|] == '_'
    ensures forall k :: 0 <= k < |c| ==> ComboName(c, s)[k] != '_'
  {
  }

  /** The entry at row `i`, column `j` of the enumeration is the class of
      `colors[i]` and `shapes[j]`. */
  lemma {:induction false} CombosAt(colors: seq<string>, shapes: seq<string>, i: nat, j: nat)
    requires i < |colors| && j < |shapes|
    ensures i * |shapes| + j < |Combos(colors, shapes)|
    ensures Combos(colors, shapes)[i * |shapes| + j] == ComboName(colors[i], shapes[j])
  {
    var rest := Combos(colors[1..], shapes);
    assert Combos(colors, shapes) == Row(colors[0], shapes) + rest;
    if i > 0 {
      CombosAt(colors[1..], shapes, i - 1, j);
      assert i * |shapes| + j == |shapes| + ((i - 1) * |shapes| + j);
    }
  }

  /** Every position of the enumeration is some row `i` and column `j`. */
  lemma CombosPosition(colors: seq<string>, shapes: seq<string>, k: nat) returns (i: nat, j: nat)
    requires k < |Combos(colors, shapes)|
    ensures i < |colors| && j < |shapes| && k == i * |shapes| + j
    ensures Combos(colors, shapes)[k] == ComboName(colors[i], shapes[j])
  {
    Decompose(k, |shapes|, |colors|);
    i, j := k / |shapes|, k % |shapes|;
    CombosAt(colors, shapes, i, j);
  }

  /** Row and column of a position in a table of `m` rows of width `n`. */
  lemma Decompose(k: nat, n: nat, m: nat)
    requires k < m * n
    ensures n > 0 && k / n < m && k % n < n && k == (k / n) * n + k % n
  {
  }

  /** The class id of `colors[i]` and `shapes[j]` is `i * |shapes| + j`,
      provided the names are distinct and colour names carry no `_`. */
  lemma ClassIdClosedForm(colors: seq<string>, shapes: seq<string>, i: nat, j: nat)
    requires Distinct(colors) && Distinct(shapes)
    requires forall c :: c in colors ==> NoSeparator(c)
    requires i < |colors| && j < |shapes|
    ensures IndexOf(Combos(colors, shapes), ComboName(colors[i], shapes[j])) == Some(i * |shapes| + j)
  {
    CombosAt(colors, shapes, i, j);
    var r := IndexOf(Combos(colors, shapes), ComboName(colors[i], shapes[j]));
    OnlyPosition(colors, shapes, i, j, r.value);
  }

  /** The class of `colors[i]` and `shapes[j]` occurs only at position
      `i * |shapes| + j`. */
  lemma OnlyPosition(colors: seq<string>, shapes: seq<string>, i: nat, j: nat, k: nat)
    requires Distinct(colors) && Distinct(shapes)
    requires forall c :: c in colors ==> NoSeparator(c)
    requires i < |colors| && j < |shapes| && k < |Combos(colors, shapes)|
    requires Combos(colors, shapes)[k] == ComboName(colors[i], shapes[j])
    ensures k == i * |shapes| + j
  {
    var i', j' := CombosPosition(colors, shapes, k);
    ComboNameInjective(colors[i'], shapes[j'], colors[i], shapes[j]);
    DistinctAt(colors, i', i);
    DistinctAt(shapes, j', j);
  }

  /** Equal elements of a duplicate-free sequence sit at the same position. */
  lemma DistinctAt<T>(s: seq<T>, a: nat, b: nat)
    requires Distinct(s) && a < |s| && b < |s| && s[a] == s[b]
    ensures a == b
  {
  }

  /** Every class name appears exactly once in the enumeration. */
  lemma CombosDistinct(colors: seq<string>, shapes: seq<string>)
    requires Distinct(colors) && Distinct(shapes)
    requires forall c :: c in colors ==> NoSeparator(c)
    ensures Distinct(Combos(colors, shapes))
  {
    var cs := Combos(colors, shapes);
    forall a, b | 0 <= a < b < |cs|
      ensures cs[a] != cs[b]
    {
      var ib, jb := CombosPosition(colors, shapes, b);
      if cs[a] == cs[b] {
        OnlyPosition(colors, shapes, ib, jb, a);
      }
    }
  }

  /** The configured catalogues are duplicate-free and colour names carry
      no `_`. */
  lemma CataloguesWellFormed()
    ensures |ColorSampler.ColorNames| == 9 && |ShapeNames(Shapes)| == 6
    ensures Distinct(ColorSampler.ColorNames) && Distinct(ShapeNames(Shapes))
    ensures forall c :: c in ColorSampler.ColorNames ==> NoSeparator(c)
  {
    ColorsDistinct();
    ShapesDistinct();
  }

  lemma ColorsDistinct()
    ensures Distinct(["red", "orange", "yellow", "green", "cyan", "blue", "purple", "black", "white"])
  {
  }

  lemma ShapesDistinct()
    ensures |ShapeNames(Shapes)| == 6 && Distinct(ShapeNames(Shapes))
  {
    var ns := ShapeNames(Shapes);
    assert ns == ["circle", "square", "rectangle", "triangle", "star", "diamond"];
    forall a, b | 0 <= a < b < |ns|
      ensures ns[a] != ns[b]
    {
      assert ns[a][0] != ns[b][0] || ns[a][1] != ns[b][1];
    }
  }

  /** `COMBO_CLASSES` has 9 * 6 = 54 entries, and the class id of the
      `i`-th colour and the `j`-th shape is `i * 6 + j`. */
  lemma ClassIds(i: nat, j: nat)
    requires i < |ColorSampler.ColorNames| && j < |Shapes|
    ensures |ComboClasses| == 54
    ensures ClassId(ColorSampler.ColorNames[i], ShapeName(Shapes[j])) == Some(i * 6 + j)
  {
    CataloguesWellFormed();
    ClassIdClosedForm(ColorSampler.ColorNames, ShapeNames(Shapes), i, j);
  }
}
