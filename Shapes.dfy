/** The shape catalogue: eight keychain outlines, three of them marked popular. The selector
    highlights the option equal to the selected shape, forwards a clicked shape unchanged,
    and looks up the selected shape's label and icon, falling back to the square icon. */
module Shapes {
  import opened Common

  datatype Shape = Rectangle | Circle | Heart | Star | Hexagon | Pentagon | Triangle | Shield

  /** The icons the selector draws. */
  datatype Icon = SquareIcon | CircleIcon | HeartIcon | StarIcon | HexagonIcon | PentagonIcon
                | TriangleIcon | ShieldIcon

  datatype ShapeOption = ShapeOption(value: Shape, name: string, icon: Icon, popular: bool)

  const ShapeOptions: seq<ShapeOption> := [
    ShapeOption(Rectangle, "Rectangle", SquareIcon, true),
    ShapeOption(Circle, "Circle", CircleIcon, true),
    ShapeOption(Heart, "Heart", HeartIcon, true),
    ShapeOption(Star, "Star", StarIcon, false),
    ShapeOption(Hexagon, "Hexagon", HexagonIcon, false),
    ShapeOption(Pentagon, "Pentagon", PentagonIcon, false),
    ShapeOption(Triangle, "Triangle", TriangleIcon, false),
    ShapeOption(Shield, "Shield", ShieldIcon, false)
  ]

  function ShapeValues(): (vs: seq<Shape>)
    ensures |vs| == |ShapeOptions|
    ensures forall i :: 0 <= i < |ShapeOptions| ==> vs[i] == ShapeOptions[i].value
  {
    seq(|ShapeOptions|, i requires 0 <= i < |ShapeOptions| => ShapeOptions[i].value)
  }

  /** The shape type has eight values and the table lists each of them exactly once. */
  lemma EveryShapeListedOnce(s: Shape)
    ensures |ShapeValues()| == 8 && Distinct(ShapeValues())
    ensures Count(ShapeValues(), s) == 1
  {
    assert ShapeValues() == [Rectangle, Circle, Heart, Star, Hexagon, Pentagon, Triangle, Shield];
    CountDistinct(ShapeValues(), s);
  }

  /** No two options carry the same shape. */
  lemma OptionValuesDistinct()
    ensures forall i, j :: 0 <= i < j < |ShapeOptions| ==> ShapeOptions[i].value != ShapeOptions[j].value
  {
    EveryShapeListedOnce(Rectangle);
  }

  /** Exactly rectangle, circle and heart are marked popular. */
  lemma PopularShapes()
    ensures forall o :: o in ShapeOptions ==> (o.popular <==> o.value in {Rectangle, Circle, Heart})
  {
  }

  /** `Array.prototype.find`: the first option whose value is the given shape. */
  function FindShape(options: seq<ShapeOption>, s: Shape): (r: Option<ShapeOption>)
    ensures r.Some? ==> r.value in options && r.value.value == s
    ensures r.Some? ==> exists i :: 0 <= i < |options| && options[i] == r.value
                                  && forall j :: 0 <= j < i ==> options[j].value != s
    ensures r.None? <==> forall o :: o in options ==> o.value != s
  {
    if options == [] then None
    else if options[0].value == s then Some(options[0])
    else
      var r := FindShape(options[1..], s);
      if r.Some? then
        ghost var i :| 0 <= i < |options[1..]| && options[1..][i] == r.value
                       && forall j :: 0 <= j < i ==> options[1..][j].value != s;
        assert options[i + 1] == r.value;
        assert forall j :: 0 <= j < i + 1 ==> options[j].value != s by {
          forall j | 0 <= j < i + 1 ensures options[j].value != s {
            if j > 0 { assert options[j] == options[1..][j - 1]; }
          }
        }
        r
      else
        assert forall o :: o in options ==> o == options[0] || o in options[1..];
        r
  }

  /** The label printed after "Selected:" (absent when no option matches). */
  function SelectedLabel(selected: Shape): Option<string> {
    match FindShape(ShapeOptions, selected)
    case Some(o) => Some(o.name)
    case None => None
  }

  /** The preview icon: the matching option's icon, or the square icon when none matches. */
  function SelectedIcon(selected: Shape): Icon {
    match FindShape(ShapeOptions, selected)
    case Some(o) => o.icon
    case None => SquareIcon
  }

  /** In a table whose values are pairwise different, a shape's lookup finds the one option
      listing it. */
  lemma {:induction false} FindShapeUnique(options: seq<ShapeOption>, s: Shape, o: ShapeOption)
    requires forall i, j :: 0 <= i < j < |options| ==> options[i].value != options[j].value
    requires o in options && o.value == s
    ensures FindShape(options, s) == Some(o)
    decreases |options|
  {
    var k :| 0 <= k < |options| && options[k] == o;
    if k > 0 {
      assert options[1..][k - 1] == o;
      FindShapeUnique(options[1..], s, o);
    }
  }

  /** Every shape finds its own option, so the label and icon come from the unique option
      listing it and the square fallback is never needed for a non-rectangle. */
  lemma LookupFindsUniqueOption(selected: Shape, o: ShapeOption)
    requires o in ShapeOptions && o.value == selected
    ensures SelectedLabel(selected) == Some(o.name)
    ensures SelectedIcon(selected) == o.icon
    ensures SelectedIcon(selected) == SquareIcon <==> selected == Rectangle
  {
    OptionValuesDistinct();
    FindShapeUnique(ShapeOptions, selected, o);
    assert FindShape(ShapeOptions, selected) == Some(o);
    SquareIconOnlyForRectangle();
  }

  /** Only the rectangle option is drawn with the square icon. */
  lemma SquareIconOnlyForRectangle()
    ensures forall o :: o in ShapeOptions ==> (o.icon == SquareIcon <==> o.value == Rectangle)
  {
  }

  /** An option is drawn selected when its value is the selected shape. */
  predicate IsSelected(o: ShapeOption, selected: Shape) {
    selected == o.value
  }

  /** `handleShapeChange`: the clicked option's shape is passed on unchanged. */
  function ShapeChange(clicked: ShapeOption): (forwarded: Shape)
    ensures IsSelected(clicked, forwarded)
  {
    clicked.value
  }

  /** After a click, the clicked option and no other is drawn selected. */
  lemma ClickSelectsOnlyClicked(clicked: ShapeOption)
    requires clicked in ShapeOptions
    ensures forall o :: o in ShapeOptions ==> (IsSelected(o, ShapeChange(clicked)) <==> o == clicked)
  {
    OptionValuesDistinct();
    forall o | o in ShapeOptions ensures IsSelected(o, ShapeChange(clicked)) <==> o == clicked {
      var i :| 0 <= i < |ShapeOptions| && ShapeOptions[i] == o;
      var j :| 0 <= j < |ShapeOptions| && ShapeOptions[j] == clicked;
      assert o.value == clicked.value ==> i == j;
    }
  }
}
