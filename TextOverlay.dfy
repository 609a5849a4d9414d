/** The text overlay settings: the text (at most 20 characters), font, size, colour,
    placement and rotation of a caption. Every control sends a partial update that is
    merged into the current settings; whether the controls are shown is a flag local to
    the panel, not part of the settings. */
module TextOverlay {
  import opened Common

  datatype TextConfig = TextConfig(text: string, fontSize: int, fontFamily: string, color: string,
                                   position: Point, rotation: int)

  /** A `Partial<TextOverlayConfig>`: each field either given or absent. */
  datatype ConfigUpdate = ConfigUpdate(text: Option<string>, fontSize: Option<int>,
                                       fontFamily: Option<string>, color: Option<string>,
                                       position: Option<Point>, rotation: Option<int>)

  const NoUpdate: ConfigUpdate := ConfigUpdate(None, None, None, None, None, None)

  function Pick<T>(given: Option<T>, current: T): T {
    match given
    case Some(v) => v
    case None => current
  }

  /** `updateConfig`, the spread `{ ...config, ...updates }`: every field the update gives
      replaces the current one, every other field is copied. */
  function UpdateConfig(c: TextConfig, u: ConfigUpdate): (r: TextConfig)
    ensures u.text.Some? ==> r.text == u.text.value
    ensures u.text.None? ==> r.text == c.text
    ensures u.fontSize.Some? ==> r.fontSize == u.fontSize.value
    ensures u.fontSize.None? ==> r.fontSize == c.fontSize
    ensures u.fontFamily.Some? ==> r.fontFamily == u.fontFamily.value
    ensures u.fontFamily.None? ==> r.fontFamily == c.fontFamily
    ensures u.color.Some? ==> r.color == u.color.value
    ensures u.color.None? ==> r.color == c.color
    ensures u.position.Some? ==> r.position == u.position.value
    ensures u.position.None? ==> r.position == c.position
    ensures u.rotation.Some? ==> r.rotation == u.rotation.value
    ensures u.rotation.None? ==> r.rotation == c.rotation
  {
    TextConfig(Pick(u.text, c.text), Pick(u.fontSize, c.fontSize), Pick(u.fontFamily, c.fontFamily),
               Pick(u.color, c.color), Pick(u.position, c.position), Pick(u.rotation, c.rotation))
  }

  /** Two partial updates in sequence, the later one winning where both give a field. */
  function Then(first: ConfigUpdate, second: ConfigUpdate): ConfigUpdate {
    ConfigUpdate(
      if second.text.Some? then second.text else first.text,
      if second.fontSize.Some? then second.fontSize else first.fontSize,
      if second.fontFamily.Some? then second.fontFamily else first.fontFamily,
      if second.color.Some? then second.color else first.color,
      if second.position.Some? then second.position else first.position,
      if second.rotation.Some? then second.rotation else first.rotation)
  }

  /** An empty update changes nothing. */
  lemma EmptyUpdateKeepsConfig(c: TextConfig)
    ensures UpdateConfig(c, NoUpdate) == c
  {
  }

  /** Applying an update twice is applying it once. */
  lemma UpdateIdempotent(c: TextConfig, u: ConfigUpdate)
    ensures UpdateConfig(UpdateConfig(c, u), u) == UpdateConfig(c, u)
  {
  }

  /** Two updates in a row are one merged update. */
  lemma UpdatesCompose(c: TextConfig, first: ConfigUpdate, second: ConfigUpdate)
    ensures UpdateConfig(UpdateConfig(c, first), second) == UpdateConfig(c, Then(first, second))
  {
  }

  // ---------------------------------------------------------------------------
  // The text input and its counter

  const MaxTextLength: nat := 20

  /** What the text box sends: the input's `maxLength` keeps at most 20 characters. */
  function TextInput(c: TextConfig, typed: string): (r: TextConfig)
    ensures |r.text| <= MaxTextLength
    ensures StartsWith(typed, r.text)
    ensures |typed| <= MaxTextLength ==> r.text == typed
    ensures |typed| > MaxTextLength ==> r.text == typed[..MaxTextLength]
    ensures r == c.(text := r.text)
  {
    var kept := if |typed| <= MaxTextLength then typed else typed[..MaxTextLength];
    UpdateConfig(c, NoUpdate.(text := Some(kept)))
  }

  /** The counter under the text box, "<length>/20 characters". */
  function CharacterCounter(c: TextConfig): string {
    IntToString(|c.text|) + "/20 characters"
  }

  /** The counter's number is the text's length. */
  lemma {:induction false} CounterShowsLength(c: TextConfig)
    ensures var parts := TakeNumber(CharacterCounter(c));
            ParseInt(parts.0) == Some(|c.text|) && parts.1 == "/20 characters"
  {
    IntToStringChars(|c.text|);
    TakeNumberOfConcat(IntToString(|c.text|), "/20 characters");
    IntToStringRoundTrip(|c.text|);
  }

  // ---------------------------------------------------------------------------
  // Placement presets, sliders, preview

  datatype Placement = Top | Center | Bottom

  /** The position each placement button sends. */
  function PlacementPoint(p: Placement): Point {
    match p
    case Top => Point(0.0, 0.5)
    case Center => Point(0.0, 0.0)
    case Bottom => Point(0.0, -0.5)
  }

  /** The placements are horizontally centred; top and bottom mirror each other about the middle. */
  lemma PlacementsSymmetric()
    ensures forall p: Placement :: PlacementPoint(p).x == 0.0
    ensures PlacementPoint(Top).y == -PlacementPoint(Bottom).y > PlacementPoint(Center).y
    ensures PlacementPoint(Center) == Point(0.0, 0.0)
  {
  }

  const FontSizeSlider: Slider := Slider(12.0, 48.0, 2.0)
  const RotationSlider: Slider := Slider(-45.0, 45.0, 5.0)

  /** The font sizes the slider can send are the even numbers from 12 to 48. */
  lemma FontSizeValues(v: int)
    ensures OnGrid(FontSizeSlider, v as real) <==> 12 <= v <= 48 && v % 2 == 0
  {
    if 12 <= v <= 48 && v % 2 == 0 {
      var k: nat := (v - 12) / 2;
      IntegerGridPoint(FontSizeSlider, 12, 2, k);
    }
    if OnGrid(FontSizeSlider, v as real) {
      var k: nat :| GridPoint(FontSizeSlider, k) == v as real;
      IntegerGridPoint(FontSizeSlider, 12, 2, k);
    }
  }

  /** The rotations the slider can send are the multiples of 5 from -45 to 45 degrees. */
  lemma RotationValues(v: int)
    ensures OnGrid(RotationSlider, v as real) <==> -45 <= v <= 45 && v % 5 == 0
  {
    if -45 <= v <= 45 && v % 5 == 0 {
      var k: nat := (v + 45) / 5;
      IntegerGridPoint(RotationSlider, -45, 5, k);
    }
    if OnGrid(RotationSlider, v as real) {
      var k: nat :| GridPoint(RotationSlider, k) == v as real;
      IntegerGridPoint(RotationSlider, -45, 5, k);
    }
  }

  /** The preview line: the text, or "Your Text" while the text is empty. */
  function PreviewText(c: TextConfig): (shown: string)
    ensures shown != ""
    ensures c.text != "" ==> shown == c.text
    ensures c.text == "" ==> shown == "Your Text"
  {
    if c.text != "" then c.text else "Your Text"
  }

  const FontOptions: seq<string> := ["Quicksand", "Inter", "Playfair Display", "Comic Sans MS", "Pacifico"]
  const TextColorOptions: seq<string> :=
    ["#FF69B4", "#FFD700", "#FFFFFF", "#000000", "#87CEEB", "#98FB98", "#DDA0DD", "#FF6347"]

  /** The settings the designer starts with. */
  const DefaultTextConfig: TextConfig := TextConfig("", 24, "Quicksand", "#FFFFFF", Point(0.0, 0.0), 0)

  /** The initial settings are ones the controls could have produced: a listed font and colour,
      values on both sliders, the centre placement, and a preview that shows the placeholder. */
  lemma DefaultsReachableFromControls()
    ensures DefaultTextConfig.fontFamily in FontOptions && DefaultTextConfig.color in TextColorOptions
    ensures OnGrid(FontSizeSlider, DefaultTextConfig.fontSize as real)
    ensures OnGrid(RotationSlider, DefaultTextConfig.rotation as real)
    ensures DefaultTextConfig.position == PlacementPoint(Center)
    ensures PreviewText(DefaultTextConfig) == "Your Text"
  {
    FontSizeValues(24);
    RotationValues(0);
  }

  /** The panel's enable switch; it only decides whether the controls are shown. */
  class TextPanel {
    var isEnabled: bool

    constructor ()
      ensures !isEnabled
    {
      isEnabled := false;
    }

    method Toggle()
      modifies this
      ensures isEnabled == !old(isEnabled)
    {
      isEnabled := !isEnabled;
    }

    predicate ControlsVisible()
      reads this
    {
      isEnabled
    }
  }
}
