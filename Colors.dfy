/** The keychain colour chooser: ten options, of which "#FFFFFF" stands for the image's
    original colours, six are solid hex colours and three are named gradients that the
    swatches draw as CSS gradients; a description line says which kind is selected. */
module Colors {
  import opened Common

  datatype ColorOption = ColorOption(name: string, value: string, gradient: bool)

  /** The value meaning "keep the image's own colours". */
  const OriginalColor: string := "#FFFFFF"

  const ColorOptions: seq<ColorOption> := [
    ColorOption("Original", "#FFFFFF", false),
    ColorOption("Pink Paradise", "#FF69B4", false),
    ColorOption("Lavender Dream", "#E6E6FA", false),
    ColorOption("Mint Fresh", "#98FB98", false),
    ColorOption("Sunshine", "#FFD700", false),
    ColorOption("Ocean Blue", "#00CED1", false),
    ColorOption("Coral Reef", "#FF7F50", false),
    ColorOption("Rainbow", "rainbow", true),
    ColorOption("Sunset", "sunset", true),
    ColorOption("Aurora", "aurora", true)
  ]

  const GradientNames: set<string> := {"rainbow", "sunset", "aurora"}

  /** How every gradient the swatches draw begins. */
  const GradientPrefix: string := "linear-gradient(135deg, "

  /** `getGradientStyle`: the three gradient names become CSS gradients; any other value is
      returned as it is. */
  function GradientStyle(value: string): (css: string)
    ensures value in GradientNames ==> StartsWith(css, GradientPrefix) && css != value
    ensures value !in GradientNames ==> css == value
  {
    if value == "rainbow" then
      StartsWithConcat(GradientPrefix, "#FF0000, #FF7F00, #FFFF00, #00FF00, #0000FF, #4B0082, #9400D3)");
      GradientPrefix + "#FF0000, #FF7F00, #FFFF00, #00FF00, #0000FF, #4B0082, #9400D3)"
    else if value == "sunset" then
      StartsWithConcat(GradientPrefix, "#FF512F, #F09819, #FFE259)");
      GradientPrefix + "#FF512F, #F09819, #FFE259)"
    else if value == "aurora" then
      StartsWithConcat(GradientPrefix, "#667eea, #764ba2, #f093fb)");
      GradientPrefix + "#667eea, #764ba2, #f093fb)"
    else value
  }

  /** The background a swatch is painted with. */
  function SwatchBackground(o: ColorOption): string {
    if o.gradient then GradientStyle(o.value) else o.value
  }

  /** Swatches of gradient options show a CSS gradient; all others show their own value. */
  lemma SwatchBackgrounds()
    ensures forall o :: o in ColorOptions ==>
      (o.gradient ==> StartsWith(SwatchBackground(o), GradientPrefix)) &&
      (!o.gradient ==> SwatchBackground(o) == o.value)
  {
  }

  /** The first option, "Original", is the sentinel value. */
  lemma OriginalIsSentinel()
    ensures ColorOptions[0] == ColorOption("Original", OriginalColor, false)
  {
  }

  /** An option is flagged as a gradient exactly when its value is not a '#' colour. */
  lemma GradientFlagMatchesValue()
    ensures forall o :: o in ColorOptions ==> (o.gradient <==> !StartsWith(o.value, "#"))
  {
    forall o | o in ColorOptions ensures o.gradient <==> !StartsWith(o.value, "#") {
      StartsWithOneChar(o.value, '#');
    }
  }

  function ColorValues(): (vs: seq<string>)
    ensures |vs| == |ColorOptions|
    ensures forall i :: 0 <= i < |ColorOptions| ==> vs[i] == ColorOptions[i].value
  {
    seq(|ColorOptions|, i requires 0 <= i < |ColorOptions| => ColorOptions[i].value)
  }

  /** An option's button is highlighted when its value is the selected colour. */
  predicate IsHighlighted(o: ColorOption, selected: string) {
    selected == o.value
  }

  /** Picking any option highlights exactly one button. */
  lemma ExactlyOneColorHighlighted(selected: string)
    requires selected in ColorValues()
    ensures Count(ColorValues(), selected) == 1
  {
    assert ColorValues() == ["#FFFFFF", "#FF69B4", "#E6E6FA", "#98FB98", "#FFD700", "#00CED1",
                             "#FF7F50", "rainbow", "sunset", "aurora"];
    CountDistinct(ColorValues(), selected);
  }

  /** How the selected colour will be applied. */
  datatype ColorMode = KeepOriginal | SolidOverlay | GradientEffect

  const OriginalText: string := "Original colors from your image will be preserved"
  const SolidText: string := "Your keychain will have a solid color overlay"
  const GradientText: string := "Your keychain will have a beautiful gradient effect"

  /** The description paragraph: three independent tests, each adding its sentence. */
  function ColorDescription(selected: string): seq<string> {
    (if selected == OriginalColor then [OriginalText] else [])
    + (if StartsWith(selected, "#") && selected != OriginalColor then [SolidText] else [])
    + (if !StartsWith(selected, "#") then [GradientText] else [])
  }

  /** The kind of colour a value denotes. */
  function ModeOf(selected: string): ColorMode {
    if selected == OriginalColor then KeepOriginal
    else if StartsWith(selected, "#") then SolidOverlay
    else GradientEffect
  }

  function ModeText(m: ColorMode): string {
    match m
    case KeepOriginal => OriginalText
    case SolidOverlay => SolidText
    case GradientEffect => GradientText
  }

  /** For every selected value, however it was obtained, exactly one sentence is shown: the
      one for its kind. */
  lemma ExactlyOneDescription(selected: string)
    ensures ColorDescription(selected) == [ModeText(ModeOf(selected))]
  {
    assert StartsWith(OriginalColor, "#");
  }

  /** Within the catalogue, only "Original" keeps the image colours, the other '#' options are
      solid overlays and the flagged options are gradients. */
  lemma CatalogueModes()
    ensures forall o :: o in ColorOptions ==>
      (ModeOf(o.value) == KeepOriginal <==> o.name == "Original") &&
      (ModeOf(o.value) == GradientEffect <==> o.gradient)
  {
    GradientFlagMatchesValue();
  }
}
