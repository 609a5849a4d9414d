/** The image editor's adjustment state: a rotation in degrees, a zoom, brightness and contrast
    in percent, and two flip flags. Buttons rotate by a quarter turn, toggle the flips and reset
    everything; the drawing derives a signed scale per axis and a CSS filter string from the
    state. */
module ImageEditor {
  import opened Common

  /** The x (or y) factor the image is drawn with: the zoom as a fraction, negated when the
      axis is flipped. */
  function DrawScale(scale: int, flip: bool): (factor: real)
    ensures Abs(factor) == Abs(scale as real / 100.0)
    ensures scale > 0 ==> (factor < 0.0 <==> flip)
  {
    if flip then -(scale as real) / 100.0 else scale as real / 100.0
  }

  /** Flipping an axis mirrors it: the factor changes sign and keeps its size. */
  lemma FlipNegatesScale(scale: int, flip: bool)
    ensures DrawScale(scale, !flip) == -DrawScale(scale, flip)
  {
  }

  const FilterOpen: string := "brightness("
  const FilterMiddle: string := "%) contrast("
  const FilterClose: string := "%)"

  /** The canvas filter, "brightness(B%) contrast(C%)". */
  function FilterString(brightness: int, contrast: int): string {
    FilterOpen + (IntToString(brightness) + (FilterMiddle + (IntToString(contrast) + FilterClose)))
  }

  /** The rest of `s` after `prefix`, when `s` starts with it. */
  function DropPrefix(prefix: string, s: string): (rest: Option<string>)
    ensures rest.Some? ==> s == prefix + rest.value
    ensures rest.None? <==> !StartsWith(s, prefix)
  {
    if |prefix| <= |s| && s[..|prefix|] == prefix then Some(s[|prefix|..]) else None
  }

  lemma DropPrefixOfConcat(prefix: string, rest: string)
    ensures DropPrefix(prefix, prefix + rest) == Some(rest)
  {
    assert (prefix + rest)[..|prefix|] == prefix;
    assert (prefix + rest)[|prefix|..] == rest;
  }

  /** Reads brightness and contrast back out of a filter string. */
  function ParseFilter(s: string): Option<(int, int)> {
    match DropPrefix(FilterOpen, s)
    case None => None
    case Some(afterOpen) =>
      var (first, afterFirst) := TakeNumber(afterOpen);
      match (ParseInt(first), DropPrefix(FilterMiddle, afterFirst))
      case (Some(brightness), Some(afterMiddle)) =>
        var (second, afterSecond) := TakeNumber(afterMiddle);
        if ParseInt(second).Some? && afterSecond == FilterClose then Some((brightness, ParseInt(second).value))
        else None
      case _ => None
  }

  /** The filter string carries exactly the current brightness and contrast: both read back. */
  lemma {:induction false} FilterRoundTrip(brightness: int, contrast: int)
    ensures ParseFilter(FilterString(brightness, contrast)) == Some((brightness, contrast))
  {
    var tail := FilterMiddle + (IntToString(contrast) + FilterClose);
    DropPrefixOfConcat(FilterOpen, IntToString(brightness) + tail);
    IntToStringChars(brightness);
    TakeNumberOfConcat(IntToString(brightness), tail);
    IntToStringRoundTrip(brightness);
    DropPrefixOfConcat(FilterMiddle, IntToString(contrast) + FilterClose);
    IntToStringChars(contrast);
    TakeNumberOfConcat(IntToString(contrast), FilterClose);
    IntToStringRoundTrip(contrast);
  }

  /** Zoom, brightness and contrast share one slider range: 50 to 150 percent in steps of 5. */
  const AdjustmentSlider: Slider := Slider(50.0, 150.0, 5.0)

  /** The percentages the sliders can send are the multiples of 5 from 50 to 150. */
  lemma AdjustmentValues(v: int)
    ensures OnGrid(AdjustmentSlider, v as real) <==> 50 <= v <= 150 && v % 5 == 0
  {
    if 50 <= v <= 150 && v % 5 == 0 {
      var k: nat := (v - 50) / 5;
      IntegerGridPoint(AdjustmentSlider, 50, 5, k);
    }
    if OnGrid(AdjustmentSlider, v as real) {
      var k: nat :| GridPoint(AdjustmentSlider, k) == v as real;
      IntegerGridPoint(AdjustmentSlider, 50, 5, k);
    }
  }

  /** The neutral value 100 is a slider position, and the reset filter reads back as neutral. */
  lemma NeutralAdjustments()
    ensures OnGrid(AdjustmentSlider, 100.0)
    ensures ParseFilter(FilterString(100, 100)) == Some((100, 100))
    ensures DrawScale(100, false) == 1.0 && DrawScale(100, true) == -1.0
  {
    AdjustmentValues(100);
    FilterRoundTrip(100, 100);
  }

  class Editor {
    var rotation: int
    var scale: int
    var brightness: int
    var contrast: int
    var flipH: bool
    var flipV: bool

    /** The untouched state the editor opens with and reset returns to. */
    predicate Neutral()
      reads this
    {
      rotation == 0 && scale == 100 && brightness == 100 && contrast == 100 && !flipH && !flipV
    }

    constructor ()
      ensures Neutral()
    {
      rotation, scale, brightness, contrast := 0, 100, 100, 100;
      flipH, flipV := false, false;
    }

    /** `handleReset`. */
    method Reset()
      modifies this
      ensures Neutral()
    {
      rotation, scale, brightness, contrast := 0, 100, 100, 100;
      flipH, flipV := false, false;
    }

    /** The rotate button: a quarter turn more, with no wrap-around at 360. */
    method Rotate()
      modifies this
      ensures rotation == old(rotation) + 90
      ensures scale == old(scale) && brightness == old(brightness) && contrast == old(contrast)
      ensures flipH == old(flipH) && flipV == old(flipV)
    {
      rotation := rotation + 90;
    }

    method ToggleFlipH()
      modifies this
      ensures flipH == !old(flipH)
      ensures rotation == old(rotation) && scale == old(scale) && brightness == old(brightness)
      ensures contrast == old(contrast) && flipV == old(flipV)
    {
      flipH := !flipH;
    }

    method ToggleFlipV()
      modifies this
      ensures flipV == !old(flipV)
      ensures rotation == old(rotation) && scale == old(scale) && brightness == old(brightness)
      ensures contrast == old(contrast) && flipH == old(flipH)
    {
      flipV := !flipV;
    }

    /** The zoom slider. */
    method SetScale(value: int)
      modifies this
      ensures scale == value
      ensures rotation == old(rotation) && brightness == old(brightness) && contrast == old(contrast)
      ensures flipH == old(flipH) && flipV == old(flipV)
    {
      scale := value;
    }

    /** The brightness slider. */
    method SetBrightness(value: int)
      modifies this
      ensures brightness == value
      ensures rotation == old(rotation) && scale == old(scale) && contrast == old(contrast)
      ensures flipH == old(flipH) && flipV == old(flipV)
    {
      brightness := value;
    }

    /** The contrast slider. */
    method SetContrast(value: int)
      modifies this
      ensures contrast == value
      ensures rotation == old(rotation) && scale == old(scale) && brightness == old(brightness)
      ensures flipH == old(flipH) && flipV == old(flipV)
    {
      contrast := value;
    }

    /** The filter the canvas is drawn with. */
    function Filter(): string
      reads this
    {
      FilterString(brightness, contrast)
    }

    /** The per-axis scale factors the canvas is drawn with. */
    function DrawScales(): (real, real)
      reads this
    {
      (DrawScale(scale, flipH), DrawScale(scale, flipV))
    }
  }

  /** Pressing a flip button twice restores the editor, and the drawing, as it was. */
  method FlipTwice(e: Editor)
    modifies e
    ensures e.flipH == old(e.flipH) && e.DrawScales() == old(e.DrawScales())
  {
    e.ToggleFlipH();
    e.ToggleFlipH();
  }

  /** Four quarter turns add a full turn to the stored angle, which keeps growing. */
  method FullTurn(e: Editor)
    modifies e
    ensures e.rotation == old(e.rotation) + 360 && e.Filter() == old(e.Filter())
  {
    e.Rotate();
    e.Rotate();
    e.Rotate();
    e.Rotate();
  }
}
