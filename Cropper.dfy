/** The crop-rectangle editor: a crop area over the image's canvas that the user moves by
    dragging its inside and resizes by pulling one of its four corners, with the opposite
    corner held in place and a 50-pixel minimum side; presets replace it by a centred
    area of a given aspect ratio. All coordinates are canvas pixels. */
module Cropper {
  import opened Common

  /** Half-width of the square around a corner in which a press grabs that corner. */
  const HandleSize: real := 16.0
  /** Smallest width and height a resize leaves. */
  const MinSide: real := 50.0

  datatype CropArea = CropArea(x: real, y: real, width: real, height: real)

  /** `resizeHandle`: "" before any corner was grabbed, then "tl", "tr", "bl" or "br". */
  datatype Handle = NoHandle | TopLeft | TopRight | BottomLeft | BottomRight

  /** The corners in the order a press tests them. */
  const HandleOrder: seq<Handle> := [TopLeft, TopRight, BottomLeft, BottomRight]

  function CornerOf(a: CropArea, h: Handle): Point
    requires h != NoHandle
  {
    match h
    case TopLeft => Point(a.x, a.y)
    case TopRight => Point(a.x + a.width, a.y)
    case BottomLeft => Point(a.x, a.y + a.height)
    case BottomRight => Point(a.x + a.width, a.y + a.height)
  }

  /** Strictly within HandleSize of the corner on both axes. */
  predicate NearCorner(p: Point, a: CropArea, h: Handle)
    requires h != NoHandle
  {
    Abs(p.x - CornerOf(a, h).x) < HandleSize && Abs(p.y - CornerOf(a, h).y) < HandleSize
  }

  /** Inside the area, edges included. */
  predicate Contains(a: CropArea, p: Point) {
    a.x <= p.x <= a.x + a.width && a.y <= p.y <= a.y + a.height
  }

  /** A corner's place in HandleOrder. */
  function Rank(h: Handle): (i: nat)
    requires h != NoHandle
    ensures i < |HandleOrder| && HandleOrder[i] == h
  {
    match h
    case TopLeft => 0
    case TopRight => 1
    case BottomLeft => 2
    case BottomRight => 3
  }

  /** No corner of the area is within reach of the point. */
  predicate NearNoCorner(p: Point, a: CropArea) {
    !NearCorner(p, a, TopLeft) && !NearCorner(p, a, TopRight)
    && !NearCorner(p, a, BottomLeft) && !NearCorner(p, a, BottomRight)
  }

  /** What a press at a point grabs. */
  datatype Hit = OnHandle(handle: Handle) | InsideArea | OutsideArea

  /** The hit test of `handleMouseDown`: the first corner in HandleOrder within reach, else
      the area itself, else nothing. */
  function HitTest(p: Point, a: CropArea): (hit: Hit)
    ensures hit.OnHandle? ==> hit.handle != NoHandle && NearCorner(p, a, hit.handle)
    ensures hit.OnHandle? ==> forall j :: 0 <= j < Rank(hit.handle) ==> !NearCorner(p, a, HandleOrder[j])
    ensures hit == InsideArea <==> NearNoCorner(p, a) && Contains(a, p)
    ensures hit == OutsideArea <==> NearNoCorner(p, a) && !Contains(a, p)
  {
    if Abs(p.x - a.x) < HandleSize && Abs(p.y - a.y) < HandleSize then OnHandle(TopLeft)
    else if Abs(p.x - (a.x + a.width)) < HandleSize && Abs(p.y - a.y) < HandleSize then OnHandle(TopRight)
    else if Abs(p.x - a.x) < HandleSize && Abs(p.y - (a.y + a.height)) < HandleSize then OnHandle(BottomLeft)
    else if Abs(p.x - (a.x + a.width)) < HandleSize && Abs(p.y - (a.y + a.height)) < HandleSize then OnHandle(BottomRight)
    else if p.x >= a.x && p.x <= a.x + a.width && p.y >= a.y && p.y <= a.y + a.height then InsideArea
    else OutsideArea
  }

  datatype Cursor = NwResize | NeResize | SwResize | SeResize | Move | Default

  /** The cursor `handleMouseMove` shows over a point, decided by its own chain of tests. */
  function CursorAt(p: Point, a: CropArea): Cursor {
    if Abs(p.x - a.x) < HandleSize && Abs(p.y - a.y) < HandleSize then NwResize
    else if Abs(p.x - (a.x + a.width)) < HandleSize && Abs(p.y - a.y) < HandleSize then NeResize
    else if Abs(p.x - a.x) < HandleSize && Abs(p.y - (a.y + a.height)) < HandleSize then SwResize
    else if Abs(p.x - (a.x + a.width)) < HandleSize && Abs(p.y - (a.y + a.height)) < HandleSize then SeResize
    else if p.x >= a.x && p.x <= a.x + a.width && p.y >= a.y && p.y <= a.y + a.height then Move
    else Default
  }

  /** The cursor announced for each outcome of a press. */
  function CursorFor(hit: Hit): Cursor {
    match hit
    case OnHandle(h) =>
      (match h
       case TopLeft => NwResize
       case TopRight => NeResize
       case BottomLeft => SwResize
       case BottomRight => SeResize
       case NoHandle => Default)
    case InsideArea => Move
    case OutsideArea => Default
  }

  /** The cursor over a point announces exactly what a press there would grab. */
  lemma CursorFollowsHitTest(p: Point, a: CropArea)
    ensures CursorAt(p, a) == CursorFor(HitTest(p, a))
  {
  }

  /** A pointer position in canvas pixels: the element may be displayed scaled, so client
      offsets are stretched by the ratio of canvas size to displayed size. */
  function ToCanvasPixels(client: Point, rect: Rect, canvasWidth: nat, canvasHeight: nat): Point
    requires Positive(rect)
  {
    Point((client.x - rect.left) * (canvasWidth as real / rect.width),
          (client.y - rect.top) * (canvasHeight as real / rect.height))
  }

  /** Moving the area: the pointer keeps its offset `grip` from the area's corner, clamped so
      that the corner stays at or right of/below the canvas origin and, when the area fits, the
      whole area stays on the canvas. */
  function DragArea(a: CropArea, p: Point, grip: Point, canvasWidth: nat, canvasHeight: nat): (r: CropArea)
    ensures r.width == a.width && r.height == a.height
    ensures r.x >= 0.0 && r.y >= 0.0
    ensures a.width <= canvasWidth as real ==> r.x + r.width <= canvasWidth as real
    ensures a.height <= canvasHeight as real ==> r.y + r.height <= canvasHeight as real
    ensures 0.0 <= p.x - grip.x <= canvasWidth as real - a.width ==> r.x == p.x - grip.x
    ensures 0.0 <= p.y - grip.y <= canvasHeight as real - a.height ==> r.y == p.y - grip.y
    ensures p.x - grip.x < 0.0 ==> r.x == 0.0
    ensures (a.width <= canvasWidth as real && p.x - grip.x > canvasWidth as real - a.width)
      ==> r.x == canvasWidth as real - a.width
    ensures a.width > canvasWidth as real ==> r.x == 0.0
    ensures p.y - grip.y < 0.0 ==> r.y == 0.0
    ensures (a.height <= canvasHeight as real && p.y - grip.y > canvasHeight as real - a.height)
      ==> r.y == canvasHeight as real - a.height
    ensures a.height > canvasHeight as real ==> r.y == 0.0
  {
    a.(x := Max(0.0, Min(canvasWidth as real - a.width, p.x - grip.x)),
       y := Max(0.0, Min(canvasHeight as real - a.height, p.y - grip.y)))
  }

  predicate IsLeft(h: Handle) { h == TopLeft || h == BottomLeft }
  predicate IsTop(h: Handle) { h == TopLeft || h == TopRight }

  /** The width wanted when corner h is dragged to p: the distance to the fixed
      vertical edge. */
  function WantedWidth(a: CropArea, h: Handle, p: Point): real {
    if IsLeft(h) then a.x + a.width - p.x else p.x - a.x
  }

  function WantedHeight(a: CropArea, h: Handle, p: Point): real {
    if IsTop(h) then a.y + a.height - p.y else p.y - a.y
  }

  /** Resizing from a corner: the corner opposite h stays where it was, the dragged corner goes
      to the pointer on each axis unless that would make the side shorter than MinSide, in
      which case the side is MinSide. Without a grabbed corner the area is unchanged. */
  method ResizeArea(a: CropArea, h: Handle, p: Point) returns (n: CropArea)
    ensures h == NoHandle ==> n == a
    ensures h != NoHandle ==> n.width >= MinSide && n.height >= MinSide
    ensures h == BottomRight ==> n.x == a.x && n.y == a.y
    ensures h == TopLeft ==> n.x + n.width == a.x + a.width && n.y + n.height == a.y + a.height
    ensures h == TopRight ==> n.x == a.x && n.y + n.height == a.y + a.height
    ensures h == BottomLeft ==> n.x + n.width == a.x + a.width && n.y == a.y
    ensures h != NoHandle && WantedWidth(a, h, p) >= MinSide ==> CornerOf(n, h).x == p.x
    ensures h != NoHandle && WantedWidth(a, h, p) < MinSide ==> n.width == MinSide
    ensures h != NoHandle && WantedHeight(a, h, p) >= MinSide ==> CornerOf(n, h).y == p.y
    ensures h != NoHandle && WantedHeight(a, h, p) < MinSide ==> n.height == MinSide
  {
    n := a;
    if h == BottomRight {
      n := n.(width := Max(MinSide, p.x - a.x));
      n := n.(height := Max(MinSide, p.y - a.y));
    } else if h == TopLeft {
      var newWidth := Max(MinSide, a.x + a.width - p.x);
      var newHeight := Max(MinSide, a.y + a.height - p.y);
      n := n.(x := a.x + a.width - newWidth);
      n := n.(y := a.y + a.height - newHeight);
      n := n.(width := newWidth);
      n := n.(height := newHeight);
    } else if h == TopRight {
      n := n.(width := Max(MinSide, p.x - a.x));
      var newHeight := Max(MinSide, a.y + a.height - p.y);
      n := n.(y := a.y + a.height - newHeight);
      n := n.(height := newHeight);
    } else if h == BottomLeft {
      var newWidth := Max(MinSide, a.x + a.width - p.x);
      n := n.(x := a.x + a.width - newWidth);
      n := n.(width := newWidth);
      n := n.(height := Max(MinSide, p.y - a.y));
    }
  }

  /** `applyAspectRatio`: an area centred on the canvas whose shorter side is half the canvas's
      shorter side and whose width is `ratio` times its height. */
  function AspectArea(canvasWidth: nat, canvasHeight: nat, ratio: real): (r: CropArea)
    requires ratio > 0.0
    ensures r.x + r.width / 2.0 == canvasWidth as real / 2.0
    ensures r.y + r.height / 2.0 == canvasHeight as real / 2.0
    ensures r.width == ratio * r.height
    ensures Min(r.width, r.height) == Min(canvasWidth as real, canvasHeight as real) / 2.0
  {
    var size := Min(canvasWidth as real, canvasHeight as real) * 0.5;
    var width := if ratio >= 1.0 then size * ratio else size;
    var height := if ratio < 1.0 then size / ratio else size;
    assert width == ratio * height && Min(width, height) == size by {
      if ratio < 1.0 {
        DivideByNarrowRatio(size, ratio);
        assert width == size && height == size / ratio;
      } else {
        MultiplyByWideRatio(size, ratio);
        assert width == size * ratio && height == size;
      }
    }
    CropArea((canvasWidth as real - width) / 2.0, (canvasHeight as real - height) / 2.0, width, height)
  }

  lemma DivideByNarrowRatio(size: real, ratio: real)
    requires size >= 0.0 && 0.0 < ratio < 1.0
    ensures ratio * (size / ratio) == size && size / ratio >= size
  {
    var q := size / ratio;
    assert q * ratio == size;
    assert q - size == q * (1.0 - ratio);
  }

  lemma MultiplyByWideRatio(size: real, ratio: real)
    requires size >= 0.0 && ratio >= 1.0
    ensures ratio * size == size * ratio >= size
  {
    assert size * ratio - size == size * (ratio - 1.0);
  }

  datatype AspectPreset = AspectPreset(name: string, ratio: real)

  const AspectPresets: seq<AspectPreset> :=
    [AspectPreset("Square", 1.0), AspectPreset("Portrait", 0.75),
     AspectPreset("Landscape", 1.33), AspectPreset("Circle", 1.0)]

  /** Every preset ratio is positive, so every preset yields an area of that exact ratio. */
  lemma AspectPresetsPositive()
    ensures forall p :: p in AspectPresets ==> p.ratio > 0.0
  {
  }

  /** The area `loadImage` centres on a freshly loaded image: a square half the image's
      shorter side. */
  function CentredSquare(imageWidth: nat, imageHeight: nat): CropArea {
    var size := Min(imageWidth as real, imageHeight as real) * 0.5;
    CropArea((imageWidth as real - size) / 2.0, (imageHeight as real - size) / 2.0, size, size)
  }

  /** The initial square is the "Square" preset applied to a canvas the size of the image. */
  lemma CentredSquareIsSquarePreset(imageWidth: nat, imageHeight: nat)
    ensures CentredSquare(imageWidth, imageHeight) == AspectArea(imageWidth, imageHeight, AspectPresets[0].ratio)
  {
  }

  // ---------------------------------------------------------------------------
  // The editor's state and its event handlers

  class ImageCropper {
    var area: CropArea
    var isDragging: bool
    var isResizing: bool
    var dragStart: Point
    var resizeHandle: Handle
    var imageLoaded: bool
    /** The canvas's pixel size: the browser's default 300 x 150 until the image is drawn,
        then the image's own size. */
    var canvasWidth: nat
    var canvasHeight: nat

    /** Sizes never go negative, and a resize always knows which corner it holds. */
    ghost predicate Valid()
      reads this
    {
      area.width >= 0.0 && area.height >= 0.0 && (isResizing ==> resizeHandle != NoHandle)
    }

    constructor ()
      ensures Valid()
      ensures area == CropArea(50.0, 50.0, 200.0, 200.0)
      ensures !isDragging && !isResizing && !imageLoaded
      ensures dragStart == Point(0.0, 0.0) && resizeHandle == NoHandle
      ensures canvasWidth == 300 && canvasHeight == 150
    {
      area := CropArea(50.0, 50.0, 200.0, 200.0);
      isDragging, isResizing := false, false;
      dragStart := Point(0.0, 0.0);
      resizeHandle := NoHandle;
      imageLoaded := false;
      canvasWidth, canvasHeight := 300, 150;
    }

    /** The image has loaded: when the canvas element exists the crop area is centred on the
        image and the canvas takes the image's size. */
    method ImageLoaded(imageWidth: nat, imageHeight: nat, hasCanvas: bool)
      requires Valid()
      modifies this
      ensures Valid()
      ensures imageLoaded
      ensures hasCanvas ==>
        area == CentredSquare(imageWidth, imageHeight) && canvasWidth == imageWidth && canvasHeight == imageHeight
      ensures !hasCanvas ==>
        area == old(area) && canvasWidth == old(canvasWidth) && canvasHeight == old(canvasHeight)
      ensures isDragging == old(isDragging) && isResizing == old(isResizing)
      ensures dragStart == old(dragStart) && resizeHandle == old(resizeHandle)
    {
      imageLoaded := true;
      if hasCanvas {
        area := CentredSquare(imageWidth, imageHeight);
        canvasWidth, canvasHeight := imageWidth, imageHeight;
      }
    }

    /** A press grabs a corner (first in HandleOrder), or starts a move remembering where in
        the area it was grabbed, or does nothing; with no canvas element it does nothing. */
    method MouseDown(client: Point, canvasRect: Option<Rect>)
      requires Valid()
      requires canvasRect.Some? ==> Positive(canvasRect.value)
      modifies this
      ensures Valid()
      ensures area == old(area) && canvasWidth == old(canvasWidth) && canvasHeight == old(canvasHeight)
      ensures canvasRect.None? ==>
        isDragging == old(isDragging) && isResizing == old(isResizing)
        && dragStart == old(dragStart) && resizeHandle == old(resizeHandle)
      ensures canvasRect.Some? ==>
        var p := ToCanvasPixels(client, canvasRect.value, canvasWidth, canvasHeight);
        match HitTest(p, area)
        case OnHandle(h) =>
          isResizing && resizeHandle == h && isDragging == old(isDragging) && dragStart == old(dragStart)
        case InsideArea =>
          isDragging && dragStart == Point(p.x - area.x, p.y - area.y)
          && isResizing == old(isResizing) && resizeHandle == old(resizeHandle)
        case OutsideArea =>
          isDragging == old(isDragging) && isResizing == old(isResizing)
          && dragStart == old(dragStart) && resizeHandle == old(resizeHandle)
    {
      if canvasRect.None? {
        return;
      }
      var p := ToCanvasPixels(client, canvasRect.value, canvasWidth, canvasHeight);
      var hit := HitTest(p, area);
      match hit {
        case OnHandle(h) =>
          isResizing := true;
          resizeHandle := h;
        case InsideArea =>
          isDragging := true;
          dragStart := Point(p.x - area.x, p.y - area.y);
        case OutsideArea =>
      }
    }

    /** Moving the pointer moves the area while dragging, otherwise resizes it while resizing;
        the cursor shown is chosen from the area as it was before this move. */
    method MouseMove(client: Point, canvasRect: Option<Rect>) returns (cursor: Option<Cursor>)
      requires Valid()
      requires canvasRect.Some? ==> Positive(canvasRect.value)
      modifies this
      ensures Valid()
      ensures isDragging == old(isDragging) && isResizing == old(isResizing)
      ensures dragStart == old(dragStart) && resizeHandle == old(resizeHandle)
      ensures canvasWidth == old(canvasWidth) && canvasHeight == old(canvasHeight)
      ensures canvasRect.None? ==> cursor == None && area == old(area)
      ensures canvasRect.Some? ==>
        var p := ToCanvasPixels(client, canvasRect.value, canvasWidth, canvasHeight);
        && cursor == Some(CursorAt(p, old(area)))
        && (isDragging ==> area == DragArea(old(area), p, dragStart, canvasWidth, canvasHeight))
        && (!isDragging && isResizing ==>
              area.width >= MinSide && area.height >= MinSide
              && CornerOf(area, OppositeOf(resizeHandle)) == CornerOf(old(area), OppositeOf(resizeHandle)))
        && (!isDragging && !isResizing ==> area == old(area))
    {
      if canvasRect.None? {
        return None;
      }
      var p := ToCanvasPixels(client, canvasRect.value, canvasWidth, canvasHeight);
      var before := area;
      if isDragging {
        area := DragArea(area, p, dragStart, canvasWidth, canvasHeight);
      } else if isResizing {
        area := ResizeArea(area, resizeHandle, p);
      }
      cursor := Some(CursorAt(p, before));
    }

    /** Releasing the button, or leaving the canvas, ends both a move and a resize. */
    method MouseUp()
      requires Valid()
      modifies this
      ensures Valid()
      ensures !isDragging && !isResizing
      ensures area == old(area) && dragStart == old(dragStart) && resizeHandle == old(resizeHandle)
      ensures canvasWidth == old(canvasWidth) && canvasHeight == old(canvasHeight)
    {
      isDragging := false;
      isResizing := false;
    }

    /** A preset button: with a canvas element, the area becomes the centred area of that ratio. */
    method ApplyAspectRatio(ratio: real, hasCanvas: bool)
      requires Valid()
      requires ratio > 0.0
      modifies this
      ensures Valid()
      ensures hasCanvas ==> area == AspectArea(canvasWidth, canvasHeight, ratio)
      ensures !hasCanvas ==> area == old(area)
      ensures isDragging == old(isDragging) && isResizing == old(isResizing)
      ensures dragStart == old(dragStart) && resizeHandle == old(resizeHandle)
      ensures canvasWidth == old(canvasWidth) && canvasHeight == old(canvasHeight)
    {
      if hasCanvas {
        area := AspectArea(canvasWidth, canvasHeight, ratio);
      }
    }
  }

  /** The corner a resize from h holds still. */
  function OppositeOf(h: Handle): Handle {
    match h
    case TopLeft => BottomRight
    case TopRight => BottomLeft
    case BottomLeft => TopRight
    case BottomRight => TopLeft
    case NoHandle => NoHandle
  }
}
