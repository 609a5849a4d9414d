/** The free keyhole positioner: a pointer on a pixel surface (origin top-left, y down)
    is mapped into keychain model space (origin at the centre, y up, extents half the
    keychain's width and height), kept 0.3 model units inside the keychain's edges,
    and committed to the designer; the inverse map places the hole marker on the
    surface as percentages. Gestures only commit while positioning mode is on. */
module Keyhole {
  import opened Common

  /** Distance the hole centre keeps from every edge of the keychain. */
  const Margin: real := 0.3

  /** The surface point mapped to [-1, 1] x [-1, 1], with y pointing up. */
  function Normalise(pointer: Point, r: Rect): Point
    requires Positive(r)
  {
    Point((pointer.x - r.left) / r.width * 2.0 - 1.0,
          -((pointer.y - r.top) / r.height) * 2.0 + 1.0)
  }

  /** A normalised point stretched to a keychain of the given width and height. */
  function ScaleToModel(n: Point, width: real, height: real): Point {
    Point(n.x * (width / 2.0), n.y * (height / 2.0))
  }

  /** One axis of the clamp: `Math.max(-dim/2 + 0.3, Math.min(dim/2 - 0.3, v))`. */
  function ClampAxis(v: real, dim: real): (c: real)
    ensures dim >= 2.0 * Margin ==> -(dim / 2.0 - Margin) <= c <= dim / 2.0 - Margin
    ensures -(dim / 2.0 - Margin) <= v <= dim / 2.0 - Margin ==> c == v
    ensures dim < 2.0 * Margin ==> c == -dim / 2.0 + Margin
    ensures v < -(dim / 2.0 - Margin) ==> c == -dim / 2.0 + Margin
    ensures dim >= 2.0 * Margin && v > dim / 2.0 - Margin ==> c == dim / 2.0 - Margin
  {
    Max(-dim / 2.0 + Margin, Min(dim / 2.0 - Margin, v))
  }

  /** The hole centre lies at least Margin inside every edge of a width x height keychain. */
  predicate WithinBounds(p: Point, width: real, height: real) {
    Abs(p.x) <= width / 2.0 - Margin && Abs(p.y) <= height / 2.0 - Margin
  }

  /** `updatePosition`: with no surface element nothing is emitted; otherwise the pointer is
      normalised, scaled to the keychain and clamped. */
  function UpdatePosition(pointer: Point, surface: Option<Rect>, width: real, height: real): (r: Option<Point>)
    requires surface.Some? ==> Positive(surface.value)
    ensures r.Some? <==> surface.Some?
    ensures r.Some? && width >= 2.0 * Margin && height >= 2.0 * Margin ==> WithinBounds(r.value, width, height)
  {
    match surface
    case None => None
    case Some(rect) =>
      var scaled := ScaleToModel(Normalise(pointer, rect), width, height);
      Some(Point(ClampAxis(scaled.x, width), ClampAxis(scaled.y, height)))
  }

  /** `positionToCanvas`: a model position as percentages of the surface, from its top-left corner. */
  function PositionToCanvas(pos: Point, width: real, height: real): Point
    requires width > 0.0 && height > 0.0
  {
    Point((pos.x / (width / 2.0) + 1.0) * 50.0, (1.0 - pos.y / (height / 2.0)) * 50.0)
  }

  /** The pointer's offset in the surface as percentages of its width and height. */
  function PointerPercent(pointer: Point, r: Rect): Point
    requires Positive(r)
  {
    Point((pointer.x - r.left) / r.width * 100.0, (pointer.y - r.top) / r.height * 100.0)
  }

  // ---------------------------------------------------------------------------
  // Properties of the map

  /** The left and right edges of the surface go to -1 and +1; the top edge goes to +1 and the
      bottom edge to -1, so the y axis is flipped. */
  lemma NormaliseEdges(r: Rect, px: real, py: real)
    requires Positive(r)
    ensures Normalise(Point(r.left, py), r).x == -1.0
    ensures Normalise(Point(r.left + r.width, py), r).x == 1.0
    ensures Normalise(Point(px, r.top), r).y == 1.0
    ensures Normalise(Point(px, r.top + r.height), r).y == -1.0
  {
    assert (r.left + r.width - r.left) / r.width == 1.0;
    assert (r.top + r.height - r.top) / r.height == 1.0;
  }

  /** Whenever the clamp does not intervene, marking the committed position on the surface
      puts the marker exactly under the pointer. */
  lemma UnclampedRoundTrip(pointer: Point, r: Rect, width: real, height: real)
    requires Positive(r) && width > 0.0 && height > 0.0
    requires WithinBounds(ScaleToModel(Normalise(pointer, r), width, height), width, height)
    ensures UpdatePosition(pointer, Some(r), width, height).Some?
    ensures PositionToCanvas(UpdatePosition(pointer, Some(r), width, height).value, width, height)
         == PointerPercent(pointer, r)
  {
    var n := Normalise(pointer, r);
    var scaled := ScaleToModel(n, width, height);
    var pos := UpdatePosition(pointer, Some(r), width, height).value;
    assert pos == scaled;
    assert pos.x / (width / 2.0) == n.x;
    assert pos.y / (height / 2.0) == n.y;
  }

  /** Clamping a value already in range leaves it alone, and clamping twice is clamping once. */
  lemma ClampIdempotent(v: real, dim: real)
    ensures ClampAxis(ClampAxis(v, dim), dim) == ClampAxis(v, dim)
  {
  }

  /** The committed position depends on the pointer only through the clamp: a second pass of
      the clamp over a committed position changes nothing. */
  lemma CommittedIsFixedPoint(pointer: Point, r: Rect, width: real, height: real)
    requires Positive(r)
    ensures var p := UpdatePosition(pointer, Some(r), width, height).value;
            Point(ClampAxis(p.x, width), ClampAxis(p.y, height)) == p
  {
    var p := UpdatePosition(pointer, Some(r), width, height).value;
    ClampIdempotent(ScaleToModel(Normalise(pointer, r), width, height).x, width);
    ClampIdempotent(ScaleToModel(Normalise(pointer, r), width, height).y, height);
  }

  // ---------------------------------------------------------------------------
  // Quick positions and reset

  datatype QuickPosition = QuickPosition(name: string, position: Point)

  function QuickPositions(width: real, height: real): (qs: seq<QuickPosition>)
    ensures |qs| == 5
  {
    [ QuickPosition("Top Center", Point(0.0, height / 2.0 - 0.5)),
      QuickPosition("Top Left", Point(-width / 2.0 + 0.7, height / 2.0 - 0.7)),
      QuickPosition("Top Right", Point(width / 2.0 - 0.7, height / 2.0 - 0.7)),
      QuickPosition("Center", Point(0.0, 0.0)),
      QuickPosition("Side", Point(width / 2.0 - 0.5, 0.0)) ]
  }

  /** `resetPosition`: top centre, half a unit below the top edge. */
  function ResetPosition(width: real, height: real): (p: Point)
    ensures p == QuickPositions(width, height)[0].position
    ensures p.x == 0.0 && height / 2.0 - p.y == 0.5
  {
    Point(0.0, height / 2.0 - 0.5)
  }

  /** On a keychain at least one unit wide and high, every quick position is one the clamp
      would leave unchanged. */
  lemma QuickPositionsWithinBounds(width: real, height: real)
    requires width >= 1.0 && height >= 1.0
    ensures forall q :: q in QuickPositions(width, height) ==> WithinBounds(q.position, width, height)
  {
  }

  // ---------------------------------------------------------------------------
  // The positioning gesture state machine

  class Positioner {
    var isDragging: bool
    var isPositioning: bool

    constructor ()
      ensures !isDragging && !isPositioning
    {
      isDragging, isPositioning := false, false;
    }

    /** The "Position" / "Done" button. Dragging is left as it was. */
    method TogglePositioning()
      modifies this
      ensures isPositioning == !old(isPositioning)
      ensures isDragging == old(isDragging)
    {
      isPositioning := !isPositioning;
    }

    /** Starts a drag and commits the pointer's position, but only in positioning mode. */
    method MouseDown(pointer: Point, surface: Option<Rect>, width: real, height: real)
      returns (commit: Option<Point>)
      requires surface.Some? ==> Positive(surface.value)
      modifies this
      ensures isPositioning == old(isPositioning)
      ensures old(isPositioning) ==> isDragging && commit == UpdatePosition(pointer, surface, width, height)
      ensures !old(isPositioning) ==> isDragging == old(isDragging) && commit == None
    {
      if !isPositioning {
        return None;
      }
      isDragging := true;
      commit := UpdatePosition(pointer, surface, width, height);
    }

    /** Commits while a drag is under way in positioning mode; hover alone commits nothing. */
    method MouseMove(pointer: Point, surface: Option<Rect>, width: real, height: real)
      returns (commit: Option<Point>)
      requires surface.Some? ==> Positive(surface.value)
      ensures commit.Some? ==> isDragging && isPositioning && surface.Some?
      ensures isDragging && isPositioning ==> commit == UpdatePosition(pointer, surface, width, height)
    {
      if !isDragging || !isPositioning {
        return None;
      }
      commit := UpdatePosition(pointer, surface, width, height);
    }

    /** Ends a drag; `announced` is whether the "position updated" notice is shown, which
        happens only when a drag was in progress. */
    method MouseUp() returns (announced: bool)
      modifies this
      ensures !isDragging && isPositioning == old(isPositioning)
      ensures announced == old(isDragging)
    {
      announced := isDragging;
      if isDragging {
        isDragging := false;
      }
    }

    /** Leaving the surface, or releasing the button anywhere in the document, ends a drag. */
    method MouseLeave()
      modifies this
      ensures !isDragging && isPositioning == old(isPositioning)
    {
      isDragging := false;
    }

    /** A click commits the pointer's position in positioning mode, dragging or not. */
    method Click(pointer: Point, surface: Option<Rect>, width: real, height: real)
      returns (commit: Option<Point>)
      requires surface.Some? ==> Positive(surface.value)
      ensures commit.Some? ==> isPositioning && surface.Some?
      ensures isPositioning ==> commit == UpdatePosition(pointer, surface, width, height)
    {
      if !isPositioning {
        return None;
      }
      commit := UpdatePosition(pointer, surface, width, height);
    }
  }
}
