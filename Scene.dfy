/** The 3D keychain model: a box body centred at the origin, a small gold sphere marking the
    hole and a silver torus ring around it, both placed at the hole position on the body's
    front face; the body is textured with the image when there is one, and its colour
    lightens while the pointer hovers over it. */
module Scene {
  import opened Common
  import Keyhole
  import Sizes

  datatype Vec3 = Vec3(x: real, y: real, z: real)

  /** Side of the body in scene units, whatever size is selected. */
  const BodySide: real := 3.0
  const IndicatorRadius: real := 0.15
  /** How far in front of the ring the indicator sphere sits. */
  const IndicatorOffset: real := 0.1
  const RingRadius: real := 0.2
  const RingTube: real := 0.05

  /** The body box's dimensions as the component builds them: a fixed 3 x 3 face and the
      selected thickness as depth. */
  function BodyBox(thickness: real): (dims: Vec3)
    ensures dims.x == BodySide && dims.y == BodySide && dims.z == thickness
  {
    Vec3(BodySide, BodySide, thickness)
  }

  /** The body is centred at the origin. */
  const BodyCentre: Vec3 := Vec3(0.0, 0.0, 0.0)

  /** Where the indicator sphere is drawn. */
  function IndicatorPosition(thickness: real, hole: Point): Vec3 {
    Vec3(hole.x, hole.y, thickness / 2.0 + 0.1)
  }

  /** Where the ring is drawn. */
  function RingPosition(thickness: real, hole: Point): Vec3 {
    Vec3(hole.x, hole.y, thickness / 2.0)
  }

  /** The ring lies in the body's front face, centred on the hole. */
  lemma RingOnFrontFace(thickness: real, hole: Point)
    ensures RingPosition(thickness, hole).z == BodyCentre.z + BodyBox(thickness).z / 2.0
    ensures RingPosition(thickness, hole).x == hole.x && RingPosition(thickness, hole).y == hole.y
  {
  }

  /** For every thickness the indicator is straight in front of the ring, IndicatorOffset away. */
  lemma IndicatorInFrontOfRing(thickness: real, hole: Point)
    ensures IndicatorPosition(thickness, hole).z - RingPosition(thickness, hole).z == IndicatorOffset
    ensures IndicatorPosition(thickness, hole).x == RingPosition(thickness, hole).x
    ensures IndicatorPosition(thickness, hole).y == RingPosition(thickness, hole).y
  {
  }

  function SquaredDistance(a: Vec3, b: Vec3): real {
    (a.x - b.x) * (a.x - b.x) + (a.y - b.y) * (a.y - b.y) + (a.z - b.z) * (a.z - b.z)
  }

  /** The ring is an unrotated torus, so its tube's centre line is the circle of radius
      RingRadius around the hole in the plane of the front face. Every point of that circle is
      farther from the indicator's centre than the indicator's radius plus the tube's radius:
      the gold sphere never touches the silver ring, whatever the thickness and hole. */
  lemma MarkerClearsRing(thickness: real, hole: Point, q: Vec3)
    requires (q.x - hole.x) * (q.x - hole.x) + (q.y - hole.y) * (q.y - hole.y) == RingRadius * RingRadius
    requires q.z == RingPosition(thickness, hole).z
    ensures SquaredDistance(q, IndicatorPosition(thickness, hole))
            > (IndicatorRadius + RingTube) * (IndicatorRadius + RingTube)
  {
    IndicatorInFrontOfRing(thickness, hole);
    assert q.z - IndicatorPosition(thickness, hole).z == -IndicatorOffset;
  }

  /** A texture is made exactly when the image URL is truthy (neither null nor empty). */
  function HasTexture(imageTexture: Option<string>): bool {
    Truthy(imageTexture)
  }

  /** The body's material while not hovered and while hovered. */
  const BodyColor: string := "#FF69B4"
  const HoverColor: string := "#FFB6C1"
  const BodyRoughness: real := 0.3
  const BodyMetalness: real := 0.1

  datatype BodyMaterial = BodyMaterial(color: string, textured: bool, roughness: real, metalness: real)

  function BodyMaterialFor(hovered: bool, imageTexture: Option<string>): (m: BodyMaterial)
    ensures m.color == (if hovered then HoverColor else BodyColor)
    ensures m.textured <==> imageTexture.Some? && imageTexture.value != ""
    ensures m.roughness == 0.3 && m.metalness == 0.1
  {
    BodyMaterial(if hovered then "#FFB6C1" else "#FF69B4", HasTexture(imageTexture), BodyRoughness, BodyMetalness)
  }

  /** The hover flag of the body, flipped by pointer-over and pointer-out. */
  class BodyHover {
    var hovered: bool

    constructor ()
      ensures !hovered
    {
      hovered := false;
    }

    method PointerOver()
      modifies this
      ensures hovered
    {
      hovered := true;
    }

    method PointerOut()
      modifies this
      ensures !hovered
    {
      hovered := false;
    }
  }

  // ---------------------------------------------------------------------------
  // The hole against the body

  /** The point lies on the face of a body of the given width and height centred at the origin. */
  predicate OnFace(p: Point, width: real, height: real) {
    Abs(p.x) <= width / 2.0 && Abs(p.y) <= height / 2.0
  }

  /** A pointer on the far right edge of a 100-pixel surface, half-way down. */
  const RightEdgePointer: Point := Point(100.0, 50.0)
  const Surface100: Rect := Rect(0.0, 0.0, 100.0, 100.0)

  /** As written: with any size wider than 3.6 (medium, large, jumbo) the positioner accepts a
      hole whose centre is off the fixed 3 x 3 body. Pressing on the right edge of the surface
      commits x = width/2 - 0.3, which is 1.7, 2.2 and 2.7 for those sizes. */
  lemma HoleCanLeaveFixedBody(size: Sizes.SizeOption, thickness: real)
    requires size in Sizes.SizePresets && size.width > 3.6
    ensures var hole := Keyhole.UpdatePosition(RightEdgePointer, Some(Surface100), size.width, size.height);
            hole.Some? && hole.value.x == size.width / 2.0 - Keyhole.Margin
            && !OnFace(hole.value, BodyBox(thickness).x, BodyBox(thickness).y)
  {
    var n := Keyhole.Normalise(RightEdgePointer, Surface100);
    assert n.x == 1.0 && n.y == 0.0;
  }

  /** For the two sizes no wider than 3.6 (mini, small) every committed hole does stay on
      the fixed body. */
  lemma HoleOnFixedBodyForSmallSizes(size: Sizes.SizeOption, pointer: Point, surface: Rect, thickness: real)
    requires size in Sizes.SizePresets && size.width <= 3.6 && Positive(surface)
    ensures var hole := Keyhole.UpdatePosition(pointer, Some(surface), size.width, size.height);
            hole.Some? && OnFace(hole.value, BodyBox(thickness).x, BodyBox(thickness).y)
  {
    Sizes.PresetsPositiveAndSquare();
    assert size.width >= 2.0 && size.height == size.width;
  }

  /** The designer's initial size, medium, is wider than 3.6 and so affected. */
  lemma DefaultSizeAffected()
    ensures Sizes.SizePresets[Sizes.DefaultSizeIndex].width > 3.6
  {
  }

  /** Every catalogue size leaves room for the hole: half of each side exceeds the clamp
      margin, so the positioner's clamp interval is never empty. */
  lemma ClampIntervalNonEmpty()
    ensures forall s :: s in Sizes.SizePresets ==>
      s.width / 2.0 > Keyhole.Margin && s.height / 2.0 > Keyhole.Margin
  {
  }

  /** Corrected body: the face takes the selected size's width and height. */
  function SizedBodyBox(size: Sizes.SizeOption, thickness: real): (dims: Vec3)
    ensures dims.x == size.width && dims.y == size.height && dims.z == thickness
  {
    Vec3(size.width, size.height, thickness)
  }

  /** With the corrected body, every position the positioner commits for a catalogue size lies
      on the face, at least the clamp margin inside each edge. */
  lemma HoleStaysOnSizedBody(size: Sizes.SizeOption, pointer: Point, surface: Rect, thickness: real)
    requires size in Sizes.SizePresets && Positive(surface)
    ensures var hole := Keyhole.UpdatePosition(pointer, Some(surface), size.width, size.height);
            hole.Some?
            && Keyhole.WithinBounds(hole.value, SizedBodyBox(size, thickness).x, SizedBodyBox(size, thickness).y)
            && OnFace(hole.value, SizedBodyBox(size, thickness).x, SizedBodyBox(size, thickness).y)
  {
    Sizes.PresetsPositiveAndSquare();
    assert size.width >= 2.0 && size.height >= 2.0;
  }
}
