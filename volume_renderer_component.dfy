/** VolumeRendererComponent: a component that shows a volume and turns it
    by dragging and zooms it with the wheel. The model keeps the rotation,
    the drag state and the zoom with its limits; the WebGL drawing, the
    matrices and the volume loader are not part of it. */
module VolumeRenderer {
  import opened Wrappers
  import opened Types
  import opened UiUtils
  import opened BaseComponent

  /** A `vec3`. */
  datatype Vec3 = Vec3(x: real, y: real, z: real)

  /** The rotation after dragging from `last` to `client`: horizontal
      movement turns about the y axis and vertical movement about the x
      axis, by 0.01 radian per pixel. */
  function Rotated(rotation: Vec3, last: Vec2, client: Vec2): (r: Vec3)
    ensures r.z == rotation.z
    ensures client == last ==> r == rotation
  {
    Vec3(rotation.x + (client.y - last.y) * 0.01, rotation.y + (client.x - last.x) * 0.01,
         rotation.z)
  }

  /** Only where the drag starts and ends counts: two moves in a row turn
      the volume as far as one move over the whole way. */
  lemma RotatedTelescopes(rotation: Vec3, a: Vec2, b: Vec2, c: Vec2)
    ensures Rotated(Rotated(rotation, a, b), b, c) == Rotated(rotation, a, c)
  {
  }

  /** The constructor's zoom set-up from the volume's extent: the scale
      that fits the largest dimension into 2/3 of clip space, a fifth of it
      as the lowest zoom and ten times it as the highest. `None` when the
      largest dimension is 0, where the division gives an infinity. */
  function InitialScale(width: real, height: real, depth: real)
    : (r: Option<(real, real, real)>)
    ensures r.Some? <==> Max(width, Max(height, depth)) != 0.0
    ensures r.Some? ==> r.value.0 * Max(width, Max(height, depth)) == 2.0 / 3.0
    ensures r.Some? && Max(width, Max(height, depth)) > 0.0 ==>
      0.0 < r.value.1 < r.value.0 < r.value.2
  {
    var largest := Max(width, Max(height, depth));
    if largest == 0.0 then None
    else
      var s := (1.0 / 3.0) * 2.0 / largest;
      Some((s, s / 5.0, s * 10.0))
  }

  /** `handleWheelScroll`'s new scale: the scale changes by
      `-deltaY * 0.001` of itself, then is clamped to the zoom limits. */
  function Zoomed(scale: real, minScale: real, maxScale: real, deltaY: real): (r: real)
    ensures minScale <= r
    ensures minScale <= maxScale ==> r <= maxScale
    ensures minScale <= scale <= maxScale && deltaY == 0.0 ==> r == scale
    ensures 0.0 < scale && minScale <= maxScale && deltaY < 0.0 ==> Min(scale, maxScale) <= r
    ensures 0.0 < scale && minScale <= maxScale && deltaY > 0.0 ==> r <= Max(scale, minScale)
  {
    var grown := scale + -deltaY * 0.001 * scale;
    if 0.0 < scale && deltaY < 0.0 then
      MulNonNegative(-deltaY * 0.001, scale);
      Clamp(grown, minScale, maxScale)
    else if 0.0 < scale && deltaY > 0.0 then
      MulNonNegative(deltaY * 0.001, scale);
      Clamp(grown, minScale, maxScale)
    else Clamp(grown, minScale, maxScale)
  }

  class VolumeRendererComponent {
    const base: BaseUIComponent
    var rotation: Vec3
    var translationOffset: Vec3
    var scaleFactor: real
    var minScale: real
    var maxScale: real
    var isDragging: bool
    var lastPointerPosition: Option<Vec2>

    /** The zoom stays within limits that are positive and ordered. */
    ghost predicate Valid()
      reads this
    {
      0.0 < minScale <= scaleFactor <= maxScale
    }

    /** The constructor: the three pointer handlers are the component's
        own, the class answers wheel events, and the zoom starts from the
        volume's extent. A zero extent is excluded, see `InitialScale`. */
    constructor (config: Config, width: real, height: real, depth: real)
      requires Max(width, Max(height, depth)) != 0.0
      ensures fresh(base)
      ensures rotation == Vec3(0.0, 0.0, 0.0) && translationOffset == Vec3(0.0, 0.0, 0.0)
      ensures !isDragging && lastPointerPosition.None?
      ensures InitialScale(width, height, depth) == Some((scaleFactor, minScale, maxScale))
      ensures Max(width, Max(height, depth)) > 0.0 ==> Valid()
      ensures base.handlers == map["pointerdown" := Callback("handlePointerDown"),
                                   "pointermove" := Callback("handlePointerMove"),
                                   "pointerup" := Callback("handlePointerUp")]
      ensures base.hasWheelHandler
    {
      base := new BaseUIComponent(config, ObjState(map[], map[]));
      rotation := Vec3(0.0, 0.0, 0.0);
      translationOffset := Vec3(0.0, 0.0, 0.0);
      isDragging := false;
      lastPointerPosition := None;
      var largest := Max(width, Max(height, depth));
      var s := (1.0 / 3.0) * 2.0 / largest;
      scaleFactor := s;
      minScale := s / 5.0;
      maxScale := s * 10.0;
      new;
      base.handlers := map["pointerdown" := Callback("handlePointerDown"),
                           "pointermove" := Callback("handlePointerMove"),
                           "pointerup" := Callback("handlePointerUp")];
      base.hasWheelHandler := true;
    }

    /** `handlePointerDown`: starts a drag at the pointer. */
    method HandlePointerDown(client: Vec2)
      modifies this`isDragging, this`lastPointerPosition
      ensures isDragging && lastPointerPosition == Some(client)
    {
      isDragging := true;
      lastPointerPosition := Some(client);
    }

    /** `handlePointerMove`: while a drag with a recorded position is under
        way, turns the volume by the movement and records the new position;
        otherwise does nothing. */
    method HandlePointerMove(client: Vec2)
      modifies this`rotation, this`lastPointerPosition, base`calls
      ensures !(old(isDragging) && old(lastPointerPosition).Some?) ==>
        rotation == old(rotation) && lastPointerPosition == old(lastPointerPosition) &&
        base.calls == old(base.calls)
      ensures old(isDragging) && old(lastPointerPosition).Some? ==>
        && rotation == Rotated(old(rotation), old(lastPointerPosition).value, client)
        && lastPointerPosition == Some(client)
        && base.calls == old(base.calls) + (if base.hasRedraw then [RequestRedraw] else [])
    {
      if !isDragging || lastPointerPosition.None? {
        return;
      }
      var last := lastPointerPosition.value;
      var deltaX := client.x - last.x;
      var deltaY := client.y - last.y;
      rotation := rotation.(y := rotation.y + deltaX * 0.01);
      rotation := rotation.(x := rotation.x + deltaY * 0.01);
      lastPointerPosition := Some(client);
      if base.hasRedraw {
        base.calls := base.calls + [RequestRedraw];
      }
    }

    /** `handlePointerUp`: ends the drag and forgets the position. */
    method HandlePointerUp()
      modifies this`isDragging, this`lastPointerPosition
      ensures !isDragging && lastPointerPosition.None?
    {
      isDragging := false;
      lastPointerPosition := None;
    }

    /** `handleWheelScroll`: zooms and keeps the zoom within its limits. */
    method HandleWheelScroll(deltaY: real)
      modifies this`scaleFactor, base`calls
      ensures scaleFactor == Zoomed(old(scaleFactor), minScale, maxScale, deltaY)
      ensures old(Valid()) ==> Valid()
      ensures base.calls == old(base.calls) + (if base.hasRedraw then [RequestRedraw] else [])
    {
      var zoomSpeed := 0.001;
      scaleFactor := scaleFactor + -deltaY * zoomSpeed * scaleFactor;
      scaleFactor := Max(minScale, Min(maxScale, scaleFactor));
      if base.hasRedraw {
        base.calls := base.calls + [RequestRedraw];
      }
    }

    /** `setScale`: sets the zoom as given, without the clamp the wheel
        applies. */
    method SetScale(scale: real)
      modifies this`scaleFactor, base`calls
      ensures scaleFactor == scale
      ensures minScale <= scale <= maxScale && old(minScale) > 0.0 ==> Valid()
      ensures base.calls == old(base.calls) + (if base.hasRedraw then [RequestRedraw] else [])
    {
      scaleFactor := scale;
      if base.hasRedraw {
        base.calls := base.calls + [RequestRedraw];
      }
    }

    /** `setTranslateOffset`. */
    method SetTranslateOffset(x: real, y: real, z: real)
      modifies this`translationOffset, base`calls
      ensures translationOffset == Vec3(x, y, z)
      ensures base.calls == old(base.calls) + (if base.hasRedraw then [RequestRedraw] else [])
    {
      translationOffset := Vec3(x, y, z);
      if base.hasRedraw {
        base.calls := base.calls + [RequestRedraw];
      }
    }

    /** `setRotation`. */
    method SetRotation(x: real, y: real, z: real)
      modifies this`rotation, base`calls
      ensures rotation == Vec3(x, y, z)
      ensures base.calls == old(base.calls) + (if base.hasRedraw then [RequestRedraw] else [])
    {
      rotation := Vec3(x, y, z);
      if base.hasRedraw {
        base.calls := base.calls + [RequestRedraw];
      }
    }
  }
}
