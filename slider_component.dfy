/** SliderComponent: a horizontal track with a round knob. The knob is
    grabbed by a pointer-down on it, dragged by pointer moves while grabbed
    and released by any pointer-up; dragging sets the value from the
    pointer's x coordinate, clamped to the track. */
module Slider {
  import opened Wrappers
  import opened Types
  import opened UiUtils
  import opened BaseComponent

  /** The centre of the knob, `position + ((value - min) / (max - min)) * size.x`
      across and half the height down, or `None` when `max == min` (the
      division then gives an infinity or NaN, which no distance compares
      below). */
  function KnobCentre(position: Vec2, size: Vec2, value: real, min: real, max: real)
    : (c: Option<Vec2>)
    ensures c.Some? <==> max != min
    ensures c.Some? ==> c.value.y == position.y + size.y / 2.0
    ensures c.Some? && value == min ==> c.value.x == position.x
    ensures c.Some? && value == max ==> c.value.x == position.x + size.x
  {
    if max == min then None
    else Some(Vec2(position.x + ((value - min) / (max - min)) * size.x, position.y + size.y / 2.0))
  }

  /** `isPointerOnKnob`: the pointer lies in the closed disc of radius
      `size.y / 2` around the knob centre. `Math.sqrt(d) <= r` is written as
      `r >= 0 && d <= r * r`, which agrees with it for every `d >= 0`. */
  predicate OnKnob(position: Vec2, size: Vec2, value: real, min: real, max: real, p: Vec2)
  {
    var c := KnobCentre(position, size, value, min, max);
    var r := size.y / 2.0;
    c.Some? && r >= 0.0 &&
    (p.x - c.value.x) * (p.x - c.value.x) + (p.y - c.value.y) * (p.y - c.value.y) <= r * r
  }

  /** The knob centre itself is on the knob whenever there is a knob of
      non-negative size; nothing is on the knob when `max == min`. */
  lemma OnKnobCentre(position: Vec2, size: Vec2, value: real, min: real, max: real)
    ensures max != min && size.y >= 0.0 ==>
      OnKnob(position, size, value, min, max, KnobCentre(position, size, value, min, max).value)
    ensures max == min ==> forall p :: !OnKnob(position, size, value, min, max, p)
  {
    if max != min && size.y >= 0.0 {
      MulNonNegative(size.y / 2.0, size.y / 2.0);
    }
  }

  /** `a / b` undoes a multiplication by `b`; for a positive divisor it
      lies at or below 0 (at or above 1) exactly when `a` lies at or below 0
      (at or above `b`). */
  lemma QuotientBounds(a: real, b: real)
    requires b != 0.0
    ensures a / b * b == a
    ensures b > 0.0 && a <= 0.0 ==> a / b <= 0.0
    ensures b > 0.0 && a >= 0.0 ==> a / b >= 0.0
    ensures b > 0.0 && a <= b ==> a / b <= 1.0
    ensures b > 0.0 && a >= b ==> a / b >= 1.0
  {
    var q := a / b;
    assert q * b == a;
    if b > 0.0 {
      if q > 0.0 { assert q * b > 0.0; }
      if q < 0.0 { assert (-q) * b > 0.0; }
      if q > 1.0 { assert (q - 1.0) * b > 0.0; }
      if q < 1.0 { assert (1.0 - q) * b > 0.0; }
    }
  }

  /** Whether `(px - posX) / sizeX` is a number: JavaScript gives NaN only
      for `0 / 0`; `x / 0` for `x != 0` is an infinity of the sign of `x`. */
  predicate RatioDefined(px: real, posX: real, sizeX: real)
  {
    sizeX != 0.0 || px != posX
  }

  /** The relative track position of `updateValueFromPointer`,
      `Math.max(0, Math.min(1, (px - posX) / sizeX))`, with the infinities
      of a zero-width track written out. */
  function RelativePosition(px: real, posX: real, sizeX: real): (r: real)
    requires RatioDefined(px, posX, sizeX)
    ensures 0.0 <= r <= 1.0
    ensures sizeX > 0.0 && px <= posX ==> r == 0.0
    ensures sizeX > 0.0 && px >= posX + sizeX ==> r == 1.0
    ensures sizeX > 0.0 && posX <= px <= posX + sizeX ==> r * sizeX == px - posX
  {
    if sizeX == 0.0 then (if px > posX then 1.0 else 0.0)
    else
      var q := (px - posX) / sizeX;
      QuotientBounds(px - posX, sizeX);
      Clamp(q, 0.0, 1.0)
  }

  /** `min + relativePosition * (max - min)`. */
  function Interpolated(min: real, max: real, t: real): real
  {
    min + t * (max - min)
  }

  /** The value a drag to `px` sets: with `min <= max` it lies in
      [min, max]; on a track of positive width a pointer at or left of its
      start gives `min` and one at or right of its end gives `max`. */
  function DraggedValue(position: Vec2, size: Vec2, min: real, max: real, px: real): (v: real)
    requires RatioDefined(px, position.x, size.x)
    ensures min <= max ==> min <= v <= max
    ensures size.x > 0.0 && px <= position.x ==> v == min
    ensures size.x > 0.0 && px >= position.x + size.x ==> v == max
  {
    var t := RelativePosition(px, position.x, size.x);
    if min <= max then
      MulNonNegative(t, max - min);
      MulNonNegative(1.0 - t, max - min);
      Interpolated(min, max, t)
    else Interpolated(min, max, t)
  }

  /** The value `drawSlider` shows after `Math.max(min, Math.min(max, value))`
      and its `(value - min) / (max - min)` ratio, or `None` for the ratio
      when `max == min`. */
  function DrawnValue(value: real, min: real, max: real): (r: (real, Option<real>))
    ensures min <= max ==> min <= r.0 <= max
    ensures min <= value <= max ==> r.0 == value
    ensures r.1.Some? <==> max != min
    ensures min < max ==> 0.0 <= r.1.value <= 1.0
    ensures min < max && value <= min ==> r.1.value == 0.0
    ensures min < max && value >= max ==> r.1.value == 1.0
  {
    var v := Clamp(value, min, max);
    if max == min then (v, None)
    else
      var ratio := (v - min) / (max - min);
      if min < max then
        QuotientBounds(v - min, max - min);
        (v, Some(ratio))
      else (v, Some(ratio))
  }

  class SliderComponent {
    const base: BaseUIComponent
    var size: Vec2
    var value: real
    var min: real
    var max: real
    var isDragging: bool

    /** The constructor: `value`, `min` and `max` default to 0.5, 0 and 1,
        the slider is not being dragged, and the bounds are the configured
        position and the size. */
    constructor (config: Config, size: Vec2, value: Option<real>, min: Option<real>,
                 max: Option<real>)
      requires config.position.Some?
      ensures fresh(base)
      ensures this.size == size && !isDragging
      ensures this.value == value.Or(0.5) && this.min == min.Or(0.0) && this.max == max.Or(1.0)
      ensures base.position == config.position.value
      ensures base.bounds == Vec4(base.position.x, base.position.y, size.x, size.y)
      ensures base.hasRedraw == config.hasRedraw && base.calls == []
    {
      base := new BaseUIComponent(config, ObjState(map[], map[]));
      this.size := size;
      this.value := value.Or(0.5);
      this.min := min.Or(0.0);
      this.max := max.Or(1.0);
      isDragging := false;
      new;
      var pos := config.position.value;
      base.SetBounds(Vec4(pos.x, pos.y, size.x, size.y));
    }

    /** `handlePointerDown`: `p` is the pointer in canvas coordinates, or
        `None` when the event has no canvas. Dragging starts only on the
        knob; otherwise nothing changes. */
    method HandlePointerDown(p: Option<Vec2>)
      modifies this`isDragging
      ensures p.Some? && OnKnob(base.position, size, value, min, max, p.value) ==> isDragging
      ensures !(p.Some? && OnKnob(base.position, size, value, min, max, p.value)) ==>
        isDragging == old(isDragging)
    {
      if p.Some? && OnKnob(base.position, size, value, min, max, p.value) {
        isDragging := true;
      }
    }

    /** `handlePointerUp`: always ends the drag. */
    method HandlePointerUp()
      modifies this`isDragging
      ensures !isDragging
    {
      isDragging := false;
    }

    /** `handlePointerMove`: sets the value only while dragging and only
        when the event gives a position. */
    method HandlePointerMove(p: Option<Vec2>)
      requires isDragging && p.Some? ==> RatioDefined(p.value.x, base.position.x, size.x)
      modifies this`value, base`calls
      ensures isDragging && p.Some? ==>
        value == DraggedValue(base.position, size, min, max, p.value.x) &&
        base.calls == old(base.calls) + (if base.hasRedraw then [RequestRedraw] else [])
      ensures !(isDragging && p.Some?) ==> value == old(value) && base.calls == old(base.calls)
    {
      if isDragging && p.Some? {
        UpdateValueFromPointer(p.value);
      }
    }

    /** `updateValueFromPointer`: the value follows the pointer's x
        coordinate along the track, then a redraw is requested if the hook
        is set. */
    method UpdateValueFromPointer(p: Vec2)
      requires RatioDefined(p.x, base.position.x, size.x)
      modifies this`value, base`calls
      ensures value == DraggedValue(base.position, size, min, max, p.x)
      ensures base.calls == old(base.calls) + (if base.hasRedraw then [RequestRedraw] else [])
    {
      var relative := RelativePosition(p.x, base.position.x, size.x);
      value := min + relative * (max - min);
      if base.hasRedraw {
        base.calls := base.calls + [RequestRedraw];
      }
    }
  }
}
