/** ToggleComponent: an on/off switch whose `pointerup` effects flip `isOn`
    and start the knob animation, plus the knob easing and drawing arithmetic.
    `isOn` and `knobPosition` are properties of the component object itself,
    so they live in its property bag where the effects write them. */
module Toggle {
  import opened Wrappers
  import opened Types
  import opened UiUtils
  import opened Animations
  import opened BaseComponent

  /** The knob position that shows a state: 1 for on, 0 for off. */
  function KnobTarget(isOn: bool): real
  {
    if isOn then 1.0 else 0.0
  }

  /** The property bag of a new toggle: its data properties and the methods
      of its class that effects could reach by name. */
  function ToggleObject(size: Vec2, isOn: bool, onColor: seq<real>, offColor: seq<real>,
                        knob: real): ObjState
  {
    ObjState(
      map["size" := Arr([Num(size.x), Num(size.y)]), "isOn" := Bool(isOn),
          "onColor" := NumArray(onColor), "offColor" := NumArray(offColor),
          "knobPosition" := Num(knob)],
      map["setKnobPosition" := Accessor("knobPosition"), "toggle" := Procedure,
          "handleMouseClick" := Procedure, "updateKnobPosition" := Procedure,
          "draw" := Procedure, "toJSON" := Procedure])
  }

  /** A new toggle object holds its size, `isOn`, both colours and its knob position. */
  lemma ToggleObjectFields(size: Vec2, isOn: bool, onColor: seq<real>, offColor: seq<real>,
                           knob: real)
    ensures var s := ToggleObject(size, isOn, onColor, offColor, knob);
      && "isOn" in s.fields && s.fields["isOn"] == Bool(isOn)
      && "knobPosition" in s.fields && s.fields["knobPosition"] == Num(knob)
      && "size" in s.fields && s.fields["size"] == Arr([Num(size.x), Num(size.y)])
      && "onColor" in s.fields && s.fields["onColor"] == NumArray(onColor)
      && "offColor" in s.fields && s.fields["offColor"] == NumArray(offColor)
  {
  }

  /** The constructor's two `addEventEffect` calls, from an empty table,
      leave exactly the two `pointerup` effects. */
  lemma ToggleRegistration(t: JsObject)
    ensures Registered(Registered(map[], "pointerup",
        MakeEffect(AnimateValueKind, t, "knobPosition", Num(0.0), Num(1.0), Some(50.0), false,
                   true, None)), "pointerup",
        MakeEffect(ToggleValueKind, t, "isOn", Bool(true), Bool(false), None, false, false, None))
      == map["pointerup" := ToggleEffects(t)]
  {
    var effs := ToggleEffects(t);
    RegisteredAppends(map[], "pointerup", effs[0]);
    RegisteredAppends(map["pointerup" := [effs[0]]], "pointerup", effs[1]);
    assert [effs[0]] + [effs[1]] == effs;
  }

  /** The two `pointerup` effects the constructor registers on the toggle
      object `t`: animate the knob from 0 to 1 over 50 ms (toggle flag set),
      then toggle `isOn` between true and false. */
  function ToggleEffects(t: JsObject): seq<Effect>
  {
    [AnimateValue(t, "knobPosition", Num(0.0), Num(1.0), Some(50.0), false, true, None),
     ToggleValue(t, "isOn", Bool(true), Bool(false), None)]
  }

  /** The animation the first `pointerup` effect hands to the manager. */
  function KnobAnimation(t: JsObject): AnimSpec
  {
    AnimSpec(t, "knobPosition", Num(0.0), Num(1.0), Some(50.0), false, true, None)
  }

  /** Whether the object's `isOn` is `true`. */
  predicate IsOnIn(s: ObjState)
  {
    "isOn" in s.fields && s.fields["isOn"] == Bool(true)
  }

  /** The property bag with `isOn` set to the other boolean. */
  function Flipped(s: ObjState): ObjState
  {
    s.(fields := s.fields["isOn" := Bool(!IsOnIn(s))])
  }

  /** The `pointerup` effects of a toggle flip `isOn` and change nothing
      else: the knob animation does not write the knob. */
  lemma ToggleFlips(s: ObjState, t: JsObject)
    requires "isOn" in s.fields && s.fields["isOn"].Bool?
    ensures StateAfter(s, ToggleEffects(t), t) == Flipped(s)
    ensures IsOnIn(Flipped(s)) == !IsOnIn(s)
    ensures forall q :: q != "isOn" ==> Lookup(Flipped(s), q) == Lookup(s, q)
  {
    var effs := ToggleEffects(t);
    OneOrTwoEffects(s, effs[0], effs[1], t, false);
    IsEqualExact(s.fields["isOn"], Bool(true));
  }

  /** What `applyEventEffects("pointerup")` runs on a toggle: its two
      effects, which flip `isOn`, make no outside call and hand over the
      knob animation. */
  lemma PointerUpFired(effects: map<string, seq<Effect>>, t: JsObject, s: ObjState, redraw: bool)
    requires Bound(effects, "pointerup") == ToggleEffects(t)
    requires "isOn" in s.fields && s.fields["isOn"].Bool?
    ensures Fired(effects, "pointerup") == ToggleEffects(t)
    ensures Targets(ToggleEffects(t)) == {t}
    ensures StateAfter(s, ToggleEffects(t), t) == Flipped(s)
    ensures CallsOf(ToggleEffects(t), redraw) == []
    ensures AnimationsOf(ToggleEffects(t)) == [KnobAnimation(t)]
    ensures Lower("pointerup") == "pointerup"
  {
    var effs := ToggleEffects(t);
    OneOrTwoEffects(s, effs[0], effs[1], t, redraw);
    ToggleFlips(s, t);
    assert Lower("pointerup") == "pointerup";
  }

  /** Toggling twice restores the property bag. */
  lemma {:induction false} ToggleTwiceRestores(s: ObjState, t: JsObject)
    requires "isOn" in s.fields && s.fields["isOn"].Bool?
    ensures StateAfter(StateAfter(s, ToggleEffects(t), t), ToggleEffects(t), t) == s
  {
    ToggleFlips(s, t);
    ToggleFlips(Flipped(s), t);
    assert Flipped(Flipped(s)).fields == s.fields;
  }

  /** `updateKnobPosition(deltaTime)`: away from its target the knob moves
      three units per unit of time toward it and is clamped into [0, 1]; at
      the target it stays. */
  function KnobStep(k: real, isOn: bool, deltaTime: real): (r: real)
    ensures 0.0 <= r <= 1.0
  {
    var target := KnobTarget(isOn);
    if k != target then
      var direction := if target > k then 1.0 else -1.0;
      Clamp(k + direction * 3.0 * deltaTime, 0.0, 1.0)
    else k
  }

  /** For a forward time step from a knob inside [0, 1], the knob moves
      toward its target without passing it, and stays once there. */
  lemma KnobStepApproaches(k: real, isOn: bool, deltaTime: real)
    requires 0.0 <= k <= 1.0 && deltaTime >= 0.0
    ensures var r := KnobStep(k, isOn, deltaTime);
      && (isOn ==> k <= r <= 1.0)
      && (!isOn ==> 0.0 <= r <= k)
      && (k == KnobTarget(isOn) ==> r == k)
  {
    var r := KnobStep(k, isOn, deltaTime);
    if k != KnobTarget(isOn) {
      if isOn {
        assert 1.0 * 3.0 * deltaTime >= 0.0;
      } else {
        assert -1.0 * 3.0 * deltaTime <= 0.0;
      }
    }
  }

  /** Where `drawToggle` puts the knob: its two rest positions, its left
      edge, its top and its size. */
  datatype KnobGeometry = KnobGeometry(offX: real, onX: real, knobX: real, knobY: real,
                                       knobSize: real)

  /** `a + (b - a) * t` lies between `a` and `b` for `t` in [0, 1]. */
  lemma LerpBetween(a: real, b: real, t: real)
    requires 0.0 <= t <= 1.0
    ensures Min(a, b) <= a + (b - a) * t <= Max(a, b)
  {
    var d := b - a;
    MulNonNegative(if d >= 0.0 then d else -d, t);
    MulNonNegative(if d >= 0.0 then d else -d, 1.0 - t);
    assert d * t + d * (1.0 - t) == d;
  }

  /** The knob arithmetic of `drawToggle`: the knob position (by default the
      one `isOn` shows) is clamped into [0, 1] and interpolates between the
      off and on rest positions. */
  function DrawnKnob(position: Vec2, size: Vec2, isOn: bool, knobPosition: Option<real>)
    : (g: KnobGeometry)
    ensures Min(g.offX, g.onX) <= g.knobX <= Max(g.offX, g.onX)
    ensures knobPosition.Or(KnobTarget(isOn)) <= 0.0 ==> g.knobX == g.offX
    ensures knobPosition.Or(KnobTarget(isOn)) >= 1.0 ==> g.knobX == g.onX
    ensures g.knobSize == size.y * 0.8
    ensures g.offX - position.x == g.knobY - position.y == (size.y - g.knobSize) / 2.0
    ensures g.onX + g.knobSize + (g.offX - position.x) == position.x + size.x
  {
    var kp := Clamp(knobPosition.Or(KnobTarget(isOn)), 0.0, 1.0);
    var knobSize := size.y * 0.8;
    var offX := position.x + (size.y - knobSize) / 2.0;
    var onX := position.x + size.x - knobSize - (size.y - knobSize) / 2.0;
    LerpBetween(offX, onX, kp);
    KnobGeometry(offX, onX, offX + (onX - offX) * kp, position.y + (size.y - knobSize) / 2.0,
                 knobSize)
  }

  /** The closed rectangle `handleMouseClick` tests. */
  predicate InToggle(position: Vec2, size: Vec2, p: Vec2)
  {
    p.x >= position.x && p.x <= position.x + size.x &&
    p.y >= position.y && p.y <= position.y + size.y
  }

  class ToggleComponent {
    const base: BaseUIComponent
    var size: Vec2
    var onColor: seq<real>
    var offColor: seq<real>

    /** The constructor's `pointerup` registration is in place, and `isOn`
        and `knobPosition` hold a boolean and a number. */
    ghost predicate Valid()
      reads this, base, base.props
    {
      && Bound(base.effects, "pointerup") == ToggleEffects(base.props)
      && "isOn" in base.props.state.fields && base.props.state.fields["isOn"].Bool?
      && "knobPosition" in base.props.state.fields
      && base.props.state.fields["knobPosition"].Num?
    }

    function IsOn(): bool
      reads base, base.props
    {
      IsOnIn(base.props.state)
    }

    function KnobPosition(): real
      requires Valid()
      reads this, base, base.props
    {
      base.props.state.fields["knobPosition"].n
    }

    /** The constructor: the position the configuration must give, bounds
        from position and size, the knob at `isOn`'s rest position unless
        given, and the two `pointerup` effects. */
    constructor (config: Config, size: Vec2, isOn: bool, onColor: seq<real>, offColor: seq<real>,
                 knobPosition: Option<real>)
      requires config.position.Some?
      ensures Valid() && fresh(base) && fresh(base.props)
      ensures IsOn() == isOn && KnobPosition() == knobPosition.Or(KnobTarget(isOn))
      ensures base.position == config.position.value
      ensures base.bounds == Vec4(base.position.x, base.position.y, size.x, size.y)
      ensures base.effects == map["pointerup" := ToggleEffects(base.props)]
      ensures this.size == size && this.onColor == onColor && this.offColor == offColor
    {
      base := new BaseUIComponent(config,
        ToggleObject(size, isOn, onColor, offColor, knobPosition.Or(KnobTarget(isOn))));
      this.size := size;
      this.onColor := onColor;
      this.offColor := offColor;
      new;
      var pos := config.position.value;
      base.SetBounds(Vec4(pos.x, pos.y, size.x, size.y));
      ToggleRegistration(base.props);
      ToggleObjectFields(size, isOn, onColor, offColor, knobPosition.Or(KnobTarget(isOn)));
      base.AddEventEffect("pointerup", base.props, "knobPosition", AnimateValueKind, Num(0.0),
                          Num(1.0), Some(50.0), false, true, None);
      base.AddEventEffect("pointerup", base.props, "isOn", ToggleValueKind, Bool(true),
                          Bool(false), None, false, false, None);
    }

    /** `toggle`: runs the `pointerup` effects, so `isOn` flips, one knob
        animation is handed to the manager, the knob itself is not written,
        and the `onPointerUp` handler (if set) is called. */
    method Toggle(mgr: AnimationManager)
      requires Valid()
      modifies base`calls, mgr, base.props
      ensures Valid()
      ensures base.props.state == Flipped(old(base.props.state))
      ensures Specs(mgr.animations) == Specs(old(mgr.animations)) + [KnobAnimation(base.props)]
      ensures base.calls == old(base.calls) + HandlerCalls("pointerup", base.handlers)
    {
      PointerUpFired(base.effects, base.props, base.props.state, base.hasRedraw);
      ghost var calls0 := base.calls;
      assert calls0 + [] == calls0;
      base.ApplyEventEffects("pointerup", mgr);
    }

    /** `handleMouseClick`: toggles exactly when the point lies in the closed
        rectangle spanned by the position and the size. */
    method HandleMouseClick(p: Vec2, mgr: AnimationManager)
      requires Valid()
      modifies base`calls, mgr, base.props
      ensures Valid()
      ensures InToggle(base.position, size, p) ==>
        base.props.state == Flipped(old(base.props.state)) &&
        Specs(mgr.animations) == Specs(old(mgr.animations)) + [KnobAnimation(base.props)] &&
        base.calls == old(base.calls) + HandlerCalls("pointerup", base.handlers)
      ensures !InToggle(base.position, size, p) ==>
        base.props.state == old(base.props.state) && base.calls == old(base.calls) &&
        mgr.animations == old(mgr.animations)
    {
      if InToggle(base.position, size, p) {
        Toggle(mgr);
      }
    }

    /** `setKnobPosition`. */
    method SetKnobPosition(k: real)
      requires Valid()
      modifies base.props
      ensures Valid() && KnobPosition() == k && IsOn() == old(IsOn())
      ensures base.props.state.fields == old(base.props.state.fields)["knobPosition" := Num(k)]
      ensures base.props.state.methods == old(base.props.state.methods)
    {
      base.props.state := base.props.state.(fields := base.props.state.fields["knobPosition" := Num(k)]);
    }

    /** `updateKnobPosition`: one easing step of the knob, which always ends
        inside [0, 1]. */
    method UpdateKnobPosition(deltaTime: real)
      requires Valid()
      modifies base.props
      ensures Valid() && IsOn() == old(IsOn())
      ensures KnobPosition() == KnobStep(old(KnobPosition()), IsOn(), deltaTime)
      ensures base.props.state.fields.Keys == old(base.props.state.fields.Keys)
      ensures forall f | f in old(base.props.state.fields) && f != "knobPosition" ::
        base.props.state.fields[f] == old(base.props.state.fields[f])
      ensures base.props.state.methods == old(base.props.state.methods)
      ensures 0.0 <= KnobPosition() <= 1.0
    {
      var target := KnobTarget(IsOn());
      var k := KnobPosition();
      if k != target {
        var direction := if target > k then 1.0 else -1.0;
        k := k + direction * 3.0 * deltaTime;
        k := Clamp(k, 0.0, 1.0);
        SetKnobPosition(k);
      }
    }
  }
}
