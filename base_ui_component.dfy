/** BaseUIComponent: the per-component event→effect table, the effects it
    applies, its listeners, and its geometry (position, bounds, alignment). */
module BaseComponent {
  import opened Wrappers
  import opened Types
  import opened UiUtils
  import opened Animations

  /** The `effectType` argument of `addEventEffect`. */
  datatype EffectKind = SetValueKind | AnimateValueKind | ToggleValueKind

  /** A declarative effect bound to an event; the target is a reference. */
  datatype Effect =
    | SetValue(target: JsObject, property: string, value: Value, isToggle: bool,
               onComplete: Option<Callback>)
    | ToggleValue(target: JsObject, property: string, value1: Value, value2: Value,
                  onComplete: Option<Callback>)
    | AnimateValue(target: JsObject, property: string, from: Value, to: Value,
                   duration: Option<real>, isBounce: bool, isToggle: bool,
                   onComplete: Option<Callback>)

  /** A call a component makes into code outside this model, in the order made. */
  datatype Call =
    | RequestRedraw
    | Complete(cb: Callback)
    | Handler(cb: Callback, event: string)
    | Listener(cb: Callback, event: string)
    | Invoke(cb: Callback)

  /** The effect `addEventEffect` builds from its arguments. */
  function MakeEffect(kind: EffectKind, target: JsObject, property: string, valueOrFrom: Value,
                      to: Value, duration: Option<real>, isBounce: bool, isToggle: bool,
                      onComplete: Option<Callback>): (e: Effect)
    ensures e.target == target && e.property == property && e.onComplete == onComplete
    ensures e.SetValue? <==> kind == SetValueKind
    ensures e.ToggleValue? <==> kind == ToggleValueKind
    ensures e.AnimateValue? <==> kind == AnimateValueKind
    ensures e.SetValue? ==> e.value == valueOrFrom && e.isToggle == isToggle
    ensures e.ToggleValue? ==> e.value1 == valueOrFrom && e.value2 == to
    ensures e.AnimateValue? ==>
      e.from == valueOrFrom && e.to == to && e.duration == duration &&
      e.isBounce == isBounce && e.isToggle == isToggle
  {
    match kind
    case SetValueKind => SetValue(target, property, valueOrFrom, isToggle, onComplete)
    case ToggleValueKind => ToggleValue(target, property, valueOrFrom, to, onComplete)
    case AnimateValueKind =>
      AnimateValue(target, property, valueOrFrom, to, duration, isBounce, isToggle, onComplete)
  }

  /** The list registered under `event`, or none. */
  function Bound<T>(m: map<string, seq<T>>, event: string): seq<T>
  {
    if event in m then m[event] else []
  }

  /** The table after `e` is appended to the list of `event`. */
  function Registered(m: map<string, seq<Effect>>, event: string, e: Effect)
    : map<string, seq<Effect>>
  {
    m[event := Bound(m, event) + [e]]
  }

  /** Registering appends to the event's own list, creating it when the
      event had none, and leaves every other event's list as it was. */
  lemma RegisteredAppends(m: map<string, seq<Effect>>, event: string, e: Effect)
    ensures Registered(m, event, e).Keys == m.Keys + {event}
    ensures Registered(m, event, e)[event] == Bound(m, event) + [e]
    ensures event !in m ==> Registered(m, event, e) == m[event := [e]]
    ensures forall ev :: ev != event ==> Bound(Registered(m, event, e), ev) == Bound(m, ev)
  {
    if event !in m {
      assert Bound(m, event) + [e] == [e];
    }
  }

  /** What one effect does to the state of its target object. */
  function Applied(s: ObjState, e: Effect): ObjState
  {
    match e
    case SetValue(_, p, v, _, _) => Written(s, p, v)
    case ToggleValue(_, p, v1, v2, _) =>
      if IsEqual(GetObjectProperty(s, p), v1) then Written(s, p, v2) else Written(s, p, v1)
    case AnimateValue(_, _, _, _, _, _, _, _) => s
  }

  /** `toggleValue` on a data property holding one of its two values, applied
      twice, restores the object; from any third value two applications
      leave `value2`. */
  lemma {:induction false} ToggleTwice(s: ObjState, e: Effect)
    requires e.ToggleValue? && e.value1 != e.value2 && e.property in s.fields
    ensures s.fields[e.property] in {e.value1, e.value2} ==> Applied(Applied(s, e), e) == s
    ensures s.fields[e.property] !in {e.value1, e.value2} ==>
      Applied(Applied(s, e), e) == s.(fields := s.fields[e.property := e.value2])
  {
    var p, v1, v2 := e.property, e.value1, e.value2;
    var c := s.fields[p];
    IsEqualExact(c, v1);
    var s1 := Applied(s, e);
    assert s1.fields[p] == (if c == v1 then v2 else v1);
    IsEqualExact(s1.fields[p], v1);
    if c == v1 || c == v2 {
      assert Applied(s1, e).fields == s.fields;
    }
  }

  /** The state of `o` after a list of effects ran: only the effects aimed at
      `o` touch it, in registration order. */
  function StateAfter(s: ObjState, effs: seq<Effect>, o: JsObject): ObjState
  {
    if effs == [] then s
    else
      var before := StateAfter(s, effs[..|effs| - 1], o);
      var e := effs[|effs| - 1];
      if e.target == o then Applied(before, e) else before
  }

  /** The outside calls one effect makes: a redraw request after a `setValue`
      (when the component has a redraw hook), then `onComplete` for
      `setValue` and `toggleValue`. An animation makes none by itself. */
  function EffectCalls(e: Effect, redraw: bool): seq<Call>
  {
    match e
    case SetValue(_, _, _, _, cb) =>
      (if redraw then [RequestRedraw] else []) + (if cb.Some? then [Complete(cb.value)] else [])
    case ToggleValue(_, _, _, _, cb) => if cb.Some? then [Complete(cb.value)] else []
    case AnimateValue(_, _, _, _, _, _, _, _) => []
  }

  function CallsOf(effs: seq<Effect>, redraw: bool): seq<Call>
  {
    if effs == [] then []
    else CallsOf(effs[..|effs| - 1], redraw) + EffectCalls(effs[|effs| - 1], redraw)
  }

  function AnimationOf(e: Effect): seq<AnimSpec>
  {
    match e
    case AnimateValue(t, p, f, to, d, b, tg, cb) => [AnimSpec(t, p, f, to, d, b, tg, cb)]
    case _ => []
  }

  /** The animations a list of effects hands to the manager, in order. */
  function AnimationsOf(effs: seq<Effect>): seq<AnimSpec>
  {
    if effs == [] then []
    else AnimationsOf(effs[..|effs| - 1]) + AnimationOf(effs[|effs| - 1])
  }

  function Targets(effs: seq<Effect>): set<JsObject>
  {
    set e | e in effs :: e.target
  }

  function LowerChar(c: char): char
  {
    if 'A' <= c <= 'Z' then (c as int + 32) as char else c
  }

  /** `toLowerCase` (ASCII letters only). */
  function Lower(s: string): (r: string)
    ensures |r| == |s|
    ensures forall i :: 0 <= i < |s| ==> r[i] == LowerChar(s[i])
  {
    seq(|s|, i requires 0 <= i < |s| => LowerChar(s[i]))
  }

  predicate NoUpper(s: string)
  {
    forall i :: 0 <= i < |s| ==> !('A' <= s[i] <= 'Z')
  }

  /** The lower-cased name holds no upper-case letter, and every other
      character is kept: a name with no upper-case letter is its own
      lower-case form. */
  lemma LowerNoUpper(s: string)
    ensures NoUpper(Lower(s))
    ensures forall i :: 0 <= i < |s| && !('A' <= s[i] <= 'Z') ==> Lower(s)[i] == s[i]
    ensures forall i :: 0 <= i < |s| && 'A' <= s[i] <= 'Z' ==> Lower(s)[i] as int == s[i] as int + 32
    ensures NoUpper(s) <==> Lower(s) == s
  {
    if !NoUpper(s) {
      var i :| 0 <= i < |s| && 'A' <= s[i] <= 'Z';
      assert Lower(s)[i] != s[i];
    }
  }

  /** Lower-casing twice is lower-casing once. */
  lemma LowerIdempotent(s: string)
    ensures Lower(Lower(s)) == Lower(s)
  {
    LowerNoUpper(s);
    LowerNoUpper(Lower(s));
  }

  /** An event key holding an upper-case letter is never looked up: every
      looked-up name is lower case. */
  lemma UppercaseKeysNeverFire(key: string, eventName: string)
    requires exists i :: 0 <= i < |key| && 'A' <= key[i] <= 'Z'
    ensures Lower(eventName) != key
  {
    var i :| 0 <= i < |key| && 'A' <= key[i] <= 'Z';
    if |eventName| == |key| {
      assert Lower(eventName)[i] == LowerChar(eventName[i]);
    }
  }

  /** The effects `applyEventEffects(eventName)` runs: none for an empty
      name, else those bound to the lower-cased name. */
  function Fired(effects: map<string, seq<Effect>>, eventName: string): seq<Effect>
  {
    if eventName == "" then [] else Bound(effects, Lower(eventName))
  }

  /** The events whose `on…` handler `applyEventEffects` invokes. */
  predicate HasHandlerSwitch(lc: string)
  {
    lc == "pointerup" || lc == "pointerdown" || lc == "pointerenter" || lc == "pointerleave"
  }

  function HandlerCalls(lc: string, handlers: map<string, Callback>): seq<Call>
  {
    if HasHandlerSwitch(lc) && lc in handlers then [Handler(handlers[lc], lc)] else []
  }

  /** `listeners.filter((fn) => fn !== callback)`: every copy of `cb` goes,
      every copy of every other callback stays. */
  function Without(s: seq<Callback>, cb: Callback): (r: seq<Callback>)
    ensures cb !in r
    ensures forall i :: 0 <= i < |s| && s[i] != cb ==> s[i] in r
    ensures forall i :: 0 <= i < |r| ==> r[i] in s
    ensures |r| <= |s|
    ensures multiset(r) == multiset(s)[cb := 0]
  {
    if s == [] then []
    else
      var rest := Without(s[..|s| - 1], cb);
      var last := s[|s| - 1];
      assert s == s[..|s| - 1] + [last];
      if last == cb then rest else rest + [last]
  }

  /** The filter keeps the order of what it keeps: filtering a list is
      filtering its two halves. */
  lemma {:induction false} WithoutAppend(a: seq<Callback>, b: seq<Callback>, cb: Callback)
    ensures Without(a + b, cb) == Without(a, cb) + Without(b, cb)
    decreases |b|
  {
    if b == [] {
      assert a + b == a;
    } else {
      var b' := b[..|b| - 1];
      var last := b[|b| - 1];
      assert (a + b)[..|a + b| - 1] == a + b';
      assert b[..|b| - 1] == b';
      WithoutAppend(a, b', cb);
    }
  }

  /** Removing a callback that is not registered changes nothing. */
  lemma {:induction false} WithoutAbsent(s: seq<Callback>, cb: Callback)
    requires cb !in s
    ensures Without(s, cb) == s
    decreases |s|
  {
    if s != [] {
      assert s == s[..|s| - 1] + [s[|s| - 1]];
      WithoutAbsent(s[..|s| - 1], cb);
    }
  }

  function ResizeCalls(cbs: seq<Callback>): (r: seq<Call>)
    ensures |r| == |cbs|
    ensures forall i :: 0 <= i < |cbs| ==> r[i] == Listener(cbs[i], "resize")
  {
    seq(|cbs|, i requires 0 <= i < |cbs| => Listener(cbs[i], "resize"))
  }

  /** `triggerResizeEvent` over a list made of two parts calls the first
      part's listeners, then the second's. */
  lemma ResizeCallsAppend(a: seq<Callback>, b: seq<Callback>)
    ensures ResizeCalls(a + b) == ResizeCalls(a) + ResizeCalls(b)
  {
  }

  /** Each registered copy of a resize listener is called once per
      `triggerResizeEvent`. */
  lemma {:induction false} ResizeCallsCount(cbs: seq<Callback>, c: Callback)
    ensures multiset(ResizeCalls(cbs))[Listener(c, "resize")] == multiset(cbs)[c]
    decreases |cbs|
  {
    if cbs != [] {
      var init := cbs[..|cbs| - 1];
      assert cbs == init + [cbs[|cbs| - 1]];
      ResizeCallsAppend(init, [cbs[|cbs| - 1]]);
      ResizeCallsCount(init, c);
    }
  }

  /** After `removeEventListener("resize", c)`, a resize calls every other
      listener as often as before and `c` not at all. */
  lemma RemovedListenerNotCalled(cbs: seq<Callback>, c: Callback, d: Callback)
    ensures multiset(ResizeCalls(Without(cbs, c)))[Listener(c, "resize")] == 0
    ensures d != c ==>
      multiset(ResizeCalls(Without(cbs, c)))[Listener(d, "resize")] ==
      multiset(ResizeCalls(cbs))[Listener(d, "resize")]
  {
    ResizeCallsCount(Without(cbs, c), c);
    ResizeCallsCount(Without(cbs, c), d);
    ResizeCallsCount(cbs, d);
  }

  /** The position `align` moves a component of bounds `own` to, inside `container`. */
  function AlignedPosition(point: AlignmentPoint, container: Vec4, own: Vec4, offset: real): Vec2
  {
    var cx, cy, cw, ch := container.left, container.top, container.width, container.height;
    match point
    case TopLeft => Vec2(cx + offset, cy + offset)
    case TopCenter => Vec2(cx + (cw - own.width) / 2.0 + offset, cy + offset)
    case TopRight => Vec2(cx + (cw - own.width - offset), cy + offset)
    case MiddleLeft => Vec2(cx + offset, cy + (ch - own.height) / 2.0)
    case MiddleCenter => Vec2(cx + (cw - own.width) / 2.0, cy + (ch - own.height) / 2.0)
    case MiddleRight => Vec2(cx + (cw - own.width - offset), cy + (ch - own.height) / 2.0)
    case BottomLeft => Vec2(cx + offset, cy + (ch - own.height - offset))
    case BottomCenter => Vec2(cx + (cw - own.width) / 2.0, cy + (ch - own.height - offset))
    case BottomRight => Vec2(cx + (cw - own.width - offset), cy + (ch - own.height - offset))
    case NoAlignment => Vec2(cx, cy)
  }

  /** Margins of an aligned component: a left/top anchor leaves `offset`
      before it, a right/bottom anchor leaves `offset` after it, the middle
      row centres vertically; `TOPCENTER` is centred and then shifted right by
      `offset`, the other centre anchors are centred; `NONE` is the container origin. */
  lemma AlignmentMargins(point: AlignmentPoint, c: Vec4, own: Vec4, offset: real)
    ensures var p := AlignedPosition(point, c, own, offset);
      && (point in {TopLeft, MiddleLeft, BottomLeft} ==> p.x - c.left == offset)
      && (point in {TopRight, MiddleRight, BottomRight} ==>
            (c.left + c.width) - (p.x + own.width) == offset)
      && (point in {MiddleCenter, BottomCenter} ==>
            p.x - c.left == (c.left + c.width) - (p.x + own.width))
      && (point == TopCenter ==>
            p.x - c.left - offset == (c.left + c.width) - (p.x + own.width) + offset)
      && (point in {TopLeft, TopCenter, TopRight} ==> p.y - c.top == offset)
      && (point in {BottomLeft, BottomCenter, BottomRight} ==>
            (c.top + c.height) - (p.y + own.height) == offset)
      && (point in {MiddleLeft, MiddleCenter, MiddleRight} ==>
            p.y - c.top == (c.top + c.height) - (p.y + own.height))
      && (point == NoAlignment ==> p == Vec2(c.left, c.top))
  {
  }

  /** The scale `fitBounds` chooses: the smaller of the two axis ratios. */
  function FitScale(own: Vec4, target: Vec4): real
    requires own.width > 0.0 && own.height > 0.0
  {
    Min(target.width / own.width, target.height / own.height)
  }

  /** The bounds `fitBounds` leaves: scaled by `FitScale`, centred in `target`. */
  function FittedBounds(own: Vec4, target: Vec4): Vec4
    requires own.width > 0.0 && own.height > 0.0
  {
    var s := FitScale(own, target);
    var w, h := own.width * s, own.height * s;
    Vec4(target.left + (target.width - w) / 2.0, target.top + (target.height - h) / 2.0, w, h)
  }

  /** `fitBounds` keeps the aspect ratio, fits inside the target, fills it
      along one axis, and centres the result. */
  lemma FittedBoundsFit(own: Vec4, target: Vec4)
    requires own.width > 0.0 && own.height > 0.0
    requires target.width >= 0.0 && target.height >= 0.0
    ensures var f := FittedBounds(own, target);
      && f.width * own.height == f.height * own.width
      && 0.0 <= f.width <= target.width && 0.0 <= f.height <= target.height
      && (f.width == target.width || f.height == target.height)
      && f.left - target.left == (target.left + target.width) - (f.left + f.width)
      && f.top - target.top == (target.top + target.height) - (f.top + f.height)
  {
    var sx, sy := target.width / own.width, target.height / own.height;
    var s := FitScale(own, target);
    assert sx * own.width == target.width;
    assert sy * own.height == target.height;
    assert s >= 0.0;
    if sx <= sy {
      assert s == sx;
      assert own.height * s <= own.height * sy;
    } else {
      assert s == sy;
      assert own.width * s <= own.width * sx;
    }
  }

  lemma StateAfterStep(s: ObjState, effs: seq<Effect>, i: nat, o: JsObject)
    requires i < |effs|
    ensures StateAfter(s, effs[..i + 1], o) ==
      if effs[i].target == o then Applied(StateAfter(s, effs[..i], o), effs[i])
      else StateAfter(s, effs[..i], o)
  {
    assert effs[..i + 1][..i] == effs[..i];
  }

  lemma AppendAssoc<T>(a: seq<T>, b: seq<T>, c: seq<T>)
    ensures (a + b) + c == a + (b + c)
  {
  }

  lemma CallsStep(effs: seq<Effect>, i: nat, redraw: bool)
    requires i < |effs|
    ensures CallsOf(effs[..i + 1], redraw) == CallsOf(effs[..i], redraw) + EffectCalls(effs[i], redraw)
  {
    assert effs[..i + 1][..i] == effs[..i];
  }

  lemma AnimationsStep(effs: seq<Effect>, i: nat)
    requires i < |effs|
    ensures AnimationsOf(effs[..i + 1]) == AnimationsOf(effs[..i]) + AnimationOf(effs[i])
  {
    assert effs[..i + 1][..i] == effs[..i];
  }

  /** A table entry of one or two effects unfolds into those effects. */
  lemma OneOrTwoEffects(s: ObjState, e1: Effect, e2: Effect, o: JsObject, redraw: bool)
    ensures StateAfter(s, [e1], o) == if e1.target == o then Applied(s, e1) else s
    ensures CallsOf([e1], redraw) == EffectCalls(e1, redraw)
    ensures AnimationsOf([e1]) == AnimationOf(e1)
    ensures Targets([e1]) == {e1.target}
    ensures var s1 := StateAfter(s, [e1], o);
      StateAfter(s, [e1, e2], o) == if e2.target == o then Applied(s1, e2) else s1
    ensures CallsOf([e1, e2], redraw) == EffectCalls(e1, redraw) + EffectCalls(e2, redraw)
    ensures AnimationsOf([e1, e2]) == AnimationOf(e1) + AnimationOf(e2)
    ensures Targets([e1, e2]) == {e1.target, e2.target}
  {
    assert [e1][..0] == [];
    assert [e1, e2][..1] == [e1];
  }

  /** The configuration fields the base constructor reads; `None` is an
      omitted field, which takes the default. */
  datatype Config = Config(
    alignmentPoint: Option<AlignmentPoint>,
    isVisible: Option<bool>,
    tags: Option<seq<string>>,
    position: Option<Vec2>,
    bounds: Option<Vec4>,
    scale: Option<real>,
    alignmentOffset: Option<real>,
    hasRedraw: bool)

  class BaseUIComponent {
    /** The component seen as an object whose properties effects write by name. */
    const props: JsObject
    var alignmentPoint: AlignmentPoint
    var alignmentOffset: real
    var isVisible: bool
    var tags: seq<string>
    var position: Vec2
    var bounds: Vec4
    var scale: real
    var effects: map<string, seq<Effect>>
    var listeners: map<string, seq<Callback>>
    /** The `on…` handlers the application set, keyed by lower-case event name. */
    var handlers: map<string, Callback>
    /** Whether a `requestRedraw` hook is set. */
    var hasRedraw: bool
    /** Whether the component's class has a `handleWheelScroll` method. */
    var hasWheelHandler: bool
    /** The calls this component made into code outside the model. */
    var calls: seq<Call>

    /** The defaults of the base constructor. */
    constructor (config: Config, initial: ObjState)
      ensures fresh(props) && props.state == initial
      ensures alignmentPoint == config.alignmentPoint.Or(NoAlignment)
      ensures isVisible == config.isVisible.Or(true) && tags == config.tags.Or([])
      ensures position == config.position.Or(Vec2(0.0, 0.0))
      ensures bounds == config.bounds.Or(Vec4(position.x, position.y, 0.0, 0.0))
      ensures scale == config.scale.Or(1.0) && alignmentOffset == config.alignmentOffset.Or(25.0)
      ensures effects == map[] && listeners == map[] && handlers == map[]
      ensures hasRedraw == config.hasRedraw && !hasWheelHandler && calls == []
    {
      props := new JsObject(initial);
      alignmentPoint := config.alignmentPoint.Or(NoAlignment);
      isVisible := config.isVisible.Or(true);
      tags := config.tags.Or([]);
      var pos := config.position.Or(Vec2(0.0, 0.0));
      position := pos;
      bounds := config.bounds.Or(Vec4(pos.x, pos.y, 0.0, 0.0));
      scale := config.scale.Or(1.0);
      alignmentOffset := config.alignmentOffset.Or(25.0);
      effects := map[];
      listeners := map[];
      handlers := map[];
      hasRedraw := config.hasRedraw;
      hasWheelHandler := false;
      calls := [];
    }

    /** `addEventEffect`: appends to the list for exactly `event`, creating it
        if needed; earlier effects and other events are untouched. */
    method AddEventEffect(event: string, target: JsObject, property: string, kind: EffectKind,
                          valueOrFrom: Value, to: Value, duration: Option<real>,
                          isBounce: bool, isToggle: bool, onComplete: Option<Callback>)
      modifies this`effects
      ensures effects == Registered(old(effects), event,
        MakeEffect(kind, target, property, valueOrFrom, to, duration, isBounce, isToggle, onComplete))
    {
      var e := MakeEffect(kind, target, property, valueOrFrom, to, duration, isBounce, isToggle, onComplete);
      if event !in effects {
        effects := effects[event := []];
      }
      effects := effects[event := effects[event] + [e]];
    }

    /** `applyEffect`. */
    method ApplyEffect(e: Effect, mgr: AnimationManager)
      modifies this`calls, mgr, e.target
      ensures e.target.state == Applied(old(e.target.state), e)
      ensures calls == old(calls) + EffectCalls(e, hasRedraw)
      ensures Specs(mgr.animations) == Specs(old(mgr.animations)) + AnimationOf(e)
    {
      match e
      case SetValue(t, p, v, _, cb) =>
        SetObjectProperty(t, p, v);
        if hasRedraw {
          calls := calls + [RequestRedraw];
        }
        if cb.Some? {
          calls := calls + [Complete(cb.value)];
        }
      case AnimateValue(t, p, f, to, d, b, tg, cb) =>
        var a := new Animation(AnimSpec(t, p, f, to, d, b, tg, cb));
        mgr.AddAnimation(a);
        SpecsAppend(old(mgr.animations), [a]);
        assert Specs([a]) == [a.spec];
      case ToggleValue(t, p, v1, v2, cb) =>
        var current := GetObjectProperty(t.state, p);
        if IsEqual(current, v1) {
          SetObjectProperty(t, p, v2);
        } else {
          SetObjectProperty(t, p, v1);
        }
        if cb.Some? {
          calls := calls + [Complete(cb.value)];
        }
    }

    /** The loop of `applyEventEffects`: each effect in order. */
    method ApplyEffects(effs: seq<Effect>, mgr: AnimationManager)
      modifies this`calls, mgr, Targets(effs)
      ensures calls == old(calls) + CallsOf(effs, hasRedraw)
      ensures Specs(mgr.animations) == Specs(old(mgr.animations)) + AnimationsOf(effs)
      ensures forall o | o in Targets(effs) :: o.state == StateAfter(old(o.state), effs, o)
    {
      ghost var calls0, specs0 := calls, Specs(mgr.animations);
      ghost var states0 := map o | o in Targets(effs) :: o.state;
      var i := 0;
      while i < |effs|
        invariant 0 <= i <= |effs|
        invariant Progress(effs, i, mgr, calls0, specs0, states0)
      {
        ApplyNth(effs, i, mgr, calls0, specs0, states0);
        i := i + 1;
      }
      assert effs[..i] == effs;
    }

    /** After the first `i` effects of `effs`: the calls and the animations
        they make follow the snapshots `calls0` and `specs0`, and every target
        object holds the state its snapshot in `states0` reaches. */
    ghost predicate Progress(effs: seq<Effect>, i: nat, mgr: AnimationManager, calls0: seq<Call>,
                             specs0: seq<AnimSpec>, states0: map<JsObject, ObjState>)
      requires i <= |effs|
      reads this`calls, this`hasRedraw, mgr, Targets(effs)
    {
      && calls == calls0 + CallsOf(effs[..i], hasRedraw)
      && Specs(mgr.animations) == specs0 + AnimationsOf(effs[..i])
      && forall o | o in Targets(effs) :: o in states0 && o.state == StateAfter(states0[o], effs[..i], o)
    }

    /** One turn of the loop of `applyEventEffects`. */
    method ApplyNth(effs: seq<Effect>, i: nat, mgr: AnimationManager, ghost calls0: seq<Call>,
                    ghost specs0: seq<AnimSpec>, ghost states0: map<JsObject, ObjState>)
      requires i < |effs|
      requires Progress(effs, i, mgr, calls0, specs0, states0)
      modifies this`calls, mgr, effs[i].target
      ensures Progress(effs, i + 1, mgr, calls0, specs0, states0)
    {
      var e := effs[i];
      assert e in effs;
      ApplyEffect(e, mgr);
      CallsStep(effs, i, hasRedraw);
      AppendAssoc(calls0, CallsOf(effs[..i], hasRedraw), EffectCalls(e, hasRedraw));
      AnimationsStep(effs, i);
      AppendAssoc(specs0, AnimationsOf(effs[..i]), AnimationOf(e));
      forall o | o in Targets(effs)
        ensures o.state == StateAfter(states0[o], effs[..i + 1], o)
      {
        StateAfterStep(states0[o], effs, i, o);
      }
    }

    /** `applyEventEffects`: nothing for an empty name; otherwise the effects
        bound to the lower-cased name run in registration order, and only
        then is the matching `on…` handler called. */
    method ApplyEventEffects(eventName: string, mgr: AnimationManager)
      modifies this`calls, mgr, Targets(Fired(effects, eventName))
      ensures calls == old(calls) + CallsOf(Fired(effects, eventName), hasRedraw) +
        (if eventName == "" then [] else HandlerCalls(Lower(eventName), handlers))
      ensures Specs(mgr.animations) == Specs(old(mgr.animations)) + AnimationsOf(Fired(effects, eventName))
      ensures forall o | o in Targets(Fired(effects, eventName)) ::
        o.state == StateAfter(old(o.state), Fired(effects, eventName), o)
    {
      if eventName == "" {
        return;
      }
      var lc := Lower(eventName);
      var effs := Bound(effects, lc);
      assert effs == Fired(effects, eventName);
      ApplyEffects(effs, mgr);
      if HasHandlerSwitch(lc) && lc in handlers {
        calls := calls + [Handler(handlers[lc], lc)];
      }
    }

    /** `addEventListener`. */
    method AddEventListener(eventName: string, cb: Callback)
      modifies this`listeners
      ensures listeners == old(listeners)[eventName :=
        Bound(old(listeners), eventName) + [cb]]
    {
      if eventName !in listeners {
        listeners := listeners[eventName := []];
      }
      listeners := listeners[eventName := listeners[eventName] + [cb]];
    }

    /** `removeEventListener`: drops every registration of `cb` for that event. */
    method RemoveEventListener(eventName: string, cb: Callback)
      modifies this`listeners
      ensures eventName !in old(listeners) ==> listeners == old(listeners)
      ensures eventName in old(listeners) ==>
        listeners == old(listeners)[eventName := Without(old(listeners)[eventName], cb)]
    {
      if eventName in listeners {
        listeners := listeners[eventName := Without(listeners[eventName], cb)];
      }
    }

    /** `setBounds`: the position follows the bounds' origin, then every
        `resize` listener is called. */
    method SetBounds(b: Vec4)
      modifies this`bounds, this`position, this`calls
      ensures bounds == b && position == Vec2(b.left, b.top)
      ensures calls == old(calls) +
        ResizeCalls(Bound(listeners, "resize"))
    {
      bounds := b;
      position := Vec2(b.left, b.top);
      calls := calls + ResizeCalls(Bound(listeners, "resize"));
    }

    /** `setPosition`: moves the bounds' origin, keeping width and height. */
    method SetPosition(p: Vec2)
      modifies this`bounds, this`position, this`calls
      ensures position == p
      ensures bounds == Vec4(p.x, p.y, old(bounds).width, old(bounds).height)
      ensures calls == old(calls) +
        ResizeCalls(Bound(listeners, "resize"))
    {
      position := p;
      SetBounds(Vec4(p.x, p.y, bounds.width, bounds.height));
    }

    /** `align`. */
    method Align(container: Vec4)
      modifies this`bounds, this`position, this`calls
      ensures position == AlignedPosition(alignmentPoint, container, old(bounds), alignmentOffset)
      ensures bounds == Vec4(position.x, position.y, old(bounds).width, old(bounds).height)
      ensures calls == old(calls) +
        ResizeCalls(Bound(listeners, "resize"))
    {
      SetPosition(AlignedPosition(alignmentPoint, container, bounds, alignmentOffset));
    }

    /** `fitBounds` (of the base class). */
    method FitBounds(target: Vec4)
      requires bounds.width > 0.0 && bounds.height > 0.0
      modifies this`bounds, this`position, this`calls, this`scale
      ensures scale == FitScale(old(bounds), target)
      ensures bounds == FittedBounds(old(bounds), target)
      ensures position == Vec2(bounds.left, bounds.top)
      ensures var r := ResizeCalls(Bound(listeners, "resize"));
        calls == old(calls) + r + r
    {
      var s := FitScale(bounds, target);
      scale := s;
      var fitted := FittedBounds(bounds, target);
      SetPosition(Vec2(fitted.left, fitted.top));
      SetBounds(fitted);
    }
  }
}
