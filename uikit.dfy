/** UIKit: the pointer dispatcher. It keeps the active pointers, the set of
    components the pointer hovered last, the time of the last pointer-up and
    the last pan position, and turns canvas pointer events into calls on the
    components its spatial index returns. */
module Kit {
  import opened Wrappers
  import opened Types
  import opened Collections
  import opened BaseComponent
  import opened SpatialIndex
  import opened Containers

  /** The pointer events the kit forwards. */
  datatype PointerEvent = PointerDown | PointerUp | PointerEnter | PointerLeave | PointerMove

  /** The event name the kit passes to `applyEventEffects`. */
  function EventName(e: PointerEvent): string
  {
    match e
    case PointerDown => "pointerdown"
    case PointerUp => "pointerup"
    case PointerEnter => "pointerenter"
    case PointerLeave => "pointerleave"
    case PointerMove => "pointermove"
  }

  /** A call the kit makes on a component, in the order made:
      `applyEventEffects(EventName(event))`, the `handlePointer…` method for
      the event, or `handleWheelScroll`. */
  datatype Dispatch =
    | Effects(c: BaseUIComponent, event: PointerEvent)
    | Handled(c: BaseUIComponent, event: PointerEvent)
    | Wheel(c: BaseUIComponent)

  /** The gesture hooks `detectGestures` calls. */
  datatype Gesture = PinchOrRotate | Pan(dx: real, dy: real)

  /** `filter((component) => component.isVisible)`. */
  function Visible(cs: seq<BaseUIComponent>): (r: seq<BaseUIComponent>)
    reads (set i | 0 <= i < |cs| :: cs[i])`isVisible
    ensures |r| <= |cs|
    ensures forall i :: 0 <= i < |r| ==> r[i] in cs && r[i].isVisible
    ensures forall i :: 0 <= i < |cs| && cs[i].isVisible ==> cs[i] in r
  {
    if cs == [] then []
    else
      var rest := Visible(cs[..|cs| - 1]);
      var last := cs[|cs| - 1];
      assert cs == cs[..|cs| - 1] + [last];
      if last.isVisible then rest + [last] else rest
  }

  lemma VisibleStep(cs: seq<BaseUIComponent>, i: nat)
    requires i < |cs|
    ensures Visible(cs[..i + 1]) ==
      Visible(cs[..i]) + (if cs[i].isVisible then [cs[i]] else [])
  {
    assert cs[..i + 1][..i] == cs[..i];
  }

  /** The calls a press (pointer-down or pointer-up) makes on the visible
      hits: for each, in query order, its bound effects, then its handler. */
  function PressCalls(vis: seq<BaseUIComponent>, event: PointerEvent): seq<Dispatch>
  {
    if vis == [] then []
    else
      var c := vis[|vis| - 1];
      PressCalls(vis[..|vis| - 1], event) + [Effects(c, event), Handled(c, event)]
  }

  lemma PressAppend(vis: seq<BaseUIComponent>, c: BaseUIComponent, event: PointerEvent)
    ensures PressCalls(vis + [c], event) == PressCalls(vis, event) + [Effects(c, event), Handled(c, event)]
  {
    assert (vis + [c])[..|vis|] == vis;
  }

  /** Exactly two calls per visible hit, in query order, the effects of
      each component before its handler. */
  lemma {:induction false} PressCallsOrder(vis: seq<BaseUIComponent>, event: PointerEvent)
    ensures |PressCalls(vis, event)| == 2 * |vis|
    ensures forall i :: 0 <= i < |vis| ==>
      PressCalls(vis, event)[2 * i] == Effects(vis[i], event) &&
      PressCalls(vis, event)[2 * i + 1] == Handled(vis[i], event)
  {
    if vis != [] {
      var init := vis[..|vis| - 1];
      PressCallsOrder(init, event);
      forall i | 0 <= i < |vis|
        ensures PressCalls(vis, event)[2 * i] == Effects(vis[i], event)
        ensures PressCalls(vis, event)[2 * i + 1] == Handled(vis[i], event)
      {
        if i < |init| {
          assert vis[i] == init[i];
        }
      }
    }
  }

  /** What one newly hit component receives on a move: enter (effects, then
      handler) when it was not hovered before, then a move in any case. */
  function EnterMove(c: BaseUIComponent, last: seq<BaseUIComponent>): seq<Dispatch>
  {
    (if c !in last then [Effects(c, PointerEnter), Handled(c, PointerEnter)] else [])
      + [Handled(c, PointerMove)]
  }

  /** The first loop of `processPointerMove`, over the new hit set. */
  function EnterMoveCalls(cs: seq<BaseUIComponent>, last: seq<BaseUIComponent>): seq<Dispatch>
  {
    if cs == [] then []
    else EnterMoveCalls(cs[..|cs| - 1], last) + EnterMove(cs[|cs| - 1], last)
  }

  /** What a previously hovered component receives when it is no longer hit. */
  function Leave(c: BaseUIComponent, now: seq<BaseUIComponent>): seq<Dispatch>
  {
    if c !in now then [Effects(c, PointerLeave), Handled(c, PointerLeave)] else []
  }

  /** The second loop of `processPointerMove`, over the old hover set. */
  function LeaveCalls(last: seq<BaseUIComponent>, now: seq<BaseUIComponent>): seq<Dispatch>
  {
    if last == [] then []
    else LeaveCalls(last[..|last| - 1], now) + Leave(last[|last| - 1], now)
  }

  lemma EnterMoveStep(cs: seq<BaseUIComponent>, i: nat, last: seq<BaseUIComponent>)
    requires i < |cs|
    ensures EnterMoveCalls(cs[..i + 1], last) == EnterMoveCalls(cs[..i], last) + EnterMove(cs[i], last)
  {
    assert cs[..i + 1][..i] == cs[..i];
  }

  lemma LeaveStep(last: seq<BaseUIComponent>, j: nat, now: seq<BaseUIComponent>)
    requires j < |last|
    ensures LeaveCalls(last[..j + 1], now) == LeaveCalls(last[..j], now) + Leave(last[j], now)
  {
    assert last[..j + 1][..j] == last[..j];
  }

  lemma DistinctPrefix<T>(s: seq<T>)
    requires Distinct(s) && s != []
    ensures Distinct(s[..|s| - 1]) && s[|s| - 1] !in s[..|s| - 1]
    ensures forall y :: y in s <==> y in s[..|s| - 1] || y == s[|s| - 1]
  {
    assert s == s[..|s| - 1] + [s[|s| - 1]];
  }

  /** The calls one component of the new set receives, counted. */
  lemma EnterMoveOne(c: BaseUIComponent, last: seq<BaseUIComponent>, x: BaseUIComponent)
    ensures var step := EnterMove(c, last);
      && Count(step, Effects(x, PointerEnter)) == (if c == x && c !in last then 1 else 0)
      && Count(step, Handled(x, PointerEnter)) == (if c == x && c !in last then 1 else 0)
      && Count(step, Handled(x, PointerMove)) == (if c == x then 1 else 0)
      && Count(step, Effects(x, PointerLeave)) == 0 && Count(step, Handled(x, PointerLeave)) == 0
  {
    var e, h, m := Effects(c, PointerEnter), Handled(c, PointerEnter), Handled(c, PointerMove);
    assert EnterMove(c, last) == if c !in last then [e, h, m] else [m];
    CountSmall(e, h, m, Effects(x, PointerEnter));
    CountSmall(e, h, m, Handled(x, PointerEnter));
    CountSmall(e, h, m, Handled(x, PointerMove));
    CountSmall(e, h, m, Effects(x, PointerLeave));
    CountSmall(e, h, m, Handled(x, PointerLeave));
  }

  /** The calls one previously hovered component receives, counted. */
  lemma LeaveOne(c: BaseUIComponent, now: seq<BaseUIComponent>, x: BaseUIComponent)
    ensures var step := Leave(c, now);
      && Count(step, Effects(x, PointerLeave)) == (if c == x && c !in now then 1 else 0)
      && Count(step, Handled(x, PointerLeave)) == (if c == x && c !in now then 1 else 0)
      && Count(step, Effects(x, PointerEnter)) == 0 && Count(step, Handled(x, PointerEnter)) == 0
      && Count(step, Handled(x, PointerMove)) == 0
  {
    var e, h := Effects(c, PointerLeave), Handled(c, PointerLeave);
    if c !in now {
      CountSmall(e, h, h, Effects(x, PointerLeave));
      CountSmall(e, h, h, Handled(x, PointerLeave));
      CountSmall(e, h, h, Effects(x, PointerEnter));
      CountSmall(e, h, h, Handled(x, PointerEnter));
      CountSmall(e, h, h, Handled(x, PointerMove));
    }
  }

  /** Counting the calls of the first loop: a component of the new set gets
      one enter (effects and handler) when it was not hovered before, none
      otherwise, and exactly one move; no leave is sent. */
  lemma {:induction false} EnterMoveCounts(cs: seq<BaseUIComponent>, last: seq<BaseUIComponent>, x: BaseUIComponent)
    requires Distinct(cs)
    ensures var calls := EnterMoveCalls(cs, last);
      && Count(calls, Effects(x, PointerEnter)) == (if x in cs && x !in last then 1 else 0)
      && Count(calls, Handled(x, PointerEnter)) == (if x in cs && x !in last then 1 else 0)
      && Count(calls, Handled(x, PointerMove)) == (if x in cs then 1 else 0)
      && Count(calls, Effects(x, PointerLeave)) == 0 && Count(calls, Handled(x, PointerLeave)) == 0
  {
    if cs != [] {
      var init, c := cs[..|cs| - 1], cs[|cs| - 1];
      DistinctPrefix(cs);
      EnterMoveCounts(init, last, x);
      EnterMoveOne(c, last, x);
      var before, step := EnterMoveCalls(init, last), EnterMove(c, last);
      CountAppend(before, step, Effects(x, PointerEnter));
      CountAppend(before, step, Handled(x, PointerEnter));
      CountAppend(before, step, Handled(x, PointerMove));
      CountAppend(before, step, Effects(x, PointerLeave));
      CountAppend(before, step, Handled(x, PointerLeave));
    }
  }

  /** Counting the calls of the second loop: a previously hovered component
      gets one leave when it is no longer hit, none otherwise; nothing else
      is sent. */
  lemma {:induction false} LeaveCounts(last: seq<BaseUIComponent>, now: seq<BaseUIComponent>, x: BaseUIComponent)
    requires Distinct(last)
    ensures var calls := LeaveCalls(last, now);
      && Count(calls, Effects(x, PointerLeave)) == (if x in last && x !in now then 1 else 0)
      && Count(calls, Handled(x, PointerLeave)) == (if x in last && x !in now then 1 else 0)
      && Count(calls, Effects(x, PointerEnter)) == 0 && Count(calls, Handled(x, PointerEnter)) == 0
      && Count(calls, Handled(x, PointerMove)) == 0
  {
    if last != [] {
      var init, c := last[..|last| - 1], last[|last| - 1];
      DistinctPrefix(last);
      LeaveCounts(init, now, x);
      LeaveOne(c, now, x);
      var before, step := LeaveCalls(init, now), Leave(c, now);
      CountAppend(before, step, Effects(x, PointerLeave));
      CountAppend(before, step, Handled(x, PointerLeave));
      CountAppend(before, step, Effects(x, PointerEnter));
      CountAppend(before, step, Handled(x, PointerEnter));
      CountAppend(before, step, Handled(x, PointerMove));
    }
  }

  /** One pointer move sends, to each component, one `pointerenter` exactly
      when it is hit now and was not hovered before, one `pointerleave`
      exactly when it was hovered before and is not hit now, and one
      `pointermove` exactly when it is hit now. */
  lemma MoveExactlyOnce(now: seq<BaseUIComponent>, last: seq<BaseUIComponent>, x: BaseUIComponent)
    requires Distinct(now) && Distinct(last)
    ensures var calls := EnterMoveCalls(now, last) + LeaveCalls(last, now);
      && Count(calls, Effects(x, PointerEnter)) == (if x in now && x !in last then 1 else 0)
      && Count(calls, Handled(x, PointerEnter)) == (if x in now && x !in last then 1 else 0)
      && Count(calls, Effects(x, PointerLeave)) == (if x in last && x !in now then 1 else 0)
      && Count(calls, Handled(x, PointerLeave)) == (if x in last && x !in now then 1 else 0)
      && Count(calls, Handled(x, PointerMove)) == (if x in now then 1 else 0)
  {
    EnterMoveCounts(now, last, x);
    LeaveCounts(last, now, x);
    var e, l := EnterMoveCalls(now, last), LeaveCalls(last, now);
    CountAppend(e, l, Effects(x, PointerEnter));
    CountAppend(e, l, Handled(x, PointerEnter));
    CountAppend(e, l, Effects(x, PointerLeave));
    CountAppend(e, l, Handled(x, PointerLeave));
    CountAppend(e, l, Handled(x, PointerMove));
  }

  /** The calls `handleWheel` makes: `handleWheelScroll` on each visible hit
      whose class has one, in query order. */
  function WheelCalls(vis: seq<BaseUIComponent>): (r: seq<Dispatch>)
    reads (set i | 0 <= i < |vis| :: vis[i])`hasWheelHandler
    ensures forall d :: d in r ==> d.Wheel? && d.c in vis && d.c.hasWheelHandler
    ensures forall i :: 0 <= i < |vis| && vis[i].hasWheelHandler ==> Wheel(vis[i]) in r
  {
    if vis == [] then []
    else
      var c := vis[|vis| - 1];
      assert vis == vis[..|vis| - 1] + [c];
      WheelCalls(vis[..|vis| - 1]) + (if c.hasWheelHandler then [Wheel(c)] else [])
  }

  lemma WheelStep(vis: seq<BaseUIComponent>, i: nat)
    requires i < |vis|
    ensures WheelCalls(vis[..i + 1]) ==
      WheelCalls(vis[..i]) + (if vis[i].hasWheelHandler then [Wheel(vis[i])] else [])
  {
    assert vis[..i + 1][..i] == vis[..i];
  }

  /** `getCanvasRelativePosition`: client coordinates minus the canvas'
      client rectangle origin, in device pixels. */
  function CanvasRelativePosition(client: Vec2, rectOrigin: Vec2, dpr: real): Vec2
  {
    Vec2((client.x - rectOrigin.x) * dpr, (client.y - rectOrigin.y) * dpr)
  }

  /** The point `handleWheel` queries: client coordinates in device pixels. */
  function WheelPoint(client: Vec2, dpr: real): Vec2
  {
    Vec2(client.x * dpr, client.y * dpr)
  }

  /** The wheel queries the same point as the pointer handlers exactly when
      the canvas sits at the client origin: otherwise a wheel over a
      component can reach a different component than a click there. */
  lemma WheelPointAgreement(client: Vec2, rectOrigin: Vec2, dpr: real)
    requires dpr > 0.0
    ensures WheelPoint(client, dpr) == CanvasRelativePosition(client, rectOrigin, dpr) <==>
      rectOrigin == Vec2(0.0, 0.0)
  {
    if WheelPoint(client, dpr) == CanvasRelativePosition(client, rectOrigin, dpr) {
      assert client.x * dpr == (client.x - rectOrigin.x) * dpr;
      assert rectOrigin.x * dpr == 0.0;
      assert client.y * dpr == (client.y - rectOrigin.y) * dpr;
      assert rectOrigin.y * dpr == 0.0;
    }
  }

  /** `tags.every((tag) => componentTags.includes(tag))`. */
  function Every(tags: seq<string>, componentTags: seq<string>): (r: bool)
    ensures r <==> forall i :: 0 <= i < |tags| ==> tags[i] in componentTags
  {
    if tags == [] then true
    else Every(tags[..|tags| - 1], componentTags) && tags[|tags| - 1] in componentTags
  }

  /** `tags.some((tag) => componentTags.includes(tag))`. */
  function Some(tags: seq<string>, componentTags: seq<string>): (r: bool)
    ensures r <==> exists i :: 0 <= i < |tags| && tags[i] in componentTags
  {
    if tags == [] then false
    else Some(tags[..|tags| - 1], componentTags) || tags[|tags| - 1] in componentTags
  }

  /** The filter test of `getComponents`. */
  function TagMatch(componentTags: seq<string>, tags: seq<string>, useAnd: bool, useNot: bool): bool
  {
    if |tags| == 0 then |componentTags| == 0
    else
      var hasTags := if useAnd then Every(tags, componentTags) else Some(tags, componentTags);
      if useNot then !hasTags else hasTags
  }

  /** An empty tag list selects exactly the untagged components, whatever
      the flags; otherwise `useNot` negates the test, `useAnd` asks for
      every tag and its absence for any tag. */
  lemma TagMatchMeaning(ct: seq<string>, tags: seq<string>, useAnd: bool, useNot: bool)
    ensures tags == [] ==> (TagMatch(ct, tags, useAnd, useNot) <==> ct == [])
    ensures tags != [] ==> TagMatch(ct, tags, useAnd, true) == !TagMatch(ct, tags, useAnd, false)
    ensures tags != [] && useAnd ==>
      (TagMatch(ct, tags, true, useNot) <==> useNot != (forall t :: t in tags ==> t in ct))
    ensures tags != [] && !useAnd ==>
      (TagMatch(ct, tags, false, useNot) <==> useNot != (exists t :: t in tags && t in ct))
    ensures tags != [] && TagMatch(ct, tags, true, false) ==> TagMatch(ct, tags, false, false)
  {
    if tags != [] {
      assert tags[0] in tags;
      if forall t :: t in tags ==> t in ct {
        assert tags[0] in ct;
      }
    }
  }

  /** The candidates that pass `TagMatch`, in order. */
  function Matching(cs: seq<BaseUIComponent>, tags: seq<string>, useAnd: bool, useNot: bool)
    : (r: seq<BaseUIComponent>)
    reads (set i | 0 <= i < |cs| :: cs[i])`tags
    ensures |r| <= |cs|
    ensures forall i :: 0 <= i < |r| ==> r[i] in cs && TagMatch(r[i].tags, tags, useAnd, useNot)
    ensures forall i :: 0 <= i < |cs| && TagMatch(cs[i].tags, tags, useAnd, useNot) ==> cs[i] in r
  {
    if cs == [] then []
    else
      var rest := Matching(cs[..|cs| - 1], tags, useAnd, useNot);
      var last := cs[|cs| - 1];
      assert cs == cs[..|cs| - 1] + [last];
      if TagMatch(last.tags, tags, useAnd, useNot) then rest + [last] else rest
  }

  lemma SomeKey(m: map<int, Vec2>)
    requires |m| > 0
    ensures exists id :: id in m
  {
    if forall id :: id !in m.Keys {
      assert false;
    }
  }

  lemma SingleKey(m: map<int, Vec2>, id: int)
    requires |m| == 1 && id in m
    ensures m.Keys == {id} && m.Values == {m[id]}
  {
    var rest := m.Keys - {id};
    assert |m.Keys| == |rest| + 1;
    assert rest == {};
    assert m.Keys == {id};
  }

  class UIKit {
    /** The kit's spatial index; every added component goes in. */
    const tree: QuadTree
    /** `devicePixelRatio` at construction. */
    const dpr: real
    var lastClickTime: real
    /** Pointer id to canvas position. */
    var activePointers: map<int, Vec2>
    var lastPanPosition: Vec2
    /** `lastHoveredComponents`, in the insertion order of the `Set`. */
    var lastHovered: seq<BaseUIComponent>
    /** The calls the kit made on components. */
    var log: seq<Dispatch>
    /** The gesture hooks it called. */
    var gestures: seq<Gesture>

    ghost predicate Valid()
      reads this`lastHovered
    {
      Distinct(lastHovered)
    }

    /** The state the constructor sets up; `devicePixelRatio || 1` turns a
        missing (zero) ratio into 1. */
    constructor (canvasSize: Vec2, devicePixelRatio: real)
      ensures dpr == (if devicePixelRatio == 0.0 then 1.0 else devicePixelRatio)
      ensures fresh(tree) && tree.elements == []
      ensures tree.boundary == Vec4(0.0, 0.0, canvasSize.x * dpr, canvasSize.y * dpr)
      ensures lastClickTime == 0.0 && activePointers == map[]
      ensures lastPanPosition == Vec2(-1.0, -1.0)
      ensures lastHovered == [] && log == [] && gestures == []
      ensures Valid()
    {
      var ratio := if devicePixelRatio == 0.0 then 1.0 else devicePixelRatio;
      dpr := ratio;
      tree := new QuadTree(Vec4(0.0, 0.0, canvasSize.x * ratio, canvasSize.y * ratio));
      lastClickTime := 0.0;
      activePointers := map[];
      lastPanPosition := Vec2(-1.0, -1.0);
      lastHovered := [];
      log := [];
      gestures := [];
    }

    /** The visible components under `p`, in query order. */
    function VisibleAt(p: Vec2): seq<BaseUIComponent>
      reads tree, set i | 0 <= i < |tree.elements| :: tree.elements[i]
    {
      Visible(tree.QueryPoint(p))
    }

    /** `processPointerDown` and `processPointerUp` share this body. */
    method Press(p: Vec2, event: PointerEvent)
      modifies this`log
      ensures log == old(log) + PressCalls(old(VisibleAt(p)), event)
    {
      var hits := tree.QueryPoint(p);
      PressEach(hits, event);
    }

    /** The loop over the hits: effects then handler for each visible one. */
    method PressEach(hits: seq<BaseUIComponent>, event: PointerEvent)
      modifies this`log
      ensures log == old(log) + PressCalls(Visible(hits), event)
    {
      ghost var log0 := log;
      var i := 0;
      while i < |hits|
        invariant 0 <= i <= |hits|
        invariant log == log0 + PressCalls(Visible(hits[..i]), event)
      {
        PressNth(hits, i, event, log0);
        i := i + 1;
      }
      assert hits[..i] == hits;
    }

    /** One turn of the loop over the hits. */
    method PressNth(hits: seq<BaseUIComponent>, i: nat, event: PointerEvent, ghost log0: seq<Dispatch>)
      requires i < |hits| && log == log0 + PressCalls(Visible(hits[..i]), event)
      modifies this`log
      ensures log == log0 + PressCalls(Visible(hits[..i + 1]), event)
    {
      var c := hits[i];
      ghost var before := Visible(hits[..i]);
      VisibleStep(hits, i);
      if c.isVisible {
        PressAppend(before, c, event);
        AppendAssoc(log0, PressCalls(before, event), [Effects(c, event), Handled(c, event)]);
        log := log + [Effects(c, event), Handled(c, event)];
      } else {
        assert Visible(hits[..i + 1]) == before;
      }
    }

    /** `processPointerDown`. */
    method ProcessPointerDown(p: Vec2)
      modifies this`log
      ensures log == old(log) + PressCalls(old(VisibleAt(p)), PointerDown)
    {
      Press(p, PointerDown);
    }

    /** `processPointerUp`. */
    method ProcessPointerUp(p: Vec2)
      modifies this`log
      ensures log == old(log) + PressCalls(old(VisibleAt(p)), PointerUp)
    {
      Press(p, PointerUp);
    }

    /** `processPointerMove`: enter and move for the new hit set, leave for
        the hovered components no longer hit, then the hit set becomes the
        hover set. */
    method ProcessPointerMove(p: Vec2)
      modifies this`log, this`lastHovered
      ensures lastHovered == Dedup(old(VisibleAt(p))) && Valid()
      ensures log == old(log) + EnterMoveCalls(lastHovered, old(lastHovered)) +
        LeaveCalls(old(lastHovered), lastHovered)
    {
      var now := Dedup(VisibleAt(p));
      var last := lastHovered;
      EnterAndMove(now, last);
      LeaveOld(last, now);
      lastHovered := now;
    }

    /** The first loop of `processPointerMove`. */
    method EnterAndMove(now: seq<BaseUIComponent>, last: seq<BaseUIComponent>)
      modifies this`log
      ensures log == old(log) + EnterMoveCalls(now, last)
    {
      ghost var log0 := log;
      var i := 0;
      while i < |now|
        invariant 0 <= i <= |now|
        invariant log == log0 + EnterMoveCalls(now[..i], last)
      {
        var c := now[i];
        ghost var done := EnterMoveCalls(now[..i], last);
        EnterMoveStep(now, i, last);
        AppendAssoc(log0, done, EnterMove(c, last));
        if c !in last {
          log := log + [Effects(c, PointerEnter), Handled(c, PointerEnter)];
        }
        log := log + [Handled(c, PointerMove)];
        assert log == log0 + done + EnterMove(c, last);
        i := i + 1;
      }
      assert now[..i] == now;
    }

    /** The second loop of `processPointerMove`. */
    method LeaveOld(last: seq<BaseUIComponent>, now: seq<BaseUIComponent>)
      modifies this`log
      ensures log == old(log) + LeaveCalls(last, now)
    {
      ghost var log0 := log;
      var j := 0;
      while j < |last|
        invariant 0 <= j <= |last|
        invariant log == log0 + LeaveCalls(last[..j], now)
      {
        var c := last[j];
        ghost var done := LeaveCalls(last[..j], now);
        LeaveStep(last, j, now);
        AppendAssoc(log0, done, Leave(c, now));
        if c !in now {
          log := log + [Effects(c, PointerLeave), Handled(c, PointerLeave)];
        }
        assert log == log0 + done + Leave(c, now);
        j := j + 1;
      }
      assert last[..j] == last;
    }

    /** `handlePointerDown`: the pointer is recorded, then the press is dispatched. */
    method HandlePointerDown(id: int, client: Vec2, rectOrigin: Vec2)
      modifies this`activePointers, this`log
      ensures var pos := CanvasRelativePosition(client, rectOrigin, dpr);
        && activePointers == old(activePointers)[id := pos]
        && log == old(log) + PressCalls(old(VisibleAt(pos)), PointerDown)
    {
      var pos := CanvasRelativePosition(client, rectOrigin, dpr);
      ghost var hits := VisibleAt(pos);
      activePointers := activePointers[id := pos];
      assert VisibleAt(pos) == hits;
      ProcessPointerDown(pos);
    }

    /** `handlePointerUp` at time `now`: the press is dispatched only when
        more than 200 ms passed since the previous pointer-up; the time is
        remembered and the pointer forgotten either way. */
    method HandlePointerUp(id: int, client: Vec2, rectOrigin: Vec2, now: real)
      modifies this`activePointers, this`log, this`lastClickTime
      ensures var pos := CanvasRelativePosition(client, rectOrigin, dpr);
        log == old(log) + (if now - old(lastClickTime) > 200.0
                           then PressCalls(old(VisibleAt(pos)), PointerUp) else [])
      ensures lastClickTime == now
      ensures activePointers == old(activePointers) - {id}
    {
      var pos := CanvasRelativePosition(client, rectOrigin, dpr);
      var elapsed := now - lastClickTime;
      if elapsed > 200.0 {
        ProcessPointerUp(pos);
      }
      lastClickTime := now;
      activePointers := activePointers - {id};
    }

    /** `handlePointerCancel`: forgets the pointer and calls nothing. */
    method HandlePointerCancel(id: int)
      modifies this`activePointers
      ensures activePointers == old(activePointers) - {id}
    {
      activePointers := activePointers - {id};
    }

    /** `detectPan`: the hook gets the move since the last pan position
        (initially (-1, -1)), which then becomes the given point. */
    method DetectPan(p: Vec2)
      modifies this`gestures, this`lastPanPosition
      ensures gestures == old(gestures) + [Pan(p.x - old(lastPanPosition).x, p.y - old(lastPanPosition).y)]
      ensures lastPanPosition == p
    {
      var dx := p.x - lastPanPosition.x;
      var dy := p.y - lastPanPosition.y;
      gestures := gestures + [Pan(dx, dy)];
      lastPanPosition := p;
    }

    /** What `detectGestures` leaves, from the gestures `g0` and the pan
        position `pan0` before it: with two active pointers the pinch/rotate
        hook ran; with one, the pan hook got the move from `pan0` to that
        pointer, which is the new pan position; otherwise nothing happened. */
    ghost predicate GesturesDetected(g0: seq<Gesture>, pan0: Vec2)
      reads this`activePointers, this`gestures, this`lastPanPosition
    {
      if |activePointers| == 2 then
        gestures == g0 + [PinchOrRotate] && lastPanPosition == pan0
      else if |activePointers| == 1 then
        activePointers.Values == {lastPanPosition} &&
        gestures == g0 + [Pan(lastPanPosition.x - pan0.x, lastPanPosition.y - pan0.y)]
      else
        gestures == g0 && lastPanPosition == pan0
    }

    /** `detectGestures`: two active pointers pinch or rotate, one pans,
        any other number does nothing. */
    method DetectGestures()
      modifies this`gestures, this`lastPanPosition
      ensures GesturesDetected(old(gestures), old(lastPanPosition))
    {
      if |activePointers| == 2 {
        gestures := gestures + [PinchOrRotate];
      } else if |activePointers| == 1 {
        SomeKey(activePointers);
        var id :| id in activePointers;
        SingleKey(activePointers, id);
        DetectPan(activePointers[id]);
      }
    }

    /** `handlePointerMove`: the pointer is recorded, the move dispatched,
        then gestures detected. */
    method HandlePointerMove(id: int, client: Vec2, rectOrigin: Vec2)
      modifies this`activePointers, this`log, this`lastHovered, this`gestures, this`lastPanPosition
      ensures var pos := CanvasRelativePosition(client, rectOrigin, dpr);
        && activePointers == old(activePointers)[id := pos]
        && lastHovered == Dedup(old(VisibleAt(pos))) && Valid()
        && log == old(log) + EnterMoveCalls(lastHovered, old(lastHovered)) +
             LeaveCalls(old(lastHovered), lastHovered)
      ensures GesturesDetected(old(gestures), old(lastPanPosition))
    {
      var pos := CanvasRelativePosition(client, rectOrigin, dpr);
      activePointers := activePointers[id := pos];
      ProcessPointerMove(pos);
      DetectGestures();
    }

    /** `handleWheel`: `handleWheelScroll` on every visible component under
        the client point scaled to device pixels. */
    method HandleWheel(client: Vec2)
      modifies this`log
      ensures log == old(log) + WheelCalls(old(VisibleAt(WheelPoint(client, dpr))))
    {
      var point := WheelPoint(client, dpr);
      var vis := VisibleAt(point);
      ScrollEach(vis);
    }

    /** The loop of `handleWheel`. */
    method ScrollEach(vis: seq<BaseUIComponent>)
      modifies this`log
      ensures log == old(log) + WheelCalls(vis)
    {
      ghost var log0 := log;
      var i := 0;
      while i < |vis|
        invariant 0 <= i <= |vis|
        invariant log == log0 + WheelCalls(vis[..i])
      {
        var c := vis[i];
        ghost var done := WheelCalls(vis[..i]);
        WheelStep(vis, i);
        if c.hasWheelHandler {
          log := log + [Wheel(c)];
          AppendAssoc(log0, done, [Wheel(c)]);
        } else {
          assert WheelCalls(vis[..i + 1]) == done;
        }
        i := i + 1;
      }
      assert vis[..i] == vis;
    }

    /** `addComponent` for a plain component: it gets the kit's redraw hook
        and goes into the kit's tree. */
    method AddComponent(c: BaseUIComponent)
      modifies c`hasRedraw, tree`elements
      ensures c.hasRedraw && tree.elements == old(tree.elements) + [c]
    {
      c.hasRedraw := true;
      tree.Insert(c);
    }

    /** `addComponent` for a container: it adopts the kit's tree (its
        children go in, its old tree is emptied), then it gets the redraw
        hook and goes in after its children. */
    method AddContainer(k: BaseContainerComponent)
      requires k.Valid()
      modifies tree`elements, k`tree, k.tree`elements, k.Children()`hasRedraw, k.base`hasRedraw
      ensures k.tree == tree && k.base.hasRedraw
      ensures tree != old(k.tree) ==>
        tree.elements == old(tree.elements) + k.components + [k.base] && old(k.tree).elements == []
      ensures tree == old(k.tree) ==> tree.elements == [k.base]
      ensures forall i :: 0 <= i < |k.components| ==> k.components[i].hasRedraw == old(k.base.hasRedraw)
    {
      k.SetQuadTree(tree);
      k.base.hasRedraw := true;
      tree.Insert(k.base);
    }

    /** `getComponents`: the tree's elements (or those meeting `bounds`)
        that pass the tag filter, in order. */
    function GetComponents(bounds: Option<Vec4>, tags: seq<string>, useAnd: bool, useNot: bool)
      : (r: seq<BaseUIComponent>)
      reads tree, set i | 0 <= i < |tree.elements| :: tree.elements[i]
      ensures forall i :: 0 <= i < |r| ==> r[i] in tree.elements && TagMatch(r[i].tags, tags, useAnd, useNot)
      ensures bounds.None? ==> forall i :: 0 <= i < |tree.elements| ==>
        TagMatch(tree.elements[i].tags, tags, useAnd, useNot) ==> tree.elements[i] in r
      ensures bounds.Some? ==> forall i :: 0 <= i < |r| ==> Intersects(r[i].bounds, bounds.value)
      ensures bounds.Some? ==> forall i :: 0 <= i < |tree.elements| ==>
        Intersects(tree.elements[i].bounds, bounds.value) ==>
        TagMatch(tree.elements[i].tags, tags, useAnd, useNot) ==> tree.elements[i] in r
    {
      var candidates := if bounds.Some? then tree.Query(bounds.value) else tree.GetAllElements();
      Matching(candidates, tags, useAnd, useNot)
    }
  }
}
