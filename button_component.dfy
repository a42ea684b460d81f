/** ButtonComponent: a text box with a fixed effect table, a press bounce on
    `pointerup` and colour changes on the other pointer events, and a click
    callback. The text-box layer it extends is not part of this model beyond
    the property names it gives the button object. */
module Button {
  import opened Wrappers
  import opened Types
  import opened UiUtils
  import opened Animations
  import opened BaseComponent

  const DefaultHighlight: seq<real> := [0.5, 0.5, 0.5, 1.0]
  const DefaultButtonDown: seq<real> := [0.529, 0.808, 0.98, 1.0]
  /** The colour `pointerleave` restores when no background colour was configured. */
  const DefaultLeave: seq<real> := [0.0, 0.0, 0.0, 0.3]

  /** The property bag of a button: the data properties of the text box and
      the button, and the methods of both classes that effects could reach
      by name. Neither holds a `fillColor` nor a `setFillColor`. */
  function ButtonObject(text: string, background: seq<real>, highlight: seq<real>,
                        buttonDown: seq<real>, onClick: Option<Callback>): ObjState
  {
    ObjState(
      map["text" := Str(text), "backgroundColor" := NumArray(background),
          "highlightColor" := NumArray(highlight), "buttonDownColor" := NumArray(buttonDown),
          "onClick" := if onClick.Some? then Func(onClick.value.name) else Undefined],
      map["getForegroundColor" := Accessor("textColor"), "setForegroundColor" := Accessor("textColor"),
          "fitBounds" := Procedure, "updateBounds" := Procedure, "handleClick" := Procedure,
          "draw" := Procedure, "toJSON" := Procedure])
  }

  /** The effect table the constructor builds on the button object `t`, from
      its scale and position at that moment:
      `pointerup` shrinks the scale to 0.9 and moves the button 5 down, both
      as 100 ms bounce animations, the second calling `handleClick` when it
      completes; `pointerdown`, `pointerenter` and `pointerleave` each set
      `fillColor`. */
  function ButtonEffects(t: JsObject, scale: real, position: Vec2, buttonDown: seq<real>,
                         highlight: seq<real>, leave: seq<real>): map<string, seq<Effect>>
  {
    map[
      "pointerup" := [
        MakeEffect(AnimateValueKind, t, "scale", Num(scale), Num(0.9 * scale), Some(100.0), true,
                   false, None),
        MakeEffect(AnimateValueKind, t, "position", Arr([Num(position.x), Num(position.y)]),
                   Arr([Num(position.x), Num(position.y + 5.0)]), Some(100.0), true, false,
                   Some(Callback("handleClick")))],
      "pointerdown" := [MakeEffect(SetValueKind, t, "fillColor", NumArray(buttonDown), Undefined,
                                   None, false, false, None)],
      "pointerenter" := [MakeEffect(SetValueKind, t, "fillColor", NumArray(highlight), Undefined,
                                    None, false, false, None)],
      "pointerleave" := [MakeEffect(SetValueKind, t, "fillColor", NumArray(leave), Undefined, None,
                                    false, false, None)]]
  }

  /** Writing `fillColor` into an object that has neither that property nor
      a `setFillColor` method changes nothing. */
  lemma FillColorInert(s: ObjState, v: Value)
    requires !Has(s, "fillColor") && !Has(s, "setFillColor")
    ensures Written(s, "fillColor", v) == s
  {
    assert SetterName("fillColor") == "setFillColor";
  }

  /** No event of the button's table changes the button object: the colour
      effects write a property the object does not have, and the `pointerup`
      effects only hand two bounce animations to the manager. */
  lemma ButtonEffectsInert(t: JsObject, scale: real, position: Vec2, buttonDown: seq<real>,
                           highlight: seq<real>, leave: seq<real>, s: ObjState, event: string,
                           redraw: bool)
    requires !Has(s, "fillColor") && !Has(s, "setFillColor")
    ensures var effs := Bound(ButtonEffects(t, scale, position, buttonDown, highlight, leave), event);
      StateAfter(s, effs, t) == s
    ensures var effs := Bound(ButtonEffects(t, scale, position, buttonDown, highlight, leave),
                              "pointerup");
      && CallsOf(effs, redraw) == []
      && AnimationsOf(effs) == [
        AnimSpec(t, "scale", Num(scale), Num(0.9 * scale), Some(100.0), true, false, None),
        AnimSpec(t, "position", Arr([Num(position.x), Num(position.y)]),
                 Arr([Num(position.x), Num(position.y + 5.0)]), Some(100.0), true, false,
                 Some(Callback("handleClick")))]
  {
    var table := ButtonEffects(t, scale, position, buttonDown, highlight, leave);
    var up := table["pointerup"];
    OneOrTwoEffects(s, up[0], up[1], t, redraw);
    if event in table && event != "pointerup" {
      var e := table[event][0];
      assert table[event] == [e] && e.SetValue? && e.property == "fillColor";
      OneOrTwoEffects(s, e, e, t, redraw);
      FillColorInert(s, e.value);
    }
  }

  /** The constructor's five `addEventEffect` calls, from an empty table,
      build the button's table. */
  lemma ButtonRegistration(t: JsObject, s: real, p: Vec2, buttonDown: seq<real>,
                           highlight: seq<real>, leave: seq<real>)
    ensures
      var m1 := Registered(map[], "pointerup",
        MakeEffect(AnimateValueKind, t, "scale", Num(s), Num(0.9 * s), Some(100.0), true, false,
                   None));
      var m2 := Registered(m1, "pointerup",
        MakeEffect(AnimateValueKind, t, "position", Arr([Num(p.x), Num(p.y)]),
                   Arr([Num(p.x), Num(p.y + 5.0)]), Some(100.0), true, false,
                   Some(Callback("handleClick"))));
      var m3 := Registered(m2, "pointerdown",
        MakeEffect(SetValueKind, t, "fillColor", NumArray(buttonDown), Undefined, None, false,
                   false, None));
      var m4 := Registered(m3, "pointerenter",
        MakeEffect(SetValueKind, t, "fillColor", NumArray(highlight), Undefined, None, false,
                   false, None));
      Registered(m4, "pointerleave",
        MakeEffect(SetValueKind, t, "fillColor", NumArray(leave), Undefined, None, false, false,
                   None)) == ButtonEffects(t, s, p, buttonDown, highlight, leave)
  {
    var e1 := MakeEffect(AnimateValueKind, t, "scale", Num(s), Num(0.9 * s), Some(100.0), true,
                         false, None);
    var e2 := MakeEffect(AnimateValueKind, t, "position", Arr([Num(p.x), Num(p.y)]),
                         Arr([Num(p.x), Num(p.y + 5.0)]), Some(100.0), true, false,
                         Some(Callback("handleClick")));
    RegisteredAppends(map[], "pointerup", e1);
    RegisteredAppends(map["pointerup" := [e1]], "pointerup", e2);
    assert [e1] + [e2] == [e1, e2];
    var m2 := map["pointerup" := [e1, e2]];
    var e3 := MakeEffect(SetValueKind, t, "fillColor", NumArray(buttonDown), Undefined, None, false,
                         false, None);
    RegisteredAppends(m2, "pointerdown", e3);
    var e4 := MakeEffect(SetValueKind, t, "fillColor", NumArray(highlight), Undefined, None, false,
                         false, None);
    RegisteredAppends(m2["pointerdown" := [e3]], "pointerenter", e4);
    var e5 := MakeEffect(SetValueKind, t, "fillColor", NumArray(leave), Undefined, None, false,
                         false, None);
    RegisteredAppends(m2["pointerdown" := [e3]]["pointerenter" := [e4]], "pointerleave", e5);
  }

  /** A new button object has neither `fillColor` nor `setFillColor`. */
  lemma ButtonHasNoFillColor(text: string, background: seq<real>, highlight: seq<real>,
                             buttonDown: seq<real>, onClick: Option<Callback>)
    ensures var s := ButtonObject(text, background, highlight, buttonDown, onClick);
      !Has(s, "fillColor") && !Has(s, "setFillColor")
  {
  }

  class ButtonComponent {
    const base: BaseUIComponent
    var highlightColor: seq<real>
    var buttonDownColor: seq<real>
    var onClick: Option<Callback>

    /** The constructor: default colours, and the five effects registered
        from the scale and position the text box set up. */
    constructor (config: Config, text: string, backgroundColor: Option<seq<real>>,
                 highlightColor: Option<seq<real>>, buttonDownColor: Option<seq<real>>,
                 onClick: Option<Callback>)
      ensures fresh(base) && fresh(base.props)
      ensures this.highlightColor == highlightColor.Or(DefaultHighlight)
      ensures this.buttonDownColor == buttonDownColor.Or(DefaultButtonDown)
      ensures this.onClick == onClick
      ensures base.effects == ButtonEffects(base.props, base.scale, base.position,
        this.buttonDownColor, this.highlightColor, backgroundColor.Or(DefaultLeave))
      ensures !Has(base.props.state, "fillColor") && !Has(base.props.state, "setFillColor")
    {
      var highlight := highlightColor.Or(DefaultHighlight);
      var down := buttonDownColor.Or(DefaultButtonDown);
      ButtonHasNoFillColor(text, backgroundColor.Or([0.0, 0.0, 0.0, 0.5]), highlight, down,
                           onClick);
      base := new BaseUIComponent(config,
        ButtonObject(text, backgroundColor.Or([0.0, 0.0, 0.0, 0.5]), highlight, down, onClick));
      this.highlightColor := highlight;
      this.buttonDownColor := down;
      this.onClick := onClick;
      new;
      RegisterEffects(backgroundColor.Or(DefaultLeave));
    }

    /** The five `addEventEffect` calls of the constructor, in order. */
    method RegisterEffects(leave: seq<real>)
      requires base.effects == map[]
      modifies base`effects
      ensures base.effects == ButtonEffects(base.props, base.scale, base.position,
        buttonDownColor, highlightColor, leave)
    {
      var t, s, p := base.props, base.scale, base.position;
      var down, highlight := buttonDownColor, highlightColor;
      ButtonRegistration(t, s, p, down, highlight, leave);
      base.AddEventEffect("pointerup", t, "scale", AnimateValueKind, Num(s), Num(0.9 * s),
                          Some(100.0), true, false, None);
      base.AddEventEffect("pointerup", t, "position", AnimateValueKind, Arr([Num(p.x), Num(p.y)]),
                          Arr([Num(p.x), Num(p.y + 5.0)]), Some(100.0), true, false,
                          Some(Callback("handleClick")));
      base.AddEventEffect("pointerdown", t, "fillColor", SetValueKind, NumArray(down), Undefined,
                          None, false, false, None);
      base.AddEventEffect("pointerenter", t, "fillColor", SetValueKind, NumArray(highlight),
                          Undefined, None, false, false, None);
      base.AddEventEffect("pointerleave", t, "fillColor", SetValueKind, NumArray(leave), Undefined,
                          None, false, false, None);
    }

    /** `handleClick`: calls `onClick` only when one is set. */
    method HandleClick()
      modifies base`calls
      ensures onClick.Some? ==> base.calls == old(base.calls) + [Invoke(onClick.value)]
      ensures onClick.None? ==> base.calls == old(base.calls)
    {
      if onClick.Some? {
        base.calls := base.calls + [Invoke(onClick.value)];
      }
    }
  }
}
