/** InputTextBoxComponent: a text box with an editing cursor. The text and
    the cursor change only through the key handlers, each guarded so that
    the cursor never leaves [0, |text|], and a looping animation makes the
    cursor blink until the box is destroyed. Every edit resizes the box to
    its text; the font metrics that size comes from are a parameter. */
module InputTextBox {
  import opened Wrappers
  import opened Types
  import opened UiUtils
  import opened Collections
  import opened Animations
  import opened BaseComponent

  /** The editing state: the text and the cursor, an index between
      characters. */
  datatype Editor = Editor(text: string, cursor: int)

  predicate CursorInText(e: Editor)
  {
    0 <= e.cursor <= |e.text|
  }

  /** `handleInput`: `input` goes in at the cursor, which ends up just after it. */
  function Insert(e: Editor, input: string): (r: Editor)
    requires CursorInText(e)
    ensures CursorInText(r)
    ensures r.cursor == e.cursor + |input| && |r.text| == |e.text| + |input|
    ensures r.text[..e.cursor] == e.text[..e.cursor]
    ensures r.text[e.cursor..r.cursor] == input
    ensures r.text[r.cursor..] == e.text[e.cursor..]
  {
    var t := e.text[..e.cursor] + input + e.text[e.cursor..];
    assert t[..e.cursor] == e.text[..e.cursor];
    assert t[e.cursor..e.cursor + |input|] == input;
    assert t[e.cursor + |input|..] == e.text[e.cursor..];
    Editor(t, e.cursor + |input|)
  }

  /** `handleBackspace`: removes the character before the cursor and moves
      the cursor back over it; at the start of the text nothing changes. */
  function Backspace(e: Editor): (r: Editor)
    requires CursorInText(e)
    ensures CursorInText(r)
    ensures e.cursor == 0 ==> r == e
    ensures e.cursor > 0 ==>
      && r.cursor == e.cursor - 1 && |r.text| == |e.text| - 1
      && r.text[..r.cursor] == e.text[..r.cursor]
      && r.text[r.cursor..] == e.text[e.cursor..]
  {
    if e.cursor > 0 then
      var t := e.text[..e.cursor - 1] + e.text[e.cursor..];
      assert t[..e.cursor - 1] == e.text[..e.cursor - 1];
      assert t[e.cursor - 1..] == e.text[e.cursor..];
      Editor(t, e.cursor - 1)
    else e
  }

  /** `handleDelete`: removes the character after the cursor, which stays
      put; at the end of the text nothing changes. */
  function Delete(e: Editor): (r: Editor)
    requires CursorInText(e)
    ensures CursorInText(r)
    ensures e.cursor == |e.text| ==> r == e
    ensures e.cursor < |e.text| ==>
      && r.cursor == e.cursor && |r.text| == |e.text| - 1
      && r.text[..r.cursor] == e.text[..e.cursor]
      && r.text[r.cursor..] == e.text[e.cursor + 1..]
  {
    if e.cursor < |e.text| then
      var t := e.text[..e.cursor] + e.text[e.cursor + 1..];
      assert t[..e.cursor] == e.text[..e.cursor];
      assert t[e.cursor..] == e.text[e.cursor + 1..];
      Editor(t, e.cursor)
    else e
  }

  /** `handleArrowLeft`: one step back, unless at the start. */
  function ArrowLeft(e: Editor): (r: Editor)
    requires CursorInText(e)
    ensures CursorInText(r) && r.text == e.text
    ensures r.cursor == (if e.cursor > 0 then e.cursor - 1 else e.cursor)
  {
    if e.cursor > 0 then e.(cursor := e.cursor - 1) else e
  }

  /** `handleArrowRight`: one step forward, unless at the end. */
  function ArrowRight(e: Editor): (r: Editor)
    requires CursorInText(e)
    ensures CursorInText(r) && r.text == e.text
    ensures r.cursor == (if e.cursor < |e.text| then e.cursor + 1 else e.cursor)
  {
    if e.cursor < |e.text| then e.(cursor := e.cursor + 1) else e
  }

  /** Typing one character and then pressing backspace gives back the text
      and the cursor. */
  lemma BackspaceUndoesInsert(e: Editor, c: char)
    requires CursorInText(e)
    ensures Backspace(Insert(e, [c])) == e
  {
    var r := Backspace(Insert(e, [c]));
    assert r.text == r.text[..e.cursor] + r.text[e.cursor..];
    assert e.text == e.text[..e.cursor] + e.text[e.cursor..];
  }

  /** Away from the start of the text, backspace is the left arrow
      followed by delete (at the start, backspace does nothing while delete
      still removes the first character). */
  lemma BackspaceIsLeftThenDelete(e: Editor)
    requires CursorInText(e) && e.cursor > 0
    ensures Backspace(e) == Delete(ArrowLeft(e))
  {
    var b, d := Backspace(e), Delete(ArrowLeft(e));
    assert b.text == b.text[..b.cursor] + b.text[b.cursor..];
    assert d.text == d.text[..d.cursor] + d.text[d.cursor..];
  }

  /** Away from the ends, the right arrow undoes the left arrow. */
  lemma ArrowRightUndoesLeft(e: Editor)
    requires CursorInText(e) && e.cursor > 0
    ensures ArrowRight(ArrowLeft(e)) == e
  {
  }

  /** The cursor blink the constructor starts on the box object `t`: the
      `cursorVisible` property from 1 to 0 over 500 ms, looping, with the
      callback that flips the cursor. */
  function BlinkSpec(t: JsObject): AnimSpec
  {
    AnimSpec(t, "cursorVisible", Num(1.0), Num(0.0), Some(500.0), false, true,
             Some(Callback("blinkCursor")))
  }

  /** The calls a handler that requests a redraw makes. */
  function RedrawCalls(hasRedraw: bool): seq<Call>
  {
    if hasRedraw then [RequestRedraw] else []
  }

  class InputTextBoxComponent {
    const base: BaseUIComponent
    var text: string
    var cursorPosition: int
    var cursorVisible: bool
    var cursorColor: seq<real>
    /** `cursorBlinkAnimation`, which the constructor always sets. */
    const blink: Animation

    ghost predicate Valid()
      reads this
    {
      CursorInText(Editor(text, cursorPosition))
    }

    function State(): Editor
      reads this
    {
      Editor(text, cursorPosition)
    }

    /** The constructor: the cursor after the last character, visible, the
        default cursor colour black, and the blink animation handed to the
        manager. */
    constructor (config: Config, text: string, cursorColor: Option<seq<real>>,
                 mgr: AnimationManager)
      modifies mgr
      ensures Valid() && fresh(base) && fresh(blink)
      ensures this.text == text && cursorPosition == |text| && cursorVisible
      ensures this.cursorColor == cursorColor.Or([0.0, 0.0, 0.0, 1.0])
      ensures blink.spec == BlinkSpec(base.props)
      ensures mgr.animations == old(mgr.animations) + [blink]
    {
      var bc := new BaseUIComponent(config, ObjState(map["text" := Str(text)], map[]));
      base := bc;
      this.text := text;
      cursorPosition := |text|;
      cursorVisible := true;
      this.cursorColor := cursorColor.Or([0.0, 0.0, 0.0, 1.0]);
      var b := new Animation(BlinkSpec(bc.props));
      blink := b;
      new;
      mgr.AddAnimation(b);
    }

    /** The blink callback: flips the cursor's visibility and asks for a
        redraw. */
    method BlinkCursor()
      modifies this`cursorVisible, base`calls
      ensures cursorVisible == !old(cursorVisible)
      ensures base.calls == old(base.calls) + RedrawCalls(base.hasRedraw)
    {
      cursorVisible := !cursorVisible;
      if base.hasRedraw {
        base.calls := base.calls + [RequestRedraw];
      }
    }

    /** The bounds `updateBounds` gives the box: its text's size, measured
        by the font, at position `p`. */
    static function TextBounds(p: Vec2, size: Vec2): (r: Vec4)
      ensures r.left == p.x && r.top == p.y && r.width == size.x && r.height == size.y
    {
      Vec4(p.x, p.y, size.x, size.y)
    }

    /** `updateBounds` of the text box: `measure` stands for the font's
        word-wrapped size of a text with the margins added. The box keeps
        its position, takes that size and tells its resize listeners. */
    method UpdateBounds(measure: string -> Vec2)
      modifies base`bounds, base`position, base`calls
      ensures base.position == old(base.position)
      ensures base.bounds == TextBounds(base.position, measure(text))
      ensures base.calls == old(base.calls) + ResizeCalls(Bound(base.listeners, "resize"))
    {
      var size := measure(text);
      base.SetBounds(Vec4(base.position.x, base.position.y, size.x, size.y));
    }

    /** `handleInput`: the box is resized to the new text before the
        redraw. */
    method HandleInput(input: string, measure: string -> Vec2)
      requires Valid()
      modifies this`text, this`cursorPosition, base`bounds, base`position, base`calls
      ensures Valid() && State() == Insert(old(State()), input)
      ensures base.position == old(base.position)
      ensures base.bounds == TextBounds(base.position, measure(text))
      ensures base.calls == old(base.calls) + ResizeCalls(Bound(base.listeners, "resize")) +
        RedrawCalls(base.hasRedraw)
    {
      var before := text[..cursorPosition];
      var after := text[cursorPosition..];
      text := before + input + after;
      cursorPosition := cursorPosition + |input|;
      UpdateBounds(measure);
      if base.hasRedraw {
        base.calls := base.calls + [RequestRedraw];
      }
    }

    /** `handleBackspace`: the box is resized and a redraw requested only
        when something changed. */
    method HandleBackspace(measure: string -> Vec2)
      requires Valid()
      modifies this`text, this`cursorPosition, base`bounds, base`position, base`calls
      ensures Valid() && State() == Backspace(old(State()))
      ensures base.position == old(base.position)
      ensures base.bounds == if old(cursorPosition) > 0
        then TextBounds(base.position, measure(text)) else old(base.bounds)
      ensures base.calls == old(base.calls) +
        (if old(cursorPosition) > 0
         then ResizeCalls(Bound(base.listeners, "resize")) + RedrawCalls(base.hasRedraw)
         else [])
    {
      if cursorPosition > 0 {
        var before := text[..cursorPosition - 1];
        var after := text[cursorPosition..];
        text := before + after;
        cursorPosition := cursorPosition - 1;
        UpdateBounds(measure);
        if base.hasRedraw {
          base.calls := base.calls + [RequestRedraw];
        }
      }
    }

    /** `handleDelete`: the box is resized and a redraw requested only
        when something changed. */
    method HandleDelete(measure: string -> Vec2)
      requires Valid()
      modifies this`text, base`bounds, base`position, base`calls
      ensures Valid() && State() == Delete(old(State()))
      ensures base.position == old(base.position)
      ensures base.bounds == if old(cursorPosition) < |old(text)|
        then TextBounds(base.position, measure(text)) else old(base.bounds)
      ensures base.calls == old(base.calls) +
        (if old(cursorPosition) < |old(text)|
         then ResizeCalls(Bound(base.listeners, "resize")) + RedrawCalls(base.hasRedraw)
         else [])
    {
      if cursorPosition < |text| {
        var before := text[..cursorPosition];
        var after := text[cursorPosition + 1..];
        text := before + after;
        UpdateBounds(measure);
        if base.hasRedraw {
          base.calls := base.calls + [RequestRedraw];
        }
      }
    }

    /** `handleArrowLeft`. */
    method HandleArrowLeft()
      requires Valid()
      modifies this`cursorPosition, base`calls
      ensures Valid() && State() == ArrowLeft(old(State()))
      ensures base.calls == old(base.calls) +
        (if old(cursorPosition) > 0 then RedrawCalls(base.hasRedraw) else [])
    {
      if cursorPosition > 0 {
        cursorPosition := cursorPosition - 1;
        if base.hasRedraw {
          base.calls := base.calls + [RequestRedraw];
        }
      }
    }

    /** `handleArrowRight`. */
    method HandleArrowRight()
      requires Valid()
      modifies this`cursorPosition, base`calls
      ensures Valid() && State() == ArrowRight(old(State()))
      ensures base.calls == old(base.calls) +
        (if old(cursorPosition) < |text| then RedrawCalls(base.hasRedraw) else [])
    {
      if cursorPosition < |text| {
        cursorPosition := cursorPosition + 1;
        if base.hasRedraw {
          base.calls := base.calls + [RequestRedraw];
        }
      }
    }

    /** `destroy`: takes the blink animation off the manager's list; nothing
        else is removed, and when the list held it once it holds it no more. */
    method Destroy(mgr: AnimationManager)
      modifies mgr
      ensures mgr.animations == RemoveFirst(old(mgr.animations), blink)
      ensures Distinct(old(mgr.animations)) ==>
        Distinct(mgr.animations) && blink !in mgr.animations
    {
      if Distinct(mgr.animations) {
        RemoveFirstDistinct(mgr.animations, blink);
      }
      mgr.RemoveAnimation(blink);
    }
  }
}
