/** The animation scheduler as the components see it. animationmanager.ts is
    not part of this model: its active list is a sequence that only receives
    appends and removals, and stepping an animation is left out. */
module Animations {
  import opened Wrappers
  import opened UiUtils
  import opened Collections

  /** The constructor arguments of an `Animation`: target, property, from,
      to, duration, bounce flag, the seventh flag (the toggle flag of an
      effect, the loop flag of the cursor blink) and the completion callback. */
  datatype AnimSpec = AnimSpec(
    target: JsObject,
    property: string,
    from: Value,
    to: Value,
    duration: Option<real>,
    isBounce: bool,
    isToggle: bool,
    onComplete: Option<Callback>)

  /** A running animation, identified by reference. */
  class Animation {
    const spec: AnimSpec

    constructor (s: AnimSpec)
      ensures spec == s
    {
      spec := s;
    }
  }

  /** The specifications of a list of animations, in order. */
  function Specs(s: seq<Animation>): seq<AnimSpec>
  {
    if s == [] then [] else Specs(s[..|s| - 1]) + [s[|s| - 1].spec]
  }

  lemma {:induction false} SpecsAppend(s: seq<Animation>, t: seq<Animation>)
    ensures Specs(s + t) == Specs(s) + Specs(t)
    decreases |t|
  {
    if t == [] {
      assert s + t == s;
    } else {
      assert (s + t)[..|s + t| - 1] == s + t[..|t| - 1];
      SpecsAppend(s, t[..|t| - 1]);
    }
  }

  class AnimationManager {
    var animations: seq<Animation>

    constructor ()
      ensures animations == []
    {
      animations := [];
    }

    /** `addAnimation`: appends; no merging with a running animation of the same property. */
    method AddAnimation(a: Animation)
      modifies this
      ensures animations == old(animations) + [a]
    {
      animations := animations + [a];
    }

    /** `removeAnimation`: drops the animation by reference; absent means no change. */
    method RemoveAnimation(a: Animation)
      modifies this
      ensures animations == RemoveFirst(old(animations), a)
    {
      animations := RemoveFirst(animations, a);
    }
  }
}
