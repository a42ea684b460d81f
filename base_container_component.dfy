/** BaseContainerComponent: a component holding an ordered list of children,
    laid out in a row or a column with an accumulating offset, and kept in
    step with the container's spatial index. */
module Containers {
  import opened Wrappers
  import opened Types
  import opened UiUtils
  import opened Collections
  import opened BaseComponent
  import opened SpatialIndex

  /** The running `offset` of `updateLayout` before child `i`: it starts at
      `padding` and grows by each child's extent plus `spacing`. */
  function OffsetAt(sizes: seq<real>, padding: real, spacing: real, i: nat): real
    requires i <= |sizes|
  {
    if i == 0 then padding else OffsetAt(sizes, padding, spacing, i - 1) + sizes[i - 1] + spacing
  }

  /** With non-negative extents and spacing, a child ends at least `spacing`
      before any later child starts: the layout never overlaps. */
  lemma {:induction false} OffsetsSeparate(sizes: seq<real>, padding: real, spacing: real, i: nat, j: nat)
    requires i < j <= |sizes| && spacing >= 0.0
    requires forall k :: 0 <= k < |sizes| ==> sizes[k] >= 0.0
    ensures OffsetAt(sizes, padding, spacing, i) + sizes[i] + spacing <= OffsetAt(sizes, padding, spacing, j)
    decreases j
  {
    if j > i + 1 {
      OffsetsSeparate(sizes, padding, spacing, i, j - 1);
    }
  }

  /** The position `updateLayout` gives child `i`: the second coordinate
      sits `padding` in; along the layout axis it is `padding` plus the
      running offset in from the container's position. */
  function Slot(origin: Vec2, horizontal: bool, padding: real, spacing: real, sizes: seq<real>, i: nat): (r: Vec2)
    requires i < |sizes|
    ensures horizontal ==> r.y == origin.y + padding
    ensures !horizontal ==> r.x == origin.x + padding
  {
    var off := OffsetAt(sizes, padding, spacing, i);
    if horizontal then Vec2(origin.x + padding + off, origin.y + padding)
    else Vec2(origin.x + padding, origin.y + padding + off)
  }

  /** `calculateAlignmentOffset`: where a child of bounds `child` sits
      relative to the container's origin for each anchor. */
  function AlignmentOffset(point: AlignmentPoint, container: Vec4, child: Vec4): Vec2
  {
    var dx, dy := container.width - child.width, container.height - child.height;
    match point
    case TopLeft => Vec2(0.0, 0.0)
    case TopCenter => Vec2(dx / 2.0, 0.0)
    case TopRight => Vec2(dx, 0.0)
    case MiddleLeft => Vec2(0.0, dy / 2.0)
    case MiddleCenter => Vec2(dx / 2.0, dy / 2.0)
    case MiddleRight => Vec2(dx, dy / 2.0)
    case BottomLeft => Vec2(0.0, dy)
    case BottomCenter => Vec2(dx / 2.0, dy)
    case BottomRight => Vec2(dx, dy)
    case NoAlignment => Vec2(0.0, 0.0)
  }

  /** A child placed at the offset touches the container's left (top) edge,
      is centred, or touches its right (bottom) edge, according to the
      anchor's column (row); an unknown anchor keeps the origin. */
  lemma AlignmentOffsetPlaces(point: AlignmentPoint, c: Vec4, child: Vec4)
    ensures var o := AlignmentOffset(point, c, child);
      && (point in {TopLeft, MiddleLeft, BottomLeft, NoAlignment} ==> o.x == 0.0)
      && (point in {TopCenter, MiddleCenter, BottomCenter} ==> o.x == c.width - (o.x + child.width))
      && (point in {TopRight, MiddleRight, BottomRight} ==> o.x + child.width == c.width)
      && (point in {TopLeft, TopCenter, TopRight, NoAlignment} ==> o.y == 0.0)
      && (point in {MiddleLeft, MiddleCenter, MiddleRight} ==> o.y == c.height - (o.y + child.height))
      && (point in {BottomLeft, BottomCenter, BottomRight} ==> o.y + child.height == c.height)
  {
  }

  /** The width (row layout) or height (column layout) of each child. */
  function Extents(cs: seq<BaseUIComponent>, horizontal: bool): (r: seq<real>)
    reads (set i | 0 <= i < |cs| :: cs[i])`bounds
    ensures |r| == |cs|
    ensures forall i :: 0 <= i < |cs| ==>
      r[i] == if horizontal then cs[i].bounds.width else cs[i].bounds.height
  {
    if cs == [] then []
    else
      var last := cs[|cs| - 1];
      Extents(cs[..|cs| - 1], horizontal) + [if horizontal then last.bounds.width else last.bounds.height]
  }

  /** What moving a component appends to its calls: its resize listeners,
      in the order they were added. */
  function MovedCalls(c: BaseUIComponent): seq<Call>
    reads c`listeners
  {
    ResizeCalls(Bound(c.listeners, "resize"))
  }

  /** One child of a layout in progress: it keeps the extents of `b`;
      once `done` it sits at `slot` and has had its resize listeners run
      once since its calls were `c0`, and until then its calls are `c0`. */
  ghost predicate ChildAt(c: BaseUIComponent, done: bool, b: Vec4, slot: Vec2, c0: seq<Call>)
    reads c`bounds, c`position, c`calls, c`listeners
  {
    && c.bounds.width == b.width && c.bounds.height == b.height
    && (done ==> c.position == slot && c.bounds.left == slot.x && c.bounds.top == slot.y &&
                 c.calls == c0 + MovedCalls(c))
    && (!done ==> c.calls == c0)
  }

  class BaseContainerComponent {
    const base: BaseUIComponent
    var components: seq<BaseUIComponent>
    var tree: QuadTree
    const isHorizontal: bool
    const padding: real
    const spacing: real
    const boundsExplicitlySet: bool

    function Children(): set<BaseUIComponent>
      reads this`components
    {
      set i | 0 <= i < |components| :: components[i]
    }

    /** Each child once, and never the container itself. */
    ghost predicate Valid()
      reads this`components
    {
      Distinct(components) && base !in components
    }

    /** The extent of each child along the layout axis. */
    function Sizes(): (r: seq<real>)
      reads this`components, Children()`bounds
      ensures |r| == |components|
      ensures forall i :: 0 <= i < |components| ==>
        r[i] == if isHorizontal then components[i].bounds.width else components[i].bounds.height
    {
      Extents(components, isHorizontal)
    }

    /** Every child sits in its slot of the linear layout. */
    ghost predicate LaidOut()
      reads this`components, base`position, Children()`bounds, Children()`position
    {
      var sizes := Sizes();
      forall i :: 0 <= i < |components| ==>
        components[i].position == Slot(base.position, isHorizontal, padding, spacing, sizes, i)
    }

    constructor (config: Config, initial: ObjState, horizontal: Option<bool>, pad: Option<real>,
                 space: Option<real>, canvas: Vec2)
      ensures fresh(base) && fresh(tree) && components == [] && tree.elements == []
      ensures tree.boundary == Vec4(0.0, 0.0, canvas.x, canvas.y)
      ensures isHorizontal == horizontal.Or(true)
      ensures padding == pad.Or(20.0) && spacing == space.Or(20.0)
      ensures boundsExplicitlySet == config.bounds.Some?
      ensures config.bounds.Some? ==>
        base.bounds == config.bounds.value &&
        base.position == Vec2(config.bounds.value.left, config.bounds.value.top)
      ensures Valid()
    {
      base := new BaseUIComponent(config, initial);
      components := [];
      tree := new QuadTree(Vec4(0.0, 0.0, canvas.x, canvas.y));
      isHorizontal := horizontal.Or(true);
      padding := pad.Or(20.0);
      spacing := space.Or(20.0);
      boundsExplicitlySet := config.bounds.Some?;
      new;
      if config.bounds.Some? {
        base.position := Vec2(config.bounds.value.left, config.bounds.value.top);
      }
    }

    /** The first `n` children are laid out: each sits in its slot for
        `sizes` and has had its resize listeners run once since its calls
        were `c0`; the others are untouched; every child keeps the extents
        recorded in `b0`. */
    ghost predicate PlacedUpTo(n: nat, b0: seq<Vec4>, sizes: seq<real>, c0: seq<seq<Call>>)
      reads this`components, base`position, Children()`bounds, Children()`position,
        Children()`calls, Children()`listeners
    {
      && n <= |components| == |b0| == |sizes| == |c0|
      && forall k :: 0 <= k < |components| ==>
           ChildAt(components[k], k < n, b0[k], Slot(base.position, isHorizontal, padding, spacing, sizes, k),
                   c0[k])
    }

    /** `updateLayout`: moves each child, in order, to its slot; sizes are
        kept and each child's resize listeners run once. */
    method UpdateLayout()
      requires Valid()
      modifies Children()`position, Children()`bounds, Children()`calls
      ensures LaidOut()
      ensures forall i :: 0 <= i < |components| ==>
        components[i].bounds == Vec4(components[i].position.x, components[i].position.y,
                                     old(components[i].bounds.width), old(components[i].bounds.height))
      ensures forall i :: 0 <= i < |components| ==>
        components[i].calls == old(components[i].calls) + MovedCalls(components[i])
    {
      ghost var b0 := seq(|components|, k reads this, Children() requires 0 <= k < |components| =>
        components[k].bounds);
      ghost var c0 := seq(|components|, k reads this, Children() requires 0 <= k < |components| =>
        components[k].calls);
      ghost var sizes := seq(|b0|, k requires 0 <= k < |b0| =>
        if isHorizontal then b0[k].width else b0[k].height);
      PlaceAll(b0, sizes, c0);
      PlacedAllLaidOut(b0, sizes, c0);
    }

    /** The loop of `updateLayout`, from the first child to the last. */
    method PlaceAll(ghost b0: seq<Vec4>, ghost sizes: seq<real>, ghost c0: seq<seq<Call>>)
      requires Valid() && PlacedUpTo(0, b0, sizes, c0)
      requires forall k :: 0 <= k < |b0| ==> sizes[k] == if isHorizontal then b0[k].width else b0[k].height
      modifies Children()`position, Children()`bounds, Children()`calls
      ensures PlacedUpTo(|components|, b0, sizes, c0)
    {
      var offset := padding;
      var i := 0;
      while i < |components|
        invariant 0 <= i <= |components|
        invariant offset == OffsetAt(sizes, padding, spacing, i)
        invariant PlacedUpTo(i, b0, sizes, c0)
      {
        offset := PlaceChild(i, offset, b0, sizes, c0);
        i := i + 1;
      }
    }

    /** Once every child is placed with the extents it had, the container
        is laid out. */
    lemma PlacedAllLaidOut(b0: seq<Vec4>, sizes: seq<real>, c0: seq<seq<Call>>)
      requires PlacedUpTo(|components|, b0, sizes, c0)
      requires forall k :: 0 <= k < |b0| ==> sizes[k] == if isHorizontal then b0[k].width else b0[k].height
      ensures LaidOut()
    {
      assert sizes == Sizes();
    }

    /** One turn of `updateLayout`: child `i` goes to the running offset,
        which then grows by its extent and `spacing`. */
    method PlaceChild(i: nat, offset: real, ghost b0: seq<Vec4>, ghost sizes: seq<real>,
                      ghost c0: seq<seq<Call>>)
      returns (next: real)
      requires Valid() && i < |components| && PlacedUpTo(i, b0, sizes, c0)
      requires forall k :: 0 <= k < |b0| ==> sizes[k] == if isHorizontal then b0[k].width else b0[k].height
      requires offset == OffsetAt(sizes, padding, spacing, i)
      modifies Children()`position, Children()`bounds, Children()`calls
      ensures PlacedUpTo(i + 1, b0, sizes, c0)
      ensures next == OffsetAt(sizes, padding, spacing, i + 1)
    {
      var c := components[i];
      var p := if isHorizontal then Vec2(base.position.x + padding + offset, base.position.y + padding)
               else Vec2(base.position.x + padding, base.position.y + padding + offset);
      assert p == Slot(base.position, isHorizontal, padding, spacing, sizes, i);
      c.SetPosition(p);
      next := offset + (if isHorizontal then c.bounds.width else c.bounds.height) + spacing;
      forall k | 0 <= k < |components| && k != i
        ensures ChildAt(components[k], k < i + 1, b0[k], Slot(base.position, isHorizontal, padding, spacing, sizes, k),
                        c0[k])
      {
        assert components[k] != c;
      }
    }

    /** `addComponent`: the child is fitted into the container's bounds,
        appended and laid out with the others unless the bounds were given
        explicitly, wired to the container's redraw hook and inserted into
        the container's tree. */
    method AddComponent(c: BaseUIComponent)
      requires Valid() && c !in components && c != base
      requires c.bounds.width > 0.0 && c.bounds.height > 0.0
      modifies c`bounds, c`position, c`calls, c`scale, c`hasRedraw, this`components, tree`elements,
        Children()`position, Children()`bounds, Children()`calls
      ensures Valid()
      ensures components == old(components) + [c]
      ensures tree.elements == old(tree.elements) + [c]
      ensures c.scale == FitScale(old(c.bounds), base.bounds) && c.hasRedraw == base.hasRedraw
      ensures var f := FittedBounds(old(c.bounds), base.bounds);
        c.bounds.width == f.width && c.bounds.height == f.height
      ensures boundsExplicitlySet ==> c.bounds == FittedBounds(old(c.bounds), base.bounds)
      ensures boundsExplicitlySet ==> c.position == Vec2(c.bounds.left, c.bounds.top)
      ensures boundsExplicitlySet ==> forall k :: 0 <= k < |old(components)| ==>
        components[k].position == old(components[k].position) &&
        components[k].bounds == old(components[k].bounds)
      ensures !boundsExplicitlySet ==> LaidOut()
      ensures c.calls == old(c.calls) + MovedCalls(c) + MovedCalls(c) +
        (if boundsExplicitlySet then [] else MovedCalls(c))
      ensures forall k :: 0 <= k < |old(components)| ==>
        components[k].calls == old(components[k].calls) +
          (if boundsExplicitlySet then [] else MovedCalls(components[k]))
    {
      ghost var r := MovedCalls(c);
      c.FitBounds(base.bounds);
      assert c.calls == old(c.calls) + r + r;
      // The redraw hook and the tree insertion neither read nor write what
      // the layout uses, so they are done before the layout rather than after it.
      c.hasRedraw := base.hasRedraw;
      tree.Insert(c);
      AppendChild(c);
    }

    /** The `push` and the conditional `updateLayout` of `addComponent`. */
    method AppendChild(c: BaseUIComponent)
      requires Valid() && c !in components && c != base
      modifies this`components, c`position, c`bounds, c`calls,
        Children()`position, Children()`bounds, Children()`calls
      ensures Valid() && components == old(components) + [c]
      ensures c.bounds.width == old(c.bounds.width) && c.bounds.height == old(c.bounds.height)
      ensures boundsExplicitlySet ==> c.bounds == old(c.bounds) && c.position == old(c.position)
      ensures boundsExplicitlySet ==> forall k :: 0 <= k < |old(components)| ==>
        components[k].position == old(components[k].position) &&
        components[k].bounds == old(components[k].bounds)
      ensures !boundsExplicitlySet ==> LaidOut()
      ensures c.calls == old(c.calls) + (if boundsExplicitlySet then [] else MovedCalls(c))
      ensures forall k :: 0 <= k < |old(components)| ==>
        components[k].calls == old(components[k].calls) +
          (if boundsExplicitlySet then [] else MovedCalls(components[k]))
    {
      components := components + [c];
      if !boundsExplicitlySet {
        UpdateLayout();
        assert components[|components| - 1] == c;
      }
    }

    /** `removeComponent`: an absent child changes nothing; otherwise its
        first occurrence leaves both the list and the tree, and the rest are
        laid out again unless the bounds were given explicitly. */
    method RemoveComponent(c: BaseUIComponent)
      requires Valid()
      modifies this`components, tree`elements, Children()`position, Children()`bounds, Children()`calls
      ensures Valid()
      ensures c !in old(components) ==>
        components == old(components) && tree.elements == old(tree.elements) && unchanged(Children())
      ensures c in old(components) ==>
        components == RemoveFirst(old(components), c) &&
        tree.elements == RemoveFirst(old(tree.elements), c)
      ensures c in old(components) && !boundsExplicitlySet ==> LaidOut()
      ensures c in old(components) && !boundsExplicitlySet ==>
        var cs := components;
        forall k :: 0 <= k < |cs| ==> cs[k].calls == old(cs[k].calls) + MovedCalls(cs[k])
      ensures c.calls == old(c.calls)
      ensures boundsExplicitlySet ==> unchanged(old(Children()))
    {
      var index := IndexOf(components, c);
      if index > -1 {
        RemoveFirstDistinct(components, c);
        components := RemoveFirst(components, c);
        tree.Remove(c);
        if !boundsExplicitlySet {
          UpdateLayout();
        }
      }
    }

    /** `setPosition` of a container: moves it, then lays the children out
        again unless the bounds were given explicitly. */
    method SetPosition(p: Vec2)
      requires Valid()
      modifies base`position, base`bounds, base`calls,
        Children()`position, Children()`bounds, Children()`calls
      ensures base.position == p
      ensures base.bounds == Vec4(p.x, p.y, old(base.bounds).width, old(base.bounds).height)
      ensures base.calls == old(base.calls) + MovedCalls(base)
      ensures !boundsExplicitlySet ==> LaidOut()
      ensures !boundsExplicitlySet ==> forall k :: 0 <= k < |components| ==>
        components[k].calls == old(components[k].calls) + MovedCalls(components[k])
      ensures boundsExplicitlySet ==> unchanged(Children())
    {
      base.SetPosition(p);
      if !boundsExplicitlySet {
        UpdateLayout();
      }
    }

    /** The `quadTree` setter: every child goes into the new tree and takes
        the container's redraw hook, every element leaves the old tree, and
        the new tree is adopted. Handing a container its own tree therefore
        leaves that tree empty. */
    method SetQuadTree(q: QuadTree)
      requires Valid()
      modifies q`elements, tree`elements, this`tree, Children()`hasRedraw
      ensures tree == q
      ensures q != old(tree) ==>
        q.elements == old(q.elements) + components && old(tree).elements == []
      ensures q == old(tree) ==> q.elements == []
      ensures forall k :: 0 <= k < |components| ==> components[k].hasRedraw == base.hasRedraw
    {
      var i := 0;
      while i < |components|
        invariant 0 <= i <= |components|
        invariant tree == old(tree) && q.elements == old(q.elements) + components[..i]
        invariant q != tree ==> tree.elements == old(tree.elements)
        invariant forall k :: 0 <= k < i ==> components[k].hasRedraw == base.hasRedraw
      {
        q.Insert(components[i]);
        components[i].hasRedraw := base.hasRedraw;
        i := i + 1;
      }
      assert components[..i] == components;
      EmptyTree();
      tree := q;
    }

    /** `this._quadTree.getAllElements().forEach((child) => this._quadTree.remove(child))`. */
    method EmptyTree()
      modifies tree`elements
      ensures tree.elements == []
    {
      var all := tree.GetAllElements();
      var j := 0;
      while j < |all|
        invariant 0 <= j <= |all|
        invariant multiset(tree.elements) == multiset(all[j..])
      {
        assert all[j] in multiset(all[j..]);
        assert all[j..] == [all[j]] + all[j + 1..];
        tree.Remove(all[j]);
        j := j + 1;
      }
      assert |multiset(tree.elements)| == 0;
    }
  }
}
