/** The spatial index the kit and its containers query. quadtree.ts is not
    part of this model: the index is the list of inserted components, and a
    point query returns the inserted components whose bounds contain the
    point, in insertion order. */
module SpatialIndex {
  import opened Types
  import opened Collections
  import opened BaseComponent

  /** The components of `cs` whose bounds contain `p` (closed), in order. */
  function Hits(cs: seq<BaseUIComponent>, p: Vec2): (r: seq<BaseUIComponent>)
    reads set i | 0 <= i < |cs| :: cs[i]
    ensures |r| <= |cs|
    ensures forall i :: 0 <= i < |r| ==> r[i] in cs && Contains(r[i].bounds, p)
    ensures forall i :: 0 <= i < |cs| && Contains(cs[i].bounds, p) ==> cs[i] in r
  {
    if cs == [] then []
    else
      var rest := Hits(cs[..|cs| - 1], p);
      var last := cs[|cs| - 1];
      assert cs == cs[..|cs| - 1] + [last];
      if Contains(last.bounds, p) then rest + [last] else rest
  }

  /** The components of `cs` whose bounds meet the rectangle `q`, in order. */
  function Overlapping(cs: seq<BaseUIComponent>, q: Vec4): (r: seq<BaseUIComponent>)
    reads set i | 0 <= i < |cs| :: cs[i]
    ensures |r| <= |cs|
    ensures forall i :: 0 <= i < |r| ==> r[i] in cs && Intersects(r[i].bounds, q)
    ensures forall i :: 0 <= i < |cs| && Intersects(cs[i].bounds, q) ==> cs[i] in r
  {
    if cs == [] then []
    else
      var rest := Overlapping(cs[..|cs| - 1], q);
      var last := cs[|cs| - 1];
      assert cs == cs[..|cs| - 1] + [last];
      if Intersects(last.bounds, q) then rest + [last] else rest
  }

  class QuadTree {
    var boundary: Vec4
    var elements: seq<BaseUIComponent>

    constructor (b: Vec4)
      ensures boundary == b && elements == []
    {
      boundary := b;
      elements := [];
    }

    /** `insert`. */
    method Insert(c: BaseUIComponent)
      modifies this`elements
      ensures elements == old(elements) + [c]
    {
      elements := elements + [c];
    }

    /** `remove`: the first occurrence, if any. */
    method Remove(c: BaseUIComponent)
      modifies this`elements
      ensures elements == RemoveFirst(old(elements), c)
    {
      elements := RemoveFirst(elements, c);
    }

    /** `updateBoundary`: the same elements under a new boundary. */
    method UpdateBoundary(b: Vec4)
      modifies this`boundary
      ensures boundary == b
    {
      boundary := b;
    }

    /** `getAllElements`. */
    function GetAllElements(): seq<BaseUIComponent>
      reads this
    {
      elements
    }

    /** `queryPoint`. */
    function QueryPoint(p: Vec2): seq<BaseUIComponent>
      reads this, set i | 0 <= i < |elements| :: elements[i]
    {
      Hits(elements, p)
    }

    /** `query(rectangle)`. */
    function Query(q: Vec4): seq<BaseUIComponent>
      reads this, set i | 0 <= i < |elements| :: elements[i]
    {
      Overlapping(elements, q)
    }
  }
}
