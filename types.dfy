/** The vector and alignment types shared by every component (types.ts is not
    part of this model; these are the shapes the components use). */
module Types {

  /** A point or a size `[x, y]`. */
  datatype Vec2 = Vec2(x: real, y: real)

  /** Bounds `[left, top, width, height]`. */
  datatype Vec4 = Vec4(left: real, top: real, width: real, height: real)

  /** The nine anchor points of `AlignmentPoint`, plus `NONE`. */
  datatype AlignmentPoint =
    | NoAlignment
    | TopLeft | TopCenter | TopRight
    | MiddleLeft | MiddleCenter | MiddleRight
    | BottomLeft | BottomCenter | BottomRight

  function Min(a: real, b: real): real { if a <= b then a else b }

  function Max(a: real, b: real): real { if a >= b then a else b }

  /** `Math.max(lo, Math.min(hi, v))`, the clamp every component writes out. */
  function Clamp(v: real, lo: real, hi: real): (r: real)
    ensures lo <= hi ==> lo <= r <= hi
    ensures lo <= v <= hi ==> r == v
    ensures v <= lo ==> r == lo
    ensures lo <= hi && hi <= v ==> r == hi
  {
    Max(lo, Min(hi, v))
  }

  /** The product of two non-negative reals is non-negative. */
  lemma MulNonNegative(x: real, y: real)
    requires 0.0 <= x && 0.0 <= y
    ensures 0.0 <= x * y
  {
  }

  /** Closed-interval containment `x >= left && x <= left + width`, likewise for y. */
  predicate Contains(b: Vec4, p: Vec2)
  {
    b.left <= p.x <= b.left + b.width && b.top <= p.y <= b.top + b.height
  }

  /** Overlap of two closed rectangles. */
  predicate Intersects(a: Vec4, b: Vec4)
  {
    a.left <= b.left + b.width && b.left <= a.left + a.width &&
    a.top <= b.top + b.height && b.top <= a.top + a.height
  }
}
