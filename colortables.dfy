/** ColorTables: the named colormaps and the colour lookup tables built from
    them. A lookup table is a `Uint8ClampedArray` of RGBA bytes, four per
    table entry (a texel); every number stored into it is clamped to
    [0, 255] and rounded, and NaN is stored as 0. */
module Colortables {
  import opened Wrappers
  import opened Collections
  import opened BaseComponent

  type Byte = x: int | 0 <= x < 256

  /** A colour control point list as a colormap file gives it. The colour
      channels are integers; `A` and `I` may be absent, and the code
      supplies defaults for them. */
  datatype ColorMap = ColorMap(
    R: seq<int>, G: seq<int>, B: seq<int>,
    A: Option<seq<int>>, I: Option<seq<int>>,
    min: Option<int>, max: Option<int>,
    labels: Option<seq<string>>)

  /** A lookup table with the index range it covers and its labels. */
  datatype Lut = Lut(lut: seq<Byte>, min: Option<int>, max: Option<int>,
                     labels: Option<seq<string>>)

  datatype Texel = Texel(r: Byte, g: Byte, b: Byte, a: Byte)

  /** Round half to even, the rounding of a `Uint8ClampedArray` store. */
  function RoundHalfEven(x: real): (n: int)
    ensures x - 0.5 <= n as real <= x + 0.5
    ensures x == x.Floor as real ==> n == x.Floor
  {
    var f := x.Floor;
    var d := x - f as real;
    if d < 0.5 then f else if d > 0.5 then f + 1 else if f % 2 == 0 then f else f + 1
  }

  /** A number stored into a `Uint8ClampedArray`, `None` standing for NaN. */
  function ClampedByte(v: Option<real>): (b: Byte)
    ensures v.None? ==> b == 0
    ensures v.Some? && v.value <= 0.0 ==> b == 0
    ensures v.Some? && v.value >= 255.0 ==> b == 255
    ensures v.Some? && 0.0 <= v.value <= 255.0 ==> v.value - 0.5 <= b as real <= v.value + 0.5
  {
    if v.None? || v.value <= 0.0 then 0
    else if v.value >= 255.0 then 255
    else RoundHalfEven(v.value)
  }

  /** An integer stored into a `Uint8ClampedArray`. */
  function ByteOf(x: int): (b: Byte)
    ensures 0 <= x <= 255 ==> b == x
    ensures x < 0 ==> b == 0
    ensures x > 255 ==> b == 255
  {
    if x < 0 then 0 else if x > 255 then 255 else x
  }

  /** Storing an integer is storing the same number as a real. */
  lemma ByteOfIsClamped(x: int)
    ensures ByteOf(x) == ClampedByte(Some(x as real))
  {
  }

  /** `Uint8ClampedArray.from(s)`. */
  function ClampedBytes(s: seq<int>): (r: seq<Byte>)
    ensures |r| == |s| && forall k :: 0 <= k < |s| ==> r[k] == ByteOf(s[k])
  {
    seq(|s|, k requires 0 <= k < |s| => ByteOf(s[k]))
  }

  /** Clamping leaves bytes as they are. */
  lemma ClampedBytesOfBytes(s: seq<int>)
    requires forall k | 0 <= k < |s| :: 0 <= s[k] < 256
    ensures ClampedBytes(s) == s
  {
  }

  /** Channel `c` (0 red, 1 green, 2 blue, 3 alpha) of a texel. */
  function Channel(t: Texel, c: int): Byte
    requires 0 <= c < 4
  {
    if c == 0 then t.r else if c == 1 then t.g else if c == 2 then t.b else t.a
  }

  /** The four writes `lut[k++] = …` of one texel at `slot`. */
  function WriteTexel(lut: seq<Byte>, slot: int, t: Texel): (r: seq<Byte>)
    requires 0 <= slot && 4 * slot + 4 <= |lut|
    ensures |r| == |lut|
  {
    lut[4 * slot := t.r][4 * slot + 1 := t.g][4 * slot + 2 := t.b][4 * slot + 3 := t.a]
  }

  /** A texel write changes exactly the four bytes of its slot. */
  lemma WriteTexelAt(lut: seq<Byte>, slot: int, t: Texel, p: int)
    requires 0 <= slot && 4 * slot + 4 <= |lut| && 0 <= p < |lut|
    ensures WriteTexel(lut, slot, t)[p] == if p / 4 == slot then Channel(t, p % 4) else lut[p]
  {
  }

  /** The table after the texels `tex(lo)`, …, `tex(j - 1)` have been
      written over `lut`, in that order. */
  function PaintedUpTo(lut: seq<Byte>, tex: int -> Texel, lo: Byte, j: int): (r: seq<Byte>)
    requires |lut| == 1024 && lo <= j <= 256
    ensures |r| == 1024
    decreases j - lo
  {
    if j == lo then lut else WriteTexel(PaintedUpTo(lut, tex, lo, j - 1), j - 1, tex(j - 1))
  }

  /** Every byte of a slot from `lo` up to `j` holds that slot's texel; the
      other bytes are untouched. */
  lemma {:induction false} PaintedUpToAt(lut: seq<Byte>, tex: int -> Texel, lo: Byte, j: int,
                                         p: int)
    requires |lut| == 1024 && lo <= j <= 256 && 0 <= p < 1024
    ensures PaintedUpTo(lut, tex, lo, j)[p] ==
      if lo <= p / 4 < j then Channel(tex(p / 4), p % 4) else lut[p]
    decreases j - lo
  {
    if j > lo {
      PaintedUpToAt(lut, tex, lo, j - 1, p);
      WriteTexelAt(PaintedUpTo(lut, tex, lo, j - 1), j - 1, tex(j - 1), p);
    }
  }

  /** `X[i] + f * (X[i + 1] - X[i])` with `f = (j - lo) / (hi - lo)`, or
      `None` (NaN) when a control value is missing or the segment is a
      single index, where `f` is `0 / 0`. */
  function Lerped(xs: seq<int>, i: nat, j: int, lo: int, hi: int): (v: Option<real>)
    ensures v.Some? <==> i + 1 < |xs| && hi != lo
    ensures v.Some? && j == lo ==> v.value == xs[i] as real
    ensures v.Some? && j == hi ==> v.value == xs[i + 1] as real
  {
    if i + 1 >= |xs| || hi == lo then None
    else
      var f := (j - lo) as real / (hi - lo) as real;
      if j == hi then
        assert f == 1.0;
        Some(xs[i] as real + f * (xs[i + 1] - xs[i]) as real)
      else Some(xs[i] as real + f * (xs[i + 1] - xs[i]) as real)
  }

  /** The texel segment `i` writes at index `j` between its control points
      at `lo` and `hi`. */
  function SegmentTexel(R: seq<int>, G: seq<int>, B: seq<int>, As: seq<int>, i: nat, j: int,
                        lo: int, hi: int): Texel
  {
    Texel(ClampedByte(Lerped(R, i, j, lo, hi)), ClampedByte(Lerped(G, i, j, lo, hi)),
          ClampedByte(Lerped(B, i, j, lo, hi)), ClampedByte(Lerped(As, i, j, lo, hi)))
  }

  /** The colour of control point `i`, clamped. */
  function ControlTexel(R: seq<int>, G: seq<int>, B: seq<int>, As: seq<int>, i: nat): Texel
    requires i < |R| && i < |G| && i < |B| && i < |As|
  {
    Texel(ByteOf(R[i]), ByteOf(G[i]), ByteOf(B[i]), ByteOf(As[i]))
  }

  /** The texels of segment `i`, index by index. */
  function SegmentColours(R: seq<int>, G: seq<int>, B: seq<int>, As: seq<int>, i: nat, lo: int,
                          hi: int): int -> Texel
  {
    j => SegmentTexel(R, G, B, As, i, j, lo, hi)
  }

  /** The texels of every segment: `SegmentTexels(R, G, B, As)(i, lo, hi)`
      is segment `i` running from index `lo` to index `hi`. */
  function SegmentTexels(R: seq<int>, G: seq<int>, B: seq<int>, As: seq<int>)
    : (nat, int, int) -> int -> Texel
  {
    (i: nat, lo: int, hi: int) => SegmentColours(R, G, B, As, i, lo, hi)
  }

  /** The clamped colour of every control point (transparent black past the
      end of the lists). */
  function ControlTexels(R: seq<int>, G: seq<int>, B: seq<int>, As: seq<int>): nat -> Texel
  {
    (i: nat) => if i < |R| && i < |G| && i < |B| && i < |As| then ControlTexel(R, G, B, As, i)
                else Texel(0, 0, 0, 0)
  }

  /** The table after the texels `tex(lo)`, …, `tex(hi)` have been written
      over `lut`, in that order. */
  function PaintSegment(lut: seq<Byte>, tex: int -> Texel, lo: Byte, hi: Byte): (r: seq<Byte>)
    requires |lut| == 1024
    ensures |r| == 1024
  {
    if lo <= hi then PaintedUpTo(lut, tex, lo, hi + 1) else lut
  }

  /** A segment writes `tex(j)` at every index `j` from `lo` to `hi`, and
      nothing elsewhere. */
  lemma PaintSegmentAt(lut: seq<Byte>, tex: int -> Texel, lo: Byte, hi: Byte, p: int)
    requires |lut| == 1024 && 0 <= p < 1024
    ensures lo <= p / 4 <= hi ==> PaintSegment(lut, tex, lo, hi)[p] == Channel(tex(p / 4), p % 4)
    ensures !(lo <= p / 4 <= hi) ==> PaintSegment(lut, tex, lo, hi)[p] == lut[p]
  {
    if lo <= hi {
      PaintedUpToAt(lut, tex, lo, hi + 1, p);
    }
  }

  /** The 1024 bytes after the first `i` segments of `makeLut`, segment
      `k` writing `seg(k, Is[k], Is[k + 1])(j)` at each index `j` from
      `Is[k]` to `Is[k + 1]`; a segment whose end points are missing from
      `Is` writes nothing, as the `j` loop's comparison with `undefined`
      fails. */
  function LutAfter(seg: (nat, int, int) -> int -> Texel, Is: seq<Byte>, i: nat): (r: seq<Byte>)
    ensures |r| == 1024
  {
    if i == 0 then seq(1024, _ => 0)
    else if i < |Is| then PaintSegment(LutAfter(seg, Is, i - 1), seg(i - 1, Is[i - 1], Is[i]), Is[i - 1], Is[i])
    else LutAfter(seg, Is, i - 1)
  }

  /** The alpha and index bytes `makeLut` works from: the given lists
      clamped, or 64 and 0 for every control point. */
  function AlphaBytes(n: nat, A: Option<seq<int>>): seq<Byte>
  {
    ClampedBytes(A.Or(seq(n, _ => 64)))
  }

  function IndexBytes(n: nat, I: Option<seq<int>>): seq<Byte>
  {
    ClampedBytes(I.Or(seq(n, _ => 0)))
  }

  /** The indices strictly increase. */
  predicate Increasing(Is: seq<Byte>)
  {
    forall m, q | 0 <= m < q < |Is| :: Is[m] < Is[q]
  }

  /** What `makeLut` returns (with `gamma` 1). */
  function MakeLutSpec(R: seq<int>, G: seq<int>, B: seq<int>, A: Option<seq<int>>,
                       I: Option<seq<int>>): (r: seq<Byte>)
    ensures |r| == 1024
  {
    LutAfter(SegmentTexels(R, G, B, AlphaBytes(|R|, A)), IndexBytes(|R|, I),
             LastSegment(|R|))
  }

  /** The number of segments `makeLut` paints for `n` control points, one
      between each neighbouring pair. */
  function LastSegment(n: nat): nat
  {
    if n > 0 then n - 1 else 0
  }

  /** At its two ends a segment's texels are the clamped colours of its
      control points. */
  lemma SegmentTexelEnds(R: seq<int>, G: seq<int>, B: seq<int>, As: seq<int>, i: nat, lo: int,
                         hi: int)
    requires lo < hi && i + 1 < |R| && i + 1 < |G| && i + 1 < |B| && i + 1 < |As|
    ensures SegmentTexel(R, G, B, As, i, lo, lo, hi) == ControlTexel(R, G, B, As, i)
    ensures SegmentTexel(R, G, B, As, i, hi, lo, hi) == ControlTexel(R, G, B, As, i + 1)
  {
    forall x: int ensures ByteOf(x) == ClampedByte(Some(x as real)) {
      ByteOfIsClamped(x);
    }
  }

  /** Every segment starts with the colour of its first control point and
      ends with that of its second. */
  predicate SegmentsEndAt(seg: (nat, int, int) -> int -> Texel, ctrl: nat -> Texel, Is: seq<Byte>)
  {
    && (forall i: nat | i + 1 < |Is| :: seg(i, Is[i], Is[i + 1])(Is[i]) == ctrl(i))
    && (forall i: nat | 0 < i < |Is| :: seg(i - 1, Is[i - 1], Is[i])(Is[i]) == ctrl(i))
  }

  /** The interpolated segments of a colormap with a colour and an alpha
      for each index end at their control points' clamped colours. */
  lemma SegmentTexelsEndAt(R: seq<int>, G: seq<int>, B: seq<int>, As: seq<int>, Is: seq<Byte>)
    requires |Is| <= |R| && |Is| <= |G| && |Is| <= |B| && |Is| <= |As|
    requires Increasing(Is)
    ensures SegmentsEndAt(SegmentTexels(R, G, B, As), ControlTexels(R, G, B, As), Is)
  {
    var seg, ctrl := SegmentTexels(R, G, B, As), ControlTexels(R, G, B, As);
    forall i: nat | i + 1 < |Is| ensures seg(i, Is[i], Is[i + 1])(Is[i]) == ctrl(i) {
      SegmentTexelEnds(R, G, B, As, i, Is[i], Is[i + 1]);
    }
    forall i: nat | 0 < i < |Is| ensures seg(i - 1, Is[i - 1], Is[i])(Is[i]) == ctrl(i) {
      SegmentTexelEnds(R, G, B, As, i - 1, Is[i - 1], Is[i]);
    }
  }

  /** With every index at least the first, the bytes below the first index
      stay 0. */
  lemma {:induction false} ZeroBelowFirst(seg: (nat, int, int) -> int -> Texel, Is: seq<Byte>, i: nat, p: int)
    requires 0 < |Is| && forall k | 0 <= k < |Is| :: Is[0] <= Is[k]
    requires 0 <= p < 4 * (Is[0] as int)
    ensures LutAfter(seg, Is, i)[p] == 0
  {
    if i > 0 {
      ZeroBelowFirst(seg, Is, i - 1, p);
      if i < |Is| {
        PaintSegmentAt(LutAfter(seg, Is, i - 1), seg(i - 1, Is[i - 1], Is[i]), Is[i - 1], Is[i], p);
      }
    }
  }

  /** `makeLut` (the `gamma` branch aside): 1024 zero bytes, then for each
      pair of neighbouring control points the texels from the first index
      to the second, interpolated. */
  method MakeLut(R: seq<int>, G: seq<int>, B: seq<int>, A: Option<seq<int>>, I: Option<seq<int>>)
    returns (lut: seq<Byte>)
    ensures lut == MakeLutSpec(R, G, B, A, I)
  {
    var n := |R|;
    var Is := IndexBytes(n, I);
    var seg := SegmentTexels(R, G, B, AlphaBytes(n, A));
    var a := new Byte[1024](_ => 0);
    var last := LastSegment(n);
    var i := 0;
    while i < last
      invariant i <= last && a[..] == LutAfter(seg, Is, i)
    {
      if i + 1 < |Is| {
        FillSegment(a, seg(i, Is[i], Is[i + 1]), Is[i], Is[i + 1]);
      }
      assert a[..] == LutAfter(seg, Is, i + 1);
      i := i + 1;
    }
    lut := a[..];
  }

  /** The `j` loop of one segment: the texel `tex(j)` at each index `j`
      from `lo` to `hi`. */
  method FillSegment(a: array<Byte>, tex: int -> Texel, lo: Byte, hi: Byte)
    requires a.Length == 1024
    modifies a
    ensures a[..] == PaintSegment(old(a[..]), tex, lo, hi)
  {
    ghost var a0 := a[..];
    var j: int := lo;
    while j <= hi
      invariant lo <= j && (j <= hi + 1 || j == lo) && a[..] == PaintedUpTo(a0, tex, lo, j)
    {
      StoreTexel(a, j, tex(j));
      j := j + 1;
    }
  }

  /** `lut[k++] = r; lut[k++] = g; lut[k++] = b; lut[k++] = a` at `k = 4 * slot`. */
  method StoreTexel(a: array<Byte>, slot: int, t: Texel)
    requires 0 <= slot && 4 * slot + 4 <= a.Length
    modifies a
    ensures a[..] == WriteTexel(old(a[..]), slot, t)
  {
    var k := 4 * slot;
    a[k] := t.r;
    a[k + 1] := t.g;
    a[k + 2] := t.b;
    a[k + 3] := t.a;
  }

  /** Painting segment `i - 1` writes the colour its texels have at either
      end there. */
  lemma LutSegmentEnds(seg: (nat, int, int) -> int -> Texel, Is: seq<Byte>, i: nat, c: int)
    requires 1 <= i < |Is| && Is[i - 1] < Is[i] && 0 <= c < 4
    ensures LutAfter(seg, Is, i)[4 * Is[i - 1] + c] == Channel(seg(i - 1, Is[i - 1], Is[i])(Is[i - 1]), c)
    ensures LutAfter(seg, Is, i)[4 * Is[i] + c] == Channel(seg(i - 1, Is[i - 1], Is[i])(Is[i]), c)
  {
    var lo, hi := Is[i - 1], Is[i];
    assert (4 * lo + c) / 4 == lo && (4 * lo + c) % 4 == c;
    assert (4 * hi + c) / 4 == hi && (4 * hi + c) % 4 == c;
    PaintSegmentAt(LutAfter(seg, Is, i - 1), seg(i - 1, Is[i - 1], Is[i]), lo, hi, 4 * lo + c);
    PaintSegmentAt(LutAfter(seg, Is, i - 1), seg(i - 1, Is[i - 1], Is[i]), lo, hi, 4 * hi + c);
  }

  /** Painting segment `i - 1` leaves the bytes below its first index alone. */
  lemma LutSegmentKeepsBelow(seg: (nat, int, int) -> int -> Texel, Is: seq<Byte>, i: nat, p: int)
    requires 1 <= i < |Is| && 0 <= p && p / 4 < Is[i - 1]
    ensures LutAfter(seg, Is, i)[p] == LutAfter(seg, Is, i - 1)[p]
  {
    PaintSegmentAt(LutAfter(seg, Is, i - 1), seg(i - 1, Is[i - 1], Is[i]), Is[i - 1], Is[i], p);
  }

  /** Once the segments up to control point `i` are painted, every control
      point up to `i` holds its own colour: later segments start past it
      when the indices strictly increase, and the segments either side of it
      both end in that colour. */
  lemma {:induction false} LutKeepsControlPoints(seg: (nat, int, int) -> int -> Texel, ctrl: nat -> Texel,
                                                 Is: seq<Byte>, i: nat, k: nat, c: int)
    requires SegmentsEndAt(seg, ctrl, Is) && Increasing(Is)
    requires 1 <= i < |Is| && k <= i && 0 <= c < 4
    ensures LutAfter(seg, Is, i)[4 * Is[k] + c] == Channel(ctrl(k), c)
  {
    if k == i {
      LutSegmentEnds(seg, Is, i, c);
      assert seg(i - 1, Is[i - 1], Is[i])(Is[i]) == ctrl(i);
    } else if k == i - 1 {
      LutSegmentEnds(seg, Is, i, c);
      assert seg(i - 1, Is[i - 1], Is[i])(Is[i - 1]) == ctrl(i - 1);
    } else {
      LutKeepsControlPoints(seg, ctrl, Is, i - 1, k, c);
      assert (4 * Is[k] + c) / 4 == Is[k] < Is[i - 1];
      LutSegmentKeepsBelow(seg, Is, i, 4 * Is[k] + c);
    }
  }

  /** The interpolated segments keep every control point's clamped colour
      at its index. */
  lemma ControlPointsKept(R: seq<int>, G: seq<int>, B: seq<int>, As: seq<int>, Is: seq<Byte>,
                          i: nat, k: nat, c: int)
    requires |Is| <= |R| && |Is| <= |G| && |Is| <= |B| && |Is| <= |As|
    requires Increasing(Is)
    requires 1 <= i < |Is| && k <= i && 0 <= c < 4
    ensures LutAfter(SegmentTexels(R, G, B, As), Is, i)[4 * Is[k] + c] ==
      Channel(ControlTexel(R, G, B, As, k), c)
  {
    SegmentTexelsEndAt(R, G, B, As, Is);
    LutKeepsControlPoints(SegmentTexels(R, G, B, As), ControlTexels(R, G, B, As), Is, i, k, c);
  }

  /** For a colormap whose clamped indices strictly increase, `makeLut`
      stores every control point's clamped colour at its index. */
  lemma MakeLutControlPoints(R: seq<int>, G: seq<int>, B: seq<int>, A: Option<seq<int>>,
                             I: Option<seq<int>>, k: nat, c: int)
    requires 2 <= |R| && |G| == |R| && |B| == |R| && (A.Some? ==> |A.value| == |R|)
    requires I.Some? ==> |I.value| == |R|
    requires Increasing(IndexBytes(|R|, I))
    requires k < |R| && 0 <= c < 4
    ensures MakeLutSpec(R, G, B, A, I)[4 * IndexBytes(|R|, I)[k] + c] ==
      Channel(ControlTexel(R, G, B, AlphaBytes(|R|, A), k), c)
  {
    var As, Is := AlphaBytes(|R|, A), IndexBytes(|R|, I);
    assert |As| == |R| && |Is| == |R| && LastSegment(|R|) == |R| - 1;
    assert MakeLutSpec(R, G, B, A, I) == LutAfter(SegmentTexels(R, G, B, As), Is, LastSegment(|R|));
    ControlPointsKept(R, G, B, As, Is, LastSegment(|R|), k, c);
  }

  /** The grayscale fallback ramps from transparent black at index 0 to
      opaque white at index 255. */
  lemma GrayscaleRamp(c: int)
    requires 0 <= c < 4
    ensures MakeLutSpec(Grayscale().R, Grayscale().G, Grayscale().B, Grayscale().A,
                        Grayscale().I)[c] == 0
    ensures MakeLutSpec(Grayscale().R, Grayscale().G, Grayscale().B, Grayscale().A,
                        Grayscale().I)[1020 + c] == 255
  {
    var g := Grayscale();
    var As, Is := AlphaBytes(2, g.A), IndexBytes(2, g.I);
    assert Is[0] == 0 && Is[1] == 255 && As[0] == 0 && As[1] == 255;
    MakeLutControlPoints(g.R, g.G, g.B, g.A, g.I, 0, c);
    MakeLutControlPoints(g.R, g.G, g.B, g.A, g.I, 1, c);
  }

  // Label lookup tables (`makeLabelLut`)

  /** Why `makeLabelLut` throws: the colour and index lists differ in
      length, or there are no labels at all, when `Math.min()` is `Infinity`
      and the buffer length `-Infinity` is a `RangeError`. */
  datatype LutError = LengthMismatch | NoLabels

  /** `Math.min(...s)` of a non-empty list. */
  function SeqMin(s: seq<int>): (m: int)
    requires |s| > 0
    ensures m in s && forall k | 0 <= k < |s| :: m <= s[k]
  {
    if |s| == 1 then s[0]
    else
      var rest := SeqMin(s[1..]);
      assert forall k | 1 <= k < |s| :: s[k] == s[1..][k - 1];
      if s[0] <= rest then s[0] else rest
  }

  /** `Math.max(...s)` of a non-empty list. */
  function SeqMax(s: seq<int>): (m: int)
    requires |s| > 0
    ensures m in s && forall k | 0 <= k < |s| :: s[k] <= m
  {
    if |s| == 1 then s[0]
    else
      var rest := SeqMax(s[1..]);
      assert forall k | 1 <= k < |s| :: s[k] == s[1..][k - 1];
      if s[0] >= rest then s[0] else rest
  }

  /** `[...Array(n).keys()]`: 0, 1, …, n - 1. */
  function Range(n: nat): (r: seq<int>)
    ensures |r| == n && forall k | 0 <= k < n :: r[k] == k
  {
    seq(n, k => k)
  }

  /** `cm.I ?? [0, 1, …, n - 1]`. */
  function LabelIndices(cm: ColorMap): seq<int>
  {
    cm.I.Or(Range(|cm.R|))
  }

  /** `As`: the colormap's alphas, clamped, or `alphaFill` for every label
      but the first, whose alpha is 0. */
  function LabelAlphas(n: nat, alphaFill: int, A: Option<seq<int>>): seq<Byte>
  {
    if A.Some? then ClampedBytes(A.value)
    else if n == 0 then []
    else [0] + seq(n - 1, _ => ByteOf(alphaFill))
  }

  /** The texel of label `i`; an alpha past the end of `As` reads as
      `undefined` and is stored as 0. */
  function LabelTexel(cm: ColorMap, As: seq<Byte>, i: nat): Texel
    requires i < |cm.R| && i < |cm.G| && i < |cm.B|
  {
    Texel(ByteOf(cm.R[i]), ByteOf(cm.G[i]), ByteOf(cm.B[i]), if i < |As| then As[i] else 0)
  }

  /** Every index lies in the `size` table entries from `mn` on. */
  predicate IndicesWithin(idxs: seq<int>, mn: int, size: nat)
  {
    forall k | 0 <= k < |idxs| :: mn <= idxs[k] < mn + size
  }

  /** Label `i` is the last of the first `n` to name its index. */
  predicate LastAt(idxs: seq<int>, n: nat, i: nat)
    requires n <= |idxs|
  {
    i < n && forall k | i < k < n :: idxs[k] != idxs[i]
  }

  /** The label table after the first `n` labels are written, each at
      entry `idxs[i] - mn`. */
  function LabelLutAfter(cm: ColorMap, As: seq<Byte>, idxs: seq<int>, mn: int, size: nat, n: nat)
    : (r: seq<Byte>)
    requires n <= |idxs| && n <= |cm.R| && n <= |cm.G| && n <= |cm.B|
    requires IndicesWithin(idxs, mn, size)
    ensures |r| == 4 * size
  {
    if n == 0 then seq(4 * size, _ => 0)
    else WriteTexel(LabelLutAfter(cm, As, idxs, mn, size, n - 1), idxs[n - 1] - mn,
                    LabelTexel(cm, As, n - 1))
  }

  /** The last of the first `n` labels naming `idx`, or -1. */
  function LastLabel(idxs: seq<int>, n: nat, idx: int): (w: int)
    requires n <= |idxs|
    ensures -1 <= w < n
    ensures w >= 0 ==> idxs[w] == idx && forall k | w < k < n :: idxs[k] != idx
    ensures w == -1 ==> forall k | 0 <= k < n :: idxs[k] != idx
  {
    if n == 0 then -1 else if idxs[n - 1] == idx then n - 1 else LastLabel(idxs, n - 1, idx)
  }

  /** Byte `p` of a label table: from the texel of the last label naming
      its entry, or 0 when none does. */
  function LabelByte(cm: ColorMap, As: seq<Byte>, idxs: seq<int>, mn: int, p: int): Byte
    requires |idxs| <= |cm.R| && |idxs| <= |cm.G| && |idxs| <= |cm.B| && 0 <= p
  {
    var w := LastLabel(idxs, |idxs|, mn + p / 4);
    if w >= 0 then Channel(LabelTexel(cm, As, w), p % 4) else 0
  }

  /** The label table `makeLabelLut` builds, byte by byte. */
  function LabelTable(cm: ColorMap, As: seq<Byte>, idxs: seq<int>, mn: int, size: nat)
    : (r: seq<Byte>)
    requires |idxs| <= |cm.R| && |idxs| <= |cm.G| && |idxs| <= |cm.B|
    ensures |r| == 4 * size
  {
    seq(4 * size, p requires 0 <= p < 4 * size => LabelByte(cm, As, idxs, mn, p))
  }

  /** After the first `n` writes every byte comes from the last of them to
      its entry. */
  lemma {:induction false} LabelLutAfterAt(cm: ColorMap, As: seq<Byte>, idxs: seq<int>, mn: int,
                                           size: nat, n: nat, p: int)
    requires n <= |idxs| && n <= |cm.R| && n <= |cm.G| && n <= |cm.B|
    requires IndicesWithin(idxs, mn, size) && 0 <= p < 4 * size
    ensures var w := LastLabel(idxs, n, mn + p / 4);
      LabelLutAfter(cm, As, idxs, mn, size, n)[p] ==
        if w >= 0 then Channel(LabelTexel(cm, As, w), p % 4) else 0
  {
    if n > 0 {
      LabelLutAfterAt(cm, As, idxs, mn, size, n - 1, p);
      WriteTexelAt(LabelLutAfter(cm, As, idxs, mn, size, n - 1), idxs[n - 1] - mn,
                   LabelTexel(cm, As, n - 1), p);
    }
  }

  /** The entry of a label no later label overrides holds its texel. */
  lemma LabelTableAt(cm: ColorMap, As: seq<Byte>, idxs: seq<int>, mn: int, size: nat, i: nat)
    requires |idxs| <= |cm.R| && |idxs| <= |cm.G| && |idxs| <= |cm.B|
    requires IndicesWithin(idxs, mn, size) && LastAt(idxs, |idxs|, i)
    ensures 0 <= 4 * (idxs[i] - mn) && 4 * (idxs[i] - mn) + 4 <= 4 * size
    ensures var table, e, t := LabelTable(cm, As, idxs, mn, size), 4 * (idxs[i] - mn),
                               LabelTexel(cm, As, i);
      table[e] == t.r && table[e + 1] == t.g && table[e + 2] == t.b && table[e + 3] == t.a
  {
    var e := 4 * (idxs[i] - mn);
    assert LastLabel(idxs, |idxs|, idxs[i]) == i;
    assert e / 4 == idxs[i] - mn && e % 4 == 0;
    assert (e + 1) / 4 == idxs[i] - mn && (e + 1) % 4 == 1;
    assert (e + 2) / 4 == idxs[i] - mn && (e + 2) % 4 == 2;
    assert (e + 3) / 4 == idxs[i] - mn && (e + 3) % 4 == 3;
  }

  /** The write loop builds the label table. */
  lemma LabelLutAfterIsTable(cm: ColorMap, As: seq<Byte>, idxs: seq<int>, mn: int, size: nat)
    requires |idxs| <= |cm.R| && |idxs| <= |cm.G| && |idxs| <= |cm.B|
    requires IndicesWithin(idxs, mn, size)
    ensures LabelLutAfter(cm, As, idxs, mn, size, |idxs|) == LabelTable(cm, As, idxs, mn, size)
  {
    forall p | 0 <= p < 4 * size
      ensures LabelLutAfter(cm, As, idxs, mn, size, |idxs|)[p] == LabelTable(cm, As, idxs, mn, size)[p]
    {
      LabelLutAfterAt(cm, As, idxs, mn, size, |idxs|, p);
    }
  }

  /** `cmap.labels` with one label per listed index: every table entry
      starts as "?" and label `i` goes to entry `idxs[i] - mn`. */
  function PlacedLabels(idxs: seq<int>, labels: seq<string>, mn: int, size: nat, n: nat)
    : (r: seq<string>)
    requires n <= |idxs| && n <= |labels| && IndicesWithin(idxs, mn, size)
    ensures |r| == size
  {
    if n == 0 then seq(size, _ => "?")
    else PlacedLabels(idxs, labels, mn, size, n - 1)[idxs[n - 1] - mn := labels[n - 1]]
  }

  /** Each label lands on its own table entry; unnamed entries read "?". */
  lemma {:induction false} PlacedLabelsAt(idxs: seq<int>, labels: seq<string>, mn: int, size: nat,
                                          n: nat, e: int)
    requires n <= |idxs| && n <= |labels| && IndicesWithin(idxs, mn, size) && 0 <= e < size
    ensures (forall k | 0 <= k < n :: idxs[k] != mn + e) ==>
      PlacedLabels(idxs, labels, mn, size, n)[e] == "?"
    ensures forall i | 0 <= i < n && idxs[i] == mn + e && LastAt(idxs, n, i) ::
      PlacedLabels(idxs, labels, mn, size, n)[e] == labels[i]
  {
    if n > 0 {
      PlacedLabelsAt(idxs, labels, mn, size, n - 1, e);
    }
  }

  /** The labels `makeLabelLut` returns: the colormap's own when there is
      one per table entry, placed ones when there is one per index, and
      none otherwise. */
  function LabelsFor(labels: Option<seq<string>>, idxs: seq<int>, mn: int, size: nat)
    : Option<seq<string>>
    requires IndicesWithin(idxs, mn, size)
  {
    match labels
    case None => None
    case Some(ls) =>
      if |ls| == size then Some(ls)
      else if |ls| == |idxs| then Some(PlacedLabels(idxs, ls, mn, size, |idxs|))
      else None
  }

  /** What `makeLabelLut(cm, alphaFill)` returns or throws. */
  function MakeLabelLutSpec(cm: ColorMap, alphaFill: int): Result<Lut, LutError>
  {
    var n := |cm.R|;
    var idxs := LabelIndices(cm);
    if n != |cm.G| || n != |cm.B| || n != |idxs| then Err(LengthMismatch)
    else if n == 0 then Err(NoLabels)
    else
      var mn, mx := SeqMin(idxs), SeqMax(idxs);
      var size := mx - mn + 1;
      Ok(Lut(LabelTable(cm, LabelAlphas(n, alphaFill, cm.A), idxs, mn, size),
             Some(mn), Some(mx), LabelsFor(cm.labels, idxs, mn, size)))
  }

  /** `makeLabelLut` throws exactly when the colour and index lists differ
      in length or are empty; otherwise it returns a table with one entry
      for every value from the least index to the greatest, and labels when
      the colormap has one per index or one per entry. */
  lemma LabelLutShape(cm: ColorMap, alphaFill: int)
    ensures MakeLabelLutSpec(cm, alphaFill).Err? <==>
      |cm.G| != |cm.R| || |cm.B| != |cm.R| || |LabelIndices(cm)| != |cm.R| || |cm.R| == 0
    ensures MakeLabelLutSpec(cm, alphaFill).Ok? ==>
      var r := MakeLabelLutSpec(cm, alphaFill).value;
      && r.min.Some? && r.max.Some?
      && r.min.value in LabelIndices(cm) && r.max.value in LabelIndices(cm)
      && r.min.value <= r.max.value
      && IndicesWithin(LabelIndices(cm), r.min.value, r.max.value - r.min.value + 1)
      && |r.lut| == 4 * (r.max.value - r.min.value + 1)
      && (r.labels.Some? <==>
            && cm.labels.Some?
            && (|cm.labels.value| == |cm.R| ||
                |cm.labels.value| == r.max.value - r.min.value + 1))
      && (r.labels.Some? ==> |r.labels.value| == r.max.value - r.min.value + 1)
  {
  }

  /** The parts of a label table `makeLabelLut` returns. */
  lemma LabelLutParts(cm: ColorMap, alphaFill: int, r: Lut)
    requires MakeLabelLutSpec(cm, alphaFill) == Ok(r)
    ensures var idxs := LabelIndices(cm);
      var mn, mx := SeqMin(idxs), SeqMax(idxs);
      && |idxs| == |cm.R| == |cm.G| == |cm.B| > 0
      && mn <= mx && IndicesWithin(idxs, mn, mx - mn + 1)
      && r.min == Some(mn) && r.max == Some(mx)
      && r.lut == LabelTable(cm, LabelAlphas(|cm.R|, alphaFill, cm.A), idxs, mn, mx - mn + 1)
  {
  }

  /** `LabelTableAt` for a table `lut` and an entry offset `e` given by
      name: the four bytes from `e` on are label `i`'s texel. */
  lemma LabelEntryIn(cm: ColorMap, As: seq<Byte>, idxs: seq<int>, mn: int, size: nat,
                     lut: seq<Byte>, i: nat, e: int)
    requires |idxs| <= |cm.R| && |idxs| <= |cm.G| && |idxs| <= |cm.B|
    requires IndicesWithin(idxs, mn, size) && LastAt(idxs, |idxs|, i)
    requires lut == LabelTable(cm, As, idxs, mn, size) && e == 4 * (idxs[i] - mn)
    ensures 0 <= e && e + 4 <= |lut|
    ensures lut[e] == ByteOf(cm.R[i]) && lut[e + 1] == ByteOf(cm.G[i])
    ensures lut[e + 2] == ByteOf(cm.B[i]) && lut[e + 3] == if i < |As| then As[i] else 0
  {
    LabelTableAt(cm, As, idxs, mn, size, i);
  }

  /** With the labels numbered 0 to `n - 1`, label `i` owns entry `i`. */
  lemma RangeEntryIn(cm: ColorMap, As: seq<Byte>, n: nat, lut: seq<Byte>, i: nat)
    requires n <= |cm.R| && n <= |cm.G| && n <= |cm.B| && i < n
    requires lut == LabelTable(cm, As, Range(n), 0, n)
    ensures lut[4 * i] == ByteOf(cm.R[i]) && lut[4 * i + 1] == ByteOf(cm.G[i])
    ensures lut[4 * i + 2] == ByteOf(cm.B[i]) && lut[4 * i + 3] == if i < |As| then As[i] else 0
  {
    assert IndicesWithin(Range(n), 0, n) && LastAt(Range(n), n, i);
    LabelEntryIn(cm, As, Range(n), 0, n, lut, i, 4 * i);
  }

  /** A byte of a label table whose entry no label names is 0. */
  lemma LabelTableUnlisted(cm: ColorMap, As: seq<Byte>, idxs: seq<int>, mn: int, size: nat,
                           lut: seq<Byte>, p: int)
    requires |idxs| <= |cm.R| && |idxs| <= |cm.G| && |idxs| <= |cm.B|
    requires lut == LabelTable(cm, As, idxs, mn, size) && 0 <= p < |lut|
    requires forall k | 0 <= k < |idxs| :: idxs[k] != mn + p / 4
    ensures lut[p] == 0
  {
    assert LastLabel(idxs, |idxs|, mn + p / 4) == -1;
  }

  /** The alpha `As[i]` of label `i`: from `A` when given (0 past its end),
      else `alphaFill`, except 0 for the first label. */
  lemma LabelAlphaAt(n: nat, alphaFill: int, A: Option<seq<int>>, i: nat)
    requires i < n
    ensures var As := LabelAlphas(n, alphaFill, A);
      (if i < |As| then As[i] else 0) ==
        if A.Some? then (if i < |A.value| then ByteOf(A.value[i]) else 0)
        else if i == 0 then 0 else ByteOf(alphaFill)
  {
  }

  /** The texel of a label no later label overrides: its colour clamped,
      and its alpha from `A`, or `alphaFill` (0 for the first label). */
  lemma LabelLutEntry(cm: ColorMap, alphaFill: int, r: Lut, i: nat, e: int)
    requires MakeLabelLutSpec(cm, alphaFill) == Ok(r)
    requires i < |cm.R| && forall k | i < k < |cm.R| :: LabelIndices(cm)[k] != LabelIndices(cm)[i]
    requires r.min.Some? && e == 4 * (LabelIndices(cm)[i] - r.min.value)
    ensures 0 <= e && e + 4 <= |r.lut|
    ensures r.lut[e] == ByteOf(cm.R[i]) && r.lut[e + 1] == ByteOf(cm.G[i])
    ensures r.lut[e + 2] == ByteOf(cm.B[i])
    ensures r.lut[e + 3] == if cm.A.Some? then (if i < |cm.A.value| then ByteOf(cm.A.value[i]) else 0)
                            else if i == 0 then 0 else ByteOf(alphaFill)
  {
    var idxs := LabelIndices(cm);
    var n := |cm.R|;
    var mn, mx := SeqMin(idxs), SeqMax(idxs);
    LabelLutParts(cm, alphaFill, r);
    var As := LabelAlphas(n, alphaFill, cm.A);
    LabelEntryIn(cm, As, idxs, mn, mx - mn + 1, r.lut, i, e);
    LabelAlphaAt(n, alphaFill, cm.A, i);
  }

  /** Without `I` the labels are numbered 0, 1, …: the table has one entry
      per label, label `i` at entry `i`. */
  lemma LabelLutWithoutIndices(cm: ColorMap, alphaFill: int, r: Lut, i: nat)
    requires MakeLabelLutSpec(cm, alphaFill) == Ok(r) && cm.I.None? && i < |cm.R|
    ensures r.min == Some(0) && r.max == Some(|cm.R| - 1) && |r.lut| == 4 * |cm.R|
    ensures r.lut[4 * i] == ByteOf(cm.R[i]) && r.lut[4 * i + 1] == ByteOf(cm.G[i])
    ensures r.lut[4 * i + 2] == ByteOf(cm.B[i])
    ensures r.lut[4 * i + 3] == if cm.A.Some? then (if i < |cm.A.value| then ByteOf(cm.A.value[i]) else 0)
                                else if i == 0 then 0 else ByteOf(alphaFill)
  {
    var n, As := |cm.R|, LabelAlphas(|cm.R|, alphaFill, cm.A);
    LabelLutParts(cm, alphaFill, r);
    assert LabelIndices(cm) == Range(n);
    RangeExtremes(n);
    RangeEntryIn(cm, As, n, r.lut, i);
    LabelAlphaAt(n, alphaFill, cm.A, i);
  }

  /** A table entry no label names is 0 in all four bytes. */
  lemma LabelLutUnlisted(cm: ColorMap, alphaFill: int, r: Lut, p: int)
    requires MakeLabelLutSpec(cm, alphaFill) == Ok(r) && r.min.Some? && 0 <= p < |r.lut|
    requires forall k | 0 <= k < |cm.R| :: LabelIndices(cm)[k] != r.min.value + p / 4
    ensures r.lut[p] == 0
  {
    var idxs := LabelIndices(cm);
    var mn, mx := SeqMin(idxs), SeqMax(idxs);
    LabelLutParts(cm, alphaFill, r);
    LabelTableUnlisted(cm, LabelAlphas(|cm.R|, alphaFill, cm.A), idxs, mn, mx - mn + 1, r.lut, p);
  }

  /** The label placement of `makeLabelLut` as written, on a JavaScript
      array whose holes are `None`: label `i` is stored at `idxs[i]` itself
      rather than at its table entry `idxs[i] - mn`, a store past the end
      lengthens the array, and a store at a negative index adds a property
      rather than an element. */
  function PlacedLabelsAsWritten(idxs: seq<int>, labels: seq<string>, size: nat, n: nat)
    : (r: seq<Option<string>>)
    requires n <= |idxs| && n <= |labels|
    ensures |r| >= size
    ensures forall k | 0 <= k < n && 0 <= idxs[k] :: idxs[k] < |r|
  {
    if n == 0 then seq(size, _ => Some("?"))
    else
      var a := PlacedLabelsAsWritten(idxs, labels, size, n - 1);
      var idx := idxs[n - 1];
      if 0 <= idx < |a| then a[idx := Some(labels[n - 1])]
      else if idx >= |a| then a + seq(idx - |a|, _ => None) + [Some(labels[n - 1])]
      else a
  }

  /** Labels as a JavaScript array without holes. */
  function Holeless(s: seq<string>): (r: seq<Option<string>>)
    ensures |r| == |s| && forall k | 0 <= k < |s| :: r[k] == Some(s[k])
  {
    seq(|s|, k requires 0 <= k < |s| => Some(s[k]))
  }

  /** A lookup table whose labels may have holes. */
  datatype RawLut = RawLut(lut: seq<Byte>, min: Option<int>, max: Option<int>,
                           labels: Option<seq<Option<string>>>)

  function RawOf(r: Result<Lut, LutError>): Result<RawLut, LutError>
  {
    match r
    case Err(e) => Err(e)
    case Ok(l) =>
      Ok(RawLut(l.lut, l.min, l.max, if l.labels.Some? then Some(Holeless(l.labels.value)) else None))
  }

  /** The `if (cm.labels)` block as written. */
  function LabelsForAsWritten(labels: Option<seq<string>>, idxs: seq<int>, size: nat)
    : Option<seq<Option<string>>>
  {
    match labels
    case None => None
    case Some(ls) =>
      if |ls| == size then Some(Holeless(ls))
      else if |ls| == |idxs| then Some(PlacedLabelsAsWritten(idxs, ls, size, |idxs|))
      else None
  }

  /** What `makeLabelLut(cm, alphaFill)` returns or throws as written: the
      same checks and table as `MakeLabelLutSpec`, with the labels placed
      at their raw indices. */
  function MakeLabelLutSpecAsWritten(cm: ColorMap, alphaFill: int): Result<RawLut, LutError>
  {
    var n := |cm.R|;
    var idxs := LabelIndices(cm);
    if n != |cm.G| || n != |cm.B| || n != |idxs| then Err(LengthMismatch)
    else if n == 0 then Err(NoLabels)
    else
      var mn, mx := SeqMin(idxs), SeqMax(idxs);
      var size := mx - mn + 1;
      Ok(RawLut(LabelTable(cm, LabelAlphas(n, alphaFill, cm.A), idxs, mn, size),
                Some(mn), Some(mx), LabelsForAsWritten(cm.labels, idxs, size)))
  }

  /** From a least index of 0 the raw index is the table entry, so the
      placement as written and the corrected one agree. */
  lemma {:induction false} PlacedFromZero(idxs: seq<int>, labels: seq<string>, size: nat, n: nat)
    requires n <= |idxs| && n <= |labels| && IndicesWithin(idxs, 0, size)
    ensures PlacedLabelsAsWritten(idxs, labels, size, n) ==
      Holeless(PlacedLabels(idxs, labels, 0, size, n))
  {
    if n > 0 {
      PlacedFromZero(idxs, labels, size, n - 1);
      var p := PlacedLabels(idxs, labels, 0, size, n - 1);
      assert Holeless(p)[idxs[n - 1] := Some(labels[n - 1])] ==
        Holeless(p[idxs[n - 1] := labels[n - 1]]);
    } else {
      assert seq(size, _ => Some("?")) == Holeless(seq(size, _ => "?"));
    }
  }

  /** Colormaps whose least index is 0, among them every colormap without
      `I`, get the same table and labels from `makeLabelLut` as written and
      as corrected. */
  lemma LabelLutAsWrittenFromZero(cm: ColorMap, alphaFill: int)
    requires |LabelIndices(cm)| > 0 && SeqMin(LabelIndices(cm)) == 0
    ensures MakeLabelLutSpecAsWritten(cm, alphaFill) == RawOf(MakeLabelLutSpec(cm, alphaFill))
  {
    var idxs := LabelIndices(cm);
    var size := SeqMax(idxs) + 1;
    if cm.labels.Some? && |cm.labels.value| != size && |cm.labels.value| == |idxs| {
      PlacedFromZero(idxs, cm.labels.value, size, |idxs|);
    }
  }

  /** With a least index above 0, labels placed one per index come out
      longer than the table as written: the array reaches the greatest
      index itself. */
  lemma LabelLutAsWrittenTooLong(cm: ColorMap, alphaFill: int)
    requires MakeLabelLutSpecAsWritten(cm, alphaFill).Ok?
    requires SeqMin(LabelIndices(cm)) > 0
    requires cm.labels.Some? && |cm.labels.value| == |cm.R|
    requires |cm.labels.value| != SeqMax(LabelIndices(cm)) - SeqMin(LabelIndices(cm)) + 1
    ensures var r := MakeLabelLutSpecAsWritten(cm, alphaFill).value;
      r.labels.Some? && |r.labels.value| > r.max.value - r.min.value + 1
  {
    var idxs := LabelIndices(cm);
    var mn, mx := SeqMin(idxs), SeqMax(idxs);
    var j :| 0 <= j < |idxs| && idxs[j] == mx;
    var placed := PlacedLabelsAsWritten(idxs, cm.labels.value, mx - mn + 1, |idxs|);
    assert mx < |placed|;
  }

  /** With indices 5 and 7 the table has three entries. As written the
      labels come out eight long, with "a" and "b" past the end of the
      table and its own entries "?"; placed at their entries they read "a",
      "?", "b". */
  lemma LabelPlacementOffByMin()
    ensures var cm := ColorMap([1, 2], [1, 2], [1, 2], None, Some([5, 7]), None, None,
                               Some(["a", "b"]));
      && MakeLabelLutSpecAsWritten(cm, 255).value.labels ==
           Some([Some("?"), Some("?"), Some("?"), None, None, Some("a"), None, Some("b")])
      && MakeLabelLutSpec(cm, 255).value.labels == Some(["a", "?", "b"])
  {
    var cm := ColorMap([1, 2], [1, 2], [1, 2], None, Some([5, 7]), None, None, Some(["a", "b"]));
    var idxs := LabelIndices(cm);
    assert idxs == [5, 7];
    assert SeqMin(idxs) == 5 && SeqMax(idxs) == 7;
    assert PlacedLabelsAsWritten(idxs, ["a", "b"], 3, 1) ==
      [Some("?"), Some("?"), Some("?"), None, None, Some("a")];
    assert PlacedLabelsAsWritten(idxs, ["a", "b"], 3, 2) ==
      [Some("?"), Some("?"), Some("?"), None, None, Some("a"), None, Some("b")];
    assert PlacedLabels(idxs, ["a", "b"], 5, 3, 1) == ["a", "?", "?"];
    assert PlacedLabels(idxs, ["a", "b"], 5, 3, 2) == ["a", "?", "b"];
  }

  /** `makeLabelLut`: check the lengths, fill the dense table entry by
      entry, then place the labels. */
  method MakeLabelLut(cm: ColorMap, alphaFill: int) returns (r: Result<Lut, LutError>)
    ensures r == MakeLabelLutSpec(cm, alphaFill)
  {
    var n := |cm.R|;
    var idxs := LabelIndices(cm);
    if n != |cm.G| || n != |cm.B| || n != |idxs| {
      return Err(LengthMismatch);
    }
    if n == 0 {
      return Err(NoLabels);
    }
    var As := LabelAlphas(n, alphaFill, cm.A);
    var mn, mx := SeqMin(idxs), SeqMax(idxs);
    var lut := FillLabelLut(cm, As, idxs, mn, mx - mn + 1);
    var labels := ChooseLabels(cm.labels, idxs, mn, mx - mn + 1);
    r := Ok(Lut(lut, Some(mn), Some(mx), labels));
  }

  /** The loop writing each label's texel at its table entry. */
  method FillLabelLut(cm: ColorMap, As: seq<Byte>, idxs: seq<int>, mn: int, size: nat)
    returns (lut: seq<Byte>)
    requires |idxs| <= |cm.R| && |idxs| <= |cm.G| && |idxs| <= |cm.B|
    requires IndicesWithin(idxs, mn, size)
    ensures lut == LabelTable(cm, As, idxs, mn, size)
  {
    var a := new Byte[4 * size](_ => 0);
    var i := 0;
    while i < |idxs|
      invariant i <= |idxs| && a[..] == LabelLutAfter(cm, As, idxs, mn, size, i)
    {
      StoreTexel(a, idxs[i] - mn, LabelTexel(cm, As, i));
      i := i + 1;
    }
    lut := a[..];
    LabelLutAfterIsTable(cm, As, idxs, mn, size);
  }

  /** The `if (cm.labels)` block. */
  method ChooseLabels(labels: Option<seq<string>>, idxs: seq<int>, mn: int, size: nat)
    returns (r: Option<seq<string>>)
    requires IndicesWithin(idxs, mn, size)
    ensures r == LabelsFor(labels, idxs, mn, size)
  {
    r := None;
    if labels.Some? {
      var ls := labels.value;
      if |ls| == size {
        r := Some(ls);
      } else if |ls| == |idxs| {
        var placed := PlaceLabels(idxs, ls, mn, size);
        r := Some(placed);
      }
    }
  }

  /** The loop `cmap.labels[idx] = cm.labels[i]`, at the table entry. */
  method PlaceLabels(idxs: seq<int>, labels: seq<string>, mn: int, size: nat)
    returns (r: seq<string>)
    requires |labels| == |idxs| && IndicesWithin(idxs, mn, size)
    ensures r == PlacedLabels(idxs, labels, mn, size, |idxs|)
  {
    var a := new string[size](_ => "?");
    var i := 0;
    while i < |idxs|
      invariant i <= |idxs| && a[..] == PlacedLabels(idxs, labels, mn, size, i)
    {
      a[idxs[i] - mn] := labels[i];
      i := i + 1;
    }
    r := a[..];
  }

  // Draw lookup tables (`makeDrawLut`)

  /** `i.toString()` for a natural number. */
  function DecimalString(n: nat): (s: string)
    ensures |s| > 0 && (s[0] == '0' <==> n == 0)
    ensures forall k | 0 <= k < |s| :: '0' <= s[k] <= '9'
  {
    if n < 10 then [('0' as int + n) as char]
    else DecimalString(n / 10) + [('0' as int + n % 10) as char]
  }

  /** The number a string of decimal digits denotes. */
  function DecimalValue(s: string): nat
  {
    if s == [] then 0
    else
      var d := s[|s| - 1] as int - '0' as int;
      10 * DecimalValue(s[..|s| - 1]) + (if 0 <= d < 10 then d else 0)
  }

  /** Reading a label back gives its index. */
  lemma {:induction false} DecimalRoundTrip(n: nat)
    ensures DecimalValue(DecimalString(n)) == n
  {
    if n >= 10 {
      DecimalRoundTrip(n / 10);
      var s := DecimalString(n);
      assert s[..|s| - 1] == DecimalString(n / 10);
    }
  }

  /** The labels of a draw table: the label table's own, then the decimal
      index of every entry up to 255 that has none. */
  function PaddedLabels(labels: seq<string>): (r: seq<string>)
    ensures |r| == if |labels| < 256 then 256 else |labels|
    ensures r[..|labels|] == labels
    ensures forall i | |labels| <= i < |r| :: r[i] == DecimalString(i)
  {
    if |labels| < 256 then labels + seq(256 - |labels|, k requires 0 <= k => DecimalString(|labels| + k))
    else labels
  }

  /** The loop `cm.labels.push(i.toString())`. */
  method PadLabels(labels: seq<string>) returns (r: seq<string>)
    ensures r == PaddedLabels(labels)
  {
    r := labels;
    var i := |labels|;
    while i < 256
      invariant |labels| <= i <= (if |labels| < 256 then 256 else |labels|)
      invariant |r| == i && r[..|labels|] == labels
      invariant forall k | |labels| <= k < i :: r[k] == DecimalString(k)
    {
      r := r + [DecimalString(i)];
      i := i + 1;
    }
    assert |r| == |PaddedLabels(labels)|;
    assert forall k | 0 <= k < |r| :: r[k] == PaddedLabels(labels)[k] by {
      forall k | 0 <= k < |r| ensures r[k] == PaddedLabels(labels)[k] {
        if k < |labels| {
          assert r[k] == r[..|labels|][k];
          assert PaddedLabels(labels)[k] == PaddedLabels(labels)[..|labels|][k];
        }
      }
    }
  }

  /** The 1024 bytes a draw table starts from: 255, except the first
      entry's alpha. */
  function DrawBackground(): seq<Byte>
  {
    seq(1024, i => if i == 3 then 0 else 255)
  }

  /** The draw table: the first 1024 bytes of the label table over the
      background. */
  function DrawBytes(src: seq<Byte>): (r: seq<Byte>)
    ensures |r| == 1024
    ensures forall i | 0 <= i < 1024 ::
      r[i] == if i < |src| then src[i] else if i == 3 then 0 else 255
  {
    var m := if |src| < 1024 then |src| else 1024;
    src[..m] + DrawBackground()[m..]
  }

  /** `lut.fill(255)`, `lut[3] = 0` and the copy of `explicitLUTbytes`. */
  method CopyDrawBytes(src: seq<Byte>) returns (lut: seq<Byte>)
    ensures lut == DrawBytes(src)
  {
    var a := new Byte[1024](_ => 255);
    a[3] := 0;
    var m := if |src| < 1024 then |src| else 1024;
    var i := 0;
    while i < m
      invariant i <= m
      invariant forall k | 0 <= k < 1024 :: a[k] == if k < i then src[k] else if k == 3 then 0 else 255
    {
      a[i] := src[i];
      i := i + 1;
    }
    lut := a[..];
    assert forall k | 0 <= k < 1024 :: lut[k] == DrawBytes(src)[k];
  }

  /** The colormap `makeDrawLut` falls back on for an unknown name, as
      written: seven colours but only two indices. */
  function DrawFallbackAsWritten(): ColorMap
  {
    ColorMap([0, 255, 0, 0, 255, 0, 255], [0, 0, 255, 0, 255, 255, 0], [0, 0, 0, 255, 0, 255, 255],
             Some([0, 255, 255, 255, 255, 255, 255]), Some([0, 255]), Some(0), Some(0), None)
  }

  /** The fallback with one index per colour, pen values 0 to 6: without
      `I`, `makeLabelLut` numbers the colours itself. */
  function DrawFallback(): ColorMap
  {
    DrawFallbackAsWritten().(I := None)
  }

  /** The least of 0, 1, …, n - 1 is 0 and the greatest n - 1. */
  lemma RangeExtremes(n: nat)
    requires n > 0
    ensures SeqMin(Range(n)) == 0 && SeqMax(Range(n)) == n - 1
  {
    var s := Range(n);
    var lo :| 0 <= lo < n && s[lo] == SeqMin(s);
    var hi :| 0 <= hi < n && s[hi] == SeqMax(s);
    assert s[0] == 0 && s[n - 1] == n - 1;
  }

  /** Where `makeDrawLut` takes its colormap from. */
  datatype DrawSource = Named(name: string) | Given(cmap: ColorMap)

  function DrawColormap(cluts: map<string, ColorMap>, source: DrawSource): ColorMap
  {
    match source
    case Given(m) => m
    case Named(k) => if k in cluts then cluts[k] else DrawFallback()
  }

  /** What `makeDrawLut` returns or throws. */
  function MakeDrawLutSpec(cluts: map<string, ColorMap>, source: DrawSource)
    : (r: Result<Lut, LutError>)
    ensures r.Err? <==> MakeLabelLutSpec(DrawColormap(cluts, source), 255).Err?
    ensures r.Ok? ==>
      && |r.value.lut| == 1024 && r.value.labels.Some? && |r.value.labels.value| >= 256
      && r.value.min.None? && r.value.max.None?
  {
    match MakeLabelLutSpec(DrawColormap(cluts, source), 255)
    case Err(e) => Err(e)
    case Ok(cm) => Ok(Lut(DrawBytes(cm.lut), None, None, Some(PaddedLabels(cm.labels.Or([])))))
  }

  /** The colormap `makeDrawLut` draws with as written. */
  function DrawColormapAsWritten(cluts: map<string, ColorMap>, source: DrawSource): ColorMap
  {
    match source
    case Given(m) => m
    case Named(k) => if k in cluts then cluts[k] else DrawFallbackAsWritten()
  }

  /** The loop `cm.labels.push(i.toString())` on labels that may have holes. */
  function PaddedLabelsAsWritten(labels: seq<Option<string>>): seq<Option<string>>
  {
    if |labels| < 256 then labels + seq(256 - |labels|, k requires 0 <= k => Some(DecimalString(|labels| + k)))
    else labels
  }

  /** What `makeDrawLut` returns or throws as written: the fallback as
      written and the label placement as written. */
  function MakeDrawLutSpecAsWritten(cluts: map<string, ColorMap>, source: DrawSource)
    : Result<RawLut, LutError>
  {
    match MakeLabelLutSpecAsWritten(DrawColormapAsWritten(cluts, source), 255)
    case Err(e) => Err(e)
    case Ok(cm) =>
      Ok(RawLut(DrawBytes(cm.lut), None, None, Some(PaddedLabelsAsWritten(cm.labels.Or([])))))
  }

  /** As written, `makeDrawLut` throws for every name that is not
      registered: the fallback never gets through `makeLabelLut`'s length
      check. The corrected fallback yields a table. */
  lemma DrawFallbackAsWrittenThrows(cluts: map<string, ColorMap>, name: string)
    requires name !in cluts
    ensures MakeDrawLutSpecAsWritten(cluts, Named(name)) == Err(LengthMismatch)
    ensures MakeDrawLutSpec(cluts, Named(name)).Ok?
  {
    var f := DrawColormap(cluts, Named(name));
    assert |LabelIndices(f)| == |f.R| == 7;
  }

  /** Padding commutes with filling in the holes. */
  lemma PaddedHoleless(labels: seq<string>)
    ensures PaddedLabelsAsWritten(Holeless(labels)) == Holeless(PaddedLabels(labels))
  {
    var l, r := PaddedLabelsAsWritten(Holeless(labels)), Holeless(PaddedLabels(labels));
    assert |l| == |r|;
    forall i | 0 <= i < |l| ensures l[i] == r[i] {
      if i < |labels| {
        assert PaddedLabels(labels)[i] == PaddedLabels(labels)[..|labels|][i];
      }
    }
  }

  /** For a registered name or a given colormap whose least index is 0,
      `makeDrawLut` as written and as corrected agree. */
  lemma DrawLutAsWrittenAgrees(cluts: map<string, ColorMap>, source: DrawSource)
    requires source.Given? || source.name in cluts
    requires var m := DrawColormap(cluts, source);
      |LabelIndices(m)| > 0 ==> SeqMin(LabelIndices(m)) == 0
    ensures MakeDrawLutSpecAsWritten(cluts, source) == RawOf(MakeDrawLutSpec(cluts, source))
  {
    var m := DrawColormap(cluts, source);
    assert DrawColormapAsWritten(cluts, source) == m;
    if MakeLabelLutSpec(m, 255).Ok? {
      LabelLutAsWrittenFromZero(m, 255);
      PaddedHoleless(MakeLabelLutSpec(m, 255).value.labels.Or([]));
      assert Holeless([]) == [];
    }
  }

  /** Drawing with an unknown name uses the seven-colour palette, entry
      `k` for pen value `k`, white beyond it, and labels the 256 entries by
      their indices. */
  lemma DrawLutUnknownName(cluts: map<string, ColorMap>, name: string, k: nat, p: int)
    requires name !in cluts && k < 7 && 28 <= p < 1024
    ensures MakeDrawLutSpec(cluts, Named(name)).Ok?
    ensures var r, f := MakeDrawLutSpec(cluts, Named(name)).value, DrawFallback();
      && r.lut[4 * k] == ByteOf(f.R[k]) && r.lut[4 * k + 1] == ByteOf(f.G[k])
      && r.lut[4 * k + 2] == ByteOf(f.B[k]) && r.lut[4 * k + 3] == ByteOf(f.A.value[k])
      && r.lut[p] == 255
      && |r.labels.value| == 256 && r.labels.value[k] == DecimalString(k)
  {
    var f := DrawColormap(cluts, Named(name));
    assert |LabelIndices(f)| == |f.R| == 7;
    var cm := MakeLabelLutSpec(f, 255).value;
    LabelLutWithoutIndices(f, 255, cm, k);
    var r := MakeDrawLutSpec(cluts, Named(name)).value;
    assert r.lut == DrawBytes(cm.lut) && r.labels == Some(PaddedLabels([]));
  }

  // The colormap registry

  /** The colormap `colormapFromKey` falls back on: a two-point grayscale
      ramp. */
  function Grayscale(): ColorMap
  {
    ColorMap([0, 255], [0, 255], [0, 255], Some([0, 255]), Some([0, 255]), Some(0), Some(0), None)
  }

  /** `colormapFromKey`: the exact key, then the lower-cased key, then the
      grayscale ramp. */
  function LookupColormap(cluts: map<string, ColorMap>, name: string): ColorMap
  {
    if name in cluts then cluts[name]
    else if Lower(name) in cluts then cluts[Lower(name)]
    else Grayscale()
  }

  /** A lookup yields a stored colormap or the grayscale ramp. */
  lemma LookupIsStoredOrGrayscale(cluts: map<string, ColorMap>, name: string)
    ensures LookupColormap(cluts, name) in cluts.Values || LookupColormap(cluts, name) == Grayscale()
    ensures LookupColormap(cluts, name) == Grayscale() ==>
      Grayscale() in cluts.Values || (name !in cluts && Lower(name) !in cluts)
  {
    var m := LookupColormap(cluts, name);
    if name in cluts {
      assert cluts[name] in cluts.Values;
    } else if Lower(name) in cluts {
      assert cluts[Lower(name)] in cluts.Values;
    }
  }

  /** A colormap just added is found under its key. */
  lemma AddedColormapFound(cluts: map<string, ColorMap>, key: string, cmap: ColorMap)
    ensures LookupColormap(cluts[key := cmap], key) == cmap
  {
  }

  /** A colormap added under a lower-case key is found under any name that
      lower-cases to it, unless that name is a key of its own. */
  lemma AddedColormapFoundAnyCase(cluts: map<string, ColorMap>, key: string, cmap: ColorMap,
                                  name: string)
    requires Lower(name) == key && (name !in cluts || name == key)
    ensures LookupColormap(cluts[key := cmap], name) == cmap
  {
  }

  /** The colormaps by name (`cluts`), with `Object.keys` order. */
  class ColorTables {
    var cluts: map<string, ColorMap>
    /** The keys of `cluts` in the order they were first added. */
    var keys: seq<string>

    ghost predicate Valid()
      reads this
    {
      Distinct(keys) && forall k :: k in cluts <==> k in keys
    }

    /** A registry with no colormaps (loading them is not modelled). */
    constructor()
      ensures Valid() && cluts == map[] && keys == []
    {
      cluts := map[];
      keys := [];
    }

    /** `addColormap(key, cmap)`: `this.cluts[key] = cmap`. */
    method AddColormap(key: string, cmap: ColorMap)
      requires Valid()
      modifies this
      ensures Valid() && cluts == old(cluts)[key := cmap]
      ensures keys == if key in old(cluts) then old(keys) else old(keys) + [key]
      ensures ColormapFromKey(key) == cmap && key in Colormaps()
    {
      if key !in cluts {
        keys := keys + [key];
      }
      cluts := cluts[key := cmap];
      AddedColormapFound(old(cluts), key, cmap);
    }

    /** `colormaps()`: every key, once. */
    function Colormaps(): (r: seq<string>)
      reads this
      requires Valid()
      ensures Distinct(r) && forall k :: k in r <==> k in cluts
    {
      keys
    }

    function ColormapFromKey(name: string): ColorMap
      reads this
    {
      LookupColormap(cluts, name)
    }

    /** `colormap(key, isInvert)`: the table of the colormap found for
        `key`; `makeLut` makes no use of `isInvert`. */
    method Colormap(key: string, isInvert: bool) returns (lut: seq<Byte>)
      ensures var m := ColormapFromKey(key); lut == MakeLutSpec(m.R, m.G, m.B, m.A, m.I)
    {
      var m := ColormapFromKey(key);
      lut := MakeLut(m.R, m.G, m.B, m.A, m.I);
    }

    /** `makeDrawLut(name)`. */
    method MakeDrawLut(source: DrawSource) returns (r: Result<Lut, LutError>)
      ensures r == MakeDrawLutSpec(cluts, source)
    {
      var cmap := match source
        case Given(m) => m
        case Named(k) => if k in cluts then cluts[k] else DrawFallback();
      var cm := MakeLabelLut(cmap, 255);
      if cm.Err? {
        return Err(cm.error);
      }
      var labels := PadLabels(cm.value.labels.Or([]));
      var lut := CopyDrawBytes(cm.value.lut);
      r := Ok(Lut(lut, None, None, Some(labels)));
    }
  }
}
