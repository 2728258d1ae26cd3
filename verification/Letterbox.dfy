/** VirtualDisplay::getDisplayRect, and the pointer coordinates that AndroidDesktop::pointerEvent
    derives from it. The source computes with float; here ratios are exact and a cast to
    uint32_t is the floor. */
module Letterbox {
  datatype Size = Size(width: nat, height: nat) {
    function Transposed(): Size { Size(height, width) }

    predicate Positive() { width > 0 && height > 0 }
  }

  datatype Rect = Rect(left: nat, top: nat, right: nat, bottom: nat) {
    function Width(): int { right - left }

    function Height(): int { bottom - top }

    function Transposed(): Rect { Rect(top, left, bottom, right) }
  }

  /** The floor of a * n / d, the exact value of (uint32_t)((float)a * n / d). */
  function ScaleDown(a: nat, n: nat, d: nat): (r: nat)
    requires d > 0
    ensures r * d <= a * n < r * d + d
  {
    assert a * n == (a * n) / d * d + (a * n) % d;
    DivNonNegative(a * n, d);
    (a * n) / d
  }

  lemma DivNonNegative(a: nat, d: nat)
    requires d > 0
    ensures a / d >= 0
  {}

  /** The size of the desktop image inside the view. */
  function FitSize(view: Size, source: Size): Size
    requires source.Positive()
  {
    var fitted := ScaleDown(view.height, source.width, source.height);
    if view.width <= fitted then Size(view.width, ScaleDown(view.width, source.height, source.width))
    else Size(fitted, view.height)
  }

  lemma FitsInside(view: Size, source: Size)
    requires source.Positive()
    ensures FitSize(view, source).width <= view.width && FitSize(view, source).height <= view.height
  {
    var fitted := ScaleDown(view.height, source.width, source.height);
    if view.width <= fitted {
      var out := ScaleDown(view.width, source.height, source.width);
      MulLe(view.width, fitted, source.height);
      if out > view.height { MulLe(view.height + 1, out, source.width); MulSum(view.height, source.width); }
    }
  }

  lemma MulLe(a: nat, b: nat, c: nat)
    requires a <= b
    ensures a * c <= b * c
  {}

  lemma MulSum(a: nat, c: nat)
    ensures (a + 1) * c == a * c + c
  {}

  function DisplayRect(view: Size, source: Size): (r: Rect)
    requires source.Positive()
  {
    FitsInside(view, source);
    var out := FitSize(view, source);
    var offX := (view.width - out.width) / 2;
    var offY := (view.height - out.height) / 2;
    Rect(offX, offY, offX + out.width, offY + out.height)
  }

  // ---- The rectangle is the right one ----

  /** It lies inside the view, touches both edges on one axis at least, and its two margins on
      either axis differ by at most one pixel. */
  lemma RectIsCentredInside(view: Size, source: Size)
    requires source.Positive()
    ensures var r := DisplayRect(view, source);
      && r.left <= r.right <= view.width && r.top <= r.bottom <= view.height
      && (r.Width() == view.width || r.Height() == view.height)
      && 0 <= (view.width - r.right) - r.left <= 1
      && 0 <= (view.height - r.bottom) - r.top <= 1
  {
    FitsInside(view, source);
  }

  /** Its aspect is the source's to within one pixel on the axis that was cut. */
  lemma AspectWithinAPixel(view: Size, source: Size)
    requires source.Positive()
    ensures var out := FitSize(view, source);
      || (out.width == view.width && out.height * source.width <= out.width * source.height < (out.height + 1) * source.width)
      || (out.height == view.height && out.width * source.height <= out.height * source.width < (out.width + 1) * source.height)
  {
    var fitted := ScaleDown(view.height, source.width, source.height);
    var out := FitSize(view, source);
    if view.width <= fitted { MulSum(out.height, source.width); } else { MulSum(out.width, source.height); }
  }

  /** It is the largest: any uniform scaling of the source that fits in the view has floored
      sides no longer than its own. */
  lemma RectIsMaximal(view: Size, source: Size, t: real)
    requires source.Positive() && t >= 0.0
    requires t * source.width as real <= view.width as real && t * source.height as real <= view.height as real
    ensures (t * source.width as real).Floor <= FitSize(view, source).width
    ensures (t * source.height as real).Floor <= FitSize(view, source).height
  {
    var fitted := ScaleDown(view.height, source.width, source.height);
    if view.width <= fitted {
      FlooredSide(t, source.width, view.width, source.height, ScaleDown(view.width, source.height, source.width));
    } else {
      FlooredSide(t, source.height, view.height, source.width, fitted);
    }
  }

  /** If t times one side fits in v, then t times the other side is below the next pixel. */
  lemma FlooredSide(t: real, side: nat, v: nat, other: nat, out: nat)
    requires t >= 0.0 && side > 0 && other > 0
    requires t * side as real <= v as real
    requires v * other < out * side + side
    ensures (t * other as real).Floor <= out
  {
    var p := t * other as real;
    assert p * side as real == (t * side as real) * other as real;
    assert (t * side as real) * other as real <= v as real * other as real;
    assert v as real * other as real == (v * other) as real;
    assert (out * side + side) as real == (out + 1) as real * side as real by { MulSum(out, side); }
    CancelFactor(p, (out + 1) as real, side as real);
  }

  lemma CancelFactor(p: real, q: real, s: real)
    requires s > 0.0 && p * s < q * s
    ensures p < q
  {}

  /** The rectangle turns with the screen: transposing view and source transposes it, also at
      the tie where the two branch conditions meet. */
  lemma RectTransposes(view: Size, source: Size)
    requires source.Positive()
    ensures FitSize(view.Transposed(), source.Transposed()) == FitSize(view, source).Transposed()
    ensures DisplayRect(view.Transposed(), source.Transposed()) == DisplayRect(view, source).Transposed()
  {
    var a, b := view.width * source.height, view.height * source.width;
    FloorCompare(view.width, view.height, source.width, source.height);
    FloorCompare(view.height, view.width, source.height, source.width);
    if a == b {
      ExactDivision(view.width, source.height, source.width, view.height);
      ExactDivision(view.height, source.width, source.height, view.width);
    }
  }

  /** The branch condition of getDisplayRect compares the two cross products. */
  lemma FloorCompare(w: nat, h: nat, n: nat, d: nat)
    requires d > 0 && n > 0
    ensures w <= ScaleDown(h, n, d) <==> w * d <= h * n
  {
    var q := ScaleDown(h, n, d);
    if w <= q { MulLe(w, q, d); } else { MulLe(q + 1, w, d); MulSum(q, d); }
  }

  lemma ExactDivision(a: nat, n: nat, d: nat, q: nat)
    requires d > 0 && a * n == q * d
    ensures ScaleDown(a, n, d) == q
  {
    var r := ScaleDown(a, n, d);
    if r < q { MulLe(r + 1, q, d); MulSum(r, d); }
    if r > q { MulLe(q + 1, r, d); MulSum(q, d); }
  }

  /** The view is not empty and reaches one source pixel on each axis at the scale of the other. */
  predicate ViewHasRoom(view: Size, source: Size) {
    view.Positive() && view.width * source.height >= source.width && view.height * source.width >= source.height
  }

  /** When there is a rectangle at all: no side of it is empty exactly if the view has room. */
  lemma RectHasRoom(view: Size, source: Size)
    requires source.Positive()
    ensures FitSize(view, source).Positive() <==> ViewHasRoom(view, source)
  {
    FloorCompare(view.width, view.height, source.width, source.height);
    OneFits(view.width, source.height, source.width);
    OneFits(view.height, source.width, source.height);
  }

  /** A quotient is positive exactly if it reaches the divisor, and a positive factor reaches the
      other one. */
  lemma OneFits(a: nat, n: nat, d: nat)
    requires d > 0 && n > 0
    ensures ScaleDown(a, n, d) > 0 <==> a * n >= d
    ensures if a > 0 then a * n >= n else a * n == 0
  {
    FloorCompare(1, a, n, d);
    if a > 0 { MulLe(1, a, n); }
  }

  // ---- Pointer mapping ----

  const TWO_32 := 0x1_0000_0000

  function ToUint32(i: int): nat { i % TWO_32 }

  /** C division by two, which truncates toward zero. */
  function Half(i: int): int { if i >= 0 then i / 2 else -((-i) / 2) }

  /** One axis of pointerEvent: the margin is worked out again from the sizes, the subtraction
      and the product are uint32_t, and the quotient is cut to uint32_t. */
  function MapAxis(pos: int, bufferExtent: int, rectExtent: nat, mode: nat): nat
    requires rectExtent > 0
  {
    var margin := ToUint32(Half(bufferExtent - rectExtent));
    var product := ToUint32(ToUint32(pos - margin) * mode);
    DivNonNegative(product, rectExtent);
    product / rectExtent
  }

  /** The same for an extent that may be 0: the quotient is then infinite or no number, and what
      its cast to uint32_t yields is left open. */
  function CastAxis(pos: int, bufferExtent: int, rectExtent: nat, mode: nat, undefined: nat): nat {
    if rectExtent == 0 then undefined else MapAxis(pos, bufferExtent, rectExtent, mode)
  }

  /** The position inside the rectangle, scaled to the mode, in plain integers. */
  function Mapped(offset: nat, extent: nat, mode: nat): nat
    requires extent > 0
  {
    ScaleDown(offset, mode, extent)
  }

  lemma ProductBound(a: nat, b: nat)
    requires a <= 65535 && b <= 65535
    ensures a * b <= 65535 * 65535
  {
    MulLe(a, 65535, b);
  }

  lemma SmallIsUnwrapped(i: nat)
    requires i < TWO_32
    ensures ToUint32(i) == i
  {}

  lemma MappedInRange(offset: nat, extent: nat, mode: nat)
    requires 0 < extent && offset <= extent
    ensures Mapped(offset, extent, mode) <= mode
  {
    var m := Mapped(offset, extent, mode);
    MulLe(offset, extent, mode);
    if m > mode { MulLe(mode + 1, m, extent); MulSum(mode, extent); }
  }

  /** With the rectangle that the buffer's view gives, a 16-bit position and a 16-bit mode, nothing
      wraps: the margin equals the rectangle's near edge, and the result is the plain scaling,
      inside the axis. */
  lemma MappingIsSafe(pos: int, view: nat, near: nat, extent: nat, mode: nat)
    requires 0 < extent <= view && pos <= 65535 && mode <= 65535
    requires near == (view - extent) / 2
    requires near <= pos <= near + extent
    ensures MapAxis(pos, view, extent, mode) == Mapped(pos - near, extent, mode) <= mode
  {
    SmallIsUnwrapped(near);
    SmallIsUnwrapped(pos - near);
    ProductBound(pos - near, mode);
    SmallIsUnwrapped((pos - near) * mode);
    MappedInRange(pos - near, extent, mode);
  }

  lemma MappingIsMonotone(a: nat, b: nat, extent: nat, mode: nat)
    requires extent > 0 && a <= b
    ensures Mapped(a, extent, mode) <= Mapped(b, extent, mode)
  {
    var p, q := Mapped(a, extent, mode), Mapped(b, extent, mode);
    MulLe(a, b, mode);
    if q < p { MulLe(q + 1, p, extent); MulSum(q, extent); }
  }

  /** The near edge maps to 0 and the far edge to the full mode. */
  lemma MappingEnds(extent: nat, mode: nat)
    requires extent > 0
    ensures Mapped(0, extent, mode) == 0 && Mapped(extent, extent, mode) == mode
  {
    ExactDivision(extent, mode, extent, mode);
    ExactDivision(0, mode, extent, 0);
  }

  /** A rectangle at least as large as the mode reaches every coordinate. */
  lemma MappingIsOnto(extent: nat, mode: nat, target: nat) returns (offset: nat)
    requires extent > 0 && mode <= extent && target <= mode
    ensures offset <= extent && Mapped(offset, extent, mode) == target
  {
    if mode == 0 {
      offset := 0;
      MappingEnds(extent, mode);
    } else {
      // the first offset whose product reaches target * extent
      offset := (target * extent + mode - 1) / mode;
      var n := target * extent + mode - 1;
      assert n == n / mode * mode + n % mode;
      MulLe(target, mode, extent);
      if offset > extent { MulLe(extent + 1, offset, mode); MulSum(extent, mode); }
      var m := Mapped(offset, extent, mode);
      if m < target { MulLe(m + 1, target, extent); MulSum(m, extent); }
      if m > target { MulLe(target + 1, m, extent); MulSum(target, extent); }
    }
  }

  /** A rectangle at most as large as the mode keeps different positions apart. */
  lemma MappingIsInjective(a: nat, b: nat, extent: nat, mode: nat)
    requires 0 < extent <= mode && a < b
    ensures Mapped(a, extent, mode) < Mapped(b, extent, mode)
  {
    var p, q := Mapped(a, extent, mode), Mapped(b, extent, mode);
    MulLe(a + 1, b, mode);
    MulSum(a, mode);
    if q <= p { MulLe(q, p, extent); }
  }
}
