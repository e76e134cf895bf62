/**
 * The measurement rule of WidgetView (`onMeasure`, `getMode`, `getWidthSize`,
 * `getHeightSize`). A measure spec is the 32-bit Int the parent passes down,
 * laid out as android.view.View.MeasureSpec documents it: the mode in the two
 * high bits and the size in the low thirty. Here the spec is its bit pattern
 * read as an unsigned number, so the mode is the multiple of 2^30 it holds and
 * the size the remainder. Kotlin `Int` addition wraps around at 32 bits, and
 * the padded branch is written with that wrap-around.
 */
module Measurement {

  /** Sizes are the low thirty bits of a spec. */
  const SIZE_LIMIT: int := 0x4000_0000

  const UNSPECIFIED: int := 0
  const EXACTLY: int := 0x4000_0000
  const AT_MOST: int := 0x8000_0000

  const TWO_31: int := 0x8000_0000
  const TWO_32: int := 0x1_0000_0000

  /** A Kotlin `Int`. */
  type Int32 = x: int | -TWO_31 <= x < TWO_31

  /** The 32 bits of a measure spec. */
  type Spec = x: int | 0 <= x < TWO_32

  /** Two's-complement wrap-around of an exact sum into a Kotlin `Int`. */
  function Wrap32(x: int): (r: Int32)
    ensures (r - x) % TWO_32 == 0
    ensures -TWO_31 <= x < TWO_31 ==> r == x
  {
    var m := x % TWO_32;
    if m >= TWO_31 then m - TWO_32 else m
  }

  /** `MeasureSpec.getMode`: the two high bits, in place. */
  function ModeOf(spec: Spec): (mode: int)
    ensures mode % SIZE_LIMIT == 0 && 0 <= mode <= spec
  {
    spec - spec % SIZE_LIMIT
  }

  /** `MeasureSpec.getSize`: the thirty low bits. */
  function SizeOf(spec: Spec): (size: int)
    ensures 0 <= size < SIZE_LIMIT && size <= spec
  {
    spec % SIZE_LIMIT
  }

  predicate IsMode(mode: int) {
    mode == UNSPECIFIED || mode == EXACTLY || mode == AT_MOST
  }

  /** `MeasureSpec.makeMeasureSpec`, the parent's side of the encoding. */
  function MakeSpec(size: int, mode: int): Spec
    requires 0 <= size < SIZE_LIMIT && IsMode(mode)
  {
    mode + size
  }

  /** `getMode`: true exactly when the parent imposes an exact size. */
  function GetMode(spec: Spec): bool {
    ModeOf(spec) == EXACTLY
  }

  /** `getWidthSize`: `size + paddingStart + paddingEnd` is evaluated left to right on Kotlin Ints. */
  function GetWidthSize(spec: Spec, exact: bool, paddingStart: Int32, paddingEnd: Int32): (width: Int32)
    ensures exact ==> width == SizeOf(spec)
    ensures !exact ==> width == Wrap32(SizeOf(spec) + paddingStart + paddingEnd)
  {
    WrapTwice(SizeOf(spec) + paddingStart, paddingEnd);
    if exact then SizeOf(spec) else Wrap32(Wrap32(SizeOf(spec) + paddingStart) + paddingEnd)
  }

  /** `getHeightSize`: the same rule on the vertical padding. */
  function GetHeightSize(spec: Spec, exact: bool, paddingTop: Int32, paddingBottom: Int32): (height: Int32)
    ensures exact ==> height == SizeOf(spec)
    ensures !exact ==> height == Wrap32(SizeOf(spec) + paddingTop + paddingBottom)
  {
    WrapTwice(SizeOf(spec) + paddingTop, paddingBottom);
    if exact then SizeOf(spec) else Wrap32(Wrap32(SizeOf(spec) + paddingTop) + paddingBottom)
  }

  datatype Padding = Padding(start: Int32, top: Int32, end: Int32, bottom: Int32)

  /** The dimensions `onMeasure` passes to `setMeasuredDimension`. */
  function OnMeasure(widthSpec: Spec, heightSpec: Spec, pad: Padding): (Int32, Int32) {
    (GetWidthSize(widthSpec, GetMode(widthSpec), pad.start, pad.end),
     GetHeightSize(heightSpec, GetMode(heightSpec), pad.top, pad.bottom))
  }

  /** Wrapping after each addition equals wrapping the exact sum once. */
  lemma WrapTwice(a: int, b: int)
    ensures Wrap32(Wrap32(a) + b) == Wrap32(a + b)
  {
    var w := Wrap32(a);
    var q := (w - a) / TWO_32;
    assert w - a == q * TWO_32;
    ModShift(a + b, q);
  }

  lemma ModShift(x: int, q: int)
    ensures (x + q * TWO_32) % TWO_32 == x % TWO_32
  {
  }

  /** Decoding a spec the parent built gives back its mode and its size. */
  lemma SpecRoundTrip(size: int, mode: int)
    requires 0 <= size < SIZE_LIMIT && IsMode(mode)
    ensures ModeOf(MakeSpec(size, mode)) == mode
    ensures SizeOf(MakeSpec(size, mode)) == size
  {
  }

  /** `getMode` is true for the EXACTLY mode and false for every other mode. */
  lemma GetModeExactly(size: int, mode: int)
    requires 0 <= size < SIZE_LIMIT && IsMode(mode)
    ensures GetMode(MakeSpec(size, mode)) <==> mode == EXACTLY
  {
    SpecRoundTrip(size, mode);
  }

  /**
   * The measured width: in EXACTLY mode the spec size itself, in every other
   * mode (AT_MOST and UNSPECIFIED alike) the spec size plus the horizontal
   * padding, wrapped to a Kotlin Int.
   */
  lemma MeasuredWidth(size: int, mode: int, heightSpec: Spec, pad: Padding)
    requires 0 <= size < SIZE_LIMIT && IsMode(mode)
    ensures OnMeasure(MakeSpec(size, mode), heightSpec, pad).0
            == if mode == EXACTLY then size else Wrap32(size + pad.start + pad.end)
  {
    SpecRoundTrip(size, mode);
    WrapTwice(size + pad.start, pad.end);
  }

  /** The measured height follows the same rule with the vertical padding. */
  lemma MeasuredHeight(widthSpec: Spec, size: int, mode: int, pad: Padding)
    requires 0 <= size < SIZE_LIMIT && IsMode(mode)
    ensures OnMeasure(widthSpec, MakeSpec(size, mode), pad).1
            == if mode == EXACTLY then size else Wrap32(size + pad.top + pad.bottom)
  {
    SpecRoundTrip(size, mode);
    WrapTwice(size + pad.top, pad.bottom);
  }

  /** With non-negative padding that fits in an Int, the padded width is never smaller than the spec size. */
  lemma PaddedWidthGrows(spec: Spec, paddingStart: Int32, paddingEnd: Int32)
    requires 0 <= paddingStart && 0 <= paddingEnd
    requires SizeOf(spec) + paddingStart + paddingEnd < TWO_31
    ensures GetWidthSize(spec, false, paddingStart, paddingEnd) == SizeOf(spec) + paddingStart + paddingEnd
    ensures GetWidthSize(spec, false, paddingStart, paddingEnd) >= GetWidthSize(spec, true, paddingStart, paddingEnd)
  {
  }

  /** Large padding makes the Kotlin sum wrap to a negative width. */
  lemma PaddedWidthCanWrap()
    ensures GetWidthSize(MakeSpec(SIZE_LIMIT - 1, AT_MOST), false, TWO_31 - 1, 0) < 0
  {
    SpecRoundTrip(SIZE_LIMIT - 1, AT_MOST);
  }
}
