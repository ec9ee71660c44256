/**
 * Geometry of the label canvas. The text boxes measured with the fonts are
 * inputs; everything else is fixed millimetre constants at 8 pixels per mm.
 */
module LabelLayout {

  const Dpi := 8                          // dots per millimetre
  const HeightMm := 48
  const PaddingLeftMm := 5
  const HeightPx := HeightMm * Dpi        // 384
  const PaddingLeftPx := PaddingLeftMm * Dpi  // 40
  const PaddingInternal := 3 * Dpi        // 24
  const LineGap := 1 * Dpi                // 8
  const BarcodeWidth := 30 * Dpi          // 240
  const BarcodeHeight := 10 * Dpi         // 80; the resize target's height, not used by the layout
  const BodyFontPx := 5 * Dpi             // name, producer and EAN line
  const PriceFontPx := 12 * Dpi           // the price
  /** Left edge of the name, producer, EAN line and barcode. */
  const XLeft := PaddingLeftPx + PaddingInternal  // 64
  /** The narrowest canvas: barcode-wide left region, empty price. */
  const MinWidth := PaddingLeftPx + BarcodeWidth + 4 * PaddingInternal  // 376

  /** Width and height of a measured text bounding box. */
  datatype Extent = Extent(width: nat, height: nat)

  /** The boxes of the four texts, as measured before painting. */
  datatype Measured = Measured(name: Extent, producer: Extent, ean: Extent, price: Extent)

  datatype Point = Point(x: int, y: int)

  /** Where everything is painted on a canvas of width x height pixels. */
  datatype Layout = Layout(
    width: int, height: int,
    leftWidth: int, rightWidth: int,
    nameAt: Point, producerAt: Point, eanAt: Point, barcodeAt: Point,
    priceAt: Point, separatorX: int)

  function Max(a: int, b: int): int {
    if a < b then b else a
  }

  /** The widest of the left column's contents: three text lines and the barcode. */
  function ContentWidth(m: Measured): (w: int)
    ensures w >= m.name.width && w >= m.producer.width && w >= m.ean.width && w >= BarcodeWidth
    ensures w == m.name.width || w == m.producer.width || w == m.ean.width || w == BarcodeWidth
  {
    Max(Max(Max(m.name.width, m.producer.width), m.ean.width), BarcodeWidth)
  }

  function Sum(s: seq<nat>): nat {
    if s == [] then 0 else s[0] + Sum(s[1..])
  }

  lemma {:induction false} SumSnoc(s: seq<nat>, x: nat)
    ensures Sum(s + [x]) == Sum(s) + x
    decreases |s|
  {
    if s == [] {
      assert [] + [x] == [x];
    } else {
      assert (s + [x])[1..] == s[1..] + [x];
      SumSnoc(s[1..], x);
    }
  }

  /**
   * Top of the k-th element of the left stack: the padding, then for every
   * element above it its height and one line gap.
   */
  function StackTop(heights: seq<nat>, k: nat): int
    requires k <= |heights|
  {
    PaddingInternal + Sum(heights[..k]) + k * LineGap
  }

  lemma StackTopStep(heights: seq<nat>, k: nat)
    requires k < |heights|
    ensures StackTop(heights, k + 1) == StackTop(heights, k) + heights[k] + LineGap
  {
    assert heights[..k + 1] == heights[..k] + [heights[k]];
    SumSnoc(heights[..k], heights[k]);
  }

  /**
   * The layout create_label computes: left region = widest content + two
   * paddings, right region = price width + two paddings, the left stack from the
   * top padding down, the price vertically centred right of the separator.
   */
  function PlanLayout(m: Measured): (l: Layout)
    ensures l.height == HeightPx && l.width == PaddingLeftPx + l.leftWidth + l.rightWidth
    ensures l.leftWidth == ContentWidth(m) + 2 * PaddingInternal
    ensures l.rightWidth == m.price.width + 2 * PaddingInternal
    ensures l.separatorX == PaddingLeftPx + l.leftWidth
    ensures l.width >= MinWidth
    // every element of the left column starts at XLeft and ends a padding before the separator
    ensures l.nameAt.x == l.producerAt.x == l.eanAt.x == l.barcodeAt.x == XLeft
    ensures XLeft + m.name.width + PaddingInternal <= l.separatorX
    ensures XLeft + m.producer.width + PaddingInternal <= l.separatorX
    ensures XLeft + m.ean.width + PaddingInternal <= l.separatorX
    ensures XLeft + BarcodeWidth + PaddingInternal <= l.separatorX
    // and one of them touches that bound
    ensures l.separatorX - PaddingInternal - XLeft
      in {m.name.width, m.producer.width, m.ean.width, BarcodeWidth}
    // the separator lies strictly between the left column and the price
    ensures XLeft < l.separatorX < l.priceAt.x
    ensures l.priceAt.x == l.separatorX + PaddingInternal
    ensures l.priceAt.x + m.price.width + PaddingInternal == l.width
    // the price is centred: the space below it is the space above it or one pixel more
    ensures 0 <= (l.height - m.price.height - l.priceAt.y) - l.priceAt.y <= 1
    // the stack: each line starts its height plus a gap below the previous one
    ensures l.nameAt.y == PaddingInternal
    ensures l.producerAt.y == l.nameAt.y + m.name.height + LineGap
    ensures l.eanAt.y == l.producerAt.y + m.producer.height + LineGap
    ensures l.barcodeAt.y == l.eanAt.y + m.ean.height + LineGap
  {
    var heights := [m.name.height, m.producer.height, m.ean.height];
    var left := ContentWidth(m) + 2 * PaddingInternal;
    var right := m.price.width + 2 * PaddingInternal;
    StackTopStep(heights, 0);
    StackTopStep(heights, 1);
    StackTopStep(heights, 2);
    Layout(
      PaddingLeftPx + left + right, HeightPx,
      left, right,
      Point(XLeft, StackTop(heights, 0)),
      Point(XLeft, StackTop(heights, 1)),
      Point(XLeft, StackTop(heights, 2)),
      Point(XLeft, StackTop(heights, 3)),
      Point(PaddingLeftPx + left + PaddingInternal, (HeightPx - m.price.height) / 2),
      PaddingLeftPx + left)
  }

  /** The barcode is pasted at 24 + the sum over the three text lines of (height + 8). */
  lemma BarcodeTop(m: Measured)
    ensures PlanLayout(m).barcodeAt.y
      == PaddingInternal + (m.name.height + LineGap) + (m.producer.height + LineGap) + (m.ean.height + LineGap)
  {
  }

  /**
   * The two passes of create_label over measured text: the measure pass runs
   * the cursor y_offset down the three text lines and sizes the regions; the
   * paint pass runs a second cursor y_pos down the same lines. Returns the
   * layout and the measure pass's final cursor, which is where the paint pass
   * pastes the barcode.
   */
  method ComposeLayout(m: Measured) returns (l: Layout, measuredEnd: int)
    ensures l == PlanLayout(m)
    ensures measuredEnd == l.barcodeAt.y
  {
    // measure pass
    var yOffset := PaddingInternal;
    yOffset := yOffset + m.name.height + LineGap;
    yOffset := yOffset + m.producer.height + LineGap;
    yOffset := yOffset + m.ean.height + LineGap;
    var leftWidth := Max(Max(Max(m.name.width, m.producer.width), m.ean.width), BarcodeWidth)
      + PaddingInternal * 2;
    var rightWidth := m.price.width + PaddingInternal * 2;
    var totalWidth := PaddingLeftPx + leftWidth + rightWidth;

    // paint pass
    var xLeft := PaddingLeftPx + PaddingInternal;
    var yPos := PaddingInternal;
    var nameAt := Point(xLeft, yPos);
    yPos := yPos + m.name.height + LineGap;
    var producerAt := Point(xLeft, yPos);
    yPos := yPos + m.producer.height + LineGap;
    var eanAt := Point(xLeft, yPos);
    yPos := yPos + m.ean.height + LineGap;
    var barcodeAt := Point(xLeft, yPos);
    // Python's // floors; Dafny's / with a positive divisor does the same, also below zero
    var priceAt := Point(PaddingLeftPx + leftWidth + PaddingInternal, (HeightPx - m.price.height) / 2);
    var separatorX := PaddingLeftPx + leftWidth;

    l := Layout(totalWidth, HeightPx, leftWidth, rightWidth,
      nameAt, producerAt, eanAt, barcodeAt, priceAt, separatorX);
    measuredEnd := yOffset;
  }
}
