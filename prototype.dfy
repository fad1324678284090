/** The earlier single-page program: the same placement loop with its own
    constants, counting the pages it would need instead of flushing them,
    so that all eight copies end up on one page. */
module Prototype {
  import opened Wrappers
  import opened Images
  import opened PrintPdf
  import opened Configs
  import opened PdfDocUtil
  import opened PdfDocExtIdCard
  import Extensions

  /** The program's constants: A4, CR80 cards, top margin 15, left and
      bottom margins 10, both spacings 10. */
  function ProtoConfig(): (cfg: PageMarginConfig)
    ensures PositiveLengths(cfg) && CardFitsOnEmptyPage(cfg)
    ensures RightBound(cfg) == 200.0 && TopRowY(cfg) == 228.0
  {
    PageMarginConfig(
      pageWidth := 210.0, pageHeight := 297.0,
      cardWidth := 85.6, cardHeight := 54.0,
      marginTop := 15.0, marginLeft := 10.0, marginBottom := 10.0,
      horizontalSpacing := 10.0, verticalSpacing := 10.0)
  }

  /** `calc_dpi`: the prototype's own copy of the density formula; it
      agrees with `calc_avg_dpi`. */
  function CalcDpi(width: real, height: real, pxW: nat, pxH: nat): (dpi: real)
    requires width > 0.0 && height > 0.0
    ensures dpi == CalcAvgDpi(width, height, pxW, pxH)
  {
    var widthIn := width / 25.4;
    var heightIn := height / 25.4;
    var widthDpi := pxW as real / widthIn;
    var heightDpi := pxH as real / heightIn;
    (widthDpi + heightDpi) / 2.0
  }

  /** `scale_factor`: the smaller of the two ratios card size over pixel
      count, so that the image scaled by it fits the card on both axes and
      fills it on one. */
  function ScaleFactor(cardW: real, cardH: real, pxW: nat, pxH: nat): (s: real)
    requires pxW > 0 && pxH > 0
    ensures s == cardW / pxW as real || s == cardH / pxH as real
    ensures s <= cardW / pxW as real && s <= cardH / pxH as real
    ensures s * pxW as real <= cardW && s * pxH as real <= cardH
  {
    var sx := cardW / pxW as real;
    var sy := cardH / pxH as real;
    ScaledFits(sx, sy, cardW, cardH, pxW, pxH);
    if sx <= sy then sx else sy
  }

  lemma ScaledFits(sx: real, sy: real, cardW: real, cardH: real, pxW: nat, pxH: nat)
    requires pxW > 0 && pxH > 0 && sx == cardW / pxW as real && sy == cardH / pxH as real
    ensures (if sx <= sy then sx else sy) * pxW as real <= cardW
    ensures (if sx <= sy then sx else sy) * pxH as real <= cardH
  {
    var s := if sx <= sy then sx else sy;
    assert sx * pxW as real == cardW;
    assert sy * pxH as real == cardH;
    assert s * pxW as real <= sx * pxW as real;
    assert s * pxH as real <= sy * pxH as real;
  }

  /** The placements of the first `n` copies at their slots. */
  function ProtoOps(cfg: PageMarginConfig, id: nat, dpi: real, n: nat): (ops: seq<Op>)
    ensures |ops| == n
    ensures forall k :: 0 <= k < n ==> ops[k] == PlaceOp(id, Slot(cfg, k), dpi)
  {
    seq(n, k requires 0 <= k < n => PlaceOp(id, Slot(cfg, k), dpi))
  }

  /** The prototype's loop: the same wrap and overflow tests as
      `add_card_side`, but an overflow only increments the page count; every
      placement stays in the one list. */
  method PrototypeSheet(cfg: PageMarginConfig, id: nat, dpi: real) returns (ops: seq<Op>, pageCount: nat)
    ensures ops == ProtoOps(cfg, id, dpi, Copies)
    ensures pageCount == 1 + OverflowCount(cfg, Copies)
  {
    pageCount := 1;
    var currentX := cfg.marginLeft;
    var currentY := cfg.pageHeight - cfg.marginTop - cfg.cardHeight;
    ops := [];
    for i := 1 to Copies + 1
      invariant Cursor(currentX, currentY) == CursorBefore(cfg, i - 1)
      invariant pageCount == 1 + OverflowCount(cfg, i - 1)
      invariant ops == ProtoOps(cfg, id, dpi, i - 1)
    {
      if currentX + cfg.cardWidth > cfg.pageWidth - cfg.marginLeft {
        currentX := cfg.marginLeft;
        currentY := currentY - (cfg.cardHeight + cfg.verticalSpacing);
      }
      ghost var wrapped := Cursor(currentX, currentY);
      assert wrapped == Wrap(cfg, CursorBefore(cfg, i - 1));
      if currentY < cfg.marginBottom {
        pageCount := pageCount + 1;
        currentY := cfg.pageHeight - cfg.marginTop - cfg.cardHeight;
      }
      assert Cursor(currentX, currentY) == Slot(cfg, i - 1);
      ops := ops + [UseXObject(id, currentX, currentY, 1.0, 1.0, None, dpi)];
      currentX := currentX + cfg.cardWidth + cfg.horizontalSpacing;
    }
  }

  /** The prototype's `main`, given the processed image: `None` where the
      conversion's `.unwrap()` panics; otherwise the stored image, the one
      A4 page holding the eight placements, and the page count. */
  method PrototypeMain(processed: DynamicImage) returns (outcome: Option<(RawImage, Page, nat)>)
    ensures outcome.None? <==> Extensions.Convert(processed).Err?
    ensures outcome.Some? ==>
      var image := Extensions.Convert(processed).value;
      var cfg := ProtoConfig();
      var dpi := CalcDpi(cfg.cardWidth, cfg.cardHeight, image.width, image.height);
      outcome.value == (image, Page(210.0, 297.0, ProtoOps(cfg, 0, dpi, Copies)), 1 + OverflowCount(cfg, Copies))
  {
    var cfg := ProtoConfig();
    var warnings := new Extensions.WarningLog();
    var converted := Extensions.FromDynamicImage(processed, warnings);
    if converted.Err? {
      return None;
    }
    var image := converted.value;
    var imageId := 0;
    var dpi := CalcDpi(cfg.cardWidth, cfg.cardHeight, image.width, image.height);
    var ops, pageCount := PrototypeSheet(cfg, imageId, dpi);
    var page := Page(210.0, 297.0, ops);
    outcome := Some((image, page, pageCount));
  }

  /** With the prototype's constants the copies sit two per row, at x = 10
      and x = 105.6, on the rows y = 228, 164, 100 and 36, and the page
      count stays 1. */
  lemma ProtoSlots()
    ensures forall k :: 0 <= k < Copies ==>
              Slot(ProtoConfig(), k) == Cursor(if k % 2 == 0 then 10.0 else 105.6, 228.0 - 64.0 * ((k / 2) as real))
    ensures OverflowCount(ProtoConfig(), Copies) == 0
  {
    var p := ProtoConfig();
    assert CursorBefore(p, 0) == Cursor(10.0, 228.0);
    assert Slot(p, 0) == Cursor(10.0, 228.0);
    assert CursorBefore(p, 1) == Cursor(105.6, 228.0);
    assert Slot(p, 1) == Cursor(105.6, 228.0);
    assert CursorBefore(p, 2) == Cursor(201.2, 228.0);
    assert Slot(p, 2) == Cursor(10.0, 164.0);
    assert CursorBefore(p, 3) == Cursor(105.6, 164.0);
    assert Slot(p, 3) == Cursor(105.6, 164.0);
    assert CursorBefore(p, 4) == Cursor(201.2, 164.0);
    assert Slot(p, 4) == Cursor(10.0, 100.0);
    assert CursorBefore(p, 5) == Cursor(105.6, 100.0);
    assert Slot(p, 5) == Cursor(105.6, 100.0);
    assert CursorBefore(p, 6) == Cursor(201.2, 100.0);
    assert Slot(p, 6) == Cursor(10.0, 36.0);
    assert CursorBefore(p, 7) == Cursor(105.6, 36.0);
    assert Slot(p, 7) == Cursor(105.6, 36.0);
    assert OverflowCount(p, 1) == 0;
    assert OverflowCount(p, 2) == 0;
    assert OverflowCount(p, 3) == 0;
    assert OverflowCount(p, 4) == 0;
    assert OverflowCount(p, 5) == 0;
    assert OverflowCount(p, 6) == 0;
    assert OverflowCount(p, 7) == 0;
  }
}
