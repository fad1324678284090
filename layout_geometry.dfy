/** The geometry of the cursor machine of `add_card_side`: where the copies
    land when one card fits on an empty page, how one copy's position follows
    from the previous one, the blank page flushed when the card does not fit,
    and the concrete layouts of the default configuration and of a
    configuration that needs a second page. */
module LayoutGeometry {
  import opened Wrappers
  import opened PrintPdf
  import opened Configs
  import opened PdfDocUtil
  import opened PdfDocExtIdCard
  import opened CardSheetProofs

  /** Positive lengths, and one card fits on an empty page. */
  predicate Fits(cfg: PageMarginConfig) {
    PositiveLengths(cfg) && CardFitsOnEmptyPage(cfg)
  }

  lemma {:induction false} CursorBeforeBounds(cfg: PageMarginConfig, k: nat)
    requires Fits(cfg)
    ensures cfg.marginLeft <= CursorBefore(cfg, k).x
    ensures cfg.marginBottom <= CursorBefore(cfg, k).y <= TopRowY(cfg)
  {
    if k > 0 {
      CursorBeforeBounds(cfg, k - 1);
    }
  }

  /** When a card fits on an empty page, every copy lies inside the margins:
      right of the left margin, left of the right bound, above the bottom
      margin and below the top margin. */
  lemma SlotInBounds(cfg: PageMarginConfig, k: nat)
    requires Fits(cfg)
    ensures cfg.marginLeft <= Slot(cfg, k).x
    ensures Slot(cfg, k).x + cfg.cardWidth <= RightBound(cfg)
    ensures cfg.marginBottom <= Slot(cfg, k).y
    ensures Slot(cfg, k).y + cfg.cardHeight <= cfg.pageHeight - cfg.marginTop
  {
    CursorBeforeBounds(cfg, k);
  }

  /** The first copy sits at the start position and never opens a page. */
  lemma FirstSlot(cfg: PageMarginConfig)
    requires Fits(cfg)
    ensures Slot(cfg, 0) == Start(cfg) && !NewPageAt(cfg, 0)
  {
  }

  /** How copy `k` follows copy `k - 1`: next to it on the same row when the
      card still fits there, otherwise at the left margin one row further
      down, or, when that row is below the bottom margin, at the left margin
      of the top row of a new page. */
  lemma SlotStep(cfg: PageMarginConfig, k: nat)
    requires Fits(cfg) && k > 0
    ensures var p := Slot(cfg, k - 1);
      var next := Advance(cfg, p);
      && (!NeedsWrap(cfg, next) ==> Slot(cfg, k) == next && !NewPageAt(cfg, k))
      && (NeedsWrap(cfg, next) && !NewPageAt(cfg, k) ==>
            Slot(cfg, k) == Cursor(cfg.marginLeft, p.y - (cfg.cardHeight + cfg.verticalSpacing)))
      && (NewPageAt(cfg, k) ==> NeedsWrap(cfg, next) && Slot(cfg, k) == Cursor(cfg.marginLeft, TopRowY(cfg)))
  {
    SlotInBounds(cfg, k - 1);
  }

  /** Pages only grow: the pages after `m` iterations begin the pages after
      `n >= m` iterations. */
  lemma {:induction false} RunPagesGrow(cfg: PageMarginConfig, id: nat, dpi: real, m: nat, n: nat)
    requires m <= n
    ensures Run(cfg, id, dpi, m).pages <= Run(cfg, id, dpi, n).pages
    decreases n
  {
    if m < n {
      RunPagesGrow(cfg, id, dpi, m, n - 1);
    }
  }

  /** When one card fits on an empty page, no page is blank: every flushed
      page, and the page being filled after the first iteration, holds at
      least one placement. */
  lemma {:induction false} NoBlankPages(cfg: PageMarginConfig, id: nat, dpi: real, n: nat)
    requires Fits(cfg)
    ensures forall p :: p in Run(cfg, id, dpi, n).pages ==> Placements(p.ops) != []
    ensures n > 0 ==> Placements(Run(cfg, id, dpi, n).ops) != []
  {
    if n > 0 {
      NoBlankPages(cfg, id, dpi, n - 1);
      var st := Run(cfg, id, dpi, n - 1);
      var w := Wrap(cfg, st.cursor);
      var flush := BelowBottom(cfg, w);
      var c := if flush then Cursor(w.x, TopRowY(cfg)) else w;
      var kept := if flush then [] else st.ops;
      var cuts := if n % 2 == 0 then CutLineOps(cfg, c.y) else [];
      assert Run(cfg, id, dpi, n).ops == kept + [PlaceOp(id, c, dpi)] + cuts;
      ViewsSingle(PlaceOp(id, c, dpi));
      ViewsAppend3(kept, [PlaceOp(id, c, dpi)], cuts);
      if n == 1 {
        assert !flush;
      }
    }
  }

  /** When the top row is already below the bottom margin, every copy opens
      a new page: the cursor's row never moves, each of the eight iterations
      flushes, and the very first flushed page is blank. */
  lemma {:induction false} TooTallCursor(cfg: PageMarginConfig, k: nat)
    requires PositiveLengths(cfg) && TopRowY(cfg) < cfg.marginBottom
    ensures CursorBefore(cfg, k).y == TopRowY(cfg) && NewPageAt(cfg, k)
    ensures OverflowCount(cfg, k) == k
  {
    if k > 0 {
      TooTallCursor(cfg, k - 1);
    }
  }

  lemma TooTallBlankPage(cfg: PageMarginConfig, id: nat, dpi: real, text: Option<string>)
    requires PositiveLengths(cfg) && TopRowY(cfg) < cfg.marginBottom
    ensures |CardSide(cfg, id, dpi, text)| == Copies + 1
    ensures CardSide(cfg, id, dpi, text)[0] == PageOf(cfg, [])
  {
    TooTallCursor(cfg, Copies);
    CardSidePageCount(cfg, id, dpi, text);
    TooTallCursor(cfg, 0);
    assert Run(cfg, id, dpi, 1).pages == [PageOf(cfg, [])];
    RunPagesGrow(cfg, id, dpi, 1, Copies);
  }

  // ---------------------------------------------------------------------
  // The default configuration

  /** With the defaults the eight copies sit two per row, at x = 10 and
      x = 113.6, on the rows y = 233, 169, 105 and 41; the last cursor is on
      the row at 41. */
  lemma DefaultSlots()
    ensures forall k :: 0 <= k < Copies ==>
              Slot(Default(), k) == Cursor(if k % 2 == 0 then 10.0 else 113.6, 233.0 - 64.0 * ((k / 2) as real))
    ensures forall k :: 0 <= k < Copies ==> !NewPageAt(Default(), k)
    ensures CursorBefore(Default(), Copies).y == 41.0
  {
    var d := Default();
    assert CursorBefore(d, 0) == Cursor(10.0, 233.0);
    assert Slot(d, 0) == Cursor(10.0, 233.0);
    assert CursorBefore(d, 1) == Cursor(113.6, 233.0);
    assert Slot(d, 1) == Cursor(113.6, 233.0);
    assert CursorBefore(d, 2) == Cursor(217.2, 233.0);
    assert Slot(d, 2) == Cursor(10.0, 169.0);
    assert CursorBefore(d, 3) == Cursor(113.6, 169.0);
    assert Slot(d, 3) == Cursor(113.6, 169.0);
    assert CursorBefore(d, 4) == Cursor(217.2, 169.0);
    assert Slot(d, 4) == Cursor(10.0, 105.0);
    assert CursorBefore(d, 5) == Cursor(113.6, 105.0);
    assert Slot(d, 5) == Cursor(113.6, 105.0);
    assert CursorBefore(d, 6) == Cursor(217.2, 105.0);
    assert Slot(d, 6) == Cursor(10.0, 41.0);
    assert CursorBefore(d, 7) == Cursor(113.6, 41.0);
    assert Slot(d, 7) == Cursor(113.6, 41.0);
    assert CursorBefore(d, 8) == Cursor(217.2, 41.0);
  }

  /** With the defaults one call fills exactly one page, without overflow. */
  lemma DefaultOnePage(id: nat, dpi: real, text: Option<string>)
    ensures OverflowCount(Default(), Copies) == 0
    ensures |CardSide(Default(), id, dpi, text)| == 1
  {
    DefaultSlots();
    var d := Default();
    assert OverflowCount(d, 1) == 0;
    assert OverflowCount(d, 2) == 0;
    assert OverflowCount(d, 3) == 0;
    assert OverflowCount(d, 4) == 0;
    assert OverflowCount(d, 5) == 0;
    assert OverflowCount(d, 6) == 0;
    assert OverflowCount(d, 7) == 0;
    CardSidePageCount(d, id, dpi, text);
  }

  // ---------------------------------------------------------------------
  // A configuration with an overflow

  /** A 300 x 150 mm landscape sheet with 80 x 54 mm cards and every margin
      and spacing 10 mm: three cards per row and two rows per page. */
  function Landscape(): PageMarginConfig {
    PageMarginConfig(300.0, 150.0, 80.0, 54.0, 10.0, 10.0, 10.0, 10.0, 10.0)
  }

  /** On the landscape sheet the seventh copy opens a second page at its top
      left, after two rows of three. */
  lemma LandscapeSlots()
    ensures forall k :: 0 <= k < 6 ==> !NewPageAt(Landscape(), k)
    ensures NewPageAt(Landscape(), 6) && !NewPageAt(Landscape(), 7)
    ensures Slot(Landscape(), 5) == Cursor(190.0, 22.0)
    ensures Slot(Landscape(), 6) == Cursor(10.0, 86.0)
    ensures Slot(Landscape(), 7) == Cursor(100.0, 86.0)
    ensures OverflowCount(Landscape(), 6) == 0 && OverflowCount(Landscape(), Copies) == 1
  {
    var l := Landscape();
    assert CursorBefore(l, 0) == Cursor(10.0, 86.0);
    assert CursorBefore(l, 1) == Cursor(100.0, 86.0);
    assert CursorBefore(l, 2) == Cursor(190.0, 86.0);
    assert CursorBefore(l, 3) == Cursor(280.0, 86.0);
    assert CursorBefore(l, 4) == Cursor(100.0, 22.0);
    assert CursorBefore(l, 5) == Cursor(190.0, 22.0);
    assert CursorBefore(l, 6) == Cursor(280.0, 22.0);
    assert CursorBefore(l, 7) == Cursor(100.0, 86.0);
    assert OverflowCount(l, 1) == 0;
    assert OverflowCount(l, 2) == 0;
    assert OverflowCount(l, 3) == 0;
    assert OverflowCount(l, 4) == 0;
    assert OverflowCount(l, 5) == 0;
    assert OverflowCount(l, 6) == 0;
    assert OverflowCount(l, 7) == 1;
  }

  /** On the landscape sheet one call appends two pages: six copies on the
      first, two on the second. */
  lemma LandscapeTwoPages(id: nat, dpi: real, text: Option<string>)
    ensures var pages := CardSide(Landscape(), id, dpi, text);
      && |pages| == 2
      && |Placements(pages[0].ops)| == 6
      && |Placements(pages[1].ops)| == 2
  {
    var l := Landscape();
    var pages := CardSide(l, id, dpi, text);
    LandscapeSlots();
    CardSidePageCount(l, id, dpi, text);
    LandscapeFirstFlush(id, dpi);
    RunPagesGrow(l, id, dpi, 7, Copies);
    assert pages[0].ops == Run(l, id, dpi, 6).ops;
    CardSidePlacements(l, id, dpi, text);
    SplitTwoPages(pages);
  }

  /** The seventh iteration flushes the first page, holding the six
      placements of the first six iterations. */
  lemma LandscapeFirstFlush(id: nat, dpi: real)
    ensures var st6 := Run(Landscape(), id, dpi, 6);
      && |Placements(st6.ops)| == 6
      && Run(Landscape(), id, dpi, 7).pages == [PageOf(Landscape(), st6.ops)]
  {
    var l := Landscape();
    var st6 := Run(l, id, dpi, 6);
    LandscapeSlots();
    RunFollowsCursor(l, id, dpi, 6);
    SlotOpsViews(l, id, dpi, 6);
    SlotPlacementsAt(l, id, dpi, 6);
    assert st6.pages == [];
    assert Emitted(st6) == st6.ops;
    assert BelowBottom(l, Wrap(l, st6.cursor));
  }

  lemma SplitTwoPages(pages: seq<Page>)
    requires |pages| == 2
    ensures Placements(AllOps(pages)) == Placements(pages[0].ops) + Placements(pages[1].ops)
  {
    assert pages == [pages[0]] + [pages[1]];
    AllOpsAppend([pages[0]], [pages[1]]);
    AllOpsSingle(pages[0]);
    AllOpsSingle(pages[1]);
    ViewsAppend(pages[0].ops, pages[1].ops);
  }
}
