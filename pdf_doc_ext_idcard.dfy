/** `PdfDocIdCardExt::add_card_side`: lays out eight copies of one image on
    as many pages as the grid needs, with dashed cut lines, a centre line and
    an optional caption.

    The layout is stated twice. The cursor machine (`CursorBefore`, `Slot`,
    `NewPageAt`) follows only the position of the next card. The sheet
    machine (`Run`, `CardSide`) also collects operations and pages, the way
    the method does. Lemmas in module CardSheetProofs relate the two. */
module PdfDocExtIdCard {
  import opened Wrappers
  import opened Images
  import opened PrintPdf
  import opened Configs
  import opened PdfDocUtil

  /** Number of copies of the image placed by one call. */
  const Copies: nat := 8

  datatype Cursor = Cursor(x: real, y: real)

  /** Where the cursor starts: left margin, first row below the top margin. */
  function Start(cfg: PageMarginConfig): Cursor {
    Cursor(cfg.marginLeft, TopRowY(cfg))
  }

  /** The card at the cursor would pass the right bound. */
  predicate NeedsWrap(cfg: PageMarginConfig, c: Cursor) {
    c.x + cfg.cardWidth > RightBound(cfg)
  }

  /** Row wrap: back to the left margin, one row (card height plus vertical
      spacing) further down. */
  function Wrap(cfg: PageMarginConfig, c: Cursor): Cursor {
    if NeedsWrap(cfg, c) then Cursor(cfg.marginLeft, c.y - (cfg.cardHeight + cfg.verticalSpacing))
    else c
  }

  /** The cursor has dropped below the bottom margin. */
  predicate BelowBottom(cfg: PageMarginConfig, c: Cursor) {
    c.y < cfg.marginBottom
  }

  /** The position a card is placed at: wrap first, then the overflow test,
      which resets y to the top row and leaves x as it is. */
  function Settle(cfg: PageMarginConfig, c: Cursor): Cursor {
    var w := Wrap(cfg, c);
    if BelowBottom(cfg, w) then Cursor(w.x, TopRowY(cfg)) else w
  }

  /** After a placement the cursor moves right by a card and a spacing. */
  function Advance(cfg: PageMarginConfig, c: Cursor): Cursor {
    Cursor(c.x + cfg.cardWidth + cfg.horizontalSpacing, c.y)
  }

  /** The cursor before the placement of copy `k` (copies count from 0). */
  function CursorBefore(cfg: PageMarginConfig, k: nat): Cursor
    decreases k
  {
    if k == 0 then Start(cfg) else Advance(cfg, Settle(cfg, CursorBefore(cfg, k - 1)))
  }

  /** The position of copy `k`. */
  function Slot(cfg: PageMarginConfig, k: nat): Cursor
  {
    Settle(cfg, CursorBefore(cfg, k))
  }

  /** Copy `k` starts a new page. */
  predicate NewPageAt(cfg: PageMarginConfig, k: nat)
  {
    BelowBottom(cfg, Wrap(cfg, CursorBefore(cfg, k)))
  }

  /** With rows going down, the cursor never rises above the first row. A
      copy that starts a new page sits in the first row; any other copy sits
      on or above the bottom margin. A new page is started only after a row
      wrap or from a cursor already below the margin. */
  lemma {:induction false} CursorRows(cfg: PageMarginConfig, k: nat)
    ensures cfg.cardHeight + cfg.verticalSpacing >= 0.0 ==> CursorBefore(cfg, k).y <= TopRowY(cfg)
    ensures NewPageAt(cfg, k) ==> Slot(cfg, k).y == TopRowY(cfg)
    ensures !NewPageAt(cfg, k) ==> !BelowBottom(cfg, Slot(cfg, k))
    ensures NewPageAt(cfg, k) ==>
      NeedsWrap(cfg, CursorBefore(cfg, k)) || BelowBottom(cfg, CursorBefore(cfg, k))
  {
    if k > 0 {
      CursorRows(cfg, k - 1);
    }
  }

  /** How many of the first `n` copies start a new page. */
  function OverflowCount(cfg: PageMarginConfig, n: nat): (count: nat)
    ensures count <= n
  {
    if n == 0 then 0 else OverflowCount(cfg, n - 1) + (if NewPageAt(cfg, n - 1) then 1 else 0)
  }

  // ---------------------------------------------------------------------
  // The operations of one sheet

  /** The placement of the image `id` at `c`: unit scale, no rotation. */
  function PlaceOp(id: nat, c: Cursor, dpi: real): Op {
    UseXObject(id, c.x, c.y, 1.0, 1.0, None, dpi)
  }

  /** The height of the cut line under a row of cards at height `y`. */
  function CutY(cfg: PageMarginConfig, y: real): real {
    y - cfg.verticalSpacing / 2.0
  }

  /** A full-width horizontal line at height `y`. */
  function HorizontalLine(cfg: PageMarginConfig, y: real): Op {
    DrawLine(PrintPdf.Point(0.0, y), PrintPdf.Point(cfg.pageWidth, y))
  }

  /** A dashed (10 on, 5 off) black cut line under the row at `y`. */
  function CutLineOps(cfg: PageMarginConfig, y: real): seq<Op> {
    [SetOutlineColor, SetLineDashPattern(0, 10, 5), HorizontalLine(cfg, CutY(cfg, y))]
  }

  /** The vertical centre line from the page top down to the cut line of the
      row at `y`. */
  function CentreLine(cfg: PageMarginConfig, y: real): Op {
    DrawLine(PrintPdf.Point(cfg.pageWidth / 2.0, cfg.pageHeight),
             PrintPdf.Point(cfg.pageWidth / 2.0, CutY(cfg, y)))
  }

  /** Length in bytes of the UTF-8 encoding of `s` (Rust's `String::len`). */
  function Utf8Len(s: string): nat {
    if |s| == 0 then 0
    else
      var c := s[0] as int;
      (if c < 0x80 then 1 else if c < 0x800 then 2 else if c < 0x1_0000 then 3 else 4) + Utf8Len(s[1..])
  }

  /** Where the caption starts: centred by the estimate of 1.8 mm per byte,
      20 mm below the last row. */
  function CaptionCursor(cfg: PageMarginConfig, y: real, text: string): PrintPdf.Point {
    PrintPdf.Point(cfg.pageWidth / 2.0 - (Utf8Len(text) as real) * 1.8, y - 20.0)
  }

  /** The caption's text block, in Helvetica at 20 pt. */
  function CaptionOps(cfg: PageMarginConfig, y: real, text: string): seq<Op> {
    [SaveGraphicsState, StartTextSection, SetTextCursor(CaptionCursor(cfg, y, text)),
     SetFontSize(20.0), SetLineHeight(20.0), SetFillColor, WriteText(text),
     EndTextSection, RestoreGraphicsState]
  }

  /** The state of one card side: the cursor, the operations of the page
      being filled, and the pages already flushed. */
  datatype SheetState = SheetState(cursor: Cursor, ops: seq<Op>, pages: seq<Page>)

  /** Iteration `idx` (1 to 8) of the placement loop. */
  function Step(cfg: PageMarginConfig, id: nat, dpi: real, st: SheetState, idx: nat): (r: SheetState)
    ensures st.pages <= r.pages && |r.pages| <= |st.pages| + 1
    ensures |r.ops| >= 1
  {
    var w := Wrap(cfg, st.cursor);
    var flush := BelowBottom(cfg, w);
    var c := if flush then Cursor(w.x, TopRowY(cfg)) else w;
    var ops := if flush then [] else st.ops;
    var pages := if flush then st.pages + [PageOf(cfg, st.ops)] else st.pages;
    var cuts := if idx % 2 == 0 then CutLineOps(cfg, c.y) else [];
    SheetState(Advance(cfg, c), ops + [PlaceOp(id, c, dpi)] + cuts, pages)
  }

  /** The state after the first `n` iterations. */
  function Run(cfg: PageMarginConfig, id: nat, dpi: real, n: nat): (r: SheetState)
    ensures |r.pages| <= n
    ensures n > 0 ==> |r.ops| >= 1
  {
    if n == 0 then SheetState(Start(cfg), [], [])
    else Step(cfg, id, dpi, Run(cfg, id, dpi, n - 1), n)
  }

  /** The operations of the last page: what the loop left, the centre line
      and, when there is a text, the caption. */
  function FinalOps(cfg: PageMarginConfig, st: SheetState, text: Option<string>): seq<Op> {
    st.ops + [CentreLine(cfg, st.cursor.y)]
      + (if text.Some? then CaptionOps(cfg, st.cursor.y, text.value) else [])
  }

  /** The pages one call appends: those flushed by overflow, then the last. */
  function CardSide(cfg: PageMarginConfig, id: nat, dpi: real, text: Option<string>): (pages: seq<Page>)
    ensures 1 <= |pages| <= Copies + 1
    ensures |pages[|pages| - 1].ops| >= 5
  {
    var st := Run(cfg, id, dpi, Copies);
    st.pages + [PageOf(cfg, FinalOps(cfg, st, text))]
  }

  /** The three fields of `Step`'s result, one by one. */
  lemma StepFields(cfg: PageMarginConfig, id: nat, dpi: real, st: SheetState, idx: nat)
    ensures var w := Wrap(cfg, st.cursor);
      var flush := BelowBottom(cfg, w);
      var c := if flush then Cursor(w.x, TopRowY(cfg)) else w;
      && Step(cfg, id, dpi, st, idx).cursor == Advance(cfg, c)
      && Step(cfg, id, dpi, st, idx).ops
           == (if flush then [] else st.ops) + [PlaceOp(id, c, dpi)] + (if idx % 2 == 0 then CutLineOps(cfg, c.y) else [])
      && Step(cfg, id, dpi, st, idx).pages == (if flush then st.pages + [PageOf(cfg, st.ops)] else st.pages)
  {
  }

  /** One iteration `idx` of the placement loop of `add_card_side`, at the
      cursor `(x, y)` with the operations `ops` of the page being filled:
      wraps the row, flushes the page when the card would pass the bottom
      margin, places the image and, after every second copy, adds a cut
      line. The new cursor, operations and pages are those of `Step`. */
  method PlaceCopy(pdf: PdfDocUtil, imageId: nat, image: RawImage, idx: nat,
                   x: real, y: real, ops: seq<Op>, ghost st: SheetState, ghost pages0: seq<Page>)
    returns (newX: real, newY: real, newOps: seq<Op>)
    requires PositiveLengths(pdf.cfg)
    requires Cursor(x, y) == st.cursor && ops == st.ops && pdf.pages == pages0 + st.pages
    modifies pdf`pages
    ensures var r := Step(pdf.cfg, imageId, CalcAvgDpi(pdf.cfg.cardWidth, pdf.cfg.cardHeight, image.width, image.height), st, idx);
      && Cursor(newX, newY) == r.cursor && newOps == r.ops && pdf.pages == pages0 + r.pages
  {
    var cfg := pdf.cfg;
    ghost var dpi := CalcAvgDpi(cfg.cardWidth, cfg.cardHeight, image.width, image.height);
    ghost var w := Wrap(cfg, st.cursor);
    ghost var flush := BelowBottom(cfg, w);
    var currentX, currentY := x, y;
    newOps := ops;
    if currentX + cfg.cardWidth > cfg.pageWidth - cfg.marginLeft {
      currentX := cfg.marginLeft;
      currentY := currentY - (cfg.cardHeight + cfg.verticalSpacing);
    }
    assert Cursor(currentX, currentY) == w;
    if currentY < cfg.marginBottom {
      pdf.AddPageToDocument(newOps);
      newOps := [];
      currentY := cfg.pageHeight - cfg.marginTop - cfg.cardHeight;
    }
    ghost var c := Cursor(currentX, currentY);
    ghost var kept := if flush then [] else st.ops;
    ghost var pages := if flush then st.pages + [PageOf(cfg, st.ops)] else st.pages;
    assert newOps == kept && pdf.pages == pages0 + pages;
    var avgDpi := CalcAvgDpi(cfg.cardWidth, cfg.cardHeight, image.width, image.height);
    newOps := newOps + [UseXObject(imageId, currentX, currentY, 1.0, 1.0, None, avgDpi)];
    assert newOps == kept + [PlaceOp(imageId, c, dpi)];
    ghost var cuts: seq<Op> := [];
    if idx % 2 == 0 {
      cuts := [SetOutlineColor, SetLineDashPattern(0, 10, 5),
               DrawLine(PrintPdf.Point(0.0, currentY - cfg.verticalSpacing / 2.0),
                        PrintPdf.Point(cfg.pageWidth, currentY - cfg.verticalSpacing / 2.0))];
      newOps := newOps + [SetOutlineColor, SetLineDashPattern(0, 10, 5),
                          DrawLine(PrintPdf.Point(0.0, currentY - cfg.verticalSpacing / 2.0),
                                   PrintPdf.Point(cfg.pageWidth, currentY - cfg.verticalSpacing / 2.0))];
      assert cuts == CutLineOps(cfg, c.y);
    }
    assert newOps == kept + [PlaceOp(imageId, c, dpi)] + cuts;
    newX := currentX + cfg.cardWidth + cfg.horizontalSpacing;
    newY := currentY;
    StepFields(cfg, imageId, dpi, st, idx);
  }

  /** `add_card_side`, given the decoded image. Returns false, changing
      nothing, where the source panics because the processed image cannot be
      converted; otherwise adds the image and appends `CardSide`'s pages. */
  method AddCardSide(pdf: PdfDocUtil, decoded: DynamicImage, text: Option<string>) returns (ok: bool)
    requires PositiveLengths(pdf.cfg)
    modifies pdf
    ensures pdf.processors == old(pdf.processors)
    ensures var r := Extensions.Convert(ApplyAll(old(pdf.processors), decoded));
      && ok == r.Ok?
      && (ok ==> && pdf.images == old(pdf.images) + [r.value]
                 && pdf.pages == old(pdf.pages)
                      + CardSide(pdf.cfg, |old(pdf.images)|,
                                 CalcAvgDpi(pdf.cfg.cardWidth, pdf.cfg.cardHeight, r.value.width, r.value.height),
                                 text))
      && (!ok ==> pdf.images == old(pdf.images) && pdf.pages == old(pdf.pages))
  {
    var loaded := pdf.LoadAndProcessImage(decoded);
    if loaded.Err? {
      return false;
    }
    var image := loaded.value;
    var imageId := pdf.AddImage(image);
    LayOutCopies(pdf, imageId, image, text);
    ok := true;
  }

  /** The part of `add_card_side` after the image is added as `imageId`:
      eight placements, the centre line and the caption, on the pages that
      `CardSide` gives. */
  method LayOutCopies(pdf: PdfDocUtil, imageId: nat, image: RawImage, text: Option<string>)
    requires PositiveLengths(pdf.cfg)
    modifies pdf`pages
    ensures pdf.pages == old(pdf.pages)
      + CardSide(pdf.cfg, imageId, CalcAvgDpi(pdf.cfg.cardWidth, pdf.cfg.cardHeight, image.width, image.height), text)
  {
    var cfg := pdf.cfg;
    var currentX := cfg.marginLeft;
    var currentY := cfg.pageHeight - cfg.marginTop - cfg.cardHeight;
    var ops: seq<Op> := [];
    ghost var dpi := CalcAvgDpi(cfg.cardWidth, cfg.cardHeight, image.width, image.height);
    ghost var pages0 := pdf.pages;
    ghost var st := Run(cfg, imageId, dpi, 0);

    for idx := 1 to Copies + 1
      invariant st == Run(cfg, imageId, dpi, idx - 1)
      invariant Cursor(currentX, currentY) == st.cursor && ops == st.ops && pdf.pages == pages0 + st.pages
    {
      currentX, currentY, ops := PlaceCopy(pdf, imageId, image, idx, currentX, currentY, ops, st, pages0);
      st := Step(cfg, imageId, dpi, st, idx);
    }

    ops := ops + [DrawLine(PrintPdf.Point(cfg.pageWidth / 2.0, cfg.pageHeight),
                           PrintPdf.Point(cfg.pageWidth / 2.0, currentY - cfg.verticalSpacing / 2.0))];
    assert ops == st.ops + [CentreLine(cfg, st.cursor.y)];
    if text.Some? {
      ops := ops + CaptionOps(cfg, currentY, text.value);
    }
    assert ops == FinalOps(cfg, st, text);
    pdf.AddPageToDocument(ops);
  }
}
