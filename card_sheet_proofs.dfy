/** What one call of `add_card_side` produces: the sheet machine agrees with
    the cursor machine, exactly eight placements in order, four cut lines and
    one centre line, the caption only with a text, and the page count; then
    the geometry of the cursor machine and the default configuration. */
module CardSheetProofs {
  import opened Wrappers
  import opened PrintPdf
  import opened Configs
  import opened PdfDocUtil
  import opened PdfDocExtIdCard

  // ---------------------------------------------------------------------
  // Views of an operation list

  /** The image placements among `ops`, in order. */
  function Placements(ops: seq<Op>): seq<Op> {
    if |ops| == 0 then [] else (if ops[0].UseXObject? then [ops[0]] else []) + Placements(ops[1..])
  }

  /** The lines among `ops`, in order. */
  function Lines(ops: seq<Op>): seq<Op> {
    if |ops| == 0 then [] else (if ops[0].DrawLine? then [ops[0]] else []) + Lines(ops[1..])
  }

  /** The texts written by `ops`, in order. */
  function Texts(ops: seq<Op>): seq<string> {
    if |ops| == 0 then [] else (if ops[0].WriteText? then [ops[0].text] else []) + Texts(ops[1..])
  }

  /** The operations of all `pages`, page after page. */
  function AllOps(pages: seq<Page>): seq<Op> {
    if |pages| == 0 then [] else AllOps(pages[..|pages| - 1]) + pages[|pages| - 1].ops
  }

  lemma ViewsAppend(a: seq<Op>, b: seq<Op>)
    ensures Placements(a + b) == Placements(a) + Placements(b)
    ensures Lines(a + b) == Lines(a) + Lines(b)
    ensures Texts(a + b) == Texts(a) + Texts(b)
  {
    PlacementsAppend(a, b);
    LinesAppend(a, b);
    TextsAppend(a, b);
  }

  lemma {:induction false} PlacementsAppend(a: seq<Op>, b: seq<Op>)
    ensures Placements(a + b) == Placements(a) + Placements(b)
    decreases |a|
  {
    if |a| == 0 {
      assert a + b == b;
    } else {
      assert (a + b)[0] == a[0];
      assert (a + b)[1..] == a[1..] + b;
      PlacementsAppend(a[1..], b);
    }
  }

  lemma {:induction false} LinesAppend(a: seq<Op>, b: seq<Op>)
    ensures Lines(a + b) == Lines(a) + Lines(b)
    decreases |a|
  {
    if |a| == 0 {
      assert a + b == b;
    } else {
      assert (a + b)[0] == a[0];
      assert (a + b)[1..] == a[1..] + b;
      LinesAppend(a[1..], b);
    }
  }

  lemma {:induction false} TextsAppend(a: seq<Op>, b: seq<Op>)
    ensures Texts(a + b) == Texts(a) + Texts(b)
    decreases |a|
  {
    if |a| == 0 {
      assert a + b == b;
    } else {
      assert (a + b)[0] == a[0];
      assert (a + b)[1..] == a[1..] + b;
      TextsAppend(a[1..], b);
    }
  }

  lemma {:induction false} AllOpsAppend(ps: seq<Page>, qs: seq<Page>)
    ensures AllOps(ps + qs) == AllOps(ps) + AllOps(qs)
    decreases |qs|
  {
    if |qs| == 0 {
      assert ps + qs == ps;
    } else {
      var n := |qs| - 1;
      assert (ps + qs)[..|ps + qs| - 1] == ps + qs[..n];
      AllOpsAppend(ps, qs[..n]);
    }
  }

  lemma AllOpsSingle(p: Page)
    ensures AllOps([p]) == p.ops
  {
    var single: seq<Page> := [p];
    assert single[..0] == [];
  }

  /** Views of a list none of whose operations is of the viewed kind. */
  lemma {:induction false} ViewsNone(ops: seq<Op>)
    ensures (forall i :: 0 <= i < |ops| ==> !ops[i].UseXObject?) ==> Placements(ops) == []
    ensures (forall i :: 0 <= i < |ops| ==> !ops[i].DrawLine?) ==> Lines(ops) == []
    ensures (forall i :: 0 <= i < |ops| ==> !ops[i].WriteText?) ==> Texts(ops) == []
    decreases |ops|
  {
    if |ops| > 0 {
      ViewsNone(ops[1..]);
    }
  }

  lemma ViewsSingle(o: Op)
    ensures Placements([o]) == (if o.UseXObject? then [o] else [])
    ensures Lines([o]) == (if o.DrawLine? then [o] else [])
    ensures Texts([o]) == (if o.WriteText? then [o.text] else [])
  {
    assert [o][1..] == [];
  }

  /** Views of the three cut-line operations. */
  lemma CutLineViews(cfg: PageMarginConfig, y: real)
    ensures Placements(CutLineOps(cfg, y)) == [] && Texts(CutLineOps(cfg, y)) == []
    ensures Lines(CutLineOps(cfg, y)) == [HorizontalLine(cfg, CutY(cfg, y))]
  {
    var pre := [SetOutlineColor, SetLineDashPattern(0, 10, 5)];
    var line := HorizontalLine(cfg, CutY(cfg, y));
    assert CutLineOps(cfg, y) == pre + [line];
    ViewsNone(pre);
    ViewsSingle(line);
    ViewsAppend(pre, [line]);
  }

  /** Views of the caption block: no placement, no line, its one text. */
  lemma CaptionOpsViews(cfg: PageMarginConfig, y: real, text: string)
    ensures Placements(CaptionOps(cfg, y, text)) == [] && Lines(CaptionOps(cfg, y, text)) == []
    ensures Texts(CaptionOps(cfg, y, text)) == [text]
  {
    var pre := [SaveGraphicsState, StartTextSection, SetTextCursor(CaptionCursor(cfg, y, text)),
                SetFontSize(20.0), SetLineHeight(20.0), SetFillColor];
    var post := [EndTextSection, RestoreGraphicsState];
    assert CaptionOps(cfg, y, text) == pre + [WriteText(text)] + post;
    OneTextViews(pre, text, post);
  }

  /** Views of a list whose only operation of a viewed kind is one text. */
  lemma OneTextViews(pre: seq<Op>, text: string, post: seq<Op>)
    requires forall i :: 0 <= i < |pre| ==> !pre[i].UseXObject? && !pre[i].DrawLine? && !pre[i].WriteText?
    requires forall i :: 0 <= i < |post| ==> !post[i].UseXObject? && !post[i].DrawLine? && !post[i].WriteText?
    ensures Placements(pre + [WriteText(text)] + post) == []
    ensures Lines(pre + [WriteText(text)] + post) == []
    ensures Texts(pre + [WriteText(text)] + post) == [text]
  {
    ViewsNone(pre);
    ViewsNone(post);
    ViewsSingle(WriteText(text));
    ViewsAppend3(pre, [WriteText(text)], post);
  }

  // ---------------------------------------------------------------------
  // The sheet machine against the cursor machine

  /** Everything a sheet state has emitted so far, flushed pages first. */
  function Emitted(st: SheetState): seq<Op> {
    AllOps(st.pages) + st.ops
  }

  /** The placements of the first `n` copies at their slots. */
  function SlotPlacements(cfg: PageMarginConfig, id: nat, dpi: real, n: nat): seq<Op> {
    if n == 0 then [] else SlotPlacements(cfg, id, dpi, n - 1) + [PlaceOp(id, Slot(cfg, n - 1), dpi)]
  }

  /** The cut lines of the first `n` copies: one under every second copy. */
  function SlotCutLines(cfg: PageMarginConfig, n: nat): seq<Op> {
    if n == 0 then []
    else SlotCutLines(cfg, n - 1)
         + (if n % 2 == 0 then [HorizontalLine(cfg, CutY(cfg, Slot(cfg, n - 1).y))] else [])
  }

  lemma {:induction false} SlotPlacementsAt(cfg: PageMarginConfig, id: nat, dpi: real, n: nat)
    ensures |SlotPlacements(cfg, id, dpi, n)| == n
    ensures forall k :: 0 <= k < n ==> SlotPlacements(cfg, id, dpi, n)[k] == PlaceOp(id, Slot(cfg, k), dpi)
  {
    if n > 0 {
      SlotPlacementsAt(cfg, id, dpi, n - 1);
    }
  }

  /** One iteration emits a placement at the settled cursor, followed by the
      three cut-line operations on even iterations; it flushes a page exactly
      when the wrapped cursor is below the bottom margin. */
  lemma StepEmits(cfg: PageMarginConfig, id: nat, dpi: real, st: SheetState, idx: nat)
    ensures var c := Settle(cfg, st.cursor);
      && Emitted(Step(cfg, id, dpi, st, idx))
           == Emitted(st) + [PlaceOp(id, c, dpi)] + (if idx % 2 == 0 then CutLineOps(cfg, c.y) else [])
      && Step(cfg, id, dpi, st, idx).cursor == Advance(cfg, c)
      && Step(cfg, id, dpi, st, idx).pages
           == st.pages + (if BelowBottom(cfg, Wrap(cfg, st.cursor)) then [PageOf(cfg, st.ops)] else [])
  {
    if BelowBottom(cfg, Wrap(cfg, st.cursor)) {
      var pages := st.pages + [PageOf(cfg, st.ops)];
      assert pages[..|pages| - 1] == st.pages;
    }
  }

  /** The cut-line operations that follow copy `k` (counting from 0): those
      of every second copy. */
  function CutsAfter(cfg: PageMarginConfig, k: nat): seq<Op> {
    if (k + 1) % 2 == 0 then CutLineOps(cfg, Slot(cfg, k).y) else []
  }

  /** What the first `n` iterations emit, by the cursor machine alone. */
  function SlotOps(cfg: PageMarginConfig, id: nat, dpi: real, n: nat): seq<Op> {
    if n == 0 then [] else SlotOps(cfg, id, dpi, n - 1) + [PlaceOp(id, Slot(cfg, n - 1), dpi)] + CutsAfter(cfg, n - 1)
  }

  /** After `n` iterations the sheet machine's cursor is the cursor machine's,
      it has flushed one page per overflow, and it has emitted exactly the
      operations the cursor machine predicts. */
  lemma {:induction false} RunFollowsCursor(cfg: PageMarginConfig, id: nat, dpi: real, n: nat)
    ensures Run(cfg, id, dpi, n).cursor == CursorBefore(cfg, n)
    ensures |Run(cfg, id, dpi, n).pages| == OverflowCount(cfg, n)
    ensures Emitted(Run(cfg, id, dpi, n)) == SlotOps(cfg, id, dpi, n)
  {
    if n > 0 {
      RunFollowsCursor(cfg, id, dpi, n - 1);
      StepEmits(cfg, id, dpi, Run(cfg, id, dpi, n - 1), n);
    }
  }

  /** The views of what the first `n` iterations emit: the placements at
      the first `n` slots, the cut lines under every second one, no text,
      and `n + 3 * (n / 2)` operations in all. */
  lemma {:induction false} SlotOpsViews(cfg: PageMarginConfig, id: nat, dpi: real, n: nat)
    ensures Placements(SlotOps(cfg, id, dpi, n)) == SlotPlacements(cfg, id, dpi, n)
    ensures Lines(SlotOps(cfg, id, dpi, n)) == SlotCutLines(cfg, n)
    ensures Texts(SlotOps(cfg, id, dpi, n)) == []
    ensures |SlotOps(cfg, id, dpi, n)| == n + 3 * (n / 2)
  {
    if n > 0 {
      SlotOpsViews(cfg, id, dpi, n - 1);
      var prev := SlotOps(cfg, id, dpi, n - 1);
      var place := PlaceOp(id, Slot(cfg, n - 1), dpi);
      var cuts := CutsAfter(cfg, n - 1);
      assert SlotOps(cfg, id, dpi, n) == prev + [place] + cuts;
      ViewsSingle(place);
      ViewsAppend3(prev, [place], cuts);
      if n % 2 == 0 {
        CutLineViews(cfg, Slot(cfg, n - 1).y);
        assert Lines(cuts) == [HorizontalLine(cfg, CutY(cfg, Slot(cfg, n - 1).y))];
        assert |cuts| == 3;
      } else {
        assert cuts == [];
      }
    }
  }

  /** The operations of all pages one call appends: the emitted loop output,
      the centre line and the caption. */
  lemma CardSideOps(cfg: PageMarginConfig, id: nat, dpi: real, text: Option<string>)
    ensures var st := Run(cfg, id, dpi, Copies);
      AllOps(CardSide(cfg, id, dpi, text)) == Emitted(st) + [CentreLine(cfg, st.cursor.y)]
        + (if text.Some? then CaptionOps(cfg, st.cursor.y, text.value) else [])
  {
    var st := Run(cfg, id, dpi, Copies);
    var last := PageOf(cfg, FinalOps(cfg, st, text));
    AllOpsAppend(st.pages, [last]);
    AllOpsSingle(last);
  }

  /** The pages one call appends: one per overflow, plus the final page,
      all of the configured size. */
  lemma CardSidePageCount(cfg: PageMarginConfig, id: nat, dpi: real, text: Option<string>)
    ensures |CardSide(cfg, id, dpi, text)| == OverflowCount(cfg, Copies) + 1
    ensures forall p :: p in CardSide(cfg, id, dpi, text) ==>
              p.width == cfg.pageWidth && p.height == cfg.pageHeight
  {
    RunFollowsCursor(cfg, id, dpi, Copies);
    RunPagesSized(cfg, id, dpi, Copies);
  }

  lemma {:induction false} RunPagesSized(cfg: PageMarginConfig, id: nat, dpi: real, n: nat)
    ensures forall p :: p in Run(cfg, id, dpi, n).pages ==>
              p.width == cfg.pageWidth && p.height == cfg.pageHeight
  {
    if n > 0 {
      RunPagesSized(cfg, id, dpi, n - 1);
    }
  }

  /** The views of the operations of all pages one call appends, by the
      cursor machine. */
  lemma CardSideViews(cfg: PageMarginConfig, id: nat, dpi: real, text: Option<string>)
    ensures var all := AllOps(CardSide(cfg, id, dpi, text));
      && Placements(all) == SlotPlacements(cfg, id, dpi, Copies)
      && Lines(all) == SlotCutLines(cfg, Copies) + [CentreLine(cfg, CursorBefore(cfg, Copies).y)]
      && Texts(all) == (if text.Some? then [text.value] else [])
      && |all| == 21 + (if text.Some? then 9 else 0)
  {
    var st := Run(cfg, id, dpi, Copies);
    var y := st.cursor.y;
    var body := Emitted(st);
    var centre := [CentreLine(cfg, y)];
    var tail := TailCaption(cfg, y, text);
    CardSideOps(cfg, id, dpi, text);
    assert AllOps(CardSide(cfg, id, dpi, text)) == body + centre + tail;
    RunFollowsCursor(cfg, id, dpi, Copies);
    assert body == SlotOps(cfg, id, dpi, Copies);
    assert y == CursorBefore(cfg, Copies).y;
    SlotOpsViews(cfg, id, dpi, Copies);
    CaptionViews(cfg, y, text);
    ViewsAppend3(body, centre, tail);
  }

  lemma ViewsAppend3(a: seq<Op>, b: seq<Op>, c: seq<Op>)
    ensures Placements(a + b + c) == Placements(a) + Placements(b) + Placements(c)
    ensures Lines(a + b + c) == Lines(a) + Lines(b) + Lines(c)
    ensures Texts(a + b + c) == Texts(a) + Texts(b) + Texts(c)
  {
    ViewsAppend(a, b);
    ViewsAppend(a + b, c);
  }

  function TailCaption(cfg: PageMarginConfig, y: real, text: Option<string>): seq<Op> {
    if text.Some? then CaptionOps(cfg, y, text.value) else []
  }

  lemma CaptionViews(cfg: PageMarginConfig, y: real, text: Option<string>)
    ensures Placements(TailCaption(cfg, y, text)) == []
    ensures Lines(TailCaption(cfg, y, text)) == []
    ensures Texts(TailCaption(cfg, y, text)) == (if text.Some? then [text.value] else [])
    ensures |TailCaption(cfg, y, text)| == (if text.Some? then 9 else 0)
    ensures Placements([CentreLine(cfg, y)]) == [] && Texts([CentreLine(cfg, y)]) == []
    ensures Lines([CentreLine(cfg, y)]) == [CentreLine(cfg, y)]
  {
    ViewsSingle(CentreLine(cfg, y));
    if text.Some? {
      CaptionOpsViews(cfg, y, text.value);
    }
  }

  /** The last cursor is on the row of the eighth copy, and the cut lines of
      the eight copies sit under copies 2, 4, 6 and 8. */
  lemma EightCopies(cfg: PageMarginConfig)
    ensures CursorBefore(cfg, Copies).y == Slot(cfg, 7).y
    ensures SlotCutLines(cfg, Copies) ==
      [ HorizontalLine(cfg, CutY(cfg, Slot(cfg, 1).y)),
        HorizontalLine(cfg, CutY(cfg, Slot(cfg, 3).y)),
        HorizontalLine(cfg, CutY(cfg, Slot(cfg, 5).y)),
        HorizontalLine(cfg, CutY(cfg, Slot(cfg, 7).y)) ]
  {
    assert SlotCutLines(cfg, 1) == [];
    assert SlotCutLines(cfg, 3) == SlotCutLines(cfg, 2);
    assert SlotCutLines(cfg, 5) == SlotCutLines(cfg, 4);
    assert SlotCutLines(cfg, 7) == SlotCutLines(cfg, 6);
  }

  /** Across all its pages, one call places exactly eight copies of the
      image, in order, copy `k` at slot `k`, each at unit scale, unrotated
      and with the same density. */
  lemma CardSidePlacements(cfg: PageMarginConfig, id: nat, dpi: real, text: Option<string>)
    ensures var ps := Placements(AllOps(CardSide(cfg, id, dpi, text)));
      && |ps| == Copies
      && forall k :: 0 <= k < Copies ==> ps[k] == UseXObject(id, Slot(cfg, k).x, Slot(cfg, k).y, 1.0, 1.0, None, dpi)
  {
    CardSideViews(cfg, id, dpi, text);
    SlotPlacementsAt(cfg, id, dpi, Copies);
  }

  /** The lines of one call: a dashed cut line under copies 2, 4, 6 and 8
      (half a vertical spacing below each), then the one centre line, at
      half the page width, from the top down to the last cut line. */
  lemma CardSideLines(cfg: PageMarginConfig, id: nat, dpi: real, text: Option<string>)
    ensures Lines(AllOps(CardSide(cfg, id, dpi, text))) ==
      [ HorizontalLine(cfg, CutY(cfg, Slot(cfg, 1).y)),
        HorizontalLine(cfg, CutY(cfg, Slot(cfg, 3).y)),
        HorizontalLine(cfg, CutY(cfg, Slot(cfg, 5).y)),
        HorizontalLine(cfg, CutY(cfg, Slot(cfg, 7).y)),
        DrawLine(PrintPdf.Point(cfg.pageWidth / 2.0, cfg.pageHeight),
                 PrintPdf.Point(cfg.pageWidth / 2.0, Slot(cfg, 7).y - cfg.verticalSpacing / 2.0)) ]
  {
    CardSideViews(cfg, id, dpi, text);
    EightCopies(cfg);
  }

  /** The caption is written exactly when a text is given, once, and the
      last page then ends with its text block, placed at half the page width
      less 1.8 mm per byte of the text, 20 mm below the last row. The total
      operation count is 8 placements, 4 x 3 cut-line operations, the centre
      line, and 9 caption operations when there is a text. */
  lemma CardSideCaption(cfg: PageMarginConfig, id: nat, dpi: real, text: Option<string>)
    ensures var pages := CardSide(cfg, id, dpi, text);
      && Texts(AllOps(pages)) == (if text.Some? then [text.value] else [])
      && |AllOps(pages)| == 21 + (if text.Some? then 9 else 0)
      && (text.Some? ==>
            var last := pages[|pages| - 1].ops;
            && |last| >= 9
            && last[|last| - 9..] == CaptionOps(cfg, Slot(cfg, 7).y, text.value)
            && last[|last| - 7] == SetTextCursor(PrintPdf.Point(cfg.pageWidth / 2.0 - (Utf8Len(text.value) as real) * 1.8,
                                                                 Slot(cfg, 7).y - 20.0)))
  {
    CardSideViews(cfg, id, dpi, text);
    var st := Run(cfg, id, dpi, Copies);
    RunFollowsCursor(cfg, id, dpi, Copies);
    EightCopies(cfg);
    var pages := CardSide(cfg, id, dpi, text);
    assert pages[|pages| - 1].ops == FinalOps(cfg, st, text);
  }

  /** The last page after an eighth iteration from any state: the copy at
      the settled cursor, the cut line under it, the centre line, then the
      caption when a text is given. */
  lemma LastIterationTail(cfg: PageMarginConfig, id: nat, dpi: real, st: SheetState, text: Option<string>)
    ensures var c := Settle(cfg, st.cursor);
      var last := FinalOps(cfg, Step(cfg, id, dpi, st, 8), text);
      var k := if text.Some? then 9 else 0;
      && |last| >= 5 + k
      && last[|last| - k - 5..|last| - k] == [PlaceOp(id, c, dpi)] + CutLineOps(cfg, c.y) + [CentreLine(cfg, c.y)]
  {
    var c := Settle(cfg, st.cursor);
    var r := Step(cfg, id, dpi, st, 8);
    StepFields(cfg, id, dpi, st, 8);
    var kept := if BelowBottom(cfg, Wrap(cfg, st.cursor)) then [] else st.ops;
    var tail := [PlaceOp(id, c, dpi)] + CutLineOps(cfg, c.y) + [CentreLine(cfg, c.y)];
    assert r.cursor.y == c.y;
    assert r.ops + [CentreLine(cfg, r.cursor.y)] == kept + tail;
    var caption := TailCaption(cfg, r.cursor.y, text);
    CaptionViews(cfg, r.cursor.y, text);
    var last := FinalOps(cfg, r, text);
    assert last == kept + tail + caption;
    assert last[|last| - |caption| - 5..|last| - |caption|] == tail;
  }

  /** The last page of one call ends with the eighth copy, the cut line
      under it and the centre line, followed by the caption's nine
      operations when a text is given. */
  lemma CardSideLastPage(cfg: PageMarginConfig, id: nat, dpi: real, text: Option<string>)
    ensures var pages := CardSide(cfg, id, dpi, text);
      var last := pages[|pages| - 1].ops;
      var s := Slot(cfg, 7);
      var k := if text.Some? then 9 else 0;
      && |last| >= 5 + k
      && last[|last| - k - 5..|last| - k] == [PlaceOp(id, s, dpi)] + CutLineOps(cfg, s.y) + [CentreLine(cfg, s.y)]
  {
    var st7 := Run(cfg, id, dpi, 7);
    RunFollowsCursor(cfg, id, dpi, 7);
    LastIterationTail(cfg, id, dpi, st7, text);
    var pages := CardSide(cfg, id, dpi, text);
    assert pages[|pages| - 1].ops == FinalOps(cfg, Step(cfg, id, dpi, st7, 8), text);
  }
}
