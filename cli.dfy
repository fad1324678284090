/** The command-line program: parsing of the image-processing tokens,
    the processor each one registers, and `main`'s run over the inputs. */
module Cli {
  import opened Wrappers
  import opened Images
  import opened PrintPdf
  import opened Configs
  import opened PdfDocUtil
  import opened PdfDocExtIdCard
  import ImgProcUtils

  /** `ProcOp`: one image-processing operation named on the command line. */
  datatype ProcOp = Crop2Subject | Contrast(value: real) | Brightness(value: real)

  /** What `parse_proc_op` does with a token: an operation, an error
      message, or the panic of `parts[1]` when a prefixed token has no `:`. */
  datatype Parsed = ParsedOp(op: ProcOp) | ParseError(msg: string) | IndexPanic

  /** `str::parse::<f32>`, a library routine: `None` when the text is no
      number. */
  type NumberParser = string -> Option<real>

  // ---------------------------------------------------------------------
  // Text helpers

  /** Lower case of one character, ASCII letters only. */
  function LowerChar(c: char): (d: char)
    ensures 'A' <= c <= 'Z' ==> d as int == c as int + 32
    ensures !('A' <= c <= 'Z') ==> d == c
    ensures !('A' <= d <= 'Z')
  {
    if 'A' <= c <= 'Z' then (c as int + 32) as char else c
  }

  /** `to_lowercase`, on ASCII letters. */
  function Lower(s: string): (r: string)
    ensures |r| == |s| && forall i :: 0 <= i < |s| ==> r[i] == LowerChar(s[i])
  {
    seq(|s|, i requires 0 <= i < |s| => LowerChar(s[i]))
  }

  /** Lowering twice is lowering once. */
  lemma LowerIdempotent(s: string)
    ensures Lower(Lower(s)) == Lower(s)
  {
    var once := Lower(s);
    var twice := Lower(once);
    assert |twice| == |once|;
    forall i | 0 <= i < |once|
      ensures twice[i] == once[i]
    {
      assert twice[i] == LowerChar(once[i]);
    }
  }

  /** `str::starts_with`. */
  predicate StartsWith(s: string, prefix: string) {
    |prefix| <= |s| && s[..|prefix|] == prefix
  }

  /** The position of the first `d` in `s`. */
  function IndexOf(s: string, d: char): (i: nat)
    requires d in s
    ensures i < |s| && s[i] == d && d !in s[..i]
    decreases |s|
  {
    if s[0] == d then 0
    else
      assert d in s[1..];
      var j := IndexOf(s[1..], d);
      assert s[..j + 1] == [s[0]] + s[1..][..j];
      j + 1
  }

  /** The parts joined back with `d` between them. */
  function Join(parts: seq<string>, d: char): string
    requires |parts| >= 1
    decreases |parts|
  {
    if |parts| == 1 then parts[0] else parts[0] + [d] + Join(parts[1..], d)
  }

  /** `s.split(d).collect()`: the pieces of `s` between the occurrences of
      `d`, at least one; joining them with `d` gives `s` back, none of them
      contains `d`, and there is more than one exactly when `d` occurs. */
  function Split(s: string, d: char): (parts: seq<string>)
    ensures |parts| >= 1
    ensures Join(parts, d) == s
    ensures forall i :: 0 <= i < |parts| ==> d !in parts[i]
    ensures |parts| > 1 <==> d in s
    decreases |s|
  {
    if d !in s then [s]
    else
      var i := IndexOf(s, d);
      var rest := Split(s[i + 1..], d);
      assert s == s[..i] + [d] + s[i + 1..];
      [s[..i]] + rest
  }

  // ---------------------------------------------------------------------
  // parse_proc_op

  /** `parse_proc_op`. The token is lowered first; `c2s` must match whole;
      the `contrast` prefix is tried before `brightness`, and the value is
      the text between the first and the second `:`. */
  function ParseProcOp(token: string, parseF32: NumberParser): (r: Parsed)
    ensures r == ParsedOp(Crop2Subject) <==> Lower(token) == "c2s"
    ensures r.ParseError? ==> r.msg == "Unknown color" || r.msg == "Invalid Value."
    ensures r.IndexPanic? ==> ':' !in Lower(token)
  {
    var lower := Lower(token);
    if lower == "c2s" then ParsedOp(Crop2Subject)
    else if StartsWith(lower, "contrast") || StartsWith(lower, "brightness") then
      var parts := Split(lower, ':');
      if |parts| < 2 then IndexPanic
      else
        match parseF32(parts[1])
        case None => ParseError("Invalid Value.")
        case Some(v) => ParsedOp(if StartsWith(lower, "contrast") then Contrast(v) else Brightness(v))
    else ParseError("Unknown color")
  }

  /** The text between the first and the second `:` of `s`. */
  function ValueText(s: string): string
    requires ':' in s
  {
    var i := IndexOf(s, ':');
    var rest := s[i + 1..];
    if ':' in rest then rest[..IndexOf(rest, ':')] else rest
  }

  /** `Split`'s second part is the text between the first and the second
      `:`. */
  lemma SecondPart(s: string)
    requires ':' in s
    ensures Split(s, ':')[1] == ValueText(s)
  {
    var i := IndexOf(s, ':');
    var rest := s[i + 1..];
    if ':' in rest {
      var j := IndexOf(rest, ':');
      assert Split(rest, ':')[0] == rest[..j];
    }
  }

  /** Parsing is case-insensitive: tokens with the same lowering parse
      alike, and a token parses as its own lowering. */
  lemma ParseCaseInsensitive(s: string, t: string, parseF32: NumberParser)
    requires Lower(s) == Lower(t)
    ensures ParseProcOp(s, parseF32) == ParseProcOp(t, parseF32)
    ensures ParseProcOp(Lower(s), parseF32) == ParseProcOp(s, parseF32)
  {
    LowerIdempotent(s);
  }

  /** The outcome of `parse_proc_op` by cases on the lowered token. */
  lemma ParseOutcomes(token: string, parseF32: NumberParser)
    ensures var lower := Lower(token);
      var r := ParseProcOp(token, parseF32);
      && (r == ParsedOp(Crop2Subject) <==> lower == "c2s")
      && (r.IndexPanic? <==>
            (StartsWith(lower, "contrast") || StartsWith(lower, "brightness")) && ':' !in lower)
      && (r == ParseError("Unknown color") <==>
            lower != "c2s" && !StartsWith(lower, "contrast") && !StartsWith(lower, "brightness"))
      && (r == ParseError("Invalid Value.") <==>
            (StartsWith(lower, "contrast") || StartsWith(lower, "brightness"))
            && ':' in lower && parseF32(ValueText(lower)).None?)
      && (r.ParsedOp? && r.op.Contrast? <==>
            StartsWith(lower, "contrast") && ':' in lower && parseF32(ValueText(lower)).Some?)
      && (r.ParsedOp? && r.op.Contrast? ==> r.op.value == parseF32(ValueText(lower)).value)
      && (r.ParsedOp? && r.op.Brightness? <==>
            !StartsWith(lower, "contrast") && StartsWith(lower, "brightness")
            && ':' in lower && parseF32(ValueText(lower)).Some?)
      && (r.ParsedOp? && r.op.Brightness? ==> r.op.value == parseF32(ValueText(lower)).value)
  {
    var lower := Lower(token);
    if lower == "c2s" {
      assert !StartsWith(lower, "contrast") && !StartsWith(lower, "brightness");
    }
    if ':' in lower {
      SecondPart(lower);
    }
  }

  /** `c2s` has to match the whole token: `c2s:1` is unknown. */
  lemma C2sWhole(parseF32: NumberParser)
    ensures ParseProcOp("C2S", parseF32) == ParsedOp(Crop2Subject)
    ensures ParseProcOp("c2s:1", parseF32) == ParseError("Unknown color")
  {
    assert Lower("C2S") == "c2s";
    assert Lower("c2s:1") == "c2s:1";
    assert !StartsWith("c2s:1", "contrast") && !StartsWith("c2s:1", "brightness");
  }

  /** The first `d` is at `i` when `s[i]` is `d` and no earlier character
      is. */
  lemma {:induction false} IndexOfAt(s: string, d: char, i: nat)
    requires i < |s| && s[i] == d && d !in s[..i]
    ensures IndexOf(s, d) == i
    decreases i
  {
    if i > 0 {
      assert s[0] == s[..i][0];
      assert s[1..][..i - 1] == s[1..i];
      assert s[1..i] == s[..i][1..];
      IndexOfAt(s[1..], d, i - 1);
    }
  }

  /** The value text of `contrast:30` is `30`. */
  lemma ContrastValueText(lower: string)
    requires lower == "contrast:30"
    ensures Split(lower, ':')[1] == "30"
  {
    IndexOfAt(lower, ':', 8);
    assert lower[9..] == "30";
    assert ':' !in lower[9..];
    assert ValueText(lower) == "30";
    SecondPart(lower);
  }

  /** Any capitalisation of `contrast:30` is a contrast of `parse("30")`. */
  lemma ContrastToken(token: string, parseF32: NumberParser)
    requires Lower(token) == "contrast:30"
    ensures ParseProcOp(token, parseF32)
              == (if parseF32("30").Some? then ParsedOp(Contrast(parseF32("30").value)) else ParseError("Invalid Value."))
  {
    ContrastValueText(Lower(token));
    assert StartsWith(Lower(token), "contrast");
  }

  /** A bare `contrast` has no value and panics. */
  lemma BareContrastPanics(parseF32: NumberParser)
    ensures ParseProcOp("contrast", parseF32) == IndexPanic
  {
    var lower := Lower("contrast");
    assert lower == "contrast";
    assert lower[..8] == "contrast";
    assert ':' !in lower;
    ParseOutcomes("contrast", parseF32);
  }

  // ---------------------------------------------------------------------
  // The processors

  /** The library routines the processors call. */
  datatype ImageLibrary = ImageLibrary(
    /** threshold, closing and `find_contours_with_threshold` */
    contoursOf: DynamicImage -> seq<Contour>,
    cropImm: ImgProcUtils.Cropper,
    /** `DynamicImage::adjust_contrast` */
    adjustContrast: (DynamicImage, real) -> DynamicImage,
    /** `DynamicImage::brighten` */
    brighten: (DynamicImage, ImgProcUtils.i32) -> DynamicImage)

  const I32Min: int := -0x8000_0000
  const I32Max: int := 0x7FFF_FFFF

  /** `v as i32` for a finite float: truncation toward zero, saturating at
      the `i32` bounds. */
  function TruncToI32(v: real): (r: ImgProcUtils.i32)
    ensures v >= 0.0 && v <= I32Max as real ==> r as real <= v < r as real + 1.0
    ensures v <= 0.0 && v >= I32Min as real ==> r as real - 1.0 < v <= r as real
    ensures v >= I32Max as real ==> r == I32Max
    ensures v <= I32Min as real ==> r == I32Min
  {
    var t := if v >= 0.0 then v.Floor else -((-v).Floor);
    if t > I32Max then I32Max else if t < I32Min then I32Min else t
  }

  /** The processor `main` registers for one operation: `c2s` crops to the
      subject and falls back to the unchanged image when no subject is
      found; contrast and brightness call the library with the parsed value,
      brightness truncated to `i32`. */
  function ProcessorFor(op: ProcOp, lib: ImageLibrary): (p: Processor)
    ensures op.Crop2Subject? ==> forall img :: |lib.contoursOf(img)| == 0 ==> p(img) == img
    ensures op.Crop2Subject? ==> forall img :: |lib.contoursOf(img)| > 0 ==>
              var rect := ImgProcUtils.LargestRect(lib.contoursOf(img)).value;
              p(img) == lib.cropImm(img, ImgProcUtils.Left(rect), ImgProcUtils.Top(rect), rect.width, rect.height)
    ensures op.Contrast? ==> forall img :: p(img) == lib.adjustContrast(img, op.value)
    ensures op.Brightness? ==> forall img :: p(img) == lib.brighten(img, TruncToI32(op.value))
  {
    match op
    case Crop2Subject =>
      img => ImgProcUtils.CropToSubject(img, lib.contoursOf(img), lib.cropImm).UnwrapOr(img)
    case Contrast(v) => img => lib.adjustContrast(img, v)
    case Brightness(v) => img => lib.brighten(img, TruncToI32(v))
  }

  /** The processors of `ops`, in command-line order. */
  function Processors(ops: seq<ProcOp>, lib: ImageLibrary): (ps: seq<Processor>)
    ensures |ps| == |ops| && forall i :: 0 <= i < |ops| ==> ps[i] == ProcessorFor(ops[i], lib)
  {
    seq(|ops|, i requires 0 <= i < |ops| => ProcessorFor(ops[i], lib))
  }

  // ---------------------------------------------------------------------
  // main

  /** The title of image `i`: `titles.get(i).cloned()`. */
  function TitleFor(titles: seq<string>, i: nat): Option<string> {
    if i < |titles| then Some(titles[i]) else None
  }

  /** The density `add_card_side` gives an image of the converted size. */
  function CardDpi(cfg: PageMarginConfig, image: RawImage): real
    requires cfg.cardWidth > 0.0 && cfg.cardHeight > 0.0
  {
    CalcAvgDpi(cfg.cardWidth, cfg.cardHeight, image.width, image.height)
  }

  /** The images and pages after the first `n` inputs laid out under `cfg`,
      or `None` if one of them cannot be converted (the source panics there). */
  function Document(cfg: PageMarginConfig, procs: seq<Processor>, inputs: seq<DynamicImage>,
                    titles: seq<string>, n: nat)
    : (r: Option<(seq<RawImage>, seq<Page>)>)
    requires PositiveLengths(cfg)
    requires n <= |inputs|
    ensures r.Some? ==> |r.value.0| == n && |r.value.1| >= n
    ensures r.None? <==> exists i :: 0 <= i < n && Extensions.Convert(ApplyAll(procs, inputs[i])).Err?
  {
    if n == 0 then Some(([], []))
    else
      match Document(cfg, procs, inputs, titles, n - 1)
      case None => None
      case Some((images, pages)) =>
        match Extensions.Convert(ApplyAll(procs, inputs[n - 1]))
        case Err(_) => None
        case Ok(raw) =>
          Some((images + [raw],
                pages + CardSide(cfg, |images|, CardDpi(cfg, raw), TitleFor(titles, n - 1))))
  }

  /** One more input: the document grows by its conversion and card side,
      or is gone when the conversion fails. */
  lemma DocumentStep(cfg: PageMarginConfig, procs: seq<Processor>, inputs: seq<DynamicImage>,
                     titles: seq<string>, n: nat, images: seq<RawImage>, pages: seq<Page>)
    requires PositiveLengths(cfg)
    requires n < |inputs|
    requires Document(cfg, procs, inputs, titles, n) == Some((images, pages))
    ensures var r := Extensions.Convert(ApplyAll(procs, inputs[n]));
      && (r.Err? ==> Document(cfg, procs, inputs, titles, n + 1).None?)
      && (r.Ok? ==> Document(cfg, procs, inputs, titles, n + 1)
                      == Some((images + [r.value],
                               pages + CardSide(cfg, |images|, CardDpi(cfg, r.value), TitleFor(titles, n)))))
  {
  }

  /** Once an input cannot be converted, the run has no document. */
  lemma {:induction false} DocumentAborts(cfg: PageMarginConfig, procs: seq<Processor>,
                                          inputs: seq<DynamicImage>, titles: seq<string>, n: nat, m: nat)
    requires PositiveLengths(cfg)
    requires n <= m <= |inputs|
    requires Document(cfg, procs, inputs, titles, n).None?
    ensures Document(cfg, procs, inputs, titles, m).None?
    decreases m - n
  {
    if n < m {
      assert Document(cfg, procs, inputs, titles, n + 1).None?;
      DocumentAborts(cfg, procs, inputs, titles, n + 1, m);
    }
  }

  /** What the program ends with. */
  datatype Outcome =
    | NoImages
    | Saved(images: seq<RawImage>, pages: seq<Page>)
    | Aborted

  /** The first loop of `main`: registers one processor per operation, in
      command-line order. */
  method RegisterProcessors(pdf: PdfDocUtil, ops: seq<ProcOp>, lib: ImageLibrary)
    modifies pdf`processors
    ensures pdf.processors == old(pdf.processors) + Processors(ops, lib)
  {
    ghost var before := pdf.processors;
    for i := 0 to |ops|
      invariant pdf.processors == before + Processors(ops[..i], lib)
    {
      pdf.RegisterImageProcessor(ProcessorFor(ops[i], lib));
      assert Processors(ops[..i + 1], lib) == Processors(ops[..i], lib) + [ProcessorFor(ops[i], lib)];
    }
    assert ops[..|ops|] == ops;
  }

  /** The second loop of `main`: adds one card side per input, titled by the
      title at the same index, to a document with no images yet; `false`
      where the source panics on an input that cannot be converted. */
  method AddCardSides(pdf: PdfDocUtil, inputs: seq<DynamicImage>, titles: seq<string>) returns (ok: bool)
    requires PositiveLengths(pdf.cfg)
    requires pdf.images == [] && pdf.pages == []
    modifies pdf
    ensures pdf.processors == old(pdf.processors)
    ensures var doc := Document(pdf.cfg, pdf.processors, inputs, titles, |inputs|);
      && (ok <==> doc.Some?)
      && (ok ==> doc == Some((pdf.images, pdf.pages)))
  {
    ghost var cfg, procs := pdf.cfg, pdf.processors;
    for idx := 0 to |inputs|
      invariant pdf.cfg == cfg && pdf.processors == procs
      invariant Document(cfg, procs, inputs, titles, idx) == Some((pdf.images, pdf.pages))
    {
      var title := if idx < |titles| then Some(titles[idx]) else None;
      assert title == TitleFor(titles, idx);
      DocumentStep(cfg, procs, inputs, titles, idx, pdf.images, pdf.pages);
      ok := AddCardSide(pdf, inputs[idx], title);
      if !ok {
        DocumentAborts(cfg, procs, inputs, titles, idx + 1, |inputs|);
        return;
      }
    }
    ok := true;
  }

  /** `main`, given the decoded input images, the titles and the parsed
      operations: with no input it stops before building a document;
      otherwise it registers the processors in order and adds one card
      side per input. */
  method RunCli(inputs: seq<DynamicImage>, titles: seq<string>, ops: seq<ProcOp>, lib: ImageLibrary)
    returns (outcome: Outcome)
    ensures |inputs| == 0 <==> outcome == NoImages
    ensures |inputs| > 0 ==>
      match Document(Default(), Processors(ops, lib), inputs, titles, |inputs|)
      case None => outcome == Aborted
      case Some((images, pages)) => outcome == Saved(images, pages)
  {
    if |inputs| == 0 {
      return NoImages;
    }
    var pdf := new PdfDocUtil(Default());
    RegisterProcessors(pdf, ops, lib);
    assert [] + Processors(ops, lib) == Processors(ops, lib);
    var ok := AddCardSides(pdf, inputs, titles);
    assert pdf.cfg == Default() && pdf.processors == Processors(ops, lib);
    outcome := if ok then Saved(pdf.images, pdf.pages) else Aborted;
  }
}
