/** The data types of the `printpdf` crate that the core builds. Layout
    lengths stay in millimetres (the conversion to points is left out). */
module PrintPdf {
  import opened Wrappers
  import opened Images

  datatype Point = Point(x: real, y: real)

  /** The drawing operations the core emits, without colour values and font
      choice (every colour the core sets is black, every font Helvetica). */
  datatype Op =
    | UseXObject(id: nat, translateX: real, translateY: real,
                 scaleX: real, scaleY: real, rotate: Option<real>, dpi: real)
    | SetOutlineColor
    | SetLineDashPattern(offset: int, dash1: nat, gap1: nat)
    | DrawLine(p1: Point, p2: Point)
    | SaveGraphicsState
    | StartTextSection
    | SetTextCursor(pos: Point)
    | SetFontSize(sizePt: real)
    | SetLineHeight(heightPt: real)
    | SetFillColor
    | WriteText(text: string)
    | EndTextSection
    | RestoreGraphicsState

  /** `PdfPage`: physical size in mm and its operations. */
  datatype Page = Page(width: real, height: real, ops: seq<Op>)

  datatype RawImageFormat =
    | R8 | RG8 | RGB8 | RGBA8
    | R16 | RG16 | RGB16 | RGBA16
    | RGBF32 | RGBAF32

  datatype RawImageData = U8(bytes: seq<u8>) | U16(words: seq<u16>) | F32(floats: seq<real>)

  datatype RawImage = RawImage(pixels: RawImageData, width: nat, height: nat,
                               dataFormat: RawImageFormat, tag: seq<u8>)

  datatype Severity = Info | Warning

  /** `PdfWarnMsg`: page and operation index (always 0 here), severity, text. */
  datatype PdfWarnMsg = PdfWarnMsg(page: nat, op: nat, severity: Severity, msg: string)
}
