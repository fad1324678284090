/** `RawImageExt::from_dynamic_image`: turns a decoded image into printpdf's
    raw image, logging what it detects into a caller-owned warning list. */
module Extensions {
  import opened Wrappers
  import opened Images
  import opened PrintPdf

  /** A growable list of warnings, the `&mut Vec<PdfWarnMsg>` of the source. */
  class WarningLog {
    var entries: seq<PdfWarnMsg>

    constructor ()
      ensures entries == []
    {
      entries := [];
    }

    /** `Vec::push`. */
    method Push(w: PdfWarnMsg)
      modifies this
      ensures entries == old(entries) + [w]
    {
      entries := entries + [w];
    }
  }

  function InfoMsg(msg: string): PdfWarnMsg { PdfWarnMsg(0, 0, Info, msg) }
  function WarningMsg(msg: string): PdfWarnMsg { PdfWarnMsg(0, 0, Warning, msg) }

  /** Decimal rendering of a natural number, as `format!("{}", n)`. */
  function NatToString(n: nat): (s: string)
    ensures |s| > 0
    decreases n
  {
    var d := [(('0' as int) + n % 10) as char];
    if n < 10 then d else NatToString(n / 10) + d
  }

  function DimensionsMessage(w: nat, h: nat): string {
    "Image dimensions: " + NatToString(w) + "x" + NatToString(h) + " pixels"
  }

  /** The raw format chosen for each colour type (the first `match`), or
      `None` for a colour type the core does not support. A chosen format
      keeps the colour type's channel count and sample width. */
  function RawFormatOf(ct: ColorType): (r: Option<RawImageFormat>)
    ensures r.Some? <==> !ct.Unsupported?
    ensures r.Some? ==> FormatChannels(r.value) == ChannelCount(ct) && FormatBits(r.value) == SampleBits(ct)
  {
    match ct
    case L8 => Some(R8)
    case La8 => Some(RG8)
    case Rgb8 => Some(RGB8)
    case Rgba8 => Some(RGBA8)
    case L16 => Some(R16)
    case La16 => Some(RG16)
    case Rgb16 => Some(RGB16)
    case Rgba16 => Some(RGBA16)
    case Rgb32F => Some(RGBF32)
    case Rgba32F => Some(RGBAF32)
    case Unsupported(_) => None
  }

  /** The note logged for the colour type (an info for a supported type, the
      unsupported-type warning otherwise). */
  function DetectionNote(ct: ColorType): (n: PdfWarnMsg)
    ensures !ct.Unsupported? ==> n.severity == Info
    ensures ct.Unsupported? ==> n == WarningMsg("Unsupported color type: " + ct.debugName)
  {
    match ct
    case L8 => InfoMsg("Detected grayscale (L8) image")
    case La8 => InfoMsg("Detected grayscale with alpha (La8) image")
    case Rgb8 => InfoMsg("Detected RGB (Rgb8) image")
    case Rgba8 => InfoMsg("Detected RGBA (Rgba8) image")
    case L16 => InfoMsg("Detected 16-bit grayscale (L16) image")
    case La16 => InfoMsg("Detected 16-bit grayscale with alpha (La16) image")
    case Rgb16 => InfoMsg("Detected 16-bit RGB (Rgb16) image")
    case Rgba16 => InfoMsg("Detected 16-bit RGBA (Rgba16) image")
    case Rgb32F => InfoMsg("Detected 32-bit float RGB (Rgb32F) image")
    case Rgba32F => InfoMsg("Detected 32-bit float RGBA (Rgba32F) image")
    case Unsupported(name) => WarningMsg("Unsupported color type: " + name)
  }

  function ConvertingMessage(variant: string, samples: nat): PdfWarnMsg {
    InfoMsg("Converting " + variant + " buffer of " + NatToString(samples) + " pixels")
  }

  /** The name of the image's `DynamicImage` variant, as the notes spell it. */
  function VariantName(im: DynamicImage): string {
    match im
    case ImageLuma8(_, _, _) => "ImageLuma8"
    case ImageLumaA8(_, _, _) => "ImageLumaA8"
    case ImageRgb8(_, _, _) => "ImageRgb8"
    case ImageRgba8(_, _, _) => "ImageRgba8"
    case ImageLuma16(_, _, _) => "ImageLuma16"
    case ImageLumaA16(_, _, _) => "ImageLumaA16"
    case ImageRgb16(_, _, _) => "ImageRgb16"
    case ImageRgba16(_, _, _) => "ImageRgba16"
    case ImageRgb32F(_, _, _) => "ImageRgb32F"
    case ImageRgba32F(_, _, _) => "ImageRgba32F"
    case ImageOther(_, _, name) => name
  }

  /** The number of samples in the image's buffer (`image_buffer.len()`). */
  function BufferLength(im: DynamicImage): nat {
    match im
    case ImageLuma8(_, _, b) => |b|
    case ImageLumaA8(_, _, b) => |b|
    case ImageRgb8(_, _, b) => |b|
    case ImageRgba8(_, _, b) => |b|
    case ImageLuma16(_, _, w) => |w|
    case ImageLumaA16(_, _, w) => |w|
    case ImageRgb16(_, _, w) => |w|
    case ImageRgba16(_, _, w) => |w|
    case ImageRgb32F(_, _, f) => |f|
    case ImageRgba32F(_, _, f) => |f|
    case ImageOther(_, _, _) => 0
  }

  /** The pixel data taken out of the image (the second `match`) with the
      note logged for it: every one of the ten known variants yields its
      buffer unchanged and the note "Converting <variant> buffer of <len>
      pixels"; any other variant yields the invalid-format warning. */
  function PixelData(im: DynamicImage): (r: Result<(RawImageData, PdfWarnMsg), PdfWarnMsg>)
    ensures r.Ok? <==> !im.ImageOther?
    ensures r.Ok? ==> r.value.1 == ConvertingMessage(VariantName(im), BufferLength(im))
    ensures r.Ok? ==> DataBits(r.value.0) == SampleBits(ColorOf(im))
    ensures r.Err? ==> r.error == WarningMsg("Invalid pixel format")
  {
    match im
    case ImageLuma8(_, _, b) => Ok((U8(b), ConvertingMessage("ImageLuma8", |b|)))
    case ImageLumaA8(_, _, b) => Ok((U8(b), ConvertingMessage("ImageLumaA8", |b|)))
    case ImageRgb8(_, _, b) => Ok((U8(b), ConvertingMessage("ImageRgb8", |b|)))
    case ImageRgba8(_, _, b) => Ok((U8(b), ConvertingMessage("ImageRgba8", |b|)))
    case ImageLuma16(_, _, w) => Ok((U16(w), ConvertingMessage("ImageLuma16", |w|)))
    case ImageLumaA16(_, _, w) => Ok((U16(w), ConvertingMessage("ImageLumaA16", |w|)))
    case ImageRgb16(_, _, w) => Ok((U16(w), ConvertingMessage("ImageRgb16", |w|)))
    case ImageRgba16(_, _, w) => Ok((U16(w), ConvertingMessage("ImageRgba16", |w|)))
    case ImageRgb32F(_, _, f) => Ok((F32(f), ConvertingMessage("ImageRgb32F", |f|)))
    case ImageRgba32F(_, _, f) => Ok((F32(f), ConvertingMessage("ImageRgba32F", |f|)))
    case ImageOther(_, _, _) => Err(WarningMsg("Invalid pixel format"))
  }

  const DecodedMessage := "Image decoded successfully"

  /** The result of `from_dynamic_image`. It succeeds exactly for the ten
      supported colour types and fails with "invalid raw image format" for
      any other. On success the format keeps the colour type's channel
      count and sample width, the buffer has that sample width and is
      carried over as it is, the dimensions are kept and the tag is
      empty. */
  function Convert(im: DynamicImage): (r: Result<RawImage, string>)
    ensures r.Ok? <==> !ColorOf(im).Unsupported?
    ensures r.Err? ==> r.error == "invalid raw image format"
    ensures r.Ok? ==>
      var raw := r.value;
      && FormatChannels(raw.dataFormat) == ChannelCount(ColorOf(im))
      && FormatBits(raw.dataFormat) == SampleBits(ColorOf(im))
      && DataBits(raw.pixels) == SampleBits(ColorOf(im))
      && (raw.pixels.U8? ==> raw.pixels.bytes == im.bytes)
      && (raw.pixels.U16? ==> raw.pixels.words == im.words)
      && (raw.pixels.F32? ==> raw.pixels.floats == im.floats)
      && raw.width == im.width && raw.height == im.height && raw.tag == []
  {
    match RawFormatOf(ColorOf(im))
    case None => Err("invalid raw image format")
    case Some(fmt) =>
      match PixelData(im)
      case Err(_) => Err("invalid pixel format")
      case Ok((pixels, _)) => Ok(RawImage(pixels, im.width, im.height, fmt, []))
  }

  /** The warnings `from_dynamic_image` appends, in order: on success
      exactly four (dimensions, colour detection, buffer conversion,
      success), all of them infos; on failure exactly two (dimensions, then
      the unsupported-type warning). */
  function ConversionLog(im: DynamicImage): (log: seq<PdfWarnMsg>)
    ensures |log| == (if Convert(im).Ok? then 4 else 2)
    ensures log[0] == InfoMsg(DimensionsMessage(im.width, im.height))
    ensures Convert(im).Ok? ==>
      && log[1] == DetectionNote(ColorOf(im))
      && (forall i :: 0 <= i < 4 ==> log[i].severity == Info)
      && log[2] == ConvertingMessage(VariantName(im), BufferLength(im))
      && log[3] == InfoMsg(DecodedMessage)
    ensures Convert(im).Err? ==>
      log[1] == WarningMsg("Unsupported color type: " + ColorOf(im).debugName) && log[1].severity == Warning
  {
    var dims := InfoMsg(DimensionsMessage(im.width, im.height));
    var ct := ColorOf(im);
    var data := PixelData(im);
    if RawFormatOf(ct).None? then [dims, DetectionNote(ct)]
    else if data.Err? then [dims, DetectionNote(ct), data.error]
    else [dims, DetectionNote(ct), data.value.1, InfoMsg(DecodedMessage)]
  }

  /** `RawImage::from_dynamic_image(im, warnings)`. */
  method FromDynamicImage(im: DynamicImage, warnings: WarningLog) returns (r: Result<RawImage, string>)
    modifies warnings
    ensures r == Convert(im)
    ensures warnings.entries == old(warnings.entries) + ConversionLog(im)
  {
    warnings.Push(InfoMsg(DimensionsMessage(im.width, im.height)));
    var ct := ColorOf(im);
    warnings.Push(DetectionNote(ct));
    var format := RawFormatOf(ct);
    if format.None? {
      return Err("invalid raw image format");
    }
    var data := PixelData(im);
    match data
    case Err(_) =>
      // The fallback arm of the pixel `match`: no image whose colour type
      // is supported reaches it.
      assert false;
    case Ok((pixels, note)) =>
      warnings.Push(note);
      warnings.Push(InfoMsg(DecodedMessage));
      r := Ok(RawImage(pixels, im.width, im.height, format.value, []));
  }

  /** `RawImageFormat` channel count. */
  function FormatChannels(fmt: RawImageFormat): nat {
    match fmt
    case R8 | R16 => 1
    case RG8 | RG16 => 2
    case RGB8 | RGB16 | RGBF32 => 3
    case RGBA8 | RGBA16 | RGBAF32 => 4
  }

  /** `RawImageFormat` bits per sample. */
  function FormatBits(fmt: RawImageFormat): nat {
    match fmt
    case R8 | RG8 | RGB8 | RGBA8 => 8
    case R16 | RG16 | RGB16 | RGBA16 => 16
    case RGBF32 | RGBAF32 => 32
  }

  /** Bits per sample of a raw buffer. */
  function DataBits(d: RawImageData): nat {
    match d
    case U8(_) => 8
    case U16(_) => 16
    case F32(_) => 32
  }
}
