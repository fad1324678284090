/** The data types of the `image` and `imageproc` crates that the core reads and writes. */
module Images {

  type u8 = x: int | 0 <= x < 0x100
  type u16 = x: int | 0 <= x < 0x1_0000
  type u32 = x: int | 0 <= x < 0x1_0000_0000

  /** `image::ColorType`. The crate marks the enum non-exhaustive; `Unsupported`
      stands for any colour type added later, with its `Debug` name. */
  datatype ColorType =
    | L8 | La8 | Rgb8 | Rgba8
    | L16 | La16 | Rgb16 | Rgba16
    | Rgb32F | Rgba32F
    | Unsupported(debugName: string)

  /** `image::DynamicImage`: a decoded image with its flat, row-major sample
      buffer. `ImageOther` stands for a variant outside the ten the core knows. */
  datatype DynamicImage =
    | ImageLuma8(width: nat, height: nat, bytes: seq<u8>)
    | ImageLumaA8(width: nat, height: nat, bytes: seq<u8>)
    | ImageRgb8(width: nat, height: nat, bytes: seq<u8>)
    | ImageRgba8(width: nat, height: nat, bytes: seq<u8>)
    | ImageLuma16(width: nat, height: nat, words: seq<u16>)
    | ImageLumaA16(width: nat, height: nat, words: seq<u16>)
    | ImageRgb16(width: nat, height: nat, words: seq<u16>)
    | ImageRgba16(width: nat, height: nat, words: seq<u16>)
    | ImageRgb32F(width: nat, height: nat, floats: seq<real>)
    | ImageRgba32F(width: nat, height: nat, floats: seq<real>)
    | ImageOther(width: nat, height: nat, colorName: string)

  /** `DynamicImage::color`. */
  function ColorOf(im: DynamicImage): ColorType {
    match im
    case ImageLuma8(_, _, _) => L8
    case ImageLumaA8(_, _, _) => La8
    case ImageRgb8(_, _, _) => Rgb8
    case ImageRgba8(_, _, _) => Rgba8
    case ImageLuma16(_, _, _) => L16
    case ImageLumaA16(_, _, _) => La16
    case ImageRgb16(_, _, _) => Rgb16
    case ImageRgba16(_, _, _) => Rgba16
    case ImageRgb32F(_, _, _) => Rgb32F
    case ImageRgba32F(_, _, _) => Rgba32F
    case ImageOther(_, _, name) => Unsupported(name)
  }

  /** `ColorType::channel_count`. */
  function ChannelCount(ct: ColorType): nat {
    match ct
    case L8 | L16 => 1
    case La8 | La16 => 2
    case Rgb8 | Rgb16 | Rgb32F => 3
    case Rgba8 | Rgba16 | Rgba32F => 4
    case Unsupported(_) => 0
  }

  /** Bits per sample of a colour type (`bytes_per_pixel / channel_count * 8`). */
  function SampleBits(ct: ColorType): nat {
    match ct
    case L8 | La8 | Rgb8 | Rgba8 => 8
    case L16 | La16 | Rgb16 | Rgba16 => 16
    case Rgb32F | Rgba32F => 32
    case Unsupported(_) => 0
  }

  /** `image::Rgba<u8>` and `image::Rgb<u8>` pixels. */
  datatype Rgba = Rgba(r: u8, g: u8, b: u8, a: u8)
  datatype Rgb = Rgb(r: u8, g: u8, b: u8)

  /** `imageproc::point::Point<u32>`. */
  datatype Point = Point(x: u32, y: u32)

  /** `imageproc::contours::Contour<u32>`, reduced to its points (the border
      type and parent link play no part in the core). */
  datatype ContourData = Contour(points: seq<Point>)

  /** `find_contours_with_threshold` never yields a contour without points. */
  type Contour = c: ContourData | |c.points| > 0 witness Contour([Point(0, 0)])

  /** `imageproc::rect::Rect`: left/top are `i32`, width/height unsigned.
      The crate's constructor refuses a zero size; in the model only
      `BoundingRectFromPoints` guarantees a size of at least 1 x 1. */
  datatype Rect = Rect(left: int, top: int, width: nat, height: nat)
}
