/** `ImgProcUtils`: cropping an image to its subject and two per-pixel tone
    maps. The threshold, morphological closing, contour tracing, grey-scale
    conversion, histogram equalisation and `crop_imm` are library routines;
    they enter as parameters or as given buffers. */
module ImgProcUtils {
  import opened Wrappers
  import opened Images

  const U32Max: u32 := 0xFFFF_FFFF

  // ---------------------------------------------------------------------
  // Bounding rectangles

  function Min(a: u32, b: u32): u32 { if a <= b then a else b }
  function Max(a: u32, b: u32): u32 { if a >= b then a else b }

  /** The fold `(u32::MAX, u32::MIN)` -> `(min.min(v), max.max(v))` over
      `vs`: for a non-empty list, its least and its greatest element. */
  function MinMax(vs: seq<u32>): (r: (u32, u32))
    ensures forall i :: 0 <= i < |vs| ==> r.0 <= vs[i] <= r.1
    ensures |vs| > 0 ==> r.0 in vs && r.1 in vs
    decreases |vs|
  {
    if |vs| == 0 then (U32Max, 0)
    else
      var prev := MinMax(vs[..|vs| - 1]);
      var v := vs[|vs| - 1];
      (Min(prev.0, v), Max(prev.1, v))
  }

  function Xs(points: seq<Point>): (xs: seq<u32>)
    ensures |xs| == |points| && forall i :: 0 <= i < |points| ==> xs[i] == points[i].x
  {
    seq(|points|, i requires 0 <= i < |points| => points[i].x)
  }

  function Ys(points: seq<Point>): (ys: seq<u32>)
    ensures |ys| == |points| && forall i :: 0 <= i < |points| ==> ys[i] == points[i].y
  {
    seq(|points|, i requires 0 <= i < |points| => points[i].y)
  }

  /** `v as u32` for an `i32` value `v`. */
  function AsU32(v: int): u32
    requires -0x8000_0000 <= v < 0x8000_0000
  {
    if v >= 0 then v else v + 0x1_0000_0000
  }

  /** `v as i32` for a `u32` value `v`: values from 2^31 up wrap to
      negatives; casting back with `as u32` restores `v`. */
  function AsI32(v: u32): (r: int)
    ensures -0x8000_0000 <= r < 0x8000_0000
    ensures AsU32(r) == v
    ensures v < 0x8000_0000 ==> r == v
  {
    if v < 0x8000_0000 then v else v - 0x1_0000_0000
  }

  /** The column `left() as u32` and row `top() as u32` a rectangle
      starts at. */
  function Left(r: Rect): u32
    requires -0x8000_0000 <= r.left < 0x8000_0000
  {
    AsU32(r.left)
  }

  function Top(r: Rect): u32
    requires -0x8000_0000 <= r.top < 0x8000_0000
  {
    AsU32(r.top)
  }

  /** The rectangle's left and top are `i32` values. */
  predicate I32Corner(r: Rect) {
    -0x8000_0000 <= r.left < 0x8000_0000 && -0x8000_0000 <= r.top < 0x8000_0000
  }

  /** The point lies in the rectangle's columns and rows. */
  predicate Inside(r: Rect, p: Point)
    requires I32Corner(r)
  {
    Left(r) <= p.x < Left(r) + r.width && Top(r) <= p.y < Top(r) + r.height
  }

  /** `bounding_rect_from_points`: the smallest rectangle holding every
      point. It is at least 1 x 1, holds every point, and each of its four
      edges touches a point. */
  function BoundingRectFromPoints(points: seq<Point>): (r: Rect)
    requires |points| > 0
    ensures I32Corner(r) && r.width >= 1 && r.height >= 1
    ensures forall i :: 0 <= i < |points| ==> Inside(r, points[i])
    ensures exists i :: 0 <= i < |points| && points[i].x == Left(r)
    ensures exists i :: 0 <= i < |points| && points[i].x == Left(r) + r.width - 1
    ensures exists i :: 0 <= i < |points| && points[i].y == Top(r)
    ensures exists i :: 0 <= i < |points| && points[i].y == Top(r) + r.height - 1
  {
    var xs := Xs(points);
    var ys := Ys(points);
    var (minX, maxX) := MinMax(xs);
    var (minY, maxY) := MinMax(ys);
    Rect(AsI32(minX), AsI32(minY), maxX - minX + 1, maxY - minY + 1)
  }

  // ---------------------------------------------------------------------
  // Choosing the subject

  /** `r.width() * r.height()`. */
  function Area(r: Rect): (a: nat)
    ensures r.height >= 1 ==> a >= r.width
    ensures r.width >= 1 ==> a >= r.height
    ensures a == 0 <==> r.width == 0 || r.height == 0
  {
    r.width * r.height
  }

  /** The index `max_by_key(area)` returns: of the elements with the
      greatest area, the last one. */
  function LastMaxIndex(rs: seq<Rect>): (i: nat)
    requires |rs| > 0
    ensures i < |rs|
    ensures forall k :: 0 <= k < |rs| ==> Area(rs[k]) <= Area(rs[i])
    ensures forall k :: i < k < |rs| ==> Area(rs[k]) < Area(rs[i])
    decreases |rs|
  {
    if |rs| == 1 then 0
    else
      var j := LastMaxIndex(rs[..|rs| - 1]);
      if Area(rs[|rs| - 1]) >= Area(rs[j]) then |rs| - 1 else j
  }

  /** The bounding rectangle of each contour, in order. */
  function ContourRects(contours: seq<Contour>): (rs: seq<Rect>)
    ensures |rs| == |contours|
    ensures forall i :: 0 <= i < |contours| ==> rs[i] == BoundingRectFromPoints(contours[i].points)
  {
    seq(|contours|, i requires 0 <= i < |contours| => BoundingRectFromPoints(contours[i].points))
  }

  /** Step 5 of `crop_to_subject`: no rectangle without contours; otherwise
      the bounding rectangle of the contour with the greatest area, the last
      such contour on ties. */
  function LargestRect(contours: seq<Contour>): (r: Option<Rect>)
    ensures r.None? <==> |contours| == 0
    ensures r.Some? ==>
      exists i ::
        && 0 <= i < |contours|
        && r.value == BoundingRectFromPoints(contours[i].points)
        && (forall k :: 0 <= k < |contours| ==> Area(BoundingRectFromPoints(contours[k].points)) <= Area(r.value))
        && (forall k :: i < k < |contours| ==> Area(BoundingRectFromPoints(contours[k].points)) < Area(r.value))
  {
    if |contours| == 0 then None
    else
      var rs := ContourRects(contours);
      Some(rs[LastMaxIndex(rs)])
  }

  /** `DynamicImage::crop_imm(x, y, width, height)`. */
  type Cropper = (DynamicImage, u32, u32, nat, nat) -> DynamicImage

  /** `crop_to_subject`, given the contours the library finds in `input`:
      `None` exactly when there are none, otherwise the crop of the
      original input at the chosen rectangle. */
  function CropToSubject(input: DynamicImage, contours: seq<Contour>, cropImm: Cropper): (r: Option<DynamicImage>)
    ensures r.None? <==> |contours| == 0
    ensures r.Some? ==> var rect := LargestRect(contours).value;
      r.value == cropImm(input, Left(rect), Top(rect), rect.width, rect.height)
  {
    match LargestRect(contours)
    case None => None
    case Some(rect) => Some(cropImm(input, Left(rect), Top(rect), rect.width, rect.height))
  }

  /** Any contour of greatest area has the area of the chosen rectangle. */
  lemma CropCoversLargest(contours: seq<Contour>, k: nat)
    requires k < |contours|
    requires forall j :: 0 <= j < |contours| ==>
               Area(BoundingRectFromPoints(contours[j].points)) <= Area(BoundingRectFromPoints(contours[k].points))
    ensures var rect := LargestRect(contours).value;
      Area(rect) == Area(BoundingRectFromPoints(contours[k].points))
  {
  }

  /** Of two contours whose rectangles have the same area, the second is
      chosen. */
  lemma TieGoesToLast(first: Contour, second: Contour)
    requires Area(BoundingRectFromPoints(first.points)) == Area(BoundingRectFromPoints(second.points))
    ensures LargestRect([first, second]) == Some(BoundingRectFromPoints(second.points))
  {
    var cs := [first, second];
    var rs := ContourRects(cs);
    assert rs[..1] == [rs[0]];
    assert LastMaxIndex(rs[..1]) == 0;
    assert LastMaxIndex(rs) == 1;
  }

  // ---------------------------------------------------------------------
  // Brightness and contrast

  type i32 = x: int | -0x8000_0000 <= x < 0x8000_0000

  /** A linear stage `value -> alpha * value + gamma`. */
  datatype Stage = Stage(alpha: real, gamma: real)

  function Apply(s: Stage, v: real): real {
    s.alpha * v + s.gamma
  }

  /** The brightness stage: it maps sample 0 to `shadow` and 255 to
      `highlight`; it is the identity for brightness 0 and, for brightness
      in [-255, 255], its slope lies in [0, 1]. */
  function BrightnessStage(brightness: i32): (s: Stage)
    ensures Apply(s, 0.0) == (if brightness > 0 then brightness else 0) as real
    ensures Apply(s, 255.0) == (if brightness > 0 then 255 else 255 + brightness) as real
    ensures brightness == 0 ==> s == Stage(1.0, 0.0)
    ensures -255 <= brightness <= 255 ==> 0.0 <= s.alpha <= 1.0
  {
    if brightness != 0 then
      var shadow := if brightness > 0 then brightness else 0;
      var highlight := if brightness > 0 then 255 else 255 + brightness;
      Stage((highlight - shadow) as real / 255.0, shadow as real)
    else
      Stage(1.0, 0.0)
  }

  /** The contrast stage, a stretch about the pivot 127: it leaves 127 in
      place, is the identity for contrast 0, and its slope is positive for
      contrast in (-127, 131). At 131 the f32 slope divides by zero. */
  function ContrastStage(contrast: i32): (s: Stage)
    requires contrast != 131
    ensures Apply(s, 127.0) == 127.0
    ensures contrast == 0 ==> s == Stage(1.0, 0.0)
    ensures -127 < contrast < 131 ==> s.alpha > 0.0
  {
    if contrast != 0 then
      var c := contrast as real;
      var num := 131.0 * (c + 127.0);
      var den := 127.0 * (131.0 - c);
      var f := num / den;
      QuotientSign(num, den);
      Stage(f, 127.0 * (1.0 - f))
    else
      Stage(1.0, 0.0)
  }

  lemma QuotientSign(num: real, den: real)
    requires den != 0.0
    ensures num > 0.0 && den > 0.0 ==> num / den > 0.0
  {
    if num > 0.0 && den > 0.0 {
      assert (num / den) * den == num;
    }
  }

  /** `value.clamp(0.0, 255.0)`. */
  function Clamp(v: real): (r: real)
    ensures 0.0 <= r <= 255.0
    ensures 0.0 <= v <= 255.0 ==> r == v
  {
    if v < 0.0 then 0.0 else if v > 255.0 then 255.0 else v
  }

  /** `as u8` of a value already clamped to [0, 255]: truncation. */
  function ToU8(v: real): (r: u8)
    requires 0.0 <= v <= 255.0
    ensures r as real <= v < r as real + 1.0
  {
    v.Floor
  }

  /** One R, G or B sample: brightness first, then contrast, then clamp and
      truncate. For contrast 131 the f32 computation is NaN, which `as u8`
      turns into 0. */
  function ToneChannel(brightness: i32, contrast: i32, channel: u8): (r: u8)
    ensures contrast != 131 ==>
      var v := Apply(ContrastStage(contrast), Apply(BrightnessStage(brightness), channel as real));
      && (v <= 0.0 ==> r == 0)
      && (v >= 255.0 ==> r == 255)
      && (0.0 <= v <= 255.0 ==> r as real <= v < r as real + 1.0)
    ensures contrast == 131 ==> r == 0
  {
    if contrast == 131 then 0
    else ToU8(Clamp(Apply(ContrastStage(contrast), Apply(BrightnessStage(brightness), channel as real))))
  }

  /** One pixel of `apply_brightness_contrast`: the alpha sample is kept. */
  function TonePixel(brightness: i32, contrast: i32, p: Rgba): (q: Rgba)
    ensures q.a == p.a
    ensures q.r == ToneChannel(brightness, contrast, p.r)
    ensures q.g == ToneChannel(brightness, contrast, p.g)
    ensures q.b == ToneChannel(brightness, contrast, p.b)
  {
    Rgba(ToneChannel(brightness, contrast, p.r), ToneChannel(brightness, contrast, p.g),
         ToneChannel(brightness, contrast, p.b), p.a)
  }

  /** Brightness 0 and contrast 0 leave every pixel as it is. */
  lemma ToneIdentity(p: Rgba)
    ensures TonePixel(0, 0, p) == p
  {
    ToneChannelIdentity(p.r);
    ToneChannelIdentity(p.g);
    ToneChannelIdentity(p.b);
  }

  lemma ToneChannelIdentity(c: u8)
    ensures ToneChannel(0, 0, c) == c
  {
    var v := Apply(ContrastStage(0), Apply(BrightnessStage(0), c as real));
    assert v == c as real;
  }

  /** With brightness in [-255, 255] and contrast in (-127, 131) a darker
      sample never comes out brighter. */
  lemma ToneMonotone(brightness: i32, contrast: i32, c1: u8, c2: u8)
    requires -255 <= brightness <= 255 && -127 < contrast < 131
    requires c1 <= c2
    ensures ToneChannel(brightness, contrast, c1) <= ToneChannel(brightness, contrast, c2)
  {
    var bs := BrightnessStage(brightness);
    var cs := ContrastStage(contrast);
    StageMonotone(bs, c1 as real, c2 as real);
    var b1 := Apply(bs, c1 as real);
    var b2 := Apply(bs, c2 as real);
    StageMonotone(cs, b1, b2);
    QuantiseMonotone(Apply(cs, b1), Apply(cs, b2));
  }

  lemma StageMonotone(s: Stage, x: real, y: real)
    requires s.alpha >= 0.0 && x <= y
    ensures Apply(s, x) <= Apply(s, y)
  {
    MulMonotone(s.alpha, x, y);
  }

  lemma QuantiseMonotone(v1: real, v2: real)
    requires v1 <= v2
    ensures ToU8(Clamp(v1)) <= ToU8(Clamp(v2))
  {
  }

  lemma MulMonotone(a: real, x: real, y: real)
    requires a >= 0.0 && x <= y
    ensures a * x <= a * y
  {
    assert a * y - a * x == a * (y - x);
  }

  /** `apply_brightness_contrast` on the RGBA copy of the input, indexed
      `[y, x]`: every pixel is mapped by `TonePixel`, the size is kept. */
  method ApplyBrightnessContrast(input: array2<Rgba>, brightness: i32, contrast: i32) returns (img: array2<Rgba>)
    ensures fresh(img)
    ensures img.Length0 == input.Length0 && img.Length1 == input.Length1
    ensures forall y, x :: 0 <= y < input.Length0 && 0 <= x < input.Length1 ==>
              img[y, x] == TonePixel(brightness, contrast, input[y, x])
  {
    var height := input.Length0;
    var width := input.Length1;
    img := new Rgba[height, width];
    for y := 0 to height
      invariant forall yy, xx :: 0 <= yy < y && 0 <= xx < width ==>
                  img[yy, xx] == TonePixel(brightness, contrast, input[yy, xx])
    {
      for x := 0 to width
        invariant forall yy, xx :: 0 <= yy < y && 0 <= xx < width ==>
                    img[yy, xx] == TonePixel(brightness, contrast, input[yy, xx])
        invariant forall xx :: 0 <= xx < x ==> img[y, xx] == TonePixel(brightness, contrast, input[y, xx])
      {
        var pixel := input[y, x];
        img[y, x] := TonePixel(brightness, contrast, pixel);
      }
    }
  }

  // ---------------------------------------------------------------------
  // Enhancement

  /** `(c as f32 * luma).round().clamp(0.0, 255.0) as u8` with
      `luma = e / 255`: the nearest whole number to `c * e / 255`, halves
      rounded up. It never exceeds `c`; `e = 255` keeps `c` and `e = 0`
      gives 0. */
  function EnhanceChannel(c: u8, e: u8): (r: u8)
    ensures r <= c
    ensures r as real - 0.5 <= (c as real) * (e as real) / 255.0 < r as real + 0.5
    ensures e == 255 ==> r == c
    ensures e == 0 ==> r == 0
  {
    ScaledBound(c, e);
    RoundBelow(Scaled(c, e), c);
    RoundHalfUp(Scaled(c, e))
  }

  /** `c as f32 * (e as f32 / 255.0)`, exactly. */
  function Scaled(c: u8, e: u8): real {
    (c as real) * (e as real) / 255.0
  }

  /** `round().clamp(0.0, 255.0) as u8` of a value in [0, 255]: the nearest
      whole number, halves rounded up. */
  function RoundHalfUp(v: real): (r: u8)
    requires 0.0 <= v <= 255.0
    ensures r as real - 0.5 <= v < r as real + 0.5
  {
    ToU8(Clamp((v + 0.5).Floor as real))
  }

  lemma RoundBelow(v: real, c: u8)
    requires 0.0 <= v <= c as real
    ensures RoundHalfUp(v) <= c
  {
    assert (v + 0.5).Floor <= c;
  }

  lemma ScaledBound(c: u8, e: u8)
    ensures 0.0 <= Scaled(c, e) <= c as real
    ensures e == 255 ==> Scaled(c, e) == c as real
    ensures e == 0 ==> Scaled(c, e) == 0.0
  {
    var cr := c as real;
    var product := cr * (e as real);
    MulMonotone(cr, e as real, 255.0);
    MulMonotone(cr, 0.0, e as real);
    assert 0.0 <= product <= cr * 255.0;
    assert Scaled(c, e) == product / 255.0;
  }

  /** One pixel of `enhance_image`: each colour sample scaled by the
      equalised grey level, alpha fully opaque. */
  function EnhancePixel(p: Rgb, e: u8): (q: Rgba)
    ensures q.a == 255
    ensures q.r <= p.r && q.g <= p.g && q.b <= p.b
    ensures q.r == EnhanceChannel(p.r, e) && q.g == EnhanceChannel(p.g, e) && q.b == EnhanceChannel(p.b, e)
  {
    Rgba(EnhanceChannel(p.r, e), EnhanceChannel(p.g, e), EnhanceChannel(p.b, e), 255)
  }

  /** `enhance_image`, given the RGB copy of the input and its equalised
      grey image, both indexed `[y, x]`. */
  method EnhanceImage(rgb: array2<Rgb>, equalized: array2<u8>) returns (img: array2<Rgba>)
    requires equalized.Length0 == rgb.Length0 && equalized.Length1 == rgb.Length1
    ensures fresh(img)
    ensures img.Length0 == rgb.Length0 && img.Length1 == rgb.Length1
    ensures forall y, x :: 0 <= y < rgb.Length0 && 0 <= x < rgb.Length1 ==>
              img[y, x] == EnhancePixel(rgb[y, x], equalized[y, x])
  {
    var height := rgb.Length0;
    var width := rgb.Length1;
    img := new Rgba[height, width];
    for y := 0 to height
      invariant forall yy, xx :: 0 <= yy < y && 0 <= xx < width ==>
                  img[yy, xx] == EnhancePixel(rgb[yy, xx], equalized[yy, xx])
    {
      for x := 0 to width
        invariant forall yy, xx :: 0 <= yy < y && 0 <= xx < width ==>
                    img[yy, xx] == EnhancePixel(rgb[yy, xx], equalized[yy, xx])
        invariant forall xx :: 0 <= xx < x ==> img[y, xx] == EnhancePixel(rgb[y, xx], equalized[y, xx])
      {
        var orig := rgb[y, x];
        var luma := equalized[y, x];
        img[y, x] := EnhancePixel(orig, luma);
      }
    }
  }
}
