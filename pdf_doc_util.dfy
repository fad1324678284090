/** `PdfDocUtil`: the document under construction, its layout configuration
    and the ordered list of image processors applied to every input image. */
module PdfDocUtil {
  import opened Wrappers
  import opened Images
  import opened PrintPdf
  import opened Configs
  import Extensions

  /** An image processor: the boxed `FnMut(DynamicImage) -> DynamicImage`
      closures of the source, whose only side effect is logging. */
  type Processor = DynamicImage -> DynamicImage

  /** Dots per inch along one axis: pixels over the length in inches. */
  function AxisDpi(lengthMm: real, px: nat): real
    requires lengthMm > 0.0
  {
    px as real / (lengthMm / 25.4)
  }

  /** `calc_avg_dpi`: the mean of the horizontal and vertical pixel densities
      of an image of `pxW` x `pxH` pixels printed at `width` x `height` mm. */
  function CalcAvgDpi(width: real, height: real, pxW: nat, pxH: nat): (dpi: real)
    requires width > 0.0 && height > 0.0
    ensures dpi * 2.0 == AxisDpi(width, pxW) + AxisDpi(height, pxH)
    ensures AxisDpi(width, pxW) <= AxisDpi(height, pxH) ==>
              AxisDpi(width, pxW) <= dpi <= AxisDpi(height, pxH)
    ensures AxisDpi(height, pxH) <= AxisDpi(width, pxW) ==>
              AxisDpi(height, pxH) <= dpi <= AxisDpi(width, pxW)
    ensures AxisDpi(width, pxW) == AxisDpi(height, pxH) ==> dpi == AxisDpi(width, pxW)
  {
    var widthIn := width / 25.4;
    var heightIn := height / 25.4;
    var widthDpi := pxW as real / widthIn;
    var heightDpi := pxH as real / heightIn;
    (widthDpi + heightDpi) / 2.0
  }

  /** An axis density times the length in inches gives back the pixel count. */
  lemma AxisDpiRoundTrip(lengthMm: real, px: nat)
    requires lengthMm > 0.0
    ensures AxisDpi(lengthMm, px) * (lengthMm / 25.4) == px as real
  {
  }

  /** The processors applied in order, each output feeding the next. */
  function ApplyAll(ps: seq<Processor>, img: DynamicImage): (r: DynamicImage)
    ensures |ps| == 1 ==> r == ps[0](img)
    decreases |ps|
  {
    if |ps| == 0 then img else ps[|ps| - 1](ApplyAll(ps[..|ps| - 1], img))
  }

  /** Running two lists of processors one after the other is running their
      concatenation. */
  lemma {:induction false} ApplyAllAppend(ps: seq<Processor>, qs: seq<Processor>, img: DynamicImage)
    ensures ApplyAll(ps + qs, img) == ApplyAll(qs, ApplyAll(ps, img))
    decreases |qs|
  {
    if |qs| == 0 {
      assert ps + qs == ps;
    } else {
      var n := |qs| - 1;
      assert (ps + qs)[..|ps + qs| - 1] == ps + qs[..n];
      ApplyAllAppend(ps, qs[..n], img);
    }
  }

  /** The first processor registered is the first applied; with none, the
      image is passed through unchanged. */
  lemma ApplyAllFirst(p: Processor, ps: seq<Processor>, img: DynamicImage)
    ensures ApplyAll([p] + ps, img) == ApplyAll(ps, p(img))
    ensures ApplyAll([], img) == img
  {
    var single: seq<Processor> := [p];
    ApplyAllAppend(single, ps, img);
    assert single[..0] == [];
  }

  /** The page `add_page_to_document` appends for `ops`. */
  function PageOf(cfg: PageMarginConfig, ops: seq<Op>): Page {
    Page(cfg.pageWidth, cfg.pageHeight, ops)
  }

  class PdfDocUtil {
    const cfg: PageMarginConfig
    /** The image resources added to the document; an image's id is its index. */
    var images: seq<RawImage>
    /** The document's pages, in order. */
    var pages: seq<Page>
    var processors: seq<Processor>

    /** `PdfDocUtil::new`: an empty document, the given configuration and no processors. */
    constructor (cfg: PageMarginConfig)
      ensures this.cfg == cfg && processors == [] && images == [] && pages == []
    {
      this.cfg := cfg;
      images := [];
      pages := [];
      processors := [];
    }

    /** `register_image_processor`: appends `p`; earlier processors stay. */
    method RegisterImageProcessor(p: Processor)
      modifies this`processors
      ensures processors == old(processors) + [p]
    {
      processors := processors + [p];
    }

    /** `add_page_to_document`: appends one page of the configured size holding `ops`. */
    method AddPageToDocument(ops: seq<Op>)
      modifies this`pages
      ensures pages == old(pages) + [PageOf(cfg, ops)]
    {
      pages := pages + [PageOf(cfg, ops)];
    }

    /** `PdfDocument::add_image`: stores the image and returns its id. */
    method AddImage(image: RawImage) returns (id: nat)
      modifies this`images
      ensures id == |old(images)| && images == old(images) + [image]
    {
      id := |images|;
      images := images + [image];
    }

    /** `load_and_process_image`, given the decoded image: runs every
        processor in registration order, then converts the result. `Err`
        stands for the panic of `.unwrap()` on a failed conversion. */
    method LoadAndProcessImage(decoded: DynamicImage) returns (r: Result<RawImage, string>)
      ensures r == Extensions.Convert(ApplyAll(processors, decoded))
    {
      var image := decoded;
      for i := 0 to |processors|
        invariant image == ApplyAll(processors[..i], decoded)
      {
        assert processors[..i + 1][..i] == processors[..i];
        image := processors[i](image);
      }
      assert processors[..|processors|] == processors;
      var warnings := new Extensions.WarningLog();
      r := Extensions.FromDynamicImage(image, warnings);
    }
  }
}
