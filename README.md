# doc-printable in Dafny

doc-printable turns one or more photos of an ID card into a printable PDF.
Each input image runs through an ordered list of image processors:
crop to subject, contrast, brightness. It is then converted into a PDF
raw image and laid out as eight copies on A4 sheets. Copies go in rows,
with dashed cut lines under every second copy, a vertical centre line, and
an optional caption. This project models that core and proves what it
does.

Modules, from the leaves up:

- `Wrappers`, `Images` and `PrintPdf` hold the data the core reads and
  writes. `Images` covers the `image`/`imageproc` types: decoded images,
  colour types, pixels, contour points and rectangles. `PrintPdf` covers
  the `printpdf` types: drawing operations, pages, raw images and warnings.
- `Configs` is the page-layout configuration and its defaults.
- `Extensions` is `RawImageExt::from_dynamic_image`. It is a pure result
  `Convert` plus a warning log `ConversionLog`. The method
  `FromDynamicImage` appends that log to a `WarningLog` object.
- `PdfDocUtil` is the document object, a `class` with its image list,
  pages and processor list. It also holds `calc_avg_dpi` and the processor
  fold `ApplyAll`.
- `PdfDocExtIdCard` is `add_card_side`, stated twice:
  - a cursor machine (`CursorBefore`, `Slot`, `NewPageAt`,
    `OverflowCount`) that follows only the card position;
  - a sheet machine (`Step`, `Run`, `CardSide`) that also collects
    operations and pages, as the loop does.

  The method `AddCardSide` follows the steps of `add_card_side` on a
  `PdfDocUtil` object.
  It is proved to append exactly `CardSide`'s pages. Its loop is split as
  `LayOutCopies` (everything after the image is added) and `PlaceCopy`
  (one iteration).
- `CardSheetProofs` relates the two machines. It proves the eight
  placements, the four cut lines, the centre line, the caption and the
  page count of one call.
- `LayoutGeometry` holds the cursor machine's geometry:
  - bounds when a card fits;
  - how each copy follows the previous one;
  - no blank pages when a card fits;
  - a blank first page when it does not;
  - the concrete default layout;
  - a configuration that overflows onto a second page.
- `ImgProcUtils` covers:
  - the bounding rectangle of a contour;
  - the choice of the largest one, where the last one wins on ties;
  - `crop_to_subject`;
  - the per-pixel loops of `apply_brightness_contrast` and
    `enhance_image`, as methods over `array2` buffers.
- `Cli` is `parse_proc_op`, the processor each operation registers, and
  `main` as the method `RunCli`. Its two loops are the methods
  `RegisterProcessors` and `AddCardSides`. `RunCli` is proved against the
  specification function `Document`.
- `Prototype` is `src/main2.rs`: `calc_dpi`, `scale_factor`, and the
  earlier loop that counts pages but keeps every placement on one page.

Modelling conventions:

- Lengths are exact `real` millimetres.
- Pixel samples are `u8`/`u16`/`u32` subset types.
- A Rust panic becomes an explicit outcome:
  - the `.unwrap()` of a failed conversion makes `AddCardSide` return
    `false` and `RunCli` return `Aborted`;
  - the out-of-range `parts[1]` in the parser becomes `IndexPanic`.
- Library routines and I/O enter as parameters or as given inputs.

Where the code and its written description disagree, the model follows
the code:

- **Tie-break.** The largest contour rectangle is taken with Rust's
  `max_by_key`, which returns the last of several equally large elements,
  not the first (`LastMaxIndex`, `TieGoesToLast`).
- **Caption width.** The caption is centred by `text.len()`, the UTF-8 byte
  length, not the character count (`Utf8Len`).

The fallback arm of the pixel-data `match` in `from_dynamic_image`
(`_ => "Invalid pixel format"`) can never run. Every image that gets past
the colour-type `match` is one of the ten variants the pixel `match`
lists. The model keeps the arm in `PixelData` and records that the method
never reaches it.

## Model

| member | source | states |
|---|---|---|
| Configs.Default | src/configs.rs:15-28 | The defaults have positive lengths and one card fits an empty page: the right bound is 200, 10 + 85.6 <= 200, and the top row at 233 is above the bottom margin of 10 |
| PdfDocUtil.CalcAvgDpi | src/pdf_doc_util.rs:6-12 | The density is the mean of the two axis densities (pixels over inches): twice it is their sum, it lies between them, and it equals their common value when they agree |
| PdfDocUtil.AxisDpiRoundTrip | src/pdf_doc_util.rs:7-10 | An axis density times the length in inches gives back the pixel count |
| PdfDocUtil.ApplyAllAppend | src/pdf_doc_util.rs:46-52 | Running two processor lists one after the other equals running their concatenation, each output feeding the next |
| PdfDocUtil.ApplyAll | src/pdf_doc_util.rs:46-52 | With a single registered processor the result is that processor applied to the decoded image |
| PdfDocUtil.ApplyAllFirst | src/pdf_doc_util.rs:46-52 | The first registered processor is applied first; with no processors the image passes through unchanged |
| PdfDocUtil.PdfDocUtil.constructor | src/pdf_doc_util.rs:20-26 | A new document stores the given configuration, with no processors, no images and no pages |
| PdfDocUtil.PdfDocUtil.RegisterImageProcessor | src/pdf_doc_util.rs:28-33 | Appends exactly the one processor at the end; earlier ones are unchanged |
| PdfDocUtil.PdfDocUtil.AddPageToDocument | src/pdf_doc_util.rs:35-38 | Appends exactly one page, of the configured page width and height, holding exactly the given operations |
| PdfDocUtil.PdfDocUtil.AddImage | src/pdf_doc_ext_idcard.rs:20 | Stores the image at the end of the image list and returns the list's old length as the image's id |
| PdfDocUtil.PdfDocUtil.LoadAndProcessImage | src/pdf_doc_util.rs:40-57 | The loop applies every registered processor in order to the decoded image, and the result is the conversion of the processed image (an error where the source panics) |
| Extensions.RawFormatOf | src/extensions.rs:30-116 | A raw format exists exactly for the ten supported colour types; it has the colour type's channel count and sample width (L8 to R8, La8 to RG8, ..., Rgba32F to RGBAF32) |
| Extensions.Convert | src/extensions.rs:16-253 | Conversion succeeds exactly for the supported colour types and otherwise fails with "invalid raw image format"; on success the buffer is carried over unchanged with the matching width (U8, U16 or F32), dimensions are kept and the tag is empty |
| Extensions.DetectionNote | src/extensions.rs:30-116 | A supported colour type is reported as an info; an unsupported one as the warning "Unsupported color type: " followed by the type's debug name |
| Extensions.PixelData | src/extensions.rs:119-236 | The pixel buffer is taken exactly for the ten listed variants, its sample width matches the colour type, and the note is "Converting <variant> buffer of <n> pixels" with the variant's name and the buffer's length; any other image gives the "Invalid pixel format" warning |
| Extensions.ConversionLog | src/extensions.rs:22-244 | On success exactly four entries are logged (dimensions, colour detection, the "Converting <variant> buffer of <n> pixels" note for the image's variant and buffer length, "Image decoded successfully"), all infos; on failure exactly two (dimensions, then the "Unsupported color type" warning) |
| Extensions.FromDynamicImage | src/extensions.rs:16-253 | Returns `Convert(im)` and appends exactly `ConversionLog(im)` to the warning list, leaving the earlier entries untouched |
| PdfDocExtIdCard.CursorRows | src/pdf_doc_ext_idcard.rs:22-33 | With rows going down the cursor never rises above the first row; a copy that opens a new page sits in the first row, any other copy on or above the bottom margin; a new page follows only a row wrap or a cursor already below the margin |
| PdfDocExtIdCard.OverflowCount | src/pdf_doc_ext_idcard.rs:29-33 | The number of copies that open a new page is at most the number of copies |
| PdfDocExtIdCard.Step | src/pdf_doc_ext_idcard.rs:22-94 | One iteration keeps the flushed pages as a prefix and flushes at most one more; the page being filled then holds at least one operation (what it emits is stated by `CardSheetProofs.StepEmits`) |
| PdfDocExtIdCard.Run | src/pdf_doc_ext_idcard.rs:22-95 | After n iterations at most n pages are flushed, and after at least one the page being filled is not empty |
| PdfDocExtIdCard.CardSide | src/pdf_doc_ext_idcard.rs:22-158 | One call appends between one and nine pages, and the last holds at least five operations (its contents are stated by `CardSheetProofs.CardSideLastPage`) |
| PdfDocExtIdCard.PlaceCopy | src/pdf_doc_ext_idcard.rs:22-94 | One iteration of the loop on the document object: the new cursor, the operations of the page being filled and the document's pages are those of `Step` |
| PdfDocExtIdCard.LayOutCopies | src/pdf_doc_ext_idcard.rs:14-158 | After the image is added, the loop, the centre line and the caption append exactly `CardSide`'s pages |
| PdfDocExtIdCard.AddCardSide | src/pdf_doc_ext_idcard.rs:13-159 | The loop over eight copies extends the document by exactly the converted image and the pages `CardSide` describes, at the density `calc_avg_dpi` gives for the card and image; processors are unchanged; when the conversion fails (a panic in the source), nothing changes |
| CardSheetProofs.StepEmits | src/pdf_doc_ext_idcard.rs:22-94 | One iteration places the card at the wrapped and overflow-checked cursor, adds the three cut-line operations on even iterations, flushes a page exactly when the wrapped cursor is below the bottom margin, and moves right by card width plus spacing |
| CardSheetProofs.RunFollowsCursor | src/pdf_doc_ext_idcard.rs:22-95 | After n iterations the loop's cursor is the cursor machine's, it has flushed one page per overflow, and it has emitted exactly the placements and cut lines the cursor machine predicts |
| CardSheetProofs.SlotOpsViews | src/pdf_doc_ext_idcard.rs:22-95 | The first n iterations emit the placements at the first n slots, one cut line under every second copy, no text, and n + 3 * (n / 2) operations in all |
| CardSheetProofs.CardSideOps | src/pdf_doc_ext_idcard.rs:96-158 | The operations of all pages of one call are the loop's output, then the centre line, then the caption when a text is given |
| CardSheetProofs.CardSidePageCount | src/pdf_doc_ext_idcard.rs:29-158 | One call appends the number of overflows plus one pages (the final page is always added), all of the configured page size |
| CardSheetProofs.CardSideViews | src/pdf_doc_ext_idcard.rs:22-158 | Across the pages of one call: the placements are those of the eight slots, the lines are the cut lines and the centre line at the final row, the only text is the caption, and there are 21 operations, plus 9 with a caption |
| CardSheetProofs.EightCopies | src/pdf_doc_ext_idcard.rs:22-94 | The final cursor is on the row of the eighth copy, and the cut lines sit under copies 2, 4, 6 and 8 |
| CardSheetProofs.CardSidePlacements | src/pdf_doc_ext_idcard.rs:22-47 | Exactly eight placements across all pages, in order, copy k at slot k, each at scale 1/1, unrotated, with the same density |
| CardSheetProofs.CardSideLines | src/pdf_doc_ext_idcard.rs:49-116 | The lines are the four full-width cut lines half a vertical spacing under copies 2, 4, 6 and 8, then one vertical line at half the page width from the page top to the final cut-line height |
| CardSheetProofs.LastIterationTail | src/pdf_doc_ext_idcard.rs:22-116 | From any state, after the eighth iteration and the centre line, the last page ends with the copy at the settled cursor, its dashed cut line and the centre line, then the caption's nine operations when a text is given |
| CardSheetProofs.CardSideLastPage | src/pdf_doc_ext_idcard.rs:22-158 | The last page of one call ends with the eighth copy at slot 7, the cut line under it and the centre line down to that cut line, followed by the caption's nine operations when a text is given |
| CardSheetProofs.CardSideCaption | src/pdf_doc_ext_idcard.rs:118-158 | The caption text is written exactly once when given and never otherwise; the last page then ends with the nine caption operations, with the text cursor at half the page width minus 1.8 mm per byte and 20 mm below the last row |
| LayoutGeometry.CursorBeforeBounds | src/pdf_doc_ext_idcard.rs:14-33 | When a card fits an empty page, the cursor before each copy is right of the left margin and between the bottom margin and the top row |
| LayoutGeometry.SlotInBounds | src/pdf_doc_ext_idcard.rs:14-33 | When a card fits an empty page, every copy lies inside the margins: right of the left margin, within the right bound, above the bottom margin and below the top margin |
| LayoutGeometry.FirstSlot | src/pdf_doc_ext_idcard.rs:14-33 | When a card fits, the first copy sits at the start position and does not open a page |
| LayoutGeometry.SlotStep | src/pdf_doc_ext_idcard.rs:24-94 | Each copy sits next to the previous one on the same row when the card still fits there (never opening a page); otherwise one row down at the left margin; or, when that row is below the bottom margin, at the top-left slot of a new page |
| LayoutGeometry.RunPagesGrow | src/pdf_doc_ext_idcard.rs:29-33 | Pages are only ever appended: the pages after m iterations begin the pages after n >= m iterations |
| LayoutGeometry.NoBlankPages | src/pdf_doc_ext_idcard.rs:29-47 | When a card fits an empty page, every flushed page holds at least one placement |
| LayoutGeometry.TooTallCursor | src/pdf_doc_ext_idcard.rs:24-33 | When the top row is already below the bottom margin, every copy opens a new page and the row never moves |
| LayoutGeometry.TooTallBlankPage | src/pdf_doc_ext_idcard.rs:29-33 | In that case one call appends nine pages, the first of them empty |
| LayoutGeometry.DefaultSlots | src/pdf_doc_ext_idcard.rs:22-33 | With the defaults the copies sit two per row at x = 10 and 113.6, on rows y = 233, 169, 105 and 41, and none opens a page |
| LayoutGeometry.DefaultOnePage | src/pdf_doc_ext_idcard.rs:22-33 | With the defaults one call has no overflow and appends exactly one page |
| LayoutGeometry.LandscapeSlots | src/pdf_doc_ext_idcard.rs:22-33 | On a 300 x 150 mm sheet with 80 x 54 mm cards and 10 mm margins and spacings, the seventh copy opens a new page at its top-left slot, after two rows of three |
| LayoutGeometry.LandscapeTwoPages | src/pdf_doc_ext_idcard.rs:29-33 | On that sheet one call appends two pages, holding six and two placements |
| ImgProcUtils.MinMax | src/imgprocutils.rs:16-28 | The fold from (u32::MAX, u32::MIN) yields a lower and an upper bound of every element, both of them elements when the list is not empty |
| ImgProcUtils.AsI32 | src/imgprocutils.rs:30 | The `as i32` cast gives an i32, keeps values below 2^31, and the `as u32` cast back restores the value |
| ImgProcUtils.BoundingRectFromPoints | src/imgprocutils.rs:15-31 | For a non-empty point list, the rectangle is at least 1 x 1, holds every point, and each of its four edges touches a point (left = min x, top = min y, width = max x - min x + 1, height = max y - min y + 1) |
| ImgProcUtils.Area | src/imgprocutils.rs:51 | The area is at least each side when the other side is at least 1, and zero exactly when a side is zero |
| ImgProcUtils.LastMaxIndex | src/imgprocutils.rs:48-51 | The chosen rectangle has an area at least that of every rectangle and greater than that of every later one: the last maximal element |
| ImgProcUtils.ContourRects | src/imgprocutils.rs:48-50 | One bounding rectangle per contour, in order |
| ImgProcUtils.LargestRect | src/imgprocutils.rs:45-51 | No rectangle exactly when there is no contour; otherwise the bounding rectangle of a contour of greatest area, the last such one |
| ImgProcUtils.TieGoesToLast | src/imgprocutils.rs:48-51 | Of two contours of equal area, the second is chosen |
| ImgProcUtils.CropToSubject | src/imgprocutils.rs:34-62 | `None` exactly when no contour is found; otherwise the crop of the original input at the chosen rectangle's left, top, width and height |
| ImgProcUtils.CropCoversLargest | src/imgprocutils.rs:48-51 | The chosen rectangle's area is the greatest contour area |
| ImgProcUtils.BrightnessStage | src/imgprocutils.rs:76-90 | The brightness stage maps 0 to the shadow and 255 to the highlight, is the identity at brightness 0, and has a slope in [0, 1] for brightness in [-255, 255] |
| ImgProcUtils.ContrastStage | src/imgprocutils.rs:93-100 | The contrast stage keeps 127 fixed, is the identity at contrast 0, and has a positive slope for contrast in (-127, 131) |
| ImgProcUtils.Clamp | src/imgprocutils.rs:122 | The clamp lands in [0, 255] and keeps values already in range |
| ImgProcUtils.ToU8 | src/imgprocutils.rs:122 | The `as u8` cast of a clamped value is its truncation |
| ImgProcUtils.ToneChannel | src/imgprocutils.rs:112-123 | A colour sample goes through brightness, then contrast; it becomes 0 at or below 0, 255 at or above 255, and the truncated value in between; at contrast 131 (a NaN in f32) it becomes 0 |
| ImgProcUtils.TonePixel | src/imgprocutils.rs:109-126 | Each of R, G and B is mapped by the tone map and alpha is copied unchanged |
| ImgProcUtils.ToneChannelIdentity | src/imgprocutils.rs:76-100 | Brightness 0 and contrast 0 leave a sample unchanged |
| ImgProcUtils.ToneIdentity | src/imgprocutils.rs:76-126 | Brightness 0 and contrast 0 leave every pixel unchanged |
| ImgProcUtils.ToneMonotone | src/imgprocutils.rs:118-122 | For brightness in [-255, 255] and contrast in (-127, 131), a darker sample never comes out brighter |
| ImgProcUtils.ApplyBrightnessContrast | src/imgprocutils.rs:67-131 | The nested loops produce an image of the same size in which every pixel is the tone-mapped input pixel |
| ImgProcUtils.EnhanceChannel | src/imgprocutils.rs:150-156 | A sample scaled by equalised/255 is rounded to the nearest whole number, never exceeds the original, is kept at 255 and becomes 0 at 0 |
| ImgProcUtils.EnhancePixel | src/imgprocutils.rs:149-162 | Each colour sample is scaled and no brighter than the original; alpha is 255 |
| ImgProcUtils.EnhanceImage | src/imgprocutils.rs:133-167 | The nested loops produce an image of the same size in which every pixel is the enhanced input pixel |
| Cli.LowerChar | src/main.rs:26 | The lower case of a character: an upper-case ASCII letter moves by 32, everything else stays, and the result is never upper case |
| Cli.Lower | src/main.rs:26 | Lowering keeps the length and lowers every character |
| Cli.LowerIdempotent | src/main.rs:26 | Lowering twice is lowering once |
| Cli.IndexOf | src/main.rs:34 | The first position of the separator |
| Cli.Split | src/main.rs:34 | `split(':')` gives at least one part, none containing `:`; joining the parts with `:` gives the text back, and there are two or more parts exactly when the text contains `:` |
| Cli.SecondPart | src/main.rs:34-35 | `parts[1]` is the text between the first and the second `:` |
| Cli.ParseProcOp | src/main.rs:25-43 | Crop2Subject exactly for a token whose lower case is `c2s`; every parse error is "Unknown color" or "Invalid Value."; the `parts[1]` panic only happens to a token without `:` |
| Cli.ParseCaseInsensitive | src/main.rs:25-43 | Tokens with the same lower case parse alike, and a token parses like its lower case |
| Cli.ParseOutcomes | src/main.rs:25-43 | Crop2Subject exactly for a whole `c2s`. A prefix without `:` panics. "Unknown color" exactly for anything without a known prefix; "Invalid Value." exactly for an unparsable value. Contrast exactly for the `contrast` prefix and Brightness only without it, each with the parsed value |
| Cli.C2sWhole | src/main.rs:28-42 | `C2S` is Crop2Subject but `c2s:1` is "Unknown color" |
| Cli.IndexOfAt | src/main.rs:34 | The first separator is at i when it is at i and nowhere before |
| Cli.ContrastValueText | src/main.rs:34-35 | The value text of `contrast:30` is `30` |
| Cli.ContrastToken | src/main.rs:25-41 | Any capitalisation of `contrast:30` is Contrast of the parsed `30`, or "Invalid Value." if that does not parse |
| Cli.BareContrastPanics | src/main.rs:34-35 | A bare `contrast` has no `parts[1]` and panics |
| Cli.TruncToI32 | src/main.rs:119 | `val as i32` truncates toward zero and saturates at the i32 bounds |
| Cli.ProcessorFor | src/main.rs:107-122 | The c2s processor crops to the subject and falls back to the unchanged image when no subject is found; the contrast and brightness processors call the library with the parsed value (brightness truncated to i32) |
| Cli.Processors | src/main.rs:107-122 | One processor per operation, in command-line order |
| Cli.RegisterProcessors | src/main.rs:107-122 | The first loop of `main` appends one processor per operation, in command-line order, after those already registered |
| Cli.Document | src/main.rs:124-131 | There is no document after n inputs exactly when one of the first n processed inputs cannot be converted (where the source panics); otherwise it holds exactly n images and at least n pages |
| Cli.AddCardSides | src/main.rs:124-131 | The second loop of `main` succeeds exactly when `Document` exists for all inputs, and then leaves exactly its images and pages; processors are unchanged |
| Cli.DocumentAborts | src/main.rs:124-131 | Once one input cannot be converted, the run has no document |
| Cli.RunCli | src/main.rs:96-139 | With no input images the program stops before building anything; otherwise its document is the images and pages of `Document`. Processors are registered in command-line order, input i is titled with title i when present, inputs are taken in order, and the run aborts where the source panics |
| Prototype.ProtoConfig | src/main2.rs:40-56 | The prototype's constants have positive lengths, one card fits an empty page, the right bound is 200 and the top row sits at 228 |
| Prototype.CalcDpi | src/main2.rs:58-64 | The prototype's density formula agrees with `calc_avg_dpi` |
| Prototype.ScaleFactor | src/main2.rs:85-92 | The scale factor is the smaller of card width over pixel width and card height over pixel height, so the scaled image fits the card on both axes |
| Prototype.ScaledFits | src/main2.rs:88-92 | The smaller ratio, times each pixel count, stays within the card's size |
| Prototype.ProtoOps | src/main2.rs:101-128 | The k-th placement is at slot k |
| Prototype.PrototypeSheet | src/main2.rs:72-128 | The loop keeps all eight placements, at the slots of the shared cursor machine, in one list, and ends with a page count of one plus the number of overflows |
| Prototype.PrototypeMain | src/main2.rs:66-140 | The prototype fails exactly where the conversion's `.unwrap()` panics; otherwise it produces the converted image, one A4 page holding all eight placements, and the page count |
| Prototype.ProtoSlots | src/main2.rs:101-128 | With the prototype's constants the copies sit two per row at x = 10 and 105.6, on rows y = 228, 164, 100 and 36, and the page count stays 1 |

## Left out

- All I/O is left out: `image::open`, `std::fs::write`, `PdfDocument::save`, `serialize_pdf`, `save_pdf` and every `println!`. The model takes decoded images as inputs and returns the document's images and pages.
- Command-line parsing by clap is left out, and so is its splitting of the operations list at `,`. `RunCli` receives the inputs, the titles and the parsed operations. A token that fails to parse makes clap exit inside `Cli::parse()`, the first statement of `main` (src/main.rs:97), before any document is built.
- The library image routines enter as parameters or given buffers and are not reimplemented:
  - the threshold, closing and contour tracing of `crop_to_subject` (the `contoursOf` parameter);
  - `crop_imm`;
  - `to_rgba8`, `to_rgb8`, `grayscale` and `equalize_histogram`;
  - `adjust_contrast` and `brighten`;
  - `str::parse::<f32>`.
- IEEE f32 arithmetic is not reproduced. Lengths, densities and tone values are exact reals. Contrast 131, whose division by zero turns every sample into 0 through NaN, is written out. Other infinities and NaNs are not.
- The mm-to-pt conversion (`into_pt`) is left out: placements and lines are kept in millimetres.
- Colours, the Helvetica font choice, `icc_profile`, the unused dash and gap slots, `bezier` and `is_closed` are left out. They are the same constants in every operation.
- Cli.LowerChar: `to_lowercase` is modelled on ASCII letters only. Unicode case mapping, which can change a string's length, is not modelled.
- Cli.Lower: it lowers character by character with `Cli.LowerChar` and keeps the length. Unicode case mappings that change the length are not modelled.
- ImgProcUtils.BoundingRectFromPoints: `max - min + 1` is unbounded. The u32 overflow when the points span all 2^32 columns is not modelled. The list must be non-empty, which every contour is; on an empty list the source's subtraction underflows.
- ImgProcUtils.Area: the area is an unbounded product. The u32 overflow of `width() * height()` for areas of 2^32 and more is not modelled.
- Prototype.ScaleFactor: it requires positive pixel counts. A zero-pixel image would give an f32 infinity.
- ImgProcUtils.ApplyBrightnessContrast and ImgProcUtils.EnhanceImage take and return the RGBA/RGB pixel buffers. The conversion into those buffers and the wrapping of the result into `DynamicImage::ImageRgba8` are library calls.
- Prototype.PrototypeMain: src/main2.rs declares `mod extensions;` and `mod image_processing_utilities;` and imports `crate::extensions::MyRawImage` and `crate::image_processing_utilities::ImageProcessingUtilities` (src/main2.rs:31-35). src/extensions.rs exists but defines the trait `RawImageExt` (src/extensions.rs:8), not `MyRawImage`, and there is no `image_processing_utilities` file, so src/main2.rs does not build as written. The model assumes the calls at src/main2.rs:82 and src/main2.rs:95 behave like `ImgProcUtils.ApplyBrightnessContrast` and `Extensions.FromDynamicImage`.
- Prototype.PrototypeMain takes the image after its `apply_brightness_contrast(&dyn_input, 0, 30)` call (src/main2.rs:82). That call is assumed to be the one `ImgProcUtils.ApplyBrightnessContrast` models. The result of `scale_factor` is computed but never used by the source, so it is not part of the output.
- PdfDocUtil.PdfDocUtil.AddImage: printpdf's `add_image` chooses the `XObjectId` itself. Taking the image's index in the list as its id is a choice of this model.
- Configurations with a zero or negative margin, spacing, page size or card size are not modelled. `AddCardSide`, `LayOutCopies`, `PlaceCopy`, `Document`, `AddCardSides` and their lemmas require every length to be positive, although `calc_avg_dpi` only needs a non-zero card width and height. The only configurations the source builds, the defaults and the prototype's constants, have every length positive (`Configs.Default`, `Prototype.ProtoConfig`).
- The document's title, fonts and other metadata are left out. Only the image resources and the pages are modelled.
- The contour border type and parent link are left out, because the core never reads them.
- The throwaway warning list of `load_and_process_image` is left out, and so is the logging done by the processor closures.
- src/main1.rs is not part of this model. It has no logic.
