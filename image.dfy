/**
 * The decisions `compress_image` takes before handing the picture to the
 * imaging library: which encoder, which colour mode and which quality.
 */
module ImageCompression {
  import opened Wrappers
  import opened Text
  import opened Numeric

  /** The target formats the image path accepts (compared after `lower()`). */
  const ImageFormats: seq<string> := ["jpg", "jpeg", "png", "webp"]

  /** What is passed to the library's `save`: encoder name, colour mode, quality, optimize flag. */
  datatype ImageSave = ImageSave(encoder: string, mode: string, quality: Option<int>, optimize: bool)

  /** Modes the source converts before saving: with alpha, or palette-based. */
  predicate AlphaOrPalette(mode: string) {
    mode == "RGBA" || mode == "P"
  }

  /** JPEG quality: `int(95 * (p / 100))` clamped to [5, 95]. */
  function JpegQuality(targetPercentage: int): (q: int)
    ensures 5 <= q <= 95
  {
    Clamp(Trunc(95.0 * (targetPercentage as real / 100.0)), 5, 95)
  }

  /** WebP quality: `int(100 * (p / 100))`, unclamped. */
  function WebpQuality(targetPercentage: int): int {
    Trunc(100.0 * (targetPercentage as real / 100.0))
  }

  /**
   * The JPEG quality is the integer part of 95% of the target percentage,
   * kept within [5, 95]; on a negative percentage truncation goes toward zero,
   * so the result is the floor 5.
   */
  lemma JpegQualityIntegerForm(targetPercentage: int)
    ensures targetPercentage >= 0 ==>
              JpegQuality(targetPercentage) == Clamp(95 * targetPercentage / 100, 5, 95)
    ensures targetPercentage < 0 ==> JpegQuality(targetPercentage) == 5
  {
    var x := 95.0 * (targetPercentage as real / 100.0);
    assert x == (95 * targetPercentage) as real / 100.0;
    if targetPercentage >= 0 {
      TruncQuotient(95 * targetPercentage, 100);
    }
  }

  /** On the slider's range [5, 100] the quality is within [5, 95]; 50 gives 47, 100 gives 95. */
  lemma JpegQualityExamples()
    ensures JpegQuality(50) == 47 && JpegQuality(100) == 95 && JpegQuality(5) == 5 && JpegQuality(6) == 5
  {
    JpegQualityIntegerForm(50);
    JpegQualityIntegerForm(100);
    JpegQualityIntegerForm(5);
    JpegQualityIntegerForm(6);
  }

  /** A larger target percentage never lowers the JPEG quality. */
  lemma JpegQualityMonotone(p1: int, p2: int)
    requires p1 <= p2
    ensures JpegQuality(p1) <= JpegQuality(p2)
  {
    JpegQualityIntegerForm(p1);
    JpegQualityIntegerForm(p2);
    if p1 >= 0 {
      assert 95 * p1 / 100 <= 95 * p2 / 100 by {
        assert 95 * p1 <= 95 * p2;
      }
    }
  }

  /** The WebP quality equals the target percentage. */
  lemma WebpQualityIsPercentage(targetPercentage: int)
    ensures WebpQuality(targetPercentage) == targetPercentage
  {
    assert 100.0 * (targetPercentage as real / 100.0) == targetPercentage as real;
  }

  /**
   * The save parameters for `outputFormat` (case-insensitive) and a source
   * image in colour mode `mode`; an unknown format raises
   * "Unsupported output format", whose payload is the lower-cased format.
   */
  function PlanImageSave(outputFormat: string, mode: string, targetPercentage: int): (r: Result<ImageSave, string>)
    ensures r.Ok? <==> Lower(outputFormat) in ImageFormats
    ensures r.Err? ==> r.error == Lower(outputFormat)
    ensures r.Ok? && r.value.encoder == "JPEG" ==>
              Lower(outputFormat) in ["jpg", "jpeg"] && r.value.quality.Some? &&
              5 <= r.value.quality.value <= 95 && !AlphaOrPalette(r.value.mode) &&
              (r.value.mode == mode || AlphaOrPalette(mode))
    ensures r.Ok? && r.value.encoder == "PNG" ==>
              Lower(outputFormat) == "png" && r.value.optimize && r.value.quality.None? &&
              (r.value.mode == "RGBA" <==> AlphaOrPalette(mode)) && r.value.mode in ["RGB", "RGBA"]
    ensures r.Ok? && r.value.encoder == "WEBP" ==>
              Lower(outputFormat) == "webp" && r.value.mode == mode && r.value.quality == Some(targetPercentage)
    ensures r.Ok? ==> r.value.encoder in ["JPEG", "PNG", "WEBP"]
    ensures Lower(outputFormat) in ["jpg", "jpeg"] ==>
              r == Ok(ImageSave("JPEG", if AlphaOrPalette(mode) then "RGB" else mode, Some(JpegQuality(targetPercentage)), false))
    ensures Lower(outputFormat) == "png" ==>
              r == Ok(ImageSave("PNG", if AlphaOrPalette(mode) then "RGBA" else "RGB", None, true))
    ensures Lower(outputFormat) == "webp" ==> r == Ok(ImageSave("WEBP", mode, Some(targetPercentage), false))
  {
    var format := Lower(outputFormat);
    if format == "jpg" || format == "jpeg" then
      Ok(ImageSave("JPEG", if AlphaOrPalette(mode) then "RGB" else mode, Some(JpegQuality(targetPercentage)), false))
    else if format == "png" then
      Ok(ImageSave("PNG", if AlphaOrPalette(mode) then "RGBA" else "RGB", None, true))
    else if format == "webp" then
      WebpQualityIsPercentage(targetPercentage);
      Ok(ImageSave("WEBP", mode, Some(WebpQuality(targetPercentage)), false))
    else
      Err(format)
  }
}
