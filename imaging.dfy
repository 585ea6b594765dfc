/** What the two compressToWebP copies (the signature form's and the camera's)
    share: the proportional downscale and the WebP-to-JPEG fallback. The
    browser's canvas encoder is an abstract function. */
module Imaging {
  import opened Common

  /** Pixel size of an image or of a canvas. */
  datatype Dims = Dims(width: nat, height: nat)

  /** The encodings that both compressToWebP copies ask canvas.toDataURL
      for. */
  datatype Encoding = Webp | Jpeg

  /** Encoder quality in hundredths: 0.3 is 30. */
  type Quality = int

  /** An encoded image: its data URL and the pixel size that Image.onload
      reports once the URL is decoded. */
  datatype Picture = Picture(data: string, size: Dims)

  /** `canvas.toDataURL(format, quality)` on a canvas of the given size onto
      which the source picture was drawn. */
  type Encoder = (Picture, Dims, Encoding, Quality) -> string

  /** A browser that cannot encode WebP answers with a PNG data URL. */
  const PngPrefix: string := "data:image/png"

  /** The data URL of an empty PNG canvas. */
  const EmptyPng: string := "data:image/png;base64,"

  /** The dimension rule of both compressToWebP copies: a landscape source is
      scaled so that its width becomes maxWidth, any other source so that its
      height becomes maxHeight, the other side being rounded with Math.round;
      a source already small enough on the tested side is left alone. */
  function FitWithin(source: Dims, maxWidth: nat, maxHeight: nat): Dims {
    if source.width > source.height then
      if source.width > maxWidth then
        Dims(maxWidth, RoundedQuotient(source.height, maxWidth, source.width))
      else source
    else if source.height > maxHeight then
      Dims(RoundedQuotient(source.width, maxHeight, source.height), maxHeight)
    else source
  }

  /** A landscape source wider than maxWidth gets width maxWidth, and its
      height keeps the source's aspect ratio to within half a pixel. */
  lemma FitLandscape(source: Dims, maxWidth: nat, maxHeight: nat)
    requires source.width > source.height && source.width > maxWidth
    ensures var d := FitWithin(source, maxWidth, maxHeight);
      && d.width == maxWidth
      && 2 * d.height * source.width <= 2 * source.height * maxWidth + source.width
      && 2 * source.height * maxWidth < 2 * d.height * source.width + source.width
  {
  }

  /** A portrait or square source taller than maxHeight gets height
      maxHeight, and its width keeps the aspect ratio to within half a pixel. */
  lemma FitPortrait(source: Dims, maxWidth: nat, maxHeight: nat)
    requires source.width <= source.height && source.height > maxHeight
    ensures var d := FitWithin(source, maxWidth, maxHeight);
      && d.height == maxHeight
      && 2 * d.width * source.height <= 2 * source.width * maxHeight + source.height
      && 2 * source.width * maxHeight < 2 * d.width * source.height + source.height
  {
  }

  /** Whatever the source, only the side that the rule tests is bounded: a
      landscape result is at most maxWidth wide, any other at most maxHeight
      high. A source that the tested bound does not exceed is returned as is. */
  lemma FitBoundsTestedSide(source: Dims, maxWidth: nat, maxHeight: nat)
    ensures var d := FitWithin(source, maxWidth, maxHeight);
      && (source.width > source.height ==> d.width <= maxWidth)
      && (source.width <= source.height ==> d.height <= maxHeight)
      && (source.width > source.height && source.width <= maxWidth ==> d == source)
      && (source.width <= source.height && source.height <= maxHeight ==> d == source)
  {
  }

  /** The landscape branch never looks at the height: a 300x250 source keeps
      height 250 under a 300x200 bound. */
  lemma FitLandscapeIgnoresHeight()
    ensures FitWithin(Dims(300, 250), 300, 200) == Dims(300, 250)
  {
  }

  /** The rule never enlarges a side. */
  lemma FitNeverUpscales(source: Dims, maxWidth: nat, maxHeight: nat)
    ensures var d := FitWithin(source, maxWidth, maxHeight);
      d.width <= source.width && d.height <= source.height
  {
    if source.width > source.height && source.width > maxWidth {
      ShrunkSide(source.height, maxWidth, source.width);
    } else if source.width <= source.height && source.height > maxHeight {
      ShrunkSide(source.width, maxHeight, source.height);
    }
  }

  /** The rule keeps the orientation: landscape stays at least as wide as
      high, portrait at least as high as wide. */
  lemma FitKeepsOrientation(source: Dims, maxWidth: nat, maxHeight: nat)
    ensures var d := FitWithin(source, maxWidth, maxHeight);
      && (source.width >= source.height ==> d.width >= d.height)
      && (source.width <= source.height ==> d.width <= d.height)
  {
    if source.width > source.height && source.width > maxWidth {
      RoundedAtMostScale(source.height, maxWidth, source.width);
    } else if source.width <= source.height && source.height > maxHeight {
      RoundedAtMostScale(source.width, maxHeight, source.height);
      if source.width == source.height {
        RoundedSquare(source.width, maxHeight);
      }
    }
  }

  /** Rounding a*b/a gives b back. */
  lemma RoundedSquare(a: nat, b: nat)
    requires a > 0
    ensures RoundedQuotient(a, b, a) == b
  {
    var r := RoundedQuotient(a, b, a);
    MulMonotone(a, b, b);
    assert 2 * a * b + a < (2 * a) * (b + 1);
    DivBelow(2 * a * b + a, 2 * a, b + 1);
    if r < b {
      MulMonotone(2 * a, r, b - 1);
    }
  }

  /** Rounding a*b/c with b < c never exceeds a. */
  lemma ShrunkSide(a: nat, b: nat, c: nat)
    requires b < c
    ensures RoundedQuotient(a, b, c) <= a
  {
    MulMonotone(a, b, c - 1);
    assert 2 * a * b + c < (2 * c) * (a + 1);
    DivBelow(2 * a * b + c, 2 * c, a + 1);
  }

  /** Rounding a*b/c with a <= c never exceeds b. */
  lemma RoundedAtMostScale(a: nat, b: nat, c: nat)
    requires 0 < c && a <= c
    ensures RoundedQuotient(a, b, c) <= b
  {
    MulMonotone(b, a, c);
    assert 2 * a * b + c < (2 * c) * (b + 1);
    DivBelow(2 * a * b + c, 2 * c, b + 1);
  }

  /** The first encoding of both compressToWebP copies: WebP at the given
      quality, replaced by JPEG at the same quality when the WebP answer is
      the empty PNG or otherwise starts with the PNG prefix. */
  function PreferredEncoding(encode: Encoder, source: Picture, size: Dims, quality: Quality): (r: string)
    ensures var webp := encode(source, size, Webp, quality);
      && (!StartsWith(webp, PngPrefix) ==> r == webp)
      && (StartsWith(webp, PngPrefix) ==> r == encode(source, size, Jpeg, quality))
  {
    var webp := encode(source, size, Webp, quality);
    assert StartsWith(EmptyPng, PngPrefix);
    if webp == EmptyPng || StartsWith(webp, PngPrefix) then encode(source, size, Jpeg, quality)
    else webp
  }
}
