/** `update_image_label`: the colour conversion and the fit-to-500 decision made before an
    image is shown, and the whole-pixel size of the preview. Only the shape side is
    modelled; the label widget is not. */
module Display {
  import opened Images

  const MaxHeight: nat := 500
  const MaxWidth: nat := 500

  /** The conversion to RGB chosen by `len(image.shape)`. */
  datatype Conversion = GrayToRgb | BgrToRgb

  /** Whether the preview is shrunk, and by which factor (cv2.resize with fx = fy). */
  datatype Fit = Unscaled | Scaled(factor: real)

  /** What is put on the label: the image handed to `update_image_label`, how it was
      converted and fitted, and the preview's size in pixels. */
  datatype Shown = Shown(image: Image, conversion: Conversion, fit: Fit, height: nat, width: nat)

  function Min(a: real, b: real): (m: real)
    ensures m <= a && m <= b && (m == a || m == b)
  {
    if b < a then b else a
  }

  function ConversionFor(layout: Layout): (c: Conversion)
    ensures c == GrayToRgb <==> Rank(layout) == 2
  {
    match layout
    case Gray => GrayToRgb
    case Bgr => BgrToRgb
  }

  /** The fit decision: shrink by min(500/h, 500/w) exactly when a side exceeds 500. */
  function FitFor(height: nat, width: nat): (f: Fit)
    requires height >= 1 && width >= 1
    ensures f.Scaled? <==> height > MaxHeight || width > MaxWidth
  {
    if height > MaxHeight || width > MaxWidth then
      Scaled(Min(MaxHeight as real / height as real, MaxWidth as real / width as real))
    else Unscaled
  }

  /** Rounding to the nearest integer with ties to the even one, as OpenCV rounds the
      size it computes from fx and fy. */
  function RoundHalfEven(x: real): (n: int)
    ensures x - 0.5 <= n as real <= x + 0.5
    ensures x >= 0.0 ==> n >= 0 && (n == 0 <==> x <= 0.5)
  {
    var f := x.Floor;
    var frac := x - f as real;
    if frac < 0.5 then f
    else if frac > 0.5 then f + 1
    else if f % 2 == 0 then f
    else f + 1
  }

  /** One side of the preview in pixels: the side itself, or the nearest integer to the
      side times the factor, as cv2.resize computes it from fx and fy. */
  function PreviewSide(d: nat, f: Fit): (n: int)
    ensures f.Unscaled? ==> n == d
    ensures f.Scaled? ==> d as real * f.factor - 0.5 <= n as real <= d as real * f.factor + 0.5
  {
    match f
    case Unscaled => d
    case Scaled(s) => RoundHalfEven(d as real * s)
  }

  /** The preview fits in 500x500. An image within bounds is shown at its own size; a
      larger one is shrunk by a factor strictly between 0 and 1 that makes at least one side
      exactly 500, so no larger uniform factor would fit. */
  lemma FitBounds(height: nat, width: nat)
    requires height >= 1 && width >= 1
    ensures FitFor(height, width).Scaled? ==>
              var s := FitFor(height, width).factor;
              0.0 < s < 1.0 &&
              height as real * s <= MaxHeight as real && width as real * s <= MaxWidth as real &&
              (height as real * s == MaxHeight as real || width as real * s == MaxWidth as real)
  {
    var f := FitFor(height, width);
    if f.Scaled? {
      var s := f.factor;
      var sh, sw := MaxHeight as real / height as real, MaxWidth as real / width as real;
      assert height as real * sh == MaxHeight as real;
      assert width as real * sw == MaxWidth as real;
      assert sh > 0.0 && sw > 0.0;
      assert height > MaxHeight ==> sh < 1.0;
      assert width > MaxWidth ==> sw < 1.0;
      assert height as real * s <= height as real * sh;
      assert width as real * s <= width as real * sw;
    }
  }

  /** The preview path of `update_image_label`. cv2.resize refuses a preview with a side
      that rounds to zero; otherwise the shown preview is 1 to 500 pixels on each side. */
  function UpdateImageLabel(img: Image): (r: Result<Shown>)
    requires img.height >= 1 && img.width >= 1
    ensures r.Err? ==> r.error == EmptyTarget && FitFor(img.height, img.width).Scaled?
    ensures r.Ok? ==>
              var fit := FitFor(img.height, img.width);
              r.value.image == img && r.value.conversion == ConversionFor(img.layout) &&
              r.value.fit == fit &&
              r.value.height == PreviewSide(img.height, fit) && r.value.width == PreviewSide(img.width, fit) &&
              1 <= r.value.height <= MaxHeight && 1 <= r.value.width <= MaxWidth
  {
    FitBounds(img.height, img.width);
    var fit := FitFor(img.height, img.width);
    var h, w := PreviewSide(img.height, fit), PreviewSide(img.width, fit);
    if h <= 0 || w <= 0 then Err(EmptyTarget)
    else Ok(Shown(img, ConversionFor(img.layout), fit, h, w))
  }

  lemma MulPositive(a: real, b: real, c: real)
    requires c > 0.0
    ensures a <= b <==> a * c <= b * c
  {
    if a <= b {
      assert (b - a) * c >= 0.0;
    } else {
      assert (a - b) * c > 0.0;
    }
  }

  /** With factor 500/long, the short side shrinks to at most half a pixel exactly when the
      long side is at least 1000 times the short one. */
  lemma ShortSide(long: nat, short: nat)
    requires long >= 1
    ensures short as real * (500.0 / long as real) <= 0.5 <==> long >= 1000 * short
  {
    var q := 500.0 / long as real;
    assert long as real * q == 500.0;
    MulPositive(short as real * q, 0.5, long as real);
    assert short as real * q * long as real == 500.0 * short as real;
    assert (1000 * short) as real == 1000.0 * short as real;
  }

  /** The preview fails exactly when the factor takes a side to half a pixel or less. */
  lemma PreviewFails(img: Image)
    requires img.height >= 1 && img.width >= 1
    ensures var fit := FitFor(img.height, img.width);
            UpdateImageLabel(img).Err? <==>
              fit.Scaled? && (img.height as real * fit.factor <= 0.5 || img.width as real * fit.factor <= 0.5)
  {
    FitBounds(img.height, img.width);
  }

  /** The longer side gives the smaller factor. */
  lemma LongerSideSmallerFactor(long: nat, short: nat)
    requires 1 <= short <= long
    ensures 500.0 / long as real <= 500.0 / short as real
  {
    var a, b := 500.0 / long as real, 500.0 / short as real;
    assert a * long as real == 500.0 && b * short as real == 500.0;
    MulPositive(a, b, short as real);
    assert a * short as real <= a * long as real;
  }

  /** Some side shrinks to half a pixel or less exactly when one side is at least 1000 times
      the other. */
  lemma ThinShrinksToHalfPixel(height: nat, width: nat)
    requires height >= 1 && width >= 1
    ensures var fit := FitFor(height, width);
            (fit.Scaled? && (height as real * fit.factor <= 0.5 || width as real * fit.factor <= 0.5)) <==>
              (height >= 1000 * width || width >= 1000 * height)
  {
    var fit := FitFor(height, width);
    if fit.Scaled? {
      if height >= width {
        LongerSideSmallerFactor(height, width);
        assert fit.factor == 500.0 / height as real;
        ShortSide(height, width);
        ShortSide(height, height);
      } else {
        LongerSideSmallerFactor(width, height);
        assert fit.factor == 500.0 / width as real;
        ShortSide(width, height);
        ShortSide(width, width);
      }
    }
  }

  /** The preview fails exactly for images at least 1000 times longer on one side than on
      the other: then the short side shrinks to half a pixel or less and rounds to zero. */
  lemma PreviewFailsIffThin(img: Image)
    requires img.height >= 1 && img.width >= 1
    ensures UpdateImageLabel(img).Err? <==> img.height >= 1000 * img.width || img.width >= 1000 * img.height
  {
    PreviewFails(img);
    ThinShrinksToHalfPixel(img.height, img.width);
  }
}
