/** Sequences of button presses, checked against the handlers' contracts alone. */
module Scenarios {
  import opened Optional
  import opened Kernels
  import opened Images
  import opened Resize
  import opened Display
  import opened App

  /** Open, filter, grey, save: the file written holds the decoded contents, unfiltered and
      in colour, because the filter and grey handlers only show their results. */
  method FilterThenSave(openPath: string, savePath: string, height: nat, width: nat,
                        filterType: string, kernelSize: nat)
    returns (saved: SaveOutcome)
    requires openPath != "" && savePath != "" && height >= 1 && width >= 1
    ensures saved == Wrote(savePath, Image(height, width, Bgr, Decoded(openPath)))
  {
    var app := new ImageProcessingApp();
    var o := app.OpenImage(openPath, Some((height, width)));
    o := app.ApplySelectedFilter(filterType, kernelSize);
    o := app.Grayscale();
    saved := app.SaveImage(savePath);
  }

  /** A 100x100 image blurred with a 20x20 box is previewed at 100x100, in colour, unshrunk. */
  method BlurKeepsShape(path: string) returns (o: Outcome)
    requires path != ""
    ensures o.Showed?
    ensures o.shown.image.height == 100 && o.shown.image.width == 100
    ensures o.shown.image.layout == Bgr && o.shown.conversion == BgrToRgb
    ensures o.shown.fit == Unscaled && o.shown.height == 100 && o.shown.width == 100
  {
    var app := new ImageProcessingApp();
    o := app.OpenImage(path, Some((100, 100)));
    o := app.ApplySelectedFilter("Blur", 20);
  }

  /** Before any image is opened every image handler raises and nothing is stored. */
  method NothingLoaded() returns (gray: Outcome, step: Outcome, saved: SaveOutcome)
    ensures gray == Raised(NoImage) && step == Raised(NoImage) && saved == SaveRaised(NoImage)
  {
    var app := new ImageProcessingApp();
    gray := app.Grayscale();
    step := app.DecreaseWidth();
    saved := app.SaveImage("out.jpg");
  }

  /** Shrinking a 2-pixel-wide image: the first step stores width 1, and its preview is
      shown unless the image is 1000 or more pixels high, when the preview width rounds to
      zero and the display raises after the image was stored. The second step would give
      width 0 and raises, and the 1-pixel image is kept and is what gets saved. */
  method ShrinkUntilEmpty(path: string, height: nat) returns (first: Outcome, second: Outcome, saved: SaveOutcome)
    requires path != "" && height >= 1
    ensures first.Showed? <==> height < 1000
    ensures first.Showed? ==> first.shown.image.width == 1 && first.shown.image.height == height
    ensures !first.Showed? ==> first == Raised(EmptyTarget)
    ensures second == Raised(EmptyTarget)
    ensures saved.Wrote? && saved.image.width == 1 && saved.image.height == height
  {
    var app := new ImageProcessingApp();
    var o := app.OpenImage(path, Some((height, 2)));
    first := app.DecreaseWidth();
    PreviewFailsIffThin(app.image.value);
    second := app.DecreaseWidth();
    saved := app.SaveImage("out.jpg");
  }

  /** A 1000x800 image is previewed at 500x400 pixels, while the stored image keeps its
      full size. */
  method LargePreview(path: string) returns (o: Outcome, saved: SaveOutcome)
    requires path != ""
    ensures o.Showed? && o.shown.fit == Scaled(0.5)
    ensures o.shown.height == 500 && o.shown.width == 400
    ensures saved.Wrote? && saved.image.height == 1000 && saved.image.width == 800
  {
    var app := new ImageProcessingApp();
    o := app.OpenImage(path, Some((1000, 800)));
    saved := app.SaveImage("out.jpg");
  }
}
