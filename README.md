# ImageProcessingApp: session state, resize steps, kernels and preview fit

This project models the editing core of the `ImageProcessingApp` class in `first.py`, a Tk
image editor built on OpenCV. Every pixel computation is done by OpenCV, so the model keeps
pixels opaque. An image is its height, its width, its channel layout, and a `Pixels` term.
That term records which OpenCV calls produced the contents:

- `Decoded(path)` for cv2.imread;
- `Resampled(...)` for cv2.resize;
- `Filtered(...)` for cv2.filter2D;
- `GrayConverted(...)` for the grey conversion.

Modules:

- `Optional`: the `Option` type, for Python's `None`.
- `Kernels`: the kernels `apply_selected_filter` builds. These are the box blur, sharpen and
  edge detection kernels, with exact `real` weights, plus the filter-type dispatch.
- `Images`: the image value, the error kinds, and the shapes that cv2.filter2D and the grey
  conversion produce.
- `Resize`: the `int(d * 1.1)` and `int(d * 0.9)` step arithmetic and the resize of one axis.
- `Display`: the colour-conversion branch of `update_image_label`, its fit-to-500 decision,
  and the whole-pixel preview size cv2.resize derives from the factor.
- `App`: the class `ImageProcessingApp` with its one mutable field `image`. The open handler
  and the four resize handlers reassign that field. The filter, grey and save handlers only
  read it. `Valid()` is the class invariant: the stored image always has three channels and
  no zero side, and only loading and resizing went into its contents.
- `Scenarios`: sequences of button presses, proved from the handlers' contracts alone.

Notes on the arithmetic:

- `int(d * 1.1)` and `int(d * 0.9)` are modelled as the floors of 11d/10 and 9d/10. The
  doubles nearest to 1.1 and 0.9 lie slightly above them. Where the exact quotient is a
  whole number, the rounded product cannot fall below it. Elsewhere the fraction part is at
  least 0.1. So truncation gives the floor for every side below 2^31, the most an OpenCV
  image can have.
- A handler's exception is modelled as an `Outcome` value of `Raised(error)`. `NoImage` is
  what happens when `self.image` is None. `EmptyTarget` is cv2.resize refusing a zero side.
  Where the exception comes before the assignment to `self.image`, the field is unchanged.

Behaviour worth noting in `first.py`:

- The steps truncate with `int(...)`. So an increase then a decrease can end 1.71 pixels below
  0.99·d, for example 29 → 31 → 27. See `Resize.GrowShrinkLoss` and `Resize.GrowShrinkExample`.
- When cv2.imread cannot decode the file it returns None. `self.image` then becomes None,
  discarding the previous image, and the display call raises. See
  `App.ImageProcessingApp.OpenImage`.
- `apply_filter` and `grayscale` never store their result. They only show it, so a later
  save writes the unfiltered colour image.
- The resize handlers store the new image before showing it. A display failure therefore
  raises with the new image already stored.
- The preview is made by cv2.resize with fx = fy = min(500/h, 500/w). OpenCV rounds each
  side to the nearest integer, ties to even, and refuses a zero side. So an image at least
  1000 times longer on one side than on the other cannot be shown; opening it or resizing
  to it raises. See `Display.PreviewFailsIffThin`.
- Nothing checks the kernel size. The slider starts at 1, so `int(v * 10)` is at least 10.
  A size of 0 would give numpy's empty 0×0 kernel, not a division error.

## Model

| member | source | states |
|---|---|---|
| Images.Rank | first.py:78 | `len(image.shape)` is 2 exactly for a grey image and 3 exactly for a colour image |
| Images.FilteredImage | first.py:22 | cv2.filter2D with ddepth -1 keeps the height, width and layout; the result is not an editable (stored) image |
| Images.GrayImage | first.py:29 | the grey conversion keeps height and width and yields a 2-D, non-editable image |
| Kernels.BoxKernel | first.py:174 | the blur kernel is k×k and every weight times k² is 1 |
| Kernels.SharpenKernel | first.py:177 | the sharpen kernel is 3×3 and its weights sum to 1 |
| Kernels.EdgeKernel | first.py:180 | the edge kernel is 3×3 and its weights sum to 0 |
| Kernels.SelectKernel | first.py:172-181 | a kernel is selected exactly for "Blur", "Sharpen" and "Edge Detection": the box kernel of the slider size, or one of the two fixed kernels; any other type selects none |
| Kernels.BoxKernelSumsToOne | first.py:174 | for every k ≥ 1 the box kernel's k² weights sum to exactly 1 |
| Kernels.SelectedKernelSum | first.py:170-181 | every selected kernel sums to 1, except edge detection's, which sums to 0; sharpen and edge detection do not depend on the kernel size |
| Resize.Grow | first.py:37 | `int(d * 1.1)` (also line 55) is the floor of 11d/10; it is at least d, and above d exactly when d ≥ 10 |
| Resize.Shrink | first.py:46 | `int(d * 0.9)` (also line 64) is the floor of 9d/10; it is below d for d ≥ 1, and 0 exactly when d ≤ 1 |
| Resize.Resized | first.py:38 | cv2.resize to (width, height) fails with EmptyTarget exactly when a side is 0; otherwise it gives that shape with the same layout |
| Resize.Step | first.py:36-38 | a resize handler's new shape (lines 45-47, 54-56 and 63-65 alike): the chosen side gets its target, the other side and the layout are kept, and it fails with EmptyTarget exactly when a side of the target is zero |
| Resize.StepShape | first.py:34-68 | a successful step resamples the contents, which still come from loading and resizing only, so a storable image stays storable |
| Resize.IncreaseStep | first.py:34-41 | an increase (height here, width at lines 52-59) never fails on a non-empty image and never shrinks it; it strictly grows exactly the sides of 10 or more |
| Resize.DecreaseStep | first.py:43-50 | a decrease (height here, width at lines 61-68) fails with EmptyTarget exactly when the chosen side is 1; otherwise it strictly shrinks that side |
| Resize.OppositeStepsShrink | first.py:34-50 | an increase then a decrease, or a decrease then an increase, ends at most 99/100 of the start and strictly below it |
| Resize.GrowShrinkLoss | first.py:37-46 | an increase followed by a decrease loses at most 1.71 pixels against 0.99·d |
| Resize.GrowShrinkExample | first.py:37-46 | 29 grows to 31 and shrinks to 27, so the bound above is reached |
| Display.Min | first.py:88 | `min` is below both arguments and equal to one of them |
| Display.ConversionFor | first.py:78-81 | GRAY2RGB is chosen exactly for a 2-D image, BGR2RGB otherwise |
| Display.FitFor | first.py:84-89 | the preview is scaled exactly when the height or the width exceeds 500 |
| Display.RoundHalfEven | first.py:89 | the size cv2.resize derives from fx and fy is within half a pixel of the exact product; for a non-negative product it is 0 exactly when the product is at most 0.5 |
| Display.PreviewSide | first.py:88-89 | an unscaled side is kept; a scaled side is within half a pixel of side × factor |
| Display.UpdateImageLabel | first.py:76-89 | the shown image is the one passed in, converted by `ConversionFor` of its layout, fitted by `FitFor` of its size, with whole-pixel sides between 1 and 500; a preview with a zero side raises EmptyTarget, which only a scaled preview can hit |
| Display.FitBounds | first.py:84-89 | a scaled preview uses a factor strictly between 0 and 1 under which both sides are at most 500 and at least one is exactly 500 |
| Display.ThinShrinksToHalfPixel | first.py:84-89 | the factor takes some side to half a pixel or less exactly when one side is at least 1000 times the other |
| Display.PreviewFails | first.py:89 | the preview raises exactly when the image is scaled and a side times the factor is at most half a pixel |
| Display.PreviewFailsIffThin | first.py:76-89 | showing an image raises exactly when one side is at least 1000 times the other |
| App.ShowImage | first.py:76-89 | showing None raises NoImage; showing an image displays `UpdateImageLabel`'s preview of it, or raises EmptyTarget when that preview has a zero side |
| App.ImageProcessingApp.constructor | first.py:11 | a new session holds no image |
| App.ImageProcessingApp.OpenImage | first.py:14-18 | an empty path changes nothing; otherwise the field becomes the decoded three-channel image, or None when decoding fails, and it is shown (showing None raises) |
| App.ImageProcessingApp.ApplyFilter | first.py:20-25 | raises NoImage without an image; otherwise shows the filtered image as `ShowImage` does and leaves the stored one unchanged |
| App.ImageProcessingApp.Grayscale | first.py:27-32 | raises NoImage without an image; otherwise shows the grey image as `ShowImage` does, through the GRAY2RGB conversion, and leaves the stored one unchanged |
| App.ImageProcessingApp.IncreaseHeight | first.py:34-41 | without an image raises NoImage; otherwise the field becomes the image with height `int(h * 1.1)`, width kept, and it is shown; the invariant is kept |
| App.ImageProcessingApp.DecreaseHeight | first.py:43-50 | as above with `int(h * 0.9)`; a zero target raises EmptyTarget and keeps the previous image |
| App.ImageProcessingApp.IncreaseWidth | first.py:52-59 | without an image raises NoImage; otherwise the field becomes the image with width `int(w * 1.1)`, height kept, and it is shown |
| App.ImageProcessingApp.DecreaseWidth | first.py:61-68 | as above with `int(w * 0.9)`; a zero target raises EmptyTarget and keeps the previous image |
| App.ImageProcessingApp.SaveImage | first.py:70-74 | an empty path writes nothing; otherwise the stored image is written (None raises), and what is written is always a colour image with no filter and no grey conversion |
| App.ImageProcessingApp.ApplySelectedFilter | first.py:167-181 | an unknown filter type does nothing; a known one shows the image filtered with the selected kernel, or raises NoImage |
| Scenarios.FilterThenSave | first.py:14-32 | after open, filter and grey, save writes exactly the decoded image |
| Scenarios.BlurKeepsShape | first.py:167-175 | a 100×100 image blurred with a 20×20 box is shown at 100×100 pixels, in colour, unscaled |
| Scenarios.NothingLoaded | first.py:11 | before any open, grey, a resize step and save all raise NoImage |
| Scenarios.ShrinkUntilEmpty | first.py:61-68 | width 2 shrinks to 1 and is shown exactly when the height is below 1000, otherwise the display raises EmptyTarget; the next decrease raises EmptyTarget and the width-1 image is kept and saved |
| Scenarios.LargePreview | first.py:84-89 | a 1000×800 image is previewed with factor 0.5 at 500×400 pixels while the stored image keeps its full size |

## Left out

- Tk widgets, dialogs and the main loop (`create_widgets`, `show_filter_options`, the
  filter window's `destroy`, `root.mainloop()`): presentation only. The paths the dialogs
  return and the slider value become parameters.
- Kernel size from the slider: `int(v * 10)` on a float is not modelled; the size is an
  integer parameter.
- Pixel values: the results of cv2.filter2D, cv2.cvtColor and cv2.resize (border policy,
  clamping, grey weights, interpolation) are library code and are kept opaque.
- File I/O: cv2.imread is a parameter (None, or the decoded size); cv2.imwrite's own
  failures and the dialog's default ".jpg" extension are not modelled.
- PIL / ImageTk conversion and the label update (first.py lines 92-97): foreign calls and display.
- App.ImageProcessingApp.ApplyFilter: does not model how cv2.filter2D treats an empty
  kernel, which only a kernel size of 0 would give and the slider cannot produce.
- Display.RoundHalfEven: rounds the exact real product; OpenCV rounds a double computed
  from the double 500/h, which can differ only when the product lies within rounding error of
  a half-integer.
- Resize.Grow: equals `int(d * 1.1)` for every side below 2^31, by an argument only stated
  here. The doubles nearest 1.1 and 0.9 lie slightly above them. Where the exact quotient is
  whole, the rounded product cannot fall below it; elsewhere its fraction is at least 0.1,
  far above the rounding error.
- Resize.Shrink: equals `int(d * 0.9)` under the same argument, likewise not proved here.
