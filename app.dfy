/** The editing session of `ImageProcessingApp`: one mutable field, `image`, that the open
    and resize handlers replace and that the filter, grey and save handlers only read. */
module App {
  import opened Optional
  import opened Kernels
  import opened Images
  import opened Resize
  import opened Display

  /** What a handler ends with: nothing happened (an empty path, an unknown filter type),
      a preview was put on the label, or an exception was raised. */
  datatype Outcome = Idle | Showed(shown: Shown) | Raised(error: Error)

  /** What `save_image` does: nothing for an empty path, or cv2.imwrite of the stored image. */
  datatype SaveOutcome = NotSaved | Wrote(path: string, image: Image) | SaveRaised(error: Error)

  /** `update_image_label(image)`: None has no `.shape`, so showing it raises NoImage; an
      image is shown unless its preview would have a side of zero pixels. */
  function ShowImage(image: Option<Image>): (o: Outcome)
    requires image.Some? ==> image.value.height >= 1 && image.value.width >= 1
    ensures image.None? ==> o == Raised(NoImage)
    ensures image.Some? ==>
              match UpdateImageLabel(image.value)
              case Ok(s) => o == Showed(s)
              case Err(e) => o == Raised(e)
    ensures o != Idle
    ensures o.Showed? ==> o.shown.image == image.value
  {
    match image
    case None => Raised(NoImage)
    case Some(img) =>
      match UpdateImageLabel(img)
      case Ok(s) => Showed(s)
      case Err(e) => Raised(e)
  }

  /** The effect of one resize handler, from the field before to the field after. */
  ghost predicate StepDone(before: Option<Image>, after: Option<Image>, o: Outcome,
                           axis: Axis, dir: Direction)
  {
    match before
    case None => after == None && o == Raised(NoImage)
    case Some(img) =>
      match Step(img, axis, dir)
      case Err(e) => after == before && o == Raised(e)
      case Ok(next) =>
        after == Some(next) && next.height >= 1 && next.width >= 1 && o == ShowImage(after)
  }

  class ImageProcessingApp {
    var image: Option<Image>

    /** Whatever the field holds is a loaded, possibly resized, three-channel image. */
    ghost predicate Valid()
      reads this
    {
      image.Some? ==> Stored(image.value)
    }

    constructor ()
      ensures Valid() && image == None
    {
      image := None;
    }

    /** `decoded` stands for what cv2.imread returns for `filePath`: None when the file
        cannot be read, otherwise the size of the decoded three-channel image. */
    method OpenImage(filePath: string, decoded: Option<(nat, nat)>) returns (o: Outcome)
      requires Valid()
      requires decoded.Some? ==> decoded.value.0 >= 1 && decoded.value.1 >= 1
      modifies this
      ensures Valid()
      ensures filePath == "" ==> image == old(image) && o == Idle
      ensures filePath != "" && decoded.None? ==> image == None && o == Raised(NoImage)
      ensures filePath != "" && decoded.Some? ==>
                image == Some(Image(decoded.value.0, decoded.value.1, Bgr, Decoded(filePath))) &&
                o == ShowImage(image)
    {
      if filePath != "" {
        image := match decoded
          case None => None
          case Some((h, w)) => Some(Image(h, w, Bgr, Decoded(filePath)));
        o := ShowImage(image);
      } else {
        o := Idle;
      }
    }

    /** Shows the filtered image; the stored image is left as it was. */
    method ApplyFilter(kernel: Kernel) returns (o: Outcome)
      requires Valid()
      ensures image.None? ==> o == Raised(NoImage)
      ensures image.Some? ==> o == ShowImage(Some(FilteredImage(image.value, kernel)))
      ensures o.Showed? ==> o.shown.image == FilteredImage(image.value, kernel)
    {
      match image
      case None =>
        o := Raised(NoImage);
      case Some(img) =>
        o := ShowImage(Some(FilteredImage(img, kernel)));
    }

    /** Shows the grey version; the stored image is left as it was. */
    method Grayscale() returns (o: Outcome)
      requires Valid()
      ensures image.None? ==> o == Raised(NoImage)
      ensures image.Some? ==> o == ShowImage(Some(GrayImage(image.value)))
      ensures o.Showed? ==> o.shown.image == GrayImage(image.value) && o.shown.conversion == GrayToRgb
    {
      match image
      case None =>
        o := Raised(NoImage);
      case Some(img) =>
        o := ShowImage(Some(GrayImage(img)));
    }

    method IncreaseHeight() returns (o: Outcome)
      requires Valid()
      modifies this
      ensures Valid()
      ensures StepDone(old(image), image, o, Height, Increase)
    {
      match image
      case None =>
        o := Raised(NoImage);
      case Some(img) =>
        StepShape(img, Height, Increase);
        IncreaseStep(img, Height);
        image := Some(Resized(img, Grow(img.height), img.width).value);
        o := ShowImage(image);
    }

    method DecreaseHeight() returns (o: Outcome)
      requires Valid()
      modifies this
      ensures Valid()
      ensures StepDone(old(image), image, o, Height, Decrease)
    {
      match image
      case None =>
        o := Raised(NoImage);
      case Some(img) =>
        StepShape(img, Height, Decrease);
        match Resized(img, Shrink(img.height), img.width)
        case Err(e) =>
          o := Raised(e);
        case Ok(next) =>
          image := Some(next);
          o := ShowImage(image);
    }

    method IncreaseWidth() returns (o: Outcome)
      requires Valid()
      modifies this
      ensures Valid()
      ensures StepDone(old(image), image, o, Width, Increase)
    {
      match image
      case None =>
        o := Raised(NoImage);
      case Some(img) =>
        StepShape(img, Width, Increase);
        IncreaseStep(img, Width);
        image := Some(Resized(img, img.height, Grow(img.width)).value);
        o := ShowImage(image);
    }

    method DecreaseWidth() returns (o: Outcome)
      requires Valid()
      modifies this
      ensures Valid()
      ensures StepDone(old(image), image, o, Width, Decrease)
    {
      match image
      case None =>
        o := Raised(NoImage);
      case Some(img) =>
        StepShape(img, Width, Decrease);
        match Resized(img, img.height, Shrink(img.width))
        case Err(e) =>
          o := Raised(e);
        case Ok(next) =>
          image := Some(next);
          o := ShowImage(image);
    }

    /** Writes the stored image, which never carries a filter or a grey conversion. */
    method SaveImage(filePath: string) returns (s: SaveOutcome)
      requires Valid()
      ensures filePath == "" <==> s == NotSaved
      ensures filePath != "" && image.None? ==> s == SaveRaised(NoImage)
      ensures filePath != "" && image.Some? ==> s == Wrote(filePath, image.value)
      ensures s.Wrote? ==> s.image.layout == Bgr && Editable(s.image.pixels)
    {
      if filePath == "" {
        s := NotSaved;
      } else if image.None? {
        s := SaveRaised(NoImage);
      } else {
        s := Wrote(filePath, image.value);
      }
    }

    /** Builds the kernel for the chosen filter type and applies it; an unknown type applies
        nothing. */
    method ApplySelectedFilter(filterType: string, kernelSize: nat) returns (o: Outcome)
      requires Valid()
      ensures filterType !in {"Blur", "Sharpen", "Edge Detection"} ==> o == Idle
      ensures filterType in {"Blur", "Sharpen", "Edge Detection"} && image.None? ==> o == Raised(NoImage)
      ensures filterType in {"Blur", "Sharpen", "Edge Detection"} && image.Some? ==>
                o == ShowImage(Some(FilteredImage(image.value, SelectKernel(filterType, kernelSize).value)))
    {
      var kernel := SelectKernel(filterType, kernelSize);
      match kernel
      case None =>
        o := Idle;
      case Some(k) =>
        o := ApplyFilter(k);
    }
  }
}
