/** The values the editor works on: an image is its shape plus an opaque record of
    how its pixel contents were produced. The pixel values themselves are computed by
    OpenCV and are not modelled; `Pixels` only names the calls that made them. */
module Images {
  import opened Optional
  import opened Kernels

  /** The exceptions the handlers can raise. */
  datatype Error =
    | NoImage       // `self.image` is None: `.shape` or an OpenCV call fails on it
    | EmptyTarget   // cv2.resize refuses a target size with a zero side

  datatype Result<T> = Ok(value: T) | Err(error: Error)

  /** `len(image.shape)`: 3 for the colour arrays cv2.imread returns (channel order B, G, R),
      2 for the single-channel result of a grey conversion. */
  datatype Layout = Bgr | Gray

  /** Provenance of the pixel contents: which OpenCV call produced them from what. */
  datatype Pixels =
    | Decoded(path: string)                                 // cv2.imread(path)
    | Resampled(source: Pixels, height: nat, width: nat)    // cv2.resize(..., INTER_LINEAR)
    | Filtered(source: Pixels, kernel: Kernel)              // cv2.filter2D(..., -1, kernel)
    | GrayConverted(source: Pixels)                         // cv2.cvtColor(..., COLOR_BGR2GRAY)

  datatype Image = Image(height: nat, width: nat, layout: Layout, pixels: Pixels)

  /** The number of entries in `image.shape`. */
  function Rank(layout: Layout): (n: nat)
    ensures n == 2 <==> layout == Gray
    ensures n == 3 <==> layout == Bgr
  {
    match layout
    case Bgr => 3
    case Gray => 2
  }

  /** Contents that only loading and resizing produced: no filter and no grey conversion
      went into them. */
  predicate Editable(p: Pixels) {
    match p
    case Decoded(_) => true
    case Resampled(src, _, _) => Editable(src)
    case Filtered(_, _) => false
    case GrayConverted(_) => false
  }

  /** What a handler may keep in `self.image`: a non-empty three-channel image whose
      contents come from loading and resizing only. */
  predicate Stored(img: Image) {
    img.layout == Bgr && img.height >= 1 && img.width >= 1 && Editable(img.pixels)
  }

  /** The image cv2.filter2D returns: same shape and depth (ddepth -1), filtered contents. */
  function FilteredImage(img: Image, kernel: Kernel): (r: Image)
    ensures r.height == img.height && r.width == img.width && r.layout == img.layout
    ensures !Editable(r.pixels)
  {
    Image(img.height, img.width, img.layout, Filtered(img.pixels, kernel))
  }

  /** The image cvtColor(..., COLOR_BGR2GRAY) returns: same height and width, one channel. */
  function GrayImage(img: Image): (r: Image)
    ensures r.height == img.height && r.width == img.width
    ensures Rank(r.layout) == 2 && !Editable(r.pixels)
  {
    Image(img.height, img.width, Gray, GrayConverted(img.pixels))
  }
}
