/** The four 10% resize steps: `int(d * 1.1)` or `int(d * 0.9)` on one axis, the other
    axis kept, then cv2.resize with linear interpolation. */
module Resize {
  import opened Images

  /** `int(d * 1.1)`, the floor of 11d/10. For every side below 2^31 (OpenCV sizes are
      `int`) the truncated double product equals that floor; the argument is in README. */
  function Grow(d: nat): (r: nat)
    ensures 10 * r <= 11 * d < 10 * r + 10
    ensures d <= r
    ensures d >= 10 ==> d < r
  {
    d * 11 / 10
  }

  /** `int(d * 0.9)`, the floor of 9d/10. */
  function Shrink(d: nat): (r: nat)
    ensures 10 * r <= 9 * d < 10 * r + 10
    ensures d >= 1 ==> r < d
    ensures r == 0 <==> d <= 1
  {
    d * 9 / 10
  }

  datatype Axis = Height | Width
  datatype Direction = Increase | Decrease

  function Target(d: nat, dir: Direction): nat {
    match dir
    case Increase => Grow(d)
    case Decrease => Shrink(d)
  }

  /** cv2.resize(img, (width, height)): fails on a zero side, otherwise the new shape with
      resampled contents and the same channel layout. */
  function Resized(img: Image, height: nat, width: nat): (r: Result<Image>)
    ensures r.Err? <==> height == 0 || width == 0
    ensures r.Err? ==> r.error == EmptyTarget
    ensures r.Ok? ==> r.value.height == height && r.value.width == width && r.value.layout == img.layout
  {
    if height == 0 || width == 0 then Err(EmptyTarget)
    else Ok(Image(height, width, img.layout, Resampled(img.pixels, height, width)))
  }

  /** One resize handler applied to a loaded image: the chosen side gets its new target, the
      other side is kept, and the step fails exactly when a side of the target is zero. */
  function Step(img: Image, axis: Axis, dir: Direction): (r: Result<Image>)
    ensures r.Err? <==> Target(Along(img, axis), dir) == 0 || Across(img, axis) == 0
    ensures r.Err? ==> r.error == EmptyTarget
    ensures r.Ok? ==>
              Along(r.value, axis) == Target(Along(img, axis), dir) &&
              Across(r.value, axis) == Across(img, axis) && r.value.layout == img.layout
  {
    match axis
    case Height => Resized(img, Target(img.height, dir), img.width)
    case Width => Resized(img, img.height, Target(img.width, dir))
  }

  /** The dimension a step changes. */
  function Along(img: Image, axis: Axis): nat {
    match axis
    case Height => img.height
    case Width => img.width
  }

  /** The dimension a step keeps. */
  function Across(img: Image, axis: Axis): nat {
    match axis
    case Height => img.width
    case Width => img.height
  }

  /** Every successful step resamples the contents to the new shape, so they still come
      from loading and resizing only, and a stored image stays storable. */
  lemma StepShape(img: Image, axis: Axis, dir: Direction)
    ensures Step(img, axis, dir).Ok? ==>
              var next := Step(img, axis, dir).value;
              next.pixels == Resampled(img.pixels, next.height, next.width) &&
              (Stored(img) ==> Stored(next))
  {
  }

  /** An increase never fails on a non-empty image and never shrinks it; it leaves sides
      below 10 as they are and strictly enlarges every side of 10 or more. */
  lemma IncreaseStep(img: Image, axis: Axis)
    requires img.height >= 1 && img.width >= 1
    ensures Step(img, axis, Increase).Ok?
    ensures Along(img, axis) <= Along(Step(img, axis, Increase).value, axis)
    ensures Along(img, axis) < Along(Step(img, axis, Increase).value, axis) <==> Along(img, axis) >= 10
  {
  }

  /** A decrease fails exactly when the chosen side is 1 (the target would be 0); otherwise
      it strictly shrinks that side. */
  lemma DecreaseStep(img: Image, axis: Axis)
    requires img.height >= 1 && img.width >= 1
    ensures Step(img, axis, Decrease).Err? <==> Along(img, axis) == 1
    ensures Step(img, axis, Decrease).Err? ==> Step(img, axis, Decrease).error == EmptyTarget
    ensures Step(img, axis, Decrease).Ok? ==>
              Along(Step(img, axis, Decrease).value, axis) < Along(img, axis)
  {
  }

  /** Opposite steps never restore a side: an increase followed by a decrease, or a decrease
      followed by an increase, ends strictly below where it started, and never more than
      99/100 of it. */
  lemma OppositeStepsShrink(d: nat)
    requires d >= 1
    ensures 100 * Shrink(Grow(d)) <= 99 * d && Shrink(Grow(d)) < d
    ensures 100 * Grow(Shrink(d)) <= 99 * d && Grow(Shrink(d)) < d
  {
  }

  /** Truncation loses at most 1.71 pixels over an increase and a decrease, against the
      exact product 0.99 * d. */
  lemma GrowShrinkLoss(d: nat)
    ensures 99 * d - 171 <= 100 * Shrink(Grow(d))
  {
  }

  /** The bound above is reached: 29 grows to 31 and shrinks to 27, 1.71 below the exact
      0.99 * 29 = 28.71, so the pair of steps can end more than one pixel away from the
      exact product. */
  lemma GrowShrinkExample()
    ensures Grow(29) == 31 && Shrink(31) == 27
  {
  }
}
