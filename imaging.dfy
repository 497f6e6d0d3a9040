/**
 * `image_preprocessing`: the transforms' effect on the image's shape and colour
 * tag, the padded hand rectangle used for segmentation, and the `__to_self`
 * decorator that either overwrites the instance or returns a new one.
 */
module Imaging {
  import opened Wrappers
  import opened Values
  import opened Foreign

  /** Pixels added on every side of the hand's bounding box. */
  const Padding := 5

  function Max(a: int, b: int): int { if a >= b then a else b }

  function Min(a: int, b: int): int { if a <= b then a else b }

  /** `inner` lies within `outer`. */
  predicate Contains(outer: Rect, inner: Rect)
  {
    outer.x <= inner.x && outer.y <= inner.y &&
    inner.x + inner.w <= outer.x + outer.w && inner.y + inner.h <= outer.y + outer.h
  }

  /** A bounding rectangle of something drawn in an image of this shape. */
  predicate InImage(box: Rect, shape: Shape)
  {
    0 <= box.x && 0 <= box.y && 0 <= box.w && 0 <= box.h &&
    box.x + box.w <= shape.width && box.y + box.h <= shape.height
  }

  /** The padding and clamping of `__find_hand_rectangle`: the rectangle starts
      at column and row 1 or later, ends inside the image and is at most
      `2 * Padding` wider and taller than the box. */
  function PadHandRectangle(box: Rect, shape: Shape): (r: Rect)
    ensures r.x >= 1 && r.y >= 1
    ensures r.x + r.w <= shape.width && r.y + r.h <= shape.height
    ensures r.w <= box.w + 2 * Padding && r.h <= box.h + 2 * Padding
  {
    var x := Max(1, box.x - Padding);
    var y := Max(1, box.y - Padding);
    Rect(x, y, Min(shape.width - x, box.w + 2 * Padding), Min(shape.height - y, box.h + 2 * Padding))
  }

  /** For a box inside a non-empty image the padded rectangle has no negative side. */
  lemma PaddedRectangleWellFormed(box: Rect, shape: Shape)
    requires InImage(box, shape) && shape.width >= 1 && shape.height >= 1
    ensures var r := PadHandRectangle(box, shape); r.w >= 0 && r.h >= 0
  {
  }

  /** Because the lower clamp is 1 and not 0, the padded rectangle covers the
      box exactly when the box does not touch the first column or row. */
  lemma PaddedRectangleCoversBox(box: Rect, shape: Shape)
    requires InImage(box, shape)
    ensures Contains(PadHandRectangle(box, shape), box) <==> box.x >= 1 && box.y >= 1
  {
  }

  /** Away from the borders the box grows by exactly `Padding` on every side. */
  lemma PaddingAwayFromBorders(box: Rect, shape: Shape)
    requires box.x > Padding && box.y > Padding
    requires box.x + box.w + Padding <= shape.width && box.y + box.h + Padding <= shape.height
    ensures PadHandRectangle(box, shape) ==
            Rect(box.x - Padding, box.y - Padding, box.w + 2 * Padding, box.h + 2 * Padding)
  {
  }

  /** Near the left border the start is clamped to column 1 but the width still
      grows by `2 * Padding`, so the rectangle reaches further right than
      `Padding` past the box. */
  lemma PaddingAtLeftBorder(box: Rect, shape: Shape)
    requires box.x <= Padding
    ensures var r := PadHandRectangle(box, shape);
      r.x == 1 && r.w == Min(shape.width - 1, box.w + 2 * Padding)
  {
  }

  /** `__find_hand_rectangle`: `max` over an empty contour list raises;
      otherwise the largest contour's box, padded, starts at column and row 1
      or later, ends inside the image, and covers the box unless the box
      touches the first column or row. */
  function FindHandRectangle(image: Image, vision: Vision): (r: Result<Rect>)
    ensures r.Err? <==> vision.largestContourBox(image).None?
    ensures r.Err? ==> r.error == EmptyMax
    ensures r.Ok? ==> r.value.x >= 1 && r.value.y >= 1
    ensures r.Ok? ==> r.value.x + r.value.w <= image.shape.width && r.value.y + r.value.h <= image.shape.height
    ensures r.Ok? ==> var box := vision.largestContourBox(image).value;
      && r.value.w <= box.w + 2 * Padding && r.value.h <= box.h + 2 * Padding
      && (InImage(box, image.shape) && box.x >= 1 && box.y >= 1 ==> Contains(r.value, box))
  {
    match vision.largestContourBox(image)
    case None => Err(EmptyMax)
    case Some(box) => Ok(PadHandRectangle(box, image.shape))
  }

  /** The images `cv2.cvtColor` accepts for a conversion from BGR: three or
      four channels. */
  predicate ColorImage(shape: Shape)
  {
    shape.channels == Some(3) || shape.channels == Some(4)
  }

  /** What `max` raises on an empty sequence; the message is the one of
      Python 3.11 and earlier (3.12 words it "max() iterable argument is
      empty"). */
  const EmptyMax := ValueError("max() arg is an empty sequence")

  /** `cv2.cvtColor(image, COLOR_BGR2RGB)`: the channels swapped, and a
      fourth (alpha) channel dropped. */
  function SwapToRgb(image: Image): (rgb: Image)
    requires ColorImage(image.shape)
    ensures rgb.shape == Shape(image.shape.height, image.shape.width, Some(3))
    ensures rgb.origin == image.origin && rgb.history == image.history + [ChannelsSwapped]
  {
    image.(shape := image.shape.(channels := Some(3)), history := image.history + [ChannelsSwapped])
  }

  /** The decorated transforms of `image_preprocessing` that return an
      `(image, color)` pair. */
  datatype Step = Resize(pixels: nat) | ToGrayscale | ToRgb | Blur | Segment

  /** The `(image, color)` pair a decorated transform returns, or what it
      raises. `cv2.resize` refuses an empty target or source size; the colour
      conversions need a BGR(A) image, and converting to RGB drops the alpha
      channel; segmentation first converts to grayscale to find the hand,
      then `grabCut` needs exactly three channels. */
  function Transform(step: Step, image: Image, color: string, vision: Vision): (r: Result<(Image, string)>)
    ensures step.Resize? ==>
      (r.Err? <==> step.pixels == 0 || image.shape.height == 0 || image.shape.width == 0)
    ensures step.Resize? && r.Err? ==> r.error == OpenCvError("resize")
    ensures step in {ToGrayscale, ToRgb, Segment} && !ColorImage(image.shape) ==> r == Err(OpenCvError("cvtColor"))
    ensures step == Segment && ColorImage(image.shape) && vision.largestContourBox(image).None? ==> r == Err(EmptyMax)
    ensures step == Segment && vision.largestContourBox(image).Some? && image.shape.channels == Some(4) ==>
      r == Err(OpenCvError("grabCut"))
    ensures r.Err? ==> !step.Blur?
    ensures r.Ok? ==> r.value.0.origin == image.origin && |r.value.0.history| == |image.history| + 1
    ensures r.Ok? ==> r.value.0.history[..|image.history|] == image.history
    ensures r.Ok? && !step.Resize? ==>
      r.value.0.shape.height == image.shape.height && r.value.0.shape.width == image.shape.width
    ensures r.Ok? && step == ToRgb ==> r.value.0.shape.channels == Some(3) && r.value.1 == "rgb"
    ensures r.Ok? && step == ToGrayscale ==> r.value.0.shape.channels == None && r.value.1 == "gray"
    ensures r.Ok? && step !in {ToGrayscale, ToRgb} ==> r.value.1 == color
  {
    var h, w, c := image.shape.height, image.shape.width, image.shape.channels;
    match step
    case Resize(pixels) =>
      if pixels == 0 || h == 0 || w == 0 then Err(OpenCvError("resize"))
      else Ok((Image(Shape(pixels, pixels, c), image.origin, image.history + [Resized(pixels)]), color))
    case ToGrayscale =>
      if !ColorImage(image.shape) then Err(OpenCvError("cvtColor"))
      else Ok((Image(Shape(h, w, None), image.origin, image.history + [Grayscaled]), "gray"))
    case ToRgb =>
      if !ColorImage(image.shape) then Err(OpenCvError("cvtColor"))
      else Ok((SwapToRgb(image), "rgb"))
    case Blur => Ok((image.(history := image.history + [Blurred]), color))
    case Segment =>
      if !ColorImage(image.shape) then Err(OpenCvError("cvtColor"))
      else
        var rect :- FindHandRectangle(image, vision);
        if c != Some(3) then Err(OpenCvError("grabCut"))
        else Ok((image.(history := image.history + [GrabCut(rect)]), color))
  }

  /** Resizing a non-empty image to a non-empty square, segmenting and
      converting to grayscale yields a square single-channel image tagged
      "gray", with those three operations appended to its history. It fails
      exactly when the image does not have three channels or no contour is
      found in the resized image. */
  lemma ResizeSegmentGrayscale(image: Image, color: string, pixels: nat, vision: Vision)
    ensures Transform(Resize(pixels), image, color, vision).Ok? <==>
      pixels >= 1 && image.shape.height >= 1 && image.shape.width >= 1
    ensures var resized := Transform(Resize(pixels), image, color, vision);
      resized.Ok? ==>
      var segmented := Transform(Segment, resized.value.0, resized.value.1, vision);
      (segmented.Err? <==> image.shape.channels != Some(3) || vision.largestContourBox(resized.value.0).None?) &&
      (segmented.Ok? ==>
        var gray := Transform(ToGrayscale, segmented.value.0, segmented.value.1, vision);
        gray.Ok? && gray.value.0.shape == Shape(pixels, pixels, None) && gray.value.1 == "gray" &&
        gray.value.0.history == image.history +
          [Resized(pixels), GrabCut(PadHandRectangle(vision.largestContourBox(resized.value.0).value, Shape(pixels, pixels, Some(3)))), Grayscaled])
  {
  }

  class ImagePreprocessing {
    var originalImage: Image
    var image: Image
    var color: string
    var size: Shape

    /** `image_preprocessing.__init__` for an image already decoded. */
    constructor (loaded: Image, color: string)
      ensures originalImage == loaded && image == loaded && this.color == color && size == loaded.shape
    {
      originalImage := loaded;
      image := loaded;
      this.color := color;
      size := loaded.shape;
    }

    /** The `__to_self` decorator around a transform. With `toSelf` the
        instance takes the transform's image and colour, `size` follows the
        new image and nothing is returned; without it a fresh instance is built
        from the result and this one is left as it was. An exception raised by
        the transform leaves this instance unchanged. */
    method Apply(step: Step, toSelf: bool, vision: Vision) returns (r: Result<ImagePreprocessing?>)
      modifies this
      ensures var t := Transform(step, old(image), old(color), vision);
        && (t.Err? ==> r == Err(t.error) && unchanged(this))
        && (t.Ok? && toSelf ==>
              && r == Ok(null)
              && image == t.value.0 && color == t.value.1 && size == t.value.0.shape
              && originalImage == old(originalImage))
        && (t.Ok? && !toSelf ==>
              && r.Ok? && r.value != null && fresh(r.value)
              && r.value.image == t.value.0 && r.value.originalImage == t.value.0
              && r.value.color == t.value.1 && r.value.size == t.value.0.shape
              && unchanged(this))
    {
      var t := Transform(step, image, color, vision);
      if t.Err? {
        return Err(t.error);
      }
      var (newImage, newColor) := t.value;
      if toSelf {
        image, color := newImage, newColor;
        size := image.shape;
        r := Ok(null);
      } else {
        var instance := new ImagePreprocessing(newImage, newColor);
        r := Ok(instance);
      }
    }
  }
}
