/** Pure geometry of the image clipper widget: unit conversion, the per-axis
    boundary clamp, the pinch scale and its bounds, the initial fit of the
    image over the centred crop window, and the sub-rectangle of the source
    image that the crop window shows. Screen lengths are pixels; JavaScript
    numbers are modelled as reals (no rounding). */
module Geometry {

  datatype Option<T> = None | Some(value: T)

  /** A width and a height. */
  datatype Size = Size(width: real, height: real)

  /** An axis-aligned rectangle given by its top-left corner and its size. */
  datatype Box = Box(left: real, top: real, width: real, height: real)

  /** The design unit: 750 rpx span the width of the screen. */
  const RpxPerScreen: real := 750.0

  /** Sensitivity of the pinch: scale change per pixel of finger-distance change. */
  const PinchSensitivity: real := 0.01

  /** `rpxToPX`: converts a length in rpx to screen pixels. */
  function RpxToPx(value: real, screenWidth: real): (px: real)
    ensures px * RpxPerScreen == value * screenWidth
    ensures value == RpxPerScreen ==> px == screenWidth
    ensures value > 0.0 && screenWidth > 0.0 ==> px > 0.0
  {
    value / RpxPerScreen * screenWidth
  }

  // ---------------------------------------------------------------------
  // The crop window and coverage

  /** Leading edge of the crop window on an axis: the window is centred. */
  function WindowStart(windowLen: real, clipperLen: real): real
  {
    (windowLen - clipperLen) / 2.0
  }

  /** Trailing edge of the crop window on an axis. */
  function WindowEnd(windowLen: real, clipperLen: real): (e: real)
    ensures e == WindowStart(windowLen, clipperLen) + clipperLen
  {
    (windowLen + clipperLen) / 2.0
  }

  /** The crop window as a rectangle on the screen. */
  function CropBox(window: Size, clipper: Size): (b: Box)
    ensures b.width == clipper.width && b.height == clipper.height
    ensures b.left + b.width / 2.0 == window.width / 2.0
    ensures b.top + b.height / 2.0 == window.height / 2.0
  {
    Box(WindowStart(window.width, clipper.width), WindowStart(window.height, clipper.height),
        clipper.width, clipper.height)
  }

  /** An image segment starting at `pos` of length `size` leaves no gap inside the crop window on this axis. */
  predicate CoversAxis(pos: real, size: real, windowLen: real, clipperLen: real)
  {
    pos <= WindowStart(windowLen, clipperLen) && pos + size >= WindowEnd(windowLen, clipperLen)
  }

  /** Rectangle `img` contains rectangle `crop`. */
  predicate Covers(img: Box, crop: Box)
  {
    img.left <= crop.left && crop.left + crop.width <= img.left + img.width &&
    img.top <= crop.top && crop.top + crop.height <= img.top + img.height
  }

  // ---------------------------------------------------------------------
  // The boundary clamp (one axis of `outsideBound`)

  /** Where `outsideBound` puts the image on one axis when asked for `pos`:
      past the leading edge it snaps to the leading edge; short of the
      trailing edge it snaps so that its end meets the trailing edge;
      otherwise it keeps `pos`. */
  function Clamp1D(pos: real, size: real, windowLen: real, clipperLen: real): (r: real)
    ensures size >= clipperLen ==> CoversAxis(r, size, windowLen, clipperLen)
    ensures CoversAxis(pos, size, windowLen, clipperLen) ==> r == pos
  {
    if pos > WindowStart(windowLen, clipperLen) then WindowStart(windowLen, clipperLen)
    else if pos + size >= WindowEnd(windowLen, clipperLen) then pos
    else WindowEnd(windowLen, clipperLen) - size
  }

  /** Clamping a clamped position changes nothing, once the image is at least as long as the window. */
  lemma Clamp1DIdempotent(pos: real, size: real, windowLen: real, clipperLen: real)
    requires size >= clipperLen
    ensures Clamp1D(Clamp1D(pos, size, windowLen, clipperLen), size, windowLen, clipperLen)
            == Clamp1D(pos, size, windowLen, clipperLen)
  {
  }

  /** One axis of a pan gesture that passes through the finger coordinates `moves`:
      each move stores the clamp of the baseline `pre` plus the offset from the
      touch origin `start`; `cur` is the position before the first move. */
  function PanMoves(cur: real, pre: real, start: real, moves: seq<real>,
                    size: real, windowLen: real, clipperLen: real): (r: real)
    ensures size >= clipperLen && (|moves| > 0 || CoversAxis(cur, size, windowLen, clipperLen)) ==>
              CoversAxis(r, size, windowLen, clipperLen)
    decreases |moves|
  {
    if |moves| == 0 then cur
    else PanMoves(Clamp1D(pre + (moves[0] - start), size, windowLen, clipperLen),
                  pre, start, moves[1..], size, windowLen, clipperLen)
  }

  /** Pan positions do not accumulate: after any non-empty run of moves the image is
      where the last move alone puts it. */
  lemma {:induction false} PanMovesLast(cur: real, pre: real, start: real, moves: seq<real>,
                                        size: real, windowLen: real, clipperLen: real)
    requires |moves| > 0
    ensures PanMoves(cur, pre, start, moves, size, windowLen, clipperLen)
            == Clamp1D(pre + (moves[|moves| - 1] - start), size, windowLen, clipperLen)
    decreases |moves|
  {
    if |moves| > 1 {
      PanMovesLast(Clamp1D(pre + (moves[0] - start), size, windowLen, clipperLen),
                   pre, start, moves[1..], size, windowLen, clipperLen);
      assert moves[1..][|moves[1..]| - 1] == moves[|moves| - 1];
    }
  }

  function Abs(x: real): real
  {
    if x < 0.0 then -x else x
  }

  /** The clamp moves the image no further than any other covering position would. */
  lemma Clamp1DNearest(pos: real, size: real, windowLen: real, clipperLen: real, q: real)
    requires size >= clipperLen
    requires CoversAxis(q, size, windowLen, clipperLen)
    ensures Abs(Clamp1D(pos, size, windowLen, clipperLen) - pos) <= Abs(q - pos)
  {
  }

  /** With an image shorter than the window no position covers it, and the clamp
      is not idempotent: it flips between the two edges. */
  lemma Clamp1DOscillates(size: real, windowLen: real, clipperLen: real)
    requires size < clipperLen
    ensures forall q :: !CoversAxis(q, size, windowLen, clipperLen)
    ensures var lo := WindowStart(windowLen, clipperLen);
            Clamp1D(lo, size, windowLen, clipperLen) == WindowEnd(windowLen, clipperLen) - size &&
            Clamp1D(Clamp1D(lo, size, windowLen, clipperLen), size, windowLen, clipperLen) == lo &&
            Clamp1D(Clamp1D(lo, size, windowLen, clipperLen), size, windowLen, clipperLen)
              != Clamp1D(lo, size, windowLen, clipperLen)
  {
  }

  // ---------------------------------------------------------------------
  // The pinch scale (`getNewScale` and the bounds in `twoTouchMove`)

  /** `getNewScale`: the scale proposed by a pinch whose finger distance went from `startDistance` to `distance`. */
  function PinchScale(oldScale: real, startDistance: real, distance: real): (s: real)
    ensures (s - oldScale) * 100.0 == distance - startDistance
    ensures s > oldScale <==> distance > startDistance
    ensures s == oldScale <==> distance == startDistance
  {
    oldScale + PinchSensitivity * (distance - startDistance)
  }

  /** The effective upper bound on the scale: `maxScale`, but never below 1. */
  function RealMaxScale(maxScale: real): (m: real)
    ensures m >= 1.0 && m >= maxScale
    ensures maxScale >= 1.0 ==> m == maxScale
  {
    if maxScale >= 1.0 then maxScale else 1.0
  }

  /** The scale bounds of `twoTouchMove`: at most 1 becomes 1, above the bound becomes the bound. */
  function ClampScale(s: real, maxScale: real): (r: real)
    ensures 1.0 <= r <= RealMaxScale(maxScale)
    ensures s <= 1.0 ==> r == 1.0
    ensures s > RealMaxScale(maxScale) ==> r == RealMaxScale(maxScale)
    ensures 1.0 < s <= RealMaxScale(maxScale) ==> r == s
  {
    var r1 := if s <= 1.0 then 1.0 else s;
    if r1 > RealMaxScale(maxScale) then RealMaxScale(maxScale) else r1
  }

  /** A fitted length shown at `scale` (`realImageWidth * newScale`). */
  function Scaled(len: real, scale: real): (r: real)
    ensures len >= 0.0 && scale >= 1.0 ==> r >= len
  {
    assert len * scale - len == len * (scale - 1.0);
    len * scale
  }

  /** Leading edge of an image resized from `lastSize` to `size` about the centre of its baseline segment. */
  function ZoomStart(pre: real, lastSize: real, size: real): (p: real)
    ensures p + size / 2.0 == pre + lastSize / 2.0
  {
    pre - (size - lastSize) / 2.0
  }

  // ---------------------------------------------------------------------
  // The initial fit (`init`)

  /** The quotient `a / b`, as the aspect-ratio test of `init` computes it. */
  function Ratio(a: real, b: real): real
    requires b != 0.0
  {
    a / b
  }

  /** The length that stands to `len` as `num` stands to `den` (`init` derives the second side this way). */
  function Proportional(len: real, num: real, den: real): (r: real)
    requires den != 0.0
    ensures r * den == len * num
  {
    len * num / den
  }

  /** Displayed rectangle chosen when an image of natural size `image` is loaded:
      an image relatively narrower than the crop window fills its width,
      otherwise its height; the result is centred on the window. */
  function Fit(image: Size, clipper: Size, window: Size): (b: Box)
    requires image.width > 0.0 && image.height > 0.0
    requires clipper.width > 0.0 && clipper.height > 0.0
    ensures b.width == clipper.width || b.height == clipper.height
    ensures b.left + b.width / 2.0 == window.width / 2.0
    ensures b.top + b.height / 2.0 == window.height / 2.0
  {
    if Ratio(image.width, image.height) < Ratio(clipper.width, clipper.height) then
      var h := Proportional(clipper.width, image.height, image.width);
      Box(WindowStart(window.width, clipper.width), (window.height - h) / 2.0, clipper.width, h)
    else
      var w := Proportional(clipper.height, image.width, image.height);
      Box((window.width - w) / 2.0, WindowStart(window.height, clipper.height), w, clipper.height)
  }

  /** The fitted image has the natural aspect ratio, is at least the crop size on
      both axes and leaves no gap inside the crop window. */
  lemma FitCovers(image: Size, clipper: Size, window: Size)
    requires image.width > 0.0 && image.height > 0.0
    requires clipper.width > 0.0 && clipper.height > 0.0
    ensures var b := Fit(image, clipper, window);
            b.width * image.height == b.height * image.width &&
            b.width >= clipper.width && b.height >= clipper.height &&
            Covers(b, CropBox(window, clipper))
  {
  }

  /** Which side `init` fills: an image relatively narrower than the crop window
      (cross products `iw * ch < cw * ih`) gets the crop width and overflows in
      height; any other image gets the crop height and at least the crop width. */
  lemma FitChoosesSide(image: Size, clipper: Size, window: Size)
    requires image.width > 0.0 && image.height > 0.0
    requires clipper.width > 0.0 && clipper.height > 0.0
    ensures var b := Fit(image, clipper, window);
            image.width * clipper.height < clipper.width * image.height ==>
              b.width == clipper.width && b.height > clipper.height
    ensures var b := Fit(image, clipper, window);
            image.width * clipper.height >= clipper.width * image.height ==>
              b.height == clipper.height && b.width >= clipper.width
  {
    RatioCompare(image.width, image.height, clipper.width, clipper.height);
  }

  /** Comparing two ratios of positive numbers is comparing cross products. */
  lemma RatioCompare(a: real, b: real, c: real, d: real)
    requires a > 0.0 && b > 0.0 && c > 0.0 && d > 0.0
    ensures Ratio(a, b) < Ratio(c, d) <==> a * d < c * b
  {
    assert a / b * (b * d) == a * d;
    assert c / d * (b * d) == c * b;
    if a / b < c / d {
      assert a / b * (b * d) < c / d * (b * d);
    }
    if a * d < c * b {
      assert a / b * (b * d) < c / d * (b * d);
    }
  }

  /** A 1000 x 500 image under a 500 x 500 window fills the height. */
  lemma FitWideImage(window: Size)
    ensures Fit(Size(1000.0, 500.0), Size(500.0, 500.0), window)
            == Box((window.width - 1000.0) / 2.0, (window.height - 500.0) / 2.0, 1000.0, 500.0)
  {
  }

  // ---------------------------------------------------------------------
  // The source sub-rectangle drawn by `update`

  /** A screen length `screenLen` over an image shown `shownLen` long, in pixels of an image `naturalLen` long. */
  function ToSource(screenLen: real, shownLen: real, naturalLen: real): real
    requires shownLen != 0.0
  {
    screenLen / shownLen * naturalLen
  }

  /** The part of the source image (natural size `image`) that the crop window
      `crop` shows while the image is displayed as `img`. A displayed size of
      zero divides by zero (non-finite numbers in JavaScript): `None`. */
  function SourceRect(crop: Box, img: Box, image: Size): (r: Option<Box>)
    ensures r.None? <==> img.width == 0.0 || img.height == 0.0
  {
    if img.width == 0.0 || img.height == 0.0 then None
    else Some(Box(ToSource(crop.left - img.left, img.width, image.width),
                  ToSource(crop.top - img.top, img.height, image.height),
                  ToSource(crop.width, img.width, image.width),
                  ToSource(crop.height, img.height, image.height)))
  }

  /** Where a rectangle `b` of source-image pixels appears on the screen when the image is displayed as `img`. */
  function ToScreen(img: Box, image: Size, b: Box): Box
    requires image.width != 0.0 && image.height != 0.0
  {
    Box(img.left + b.left / image.width * img.width,
        img.top + b.top / image.height * img.height,
        b.width / image.width * img.width,
        b.height / image.height * img.height)
  }

  /** `b` lies within an image of size `image`. */
  predicate InsideImage(b: Box, image: Size)
  {
    0.0 <= b.left && b.left + b.width <= image.width &&
    0.0 <= b.top && b.top + b.height <= image.height
  }

  /** The source rectangle is the inverse of the screen transform: displayed, it is exactly the crop window. */
  lemma SourceRectRoundTrip(crop: Box, img: Box, image: Size)
    requires img.width != 0.0 && img.height != 0.0
    requires image.width != 0.0 && image.height != 0.0
    ensures SourceRect(crop, img, image).Some?
    ensures ToScreen(img, image, SourceRect(crop, img, image).value) == crop
  {
  }

  /** Zooming in by `scale` shrinks the crop window's extent in source pixels by the same factor. */
  lemma ZoomShrinksSource(screenLen: real, fitted: real, scale: real, naturalLen: real)
    requires fitted > 0.0 && scale >= 1.0
    ensures ToSource(screenLen, Scaled(fitted, scale), naturalLen) * scale
            == ToSource(screenLen, fitted, naturalLen)
  {
  }

  /** While the displayed image covers the crop window, the source rectangle lies inside the source image. */
  lemma SourceRectInsideImage(crop: Box, img: Box, image: Size)
    requires Covers(img, crop)
    requires img.width > 0.0 && img.height > 0.0
    requires image.width >= 0.0 && image.height >= 0.0
    ensures SourceRect(crop, img, image).Some?
    ensures InsideImage(SourceRect(crop, img, image).value, image)
  {
  }
}
