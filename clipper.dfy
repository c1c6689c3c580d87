/** The state of one image clipper widget: one field per mutable cell the
    component keeps between renders, the initial fit when image metadata
    arrives, the boundary clamp, the touch handlers and the source rectangle
    that the crop preview draws. */
module Clipper {
  import opened Geometry

  /** Default props of the widget: crop window 500 x 500 rpx, zoom at most 5x. */
  const DefaultClipperWidth: real := 500.0
  const DefaultClipperHeight: real := 500.0
  const DefaultMaxScale: real := 5.0

  /** The gesture chosen at touch-start. */
  datatype EventType = Move | Scale

  /** What the handlers read from a touch event: the number of active touch
      points, the position of the first one, and the distance between the
      first two (meaningful only when `count >= 2`). */
  datatype TouchEvent = TouchEvent(count: nat, x: real, y: real, distance: real)

  class ClipperState {
    // Device metrics and props. The host may pass new props on any render;
    // the model takes them as fixed from mount on.
    const screenWidth: real
    const windowWidth: real
    const windowHeight: real
    const clipperW: real      // crop window width in pixels
    const clipperH: real      // crop window height in pixels
    const maxScale: real
    var src: string

    // Natural size of the loaded image.
    var imageWidth: real
    var imageHeight: real
    // Displayed position and its baseline for the current gesture.
    var imageLeft: real
    var imageTop: real
    var imageLeftPre: real
    var imageTopPre: real
    // Size of the image when fitted, and as currently displayed.
    var realW: real
    var realH: real
    var scaleW: real
    var scaleH: real
    // Gesture session.
    var touchStartX: real
    var touchStartY: real
    var touchDistance: real
    var oldScale: real
    var newScale: real
    var lastScaleW: real
    var lastScaleH: real
    var eventType: EventType

    /** Holds from mount on: a positive crop window and both scales within `[1, max(maxScale, 1)]`. */
    predicate Valid()
      reads this
    {
      clipperW > 0.0 && clipperH > 0.0 &&
      1.0 <= oldScale <= RealMaxScale(maxScale) &&
      1.0 <= newScale <= RealMaxScale(maxScale)
    }

    /** Holds once an image has been fitted: the fitted size is at least the
        crop size, and the displayed image leaves no gap inside the crop window. */
    predicate Covered()
      reads this
    {
      imageWidth > 0.0 && imageHeight > 0.0 &&
      realW >= clipperW && realH >= clipperH &&
      scaleW >= clipperW && scaleH >= clipperH &&
      Covers(Displayed(), Crop())
    }

    function Window(): Size reads this { Size(windowWidth, windowHeight) }
    function ClipperSize(): Size reads this { Size(clipperW, clipperH) }
    function ImageSize(): Size reads this { Size(imageWidth, imageHeight) }
    function Crop(): Box reads this { CropBox(Window(), ClipperSize()) }
    function Displayed(): Box reads this { Box(imageLeft, imageTop, scaleW, scaleH) }

    /** Mount: device metrics are read, the crop size is converted from rpx,
        and every cell takes its initial value. */
    constructor (screenWidth: real, windowWidth: real, windowHeight: real,
                 clipperWidth: real, clipperHeight: real, maxScale: real, src: string)
      requires screenWidth > 0.0 && clipperWidth > 0.0 && clipperHeight > 0.0
      ensures Valid()
      ensures this.screenWidth == screenWidth && this.windowWidth == windowWidth
      ensures this.windowHeight == windowHeight && this.maxScale == maxScale && this.src == src
      ensures clipperW == RpxToPx(clipperWidth, screenWidth) && clipperH == RpxToPx(clipperHeight, screenWidth)
      ensures imageWidth == 0.0 && imageHeight == 0.0
      ensures imageLeft == 0.0 && imageTop == 0.0 && imageLeftPre == 0.0 && imageTopPre == 0.0
      ensures realW == 0.0 && realH == 0.0 && scaleW == 0.0 && scaleH == 0.0
      ensures touchStartX == 0.0 && touchStartY == 0.0 && touchDistance == 0.0
      ensures oldScale == 1.0 && newScale == 1.0 && lastScaleW == 0.0 && lastScaleH == 0.0
      ensures eventType == Move
    {
      this.screenWidth := screenWidth;
      this.windowWidth := windowWidth;
      this.windowHeight := windowHeight;
      this.maxScale := maxScale;
      this.src := src;
      clipperW := RpxToPx(clipperWidth, screenWidth);
      clipperH := RpxToPx(clipperHeight, screenWidth);
      imageWidth, imageHeight := 0.0, 0.0;
      imageLeft, imageTop, imageLeftPre, imageTopPre := 0.0, 0.0, 0.0, 0.0;
      realW, realH, scaleW, scaleH := 0.0, 0.0, 0.0, 0.0;
      touchStartX, touchStartY, touchDistance := 0.0, 0.0, 0.0;
      oldScale, newScale := 1.0, 1.0;
      lastScaleW, lastScaleH := 0.0, 0.0;
      eventType := Move;
    }

    /** The `src` prop changes; the answer says whether image metadata is then requested (which ends in `Init`). */
    method SourceChanged(s: string) returns (requestsInfo: bool)
      modifies this`src
      ensures old(Valid()) ==> Valid()
      ensures old(Covered()) ==> Covered()
      ensures src == s
      ensures requestsInfo <==> s != ""
    {
      src := s;
      requestsInfo := s != "";
    }

    /** `init`, once the metadata of an image of natural size `iw` x `ih` has
        arrived: fit and centre the image and make that the baseline. The
        gesture session (both scales, the last size, touch points and event
        type) is left as it was. */
    method Init(iw: real, ih: real)
      requires Valid()
      requires iw > 0.0 && ih > 0.0
      modifies this`imageWidth, this`imageHeight, this`realW, this`realH, this`scaleW, this`scaleH,
               this`imageLeft, this`imageTop, this`imageLeftPre, this`imageTopPre
      ensures Valid() && Covered()
      ensures imageWidth == iw && imageHeight == ih
      ensures Displayed() == Fit(ImageSize(), ClipperSize(), Window())
      ensures realW == scaleW && realH == scaleH
      ensures imageLeftPre == imageLeft && imageTopPre == imageTop
    {
      imageWidth, imageHeight := iw, ih;
      if Ratio(imageWidth, imageHeight) < Ratio(clipperW, clipperH) {
        // fill the width
        realW := clipperW;
        scaleW := realW;
        realH := Proportional(realW, imageHeight, imageWidth);
        scaleH := realH;
        imageLeft := (windowWidth - clipperW) / 2.0;
        imageLeftPre := imageLeft;
        imageTop := (windowHeight - realH) / 2.0;
        imageTopPre := imageTop;
        assert Displayed() == Fit(ImageSize(), ClipperSize(), Window());
      } else {
        realH := clipperH;
        scaleH := realH;
        realW := Proportional(realH, imageWidth, imageHeight);
        scaleW := realW;
        imageLeft := (windowWidth - realW) / 2.0;
        imageLeftPre := imageLeft;
        imageTop := (windowHeight - clipperH) / 2.0;
        imageTopPre := imageTop;
        assert Displayed() == Fit(ImageSize(), ClipperSize(), Window());
      }
      FittedIsCovered();
    }

    /** A freshly fitted image covers the crop window. */
    lemma FittedIsCovered()
      requires clipperW > 0.0 && clipperH > 0.0 && imageWidth > 0.0 && imageHeight > 0.0
      requires Displayed() == Fit(ImageSize(), ClipperSize(), Window())
      requires realW == scaleW && realH == scaleH
      ensures Covered()
    {
    }

    /** A freshly fitted image keeps the natural aspect ratio of the source image. */
    lemma FittedKeepsAspect()
      requires clipperW > 0.0 && clipperH > 0.0 && imageWidth > 0.0 && imageHeight > 0.0
      requires Displayed() == Fit(ImageSize(), ClipperSize(), Window())
      ensures scaleW * imageHeight == scaleH * imageWidth
    {
    }

    /** Coverage, assembled from the two axes. */
    lemma CoveredByAxes()
      requires imageWidth > 0.0 && imageHeight > 0.0
      requires realW >= clipperW && realH >= clipperH
      requires CoversAxis(imageLeft, scaleW, windowWidth, clipperW)
      requires CoversAxis(imageTop, scaleH, windowHeight, clipperH)
      ensures Covered()
    {
    }

    /** `outsideBound`: store the proposed position, clamped on each axis separately. */
    method OutsideBound(left: real, top: real)
      modifies this`imageLeft, this`imageTop
      ensures old(Valid()) ==> Valid()
      ensures imageLeft == Clamp1D(left, scaleW, windowWidth, clipperW)
      ensures imageTop == Clamp1D(top, scaleH, windowHeight, clipperH)
    {
      imageLeft := Clamp1D(left, scaleW, windowWidth, clipperW);
      imageTop := Clamp1D(top, scaleH, windowHeight, clipperH);
    }

    /** `oneTouchStart`: remember where the finger went down. */
    method OneTouchStart(x: real, y: real)
      modifies this`touchStartX, this`touchStartY
      ensures old(Valid()) ==> Valid()
      ensures old(Covered()) ==> Covered()
      ensures touchStartX == x && touchStartY == y
    {
      touchStartX := x;
      touchStartY := y;
    }

    /** `twoTouchStart`: remember the displayed size and the finger distance. */
    method TwoTouchStart(distance: real)
      modifies this`lastScaleW, this`lastScaleH, this`touchDistance
      ensures old(Valid()) ==> Valid()
      ensures old(Covered()) ==> Covered()
      ensures lastScaleW == scaleW && lastScaleH == scaleH
      ensures touchDistance == distance
    {
      lastScaleW := scaleW;
      lastScaleH := scaleH;
      touchDistance := distance;
    }

    /** `oneTouchMove`: pan by the finger's offset from its start point, relative to the baseline. */
    method OneTouchMove(x: real, y: real)
      modifies this`imageLeft, this`imageTop
      ensures old(Valid()) ==> Valid()
      ensures imageLeft == Clamp1D(imageLeftPre + (x - touchStartX), scaleW, windowWidth, clipperW)
      ensures imageTop == Clamp1D(imageTopPre + (y - touchStartY), scaleH, windowHeight, clipperH)
      ensures old(Covered()) ==> Covered()
    {
      ghost var was := Covered();
      var xMove := x - touchStartX;
      var yMove := y - touchStartY;
      OutsideBound(imageLeftPre + xMove, imageTopPre + yMove);
      if was {
        CoveredByAxes();
      }
    }

    /** `twoTouchMove`: rescale from the pinch, resize about the baseline centre, then clamp. */
    method TwoTouchMove(distance: real)
      requires Valid()
      modifies this`newScale, this`scaleW, this`scaleH, this`imageLeft, this`imageTop
      ensures Valid()
      ensures newScale == ClampScale(PinchScale(oldScale, touchDistance, distance), maxScale)
      ensures scaleW == Scaled(realW, newScale) && scaleH == Scaled(realH, newScale)
      ensures imageLeft == Clamp1D(ZoomStart(imageLeftPre, lastScaleW, scaleW), scaleW, windowWidth, clipperW)
      ensures imageTop == Clamp1D(ZoomStart(imageTopPre, lastScaleH, scaleH), scaleH, windowHeight, clipperH)
      ensures old(Covered()) ==> Covered()
    {
      ghost var was := Covered();
      var s := ClampScale(PinchScale(oldScale, touchDistance, distance), maxScale);
      var sw, sh := Scaled(realW, s), Scaled(realH, s);
      newScale, scaleW, scaleH := s, sw, sh;
      var newLeft := imageLeftPre - (scaleW - lastScaleW) / 2.0;
      var newTop := imageTopPre - (scaleH - lastScaleH) / 2.0;
      OutsideBound(newLeft, newTop);
      if was {
        CoveredByAxes();
      }
    }

    /** `handleOnTouchStart`: choose the gesture by the number of touch points. */
    method HandleOnTouchStart(e: TouchEvent)
      requires e.count >= 1
      modifies this`eventType, this`touchStartX, this`touchStartY,
               this`lastScaleW, this`lastScaleH, this`touchDistance
      ensures old(Valid()) ==> Valid()
      ensures old(Covered()) ==> Covered()
      ensures src == "" ==> unchanged(this)
      ensures src != "" && e.count >= 2 ==>
                eventType == Scale && lastScaleW == scaleW && lastScaleH == scaleH &&
                touchDistance == e.distance &&
                touchStartX == old(touchStartX) && touchStartY == old(touchStartY)
      ensures src != "" && e.count == 1 ==>
                eventType == Move && touchStartX == e.x && touchStartY == e.y &&
                lastScaleW == old(lastScaleW) && lastScaleH == old(lastScaleH) &&
                touchDistance == old(touchDistance)
    {
      if src == "" {
        return;
      }
      if e.count >= 2 {
        eventType := Scale;
        TwoTouchStart(e.distance);
      } else {
        eventType := Move;
        OneTouchStart(e.x, e.y);
      }
    }

    /** `handleOnTouchMove`: one finger pans only in a move gesture; two or more fingers always pinch. */
    method HandleOnTouchMove(e: TouchEvent)
      requires Valid()
      modifies this`newScale, this`scaleW, this`scaleH, this`imageLeft, this`imageTop
      ensures Valid()
      ensures old(Covered()) ==> Covered()
      ensures src == "" || (e.count == 1 && eventType == Scale) || e.count == 0 ==> unchanged(this)
      ensures src != "" && e.count == 1 && eventType == Move ==>
                imageLeft == Clamp1D(imageLeftPre + (e.x - touchStartX), scaleW, windowWidth, clipperW) &&
                imageTop == Clamp1D(imageTopPre + (e.y - touchStartY), scaleH, windowHeight, clipperH) &&
                newScale == old(newScale) && scaleW == old(scaleW) && scaleH == old(scaleH)
      ensures src != "" && e.count >= 2 ==>
                newScale == ClampScale(PinchScale(oldScale, touchDistance, e.distance), maxScale) &&
                scaleW == Scaled(realW, newScale) && scaleH == Scaled(realH, newScale) &&
                imageLeft == Clamp1D(ZoomStart(imageLeftPre, lastScaleW, scaleW), scaleW, windowWidth, clipperW) &&
                imageTop == Clamp1D(ZoomStart(imageTopPre, lastScaleH, scaleH), scaleH, windowHeight, clipperH)
    {
      if src == "" {
        return;
      }
      if e.count == 1 && eventType == Move {
        OneTouchMove(e.x, e.y);
      } else if e.count >= 2 {
        TwoTouchMove(e.distance);
      }
    }

    /** `handleOnTouchEnd`: the current scale and position become the baseline of the next gesture. */
    method HandleOnTouchEnd()
      requires Valid()
      modifies this`oldScale, this`imageLeftPre, this`imageTopPre
      ensures Valid()
      ensures old(Covered()) ==> Covered()
      ensures oldScale == newScale && imageLeftPre == imageLeft && imageTopPre == imageTop
    {
      oldScale := newScale;
      imageLeftPre := imageLeft;
      imageTopPre := imageTop;
    }

    /** The source-image rectangle that `update` draws into the crop preview. */
    method Update() returns (region: Option<Box>)
      requires Valid()
      ensures region == SourceRect(Crop(), Displayed(), ImageSize())
      ensures Covered() ==> region.Some? && InsideImage(region.value, ImageSize())
      ensures Covered() && region.Some? ==> ToScreen(Displayed(), ImageSize(), region.value) == Crop()
    {
      region := SourceRect(Crop(), Displayed(), ImageSize());
      if Covered() {
        SourceRectInsideImage(Crop(), Displayed(), ImageSize());
        SourceRectRoundTrip(Crop(), Displayed(), ImageSize());
      }
    }

    /** Two one-finger moves of one pan put the image where `PanMoves` does on each axis,
        so only the second move counts. */
    method MoveTwice(x1: real, y1: real, x2: real, y2: real)
      requires Valid() && src != "" && eventType == Move
      modifies this`newScale, this`scaleW, this`scaleH, this`imageLeft, this`imageTop
      ensures Valid()
      ensures old(Covered()) ==> Covered()
      ensures imageLeft == PanMoves(old(imageLeft), imageLeftPre, touchStartX, [x1, x2], scaleW, windowWidth, clipperW)
      ensures imageTop == PanMoves(old(imageTop), imageTopPre, touchStartY, [y1, y2], scaleH, windowHeight, clipperH)
      ensures scaleW == old(scaleW) && scaleH == old(scaleH) && newScale == old(newScale)
    {
      ghost var left1 := Clamp1D(imageLeftPre + (x1 - touchStartX), scaleW, windowWidth, clipperW);
      ghost var top1 := Clamp1D(imageTopPre + (y1 - touchStartY), scaleH, windowHeight, clipperH);
      HandleOnTouchMove(TouchEvent(1, x1, y1, 0.0));
      HandleOnTouchMove(TouchEvent(1, x2, y2, 0.0));
      assert [x1, x2][1..] == [x2] && [x2][1..] == [];
      assert [y1, y2][1..] == [y2] && [y2][1..] == [];
      assert PanMoves(left1, imageLeftPre, touchStartX, [x2], scaleW, windowWidth, clipperW) == imageLeft;
      assert PanMoves(top1, imageTopPre, touchStartY, [y2], scaleH, windowHeight, clipperH) == imageTop;
    }

    /** A whole one-finger gesture: down at `(x0, y0)`, moved to `(x1, y1)`, released.
        The position is the clamped offset from the previous baseline and becomes the new baseline. */
    method PanGesture(x0: real, y0: real, x1: real, y1: real)
      requires Valid() && src != ""
      modifies this`eventType, this`touchStartX, this`touchStartY, this`lastScaleW, this`lastScaleH,
               this`touchDistance, this`newScale, this`scaleW, this`scaleH, this`imageLeft, this`imageTop,
               this`oldScale, this`imageLeftPre, this`imageTopPre
      ensures Valid()
      ensures old(Covered()) ==> Covered()
      ensures imageLeft == Clamp1D(old(imageLeftPre) + (x1 - x0), scaleW, windowWidth, clipperW)
      ensures imageTop == Clamp1D(old(imageTopPre) + (y1 - y0), scaleH, windowHeight, clipperH)
      ensures imageLeftPre == imageLeft && imageTopPre == imageTop
      ensures scaleW == old(scaleW) && scaleH == old(scaleH)
      ensures newScale == old(newScale) && oldScale == newScale
    {
      HandleOnTouchStart(TouchEvent(1, x0, y0, 0.0));
      HandleOnTouchMove(TouchEvent(1, x1, y1, 0.0));
      HandleOnTouchEnd();
    }

    /** A whole two-finger gesture: fingers down `d0` apart, moved to `d1` apart, released.
        The scale follows the pinch from the previous baseline scale and is kept for the next gesture. */
    method PinchGesture(d0: real, d1: real)
      requires Valid() && src != ""
      modifies this`eventType, this`touchStartX, this`touchStartY, this`lastScaleW, this`lastScaleH,
               this`touchDistance, this`newScale, this`scaleW, this`scaleH, this`imageLeft, this`imageTop,
               this`oldScale, this`imageLeftPre, this`imageTopPre
      ensures Valid()
      ensures old(Covered()) ==> Covered()
      ensures newScale == ClampScale(PinchScale(old(oldScale), d0, d1), maxScale) && oldScale == newScale
      ensures scaleW == Scaled(realW, newScale) && scaleH == Scaled(realH, newScale)
      ensures imageLeft == Clamp1D(ZoomStart(old(imageLeftPre), old(scaleW), scaleW), scaleW, windowWidth, clipperW)
      ensures imageTop == Clamp1D(ZoomStart(old(imageTopPre), old(scaleH), scaleH), scaleH, windowHeight, clipperH)
      ensures imageLeftPre == imageLeft && imageTopPre == imageTop
    {
      HandleOnTouchStart(TouchEvent(2, 0.0, 0.0, d0));
      HandleOnTouchMove(TouchEvent(2, 0.0, 0.0, d1));
      HandleOnTouchEnd();
    }
  }

  /** Two pans in a row compose through the baseline: the second pan starts
      from where the first one was clamped. */
  method PanTwice(screenWidth: real, windowWidth: real, windowHeight: real, iw: real, ih: real,
                  x0: real, x1: real, x2: real, x3: real)
    returns (left: real)
    requires screenWidth > 0.0 && iw > 0.0 && ih > 0.0
    ensures var c := RpxToPx(DefaultClipperWidth, screenWidth);
            var h := RpxToPx(DefaultClipperHeight, screenWidth);
            var fit := Fit(Size(iw, ih), Size(c, h), Size(windowWidth, windowHeight));
            left == Clamp1D(Clamp1D(fit.left + (x1 - x0), fit.width, windowWidth, c) + (x3 - x2),
                            fit.width, windowWidth, c)
  {
    var st := new ClipperState(screenWidth, windowWidth, windowHeight,
                               DefaultClipperWidth, DefaultClipperHeight, DefaultMaxScale, "image");
    st.Init(iw, ih);
    st.PanGesture(x0, 0.0, x1, 0.0);
    st.PanGesture(x2, 0.0, x3, 0.0);
    left := st.imageLeft;
  }

  /** A new image does not reset the zoom: after a pinch to 2x, fitting a
      new image leaves the scale at 2, so the displayed size is no longer
      the fitted size times the scale, and the next pinch that does not
      change the finger distance doubles the new image. */
  method RefitKeepsZoom(iw: real, ih: real) returns (fittedW: real, scale: real, nextW: real)
    requires iw > 0.0 && ih > 0.0
    ensures scale == 2.0
    ensures nextW == 2.0 * fittedW
    ensures fittedW > 0.0 && fittedW != fittedW * scale
  {
    var st := new ClipperState(375.0, 375.0, 667.0,
                               DefaultClipperWidth, DefaultClipperHeight, DefaultMaxScale, "first");
    st.Init(1000.0, 500.0);
    st.PinchGesture(50.0, 150.0);
    assert st.newScale == 2.0 by {
      assert PinchScale(1.0, 50.0, 150.0) == 2.0;
    }
    var requested := st.SourceChanged("second");
    st.Init(iw, ih);
    fittedW := st.scaleW;
    scale := st.newScale;
    st.PinchGesture(80.0, 80.0);
    assert st.newScale == 2.0 && st.realW == fittedW by {
      assert PinchScale(2.0, 80.0, 80.0) == 2.0;
    }
    nextW := st.scaleW;
  }
}
