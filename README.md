# Image clipper pan/zoom model

A Dafny model of the pan/zoom core of the `ImageClipper` widget of
taro-image-clipper. That core is the geometry that lets a user drag and
pinch an image under a fixed, centred crop window, and that maps the crop
window back to a rectangle of source-image pixels.

Two modules:

- `Geometry` (`geometry.dfy`) holds the pure parts:
  - the rpx-to-pixel conversion;
  - the per-axis boundary clamp;
  - the pinch scale and its bounds;
  - the initial fit of an image over the crop window;
  - the source rectangle that the crop preview draws and its inverse, the screen transform.

  Screen coordinates are `real`s.
- `Clipper` (`clipper.dfy`) holds `class ClipperState`, which has one field per mutable cell of the widget (its `useRef` values) and one method per handler:
  - `init`, `outsideBound`, the one- and two-finger start/move handlers;
  - touch start/move/end dispatch, and `update`'s source-rectangle computation.

  Two predicates organise the proofs:
  - `Valid()` holds from mount on. It says the crop window is positive and both scales lie in `[1, max(maxScale, 1)]`.
  - `Covered()` holds once an image has been fitted. It says the fitted and the displayed size are at least the crop size, and the displayed image leaves no gap inside the crop window.

  Every handler keeps `Valid()`, and keeps `Covered()` once it holds. `PanGesture` and `PinchGesture` compose one whole gesture (start, move, release). `PanTwice` and `RefitKeepsZoom` are client scenarios built from them.

Two behaviours of the code are modelled as written:

- The gesture mode is recorded at touch-start, but a move with two or more fingers pinches whatever the mode. Only a one-finger move consults the mode.
- A new image does not reset the gesture state. `init` never touches `oldScale`, `newScale` or the other gesture cells. So after a pinch followed by a new image, the displayed size is the fitted size, but the next pinch is computed from the old scale (`RefitKeepsZoom`). This is why `Covered()` does not claim `scaleW == realW * newScale`.

## Model

| member | source | states |
|---|---|---|
| Geometry.RpxToPx | src/components/image-clipper/index.tsx:95-97 | 750 rpx span the screen width: the result times 750 is the value times the screen width, 750 rpx is exactly the screen width, and positive lengths stay positive |
| Geometry.CropBox | src/components/image-clipper/index.tsx:141-142 | the crop window has the configured size and is centred on the window on both axes |
| Geometry.Clamp1D | src/components/image-clipper/index.tsx:205-220 | one axis of the boundary clamp: for an image at least as long as the crop window the result covers the crop window on that axis, and a position that already covers it is kept unchanged |
| Geometry.PanMoves | src/components/image-clipper/index.tsx:261-265 | one axis of a run of one-finger moves, each storing the clamp of baseline plus offset; for an image at least crop-sized the position after at least one move covers the crop window on that axis |
| Geometry.PanMovesLast | src/components/image-clipper/index.tsx:261-265 | positions do not accumulate over the moves of one pan: after any non-empty run of moves the image is where the clamp of the baseline plus the last offset alone puts it |
| Geometry.Clamp1DIdempotent | src/components/image-clipper/index.tsx:205-220 | with an image at least as long as the crop window, clamping a clamped position changes nothing |
| Geometry.Clamp1DNearest | src/components/image-clipper/index.tsx:205-220 | the clamp moves the image no further from the requested position than any other covering position would |
| Geometry.Clamp1DOscillates | src/components/image-clipper/index.tsx:205-220 | with an image shorter than the crop window no position covers, and clamping twice flips between the two edges, so the size precondition of idempotence is needed |
| Geometry.PinchScale | src/components/image-clipper/index.tsx:240-245 | `getNewScale`: the scale changes by 1 per 100 px of finger-distance change; it grows exactly when the fingers spread and stays exactly when the distance is unchanged |
| Geometry.RealMaxScale | src/components/image-clipper/index.tsx:269 | the effective maximum is at least 1 and at least `maxScale`, and equals `maxScale` when that is at least 1 |
| Geometry.ClampScale | src/components/image-clipper/index.tsx:269-273 | the clamped scale lies in `[1, max(maxScale, 1)]`; a proposal of at most 1 gives exactly 1, one above the maximum gives exactly the maximum, and one in between is kept |
| Geometry.Scaled | src/components/image-clipper/index.tsx:275-276 | a nonnegative fitted length shown at a scale of at least 1 is at least the fitted length |
| Geometry.ZoomStart | src/components/image-clipper/index.tsx:277-280 | the proposed leading edge after a resize keeps the centre of the baseline segment: `p + size/2 == pre + lastSize/2` |
| Geometry.Proportional | src/components/image-clipper/index.tsx:181-182 | the derived side stands to the fitted side as the natural sides do: `r * den == len * num` |
| Geometry.Fit | src/components/image-clipper/index.tsx:175-191 | the initial fit sets one side to the crop size and centres the image on the window on both axes |
| Geometry.FitCovers | src/components/image-clipper/index.tsx:175-191 | the fitted image has the natural aspect ratio, is at least the crop size on both axes, and contains the crop window |
| Geometry.FitChoosesSide | src/components/image-clipper/index.tsx:175-191 | an image relatively narrower than the crop window (`iw * ch < cw * ih`) gets the crop width and a height above the crop height; any other image gets the crop height and at least the crop width |
| Geometry.FitWideImage | src/components/image-clipper/index.tsx:185-190 | a 1000 x 500 image under a 500 x 500 crop window fills the height: it is shown 1000 x 500 and centred |
| Geometry.SourceRect | src/components/image-clipper/index.tsx:141-151 | the source rectangle is undefined exactly when the displayed size is zero on some axis |
| Geometry.SourceRectRoundTrip | src/components/image-clipper/index.tsx:141-151 | mapped back to the screen through the displayed image, the source rectangle is exactly the crop window |
| Geometry.ZoomShrinksSource | src/components/image-clipper/index.tsx:148-151 | zooming the fitted image by a factor shrinks the crop window's extent in source pixels by the same factor |
| Geometry.SourceRectInsideImage | src/components/image-clipper/index.tsx:141-151 | while the displayed image covers the crop window, the source rectangle lies inside the source image |
| Clipper.ClipperState.constructor | src/components/image-clipper/index.tsx:101-122 | mount: the crop size is converted from rpx, positions and sizes start at 0, both scales at 1 and the mode at move; the state is `Valid()` |
| Clipper.ClipperState.SourceChanged | src/components/image-clipper/index.tsx:196-200 | a new `src` is stored, and image metadata is requested exactly when it is non-empty |
| Clipper.ClipperState.Init | src/components/image-clipper/index.tsx:171-200 | the displayed rectangle is the fit of the natural size, the fitted and displayed sizes agree, the baseline is the new position and the state is `Valid()` and `Covered()`; the gesture cells are outside its frame and so are left as they were |
| Clipper.ClipperState.FittedIsCovered | src/components/image-clipper/index.tsx:175-191 | a freshly fitted image covers the crop window |
| Clipper.ClipperState.FittedKeepsAspect | src/components/image-clipper/index.tsx:175-191 | a freshly fitted image has `scaleW * ih == scaleH * iw` |
| Clipper.ClipperState.OutsideBound | src/components/image-clipper/index.tsx:205-220 | the stored position is the per-axis clamp of the proposal: the left edge depends only on `left`, the top edge only on `top` |
| Clipper.ClipperState.OneTouchStart | src/components/image-clipper/index.tsx:247-250 | the touch point is recorded as the pan origin and nothing else changes |
| Clipper.ClipperState.TwoTouchStart | src/components/image-clipper/index.tsx:252-259 | the displayed size and the finger distance are recorded as the pinch baseline |
| Clipper.ClipperState.OneTouchMove | src/components/image-clipper/index.tsx:261-266 | the new position is the clamp of baseline plus offset from the pan origin, not of the previous position, and coverage is kept |
| Clipper.ClipperState.TwoTouchMove | src/components/image-clipper/index.tsx:268-284 | the new scale is the clamped pinch scale from the baseline scale; both sides are the fitted sides times that scale; the position is the clamp of the resize about the baseline centre; validity and coverage are kept |
| Clipper.ClipperState.HandleOnTouchStart | src/components/image-clipper/index.tsx:301-313 | with no `src` nothing changes; two or more touches start a pinch, one touch starts a pan, and each leaves the other gesture's cells alone |
| Clipper.ClipperState.HandleOnTouchMove | src/components/image-clipper/index.tsx:315-326 | with no `src`, no touches, or one touch in a pinch, nothing changes; one touch in a pan pans; two or more touches pinch whatever the mode; validity and coverage are kept |
| Clipper.ClipperState.HandleOnTouchEnd | src/components/image-clipper/index.tsx:286-291 | the current scale and position become the baseline of the next gesture; validity and coverage are kept |
| Clipper.ClipperState.Update | src/components/image-clipper/index.tsx:141-151 | the computed region is the source rectangle of the crop window; while the image covers the crop window it exists, lies inside the source image and maps back exactly onto the crop window |
| Clipper.ClipperState.MoveTwice | src/components/image-clipper/index.tsx:315-321 | two one-finger moves of one pan on the class land where `PanMoves` puts the image on each axis, with size and scale unchanged and coverage kept |
| Clipper.ClipperState.PanGesture | src/components/image-clipper/index.tsx:301-326 | a whole one-finger gesture moves the image to the clamp of the old baseline plus the finger offset, makes that the new baseline and leaves size and scale alone |
| Clipper.ClipperState.PinchGesture | src/components/image-clipper/index.tsx:301-326 | a whole two-finger gesture sets the scale to the clamped pinch scale from the old baseline scale, keeps it as the new baseline scale, and resizes about the old baseline centre |
| Clipper.PanTwice | src/components/image-clipper/index.tsx:261-291 | after an image is fitted, two pans in a row compose through the baseline: the second pan clamps from where the first one was clamped |
| Clipper.RefitKeepsZoom | src/components/image-clipper/index.tsx:171-200 | after a pinch to 2x and a new image, the scale is still 2, the displayed width is the fitted width rather than twice it, and an unchanged-distance pinch then doubles the new image |

## Left out

- Platform calls are not modelled: `Taro.getImageInfo`, `Taro.getSystemInfoSync`, the canvas context, `drawImage`/`draw`, `canvasToTempFilePath` and the loading indicator. The natural image size and the screen and window metrics are parameters.
- The `cut` export (index.tsx:331-364) is not modelled. It only wraps a platform call, and that includes the crop size minus 2 pixels passed at lines 349 and 357.
- `Math.sqrt` is not modelled (index.tsx:243, 258). The finger distance is an input of the touch event.
- JavaScript numbers are modelled as exact reals. IEEE-754 rounding is not modelled.
- React state setters, `useEffect`/`useMemo` scheduling, the `showCanvas` toggle and all JSX and styles (index.tsx:366-430) are UI rendering and are left out. `Update` therefore computes the region regardless of `showCanvas`.
- The demo page (`src/pages/demo/index.tsx`) is left out. It is page glue for picking an image and toggling visibility.
- Clipper.ClipperState.Update: the guard against missing image info (index.tsx:128-131) is left out. The info cell always holds an object, so that guard never fires. A displayed size of zero (the mount-time call) would divide by zero and give non-finite numbers in JavaScript; the model returns `None` instead.
- Clipper.ClipperState.Update: requires `Valid()`. The source demands nothing. In the model the constructor establishes `Valid()` and every handler keeps it, so it holds in every state the model reaches.
- `maxScale` (and the crop size props) are taken as fixed from mount on. The component re-reads `maxScale` from its props on every render, and each pinch uses the current value (index.tsx:61, 269). If the host lowers `maxScale` after a pinch, the stored `oldScale` can exceed the new bound. `Valid()` would then fail in the source, and the model does not cover that case.
- Clipper.ClipperState.TwoTouchMove: requires `Valid()`, for the same reason. `HandleOnTouchMove`, `HandleOnTouchEnd`, `PanGesture` and `PinchGesture` require it too.
- Clipper.ClipperState.Init: requires a positive natural width and height. The platform reports those for a loaded image; a zero side would give non-finite sizes. The aspect-ratio equality is not part of its own contract; `FittedKeepsAspect` derives it from the fit it ensures.
- Clipper.ClipperState.HandleOnTouchStart: requires at least one touch point. A touch start always reports one, and `touches[0]` of an empty list would fail.
- The aspect ratio of the displayed image is not part of `Covered()`. `FitCovers` and `FittedKeepsAspect` state it after a fit, and `TwoTouchMove` says that both sides are scaled by the same factor.
