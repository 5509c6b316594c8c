# dwv image layer, modelled in Dafny

This project models `dwv.html.Layer`, the canvas-backed image layer of the dwv
medical image viewer. A layer keeps four numbers that define its pan/zoom layout
(`originX`, `originY`, `zoomX`, `zoomY`). It also holds a snapshot of image data and
a canvas of fixed size. The model proves the arithmetic laws of the guarded zoom and
pan transitions. It also proves the bookkeeping of `draw` and `merge`: what ends up
on each canvas, in what order, and what the image data captures.

- `transform.dfy` (module `Transform`): the layout as a value, with the pure
  transitions `SetZoom`, `SetTranslate` and `ResetLayout`. Its lemmas cover the
  zoom range, the anchor law, pan containment, atomicity and the worked scenarios.
- `canvas.dfy` (module `Canvas`): an abstract canvas. It is a log of `clearRect` and
  `drawImage` calls. `Visible` gives what the canvas shows: the images drawn since
  the last clear.
- `layer.dfy` (module `Html`): the class `Layer`, whose fields the methods update in
  place. Each method's `ensures` ties the new layout to the `Transform` function of
  the old layout, and the new canvas log to the old log. `ZoomScenarios`, `PanScenarios`
  and `MergeScenario` are clients that drive layers using nothing but those contracts.

Coordinates and zoom factors are `real`, so the anchor law is exact. Canvas sizes
are `nat`. An accepted `setZoom` draws by itself. So `zoom` draws twice when the step is accepted and once when it is rejected.
`setTranslate` never draws, and `translate` always draws once.

One thing the proofs show: pan containment is a postcondition of `setTranslate`,
not an invariant of the layer. `setZoom` never checks the pan bounds.
`ZoomInKeepsContainment` proves that zooming in at zoom ≥ 1 about a center inside
the canvas keeps the content contained. `ZoomOutMayLeaveContainment` gives a
zoom-out that breaks containment.

## Model

| member | source | states |
|---|---|---|
| `Transform.SetZoom` | src/html/layer.js:41-58 | from a layout with both zooms in (0.1, 10), the layout after setZoom has both zooms in (0.1, 10) again |
| `Transform.ZoomAcceptedIff` | src/html/layer.js:43-47 | setZoom goes ahead exactly when both candidate zooms `zoom + step` lie strictly between 0.1 and 10 |
| `Transform.ZoomRejectedUnchanged` | src/html/layer.js:43-47 | when a candidate zoom is ≤ 0.1 or ≥ 10, origin and zoom on both axes are unchanged |
| `Transform.AnchorAxis` | src/html/layer.js:48-52 | rescaling one axis about a center moves the origin so that the content coordinate shown at the center is what it was before |
| `Transform.ZoomAnchorFixed` | src/html/layer.js:43-55 | an accepted setZoom sets each zoom to old zoom + step, and keeps `(center - origin) / zoom` on both axes, so the content under (centerX, centerY) stays there |
| `Transform.ContentAt` | src/html/layer.js:135-138 | the content coordinate shown at a target coordinate is the one that draw places there (`origin + u * zoom`) |
| `Transform.SetTranslate` | src/html/layer.js:70-90 | setTranslate never changes either zoom |
| `Transform.PanAcceptedIff` | src/html/layer.js:73-86 | one axis's guard accepts a shift exactly when the shifted origin meets the bound for its zoom: `w - w*zoom ≤ origin ≤ 0` at zoom ≥ 1, `0 ≤ origin ≤ w - w*zoom` below 1 |
| `Transform.TranslateAtomic` | src/html/layer.js:73-89 | both origins move by `(tx, ty)` when both shifted origins are within bounds; otherwise neither origin changes |
| `Transform.TranslateContainment` | src/html/layer.js:73-89 | after an accepted setTranslate, both axes satisfy their containment bound, and the zoom range is kept |
| `Transform.ContainedCoversTarget` | src/html/layer.js:73-75 | at zoom ≥ 1, a contained axis shows image content at every target coordinate in [0, w] |
| `Transform.ContainedInsideTarget` | src/html/layer.js:76-79 | at zoom < 1, a contained axis draws every content coordinate in [0, w] inside the target [0, w] |
| `Transform.ZoomInKeepsContainment` | src/html/layer.js:48-52 | zooming in at zoom ≥ 1 about a center inside the canvas keeps a contained axis contained |
| `Transform.ZoomOutMayLeaveContainment` | src/html/layer.js:41-58 | setZoom does not preserve containment: from zoom 2 and origin 0 on a 100-wide canvas, a step of -0.5 about 50 gives origin 12.5 at zoom 1.5 |
| `Transform.ResetLayout` | src/html/layer.js:110-116 | resetLayout gives a layout whose zooms are in range, whatever the layout was before |
| `Transform.ResetIdempotent` | src/html/layer.js:110-116 | resetting twice gives the same layout as resetting once |
| `Transform.ZoomScenario` | src/html/layer.js:41-58 | from the identity, setZoom(0.5, 0.5, 50, 50) gives zoom (1.5, 1.5) and origin (-25, -25) |
| `Transform.ZoomRejectScenario` | src/html/layer.js:43-47 | from the identity, a step of 9 reaches zoom 10 and is rejected |
| `Transform.TranslateRejectScenario` | src/html/layer.js:73-75 | at zoom 1 on a 100-wide canvas, setTranslate(10, 0) is rejected |
| `Transform.TranslateLowerBoundScenario` | src/html/layer.js:73-75 | at zoom 2 with origin -50 on a 100-wide canvas, setTranslate(-60, 0) goes below the bound -100 and is rejected |
| `Canvas.Visible` | src/html/layer.js:187-190 | a canvas whose log has no clear shows every image painted on it, one for each call, in the order painted; everything shown was painted |
| `Canvas.VisibleSinceClear` | src/html/layer.js:187-190 | a clear hides everything drawn before it: the canvas shows what its log shows after any clear, hence exactly the images painted since the last clear, in order |
| `Canvas.VisibleAppend` | src/html/layer.js:187-190 | appending calls to a canvas: a clear among them hides everything drawn before, otherwise the new images go on top |
| `Canvas.VisibleSnoc` | src/html/layer.js:187-190 | one more call on a canvas: after clearRect it shows nothing, after a drawImage the new image lies on top of what it showed |
| `Html.DrawPlacement` | src/html/layer.js:129-138 | draw puts the image data unscaled into a scratch canvas the size of the layer's canvas, then stretches it over the rectangle that the layout maps content [0, w] × [0, h] to |
| `Html.DrawShowsImage` | src/html/layer.js:122-139 | after draw, whatever was on the canvas before, it shows exactly the layer's image placed through the current layout |
| `Html.DrawTwiceShowsOnce` | src/html/layer.js:122-139 | drawing twice with no state change in between shows the same as drawing once |
| `Html.Layer.constructor` | src/html/layer.js:15-38 | a new layer has no canvas, no image data, origin (0, 0) and zoom (1, 1) |
| `Html.Layer.Initialise` | src/html/layer.js:168-173 | initialise sets the canvas size and clears the canvas; with both sizes positive it captures the empty canvas as the image data and the layer becomes usable, while a zero size, whose read-back fails, leaves the image data as it was and the layer unusable; the layout is not touched |
| `Html.Layer.ClearContextRect` | src/html/layer.js:187-190 | appends one clear to the canvas, which then shows nothing |
| `Html.Layer.SetImageData` | src/html/layer.js:102-105 | replaces the image data and changes nothing else |
| `Html.Layer.ResetLayout` | src/html/layer.js:110-116 | the layout becomes origin (0, 0), zoom (1, 1), with the canvas and image data unchanged |
| `Html.Layer.Draw` | src/html/layer.js:122-139 | appends one clear and one image placement to the canvas, and changes nothing else |
| `Html.Layer.SetZoom` | src/html/layer.js:41-58 | the new layout is `Transform.SetZoom` of the old one; an accepted zoom draws once, a rejected one leaves the canvas alone |
| `Html.Layer.Zoom` | src/html/layer.js:61-67 | same layout change as setZoom; the canvas gets two draws when the zoom is accepted and one when it is rejected |
| `Html.Layer.SetTranslate` | src/html/layer.js:70-90 | the new layout is `Transform.SetTranslate` of the old one on the canvas size; the canvas is not drawn |
| `Html.Layer.Translate` | src/html/layer.js:93-99 | same layout change as setTranslate, then exactly one draw, accepted or not |
| `Html.Layer.Merge` | src/html/layer.js:196-206 | draws the other canvas, as it is shown, onto this one at (0, 0) and at that canvas's own size with no correction for either layout, resets this layout, captures this canvas (old content plus the other layer's shown images) as the image data, then clears the other canvas; the other layer's layout and image data are untouched; merging a layer with itself ends with a clear of its own canvas |

## Left out

- Surface lookup in `initialise`: it finds the canvas element by the layer's name and reports a missing canvas or 2D context with a blocking `alert`. This is browser I/O. The model covers only a surface lookup that succeeds.
- Operations on an uninitialised layer: the source dereferences a null canvas and throws. The model requires `ready` instead of modelling the exception. An accepted zoom draws and so needs `ready`; a rejected zoom does not.
- `getName`, `getCanvas` and `getContext`: plain accessors, which are the class's fields in the model.
- `getOffset`, `align`, `setStyleDisplay` and `isVisible`: jQuery and style queries about page layout and display, with no logic of their own.
- `fillContext` and `setLineColor`: passthroughs to canvas fill and stroke styles.
- Pixel behaviour of `putImageData` and `drawImage`: scaling, interpolation, clipping and alpha compositing. A drawn image is recorded as a placement rectangle, and captured image data as the list of placements the canvas showed.
- Image data whose size differs from the canvas: the model records the image and the scratch-canvas size but does not clip.
- `setImageData(null)`: the model takes an image value; a null argument, which would make the next draw throw, is not modelled.
- Zero-size canvases: `getImageData` on a zero-width or zero-height canvas throws. The exception itself is not modelled: the model keeps the old image data and marks the layer not ready. In the source such a layer still has a canvas and a context, so `clearContextRect` and `setTranslate` still run there without throwing. The model requires `ready` for both and so does not allow them on such a layer. A rejected `setZoom` is allowed in both.
- NaN and `undefined` arguments: every comparison with NaN is false, so the guards of `setZoom` and `setTranslate` let a NaN step, shift or center (a missing center argument is `undefined`, which also yields NaN) through and the origins or zooms become NaN; afterwards the guard of each NaN axis accepts every shift, while an axis that is still finite keeps its bound. The model's arguments are reals, so the zoom-range invariant and the containment laws are stated for finite numeric arguments only.
- IEEE-754 rounding: coordinates are exact reals. The anchor law is exact only in this model; with doubles it holds only up to rounding.
