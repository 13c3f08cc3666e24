# Burning-ship renderer — a Dafny model

The repository draws the burning-ship fractal onto HTML canvases. It does this in several near-duplicate
variants: a React component library (`src/`), an older React app (`react/src/`), a plain-script page
(`main.js`) and a first page script (`js/main.js`). Each variant has the same three parts:

* an **escape-time evaluator**. It iterates x' = x² − y² + x0, y' = 2|xy| + y0 from the origin until
  x² + y² reaches a threshold or a cap on the count is hit;
* a **pixel renderer**. Nested loops map pixel (i, j) linearly into the plane, evaluate it, and store the
  colour function's four RGBA channels at offset i·W·4 + j·4 of zeroed image data. Some variants skip
  pixels that reach the cap; others paint every pixel;
* **viewport and interaction state**: the plane ranges, the pointer-to-plane interpolation, the mouse
  handlers that select a new range, and the render-once flags.

The model is arranged as follows:

* `escape_time.dfy` models the evaluator once, over exact reals and parametrised by threshold and cap.
  Its loop is proved equal to a recursive orbit, and its count is proved equal to the first escaping step.
* `raster.dfy` models the renderer once, as an in-place fill of an `array<int>`. A `Scene` value holds
  what one render depends on. The buffer after a render is specified by the function `Picture`.
* `viewport.dfy` holds the two linear maps (renderer and mouse handlers) and the drag arithmetic.
* One module per source file fixes that file's constants and models its own state:
  * `fractal_math.dfy`;
  * `fractal_canvas.dfy` (class `FractalCanvas`);
  * `react_fractal_canvas.dfy`;
  * `react_main.dfy` (class `BurningShipFractalCanvas`, with `array<real>` ranges mutated element-wise);
  * `root_main.dfy` (the same class, plus the colour closures);
  * `legacy_main.dfy`.

Modelling conventions:

* `Math.sqrt`, `Math.log` and `Math.log2` are uninterpreted function parameters (`MathFns`). A property
  that depends on one of them states what it assumes (`IsSqrt`, `PositiveAboveOne`, `IsLog2`).
* A store into the `Uint8ClampedArray` behind image data is `ClampToByte`: clamp to [0, 255], then round
  half to even. `createImageData` is a zero-filled buffer (`Blank`).
* A colour function returns a `Colour` of four reals.
* The component's renderer in src/FractalCanvas.jsx:10-51 is the code of src/fractal_math.js:8-52 up to
  comments, exports and the spelling of the pixel offset. The `FractalMath` members model both copies.
* The legacy renderer's inline loop (js/main.js:13-22) is the shared evaluator loop with threshold 4 and
  cap 100, so it is modelled by `EscapeTime.IterateUntilEscape`.
* The nested pixel loops are split into `Raster.Render` (rows), `Raster.RenderRow` (columns),
  `Raster.RenderPixel`, `Raster.EvaluatePixel` and `Raster.PaintPixel`. The split follows the loop bodies.
* The source spells the offset both as 4·i·W + 4·j and as i·W·4 + j·4. Both are `Raster.PixelOffset`.
* Event handlers, React effects and `requestAnimationFrame` callbacks are methods that run to completion
  when called. A pointer position is given as the offset into the canvas that the handler computes.

## Model

| member | source | states |
|---|---|---|
| EscapeTime.OrbitSucc | src/fractal_math.js:12-15 | each state of the orbit is one burning-ship step on from the previous state |
| EscapeTime.NextState | src/fractal_math.js:12-15 | the loop body's update of (x, y) is exactly one step of the recurrence with constant (x0, y0) |
| EscapeTime.IterateUntilEscape | src/fractal_math.js:8-19 | the loop's count is the first step whose state reaches the threshold, or the cap if there is none; the count is at most the cap; the returned squared modulus is that of the orbit state at the count; below the cap it is at least the threshold |
| EscapeTime.FirstEscapeIsFirst | src/fractal_math.js:11 | the count's state reaches the threshold when the count is below the cap, and no earlier state does |
| EscapeTime.EscapeCountEscapes | src/fractal_math.js:11-17 | the count never exceeds the cap; below the cap, the state at the count has reached the threshold |
| EscapeTime.EscapeCountIsFirst | src/fractal_math.js:11 | every state before the count is strictly below the threshold |
| EscapeTime.EscapeCountUnique | src/fractal_math.js:11-17 | any count that stops at an escaping state (or the cap) and passes only non-escaping states is the evaluator's count |
| EscapeTime.CountFromModuli | src/fractal_math.js:11-17 | the same uniqueness, stated over the sequence of moduli the loop has passed |
| EscapeTime.FixedPointStays | src/fractal_math.js:12-15 | iterating from a fixed point of the step stays at that point |
| EscapeTime.OriginNeverEscapes | src/fractal_math.js:9-17 | the point (0, 0) never escapes a positive threshold, so its count is the cap |
| EscapeTime.FarPointEscapesAtOnce | src/fractal_math.js:9-17 | a point whose own squared modulus is at least the threshold has count exactly 1 |
| EscapeTime.RootOfAtLeastFour | src/fractal_math.js:4 | a non-negative number whose square is at least 4 is at least 2, the escape radius |
| EscapeTime.Mu | src/fractal_math.js:22-27 | getMu is n + 1 − log2(ln d), which lies between n and n + 1 whenever log2(ln d) is in [0, 1]; FractalMath.EscapedMuIsDefined shows the logarithm is taken of a positive number on escape |
| EscapeTime.MuOfModulusSq | react/src/main.js:106-109 | getMu of the squared modulus is the smooth count of the distance sqrt(modulusSq); main.js:92 computes the same value inline |
| FractalMath.IterateUntilEscape | src/fractal_math.js:1-19 | count as above with threshold ESCAPE_RADIUS² = 4 and cap 255; the distance is sqrt of the final squared modulus; with a true square root, an escaped point's distance is at least 2 |
| FractalMath.EscapedMuIsDefined | src/fractal_math.js:22-27 | for an escaped point, the logarithm that mu takes log2 of is positive |
| FractalMath.SkipScene | src/fractal_math.js:30-52 | the render is the cap-255, threshold-4 render that skips pixels at the cap; colorFunc gets the count and mu computed from the distance |
| FractalMath.DrawBurningShipFractal | src/fractal_math.js:30-52 | the image data starts zeroed and ends as the picture of that render, pixel by pixel |
| FractalMath.InsidePixelStaysBlank | src/fractal_math.js:34-42 | a pixel that reaches the cap keeps 0 in all four channels |
| FractalMath.EscapedPixelGetsColorFunc | src/fractal_math.js:42-47 | an escaped pixel stores colorFunc's four channels for its count and mu |
| Viewport.Lerp | src/FractalCanvas.jsx:149-152 | the pointer interpolation gives lo at offset 0 and hi at offset size |
| Viewport.LerpShift | src/FractalCanvas.jsx:149-152 | lo·(1 − t) + hi·t is lo moved towards hi by the fraction t = offset / size |
| Viewport.LerpBetween | src/FractalCanvas.jsx:149-152 | an offset inside the canvas lands inside the range |
| Viewport.LerpMonotone | src/FractalCanvas.jsx:149-152 | a pointer further right never maps to a smaller coordinate |
| Viewport.PointerPoint | src/FractalCanvas.jsx:144-154 | offset 0 maps to xRange[0] (yRange[0]) and offset actualWidth (actualHeight) to xRange[1] (yRange[1]); react/src/FractalCanvas.jsx:69-84 maps clientX/clientY the same way |
| Viewport.PointerPointWithinView | src/FractalCanvas.jsx:149-152 | a pointer inside the element maps inside both ranges |
| Viewport.PlaneCoord | src/fractal_math.js:38-39 | column 0 (row 0) maps to the low end of the range |
| Viewport.PlaneCoordIsLerp | src/fractal_math.js:38-39 | the renderer's lo + k·(hi − lo)/n is the handlers' interpolation at offset k of n, so both maps agree |
| Viewport.PlaneCoordAtEnd | src/fractal_math.js:38 | column W would map to the high end, so the columns span the whole range |
| Viewport.PlaneCoordMonotone | src/fractal_math.js:38 | x0 does not decrease along a row when xRange[0] <= xRange[1] |
| Viewport.PlaneCoordBetween | src/fractal_math.js:38-39 | every pixel maps inside the ranges |
| Viewport.SortedPair | src/FractalCanvas.jsx:170-179 | the new range is ordered, and it is the press and release coordinates in one order or the other |
| Viewport.DragRange | src/FractalCanvas.jsx:163-179 | a drag across the whole canvas selects the whole view |
| Viewport.DragRangeWithinView | src/FractalCanvas.jsx:163-179 | a left-to-right drag inside the canvas selects a sub-interval of the view shown |
| Viewport.SortedDragIsDragRange | src/FractalCanvas.jsx:163-179 | sorting the press and release points read against one view gives the interval the drag swept |
| Viewport.PressThenRelease | react/src/main.js:41-61 | the class canvases' press sets the low end to the point under the press |
| Viewport.PressThenReleaseDrifts | react/src/main.js:54-61 | on [0, 100] with a 100-pixel canvas, pressing at 50 and releasing at 75 selects [50, 87.5], where the point under the pointer was 75 |
| Viewport.PressThenReleaseAgreesOnlyWhen | main.js:36-56 | the release end as written equals the point under the pointer exactly when the press left the low end in place or the release is at the far edge |
| Raster.RoundHalfEven | src/fractal_math.js:46 | the rounding is within one half of its input |
| Raster.ClampToByte | src/fractal_math.js:46 | a stored channel is a byte: values at or below 0 store 0, values at or above 255 store 255, and values in between store within one half |
| Raster.ClampToByteKeepsBytes | src/fractal_math.js:46 | a whole number in [0, 255] is stored unchanged |
| Raster.ClampToByteTieToEven | src/fractal_math.js:46 | a value half-way between two bytes is stored as the even one |
| Raster.Picture | src/fractal_math.js:34-50 | a render keeps the buffer's length |
| Raster.Blank | src/fractal_math.js:34 | created image data has 4·W·H channels |
| Raster.PixelOffset | src/fractal_math.js:41 | the offset 4·i·W + 4·j written here equals 4·(i·W + j), four channels per pixel in row-major order; it is also the i·W·4 + j·4 of src/FractalCanvas.jsx:40 and js/main.js:23 |
| Raster.DecodeChannel | src/fractal_math.js:41 | channel k belongs to pixel (k/4/W, k/4 mod W) at position k mod 4 |
| Raster.PixelOffsetInBounds | src/fractal_math.js:36-41 | for every pixel of the canvas, offset + 3 < 4·W·H |
| Raster.RowsFollowEachOther | src/fractal_math.js:41 | the slot after the last pixel of a row is the first slot of the next row |
| Raster.PixelSlotsDisjoint | src/fractal_math.js:41 | distinct pixels get disjoint four-channel slots |
| Raster.PictureAtPixel | src/fractal_math.js:40-48 | each channel of a pixel after a render is the stored colour if the pixel is painted, otherwise the old value |
| Raster.SkippedPixelKeepsBase | src/fractal_math.js:42 | a pixel at the cap keeps its channels under the skip policy |
| Raster.EscapedPixelGetsColour | src/fractal_math.js:43-47 | an escaped pixel gets the stored channels of the colour function of its count and final squared modulus |
| Raster.PaintAllIgnoresBase | main.js:67-78 | when every pixel is painted, the picture does not depend on what the buffer held |
| Raster.PictureKeepsBytes | src/fractal_math.js:45-46 | rendering over a buffer of bytes leaves a buffer of bytes |
| Raster.FirstPixelIsCorner | src/fractal_math.js:38-39 | pixel (0, 0) maps to (xRange[0], yRange[0]) |
| Raster.PixelPointMonotone | src/fractal_math.js:38 | x0 does not decrease along a row when the x range is ordered |
| Raster.PaintPixel | src/fractal_math.js:45-47 | the four channels of the slot get the stored colour, and nothing else changes |
| Raster.ChannelAfterInSlot | src/fractal_math.js:41-47 | inside a pixel's slot, the channel after the render is its stored colour channel when painted, else the old value |
| Raster.EvaluatePixel | src/fractal_math.js:38-42 | the loop body maps the pixel, evaluates it, and decides to paint exactly when the skip policy allows it, with the colour of the count and squared modulus |
| Raster.RenderPixel | src/fractal_math.js:38-48 | one pixel's slot becomes its channels of the picture; every other channel is unchanged |
| Raster.RenderRow | src/fractal_math.js:37-49 | one row's slots become their channels of the picture; every other channel is unchanged |
| Raster.Render | src/fractal_math.js:36-50 | the whole buffer becomes the picture of the scene over the old buffer |
| FractalCanvasComponent.FractalCanvas.constructor | src/FractalCanvas.jsx:54-76 | the state starts from the initial ranges, with no hover or press position, not rendered, and a blank canvas |
| FractalCanvasComponent.FractalCanvas.OnMouseDown | src/FractalCanvas.jsx:163-166 | only the press position is recorded; the ranges, hover position, flag and canvas are unchanged |
| FractalCanvasComponent.FractalCanvas.OnMouseUp | src/FractalCanvas.jsx:167-181 | it succeeds exactly when a press was recorded; each range becomes the sorted pair of the press and release coordinates, ordered, and the canvas is marked not rendered; without a press nothing changes |
| FractalCanvasComponent.FractalCanvas.OnMouseMove | src/FractalCanvas.jsx:182-186 | the hover position becomes the plane point under the pointer; nothing else changes |
| FractalCanvasComponent.FractalCanvas.OnMouseLeave | src/FractalCanvas.jsx:187-190 | the hover position is cleared; nothing else changes |
| FractalCanvasComponent.FractalCanvas.ClearStale | src/FractalCanvas.jsx:106-113 | a canvas not marked rendered is cleared to blank; a rendered one is kept |
| FractalCanvasComponent.FractalCanvas.OnRenderEvent | src/FractalCanvas.jsx:116-130 | it draws the current view only when the canvas is not yet rendered, then the canvas is marked rendered, so a second event changes nothing |
| ReactFractalCanvas.IterateUntilEscape | react/src/FractalCanvas.jsx:3-18 | count as above with threshold 16 and cap 255; it returns the squared modulus, which is at least 16 on escape |
| ReactFractalCanvas.CanvasScene | react/src/FractalCanvas.jsx:20-43 | the render is the threshold-16 render that skips pixels at the cap; colorFunc gets the count and the squared modulus |
| ReactFractalCanvas.DrawCanvas | react/src/FractalCanvas.jsx:20-43 | the image data starts zeroed and ends as the picture of that render |
| ReactFractalCanvas.DrawnPixel | react/src/FractalCanvas.jsx:31-37 | a channel of the drawing is 0 for a pixel at the cap, and colorFunc's stored channel otherwise |
| ReactFractalCanvas.FractalCanvas.constructor | react/src/FractalCanvas.jsx:46-63 | the state starts from the initial ranges, and the mount effect draws them |
| ReactFractalCanvas.FractalCanvas.OnMouseDown | react/src/FractalCanvas.jsx:68-77 | each range's first element becomes the point under the press and its second is kept; the effect redraws the new ranges |
| ReactFractalCanvas.FractalCanvas.OnMouseMove | react/src/FractalCanvas.jsx:78-88 | the hover position becomes the point under the pointer; ranges and canvas are unchanged |
| ReactMain.IterateUntilEscape | react/src/main.js:1-16 | count as above with threshold 4 and cap 255; it returns the squared modulus, which is at least 4 on escape |
| ReactMain.IsVisible | react/src/main.js:184-189 | the negated off-screen test holds exactly when rect.bottom ≥ 0 and rect.top ≤ viewportHeight; ReactMain.IsVisibleIffOverlap shows that this is overlap with the viewport |
| ReactMain.IsVisibleIffOverlap | react/src/main.js:184-189 | a canvas counts as visible exactly when its vertical span overlaps [0, viewportHeight] |
| ReactMain.RenderVisibleFractalCanvases | react/src/main.js:179-191 | the render event goes to exactly the visible canvases, each once, in document order |
| ReactMain.BurningShipFractalCanvas.constructor | react/src/main.js:28-37 | the object holds the caller's range arrays themselves, hasRendered is false, and no render has happened |
| ReactMain.BurningShipFractalCanvas.OnMouseDown | react/src/main.js:38-50 | only xRange[0] and yRange[0] change, to the point under the press |
| ReactMain.BurningShipFractalCanvas.OnMouseUp | react/src/main.js:51-63 | only xRange[1] and yRange[1] change, interpolated against the ranges as they now are; then the canvas is re-rendered |
| ReactMain.BurningShipFractalCanvas.Drag | react/src/main.js:38-63 | a press followed by a release leaves the ranges at PressThenRelease of the view before the press, the canvas holding the picture of the new view, and the render-event flag and count unchanged |
| ReactMain.BurningShipFractalCanvas.OnRenderEvent | react/src/main.js:73-79 | the first render event renders and sets hasRendered; later ones change nothing; exactly one event-driven render ever happens |
| ReactMain.BurningShipFractalCanvas.Render | react/src/main.js:82-103 | the canvas becomes the picture of the current ranges under the skip policy |
| RootMain.IterateUntilEscape | main.js:1-16 | count as above with threshold 4 and cap 255; the squared modulus is at least 4 on escape |
| RootMain.Flame | main.js:93-98 | the flame palette is always opaque |
| RootMain.WideColour | main.js:85-100 | the wide canvas is orange (200, 70, 5) at the cap and the flame palette of the shared mu otherwise, always opaque |
| RootMain.ShipColour | main.js:103-119 | bsf-1 and bsf-large are black at the cap and the flame palette of the shared mu otherwise, always opaque |
| RootMain.IterationColour | main.js:122-136 | bsf-2 is black at the cap and the flame palette of the raw count otherwise, always opaque |
| RootMain.AlphaColour | main.js:139-143 | bsf-3 is black, with an alpha equal to the count, which never leaves [0, 255] |
| RootMain.DepthColour | main.js:165-176 | bsf-4 is black; opaque at the cap; for an escaped pixel with mu in [0, 2³¹) the alpha is 255 minus the whole part of mu |
| RootMain.LogRatioMu | main.js:186 | when log2 is ln / ln 2, bsf-5's count is the shared mu minus one |
| RootMain.RatioColour | main.js:178-194 | bsf-5 is black at the cap and opaque everywhere |
| RootMain.RatioColourIsFlameOneBack | main.js:178-194 | when log2 is ln / ln 2, bsf-5's escaped colour is the flame palette of the shared mu minus one |
| RootMain.Truncate | main.js:174 | truncation goes towards zero: it is floor for non-negative input and ceiling for negative input |
| RootMain.Wrap32 | main.js:174 | the result is a 32-bit signed integer congruent to the input modulo 2³² |
| RootMain.Wrap32InRange | main.js:174 | a value already in 32-bit range is unchanged |
| RootMain.ToInt32 | main.js:174 | ~~x is a 32-bit integer and, inside the 32-bit range, is x truncated towards zero |
| RootMain.RatioCanvasIsOpaque | main.js:178-194 | bsf-5 is black inside the ship and stores alpha 255 everywhere |
| RootMain.CapColoursAreFixedAndOpaque | main.js:85-176 | at the cap the closures return a fixed opaque colour: orange (200, 70, 5) for the wide canvas, black for the others, and those values are stored unchanged |
| RootMain.FlameCanvasesAreOpaque | main.js:85-136 | every pixel of the flame-palette canvases is stored with alpha 255 |
| RootMain.AlphaCanvasStoresCount | main.js:139-143 | the alpha canvas stores the count itself as the alpha byte |
| RootMain.DepthColourFades | main.js:165-176 | an escaped pixel whose mu is in [0, 255] is stored with alpha 255 minus the whole part of mu |
| RootMain.BurningShipFractalCanvas.constructor | main.js:26-32 | the object holds the caller's range arrays and the backing size; the canvas is blank |
| RootMain.BurningShipFractalCanvas.OnMouseDown | main.js:33-45 | only index 0 of each range changes, interpolated against the backing canvasWidth and canvasHeight |
| RootMain.BurningShipFractalCanvas.OnMouseUp | main.js:46-58 | only index 1 of each range changes, against the ranges as they now are; then the canvas is re-rendered |
| RootMain.BurningShipFractalCanvas.Drag | main.js:33-58 | a press followed by a release leaves the ranges at PressThenRelease of the view before the press, measured in backing pixels, and the canvas holding the picture of the new view |
| RootMain.BurningShipFractalCanvas.Render | main.js:61-80 | every pixel is painted, so the canvas is the picture of the current ranges whatever the buffer held |
| LegacyMain.LegacyScene | js/main.js:3-28 | the legacy render uses threshold 4, cap 100, the fixed view, every pixel painted, and the colour of the count alone |
| LegacyMain.LegacyMapping | js/main.js:11-12 | column 0 maps to −1.80 and row 0 to −0.08; the columns span 0.10 and the rows 0.09 |
| LegacyMain.EvaluatePixel | js/main.js:11-22 | the inline loop's count for pixel (i, j) is that pixel's escape count with threshold 4 and cap 100 |
| LegacyMain.DrawPixel | js/main.js:11-24 | drawFunc gets offset i·W·4 + j·4, and only that pixel's four channels change |
| LegacyMain.DrawRow | js/main.js:10-25 | one row's slots become their picture channels; drawFunc is given that row's offsets in order |
| LegacyMain.DrawBurningShipFractal | js/main.js:3-28 | the image data ends as the picture of the legacy render; drawFunc is called exactly once per pixel, with offsets 0, 4, 8, … in row-major order |
| LegacyMain.CallsInBounds | js/main.js:23-24 | every offset drawFunc is given leaves room for four channels in the image |
| LegacyMain.Canvas1Colour | js/main.js:33-38 | canvas1's alpha is always 255 |
| LegacyMain.Canvas1DrawFunc | js/main.js:33-39 | canvas1's drawFunc writes its colour into image[ind .. ind + 3] with alpha 255, and nothing else changes: the same new state `Raster.PaintPixel` promises for Canvas1Colour(iteration), which is the step `LegacyMain.DrawPixel` takes |
| LegacyMain.DrawCanvas1 | js/main.js:32-39 | canvas1's image data ends as the legacy picture of canvas1's colour |
| LegacyMain.Canvas1Picture | js/main.js:32-39 | every channel canvas1 ends with is the one its drawFunc writes for that pixel's count (the value PaintPixel writes for the same colour), and every alpha is 255 |
| LegacyMain.Canvas1StoredChannels | js/main.js:34-37 | red and green saturate at 255, blue bottoms out at 0, and alpha is 255 |

## Left out

- Floating point: all arithmetic is exact real arithmetic. Rounding, NaN and Infinity are not modelled. Neither is the fact that a float recurrence can escape or stay in a different step than the real one.
- `Math.sqrt`, `Math.log`, `Math.log2`: uninterpreted. Only the properties named by `IsSqrt`, `PositiveAboveOne` and `IsLog2` are assumed, and only where a lemma states it. A zero `Math.log(2.0)` (a division by zero in bsf-5) is excluded by a precondition rather than modelled as Infinity.
- Canvas I/O: `getContext`, `putImageData`, `toDataURL`, the DOM lookup of a canvas by id, and `getBoundingClientRect`. The canvas content is a field that a render replaces. `requestAnimationFrame` callbacks run immediately.
- Pointer positions: the handlers' offsets (`pageX` minus the parent's offset, `clientX`, `offsetX`) are parameters. The DOM layout they come from is not modelled.
- React mechanics: state setters take effect when the handler returns, so batching and re-render order are not modelled. In src/FractalCanvas.jsx the effects are separate methods (`ClearStale`, `OnRenderEvent`). In react/src/FractalCanvas.jsx the drawing effect is folded into the constructor and `OnMouseDown`, which change the ranges it depends on. The render listener's remove-and-re-add (src/FractalCanvas.jsx:119,129) is not modelled.
- `actualWidth`/`actualHeight` are `undefined` until the first effect runs. The model takes them as positive constructor parameters. Zero-sized canvases are excluded, because `createImageData` rejects them.
- The low-quality preview renders at 1/8, 1/4 and 1/2 size (src/FractalCanvas.jsx:83-103): asynchronous and image encoding only.
- The `force-render` listener (src/FractalCanvas.jsx:133-141): its body does nothing.
- `toPrecision(4)` formatting of hover coordinates: the model keeps the exact point.
- react/src/FractalCanvas.jsx `onMouseLeave` and the react/src/main.js `mousemove` listener: they only log.
- The per-demo colour closures of react/src/main.js:115-168 and react/src/App.jsx: page content. Their `~~` truncation is `RootMain.ToInt32`, and their mu is `EscapeTime.MuOfModulusSq`.
- The per-demo colour closures of src/App.jsx: page content. Some scale the count (src/App.jsx:226), others mu, without truncation. The mu they receive is the getMu of src/FractalCanvas.jsx:23-27 as src/FractalCanvas.jsx:42-43 applies it, which is `EscapeTime.Mu` as `FractalMath.SkipScene` applies it. The getMu in src/App.jsx:232-243 is text shown on the page, with a different formula, and does not take part in rendering.
- The polling loop (react/src/main.js:193-200): timers and event dispatch. Only one pass, `RenderVisibleFractalCanvases`, is modelled.
- The `#update` button handlers (react/src/main.js:202-209, main.js:198-205): they reference an undefined global.
- The `Math.sin` palette of canvas2 (js/main.js:42-48).
- build.js, src/index.jsx: snapshotting, hydration and typesetting. They are not part of this model.
- ReactMain.BurningShipFractalCanvas.constructor, RootMain.BurningShipFractalCanvas.constructor: they require the two range arrays to be distinct objects. Every caller passes two array literals. Aliased ranges are not modelled.
- LegacyMain.DrawPixel: drawFunc is modelled as writing a colour of the count into the pixel's four channels, as canvas1's does. A drawFunc that writes elsewhere in the image is not modelled.
- ReactMain.RenderVisibleFractalCanvases: it returns the indices of the canvases that receive the event. The canvases' own handling of the event is `OnRenderEvent`.

## Findings

| source | as written | input that shows it | evidently intended | confidence | as-written member | corrected member |
|---|---|---|---|---|---|---|
| react/src/main.js:54-61 | mouseup interpolates the release offset against xRange after mousedown has already overwritten xRange[0] (and yRange[0]) | view [0, 100] on a 100-pixel canvas: press at 50, release at 75; the range becomes [50, 87.5] | the range from the point under the press to the point under the release in the view that was shown, [50, 75], as src/FractalCanvas.jsx:163-179 computes it | not executed; the arithmetic is exact | Viewport.PressThenReleaseDrifts | Viewport.DragRange |
| main.js:49-56 | the same mouseup interpolation against the half-updated range, measured in backing pixels | canvasWidth 100, view [0, 100]: press at 50, release at 75; the range becomes [50, 87.5] | the selection [50, 75] | not executed; the arithmetic is exact | Viewport.PressThenReleaseAgreesOnlyWhen | Viewport.DragRangeWithinView |
