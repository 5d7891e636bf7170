# image-annotator-lib: a verified model of the point store

image-annotator-lib lets a user click on an image to place numbered
annotation markers, select them, delete them and export the annotated
picture. This project models the logic of that component in Dafny: the
ordered store of points `{id, x, y, data}` and its identity scheme, the
selection, the hit test behind the click and hover handlers, the
coordinate mapping of the responsive variant, what a redraw and an export
paint, and the three helpers of `src/utils/helpers.js`.

The repository carries two near-identical `Annotator` classes, modelled
side by side:

- `NativeAnnotator` (`src/annotator.js`) draws at the image's native size,
  so canvas pixels are image pixels and the hit radius is a fixed 10.
- `ResponsiveAnnotator` (`dist/image-annotator-lib.js`) lays the canvas out
  at the container's width. Clicks are divided by the scale factor and
  drawing is multiplied by it.

Their shared logic is in `PointStore`, the helpers in `Helpers`, the
string-or-null type in `Optional`, and lemmas relating the two variants in
`Variants`. Each class keeps its fields (`points`, `selectedPointId`, the
canvas size and, in the responsive one, the native image size and
`scaleFactor`) and updates them in place. Its methods are the event
handlers and the public operations. Each method states the new state in
terms of the old one, and `Valid()` is the object invariant every method
keeps.

What the model establishes:

- **Ids.** Construction numbers the seed points 1..N in their order. A new
  point gets the largest id plus one, or 1 in an empty store. A deletion
  filters by id. Ids are positive and strictly increase along the
  sequence, so no two points ever share one (`IdsWellFormed`, part of
  `Valid()`).
- **Selection.** A selection always names a present point: deleting the
  selected point clears it. A redraw therefore paints exactly one blue
  marker when something is selected and none otherwise (`Frame`).
- **Clicks.** Both classes register two click listeners, and one click
  runs both in registration order (`Click`). A click that misses every
  point adds one: always in the responsive class, and in the native class
  only when `prompt()` returns a non-empty answer. The second listener then
  finds the new point at distance 0 and selects it. This composition is
  proved as written.
- **Scale.** In the responsive variant, the click mapping and drawPoint's
  mapping are inverse. So a point added by a click is drawn under the
  pointer, and clicking a marker's centre always hits a point. The hover
  test uses unscaled canvas offsets. It agrees with the click test at scale
  1 and disagrees at scale 2 (`HoverDisagreesWithClickWhenScaled`). The
  click radius is 10 canvas pixels at every scale, while a marker is
  painted with radius 10 times the scale, so at scale 2 part of a marker
  does not respond to clicks (`ClickInsideMarkerMissesWhenScaled`). The
  model keeps both behaviours as written.

Some behaviours of the code differ from what one might expect, and the
model keeps them as written:

- Export sizes its raster to the live canvas (`canvas.width = this.canvas.width`).
  In the responsive variant that canvas is scaled, so the exported raster
  is not at the image's native resolution.
- `addPoint` returns nothing.
- `canvas.height = originalImageHeight * scaleFactor` stores a whole
  number of pixels, because canvas dimensions are integers. The model
  truncates (`ComputeLayout`).
- In the responsive variant, `deletePoint` and the selecting click both
  call `redrawPoints`, which is `resizeCanvas`. That re-reads the
  container's width, so these methods take the current container width
  and lay the canvas out again.

## Model

| member | source | states |
|---|---|---|
| `PointStore.Within` | src/annotator.js:55-57 | the distance test `Math.sqrt(dx * dx + dy * dy) <= r` on squares; a position that passes lies inside the square of side 2r centred on the point |
| `PointStore.FirstHit` | src/annotator.js:54-58 | `points.find`: the index of the first point in sequence order within the radius of (x, y), with every earlier point outside it; None exactly when no point is within it |
| `PointStore.HoverHit` | src/annotator.js:102-106 | the hover test is true exactly when some point lies within 10 of the unscaled canvas offset |
| `PointStore.FirstHitSameHits` | dist/image-annotator-lib.js:92-96 | `find` depends only on which points pass the test: two equally long stores whose points pass at the same indices give the same first hit |
| `PointStore.FirstHitAppend` | src/annotator.js:79-83 | after a miss on every point, appending a point makes it the first hit exactly when it is within range |
| `PointStore.WithinAtOwnPosition` | src/annotator.js:79-83 | a point at the tested position is within any radius (distance 0) |
| `PointStore.MaxId` | src/annotator.js:114 | `Math.max` over the ids: at least every id, and equal to one of them |
| `PointStore.NextId` | src/annotator.js:114 | the new id exceeds every id present; it is 1 for an empty store and otherwise one more than an id present |
| `PointStore.IdsDistinct` | src/annotator.js:114 | in a well-formed store no two points share an id |
| `PointStore.Renumber` | src/annotator.js:4 | construction keeps the seed points' order, positions and text and gives the i-th point id i + 1 |
| `PointStore.RenumberIds` | src/annotator.js:4 | the renumbered store is well formed and its ids are exactly 1..N |
| `PointStore.AddKeepsWellFormed` | src/annotator.js:114-116 | appending with the next id keeps ids positive and strictly increasing |
| `PointStore.NextIdAfterConsecutive` | src/annotator.js:114 | while ids are 1..N in order the next id is N + 1, so adding to an empty store numbers points 1, 2, 3, ... in call order |
| `PointStore.Remove` | src/annotator.js:125 | the filter keeps exactly the points whose id is not k, with their multiplicities; with k absent the store is unchanged |
| `PointStore.RemoveConcat` | src/annotator.js:125 | the filter distributes over concatenation, so survivors keep their relative order |
| `PointStore.RemoveKeepsWellFormed` | src/annotator.js:125 | deletion keeps ids positive and strictly increasing |
| `PointStore.DeleteKeepsSelection` | src/annotator.js:125-130 | after the filter, a selection that is cleared exactly when it was k still names a present point |
| `PointStore.Fill` | src/annotator.js:143 | a point is painted blue exactly when its id equals the selected id, and red otherwise |
| `PointStore.OneHighlighted` | src/annotator.js:143 | in a well-formed store at most one point is drawn blue, and one is exactly when the selection names a present point |
| `PointStore.ExportMarkers` | src/annotator.js:182-195 | export paints one marker per point in order, at the point's own position, red, radius 10, 12-pixel label |
| `Helpers.ValidateImageUrl` | src/utils/helpers.js:1-4 | a URL is accepted exactly when it ends with a dot followed by one of jpeg, jpg, gif, png or svg, in any ASCII case |
| `Helpers.ValidImpliesMatch` | src/utils/helpers.js:2-3 | every URL the suffix check accepts has a match of the pattern ending at its end |
| `Helpers.MatchImpliesValid` | src/utils/helpers.js:2-3 | every URL with a match of the pattern ending at its end is accepted |
| `Helpers.ValidateImageUrlIsSearch` | src/utils/helpers.js:1-4 | `validateImageUrl` is true iff the URL ends with '.' and one of jpeg, jpg, gif, png, svg, case-insensitively |
| `Helpers.QueryStringRejected` | src/utils/helpers.js:2 | a '?' among the last four characters, as in "a.png?x", makes `validateImageUrl` fail: the match is anchored at the end |
| `Helpers.DotRequired` | src/utils/helpers.js:2 | a URL without any '.', such as "png", is rejected |
| `Helpers.ValidateImageUrlIgnoresCase` | src/utils/helpers.js:2 | two URLs that differ only in ASCII case get the same answer |
| `Helpers.ValidateImageUrlExamples` | src/utils/helpers.js:2-3 | "photo.JPG" and "a.b.jpeg" are accepted; "a.png?x" and "png" are rejected |
| `Helpers.FormatAnnotationData` | src/utils/helpers.js:8-9 | description is the given text, or '' when it is absent or empty; image is the given one when truthy and null otherwise |
| `Helpers.CalculateCanvasCoordinates` | src/utils/helpers.js:14-20 | the result plus the canvas's left and top offsets gives back the client position |
| `NativeAnnotator.DrawPoint` | src/annotator.js:141-154 | the marker sits at the point's own position with radius 10, the id as caption in a 12-pixel font, blue exactly when the point is selected; its centre passes the point's own hit test |
| `NativeAnnotator.Render` | src/annotator.js:156-165 | a redraw paints one drawPoint marker per point, in sequence order |
| `NativeAnnotator.ExportIsUnselectedRender` | src/annotator.js:182-195 | the export overlay is the live redraw with nothing selected |
| `NativeAnnotator.Annotator.constructor` | src/annotator.js:2-10 | the store is the renumbered seed, nothing is selected, and no canvas exists before the image loads |
| `NativeAnnotator.Annotator.RenderImage` | src/annotator.js:30-45 | once the image decodes, the canvas exists and has the image's native size |
| `NativeAnnotator.Annotator.AddPoint` | src/annotator.js:113-121 | appends a point with the next id at the end, leaving earlier points and the selection unchanged and the invariant true |
| `NativeAnnotator.Annotator.DeletePoint` | src/annotator.js:123-139 | the store becomes the filter by id; the selection becomes null iff it was k, else is unchanged |
| `NativeAnnotator.Annotator.OnClickAdd` | src/annotator.js:48-69 | a click that hits a point adds nothing; a miss adds a point at the canvas offset only when the prompt's answer is truthy |
| `NativeAnnotator.Annotator.OnClickSelect` | src/annotator.js:73-92 | selects the first point hit and hands it to the click callback; on a miss nothing changes |
| `NativeAnnotator.Annotator.Click` | src/annotator.js:39-43 | both listeners in registration order: a hit selects it and adds nothing; a miss with a truthy answer adds a point and selects it; a miss without one changes nothing |
| `NativeAnnotator.Annotator.HoverCursor` | src/annotator.js:96-110 | the cursor is the pointer exactly when some point lies within 10 of the mouse |
| `NativeAnnotator.Annotator.Frame` | src/annotator.js:141-145 | each marker sits at its point with radius 10; at most one is blue, and one is exactly when a point is selected; a marker is blue exactly when its point's id is the selected id |
| `NativeAnnotator.Annotator.ExportImage` | src/annotator.js:167-195 | fails without a canvas; otherwise the canvas-sized raster with the export overlay of the current points |
| `ResponsiveAnnotator.ComputeLayout` | dist/image-annotator-lib.js:69-74 | canvas width is the container width; the scale factor maps the native width onto it; the height is the native height times the scale, truncated |
| `ResponsiveAnnotator.ToImage` | dist/image-annotator-lib.js:88-89 | the click mapping divides by the scale factor and is undone by drawPoint's mapping |
| `ResponsiveAnnotator.ToDevice` | dist/image-annotator-lib.js:182-183 | drawPoint's mapping multiplies by the scale factor and, for a non-zero scale, is undone by the click mapping |
| `ResponsiveAnnotator.ClickRadius` | dist/image-annotator-lib.js:95 | the image-space hit radius is positive and maps back to 10 canvas pixels |
| `ResponsiveAnnotator.ClickHit` | dist/image-annotator-lib.js:92-96 | the image-space test against radius 10 / scale picks the first point whose canvas centre lies within 10 canvas pixels of the click offset |
| `ResponsiveAnnotator.ScaledWithin` | dist/image-annotator-lib.js:88-95 | for a positive scale, dividing the offset and the radius by the scale leaves the outcome of the distance test unchanged, measured against the scaled centre |
| `ResponsiveAnnotator.DrawPoint` | dist/image-annotator-lib.js:180-197 | the centre is the point's position times the scale, radius and font are 10 and 12 times the scale, the id is the caption, blue exactly when selected, and the click mapping takes the marker's centre back to the point |
| `ResponsiveAnnotator.Render` | dist/image-annotator-lib.js:180-197 | a redraw paints one scaled drawPoint marker per point, in sequence order |
| `ResponsiveAnnotator.AddedPointDrawnUnderPointer` | dist/image-annotator-lib.js:86-104 | a point added by a click at a canvas offset is drawn exactly at that offset, at any positive scale |
| `ResponsiveAnnotator.ClickOnMarkerHits` | dist/image-annotator-lib.js:110-119 | clicking the centre of any drawn marker hits that point or an earlier one |
| `ResponsiveAnnotator.HoverAgreesWithClickAtUnitScale` | dist/image-annotator-lib.js:131-142 | at scale 1 the hover test and the click test agree |
| `ResponsiveAnnotator.HoverDisagreesWithClickWhenScaled` | dist/image-annotator-lib.js:131-142 | at scale 2, the pointer over a marker drawn at (40, 0) clicks its point but the hover test misses it |
| `ResponsiveAnnotator.ClickInsideMarkerMissesWhenScaled` | dist/image-annotator-lib.js:95 | at scale 2 a marker is painted with radius 20, yet a click 15 canvas pixels from its centre hits nothing: the click radius stays 10 canvas pixels |
| `ResponsiveAnnotator.ExportIsUnscaledRender` | dist/image-annotator-lib.js:219-232 | the export overlay is the redraw at scale 1 with nothing selected, whatever the live scale is |
| `ResponsiveAnnotator.ExportKeepsNativePosition` | dist/image-annotator-lib.js:219-223 | with native width 1000 and container width 500, a point at x = 500 is drawn at 250 but exported at 500 |
| `ResponsiveAnnotator.Annotator.constructor` | dist/image-annotator-lib.js:8-27 | the store is the renumbered seed, nothing is selected, the scale factor is 1 and no canvas exists |
| `ResponsiveAnnotator.Annotator.Create` | dist/image-annotator-lib.js:16-19 | construction fails exactly when the container is missing, and otherwise yields the initial state |
| `ResponsiveAnnotator.Annotator.ResizeCanvas` | dist/image-annotator-lib.js:65-83 | does nothing without a canvas; otherwise the scale factor and the canvas size become the layout for the container width |
| `ResponsiveAnnotator.Annotator.ImageLoaded` | dist/image-annotator-lib.js:39-55 | once the image decodes, its native size is recorded, the canvas exists and is laid out for the container |
| `ResponsiveAnnotator.Annotator.AddPoint` | dist/image-annotator-lib.js:149-160 | appends a point with the next id at the end, leaving earlier points and the selection unchanged |
| `ResponsiveAnnotator.Annotator.DeletePoint` | dist/image-annotator-lib.js:162-178 | filters by id, clears a matching selection, and lays the canvas out again for the container width; without a canvas the scale factor and canvas size stay as they were |
| `ResponsiveAnnotator.Annotator.OnClickAdd` | dist/image-annotator-lib.js:85-106 | the click offset divided by the scale factor is tested with radius 10 / scale; a miss always adds a point there with empty text |
| `ResponsiveAnnotator.Annotator.OnClickSelect` | dist/image-annotator-lib.js:108-129 | selects the first point hit in image space and relays the canvas; on a miss nothing changes |
| `ResponsiveAnnotator.Annotator.Click` | dist/image-annotator-lib.js:57-61 | both listeners in order: a hit selects it; a miss adds a point with empty text and selects it; either way the canvas is laid out again |
| `ResponsiveAnnotator.Annotator.HoverCursor` | dist/image-annotator-lib.js:131-147 | the cursor is the pointer exactly when some point lies within 10 of the unscaled canvas offset; at scale 1 that is exactly when a click there would hit a point |
| `ResponsiveAnnotator.Annotator.Frame` | dist/image-annotator-lib.js:180-188 | each marker sits at its point times the scale factor with radius 10 times it; at most one is blue, and one is exactly when a point is selected; a marker is blue exactly when its point's id is the selected id |
| `ResponsiveAnnotator.Annotator.ExportImage` | dist/image-annotator-lib.js:204-232 | fails without a canvas; otherwise a raster the size of the scaled canvas whose overlay is the redraw at scale 1 with nothing selected |
| `Variants.ClickHitAgreesAtUnitScale` | dist/image-annotator-lib.js:92-96 | at scale 1 the responsive click test is the native one |
| `Variants.RenderAgreesAtUnitScale` | dist/image-annotator-lib.js:180-197 | at scale 1 the responsive redraw paints the native markers |

## Left out

- Image loading (`fetch`, `blob`, `URL.createObjectURL`, `Image.onload`) is network I/O. The model starts from the moment the image has decoded (`RenderImage`, `ImageLoaded`), and a failed fetch simply never creates a canvas.
- DOM work is left out: creating and appending the canvas, `getElementById` beyond whether it finds the container, `addEventListener` wiring, and window resize events. The handlers are methods, and their inputs are parameters: the client position, the canvas's bounding rectangle, the container's `offsetWidth` and the answer `prompt()` returns.
- Canvas 2D drawing calls are left out. drawPoint is modelled only as the marker it paints: position, radius, fill colour, label and font size.
- The redraws inside `img.onload` and the export overlay run when a second copy of the image decodes. The model evaluates them on the state at the call.
- Export's `toDataURL`, download link and Promise resolution are left out. `ExportImage` keeps only the raster size and the overlay rule.
- Callbacks: both constructors ignore the `onPointAdded` argument and set the field to null. `addPoint` calls the field whenever it holds a function, so the callback runs only if the embedder assigns it after construction. That call, with the new point and the live `points` array, is not modelled. `OnClickSelect` returns the point `onPointClicked` would get. The `onPointDeleted` call and the Promise `.catch` logging are not modelled.
- The `timestamp` field of `formatAnnotationData` reads the clock and is left out.
- JavaScript values are narrowed to typed ones. Ids are integers. `formatAnnotationData`'s fields are strings or absent, so non-string truthy and falsy values are not modelled. `deletePoint` takes an integer.
- Floating point is not modelled. Coordinates and the scale factor are exact reals, and `Math.sqrt(d) <= r` becomes `d <= r * r`.
- The conversion of a canvas dimension to an unsigned 32-bit integer is modelled as truncation, without the wrap-around at 2^32.
- `imageUrl` and `container` are used only for I/O and DOM placement. They are not fields of the model.
- `rollup.config.js` is build configuration and is not part of this model.
- NativeAnnotator.Annotator.AddPoint: before the canvas exists, drawPoint throws a TypeError after the point has been pushed. The model makes the same state change and does not model the exception.
- NativeAnnotator.Annotator.DeletePoint: before the canvas exists, redrawPoints throws a TypeError after the filter and the selection update. The model makes the same state change and does not model the exception.
- ResponsiveAnnotator.Annotator.AddPoint: before the canvas exists, drawPoint throws a TypeError at `this.ctx.fillStyle` after the point has been pushed, so the `onPointAdded` block is never reached. The model makes the same state change and does not model the exception.
- NativeAnnotator.Annotator.RenderImage: requires that no canvas exists yet, because `loadImage` runs once per annotator and decodes at most once.
- ResponsiveAnnotator.Annotator.ImageLoaded: requires a positive image width. For a zero-width image the scale factor is IEEE Infinity or NaN, which reals do not model.
- ResponsiveAnnotator.Annotator.OnClickAdd: requires a positive scale factor. With a zero-width container, the divisions by `scaleFactor` yield Infinity or NaN.
- ResponsiveAnnotator.Annotator.OnClickSelect: requires a positive scale factor, for the same reason.
- ResponsiveAnnotator.Annotator.Click: requires a positive scale factor, for the same reason.
