# ARtistry drawing surface — a Dafny model

ARtistry lets a user sketch on a canvas, export the sketch, and send it to a
remote service that detects objects in it or turns it into a 3D model. This
project models the client-side state logic of the three drawing components:

- `SketchPage` (frontend/src/SketchPage.js): a canvas with an undo history, a
  toolbar whose line-width buttons clamp the pen width to 1..30, and an export
  that uploads the sketch with at most three attempts and exponential backoff.
- `DrawingView` and `DetectedImageDisplay`
  (frontend/src/components/DrawingView.jsx): a canvas whose pointer positions
  are scaled from display pixels to canvas pixels, whose size follows its
  container and the window, and whose newest snapshot is repainted over the
  whole canvas after every history or size change; and the overlay that
  outlines each detected object.
- `SketchCanvas` (frontend/src/components/SketchCanvas.jsx): a fixed-size,
  mouse-only canvas with the same undo history and an export callback.

Each component's React state becomes the fields of a class, and each event
handler becomes a method with a `modifies` clause. The methods are specified
against the pure functions of module `History`: `Recorded` for the end of a
stroke, `Undone` for one undo, `Newest` for what the canvas is painted from.
The lemmas about those functions prove the history properties:

- undo takes back exactly the last stroke;
- `N` strokes followed by `N` undos return to the history before them;
- enough undos always reach the empty history and stay there.

Each class keeps the invariant `Valid()`: the canvas shows the newest history
entry, or the bare background when the history is empty. Every handler
preserves it.

Pixels are not modelled. A snapshot is an opaque data-URL string. The canvas is
described by three things:

- the snapshot it was last painted from;
- for DrawingView, its resolution;
- the points of the path being stroked.

Browser coordinates are modelled as `real`. The upload's network calls are
replaced by the sequence of outcomes the successive `fetch` calls produce:
`Ok`, `NotOk(status)` or `Threw(message)`. The waits are replaced by the list
of delays the loop schedules.

Behaviour of the code that the model makes explicit:

- The check after the retry loop in `uploadAndGenerate`
  (SketchPage.js:371-373) can never fire. The loop is left only by a `break`
  on an ok response, or by the throw of its last attempt. `Upload.RetryUpload`
  proves this with an assertion at that point.
- In SketchPage, a touch event with no touch points reads the event's own
  `clientX`, which is undefined for a touch event. The position is NaN, and
  the canvas ignores `moveTo`/`lineTo` with NaN. The stroke still starts.
  In DrawingView the same event throws inside `getEventPos`, and the handler
  changes nothing. `CanvasPos` and `EventPos` return `None` for these cases.
- DrawingView assigns a fractional size (`rect.width * 0.9`) to the canvas's
  integer `width` attribute, so the canvas's resolution is the size with its
  fraction dropped (`Resolution`). `getEventPos` scales by that resolution.
- The export of SketchPage is split in two. The synchronous part is
  `HandleExport`: the `isGenerating` guard, `isGenerating := true`, and the
  "Sending" message. The part after the `fetch` calls settle is
  `CompleteUploadAndGenerate`. An export clicked between the two is ignored.

Further behaviours of the code that the model keeps:

- The overlay draws each box at the image's own pixel coordinates: the
  canvas takes the image's size and the boxes are not rescaled.
- The overlay reads `label` and `bbox` from each detected object, and draws
  the label at `(x1 + 4, y1 + 20)`, inside the box.
- SketchPage's `stopDrawing` records a snapshot only for `mouseup`,
  `touchend`, `mouseleave` and `touchcancel` events.
- Every repaint of DrawingView (a resize, a new or undone history entry, a
  clear) assigns the canvas's resolution, which resets the 2D context, and
  strokes the grid, each line on a path of its own. The current path that
  remains is the last thick horizontal grid line (`DrawGrid`), so a stroke
  continued after a repaint starts from that line's right end.

## Model

| member | source | states |
|---|---|---|
| History.Newest | frontend/src/components/DrawingView.jsx:173-177 | the canvas is painted from the last history entry, and from the background alone exactly when the history is empty |
| History.Recorded | frontend/src/SketchPage.js:300-301 | a finished stroke adds exactly one entry: the old history is kept as a prefix and the new snapshot becomes the newest entry |
| History.Undone | frontend/src/SketchPage.js:306-314 | undo on a history of at most one entry gives the empty history; on a longer one it removes exactly the last entry and keeps the rest |
| History.UndoneTimesStep | frontend/src/SketchPage.js:306-315 | `n + 1` undos are one more undo applied after `n` undos |
| History.RecordedAllAppends | frontend/src/SketchPage.js:299-303 | a run of strokes appends its snapshots in order after the old history |
| History.UndoRevertsStroke | frontend/src/SketchPage.js:299-314 | an undo right after a stroke gives back the history before that stroke, whatever its length |
| History.UndoneTimesIsPrefix | frontend/src/SketchPage.js:306-320 | after `n` undos the history is its own prefix of length `max(0, len - n)` |
| History.UndoneTimesEmpties | frontend/src/SketchPage.js:306-320 | at least as many undos as entries give the empty history, and further undos keep it empty |
| History.UndoRevertsStrokes | frontend/src/SketchPage.js:299-320 | `N` strokes followed by `N` undos give back the history from before the strokes |
| History.StrokesThenUndosReturnToBlank | frontend/src/SketchPage.js:299-320 | from a blank canvas, `N` strokes leave `N` entries, `N` undos return to empty, and `N + 1` undos stay empty |
| Pointer.TouchPoint | frontend/src/SketchPage.js:240-251 | a touch is read from the first active touch, else from the first changed touch, and there is no position exactly when both lists are empty |
| Upload.RetryUpload | frontend/src/SketchPage.js:350-373 | at most 3 attempts and at least 1; it stops at the first ok response; it succeeds iff one of the three attempts is ok; a failure uses all 3 attempts, and its error is the last attempt's own error or "Failed after 3 attempts."; the delays are exactly those of `ScheduledDelays` |
| Upload.ScheduledDelaysAreBackoffSteps | frontend/src/SketchPage.js:359-367 | at most one delay per attempt, and each is 1000 or 2000 ms (`2^i * 1000` for attempt 0 or 1) |
| Upload.ScheduledDelaysBounded | frontend/src/SketchPage.js:359-367 | the total of the scheduled delays is at most 1000 ms before the second attempt and 3000 ms overall |
| SketchPageComponent.DecreasedLineWidth | frontend/src/SketchPage.js:83 | the decrement never goes below 1, lowers any width above 1 by exactly one, and keeps a width in 1..30 in range |
| SketchPageComponent.IncreasedLineWidth | frontend/src/SketchPage.js:101 | the increment never exceeds 30, raises any width below 30 by exactly one, and keeps a width in 1..30 in range |
| SketchPageComponent.LineWidthClicksStayInRange | frontend/src/SketchPage.js:82-106 | from a width in 1..30, every sequence of "-" and "+" clicks keeps the width in 1..30 |
| SketchPageComponent.CanvasPos | frontend/src/SketchPage.js:234-259 | the position exists exactly when the event has a client position; adding the canvas's top-left corner back gives that client position |
| SketchPageComponent.PathTo | frontend/src/SketchPage.js:268-269 | a `moveTo`/`lineTo` with a position adds that point to the path; one with NaN coordinates leaves the path as it was |
| SketchPageComponent.SketchPage.constructor | frontend/src/SketchPage.js:162-169 | not drawing, empty history, blank canvas, pen width 3, not generating, the initial message |
| SketchPageComponent.SketchPage.StartDrawing | frontend/src/SketchPage.js:263-271 | a stroke starts and the path restarts at the pointer (empty when the position is NaN); the history is untouched |
| SketchPageComponent.SketchPage.Draw | frontend/src/SketchPage.js:273-288 | without a stroke in progress the path is unchanged; otherwise it is extended to the pointer |
| SketchPageComponent.SketchPage.StopDrawing | frontend/src/SketchPage.js:290-304 | without a stroke in progress all state is unchanged; otherwise drawing ends, and the snapshot is appended exactly when the event is mouseup, touchend, mouseleave or touchcancel |
| SketchPageComponent.SketchPage.Undo | frontend/src/SketchPage.js:306-315 | the history becomes `Undone` of the old one: empty, with a blank canvas, for at most one entry; otherwise the last entry is dropped and the canvas is repainted from the new last entry |
| SketchPageComponent.SketchPage.ClearCanvas | frontend/src/SketchPage.js:317-320 | empty history and blank canvas, whatever the history held |
| SketchPageComponent.SketchPage.DecreaseLineWidth | frontend/src/SketchPage.js:82-88 | the pen width becomes `DecreasedLineWidth` of the old width and stays in 1..30 |
| SketchPageComponent.SketchPage.IncreaseLineWidth | frontend/src/SketchPage.js:100-106 | the pen width becomes `IncreasedLineWidth` of the old width and stays in 1..30 |
| SketchPageComponent.SketchPage.SetLineWidth | frontend/src/SketchPage.js:90-98 | the slider sets the width to its value, which lies in 1..30 |
| SketchPageComponent.SketchPage.HandleExport | frontend/src/SketchPage.js:324-344 | while an upload is in flight nothing changes; otherwise `isGenerating` is set and the sending message is shown |
| SketchPageComponent.SketchPage.CompleteUploadAndGenerate | frontend/src/SketchPage.js:346-392 | `isGenerating` is false afterwards on success and on failure; it succeeds iff some attempt is ok; the message is the success text, or the error text that carries the last attempt's error |
| SketchPageComponent.ExportDuringUpload | frontend/src/SketchPage.js:324-392 | a second export during an upload is ignored; after the upload completes, `isGenerating` is false and the history is unchanged |
| DrawingViewComponent.CanvasSizeFor | frontend/src/components/DrawingView.jsx:155 | the canvas height is at least 300 and at least 0.6 of the window height, and is one of the two; the width is 0.9 of the container width |
| DrawingViewComponent.Resolution | frontend/src/components/DrawingView.jsx:165-166 | the canvas attribute holds the size with its fraction dropped |
| DrawingViewComponent.EventPos | frontend/src/components/DrawingView.jsx:180-192 | a touch gives `(clientX - left, clientY - top)` and a mouse event gives `(offsetX, offsetY)`, each scaled by canvas resolution / displayed size; there is no position exactly when a touch event has no touch point |
| DrawingViewComponent.TouchEventPosScalesCanvasPos | frontend/src/components/DrawingView.jsx:186-188 | for touch input the scaled position is SketchPage's unscaled one times the scale factors, and the two agree when the canvas is displayed at its own resolution |
| DrawingViewComponent.TouchInsideLandsOnCanvas | frontend/src/components/DrawingView.jsx:183-188 | a touch inside the displayed canvas maps into `[0, width] x [0, height]` of the canvas's pixels |
| DrawingViewComponent.LastMajorRow | frontend/src/components/DrawingView.jsx:143-148 | the last thick horizontal grid line lies on a multiple of 100 pixels, at most 100 pixels above the bottom edge and not below it |
| DrawingViewComponent.SameMajorRow | frontend/src/components/DrawingView.jsx:143-148 | that row is the only multiple of 100 within 100 pixels above the bottom edge |
| DrawingViewComponent.GridPath | frontend/src/components/DrawingView.jsx:143-148 | the path left by the grid is one horizontal line at `LastMajorRow`, from the left edge to the right edge |
| DrawingViewComponent.DrawGrid | frontend/src/components/DrawingView.jsx:117-149 | after the four grid loops the current path is `GridPath`: every loop runs at least once, and each line replaces the path with its own |
| DrawingViewComponent.DrawingView.constructor | frontend/src/components/DrawingView.jsx:109-114 | not drawing, empty history, size 600 x 400, painted with background and grid alone, with the grid's last line as the current path |
| DrawingViewComponent.DrawingView.Resize | frontend/src/components/DrawingView.jsx:151-178 | without a container nothing changes; otherwise the size follows `CanvasSizeFor`, the height is at least 300, the history is unchanged, and the canvas is repainted from its newest entry, or with background and grid alone when it is empty; the current path becomes the grid's last line |
| DrawingViewComponent.DrawingView.StartDrawing | frontend/src/components/DrawingView.jsx:194-201 | while loading nothing changes and no stroke begins; a touch without a touch point changes nothing; otherwise a stroke starts at the scaled position |
| DrawingViewComponent.DrawingView.Draw | frontend/src/components/DrawingView.jsx:203-214 | without a stroke in progress the path is unchanged; otherwise it is extended to the scaled position |
| DrawingViewComponent.DrawingView.StopDrawing | frontend/src/components/DrawingView.jsx:216-225 | a no-op without a stroke in progress; otherwise exactly one snapshot is appended, drawing ends, the canvas is repainted from it, and the current path becomes the grid's last line |
| DrawingViewComponent.DrawingView.Undo | frontend/src/components/DrawingView.jsx:227-233 | at most one entry: the history is cleared; otherwise exactly the last entry is dropped and the new last entry is painted; the resolution is kept and the current path becomes the grid's last line |
| DrawingViewComponent.DrawingView.ClearCanvas | frontend/src/components/DrawingView.jsx:235-242 | empty history; background and grid alone at the same resolution, with the grid's last line as the current path |
| DrawingViewComponent.DrawingView.ExportCanvas | frontend/src/components/DrawingView.jsx:244-250 | `onExport` gets the blob exactly when it is provided and the encoding produced a blob; no state changes |
| DrawingViewComponent.Annotate | frontend/src/components/DrawingView.jsx:346-349 | one rectangle from `(x1, y1)` to `(x2, y2)`, i.e. width `x2 - x1` and height `y2 - y1`, with the object's label at `(x1 + 4, y1 + 20)` |
| DrawingViewComponent.Overlay | frontend/src/components/DrawingView.jsx:328-352 | nothing is drawn without an image or a detection list; otherwise there is one annotation per detected object, in order |
| DrawingViewComponent.OverlayRecoversDetections | frontend/src/components/DrawingView.jsx:346-349 | every detection's box and label can be read back from its annotation |
| SketchCanvasComponent.SketchCanvas.constructor | frontend/src/components/SketchCanvas.jsx:4-19 | not drawing, empty history, white canvas |
| SketchCanvasComponent.SketchCanvas.StartDrawing | frontend/src/components/SketchCanvas.jsx:21-26 | a stroke starts with its path at the mouse offset |
| SketchCanvasComponent.SketchCanvas.Draw | frontend/src/components/SketchCanvas.jsx:28-36 | no effect when not drawing; otherwise the path is extended to the mouse offset |
| SketchCanvasComponent.SketchCanvas.StopDrawing | frontend/src/components/SketchCanvas.jsx:38-44 | a no-op without a stroke in progress; otherwise exactly one snapshot is appended and drawing ends |
| SketchCanvasComponent.SketchCanvas.Undo | frontend/src/components/SketchCanvas.jsx:46-62 | at most one entry: the history becomes empty; otherwise only the last entry is dropped and the canvas is repainted from the new last entry |
| SketchCanvasComponent.SketchCanvas.ClearCanvas | frontend/src/components/SketchCanvas.jsx:64-70 | the history is empty afterwards, whatever its length before |
| SketchCanvasComponent.SketchCanvas.ExportCanvas | frontend/src/components/SketchCanvas.jsx:72-75 | `onExport` is called exactly once, with the current data URL, iff it is provided; no state changes |
| SketchCanvasComponent.StrokesThenUndos | frontend/src/components/SketchCanvas.jsx:38-70 | driving the component through `N` strokes records exactly the `N` snapshots, and `N` undos then leave the history empty |

## Left out

- Raster content is not modelled. This covers the grid drawing, the pen
  colour, the eraser's `destination-out` compositing, line caps, and
  image loading. Snapshots are opaque tokens, and a repaint is treated as
  immediate, although the image loads asynchronously.
- Canvas encoding is not modelled: `toDataURL`, `toBlob`, and the `atob`
  byte-copy loop in `handleExport` (SketchPage.js:327-337). The encoded
  data arrives as a parameter.
- The network is not modelled: the `fetch` calls, `FormData`, reading the
  response body, and the object-URL download (SketchPage.js:375-382).
  A failure while reading the body is therefore not modelled.
- The 5-second timer that resets the status message (SketchPage.js:391) is
  a timer, so it is left out.
- SketchPage's cursor position (`setCursorPos`) only positions a decorative
  cursor, so it is left out.
- SketchPage's container-based canvas size (SketchPage.js:398-428) depends on
  DOM layout. Only its repaint of the newest entry appears, through `Valid()`.
- DrawingView's `canvasSize`: resolutions of 2^31 pixels or more are not
  modelled. There the attribute falls back to its default of 300 x 150, and
  from 2^32 the value wraps.
- SketchPageComponent.SketchPage.Undo, ClearCanvas and StopDrawing: the
  model keeps `path` across the repaint these trigger. In the code, a change
  of the history's length assigns the canvas's resolution, which resets the
  2D context and empties its current path; the grid, drawn at once by
  `clearCanvas` and after the snapshot image loads otherwise, then leaves
  its last thick horizontal line as the current path. That line depends on
  SketchPage's canvas size and on when the image loads, neither of which is
  modelled, so a stroke continued after one of these calls is not modelled.
- DrawingView's toolbar settings (colour, slider width, eraser toggle) and
  SketchCanvas's toolbar are pass-through UI state with no logic.
- DrawingViewComponent.EventPos: requires a displayed canvas of non-zero
  width and height, because a pointer event can only reach a canvas that
  has area. For a zero-size rectangle JavaScript would produce non-finite
  numbers, which reals cannot represent.
- SketchPageComponent.SketchPage.CompleteUploadAndGenerate and
  Upload.RetryUpload: require an outcome for each of the three attempts.
  The environment supplies exactly one outcome per `fetch`.
- DrawingView.jsx declares polling constants (lines 8-9) but contains no
  polling loop, so there is nothing to model there.
- App.js, ARViewer.jsx, ARModel.jsx, HomePage.jsx, SketchPage.jsx,
  SketchToolbar.jsx, backend/sketch.py and backend/sketchtrial.py are not
  part of this model. They hold UI markup, camera and 3D-viewer I/O, an HTTP
  handler, or commented-out code.
