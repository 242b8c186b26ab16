/**
 * The SketchPage component (frontend/src/SketchPage.js): a drawing canvas
 * with an undo history of snapshots, a toolbar whose line-width buttons clamp
 * the pen width, and an export that uploads the sketch with bounded retries.
 * The component's React state is the state of class `SketchPage`; each event
 * handler is a method. Pixels are not modelled: a snapshot is an opaque data
 * URL, and the canvas is described by the snapshot it was last repainted
 * from and by the points of its current path.
 */
module SketchPageComponent {
  import opened Wrappers
  import opened Pointer
  import History
  import Upload

  /** A `canvas.toDataURL()` string, treated as an opaque token. */
  type Snapshot = string

  const InitialMessage: string := "Draw an object and hit Export to convert it to a 3D model."
  const SendingMessage: string := "Sending sketch to backend for 3D generation..."
  const GeneratedMessage: string := "3D model generated and download started!"

  /** The status line shown when the upload's error reaches the outer `catch`. */
  function ErrorMessage(detail: string): string
  {
    "Error: Failed to generate 3D model. Check console for details. (" + detail + ")"
  }

  /** The pen width's range, the `min` and `max` of the toolbar's slider. */
  const MinLineWidth: int := 1
  const MaxLineWidth: int := 30
  const InitialLineWidth: int := 3

  /** The "Decrease line width" button: `Math.max(1, lineWidth - 1)`. */
  function DecreasedLineWidth(w: int): (r: int)
    ensures r >= MinLineWidth
    ensures r < w || w <= MinLineWidth
    ensures w - 1 <= r <= w || w < MinLineWidth
    ensures MinLineWidth <= w <= MaxLineWidth ==> MinLineWidth <= r <= MaxLineWidth
  {
    if w - 1 > MinLineWidth then w - 1 else MinLineWidth
  }

  /** The "Increase line width" button: `Math.min(30, parseInt(lineWidth) + 1)`. */
  function IncreasedLineWidth(w: int): (r: int)
    ensures r <= MaxLineWidth
    ensures r > w || w >= MaxLineWidth
    ensures w <= r <= w + 1 || w > MaxLineWidth
    ensures MinLineWidth <= w <= MaxLineWidth ==> MinLineWidth <= r <= MaxLineWidth
  {
    if w + 1 < MaxLineWidth then w + 1 else MaxLineWidth
  }

  /** The event types on which `stopDrawing` captures a snapshot. */
  predicate EndsStroke(eventType: string)
  {
    eventType == "mouseup" || eventType == "touchend" || eventType == "mouseleave" || eventType == "touchcancel"
  }

  /** The client position `getCanvasPos` reads: the chosen touch point of a
      touch event, or the client position of a mouse event. A touch event
      with no touch points at all has no position (its `clientX` is
      `undefined`, and the arithmetic gives NaN). */
  function ClientPoint(e: PointerEvent): Option<Point>
  {
    match e
    case Mouse(client, _) => Some(client)
    case Touch(touches, changedTouches) => TouchPoint(touches, changedTouches)
  }

  /** `getCanvasPos`: the client position relative to the canvas's top-left
      corner. None stands for the NaN coordinates of an event without a
      position. Adding the corner back gives the client position again. */
  function CanvasPos(e: PointerEvent, rect: ClientRect): (r: Option<Point>)
    ensures r.Some? <==> ClientPoint(e).Some?
    ensures r.Some? ==> r.value.x + rect.left == ClientPoint(e).value.x
    ensures r.Some? ==> r.value.y + rect.top == ClientPoint(e).value.y
  {
    match ClientPoint(e)
    case Some(c) => Some(Point(c.x - rect.left, c.y - rect.top))
    case None => None
  }

  /** The path a `moveTo`/`lineTo` to `pos` leaves: the canvas silently
      ignores a call with NaN coordinates. */
  function PathTo(path: seq<Point>, pos: Option<Point>): (r: seq<Point>)
    ensures pos.None? ==> r == path
    ensures pos.Some? ==> r == path + [pos.value]
  {
    match pos
    case Some(p) => path + [p]
    case None => path
  }

  class SketchPage {
    /** Whether a stroke is in progress. */
    var drawing: bool
    /** One snapshot per finished stroke, oldest first. */
    var history: seq<Snapshot>
    /** The snapshot the canvas was last repainted from; None when it was
        last repainted with the background grid alone. */
    var shown: Option<Snapshot>
    /** The points of the 2D context's current path: the stroke being drawn. */
    var path: seq<Point>
    var lineWidth: int
    var isGenerating: bool
    var message: string

    /** The canvas shows the newest history entry (or the bare grid for an
        empty history), and the pen width stays in the slider's range. */
    ghost predicate Valid()
      reads this
    {
      && shown == History.Newest(history)
      && MinLineWidth <= lineWidth <= MaxLineWidth
    }

    /** The component's initial state (SketchPage.js:162-169). */
    constructor ()
      ensures Valid()
      ensures !drawing && history == [] && shown == None && path == []
      ensures lineWidth == InitialLineWidth && !isGenerating && message == InitialMessage
    {
      drawing := false;
      history := [];
      shown := None;
      path := [];
      lineWidth := InitialLineWidth;
      isGenerating := false;
      message := InitialMessage;
    }

    /** `startDrawing`: begins a new path at the pointer and starts a stroke.
        A position that is NaN does not stop the stroke from starting; the
        canvas just ignores the `moveTo`. */
    method StartDrawing(e: PointerEvent, rect: ClientRect)
      requires Valid()
      modifies this`drawing, this`path
      ensures Valid()
      ensures drawing
      ensures path == PathTo([], CanvasPos(e, rect))
    {
      path := PathTo([], CanvasPos(e, rect));
      drawing := true;
    }

    /** `draw`: extends the stroke to the pointer, and does nothing unless a
        stroke is in progress. */
    method Draw(e: PointerEvent, rect: ClientRect)
      requires Valid()
      modifies this`path
      ensures Valid()
      ensures !drawing ==> path == old(path)
      ensures drawing ==> path == PathTo(old(path), CanvasPos(e, rect))
    {
      if !drawing {
        return;
      }
      path := PathTo(path, CanvasPos(e, rect));
    }

    /** `stopDrawing`: without a stroke in progress nothing changes. Otherwise
        the stroke ends, and when the event is one that ends a stroke the
        canvas's `snapshot` is appended to the history (after which the
        history effect repaints the canvas from it). */
    method StopDrawing(eventType: string, snapshot: Snapshot)
      requires Valid()
      modifies this`drawing, this`history, this`shown
      ensures Valid()
      ensures !old(drawing) ==> unchanged(this)
      ensures old(drawing) ==> !drawing
      ensures old(drawing) && EndsStroke(eventType) ==> history == History.Recorded(old(history), snapshot)
      ensures !(old(drawing) && EndsStroke(eventType)) ==> history == old(history)
    {
      if !drawing {
        return;
      }
      if EndsStroke(eventType) {
        history := History.Recorded(history, snapshot);
        shown := Some(snapshot);
      }
      drawing := false;
    }

    /** `undo`: a history of at most one entry is cleared through
        `clearCanvas`; a longer one loses its newest entry and the canvas is
        repainted from the entry before it. */
    method Undo()
      requires Valid()
      modifies this`history, this`shown
      ensures Valid()
      ensures history == History.Undone(old(history))
      ensures |old(history)| <= 1 ==> history == [] && shown == None
      ensures |old(history)| > 1 ==> shown == Some(old(history)[|old(history)| - 2])
    {
      if |history| <= 1 {
        ClearCanvas();
        return;
      }
      var newHistory := history[..|history| - 1];
      history := newHistory;
      shown := Some(newHistory[|newHistory| - 1]);
    }

    /** `clearCanvas`: empties the history and repaints the bare grid. */
    method ClearCanvas()
      requires Valid()
      modifies this`history, this`shown
      ensures Valid()
      ensures history == [] && shown == None
    {
      history := [];
      shown := None;
    }

    /** The toolbar's "-" button. */
    method DecreaseLineWidth()
      requires Valid()
      modifies this`lineWidth
      ensures Valid()
      ensures lineWidth == DecreasedLineWidth(old(lineWidth))
    {
      lineWidth := DecreasedLineWidth(lineWidth);
    }

    /** The toolbar's "+" button. */
    method IncreaseLineWidth()
      requires Valid()
      modifies this`lineWidth
      ensures Valid()
      ensures lineWidth == IncreasedLineWidth(old(lineWidth))
    {
      lineWidth := IncreasedLineWidth(lineWidth);
    }

    /** The toolbar's slider, whose value always lies between its `min` and
        `max`. */
    method SetLineWidth(value: int)
      requires Valid()
      requires MinLineWidth <= value <= MaxLineWidth
      modifies this`lineWidth
      ensures Valid()
      ensures lineWidth == value
    {
      lineWidth := value;
    }

    /** `handleExport` together with the synchronous start of
        `uploadAndGenerate`: ignored while an upload is in flight; otherwise
        the upload starts. */
    method HandleExport()
      requires Valid()
      modifies this`isGenerating, this`message
      ensures Valid()
      ensures old(isGenerating) ==> unchanged(this)
      ensures !old(isGenerating) ==> isGenerating && message == SendingMessage
    {
      if isGenerating {
        return;
      }
      isGenerating := true;
      message := SendingMessage;
    }

    /** The rest of `uploadAndGenerate`, once its `fetch` calls have settled
        with `outcomes`: the retry loop, then the status message, and in the
        `finally` block `isGenerating` goes back to false whatever happened. */
    method CompleteUploadAndGenerate(outcomes: seq<Upload.FetchOutcome>) returns (run: Upload.UploadRun)
      requires Valid()
      requires |outcomes| >= Upload.MaxRetries
      modifies this`isGenerating, this`message
      ensures Valid()
      ensures !isGenerating
      ensures 1 <= run.attempts <= Upload.MaxRetries
      ensures run.result.Generated? <==> exists i :: 0 <= i < Upload.MaxRetries && outcomes[i].Ok?
      ensures run.result.Generated? ==> message == GeneratedMessage
      ensures run.result.Failed? ==> message == ErrorMessage(Upload.FinalError(outcomes[Upload.MaxRetries - 1]))
      ensures run.delays == Upload.ScheduledDelays(outcomes, run.attempts)
    {
      run := Upload.RetryUpload(outcomes);
      match run.result {
        case Generated =>
          message := GeneratedMessage;
        case Failed(detail) =>
          message := ErrorMessage(detail);
      }
      isGenerating := false;
    }
  }

  /** Line-width clicks keep the pen width inside the slider's range: from
      any width in range, any sequence of "-" and "+" clicks stays in range. */
  lemma {:induction false} LineWidthClicksStayInRange(w: int, clicks: seq<bool>)
    requires MinLineWidth <= w <= MaxLineWidth
    ensures MinLineWidth <= AfterClicks(w, clicks) <= MaxLineWidth
    decreases |clicks|
  {
    if |clicks| > 0 {
      var next := if clicks[0] then IncreasedLineWidth(w) else DecreasedLineWidth(w);
      LineWidthClicksStayInRange(next, clicks[1..]);
    }
  }

  /** The width after a run of clicks, `true` for "+" and `false` for "-". */
  function AfterClicks(w: int, clicks: seq<bool>): int
    decreases |clicks|
  {
    if |clicks| == 0 then w
    else AfterClicks(if clicks[0] then IncreasedLineWidth(w) else DecreasedLineWidth(w), clicks[1..])
  }

  /** An export clicked while an upload is in flight starts nothing, and when
      the upload completes the page is ready to export again. */
  method ExportDuringUpload(page: SketchPage, outcomes: seq<Upload.FetchOutcome>)
    requires page.Valid() && !page.isGenerating
    requires |outcomes| >= Upload.MaxRetries
    modifies page
    ensures page.Valid() && !page.isGenerating
    ensures page.history == old(page.history) && page.drawing == old(page.drawing)
    ensures page.message == GeneratedMessage || page.message == ErrorMessage(Upload.FinalError(outcomes[Upload.MaxRetries - 1]))
  {
    var before := page.history;
    page.HandleExport();
    assert page.isGenerating && page.message == SendingMessage;
    page.HandleExport();
    assert page.isGenerating && page.message == SendingMessage;
    var run := page.CompleteUploadAndGenerate(outcomes);
    assert !page.isGenerating && page.history == before;
  }
}
