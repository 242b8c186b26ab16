/**
 * The SketchCanvas component (frontend/src/components/SketchCanvas.jsx): a
 * fixed 800 x 600 mouse-only drawing canvas with an undo history of
 * snapshots and an export callback. Positions are the mouse's offsets,
 * unscaled.
 */
module SketchCanvasComponent {
  import opened Wrappers
  import opened Pointer
  import History

  /** A `canvas.toDataURL()` string, treated as an opaque token. */
  type Snapshot = string

  class SketchCanvas {
    var drawing: bool
    /** One snapshot per finished stroke, oldest first. */
    var history: seq<Snapshot>
    /** The snapshot the canvas shows, apart from a stroke in progress; None
        when it shows the white background alone. */
    var shown: Option<Snapshot>
    /** The points of the 2D context's current path: the stroke being drawn. */
    var path: seq<Point>

    /** The canvas shows the newest history entry, or the white background
        for an empty history. */
    ghost predicate Valid()
      reads this
    {
      shown == History.Newest(history)
    }

    /** The initial state, and the mount effect that fills the canvas white. */
    constructor ()
      ensures Valid()
      ensures !drawing && history == [] && shown == None && path == []
    {
      drawing := false;
      history := [];
      shown := None;
      path := [];
    }

    /** `startDrawing`: begins a new path at the mouse and starts a stroke. */
    method StartDrawing(offset: Point)
      requires Valid()
      modifies this`drawing, this`path
      ensures Valid()
      ensures drawing && path == [offset]
    {
      path := [offset];
      drawing := true;
    }

    /** `draw`: has no effect unless a stroke is in progress; otherwise
        extends the path to the mouse. */
    method Draw(offset: Point)
      requires Valid()
      modifies this`path
      ensures Valid()
      ensures !drawing ==> path == old(path)
      ensures drawing ==> path == old(path) + [offset]
    {
      if !drawing {
        return;
      }
      path := path + [offset];
    }

    /** `stopDrawing`: a no-op without a stroke in progress; otherwise the
        canvas's `snapshot` is appended to the history and the stroke ends.
        The canvas now shows exactly what the snapshot holds. */
    method StopDrawing(snapshot: Snapshot)
      requires Valid()
      modifies this`drawing, this`history, this`shown
      ensures Valid()
      ensures !old(drawing) ==> unchanged(this)
      ensures old(drawing) ==> !drawing && history == History.Recorded(old(history), snapshot)
    {
      if !drawing {
        return;
      }
      history := History.Recorded(history, snapshot);
      shown := Some(snapshot);
      drawing := false;
    }

    /** `undo`: a history of at most one entry is cleared through
        `clearCanvas`; a longer one loses only its newest entry and the
        canvas is repainted from the entry before it. */
    method Undo()
      requires Valid()
      modifies this`history, this`shown
      ensures Valid()
      ensures history == History.Undone(old(history))
      ensures |old(history)| <= 1 ==> history == [] && shown == None
      ensures |old(history)| > 1 ==> shown == Some(old(history)[|old(history)| - 2])
    {
      if |history| <= 1 {
        ClearCanvas();
        return;
      }
      var newHistory := history[..|history| - 1];
      history := newHistory;
      shown := Some(newHistory[|newHistory| - 1]);
    }

    /** `clearCanvas`: fills the canvas white and empties the history,
        whatever it held. */
    method ClearCanvas()
      requires Valid()
      modifies this`history, this`shown
      ensures Valid()
      ensures history == [] && shown == None
    {
      history := [];
      shown := None;
    }

    /** `exportCanvas`: the calls made to `onExport`, each with the canvas's
        current data URL: exactly one when the component was given
        `onExport`, none otherwise. Changes no state. */
    method ExportCanvas(dataUrl: Snapshot, hasOnExport: bool) returns (calls: seq<Snapshot>)
      ensures |calls| == if hasOnExport then 1 else 0
      ensures forall i :: 0 <= i < |calls| ==> calls[i] == dataUrl
    {
      calls := [];
      if hasOnExport {
        calls := calls + [dataUrl];
      }
    }
  }

  /** A run of strokes then as many undos, through the component's own
      methods: each undo takes back one stroke, and the canvas ends blank. */
  method StrokesThenUndos(offsets: seq<Point>, snapshots: seq<Snapshot>) returns (afterStrokes: seq<Snapshot>, afterUndos: seq<Snapshot>)
    requires |offsets| == |snapshots|
    ensures afterStrokes == snapshots
    ensures afterUndos == []
  {
    var canvas := new SketchCanvas();
    var i := 0;
    while i < |snapshots|
      invariant 0 <= i <= |snapshots|
      invariant canvas.Valid() && !canvas.drawing
      invariant canvas.history == snapshots[..i]
    {
      canvas.StartDrawing(offsets[i]);
      canvas.StopDrawing(snapshots[i]);
      assert snapshots[..i + 1] == snapshots[..i] + [snapshots[i]];
      i := i + 1;
    }
    assert snapshots[..|snapshots|] == snapshots;
    afterStrokes := canvas.history;
    var j := 0;
    while j < |snapshots|
      invariant 0 <= j <= |snapshots|
      invariant canvas.Valid()
      invariant canvas.history == History.UndoneTimes(snapshots, j)
    {
      canvas.Undo();
      History.UndoneTimesStep(snapshots, j);
      j := j + 1;
    }
    History.UndoneTimesEmpties(snapshots, |snapshots|);
    afterUndos := canvas.history;
  }
}
