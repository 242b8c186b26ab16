/**
 * The undo history shared by the three drawing components (SketchPage,
 * DrawingView and SketchCanvas): one snapshot of the canvas per finished
 * stroke, oldest first. Snapshots are opaque tokens; the functions here say
 * how a stroke, an undo and a clear change the list, and the lemmas say how
 * those changes combine.
 */
module History {
  import opened Wrappers

  /** What the canvas is painted from for a given history: its newest
      snapshot, or the bare background (None) when the history is empty. */
  function Newest<T>(h: seq<T>): (r: Option<T>)
    ensures r.None? <==> |h| == 0
    ensures r.Some? ==> r.value == h[|h| - 1]
  {
    if |h| == 0 then None else Some(h[|h| - 1])
  }

  /** The history after a stroke ends and `snapshot` is captured
      (`[...prev, snapshot]`). */
  function Recorded<T>(h: seq<T>, snapshot: T): (r: seq<T>)
    ensures |r| == |h| + 1
    ensures r[..|h|] == h
    ensures Newest(r) == Some(snapshot)
  {
    h + [snapshot]
  }

  /** The history after one undo: a history of at most one entry is
      cleared; a longer one loses exactly its newest entry
      (`history.slice(0, -1)`). */
  function Undone<T>(h: seq<T>): (r: seq<T>)
    ensures |h| <= 1 ==> r == []
    ensures |h| > 1 ==> r + [h[|h| - 1]] == h
  {
    if |h| <= 1 then [] else h[..|h| - 1]
  }

  /** The history after `n` undos in a row. */
  function UndoneTimes<T>(h: seq<T>, n: nat): seq<T>
    decreases n
  {
    if n == 0 then h else UndoneTimes(Undone(h), n - 1)
  }

  /** One more undo after `n` undos is `n + 1` undos: the undos can be
      applied one call at a time. */
  lemma {:induction false} UndoneTimesStep<T>(h: seq<T>, n: nat)
    ensures UndoneTimes(h, n + 1) == Undone(UndoneTimes(h, n))
    decreases n
  {
    if n > 0 {
      UndoneTimesStep(Undone(h), n - 1);
    }
  }

  /** The history after a run of strokes, one `Recorded` per snapshot. */
  function RecordedAll<T>(h: seq<T>, snapshots: seq<T>): seq<T>
    decreases |snapshots|
  {
    if |snapshots| == 0 then h else RecordedAll(Recorded(h, snapshots[0]), snapshots[1..])
  }

  /** A run of strokes appends its snapshots, in order, after the old history. */
  lemma {:induction false} RecordedAllAppends<T>(h: seq<T>, snapshots: seq<T>)
    ensures RecordedAll(h, snapshots) == h + snapshots
    decreases |snapshots|
  {
    if |snapshots| > 0 {
      RecordedAllAppends(Recorded(h, snapshots[0]), snapshots[1..]);
      assert h + [snapshots[0]] + snapshots[1..] == h + snapshots;
    }
  }

  /** Undo takes back exactly the stroke recorded last, whatever the history
      held before it (for an empty history the one-entry rule clears). */
  lemma UndoRevertsStroke<T>(h: seq<T>, snapshot: T)
    ensures Undone(Recorded(h, snapshot)) == h
  {
    assert (h + [snapshot])[..|h|] == h;
  }

  /** Undo keeps a prefix of the history and removes one entry, or none when
      there was nothing to remove. */
  lemma {:induction false} UndoneTimesIsPrefix<T>(h: seq<T>, n: nat)
    ensures |UndoneTimes(h, n)| == if n >= |h| then 0 else |h| - n
    ensures UndoneTimes(h, n) == h[..|UndoneTimes(h, n)|]
    decreases n
  {
    if n > 0 {
      var u := Undone(h);
      UndoneTimesIsPrefix(u, n - 1);
      var r := UndoneTimes(u, n - 1);
      if |h| > 1 {
        assert u == h[..|h| - 1];
        assert r == u[..|r|];
        assert u[..|r|] == h[..|r|];
      }
    }
  }

  /** Enough undos always end at the empty history, and more undos keep it
      empty. */
  lemma UndoneTimesEmpties<T>(h: seq<T>, n: nat)
    requires n >= |h|
    ensures UndoneTimes(h, n) == []
  {
    UndoneTimesIsPrefix(h, n);
  }

  /** `n` strokes followed by `n` undos give back the history from before the
      strokes. */
  lemma {:induction false} UndoRevertsStrokes<T>(h: seq<T>, snapshots: seq<T>)
    ensures UndoneTimes(RecordedAll(h, snapshots), |snapshots|) == h
    decreases |snapshots|
  {
    RecordedAllAppends(h, snapshots);
    if |snapshots| > 0 {
      var n := |snapshots|;
      var front := snapshots[..n - 1];
      assert h + snapshots == Recorded(h + front, snapshots[n - 1]);
      UndoRevertsStroke(h + front, snapshots[n - 1]);
      RecordedAllAppends(h, front);
      UndoRevertsStrokes(h, front);
    }
  }

  /** From a blank canvas, `N` strokes leave `N` entries; `N` undos return to
      the blank canvas and an extra undo keeps it blank. */
  lemma StrokesThenUndosReturnToBlank<T>(snapshots: seq<T>)
    ensures |RecordedAll([], snapshots)| == |snapshots|
    ensures UndoneTimes(RecordedAll([], snapshots), |snapshots|) == []
    ensures UndoneTimes(RecordedAll([], snapshots), |snapshots| + 1) == []
  {
    RecordedAllAppends([], snapshots);
    UndoRevertsStrokes([], snapshots);
    UndoneTimesEmpties(RecordedAll([], snapshots), |snapshots| + 1);
  }
}
