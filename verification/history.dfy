/** The snapshot-based undo/redo history: the visible raster together with
    the `history` stack (snapshots to go back to) and the `redoStack`
    (snapshots undone and available again). The top of each stack is its
    last element. */
module History {
  import opened Canvas

  datatype Timeline = Timeline(raster: Raster, history: seq<Raster>, redo: seq<Raster>)

  function Top(s: seq<Raster>): (r: Raster)
    requires |s| > 0
  {
    s[|s| - 1]
  }

  function Pop(s: seq<Raster>): (r: seq<Raster>)
    requires |s| > 0
  {
    s[..|s| - 1]
  }

  /** Total number of snapshots held by both stacks. */
  function Depth(t: Timeline): (d: nat)
  {
    |t.history| + |t.redo|
  }

  /** saveToHistory: snapshot the current raster on top of the history and
      drop whatever could have been redone. */
  function Push(t: Timeline): (r: Timeline)
    ensures r.raster == t.raster
    ensures |r.history| == |t.history| + 1
    ensures Top(r.history) == t.raster && Pop(r.history) == t.history
    ensures r.redo == []
  {
    Timeline(t.raster, t.history + [t.raster], [])
  }

  /** undo: nothing to go back to means nothing happens; otherwise the current
      raster moves to the redo stack and the top snapshot becomes the raster. */
  function Undo(t: Timeline): (r: Timeline)
    ensures |t.history| == 0 ==> r == t
    ensures |t.history| > 0 ==>
      && r.raster == Top(t.history)
      && r.history == Pop(t.history)
      && |r.redo| > 0 && Top(r.redo) == t.raster && Pop(r.redo) == t.redo
    ensures Depth(r) == Depth(t)
  {
    if |t.history| == 0 then t
    else Timeline(Top(t.history), Pop(t.history), t.redo + [t.raster])
  }

  /** redo: the mirror image of undo, with the two stacks swapped. */
  function Redo(t: Timeline): (r: Timeline)
    ensures |t.redo| == 0 ==> r == t
    ensures |t.redo| > 0 ==>
      && r.raster == Top(t.redo)
      && r.redo == Pop(t.redo)
      && |r.history| > 0 && Top(r.history) == t.raster && Pop(r.history) == t.history
    ensures Depth(r) == Depth(t)
  {
    if |t.redo| == 0 then t
    else Timeline(Top(t.redo), t.history + [t.raster], Pop(t.redo))
  }

  /** clear: a hard reset to the blank surface, whose only way back is the
      blank surface itself. */
  function Clear(t: Timeline): (r: Timeline)
    ensures r.raster == Blank && r.history == [Blank] && r.redo == []
    ensures Depth(r) == 1
  {
    Timeline(Blank, [Blank], [])
  }

  /** Redo undoes an undo that had something to undo. */
  lemma RedoAfterUndo(t: Timeline)
    requires |t.history| > 0
    ensures Redo(Undo(t)) == t
  {
  }

  /** Undo undoes a redo that had something to redo. */
  lemma UndoAfterRedo(t: Timeline)
    requires |t.redo| > 0
    ensures Undo(Redo(t)) == t
  {
  }

  /** Undoing straight after a push shows the very raster that was pushed:
      the history is back where it was and the redo stack holds that raster. */
  lemma UndoAfterPush(t: Timeline)
    ensures Undo(Push(t)) == Timeline(t.raster, t.history, [t.raster])
  {
  }

  /** After a clear, one undo lands on the blank snapshot with nothing left to
      undo, and a second undo changes nothing. */
  lemma UndoAfterClear(t: Timeline)
    ensures Undo(Clear(t)) == Timeline(Blank, [], [Blank])
    ensures Undo(Undo(Clear(t))) == Undo(Clear(t))
  {
  }

  /** `n` successive undos. */
  function UndoTimes(t: Timeline, n: nat): (r: Timeline)
    decreases n
  {
    if n == 0 then t else UndoTimes(Undo(t), n - 1)
  }

  /** `n` successive redos. */
  function RedoTimes(t: Timeline, n: nat): (r: Timeline)
    decreases n
  {
    if n == 0 then t else RedoTimes(Redo(t), n - 1)
  }

  /** Undoing `n` times, with at least `n` snapshots to go back to, shows the
      snapshot `n` places from the top, keeps the history below it, and moves
      exactly `n` rasters onto the redo stack. */
  lemma {:induction false} UndoTimesShows(t: Timeline, n: nat)
    requires 0 < n <= |t.history|
    ensures UndoTimes(t, n).raster == t.history[|t.history| - n]
    ensures UndoTimes(t, n).history == t.history[..|t.history| - n]
    ensures |UndoTimes(t, n).redo| == |t.redo| + n
    decreases n
  {
    if n > 1 {
      UndoTimesShows(Undo(t), n - 1);
    }
  }

  /** The last of `n` undos can be split off. */
  lemma {:induction false} UndoTimesLast(t: Timeline, n: nat)
    requires n > 0
    ensures UndoTimes(t, n) == Undo(UndoTimes(t, n - 1))
    decreases n
  {
    if n > 1 {
      UndoTimesLast(Undo(t), n - 1);
    }
  }

  /** The undo/redo inverse law: `n` undos followed by `n` redos restore the
      raster and both stacks exactly, as long as there were `n` snapshots to
      undo. */
  lemma {:induction false} RedoTimesAfterUndoTimes(t: Timeline, n: nat)
    requires n <= |t.history|
    ensures RedoTimes(UndoTimes(t, n), n) == t
    decreases n
  {
    if n > 0 {
      var u := UndoTimes(t, n - 1);
      UndoTimesLast(t, n);
      if n > 1 {
        UndoTimesShows(t, n - 1);
      }
      assert |u.history| > 0;
      RedoAfterUndo(u);
      RedoTimesAfterUndoTimes(t, n - 1);
    }
  }
}
