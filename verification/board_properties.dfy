/** Properties of event sequences on the board: what a whole gesture does to
    the history, how undo interacts with the two checkpoints every gesture
    leaves, why line previews do not pile up, and the text-entry round. */
module BoardProperties {
  import opened Canvas
  import opened History
  import opened TextEntry
  import opened Board

  /** A run of mouse-moves, in order. */
  function Moves(s: State, ps: seq<Point>): (r: State)
    decreases |ps|
  {
    if |ps| == 0 then s else Moves(MouseMove(s, ps[0]), ps[1..])
  }

  /** Typing a string one key press per character. */
  function TypeString(s: State, w: string): (r: State)
    decreases |w|
  {
    if |w| == 0 then s else TypeString(KeyDown(s, [w[0]]), w[1..])
  }

  /** A whole gesture: press at `p`, move through `ps`, release at `q`. */
  function Gesture(s: State, p: Point, ps: seq<Point>, q: Point): (r: State)
  {
    MouseUp(Moves(MouseDown(s, p), ps), q)
  }

  /** Mouse-moves only ever repaint the raster and extend or replace the path:
      the stacks, the gesture, the pen and the text entry are left alone. */
  lemma {:induction false} MovesTouchOnlyRaster(s: State, ps: seq<Point>)
    ensures Moves(s, ps).(timeline := Moves(s, ps).timeline.(raster := s.timeline.raster), path := s.path) == s
    decreases |ps|
  {
    if |ps| > 0 {
      MovesTouchOnlyRaster(MouseMove(s, ps[0]), ps[1..]);
    }
  }

  /** Every completed gesture checkpoints twice: the raster before it (at
      mouse-down) and the raster after it (at mouse-up). The history grows by
      exactly two and nothing is left to redo. */
  lemma GestureCheckpointsTwice(s: State, p: Point, ps: seq<Point>, q: Point)
    requires s.surface
    ensures var g := Gesture(s, p, ps, q);
      && |g.timeline.history| == |s.timeline.history| + 2
      && g.timeline.history[..|s.timeline.history|] == s.timeline.history
      && g.timeline.history[|s.timeline.history|] == s.timeline.raster
      && Top(g.timeline.history) == g.timeline.raster
      && g.timeline.redo == []
      && !g.drawing && g.anchor == None && g.surface
  {
    var d := MouseDown(s, p);
    MovesTouchOnlyRaster(d, ps);
    var m := Moves(d, ps);
    assert m.timeline.history == s.timeline.history + [s.timeline.raster];
    var g := MouseUp(m, q);
    assert g.timeline.history == m.timeline.history + [g.timeline.raster];
  }

  /** Because of the second checkpoint, the first undo after a gesture shows
      the very same raster; only the second undo takes the gesture back, to
      the raster and history from before the mouse-down. */
  lemma UndoingAGestureTakesTwo(s: State, p: Point, ps: seq<Point>, q: Point)
    requires s.surface
    ensures var g := Gesture(s, p, ps, q);
      && Board.Undo(g).timeline.raster == g.timeline.raster
      && Board.Undo(Board.Undo(g)).timeline.raster == s.timeline.raster
      && Board.Undo(Board.Undo(g)).timeline.history == s.timeline.history
  {
    GestureCheckpointsTwice(s, p, ps, q);
    var g := Gesture(s, p, ps, q);
    var n := |s.timeline.history|;
    var h := g.timeline.history;
    var u1 := Board.Undo(g);
    assert u1.surface && u1.timeline.history == h[..n + 1];
    var u2 := Board.Undo(u1);
    assert u2.timeline.raster == h[n];
    assert u2.timeline.history == h[..n];
  }

  /** Starting any new gesture throws the redo stack away: a redo right after
      a mouse-down does nothing. */
  lemma MouseDownDropsRedo(s: State, p: Point)
    requires s.surface
    ensures MouseDown(s, p).timeline.redo == []
    ensures Board.Redo(MouseDown(s, p)) == MouseDown(s, p)
  {
  }

  /** With the line tool, a move forgets the preview of the move before it. */
  lemma LinePreviewForgets(s: State, p: Point, q: Point)
    requires s.tool == Line
    ensures MouseMove(MouseMove(s, p), q) == MouseMove(s, q)
  {
  }

  /** With the line tool, the board after any non-empty run of moves is the
      board after the last move alone: previews never accumulate. */
  lemma {:induction false} LinePreviewIsLastMove(s: State, ps: seq<Point>)
    requires s.tool == Line && |ps| > 0
    ensures Moves(s, ps) == MouseMove(s, ps[|ps| - 1])
    decreases |ps|
  {
    if |ps| > 1 {
      var s1 := MouseMove(s, ps[0]);
      LinePreviewIsLastMove(s1, ps[1..]);
      LinePreviewForgets(s, ps[0], ps[|ps| - 1]);
    }
  }

  /** The committed line is drawn over the last preview without restoring the
      snapshot first: a line gesture whose release point `q` differs from the
      last move `m` leaves the preview to `m` under the line to `q`. */
  lemma LineCommitKeepsLastPreview(s: State, a: Point, ps: seq<Point>, q: Point)
    requires s.surface && s.tool == Line && |ps| > 0
    ensures var pen := s.pen.(mode := SourceOver);
      Gesture(s, a, ps, q).timeline.raster
        == Stroke(Stroke(s.timeline.raster, [a, ps[|ps| - 1]], pen), [a, q], pen)
  {
    var d := MouseDown(s, a);
    LinePreviewIsLastMove(d, ps);
  }

  /** With freehand or the eraser, each move extends the path from the
      mouse-down point, and the path is stroked whole after every move. */
  lemma {:induction false} FreehandPathGrows(s: State, ps: seq<Point>)
    requires s.surface && s.drawing && s.anchor.Some? && s.tool in {Freehand, Eraser}
    ensures Moves(s, ps).path == s.path + ps
    ensures |ps| > 0 ==>
      (&& Moves(s, ps).timeline.raster.Stroke?
       && Moves(s, ps).timeline.raster.path == s.path + ps
       && Moves(s, ps).timeline.raster.pen == s.pen)
    decreases |ps|
  {
    if |ps| > 0 {
      var s1 := MouseMove(s, ps[0]);
      FreehandPathGrows(s1, ps[1..]);
      assert s1.path + ps[1..] == s.path + ps;
    }
  }

  /** Mouse-leave stops the gesture from following the pointer but keeps its
      anchor, so a later mouse-up on the board still commits and checkpoints. */
  lemma LeaveKeepsAnchor(s: State, p: Point, q: Point)
    requires s.surface && s.anchor.Some?
    ensures MouseMove(MouseLeave(s), p) == MouseLeave(s)
    ensures MouseLeave(s).anchor == s.anchor
    ensures |MouseUp(MouseLeave(s), q).timeline.history| == |s.timeline.history| + 1
  {
  }

  /** A mouse-up without a prior mouse-down's anchor is ignored entirely. */
  lemma StrayMouseUpIgnored(s: State, q: Point)
    requires s.anchor == None
    ensures MouseUp(s, q) == s
    ensures MouseMove(s, q) == s
  {
  }

  /** Keys are ignored unless an entry is active and anchored. */
  lemma KeysNeedAnEntry(s: State, key: string)
    requires !s.text.typing || s.text.position == None
    ensures KeyDown(s, key) == s
  {
  }

  /** Escape ends the entry without touching the raster or the stacks. */
  lemma EscapeDiscards(s: State)
    requires s.surface && Active(s.text)
    ensures KeyDown(s, "Escape") == s.(text := Idle)
  {
  }

  /** Backspace on an empty entry does nothing; otherwise it drops exactly the
      last character. */
  lemma BackspaceDropsLast(s: State)
    requires s.surface && Active(s.text)
    ensures s.text.content == "" ==> KeyDown(s, "Backspace") == s
    ensures s.text.content != "" ==>
      && KeyDown(s, "Backspace").text.content + [s.text.content[|s.text.content| - 1]] == s.text.content
      && KeyDown(s, "Backspace").timeline == s.timeline
  {
  }

  /** Typing a character and then Backspace gives back the board exactly. */
  lemma TypeThenBackspace(s: State, c: char)
    requires s.surface && Active(s.text)
    ensures KeyDown(KeyDown(s, [c]), "Backspace") == s
  {
    BackspaceAfterType(s.text, c);
  }

  /** Enter draws the entry at its anchor, ends the entry and adds exactly one
      checkpoint (the raster with the text). */
  lemma EnterCommitsOnce(s: State)
    requires s.surface && Active(s.text)
    ensures var r := KeyDown(s, "Enter");
      && r.text == Idle
      && |r.timeline.history| == |s.timeline.history| + 1
      && Top(r.timeline.history) == r.timeline.raster
      && r.timeline.raster.FillText? && r.timeline.raster.under == s.timeline.raster
      && r.timeline.raster.content == s.text.content
      && Some(r.timeline.raster.at) == s.text.position
  {
  }

  /** Typing a string into an active entry appends it and touches nothing
      else on the board. */
  lemma {:induction false} TypeStringAppends(s: State, w: string)
    requires s.surface && Active(s.text)
    ensures TypeString(s, w) == s.(text := s.text.(content := s.text.content + w))
    decreases |w|
  {
    if |w| > 0 {
      var k := [w[0]];
      assert k != "Enter" && k != "Escape" && k != "Backspace";
      var s1 := s.(text := s.text.(content := s.text.content + k));
      assert KeyDown(s, k) == s1;
      TypeStringAppends(s1, w[1..]);
      assert s1.text.content + w[1..] == s.text.content + w;
    }
  }

  /** The text round: with the text tool, click at `p`, type `w`, press Enter.
      The raster is the one from before the click with `w` written at `p` in
      the user's colour; the click left two checkpoints of the old raster and
      Enter one of the new. Escape instead of Enter leaves the raster as it
      was before the click. */
  lemma TextRound(s: State, p: Point, w: string)
    requires s.surface && s.tool == Tool.Text
    ensures var typed := TypeString(MouseUp(MouseDown(s, p), p), w);
      && KeyDown(typed, "Enter").timeline.raster
           == FillText(s.timeline.raster, w, p, s.color, SourceOver)
      && KeyDown(typed, "Enter").timeline.history
           == s.timeline.history + [s.timeline.raster, s.timeline.raster, KeyDown(typed, "Enter").timeline.raster]
      && KeyDown(typed, "Enter").text == Idle
      && KeyDown(typed, "Escape").timeline.raster == s.timeline.raster
      && KeyDown(typed, "Escape").text == Idle
  {
    var clicked := MouseUp(MouseDown(s, p), p);
    assert clicked.text == Start(p);
    TypeStringAppends(clicked, w);
  }

  /** After clear, one undo shows the blank raster with nothing left to undo,
      and a second undo does nothing. */
  lemma UndoAfterClearIsBlank(s: State)
    requires s.surface
    ensures Board.Undo(Board.Clear(s)).timeline == Timeline(Blank, [], [Blank])
    ensures Board.Undo(Board.Undo(Board.Clear(s))) == Board.Undo(Board.Clear(s))
  {
  }

  /** Redo takes back an undo that had something to undo, on the whole board. */
  lemma BoardRedoAfterUndo(s: State)
    requires |s.timeline.history| > 0
    ensures Board.Redo(Board.Undo(s)) == s
  {
    RedoAfterUndo(s.timeline);
  }

  /** Selecting a tool never changes the user's colour, and a detour through
      the eraser leaves the same pen as choosing the final tool directly. */
  lemma EraserIsNotSticky(s: State, t: Tool)
    ensures SelectTool(s, Eraser).color == s.color
    ensures SelectTool(SelectTool(s, Eraser), t) == SelectTool(s, t)
  {
    RestyleForgetsEarlierTool(s.pen, Eraser, t, s.color, s.color);
  }

  /** The rectangle-then-circle walk-through: after drawing a rectangle and
      then a circle, the first undo shows the circle still (it restores the
      post-circle checkpoint), the second shows the rectangle alone, and one
      redo brings the circle back. */
  lemma RectangleThenCircle(a: Point, b: Point, c: Point, d: Point)
    ensures
      var s0 := Init(Rectangle, true);
      var s1 := MouseUp(MouseDown(s0, a), b);
      var s2 := MouseUp(MouseDown(SelectTool(s1, Tool.Circle), c), d);
      var u1 := Board.Undo(s2);
      var u2 := Board.Undo(u1);
      && u1.timeline.raster == s2.timeline.raster
      && u2.timeline.raster == s1.timeline.raster
      && Board.Redo(u2).timeline.raster == s2.timeline.raster
      && s2.timeline.raster.Arc? && s2.timeline.raster.under == s1.timeline.raster
  {
  }

  /** The board right after mount follows the stroke-style rule. */
  lemma InitFollowsPenRule(tool: Tool, contextAvailable: bool)
    ensures PenFollowsRule(Init(tool, contextAvailable))
  {
  }

  /** Every handler keeps the stroke-style rule: tool and colour changes
      restyle the pen, mouse-down only changes the composite mode, and the
      other handlers leave pen, tool and colour alone. */
  lemma HandlersKeepPenRule(s: State, e: Event)
    requires PenFollowsRule(s)
    ensures PenFollowsRule(Step(s, e))
  {
  }

  /** Whatever events have happened since mount, the pen follows the
      stroke-style rule for the tool and colour of the moment. */
  lemma {:induction false} RunKeepsPenRule(s: State, es: seq<Event>)
    requires PenFollowsRule(s)
    ensures PenFollowsRule(Run(s, es))
    decreases |es|
  {
    if |es| > 0 {
      HandlersKeepPenRule(s, es[0]);
      RunKeepsPenRule(Step(s, es[0]), es[1..]);
    }
  }

  /** On any board reached from mount, every eraser move strokes in #ffffff at
      width 20, and every freehand move in the user's colour at width 2. */
  lemma ReachableStrokesFollowRule(tool: Tool, es: seq<Event>, p: Point)
    ensures var s := Run(Init(tool, true), es);
      s.drawing && s.anchor.Some? && s.tool in {Freehand, Eraser} ==>
        var pen := MouseMove(s, p).timeline.raster.pen;
        && pen.color == (if s.tool == Eraser then EraserColor else s.color)
        && pen.width == (if s.tool == Eraser then EraserWidth else PenWidth)
  {
    InitFollowsPenRule(tool, true);
    RunKeepsPenRule(Init(tool, true), es);
  }
}
