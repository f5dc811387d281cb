/** The draw-surface controller of CanvasBoard: one pure transition per event
    handler, over an immutable record of everything the handlers read or
    write. React's state updates are taken to have landed before the next
    event, so each handler is one atomic step. */
module Board {
  import opened Canvas
  import opened History
  import opened TextEntry

  /** `surface` says whether the 2D context was acquired at mount; without it
      every handler except mouse-leave does nothing. `path` is the context's
      current path, which `stroke()` paints in full. `drawing` and `anchor`
      are isDrawing and startPoint. */
  datatype State = State(
    surface: bool,
    tool: Tool,
    color: Color,
    pen: Pen,
    timeline: Timeline,
    path: seq<Point>,
    drawing: bool,
    anchor: Option<Point>,
    text: TextState)

  /** The board right after mount: a blank raster, empty stacks, no gesture
      and no text entry. A fresh context strokes with a black one-pixel pen
      until it is set up. */
  function Init(tool: Tool, contextAvailable: bool): (s: State)
    ensures s.surface == contextAvailable && s.tool == tool && s.color == DefaultColor
    ensures s.timeline == Timeline(Blank, [], [])
    ensures !s.drawing && s.anchor == None && s.path == [] && s.text == Idle
    ensures s.pen.mode == SourceOver
    ensures contextAvailable ==>
      s.pen.color == (if tool == Eraser then EraserColor else DefaultColor)
      && s.pen.width == (if tool == Eraser then EraserWidth else PenWidth)
  {
    var initial := Pen(DefaultColor, 1, SourceOver);
    var pen := if contextAvailable then Restyle(initial.(width := PenWidth), tool, DefaultColor) else initial;
    State(contextAvailable, tool, DefaultColor, pen, Timeline(Blank, [], []), [], false, None, Idle)
  }

  /** A new tool from the toolbar; the stroke-style effect re-runs. */
  function SelectTool(s: State, t: Tool): (r: State)
    ensures r.tool == t && r.color == s.color
    ensures r.surface ==> r.pen == Restyle(s.pen, t, s.color)
    ensures !r.surface ==> r.pen == s.pen
    ensures r.(tool := s.tool, pen := s.pen) == s
  {
    s.(tool := t, pen := if s.surface then Restyle(s.pen, t, s.color) else s.pen)
  }

  /** A new colour from the colour picker; the stroke-style effect re-runs. */
  function PickColor(s: State, c: Color): (r: State)
    ensures r.color == c && r.tool == s.tool
    ensures r.surface ==> r.pen == Restyle(s.pen, s.tool, c)
    ensures !r.surface ==> r.pen == s.pen
    ensures r.(color := s.color, pen := s.pen) == s
  {
    s.(color := c, pen := if s.surface then Restyle(s.pen, s.tool, c) else s.pen)
  }

  /** saveToHistory on the board: with a context, checkpoint the raster;
      nothing else on the board changes. */
  function Save(s: State): (r: State)
    ensures !s.surface ==> r == s
    ensures s.surface ==> r.timeline == Push(s.timeline)
    ensures r.(timeline := s.timeline) == s
  {
    if s.surface then s.(timeline := Push(s.timeline)) else s
  }

  /** Mouse-down at `p`: start a gesture anchored at `p`, open a fresh path
      there, pick the composite mode for the tool, and checkpoint the raster
      as it was before the gesture. */
  function MouseDown(s: State, p: Point): (r: State)
    ensures !s.surface ==> r == s
    ensures s.surface ==>
      && r.drawing && r.anchor == Some(p) && r.path == [p]
      && r.pen == s.pen.(mode := ModeFor(s.tool))
      && r.timeline == Push(s.timeline)
      && r.text == s.text && r.tool == s.tool && r.color == s.color
  {
    if !s.surface then s
    else
      s.(drawing := true, anchor := Some(p), path := [p],
         pen := s.pen.(mode := ModeFor(s.tool)),
         timeline := Push(s.timeline))
  }

  /** The raster a line preview is drawn over: the newest snapshot, or the
      cleared surface when there is none. */
  function PreviewBase(t: Timeline): (r: Raster)
    ensures |t.history| > 0 ==> r == Top(t.history)
    ensures |t.history| == 0 ==> r == Blank
  {
    if |t.history| > 0 then Top(t.history) else Blank
  }

  /** Mouse-move to `p`. Freehand and eraser extend the path and stroke it;
      line redraws its preview from the newest snapshot; the other tools wait
      for mouse-up. Only the raster and the path ever change. */
  function MouseMove(s: State, p: Point): (r: State)
    ensures !s.surface || !s.drawing || s.anchor == None ==> r == s
    ensures r.(timeline := r.timeline.(raster := s.timeline.raster), path := s.path) == s
    ensures s.surface && s.drawing && s.anchor.Some? && (s.tool == Freehand || s.tool == Eraser) ==>
      r.path == s.path + [p] && r.timeline.raster == Stroke(s.timeline.raster, r.path, s.pen)
    ensures s.surface && s.drawing && s.anchor.Some? && s.tool == Line ==>
      r.path == [s.anchor.value, p] && r.timeline.raster == Stroke(PreviewBase(s.timeline), r.path, s.pen)
    ensures s.tool in {Rectangle, Circle, Text} ==> r == s
  {
    if !s.surface || !s.drawing || s.anchor == None then s
    else if s.tool == Freehand || s.tool == Eraser then
      var path := s.path + [p];
      s.(path := path, timeline := s.timeline.(raster := Stroke(s.timeline.raster, path, s.pen)))
    else if s.tool == Line then
      var path := [s.anchor.value, p];
      s.(path := path, timeline := s.timeline.(raster := Stroke(PreviewBase(s.timeline), path, s.pen)))
    else s
  }

  /** What mouse-up paints for the active tool, given the anchor `a` and the
      release point `p`: a rectangle spanned by the two points, a circle
      about `a` through `p`, a straight line from `a` to `p`, or nothing. */
  function Commit(tool: Tool, r: Raster, a: Point, p: Point, pen: Pen): (c: Raster)
    ensures tool in {Freehand, Eraser, Text} ==> c == r
    ensures tool == Rectangle ==>
      (c.StrokeRect? && c.under == r && c.x == a.x && c.y == a.y
       && c.x + c.w == p.x && c.y + c.h == p.y && c.pen == pen)
    ensures tool == Circle ==>
      (c.Arc? && c.under == r && c.center == a
       && c.radiusSquared == Square(p.x - a.x) + Square(p.y - a.y) && c.pen == pen)
    ensures tool == Line ==> c == Stroke(r, [a, p], pen)
  {
    match tool
    case Rectangle => StrokeRect(r, a.x, a.y, p.x - a.x, p.y - a.y, pen)
    case Circle => Arc(r, a, Square(p.x - a.x) + Square(p.y - a.y), pen)
    case Line => Stroke(r, [a, p], pen)
    case _ => r
  }

  /** Mouse-up at `p`: commit the shape (or, for the text tool, start a text
      entry at `p`), end the gesture, reset the path, and checkpoint the
      raster as it is after the commit. It looks only at the anchor, not at
      `drawing`, so a gesture abandoned by mouse-leave still commits here. */
  function MouseUp(s: State, p: Point): (r: State)
    ensures !s.surface || s.anchor == None ==> r == s
    ensures s.surface && s.anchor.Some? ==>
      && !r.drawing && r.anchor == None && r.path == []
      && |r.timeline.history| == |s.timeline.history| + 1
      && Pop(r.timeline.history) == s.timeline.history
      && Top(r.timeline.history) == r.timeline.raster
      && r.timeline.raster == Commit(s.tool, s.timeline.raster, s.anchor.value, p, s.pen)
      && r.timeline.redo == []
      && r.text == (if s.tool == Text then Start(p) else s.text)
      && r.pen == s.pen && r.tool == s.tool && r.color == s.color && r.surface
  {
    if !s.surface || s.anchor == None then s
    else
      var raster := Commit(s.tool, s.timeline.raster, s.anchor.value, p, s.pen);
      var text := if s.tool == Text then Start(p) else s.text;
      var done := s.(timeline := s.timeline.(raster := raster), text := text,
                     drawing := false, anchor := None, path := []);
      Save(done)
  }

  /** Mouse-leave: the gesture stops tracking moves; the anchor is kept. */
  function MouseLeave(s: State): (r: State)
    ensures !r.drawing
    ensures r.(drawing := s.drawing) == s
  {
    s.(drawing := false)
  }

  /** A key press while the board has focus. Enter fills the typed text at
      the anchor in the user's colour (under the current composite mode),
      ends the entry and checkpoints; every other key only edits the entry. */
  function KeyDown(s: State, key: string): (r: State)
    ensures !s.surface || !Active(s.text) ==> r == s
    ensures r.(timeline := s.timeline, text := s.text) == s
    ensures s.surface && Active(s.text) && key == "Enter" ==>
      && r.text == Idle
      && r.timeline.raster == FillText(s.timeline.raster, s.text.content, s.text.position.value, s.color, s.pen.mode)
      && r.timeline.history == s.timeline.history + [r.timeline.raster]
      && r.timeline.redo == []
    ensures key != "Enter" ==> r.timeline == s.timeline
  {
    if !s.surface then s
    else
      match OnKey(s.text, key)
      case Ignore => s
      case Become(next) => s.(text := next)
      case Commit(content, at) =>
        var raster := FillText(s.timeline.raster, content, at, s.color, s.pen.mode);
        Save(s.(text := Idle, timeline := s.timeline.(raster := raster)))
  }

  /** The toolbar's undo command. */
  function Undo(s: State): (r: State)
    ensures !s.surface ==> r == s
    ensures s.surface ==> r.timeline == History.Undo(s.timeline)
    ensures r.(timeline := s.timeline) == s
  {
    if s.surface then s.(timeline := History.Undo(s.timeline)) else s
  }

  /** The toolbar's redo command. Whenever it has something to redo, an undo
      right after it gives the board back. */
  function Redo(s: State): (r: State)
    ensures !s.surface ==> r == s
    ensures s.surface ==> r.timeline == History.Redo(s.timeline)
    ensures r.(timeline := s.timeline) == s
    ensures |s.timeline.redo| > 0 ==> Undo(r) == s
  {
    if s.surface then s.(timeline := History.Redo(s.timeline)) else s
  }

  /** The toolbar's clear command: blank raster, history of one blank
      snapshot, nothing to redo. Gesture, path and text entry are untouched. */
  function Clear(s: State): (r: State)
    ensures !s.surface ==> r == s
    ensures s.surface ==> r.timeline == Timeline(Blank, [Blank], [])
    ensures r.(timeline := s.timeline) == s
  {
    if s.surface then s.(timeline := History.Clear(s.timeline)) else s
  }

  /** The stroke-style rule as it shows in the context: with a context, the
      pen strokes in #ffffff at width 20 for the eraser and in the user's
      colour at width 2 for every other tool. */
  predicate PenFollowsRule(s: State)
  {
    s.surface ==>
      && s.pen.color == (if s.tool == Eraser then EraserColor else s.color)
      && s.pen.width == (if s.tool == Eraser then EraserWidth else PenWidth)
  }

  /** The events the board reacts to: the canvas's mouse handlers, key
      presses on the focused board, the toolbar's tool selection and
      commands, and the colour picker. */
  datatype Event =
    | Down(p: Point)
    | Move(p: Point)
    | Up(p: Point)
    | Leave
    | Key(key: string)
    | ChooseTool(tool: Tool)
    | ChooseColor(color: Color)
    | UndoCommand
    | RedoCommand
    | ClearCommand

  /** Dispatch of one event to its handler. */
  function Step(s: State, e: Event): (r: State)
    ensures r.surface == s.surface
  {
    match e
    case Down(p) => MouseDown(s, p)
    case Move(p) => MouseMove(s, p)
    case Up(p) => MouseUp(s, p)
    case Leave => MouseLeave(s)
    case Key(k) => KeyDown(s, k)
    case ChooseTool(t) => SelectTool(s, t)
    case ChooseColor(c) => PickColor(s, c)
    case UndoCommand => Undo(s)
    case RedoCommand => Redo(s)
    case ClearCommand => Clear(s)
  }

  /** A sequence of events, handled in order. */
  function Run(s: State, es: seq<Event>): (r: State)
    ensures r.surface == s.surface
    decreases |es|
  {
    if |es| == 0 then s else Run(Step(s, es[0]), es[1..])
  }
}
