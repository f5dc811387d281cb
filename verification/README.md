# Whiteboard draw-surface state engine, in Dafny

This project models the state engine of the whiteboard's `CanvasBoard`
component. That engine turns pointer and keyboard events into drawing on a
raster and keeps a snapshot-based undo/redo history. It has four parts:

- the two snapshot stacks, `history` and `redoStack`, with `saveToHistory`,
  `undo`, `redo` and `clear` (module `History`, on a `Timeline` of raster
  plus stacks);
- the pointer state machine, with `isDrawing`, `startPoint`, the context's
  current path and the active tool, driven by mouse-down, mouse-move,
  mouse-up and mouse-leave (module `Board`);
- the pending text entry, driven by `handleKeyDown`: Enter commits, Escape
  discards, Backspace deletes and a one-character key appends (module
  `TextEntry`, wired into `Board.KeyDown`);
- the stroke-style rule: the eraser strokes in `#ffffff` at width 20, every
  other tool in the user's colour at width 2, and the user's colour itself is
  never changed (module `Canvas`, `Restyle`).

Each handler is a pure function from one immutable `Board.State` to the
next. Lemmas about event sequences are in `BoardProperties`.

The raster is symbolic. `Canvas.Raster` is the term of drawing primitives
painted onto the blank surface (`Stroke`, `StrokeRect`, `Arc`, `FillText`),
and no pixel semantics are given. Every equality between rasters proved here
therefore holds for any rendering. Restoring a snapshot (`putImageData`)
makes the raster equal to that snapshot. Clearing (`clearRect` over the
whole canvas) gives `Blank`.

The model follows the code, including these behaviours a reader may not
expect:

- Every gesture checkpoints twice: once at mouse-down, before anything is
  drawn, and once at mouse-up, after the commit. So the first undo after a
  gesture shows the same raster, and only the second undo removes the
  gesture (`BoardProperties.UndoingAGestureTakesTwo`,
  `BoardProperties.RectangleThenCircle`). Undoing N operations takes 2N
  undos, not N.
- The line tool restores the newest snapshot before each preview. At
  mouse-up it draws the final line without restoring first. If the release
  point differs from the last move, the last preview stays under the line
  (`BoardProperties.LineCommitKeepsLastPreview`).
- Mouse-leave clears only `isDrawing`. The anchor survives, so a later
  mouse-up on the canvas still commits the shape and checkpoints
  (`BoardProperties.LeaveKeepsAnchor`).
- Freehand strokes re-stroke the whole current path after every move, and
  `Stroke` carries the whole path (`BoardProperties.FreehandPathGrows`).
- The composite mode chosen at mouse-down (erasing for the eraser) stays in
  the context. `fillText` on Enter is drawn under that mode in the user's
  colour.
- A circle's radius is a floating-point square root. The model keeps the
  squared radius instead. With pointer coordinates taken as integers (see
  "Left out"), that is an integer and determines the radius exactly.

## Model

| member | source | states |
|---|---|---|
| Canvas.Restyle | components/CanvasBoard.tsx:118-123 | the eraser strokes in #ffffff at width 20; every other tool strokes in the user's colour at width 2; the composite mode is untouched |
| Canvas.RestyleForgetsEarlierTool | components/CanvasBoard.tsx:118-123 | the pen depends only on the last tool and colour chosen, so the eraser's override does not outlive a tool change |
| Canvas.ModeFor | components/CanvasBoard.tsx:151-155 | mouse-down selects erasing compositing exactly when the tool is the eraser |
| History.Push | components/CanvasBoard.tsx:126-138 | a checkpoint puts the current raster on top of the history, keeps everything below it, leaves the raster alone and empties the redo stack |
| History.Undo | components/CanvasBoard.tsx:245-259 | no-op on an empty history; otherwise the top snapshot becomes the raster, the rest of the history stays, the old raster goes on top of the redo stack; the total stack depth is preserved |
| History.Redo | components/CanvasBoard.tsx:261-275 | the mirror of undo with the two stacks swapped, including the no-op on an empty redo stack and the preserved depth |
| History.Clear | components/CanvasBoard.tsx:277-292 | the raster is blank, the history is exactly one blank snapshot and the redo stack is empty |
| History.RedoAfterUndo | components/CanvasBoard.tsx:245-275 | redo after an undo that had a snapshot to restore gives back the raster and both stacks exactly |
| History.UndoAfterRedo | components/CanvasBoard.tsx:245-275 | undo after a redo that had a snapshot to restore gives back the raster and both stacks exactly |
| History.UndoAfterPush | components/CanvasBoard.tsx:245-259 | an undo straight after a checkpoint shows the same raster, restores the previous history and leaves that raster as the only redo entry |
| History.UndoAfterClear | components/CanvasBoard.tsx:277-292 | after clear, one undo shows the blank raster with an empty history, and a second undo changes nothing |
| History.UndoTimesShows | components/CanvasBoard.tsx:245-259 | n undos with at least n snapshots show the snapshot n places from the top, keep the history below it and put exactly n rasters on the redo stack |
| History.RedoTimesAfterUndoTimes | components/CanvasBoard.tsx:245-275 | n undos followed by n redos restore raster and both stacks exactly whenever the history held at least n snapshots |
| TextEntry.Start | components/CanvasBoard.tsx:204-209 | a text-tool release starts an active entry anchored at the release point with empty content |
| TextEntry.OnKey | components/CanvasBoard.tsx:218-243 | keys are ignored without an active anchored entry; exactly Enter on an active entry commits its content at its anchor; Escape returns to the idle entry; Backspace drops the last character or does nothing on empty content; edits keep the flag and the anchor |
| TextEntry.OtherKeys | components/CanvasBoard.tsx:237-242 | on an active entry, a one-character key other than the control keys is appended and any longer key is ignored |
| TextEntry.BackspaceAfterType | components/CanvasBoard.tsx:229-242 | Backspace right after typing one character restores the entry exactly |
| Board.Init | components/CanvasBoard.tsx:103-116 | after mount the raster is blank, both stacks are empty, no gesture or entry is in progress, and with a context the pen follows the stroke-style rule for the initial tool and black |
| Board.SelectTool | components/CanvasBoard.tsx:118-123 | a tool change keeps the user's colour and everything else, and restyles the pen when a context exists |
| Board.PickColor | components/CanvasBoard.tsx:338-342 | a colour change keeps the tool and everything else, and restyles the pen when a context exists |
| Board.MouseDown | components/CanvasBoard.tsx:140-158 | without a context nothing happens; otherwise the gesture starts anchored at the point with a fresh path there, the composite mode follows the tool, and the pre-gesture raster is checkpointed with the redo stack emptied |
| Board.Save | components/CanvasBoard.tsx:126-138 | with a context the raster is checkpointed and the redo stack emptied; without one nothing happens; nothing else on the board changes |
| Board.PreviewBase | components/CanvasBoard.tsx:169-174 | the line preview is drawn over the newest snapshot, or over the cleared surface when the history is empty |
| Board.MouseMove | components/CanvasBoard.tsx:160-181 | nothing happens without a context, an active gesture and an anchor; only the raster and the path ever change; freehand and eraser extend the path and stroke it whole; line strokes anchor-to-point over the newest snapshot; rectangle, circle and text do nothing |
| Board.Commit | components/CanvasBoard.tsx:188-210 | the rectangle is spanned by anchor and release point, the circle is centred on the anchor through the release point, the line runs from anchor to release point, and the other tools paint nothing |
| Board.MouseUp | components/CanvasBoard.tsx:183-216 | nothing happens without a context or an anchor; otherwise the shape is committed, the text tool starts an entry at the release point, the gesture and path are reset, and exactly one checkpoint of the committed raster is pushed with the redo stack emptied |
| Board.MouseLeave | components/CanvasBoard.tsx:320 | only isDrawing changes, to false; the anchor and everything else stay |
| Board.KeyDown | components/CanvasBoard.tsx:218-243 | without a context or an active entry nothing happens; Enter paints the entry at its anchor in the user's colour, ends it and checkpoints the result; every other key leaves raster and stacks alone and only edits the entry |
| Board.Undo | components/CanvasBoard.tsx:245-259 | with a context the history undo applies; nothing else on the board changes |
| Board.Redo | components/CanvasBoard.tsx:261-275 | with a context the history redo applies; nothing else on the board changes; an undo right after a redo that had something to redo gives back the board exactly |
| Board.Clear | components/CanvasBoard.tsx:277-292 | with a context the raster becomes blank with a history of one blank snapshot and no redo; gesture, path and entry are untouched |
| Board.Step | components/CanvasBoard.tsx:304-350 | each event goes to its handler, and no event gains or loses the drawing context |
| Board.Run | components/CanvasBoard.tsx:304-350 | handling any sequence of events keeps whether the drawing context exists |
| BoardProperties.InitFollowsPenRule | components/CanvasBoard.tsx:103-123 | right after mount the pen follows the stroke-style rule for the initial tool and colour |
| BoardProperties.HandlersKeepPenRule | components/CanvasBoard.tsx:118-123 | every handler keeps the pen in line with the stroke-style rule for the current tool and colour |
| BoardProperties.RunKeepsPenRule | components/CanvasBoard.tsx:118-123 | after any sequence of events the pen still follows the stroke-style rule |
| BoardProperties.ReachableStrokesFollowRule | components/CanvasBoard.tsx:118-123 | on any board reached from mount, an eraser move strokes in #ffffff at width 20 and a freehand move in the user's colour at width 2 |
| BoardProperties.MovesTouchOnlyRaster | components/CanvasBoard.tsx:160-181 | any run of mouse-moves leaves stacks, gesture, pen, tool, colour and entry unchanged |
| BoardProperties.GestureCheckpointsTwice | components/CanvasBoard.tsx:140-216 | a complete gesture grows the history by exactly two (the raster before it, then the raster after it) on top of the old history and leaves the redo stack empty |
| BoardProperties.UndoingAGestureTakesTwo | components/CanvasBoard.tsx:245-259 | the first undo after a gesture shows the same raster; the second restores the raster and history from before the mouse-down |
| BoardProperties.MouseDownDropsRedo | components/CanvasBoard.tsx:126-138 | a new mouse-down empties the redo stack, so a redo right after it does nothing |
| BoardProperties.LinePreviewForgets | components/CanvasBoard.tsx:168-180 | with the line tool, two moves in a row give the same board as the second move alone |
| BoardProperties.LinePreviewIsLastMove | components/CanvasBoard.tsx:168-180 | with the line tool, any non-empty run of moves gives the board of its last move alone, so previews never accumulate |
| BoardProperties.LineCommitKeepsLastPreview | components/CanvasBoard.tsx:199-203 | a committed line is drawn over the last preview, not over the restored snapshot |
| BoardProperties.FreehandPathGrows | components/CanvasBoard.tsx:165-167 | with freehand or the eraser, each move appends its point to the path and the raster is the whole path stroked with the current pen |
| BoardProperties.LeaveKeepsAnchor | components/CanvasBoard.tsx:320 | after mouse-leave moves are ignored but the anchor remains, and a later mouse-up still pushes one checkpoint |
| BoardProperties.StrayMouseUpIgnored | components/CanvasBoard.tsx:184 | mouse-up and mouse-move without an anchor change nothing |
| BoardProperties.KeysNeedAnEntry | components/CanvasBoard.tsx:219 | no key has any effect unless the entry is typing and anchored |
| BoardProperties.EscapeDiscards | components/CanvasBoard.tsx:227-228 | Escape resets the entry and leaves raster and stacks exactly as they were |
| BoardProperties.BackspaceDropsLast | components/CanvasBoard.tsx:229-236 | Backspace on empty content changes nothing; otherwise it removes exactly the last character and leaves raster and stacks alone |
| BoardProperties.TypeThenBackspace | components/CanvasBoard.tsx:229-242 | typing one character and pressing Backspace gives back the whole board |
| BoardProperties.EnterCommitsOnce | components/CanvasBoard.tsx:221-226 | Enter ends the entry, paints its content at its anchor over the current raster and pushes exactly one checkpoint, of the painted raster |
| BoardProperties.TypeStringAppends | components/CanvasBoard.tsx:237-242 | typing a string key by key into an active entry appends the string and changes nothing else |
| BoardProperties.TextRound | components/CanvasBoard.tsx:204-228 | text tool, click, type, Enter paints the typed text at the click point over the pre-click raster in the user's colour, with two checkpoints from the click and one from Enter; Escape instead leaves the pre-click raster |
| BoardProperties.UndoAfterClearIsBlank | components/CanvasBoard.tsx:277-292 | on the board, undo after clear shows blank with empty history, and a second undo does nothing |
| BoardProperties.BoardRedoAfterUndo | components/CanvasBoard.tsx:245-275 | on the board, redo after an undo that restored a snapshot gives back the whole state |
| BoardProperties.EraserIsNotSticky | components/CanvasBoard.tsx:118-123 | choosing the eraser keeps the user's colour, and choosing another tool afterwards gives the same state as choosing it directly |
| BoardProperties.RectangleThenCircle | components/CanvasBoard.tsx:245-275 | after a rectangle and then a circle, the first undo still shows the circle, the second shows the rectangle alone, and one redo brings the circle back |

## Left out

- Persistence is not modelled: `saveCanvasState`, `loadCanvasState`, the storage-event listener, and the direct storage write in `clear` (components/CanvasBoard.tsx:44-101, 294-300). They depend on browser storage, JSON, `toDataURL` and image decoding. The restore path also draws images before they have loaded, so the code does not guarantee a faithful round trip.
- The saved history list comes from the callback's captured `history`, not from the just-pushed one. This follows from React's stale closures and asynchronous state batching, which are not modelled. Each handler is one atomic step over the latest state.
- Pixel semantics are not modelled: `strokeRect`, `arc`, `fillText`, compositing, `lineCap`, the 16px font and the canvas size set at mount. Drawing primitives are constructors of a symbolic raster.
- Pointer coordinates (`offsetX`, `offsetY`) are taken as integers. In the browser they are floating-point numbers and may be fractional. No stack or text-entry property depends on this. It only matters for the shape geometry kept in the raster terms.
- `preventDefault` on Backspace and the blinking text preview are not modelled, because they are browser and rendering effects.
- `canvasRef.current` and `context` being null are merged into one flag, `surface`. Both are acquired together at mount.
- TextEntry.OnKey: a key counts as one character when it is one Unicode code point. The source's `e.key.length === 1` counts UTF-16 code units, so a key outside the Basic Multilingual Plane is appended here but ignored by the source. Backspace likewise drops one code point here but one code unit in the source.
- Board.Commit: it states that freehand, eraser and text paint nothing. It does not state the converse, that the shape tools always change the raster term.
