/** The drawing surface's vocabulary: points, tools, the pen held by the 2D
    context, and the raster, kept symbolic.

    A raster is never inspected pixel by pixel. It is the term built from the
    blank surface by the drawing primitives the board issues, one constructor
    per primitive. Nothing is assumed about how a term maps to pixels, so every
    equality between rasters proved elsewhere holds for any rendering. */
module Canvas {

  datatype Option<T> = None | Some(value: T)

  /** A pointer position in canvas pixels (the event's offsetX/offsetY). */
  datatype Point = Point(x: int, y: int)

  /** The six tools the toolbar can select; exactly one is active. */
  datatype Tool = Freehand | Rectangle | Circle | Text | Line | Eraser

  /** CSS colour strings such as "#000000". */
  type Color = string

  /** The context's globalCompositeOperation: plain painting, or erasing. */
  datatype Composite = SourceOver | DestinationOut

  /** The stroke state of the 2D context: strokeStyle, lineWidth and
      globalCompositeOperation. */
  datatype Pen = Pen(color: Color, width: nat, mode: Composite)

  /** The user's initial colour choice. */
  const DefaultColor: Color := "#000000"
  /** The colour and width the eraser strokes with. */
  const EraserColor: Color := "#ffffff"
  const EraserWidth: nat := 20
  /** The width every other tool strokes with. */
  const PenWidth: nat := 2

  /** A raster as the sequence of primitives painted onto the blank surface.
      `Stroke` strokes a polyline (the context's current path); `StrokeRect`
      has a corner and a signed size; `Arc` is a full circle whose radius is
      the square root of `radiusSquared`; `FillText` writes in the fixed 16px
      sans-serif font. */
  datatype Raster =
    | Blank
    | Stroke(under: Raster, path: seq<Point>, pen: Pen)
    | StrokeRect(under: Raster, x: int, y: int, w: int, h: int, pen: Pen)
    | Arc(under: Raster, center: Point, radiusSquared: nat, pen: Pen)
    | FillText(under: Raster, content: string, at: Point, fill: Color, mode: Composite)

  /** The stroke-style effect: the eraser overrides colour and width with its
      own; every other tool strokes in the user's colour at the normal width.
      The composite mode is not this rule's business and is left as it was. */
  function Restyle(pen: Pen, tool: Tool, color: Color): (r: Pen)
    ensures r.mode == pen.mode
    ensures tool == Eraser ==> r.color == EraserColor && r.width == EraserWidth
    ensures tool != Eraser ==> r.color == color && r.width == PenWidth
  {
    if tool == Eraser then pen.(color := EraserColor, width := EraserWidth)
    else pen.(color := color, width := PenWidth)
  }

  /** Restyling depends only on the last tool and colour chosen: a detour
      through the eraser leaves no trace in the pen. */
  lemma RestyleForgetsEarlierTool(pen: Pen, t1: Tool, t2: Tool, c1: Color, c2: Color)
    ensures Restyle(Restyle(pen, t1, c1), t2, c2) == Restyle(pen, t2, c2)
  {
  }

  /** The composite mode mouse-down selects: erasing for the eraser, painting
      for everything else. */
  function ModeFor(tool: Tool): (m: Composite)
    ensures m == DestinationOut <==> tool == Eraser
  {
    if tool == Eraser then DestinationOut else SourceOver
  }

  function Square(n: int): (sq: nat)
  {
    n * n
  }
}
