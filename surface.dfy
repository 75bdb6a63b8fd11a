/**
 * The drawing surface of the studio page. Its pixels are produced by the
 * browser's canvas and cannot be seen from here, so the canvas is modelled as
 * the sequence of paint operations applied to it since it was sized; a
 * snapshot (the source's ImageData) is one such value.
 */
module Surface {
  import opened Wrappers
  import opened Geometry

  /** The dark background the canvas is filled with, also the eraser's colour. */
  const Background: string := "#1a1a2e"

  /** The colour selected when the page opens. */
  const InitialColor: string := "#ffffff"

  /** The tools of the left-hand panel. */
  datatype Tool = Pencil | Eraser | Square | Circle | Triangle

  /** The tools that stamp a shape on a click rather than draw a stroke. */
  predicate IsShapeTool(t: Tool) { t == Square || t == Circle || t == Triangle }

  /** The brush-size slider ranges from 1 to 20 and starts at 5. */
  type BrushSize = n: int | 1 <= n <= 20 witness 5

  /** A decoded image with its natural size. */
  datatype Image = Image(source: string, width: real, height: real)

  /** An image whose onload fired with a non-empty natural size. */
  type LoadedImage = i: Image | i.width > 0.0 && i.height > 0.0 witness Image("", 1.0, 1.0)

  /** One paint operation applied to the canvas. */
  datatype Paint =
    | Cover(color: string)                                  // fillRect over the whole canvas
    | Stroke(path: seq<Point>, color: string, width: int)   // stroke of the current path, round caps
    | FillBox(box: Box, color: string)
    | FillDisc(center: Point, radius: real, color: string)
    | FillTriangle(triangle: Vertices, color: string)
    | Blit(image: Image, box: Box)                          // drawImage scaled into a box

  type Canvas = seq<Paint>

  /** The canvas right after it is sized and filled with the background. */
  const InitialCanvas: Canvas := [Cover(Background)]

  /** Colour and line width with which a freehand segment is stroked. */
  datatype Pen = Pen(color: string, width: int)

  /**
   * The pen for a pointer move: the pencil strokes in the selected colour at
   * the brush width, the eraser strokes in the background colour at three
   * times that width, and the shape tools draw nothing while the pointer moves.
   */
  function StrokePen(tool: Tool, color: string, brushSize: int): (pen: Option<Pen>)
    ensures pen.Some? <==> !IsShapeTool(tool)
    ensures tool == Eraser ==> pen.Some? && pen.value.color == Background
    ensures tool == Pencil ==> pen.Some? && pen.value.color == color
    ensures tool == Pencil ==> pen.Some? && pen.value.width == brushSize
    ensures tool == Eraser ==> pen.Some? && pen.value.width == 3 * brushSize
  {
    match tool
    case Pencil => Some(Pen(color, brushSize))
    case Eraser => Some(Pen(Background, brushSize * 3))
    case _ => None
  }

  /** The eraser is three times as wide as the pencil at the same brush size. */
  lemma EraserTripleWidth(color: string, brushSize: int)
    ensures StrokePen(Eraser, color, brushSize).value.width
            == 3 * StrokePen(Pencil, color, brushSize).value.width
  {
  }

  /**
   * The paint a click with a shape tool stamps at `at`: a square, a disc or a
   * triangle of side ten times the brush size, centred on the click and filled
   * with the selected colour. Other tools stamp nothing.
   */
  function ShapePaint(tool: Tool, at: Point, brushSize: int, color: string): (p: Option<Paint>)
    ensures p.Some? <==> IsShapeTool(tool)
    ensures p.Some? && !p.value.Cover? && !p.value.Blit? && !p.value.Stroke? ==> p.value.color == color
  {
    var size := ShapeSize(brushSize) as real;
    match tool
    case Square => Some(FillBox(SquareBox(at, size), color))
    case Circle => Some(FillDisc(at, DiscRadius(size), color))
    case Triangle => Some(FillTriangle(TriangleAt(at, size), color))
    case _ => None
  }

  /**
   * The three stamps of one click share one square footprint of side
   * `10 * brushSize`; the triangle points up, its apex on the square's top
   * edge and its base the bottom edge.
   */
  lemma ShapesShareFootprint(at: Point, brushSize: BrushSize, color: string)
    ensures var size := 10.0 * brushSize as real;
      && ShapePaint(Square, at, brushSize, color) == Some(FillBox(SquareBox(at, size), color))
      && ShapePaint(Circle, at, brushSize, color).value.center == at
      && 2.0 * ShapePaint(Circle, at, brushSize, color).value.radius == size
      && ShapePaint(Triangle, at, brushSize, color) == Some(FillTriangle(TriangleAt(at, size), color))
      && BoundingBox(ShapePaint(Triangle, at, brushSize, color).value.triangle) == SquareBox(at, size)
      && ShapePaint(Triangle, at, brushSize, color).value.triangle.apex.y == SquareBox(at, size).top
      && ShapePaint(Triangle, at, brushSize, color).value.triangle.left.y == SquareBox(at, size).top + size
  {
    TriangleFillsSquare(at, 10.0 * brushSize as real);
  }
}
