/**
 * The coordinate arithmetic of the studio page: translating pointer positions
 * into canvas pixels, the placement of the click-stamped shapes, and the
 * aspect-preserving "fit and centre" used when an image is drawn onto the canvas.
 * The source computes these in floating point; here they are exact over `real`.
 */
module Geometry {

  datatype Point = Point(x: real, y: real)

  /** An axis-aligned rectangle: its top-left corner and its size. */
  datatype Box = Box(left: real, top: real, width: real, height: real)

  /** The on-screen bounding rectangle of the canvas element, laid out with a positive size. */
  type DisplayBox = b: Box | b.width > 0.0 && b.height > 0.0 witness Box(0.0, 0.0, 1.0, 1.0)

  function Min(a: real, b: real): real { if a <= b then a else b }
  function Max(a: real, b: real): real { if a <= b then b else a }

  // ---------------------------------------------------------------------------
  // Display-to-native translation (getCanvasCoordinates)
  // ---------------------------------------------------------------------------

  /**
   * A pointer position in client coordinates, translated into the canvas's own
   * pixel space. Each axis is scaled by its own ratio, native size over displayed
   * size, so a canvas stretched unevenly keeps the two scales apart.
   */
  function CanvasCoordinates(clientX: real, clientY: real, rect: DisplayBox,
                             canvasWidth: nat, canvasHeight: nat): (p: Point)
    ensures clientX == rect.left ==> p.x == 0.0
    ensures clientY == rect.top ==> p.y == 0.0
    ensures rect.left <= clientX <= rect.left + rect.width ==> 0.0 <= p.x <= canvasWidth as real
    ensures rect.top <= clientY <= rect.top + rect.height ==> 0.0 <= p.y <= canvasHeight as real
  {
    var scaleX := canvasWidth as real / rect.width;
    var scaleY := canvasHeight as real / rect.height;
    ScaledWithin(clientX - rect.left, rect.width, canvasWidth as real);
    ScaledWithin(clientY - rect.top, rect.height, canvasHeight as real);
    Point((clientX - rect.left) * scaleX, (clientY - rect.top) * scaleY)
  }

  /** An offset inside a displayed extent stays inside the native extent once scaled. */
  lemma ScaledWithin(offset: real, displayed: real, native: real)
    requires displayed > 0.0 && native >= 0.0
    ensures 0.0 <= offset <= displayed ==> 0.0 <= offset * (native / displayed) <= native
  {
    if 0.0 <= offset <= displayed {
      var s := native / displayed;
      assert s >= 0.0;
      assert offset * s <= displayed * s;
      assert displayed * s == native;
    }
  }

  /** The inverse translation: where on the screen a canvas pixel is displayed. */
  function ClientPosition(p: Point, rect: DisplayBox, canvasWidth: nat, canvasHeight: nat): Point
    requires canvasWidth > 0 && canvasHeight > 0
  {
    Point(rect.left + p.x * (rect.width / canvasWidth as real),
          rect.top + p.y * (rect.height / canvasHeight as real))
  }

  /** Translating into canvas space and back lands on the original pointer position. */
  lemma CoordinatesRoundTrip(clientX: real, clientY: real, rect: DisplayBox,
                             canvasWidth: nat, canvasHeight: nat)
    requires canvasWidth > 0 && canvasHeight > 0
    ensures ClientPosition(CanvasCoordinates(clientX, clientY, rect, canvasWidth, canvasHeight),
                           rect, canvasWidth, canvasHeight) == Point(clientX, clientY)
  {
    ScaleCancels(clientX - rect.left, rect.width, canvasWidth as real);
    ScaleCancels(clientY - rect.top, rect.height, canvasHeight as real);
  }

  lemma ScaleCancels(d: real, displayed: real, native: real)
    requires displayed > 0.0 && native > 0.0
    ensures d * (native / displayed) * (displayed / native) == d
  {
    assert (native / displayed) * (displayed / native) == 1.0;
    calc {
      d * (native / displayed) * (displayed / native);
      d * ((native / displayed) * (displayed / native));
      d;
    }
  }

  // ---------------------------------------------------------------------------
  // Click-stamped shapes (drawShape)
  // ---------------------------------------------------------------------------

  /** The side of a stamped shape: ten times the brush size. */
  function ShapeSize(brushSize: int): (size: int)
    ensures size == 10 * brushSize
  {
    brushSize * 10
  }

  /** The filled square: a `size` by `size` box whose centre is the click. */
  function SquareBox(at: Point, size: real): (b: Box)
    ensures b.width == size && b.height == size
    ensures b.left + b.width / 2.0 == at.x && b.top + b.height / 2.0 == at.y
  {
    Box(at.x - size / 2.0, at.y - size / 2.0, size, size)
  }

  /** The filled disc: its centre is the click and its radius half the size. */
  function DiscRadius(size: real): (radius: real)
    ensures 2.0 * radius == size
  {
    size / 2.0
  }

  /** The filled triangle: apex above the click, base below it. */
  datatype Vertices = Vertices(apex: Point, right: Point, left: Point)

  function TriangleAt(at: Point, size: real): (t: Vertices)
    ensures t.apex.x == at.x && t.apex.y + size / 2.0 == at.y
    ensures t.left.y == t.right.y == at.y + size / 2.0
    ensures t.right.x - at.x == at.x - t.left.x == size / 2.0
  {
    Vertices(Point(at.x, at.y - size / 2.0),
             Point(at.x + size / 2.0, at.y + size / 2.0),
             Point(at.x - size / 2.0, at.y + size / 2.0))
  }

  /** `p` lies in `b`, edges included. */
  predicate Holds(b: Box, p: Point) {
    b.left <= p.x <= b.left + b.width && b.top <= p.y <= b.top + b.height
  }

  /**
   * The smallest box holding the three vertices of a triangle: it holds each
   * of them, and each of its four edges passes through one of them.
   */
  function BoundingBox(t: Vertices): (b: Box)
    ensures b.width >= 0.0 && b.height >= 0.0
    ensures Holds(b, t.apex) && Holds(b, t.right) && Holds(b, t.left)
    ensures b.left == t.apex.x || b.left == t.right.x || b.left == t.left.x
    ensures var r := b.left + b.width; r == t.apex.x || r == t.right.x || r == t.left.x
    ensures b.top == t.apex.y || b.top == t.right.y || b.top == t.left.y
    ensures var d := b.top + b.height; d == t.apex.y || d == t.right.y || d == t.left.y
  {
    var left := Min(t.apex.x, Min(t.right.x, t.left.x));
    var right := Max(t.apex.x, Max(t.right.x, t.left.x));
    var top := Min(t.apex.y, Min(t.right.y, t.left.y));
    var bottom := Max(t.apex.y, Max(t.right.y, t.left.y));
    Box(left, top, right - left, bottom - top)
  }

  /**
   * The three shapes share one footprint: the triangle's bounding box is the
   * square, its apex is on the vertical through the click, its base is
   * horizontal and is the square's bottom edge.
   */
  lemma TriangleFillsSquare(at: Point, size: real)
    requires size >= 0.0
    ensures BoundingBox(TriangleAt(at, size)) == SquareBox(at, size)
    ensures TriangleAt(at, size).apex.x == at.x
    ensures TriangleAt(at, size).left.y == TriangleAt(at, size).right.y
            == SquareBox(at, size).top + size
    ensures TriangleAt(at, size).apex.y == SquareBox(at, size).top
  {
  }

  // ---------------------------------------------------------------------------
  // Fit and centre (handleImageUpload with 0.8, applyToCanvas with 0.9)
  // ---------------------------------------------------------------------------

  /** Share of the canvas an uploaded image may take. */
  const UploadFactor: real := 0.8
  /** Share of the canvas a generated image takes when applied. */
  const ApplyFactor: real := 0.9

  /**
   * Where an image of natural size `imageWidth` by `imageHeight` is drawn: scaled
   * by `factor` times the largest scale that fits the canvas, centred on it.
   */
  function FitBox(canvasWidth: nat, canvasHeight: nat, imageWidth: real, imageHeight: real,
                  factor: real): (b: Box)
    requires imageWidth > 0.0 && imageHeight > 0.0
    ensures b.width * imageHeight == b.height * imageWidth
    ensures 2.0 * b.left + b.width == canvasWidth as real && 2.0 * b.top + b.height == canvasHeight as real
    ensures factor >= 0.0 ==> b.width <= factor * canvasWidth as real && b.height <= factor * canvasHeight as real
  {
    var sx, sy := canvasWidth as real / imageWidth, canvasHeight as real / imageHeight;
    var scale := Min(sx, sy) * factor;
    var w := imageWidth * scale;
    var h := imageHeight * scale;
    ScaledAspect(imageWidth, imageHeight, scale);
    assert imageWidth * sx == canvasWidth as real && imageHeight * sy == canvasHeight as real;
    ScaledWithinFactor(imageWidth, Min(sx, sy), sx, factor);
    ScaledWithinFactor(imageHeight, Min(sx, sy), sy, factor);
    Box((canvasWidth as real - w) / 2.0, (canvasHeight as real - h) / 2.0, w, h)
  }

  /**
   * The fitted box keeps the image's aspect ratio, is centred on the canvas,
   * lies inside it whenever the factor is at most one, spans at most `factor`
   * of the canvas on both axes and exactly `factor` on one: the scale is the
   * smaller of the two axis scales.
   */
  lemma FitBoxProperties(canvasWidth: nat, canvasHeight: nat, imageWidth: real, imageHeight: real,
                         factor: real)
    requires imageWidth > 0.0 && imageHeight > 0.0
    requires 0.0 <= factor <= 1.0
    ensures var b := FitBox(canvasWidth, canvasHeight, imageWidth, imageHeight, factor);
      && b.width * imageHeight == b.height * imageWidth
      && 2.0 * b.left + b.width == canvasWidth as real
      && 2.0 * b.top + b.height == canvasHeight as real
      && 0.0 <= b.left && b.left + b.width <= canvasWidth as real
      && 0.0 <= b.top && b.top + b.height <= canvasHeight as real
      && b.width <= factor * canvasWidth as real && b.height <= factor * canvasHeight as real
      && (b.width == factor * canvasWidth as real || b.height == factor * canvasHeight as real)
  {
    var cw, ch := canvasWidth as real, canvasHeight as real;
    var sx, sy := cw / imageWidth, ch / imageHeight;
    var scale := Min(sx, sy) * factor;
    ScaledAspect(imageWidth, imageHeight, scale);
    assert imageWidth * sx == cw && imageHeight * sy == ch;
    MulBelow(imageWidth, Min(sx, sy), sx, factor);
    MulBelow(imageHeight, Min(sx, sy), sy, factor);
    if sx <= sy {
      ScaledTight(imageWidth, sx, factor);
    } else {
      ScaledTight(imageHeight, sy, factor);
    }
  }

  lemma ScaledAspect(w: real, h: real, scale: real)
    ensures (w * scale) * h == (h * scale) * w
  {
    assert (w * scale) * h == w * h * scale;
  }

  lemma ScaledTight(size: real, s: real, factor: real)
    ensures size * (s * factor) == factor * (size * s)
  {
  }

  lemma ScaledWithinFactor(size: real, m: real, s: real, factor: real)
    requires size > 0.0 && m <= s
    ensures factor >= 0.0 ==> size * (m * factor) <= factor * (size * s)
  {
    assert size * m <= size * s;
    assert size * (m * factor) == factor * (size * m);
  }

  lemma MulBelow(size: real, m: real, s: real, factor: real)
    requires size > 0.0 && 0.0 <= m <= s && 0.0 <= factor <= 1.0
    ensures 0.0 <= size * (m * factor) <= size * s
  {
    assert m * factor <= m;
    assert size * (m * factor) <= size * m;
    assert size * m <= size * s;
  }
}
