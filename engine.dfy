/**
 * The drawing engine of the studio page as pure state transitions: one
 * function per canvas handler, each taking the page's drawing state to the
 * state after the handler ran. The handlers are taken to run one at a time in
 * event order, and the canvas element to be mounted.
 */
module Engine {
  import opened Wrappers
  import opened Geometry
  import opened Surface
  import H = History

  /** The drawing part of the page's state. */
  datatype State = State(
    width: nat, height: nat,     // the canvas's native size, fixed when it is initialised
    canvas: Canvas,              // what is painted on the canvas now
    path: seq<Point>,            // the 2D context's current path
    hist: H.History<Canvas>,     // history and historyIndex
    isDrawing: bool,
    tool: Tool,
    color: string,
    brushSize: BrushSize)

  /** A mouse event on the canvas: its client position and the canvas's bounding rectangle. */
  datatype PointerEvent = PointerEvent(clientX: real, clientY: real, rect: DisplayBox)

  /** The pointer position in canvas pixels (getCanvasCoordinates). */
  function At(s: State, e: PointerEvent): Point {
    CanvasCoordinates(e.clientX, e.clientY, e.rect, s.width, s.height)
  }

  /**
   * What the engine keeps true: the history is well formed and never empty,
   * and unless a stroke is in progress the canvas shows the snapshot at the
   * cursor.
   */
  predicate Inv(s: State) {
    && H.Valid(s.hist)
    && s.hist.snapshots != []
    && (!s.isDrawing ==> s.canvas == H.Current(s.hist))
  }

  /**
   * The history still begins with the blank background, as it does for a
   * page opened without saved canvas data.
   */
  predicate FromBlank(s: State) {
    s.hist.snapshots != [] && s.hist.snapshots[0] == InitialCanvas
  }

  /** saveToHistory: record the canvas as the newest snapshot. */
  function SaveToHistory(s: State): (r: State)
    requires H.Valid(s.hist)
    ensures H.Valid(r.hist) && r.hist.snapshots != [] && r == s.(hist := r.hist)
    ensures r.hist.index == s.hist.index + 1 && H.Current(r.hist) == s.canvas && !H.CanRedo(r.hist)
    ensures forall i :: 0 <= i <= s.hist.index ==> r.hist.snapshots[i] == s.hist.snapshots[i]
  {
    s.(hist := H.Push(s.hist, s.canvas))
  }

  /**
   * initCanvas: size the canvas, fill it with the background and save that
   * as the first snapshot. Tool, colour and brush size start at the pencil,
   * white and 5.
   */
  function Init(width: nat, height: nat): (s: State)
    ensures Inv(s) && FromBlank(s) && !s.isDrawing
    ensures s.hist.snapshots == [InitialCanvas] && s.hist.index == 0
    ensures s.width == width && s.height == height && s.canvas == InitialCanvas
    ensures s.tool == Pencil && s.color == InitialColor && s.brushSize == 5
  {
    SaveToHistory(State(width, height, InitialCanvas, [], H.Empty(), false, Pencil, InitialColor, 5))
  }

  /** undo: restore the previous snapshot; a no-op on the first one. */
  function Undo(s: State): (r: State)
    requires H.Valid(s.hist)
    ensures H.Valid(r.hist) && r.hist == H.Undo(s.hist)
    ensures H.CanUndo(s.hist) ==> r == s.(hist := r.hist, canvas := H.Current(r.hist))
    ensures !H.CanUndo(s.hist) ==> r == s
  {
    if s.hist.index <= 0 then s
    else
      var h := H.Undo(s.hist);
      s.(hist := h, canvas := h.snapshots[h.index])
  }

  /** redo: restore the next snapshot; a no-op on the last one. */
  function Redo(s: State): (r: State)
    requires H.Valid(s.hist)
    ensures H.Valid(r.hist) && r.hist == H.Redo(s.hist)
    ensures H.CanRedo(s.hist) ==> r == s.(hist := r.hist, canvas := H.Current(r.hist))
    ensures !H.CanRedo(s.hist) ==> r == s
  {
    if s.hist.index >= |s.hist.snapshots| - 1 then s
    else
      var h := H.Redo(s.hist);
      s.(hist := h, canvas := h.snapshots[h.index])
  }

  /** clearCanvas: fill the canvas with the background and save it. */
  function ClearCanvas(s: State): (r: State)
    requires H.Valid(s.hist)
    ensures H.Valid(r.hist) && r == s.(canvas := r.canvas, hist := r.hist)
    ensures r.canvas == s.canvas + [Cover(Background)]
    ensures r.hist.index == s.hist.index + 1 && H.Current(r.hist) == r.canvas && !H.CanRedo(r.hist)
    ensures forall i :: 0 <= i <= s.hist.index ==> r.hist.snapshots[i] == s.hist.snapshots[i]
  {
    SaveToHistory(s.(canvas := s.canvas + [Cover(Background)]))
  }

  /** startDrawing: enter the drawing state and begin a new path at the pointer. */
  function StartDrawing(s: State, e: PointerEvent): (r: State)
    ensures r == s.(isDrawing := r.isDrawing, path := r.path)
    ensures r.isDrawing && r.path == [At(s, e)]
  {
    s.(isDrawing := true, path := [At(s, e)])
  }

  /**
   * draw: while drawing with the pencil or the eraser, extend the path to the
   * pointer and stroke it; otherwise nothing happens.
   */
  function Draw(s: State, e: PointerEvent): (r: State)
    ensures r.hist == s.hist && r.isDrawing == s.isDrawing
    ensures !s.isDrawing || IsShapeTool(s.tool) ==> r == s
    ensures s.isDrawing && !IsShapeTool(s.tool) ==> (
      && r == s.(path := r.path, canvas := r.canvas)
      && r.path == s.path + [At(s, e)]
      && r.canvas == s.canvas + [Stroke(r.path, StrokePen(s.tool, s.color, s.brushSize).value.color,
                                        StrokePen(s.tool, s.color, s.brushSize).value.width)])
  {
    if !s.isDrawing then s
    else match StrokePen(s.tool, s.color, s.brushSize)
      case None => s
      case Some(pen) =>
        var path := s.path + [At(s, e)];
        s.(path := path, canvas := s.canvas + [Stroke(path, pen.color, pen.width)])
  }

  /** stopDrawing (mouse up and mouse leave): leave the drawing state and save, if drawing. */
  function StopDrawing(s: State): (r: State)
    requires H.Valid(s.hist)
    ensures H.Valid(r.hist) && !r.isDrawing && r.canvas == s.canvas
    ensures s.isDrawing ==> (
      && r == s.(isDrawing := false, hist := r.hist)
      && r.hist.index == s.hist.index + 1 && H.Current(r.hist) == s.canvas && !H.CanRedo(r.hist)
      && forall i :: 0 <= i <= s.hist.index ==> r.hist.snapshots[i] == s.hist.snapshots[i])
    ensures !s.isDrawing ==> r == s
  {
    if s.isDrawing then SaveToHistory(s.(isDrawing := false)) else s
  }

  /** drawShape: with a shape tool, stamp the shape at the pointer and save. */
  function DrawShape(s: State, e: PointerEvent): (r: State)
    requires H.Valid(s.hist)
    ensures H.Valid(r.hist)
    ensures IsShapeTool(s.tool) ==> (
      && r == s.(canvas := r.canvas, hist := r.hist)
      && r.canvas == s.canvas + [ShapePaint(s.tool, At(s, e), s.brushSize, s.color).value]
      && r.hist.index == s.hist.index + 1 && H.Current(r.hist) == r.canvas && !H.CanRedo(r.hist)
      && forall i :: 0 <= i <= s.hist.index ==> r.hist.snapshots[i] == s.hist.snapshots[i])
    ensures !IsShapeTool(s.tool) ==> r == s
  {
    match ShapePaint(s.tool, At(s, e), s.brushSize, s.color)
    case None => s
    case Some(p) => SaveToHistory(s.(canvas := s.canvas + [p]))
  }

  /** handleCanvasClick: a click draws a shape when a shape tool is selected. */
  function HandleCanvasClick(s: State, e: PointerEvent): (r: State)
    requires H.Valid(s.hist)
    ensures H.Valid(r.hist)
    ensures IsShapeTool(s.tool) ==> (
      && r == s.(canvas := r.canvas, hist := r.hist)
      && r.canvas == s.canvas + [ShapePaint(s.tool, At(s, e), s.brushSize, s.color).value]
      && r.hist.index == s.hist.index + 1 && H.Current(r.hist) == r.canvas && !H.CanRedo(r.hist)
      && forall i :: 0 <= i <= s.hist.index ==> r.hist.snapshots[i] == s.hist.snapshots[i])
    ensures !IsShapeTool(s.tool) ==> r == s
  {
    if IsShapeTool(s.tool) then DrawShape(s, e) else s
  }

  /** handleImageUpload, once the image has loaded: draw it fitted at 0.8 and save. */
  function UploadImage(s: State, img: LoadedImage): (r: State)
    requires H.Valid(s.hist)
    ensures H.Valid(r.hist) && r == s.(canvas := r.canvas, hist := r.hist)
    ensures r.canvas == s.canvas + [Blit(img, FitBox(s.width, s.height, img.width, img.height, UploadFactor))]
    ensures r.hist.index == s.hist.index + 1 && H.Current(r.hist) == r.canvas && !H.CanRedo(r.hist)
    ensures forall i :: 0 <= i <= s.hist.index ==> r.hist.snapshots[i] == s.hist.snapshots[i]
  {
    var box := FitBox(s.width, s.height, img.width, img.height, UploadFactor);
    SaveToHistory(s.(canvas := s.canvas + [Blit(img, box)]))
  }

  /**
   * applyToCanvas, once the image has loaded: fill with the background, draw
   * the image fitted at 0.9 and save.
   */
  function ApplyToCanvas(s: State, img: LoadedImage): (r: State)
    requires H.Valid(s.hist)
    ensures H.Valid(r.hist) && r == s.(canvas := r.canvas, hist := r.hist)
    ensures r.canvas == s.canvas + [Cover(Background), Blit(img, FitBox(s.width, s.height, img.width, img.height, ApplyFactor))]
    ensures r.hist.index == s.hist.index + 1 && H.Current(r.hist) == r.canvas && !H.CanRedo(r.hist)
    ensures forall i :: 0 <= i <= s.hist.index ==> r.hist.snapshots[i] == s.hist.snapshots[i]
  {
    var box := FitBox(s.width, s.height, img.width, img.height, ApplyFactor);
    SaveToHistory(s.(canvas := s.canvas + [Cover(Background), Blit(img, box)]))
  }

  /**
   * fetchProject's image onload, for a project opened with saved canvas data:
   * the image is drawn at its natural size in the top-left corner and saved.
   * The save runs in the callback made on the page's first render, which still
   * sees the empty history and the cursor at -1, so the history becomes the
   * loaded canvas alone.
   */
  function LoadSavedCanvas(s: State, img: LoadedImage): (r: State)
    ensures Inv(r) && r == s.(canvas := r.canvas, hist := r.hist)
    ensures r.canvas == s.canvas + [Blit(img, Box(0.0, 0.0, img.width, img.height))]
    ensures r.hist.snapshots == [r.canvas] && r.hist.index == 0
  {
    var drawn := s.(canvas := s.canvas + [Blit(img, Box(0.0, 0.0, img.width, img.height))]);
    SaveToHistory(drawn.(hist := H.Empty()))
  }

  /** One user action on the drawing part of the page. */
  datatype Event =
    | MouseDown(e: PointerEvent)
    | MouseMove(e: PointerEvent)
    | MouseUp
    | MouseLeave
    | Click(e: PointerEvent)
    | UndoButton
    | RedoButton
    | ClearButton
    | Upload(img: LoadedImage)
    | Apply(img: LoadedImage)
    | SelectTool(tool: Tool)
    | SelectColor(color: string)
    | SetBrushSize(size: BrushSize)

  /** The handler an event is bound to. */
  function Step(s: State, ev: Event): (r: State)
    requires H.Valid(s.hist)
    ensures H.Valid(r.hist)
    ensures r.width == s.width && r.height == s.height
    ensures s.hist.index - 1 <= r.hist.index <= s.hist.index + 1
    ensures r.hist.snapshots != s.hist.snapshots ==> r.hist == H.Push(s.hist, r.canvas)
  {
    match ev
    case MouseDown(e) => StartDrawing(s, e)
    case MouseMove(e) => Draw(s, e)
    case MouseUp => StopDrawing(s)
    case MouseLeave => StopDrawing(s)
    case Click(e) => HandleCanvasClick(s, e)
    case UndoButton => Undo(s)
    case RedoButton => Redo(s)
    case ClearButton => ClearCanvas(s)
    case Upload(img) => UploadImage(s, img)
    case Apply(img) => ApplyToCanvas(s, img)
    case SelectTool(t) => s.(tool := t)
    case SelectColor(c) => s.(color := c)
    case SetBrushSize(n) => s.(brushSize := n)
  }

  /** The events handled in order. */
  function Run(s: State, evs: seq<Event>): (r: State)
    requires H.Valid(s.hist)
    ensures H.Valid(r.hist)
    decreases |evs|
  {
    if evs == [] then s else Run(Step(s, evs[0]), evs[1..])
  }

  /** `n` presses of the undo button. */
  function UndoTimes(s: State, n: nat): (r: State)
    requires H.Valid(s.hist)
    ensures H.Valid(r.hist)
    decreases n
  {
    if n == 0 then s else UndoTimes(Undo(s), n - 1)
  }

  // ---------------------------------------------------------------------------
  // Properties
  // ---------------------------------------------------------------------------

  /** Saving leaves the canvas on the newest snapshot with nothing to redo. */
  lemma SaveIsUndoable(s: State)
    requires Inv(s)
    ensures var r := SaveToHistory(s);
      && r.hist.index == s.hist.index + 1
      && H.Current(r.hist) == s.canvas
      && Redo(r) == r
      && Undo(r).canvas == H.Current(s.hist)
  {
  }

  /** Every handler keeps the engine invariant and keeps a blank first history entry. */
  lemma StepKeepsInv(s: State, ev: Event)
    requires Inv(s)
    ensures Inv(Step(s, ev))
    ensures FromBlank(s) ==> FromBlank(Step(s, ev))
  {
    match ev
    case MouseDown(e) =>
    case MouseMove(e) =>
    case MouseUp =>
    case MouseLeave =>
    case Click(e) =>
    case UndoButton =>
    case RedoButton =>
    case ClearButton =>
    case Upload(img) =>
    case Apply(img) =>
    case SelectTool(t) =>
    case SelectColor(c) =>
    case SetBrushSize(n) =>
  }

  lemma {:induction false} RunKeepsInv(s: State, evs: seq<Event>)
    requires Inv(s)
    ensures Inv(Run(s, evs))
    ensures FromBlank(s) ==> FromBlank(Run(s, evs))
    decreases |evs|
  {
    if evs != [] {
      StepKeepsInv(s, evs[0]);
      RunKeepsInv(Step(s, evs[0]), evs[1..]);
    }
  }

  /** `n` undos from a settled canvas step back `n` snapshots and show the one reached. */
  lemma {:induction false} UndoTimesShowsSnapshot(s: State, n: nat)
    requires Inv(s) && !s.isDrawing
    ensures var r := UndoTimes(s, n);
      && Inv(r) && !r.isDrawing
      && r.hist == H.UndoN(s.hist, n)
      && r.canvas == H.Current(r.hist)
    decreases n
  {
    if n > 0 {
      UndoTimesShowsSnapshot(Undo(s), n - 1);
    }
  }

  /**
   * Whatever was drawn, uploaded, applied or cleared since the page opened,
   * undoing as many times as the cursor is deep brings back the blank
   * background canvas.
   */
  lemma UndoAllRestoresBackground(width: nat, height: nat, evs: seq<Event>)
    requires !Run(Init(width, height), evs).isDrawing
    ensures var s := Run(Init(width, height), evs);
      && Inv(s) && FromBlank(s)
      && UndoTimes(s, s.hist.index).canvas == InitialCanvas
      && UndoTimes(s, s.hist.index).hist.index == 0
  {
    var s := Run(Init(width, height), evs);
    RunKeepsInv(Init(width, height), evs);
    UndoTimesShowsSnapshot(s, s.hist.index);
    H.UndoNMovesBack(s.hist, s.hist.index);
  }

  /** Redo right after undo brings back the same cursor and the same canvas. */
  lemma UndoRedoRoundTrip(s: State)
    requires Inv(s) && !s.isDrawing && H.CanUndo(s.hist)
    ensures Redo(Undo(s)) == s
  {
    H.UndoThenRedo(s.hist);
  }

  /** A mouse-up or mouse-leave while idle, and a move while idle, change nothing. */
  lemma IdlePointerIsNoop(s: State, e: PointerEvent)
    requires H.Valid(s.hist) && !s.isDrawing
    ensures StopDrawing(s) == s && Draw(s, e) == s
  {
  }

  /** The moves of a drag, handled in order. */
  function DrawAll(s: State, es: seq<PointerEvent>): (r: State)
    ensures r.hist == s.hist && |r.canvas| >= |s.canvas|
    decreases |es|
  {
    if es == [] then s else DrawAll(Draw(s, es[0]), es[1..])
  }

  /**
   * While drawing, moves only add strokes: the history, the drawing flag and
   * the settings are untouched and what was on the canvas stays under them.
   */
  lemma {:induction false} DrawAllOnlyPaints(s: State, es: seq<PointerEvent>)
    ensures var r := DrawAll(s, es);
      && r.hist == s.hist && r.isDrawing == s.isDrawing
      && r.tool == s.tool && r.color == s.color && r.brushSize == s.brushSize
      && r.canvas[..|s.canvas|] == s.canvas
    decreases |es|
  {
    if es != [] {
      var s' := Draw(s, es[0]);
      assert s'.canvas[..|s.canvas|] == s.canvas;
      DrawAllOnlyPaints(s', es[1..]);
      var r := DrawAll(s, es);
      assert r.canvas[..|s.canvas|] == r.canvas[..|s'.canvas|][..|s.canvas|];
    }
  }

  /**
   * A freehand drag (press, any number of moves, release) from an idle canvas
   * adds exactly one history entry, the finished drawing, and one undo takes
   * the canvas back to what it was before the drag.
   */
  lemma StrokeGestureIsOneEntry(s: State, down: PointerEvent, moves: seq<PointerEvent>)
    requires Inv(s) && !s.isDrawing
    ensures var drawn := DrawAll(StartDrawing(s, down), moves);
      var r := StopDrawing(drawn);
      && Inv(r) && !r.isDrawing
      && r.hist.index == s.hist.index + 1 && !H.CanRedo(r.hist)
      && H.Current(r.hist) == drawn.canvas
      && Undo(r).canvas == s.canvas
  {
    var started := StartDrawing(s, down);
    DrawAllOnlyPaints(started, moves);
  }

  /**
   * A click with a shape tool arrives as mouse-down, mouse-up, click. Because
   * startDrawing enters the drawing state for every tool, the mouse-up saves an
   * unchanged canvas before the click saves the shape: the gesture adds two
   * entries, the first a copy of the canvas before it. One undo removes the
   * shape; a second undo changes nothing visible.
   */
  lemma ShapeClickSavesTwice(s: State, e: PointerEvent)
    requires Inv(s) && !s.isDrawing && IsShapeTool(s.tool)
    ensures var r := Run(s, [MouseDown(e), MouseUp, Click(e)]);
      && r.hist.index == s.hist.index + 2
      && r.hist.snapshots[s.hist.index + 1] == s.canvas
      && r.canvas == s.canvas + [ShapePaint(s.tool, At(s, e), s.brushSize, s.color).value]
      && Undo(r).canvas == s.canvas
      && UndoTimes(r, 2).canvas == s.canvas
  {
    var a := StartDrawing(s, e);
    var b := StopDrawing(a);
    var c := DrawShape(b, e);
    ShapeClickRun(s, e);
    assert b.canvas == s.canvas && b.hist.index == s.hist.index + 1;
    assert H.Current(b.hist) == s.canvas;
    assert b.tool == s.tool && b.brushSize == s.brushSize && b.color == s.color && At(b, e) == At(s, e);
    var u := Undo(c);
    assert u.canvas == s.canvas;
    assert UndoTimes(c, 2) == Undo(u);
  }

  /** The handlers a shape click runs, in order. */
  lemma ShapeClickRun(s: State, e: PointerEvent)
    requires H.Valid(s.hist) && IsShapeTool(s.tool)
    ensures Run(s, [MouseDown(e), MouseUp, Click(e)]) == DrawShape(StopDrawing(StartDrawing(s, e)), e)
  {
    RunThree(s, MouseDown(e), MouseUp, Click(e));
    var a := StartDrawing(s, e);
    StepPress(s, e);
    var b := StopDrawing(a);
    StepRelease(a);
    StepShapeClick(b, e);
  }

  lemma StepPress(s: State, e: PointerEvent)
    requires H.Valid(s.hist)
    ensures Step(s, MouseDown(e)) == StartDrawing(s, e)
  {
  }

  lemma StepRelease(s: State)
    requires H.Valid(s.hist)
    ensures Step(s, MouseUp) == StopDrawing(s)
  {
  }

  lemma StepShapeClick(s: State, e: PointerEvent)
    requires H.Valid(s.hist) && IsShapeTool(s.tool)
    ensures Step(s, Click(e)) == DrawShape(s, e)
  {
  }

  /** Three events handled in order. */
  lemma RunThree(s: State, e1: Event, e2: Event, e3: Event)
    requires H.Valid(s.hist)
    ensures Run(s, [e1, e2, e3]) == Step(Step(Step(s, e1), e2), e3)
  {
    var evs := [e1, e2, e3];
    assert evs[1..] == [e2, e3] && evs[1..][1..] == [e3];
    var c := Step(Step(Step(s, e1), e2), e3);
    assert Run(Step(Step(s, e1), e2), [e3]) == Run(c, []) == c;
  }

  /** With the pencil or eraser a click changes nothing: the drag alone is saved. */
  lemma StrokeToolClickIsNoop(s: State, e: PointerEvent)
    requires H.Valid(s.hist) && !IsShapeTool(s.tool)
    ensures HandleCanvasClick(s, e) == s
  {
  }

  /** Clearing is itself undoable: one undo brings the previous canvas back. */
  lemma ClearIsUndoable(s: State)
    requires Inv(s) && !s.isDrawing
    ensures var r := ClearCanvas(s);
      && r.canvas == s.canvas + [Cover(Background)]
      && r.hist.index == s.hist.index + 1
      && Undo(r) == s.(hist := Undo(r).hist)
      && Undo(r).hist.index == s.hist.index
  {
  }

  /**
   * With a shape tool, drawShape stamps exactly one shape at the pointer and
   * saves exactly once: the entries up to the cursor stay, the stamped canvas
   * follows them and nothing is left to redo. One undo removes the shape. With any other tool it
   * changes nothing.
   */
  lemma DrawShapeSavesOnce(s: State, e: PointerEvent)
    requires Inv(s) && !s.isDrawing
    ensures var r := DrawShape(s, e);
      && (IsShapeTool(s.tool) ==> (
        && r.canvas == s.canvas + [ShapePaint(s.tool, At(s, e), s.brushSize, s.color).value]
        && r.hist.index == s.hist.index + 1 && H.Current(r.hist) == r.canvas
        && r.hist.snapshots == s.hist.snapshots[..s.hist.index + 1] + [r.canvas] && !H.CanRedo(r.hist)
        && Undo(r) == s.(hist := Undo(r).hist)))
      && (!IsShapeTool(s.tool) ==> r == s)
  {
  }

  /**
   * An uploaded image is drawn over the canvas, an applied one over a fresh
   * background, each in a box that keeps its aspect ratio, is centred and lies
   * inside the canvas; either is one history entry, after the entries up to
   * the cursor and with nothing left to redo, that one undo removes.
   */
  lemma ImageDrawIsUndoable(s: State, img: LoadedImage, apply: bool)
    requires Inv(s) && !s.isDrawing
    ensures var r := if apply then ApplyToCanvas(s, img) else UploadImage(s, img);
      var b := r.canvas[|r.canvas| - 1].box;
      && r.canvas == s.canvas + (if apply then [Cover(Background)] else []) + [Blit(img, b)]
      && b.width * img.height == b.height * img.width
      && 2.0 * b.left + b.width == s.width as real && 2.0 * b.top + b.height == s.height as real
      && b.width <= (if apply then ApplyFactor else UploadFactor) * s.width as real
      && b.height <= (if apply then ApplyFactor else UploadFactor) * s.height as real
      && 0.0 <= b.left && b.left + b.width <= s.width as real
      && 0.0 <= b.top && b.top + b.height <= s.height as real
      && r.hist.index == s.hist.index + 1 && H.Current(r.hist) == r.canvas
      && r.hist.snapshots == s.hist.snapshots[..s.hist.index + 1] + [r.canvas] && !H.CanRedo(r.hist)
      && Undo(r) == s.(hist := Undo(r).hist)
  {
    var factor := if apply then ApplyFactor else UploadFactor;
    FitBoxProperties(s.width, s.height, img.width, img.height, factor);
  }

  /**
   * Once a saved canvas has loaded, the background entry and every entry
   * saved before the load are gone: the history is one entry, not the blank
   * background, and neither undo nor redo changes anything.
   */
  lemma LoadSavedCanvasDiscardsHistory(s: State, img: LoadedImage)
    ensures var r := LoadSavedCanvas(s, img);
      && |r.hist.snapshots| == 1 && r.hist.snapshots[0] != InitialCanvas
      && Undo(r) == r && Redo(r) == r
      && Inv(r) && !FromBlank(r)
  {
    var r := LoadSavedCanvas(s, img);
    assert r.canvas[|r.canvas| - 1].Blit?;
    assert InitialCanvas[|InitialCanvas| - 1].Cover?;
  }

  /**
   * A reopened project is edited like any other: whatever events follow the
   * saved-canvas load, the engine invariant holds.
   */
  lemma ReopenedProjectKeepsInv(s: State, img: LoadedImage, evs: seq<Event>)
    ensures Inv(Run(LoadSavedCanvas(s, img), evs))
  {
    RunKeepsInv(LoadSavedCanvas(s, img), evs);
  }
}
