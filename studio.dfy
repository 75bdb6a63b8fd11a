/**
 * The studio page as the stateful object it is: the canvas, its history and
 * cursor, the pointer state, the tool settings, the prompt, the generating
 * flag and the generated-images list, updated in place by its handlers. Each
 * handler is proved to take the drawing state exactly as the matching
 * function of module Engine does, and the generation handlers as module
 * Generation says.
 */
module StudioPage {
  import opened Wrappers
  import opened Geometry
  import opened Surface
  import H = History
  import E = Engine
  import opened Generation

  /** The notification shown once a generated image is applied. */
  const AppliedMessage: string := "Applied to canvas!"

  class Studio {
    const width: nat
    const height: nat
    var canvas: Canvas
    var path: seq<Point>
    var history: seq<Canvas>
    var historyIndex: int
    var isDrawing: bool
    var selectedTool: Tool
    var selectedColor: string
    var brushSize: BrushSize
    var prompt: string
    var generating: bool
    var generatedImages: seq<GeneratedImage>

    /** The drawing part of the page's state, as module Engine describes it. */
    ghost function Drawing(): E.State
      reads this
    {
      E.State(width, height, canvas, path, H.History(history, historyIndex), isDrawing,
              selectedTool, selectedColor, brushSize)
    }

    ghost predicate Valid()
      reads this
    {
      E.Inv(Drawing())
    }

    /**
     * The page as it stands once the canvas is mounted and initCanvas has run:
     * filled with the background, which is the first history entry.
     */
    constructor (canvasWidth: nat, canvasHeight: nat)
      ensures Valid() && Drawing() == E.Init(canvasWidth, canvasHeight)
      ensures prompt == "" && !generating && generatedImages == []
    {
      width, height := canvasWidth, canvasHeight;
      selectedTool, selectedColor, brushSize := Pencil, InitialColor, 5;
      isDrawing, path := false, [];
      prompt, generating, generatedImages := "", false, [];
      history, historyIndex := [], -1;
      canvas := [Cover(Background)];
      new;
      SaveToHistory();
    }

    /** saveToHistory */
    method SaveToHistory()
      requires H.Valid(H.History(history, historyIndex))
      modifies this`history, this`historyIndex
      ensures Drawing() == E.SaveToHistory(old(Drawing()))
      ensures historyIndex == |history| - 1 && history[historyIndex] == canvas
    {
      var newHistory := history[..historyIndex + 1];
      newHistory := newHistory + [canvas];
      history := newHistory;
      historyIndex := |newHistory| - 1;
    }

    /** undo */
    method Undo()
      requires Valid()
      modifies this`canvas, this`historyIndex
      ensures Valid() && Drawing() == E.Undo(old(Drawing()))
    {
      if historyIndex <= 0 {
        return;
      }
      var newIndex := historyIndex - 1;
      canvas := history[newIndex];
      historyIndex := newIndex;
    }

    /** redo */
    method Redo()
      requires Valid()
      modifies this`canvas, this`historyIndex
      ensures Valid() && Drawing() == E.Redo(old(Drawing()))
    {
      if historyIndex >= |history| - 1 {
        return;
      }
      var newIndex := historyIndex + 1;
      canvas := history[newIndex];
      historyIndex := newIndex;
    }

    /** clearCanvas */
    method ClearCanvas()
      requires Valid()
      modifies this`canvas, this`history, this`historyIndex
      ensures Valid() && Drawing() == E.ClearCanvas(old(Drawing()))
    {
      canvas := canvas + [Cover(Background)];
      SaveToHistory();
      E.StepKeepsInv(old(Drawing()), E.ClearButton);
    }

    /** startDrawing */
    method StartDrawing(e: E.PointerEvent)
      requires Valid()
      modifies this`isDrawing, this`path
      ensures Valid() && Drawing() == E.StartDrawing(old(Drawing()), e)
    {
      isDrawing := true;
      var p := CanvasCoordinates(e.clientX, e.clientY, e.rect, width, height);
      path := [p];
    }

    /** draw */
    method Draw(e: E.PointerEvent)
      requires Valid()
      modifies this`canvas, this`path
      ensures Valid() && Drawing() == E.Draw(old(Drawing()), e)
    {
      if !isDrawing {
        return;
      }
      var p := CanvasCoordinates(e.clientX, e.clientY, e.rect, width, height);
      if selectedTool == Pencil {
        path := path + [p];
        canvas := canvas + [Stroke(path, selectedColor, brushSize)];
      } else if selectedTool == Eraser {
        path := path + [p];
        canvas := canvas + [Stroke(path, Background, brushSize * 3)];
      }
    }

    /** stopDrawing, bound to both mouse-up and mouse-leave */
    method StopDrawing()
      requires Valid()
      modifies this`isDrawing, this`history, this`historyIndex
      ensures Valid() && Drawing() == E.StopDrawing(old(Drawing()))
    {
      if isDrawing {
        isDrawing := false;
        SaveToHistory();
      }
    }

    /** drawShape */
    method DrawShape(e: E.PointerEvent)
      requires Valid()
      modifies this`canvas, this`history, this`historyIndex
      ensures Valid() && Drawing() == E.DrawShape(old(Drawing()), e)
    {
      if selectedTool != Square && selectedTool != Circle && selectedTool != Triangle {
        return;
      }
      var at := CanvasCoordinates(e.clientX, e.clientY, e.rect, width, height);
      var size := (brushSize * 10) as real;
      if selectedTool == Square {
        canvas := canvas + [FillBox(Box(at.x - size / 2.0, at.y - size / 2.0, size, size), selectedColor)];
      } else if selectedTool == Circle {
        canvas := canvas + [FillDisc(at, size / 2.0, selectedColor)];
      } else {
        var apex := Point(at.x, at.y - size / 2.0);
        var right := Point(at.x + size / 2.0, at.y + size / 2.0);
        var left := Point(at.x - size / 2.0, at.y + size / 2.0);
        canvas := canvas + [FillTriangle(Vertices(apex, right, left), selectedColor)];
      }
      SaveToHistory();
    }

    /** handleCanvasClick */
    method HandleCanvasClick(e: E.PointerEvent)
      requires Valid()
      modifies this`canvas, this`history, this`historyIndex
      ensures Valid() && Drawing() == E.HandleCanvasClick(old(Drawing()), e)
    {
      if selectedTool == Square || selectedTool == Circle || selectedTool == Triangle {
        DrawShape(e);
      }
    }

    /** handleImageUpload, once the file is read and the image has loaded */
    method HandleImageUpload(img: LoadedImage)
      requires Valid()
      modifies this`canvas, this`history, this`historyIndex
      ensures Valid() && Drawing() == E.UploadImage(old(Drawing()), img)
    {
      var scale := Min(width as real / img.width, height as real / img.height) * 0.8;
      var w := img.width * scale;
      var h := img.height * scale;
      var x := (width as real - w) / 2.0;
      var y := (height as real - h) / 2.0;
      assert Box(x, y, w, h) == FitBox(width, height, img.width, img.height, UploadFactor);
      canvas := canvas + [Blit(img, Box(x, y, w, h))];
      SaveToHistory();
    }

    /** applyToCanvas, once the generated image has loaded */
    method ApplyToCanvas(img: LoadedImage) returns (toast: Toast)
      requires Valid()
      modifies this`canvas, this`history, this`historyIndex
      ensures Valid() && Drawing() == E.ApplyToCanvas(old(Drawing()), img)
      ensures toast == ToastSuccess(AppliedMessage)
    {
      canvas := canvas + [Cover(Background)];
      var scale := Min(width as real / img.width, height as real / img.height) * 0.9;
      var w := img.width * scale;
      var h := img.height * scale;
      var x := (width as real - w) / 2.0;
      var y := (height as real - h) / 2.0;
      assert Box(x, y, w, h) == FitBox(width, height, img.width, img.height, ApplyFactor);
      canvas := canvas + [Blit(img, Box(x, y, w, h))];
      assert canvas == old(canvas) + [Cover(Background), Blit(img, Box(x, y, w, h))];
      SaveToHistory();
      toast := ToastSuccess(AppliedMessage);
    }

    /**
     * The saved canvas of an opened project, once its image has loaded: drawn
     * at its natural size in the top-left corner and saved by the callback of
     * the first render, whose history is still empty.
     */
    method LoadSavedCanvas(img: LoadedImage)
      modifies this`canvas, this`history, this`historyIndex
      ensures Valid() && Drawing() == E.LoadSavedCanvas(old(Drawing()), img)
    {
      ghost var loaded := E.LoadSavedCanvas(Drawing(), img);
      var staleHistory: seq<Canvas>, staleIndex := [], -1;
      canvas := canvas + [Blit(img, Box(0.0, 0.0, img.width, img.height))];
      var newHistory := staleHistory[..staleIndex + 1] + [canvas];
      assert newHistory == [canvas] == loaded.hist.snapshots;
      history := newHistory;
      historyIndex := |newHistory| - 1;
      assert Drawing() == loaded;
    }

    /** The tool buttons. */
    method SelectTool(tool: Tool)
      requires Valid()
      modifies this`selectedTool
      ensures Valid() && Drawing() == old(Drawing()).(tool := tool)
    {
      selectedTool := tool;
    }

    /** The colour swatches. */
    method SelectColor(color: string)
      requires Valid()
      modifies this`selectedColor
      ensures Valid() && Drawing() == old(Drawing()).(color := color)
    {
      selectedColor := color;
    }

    /** The brush-size slider. */
    method SetBrushSize(size: BrushSize)
      requires Valid()
      modifies this`brushSize
      ensures Valid() && Drawing() == old(Drawing()).(brushSize := size)
    {
      brushSize := size;
    }

    /** The prompt text area. */
    method SetPrompt(text: string)
      modifies this`prompt
      ensures prompt == text
    {
      prompt := text;
    }

    /**
     * generateImage up to the call of the generate-image function: refuse a
     * blank prompt unless the action is "enhance", otherwise raise the
     * generating flag and return the request sent.
     */
    method GenerateImage(actionType: string) returns (pending: Option<Pending>, toast: Option<Toast>)
      modifies this`generating
      ensures pending == Submit(prompt, canvas, actionType)
      ensures pending.None? ==> generating == old(generating) && toast == Some(ToastError(ValidationMessage))
      ensures pending.Some? ==> generating && toast.None?
    {
      TrimEmptyIffBlank(prompt);
      if Trim(prompt) == [] && actionType != EnhanceAction {
        toast := Some(ToastError(ValidationMessage));
        pending := None;
        return;
      }
      generating := true;
      var canvasImage := canvas;
      var sent := if prompt != "" then prompt else DefaultSentPrompt;
      pending := Some(Pending(prompt, InvokeBody(sent, canvasImage, actionType)));
      toast := None;
    }

    /**
     * generateImage after the call: on success insert the row and put it first
     * in the list; in every case show a notification and lower the flag.
     */
    method FinishGeneration(p: Pending, invoke: InvokeOutcome, save: SaveOutcome) returns (toast: Toast)
      modifies this`generating, this`generatedImages
      ensures !generating
      ensures generatedImages == Settle(old(generatedImages), Outcome(p, invoke, save))
      ensures toast == ToastFor(Outcome(p, invoke, save))
    {
      var thrown: Option<string> := None;
      match invoke {
        case InvokeError(message) =>
          thrown := Some(message);
        case InvokeData(error, imageUrl) =>
          if error != "" {
            thrown := Some(error);
          } else {
            match save {
              case SaveError(message) =>
                thrown := Some(message);
              case Saved(id, createdAt) =>
                var recorded := if p.typedPrompt != "" then p.typedPrompt else DefaultRecordPrompt;
                var savedImage := GeneratedImage(id, imageUrl, recorded, p.body.actionType, createdAt);
                generatedImages := [savedImage] + generatedImages;
            }
          }
      }
      if thrown.Some? {
        toast := ToastError(if thrown.value != "" then thrown.value else FailureFallback);
      } else {
        toast := ToastSuccess(SuccessMessage);
      }
      generating := false;
    }
  }
}
