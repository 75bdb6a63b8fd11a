# Studio drawing engine and generate-image function

This project models two parts of the sketch-to-image studio.

The first is the studio page's drawing engine. It covers:
- the canvas and its linear undo/redo history, kept as a list of snapshots plus a cursor;
- the pointer handlers: press, move, release/leave and click;
- the click-stamped shapes and the eraser;
- the display-to-canvas coordinate translation;
- the "fit and centre" placement of uploaded and applied images;
- the client half of image generation: the prompt gate, the body sent, and the handling of each outcome, including the gallery list.

The second is the generate-image edge function. It covers:
- building the prompt from the action's template and the sketch's reference note;
- building the chat message, with and without a sketch;
- the request to the AI gateway;
- mapping the gateway's answer to the page's response.

Pixels cannot be observed, so a canvas is the sequence of paint operations applied to it since it was sized. A snapshot (ImageData) is such a sequence.

Modules:
- `Wrappers`: Option and Result.
- `Geometry`: coordinates, shapes and the fit box, computed exactly over `real`.
- `Surface`: colours, tools, paint operations, pens.
- `History`: the snapshot log as pure functions, generic in the snapshot type.
- `Engine`: every canvas handler as a pure state transition, the event loop `Run`, the invariant `Inv` it keeps, and `FromBlank`, which says the history still begins with the blank background.
- `Generation`: the client side of generateImage.
- `StudioPage`: the page as a class whose fields its handler methods update in place. Each method is proved to produce exactly the state the matching `Engine` or `Generation` function describes. The class invariant `Valid` is `Engine.Inv`, which the constructor, the saved-canvas load and every handler establish or keep.
- `GenerateImage`: the edge function, as the pure function `Handle` of the request, the configured key and the gateway's answer.

Two behaviours of the page are easy to miss:
- **A shape click adds two history entries.** `startDrawing` enters the drawing state for every tool, and mouse-up is bound to `stopDrawing`. So a click with a shape tool (mouse-down, mouse-up, click) saves the unchanged canvas first and then the shape. `Engine.ShapeClickSavesTwice` states it.
- **Opening a project with saved canvas data replaces the history.** The saved image's onload callback is created on the first render, so its `saveToHistory` sees the empty history and the cursor at -1. Once the image has loaded, the history is that one canvas: the background entry and anything drawn before are gone. `Engine.LoadSavedCanvas` models this, and `Engine.LoadSavedCanvasDiscardsHistory` states it. The load keeps the engine invariant `Inv`, so every handler still applies afterwards. It ends `FromBlank`, the separate property that the first entry is the blank background. Only `Engine.UndoAllRestoresBackground` rests on `FromBlank`, so only that lemma is limited to a page opened without saved canvas data. The load is not one of the events of `Engine.Step`: it happens once, when the page opens.

`generateImage` has no guard against a second request while one is in flight. Only the buttons' disabled state prevents one, so the model claims no such exclusion.

## Model

| member | source | states |
|---|---|---|
| History.Push | src/pages/Studio.tsx:142-152 | The entries up to the cursor are kept and the new snapshot goes after them. The cursor moves onto it, it is the last entry and it is current, so nothing can be redone. |
| History.Undo | src/pages/Studio.tsx:154-164 | The list never changes. With the cursor past the first entry it steps back exactly one, and then redo is possible. Otherwise the log is unchanged. |
| History.Redo | src/pages/Studio.tsx:166-176 | The list never changes. With the cursor before the last entry it steps forward exactly one, and then undo is possible. Otherwise the log is unchanged. |
| History.UndoThenRedo | src/pages/Studio.tsx:154-176 | Undo followed by redo gives back exactly the same log. |
| History.RedoThenUndo | src/pages/Studio.tsx:154-176 | Redo followed by undo gives back exactly the same log. |
| History.PushAfterUndoDiscardsRedo | src/pages/Studio.tsx:142-164 | A push after an undo drops every entry that could have been redone. Redo is then a no-op, and the entries before the cursor are kept. |
| History.UndoNMovesBack | src/pages/Studio.tsx:154-164 | `n` undos move the cursor back `n` entries, stopping at the first, and never change the list. |
| History.UndoNThenRedoN | src/pages/Studio.tsx:154-176 | `n` undos then `n` redos, with `n` at most the cursor, give back the same log. |
| History.RedoNLast | src/pages/Studio.tsx:166-176 | The last of `n + 1` redos can be taken first. |
| History.PushAllAppends | src/pages/Studio.tsx:142-152 | Successive pushes keep the entries up to the cursor, put the pushed snapshots after them in order, and move the cursor by their number. |
| History.PushesThenUndos | src/pages/Studio.tsx:142-164 | After any number of pushes, as many undos bring back the cursor position and the snapshot current before them. |
| History.PushKeepsFirst | src/pages/Studio.tsx:142-152 | A push onto a non-empty log keeps its first entry. |
| Engine.Init | src/pages/Studio.tsx:76-93 | The canvas starts as the background alone, and that is the single history entry, at cursor 0. The invariant holds, the first entry is the blank background, and nothing is being drawn. The native size is the given one, and the settings start at the pencil, white and brush size 5. |
| Engine.SaveToHistory | src/pages/Studio.tsx:142-152 | Only the history changes. The cursor moves one on, onto the canvas, with nothing to redo, and the entries up to the old cursor are kept. `Engine.SaveIsUndoable` states what one undo then gives. |
| Engine.ClearCanvas | src/pages/Studio.tsx:178-186 | The background is painted over the canvas and saved one step on. The entries up to the old cursor are kept, the new canvas follows them as the current entry, and nothing is left to redo. Nothing else changes. `Engine.ClearIsUndoable` states the undo. |
| Engine.StartDrawing | src/pages/Studio.tsx:202-212 | Drawing starts with a path holding only the pointer position. Nothing else changes: not the canvas, the history, the settings or the size. `Engine.StrokeGestureIsOneEntry` states the whole gesture. |
| Engine.Draw | src/pages/Studio.tsx:214-236 | Idle, or with a shape tool, nothing changes. Otherwise only the path and the canvas change: the pointer joins the path, and the path is stroked with the tool's pen. |
| Engine.StopDrawing | src/pages/Studio.tsx:238-243 | Drawing stops and the canvas is not changed. If drawing was in progress, only the flag and the history change: the canvas is saved one step on, with nothing to redo, and the entries up to the old cursor are kept. Otherwise nothing changes. |
| Engine.DrawShape | src/pages/Studio.tsx:245-275 | With a shape tool, only the canvas and history change: the tool's shape is stamped at the pointer and the result is saved one step on. The entries up to the old cursor are kept, the new canvas follows them as the current entry, and nothing is left to redo. With any other tool nothing changes. |
| Engine.HandleCanvasClick | src/pages/Studio.tsx:277-281 | With a shape tool only the canvas and history change: the tool's shape is stamped at the pointer and the stamped canvas is saved one step on. The entries up to the old cursor are kept, the new canvas follows them as the current entry, and nothing is left to redo. With the pencil or the eraser nothing changes. |
| Engine.UploadImage | src/pages/Studio.tsx:283-308 | Only the canvas and history change: the image is drawn in its 0.8 fit box and saved one step on. The entries up to the old cursor are kept, the new canvas follows them as the current entry, and nothing is left to redo. `Engine.ImageDrawIsUndoable` states the box's properties. |
| Engine.ApplyToCanvas | src/pages/Studio.tsx:396-418 | Only the canvas and history change: the background, then the image in its 0.9 fit box, are drawn and saved one step on. The entries up to the old cursor are kept, the new canvas follows them as the current entry, and nothing is left to redo. `Engine.ImageDrawIsUndoable` states the box's properties. |
| Engine.LoadSavedCanvas | src/pages/Studio.tsx:107-118 | The saved image is drawn at its natural size in the top-left corner. The history becomes that canvas alone, at cursor 0, because the save runs in the first render's callback. The engine invariant holds afterwards. |
| Engine.LoadSavedCanvasDiscardsHistory | src/pages/Studio.tsx:107-118 | After the load, from any state, the history holds one entry, which is not the blank background. Undo and redo change nothing. The engine invariant holds, but `FromBlank` does not. |
| Engine.ReopenedProjectKeepsInv | src/pages/Studio.tsx:107-118 | Whatever events follow the saved-canvas load, the engine invariant holds, so a reopened project is drawn on, undone and cleared as any other. |
| Engine.Step | src/pages/Studio.tsx:142-309 | It dispatches each event bound at lines 552-562 to its handler. The pointer handlers, undo, redo, clear and upload are at these lines, `applyToCanvas` is at lines 396-418, and the tool, colour and brush controls are at lines 449-541. Any event keeps the native size. It moves the cursor by at most one. It changes the list of snapshots only by saving the canvas it leaves. `Engine.StepKeepsInv` states the invariant it keeps. |
| Engine.Undo | src/pages/Studio.tsx:154-164 | The history moves exactly as `History.Undo`. When an undo happens the canvas becomes the snapshot at the new cursor and nothing else changes. Otherwise the whole state is unchanged. |
| Engine.Redo | src/pages/Studio.tsx:166-176 | The history moves exactly as `History.Redo`. When a redo happens the canvas becomes the snapshot at the new cursor and nothing else changes. Otherwise the whole state is unchanged. |
| Engine.SaveIsUndoable | src/pages/Studio.tsx:142-164 | Saving puts the canvas at a cursor one further on with nothing to redo. One undo then shows the snapshot that was current before. |
| Engine.StepKeepsInv | src/pages/Studio.tsx:142-309 | Every handler (the pointer events, undo, redo, clear, upload, apply and the settings) keeps the invariant: the history is well formed and never empty, and unless a stroke is in progress the canvas is the snapshot at the cursor. No handler replaces a first entry that is the blank background. |
| Engine.RunKeepsInv | src/pages/Studio.tsx:552-562 | Any sequence of events keeps the invariant, and keeps a blank first entry. |
| Engine.UndoTimesShowsSnapshot | src/pages/Studio.tsx:154-164 | `n` presses of undo from a settled canvas move the history exactly as `n` history undos, and show the snapshot reached. |
| Engine.UndoAllRestoresBackground | src/pages/Studio.tsx:76-93 | For a page opened without saved canvas data: whatever events followed initialisation, once the drawing has settled, undoing as often as the cursor is deep reaches cursor 0 and the blank background canvas. |
| Engine.UndoRedoRoundTrip | src/pages/Studio.tsx:154-176 | On a settled canvas that can be undone, redo after undo gives back the same state, canvas included. |
| Engine.IdlePointerIsNoop | src/pages/Studio.tsx:214-215 | When nothing is being drawn, a move, a release and a mouse-leave all change nothing. |
| Engine.DrawAll | src/pages/Studio.tsx:214-236 | Moves while drawing never touch the history and never remove paint. |
| Engine.DrawAllOnlyPaints | src/pages/Studio.tsx:214-236 | Moves change neither the history, the drawing flag nor the settings. What was on the canvas stays as a prefix under the new strokes. |
| Engine.StrokeGestureIsOneEntry | src/pages/Studio.tsx:202-243 | Press, any moves, release from an idle canvas adds exactly one history entry: the finished drawing, with nothing to redo. One undo brings back the canvas from before the gesture. |
| Engine.ShapeClickSavesTwice | src/pages/Studio.tsx:202-281 | With a shape tool, mouse-down/mouse-up/click adds two entries. The first repeats the canvas before the click, and the canvas ends with the one stamped shape. One undo removes the shape, and a second shows the same canvas again. |
| Engine.StrokeToolClickIsNoop | src/pages/Studio.tsx:277-281 | With the pencil or the eraser, a click changes nothing. |
| Engine.ClearIsUndoable | src/pages/Studio.tsx:178-186 | Clearing paints the background over the canvas and pushes exactly one entry. One undo restores the previous state apart from the history list. |
| Engine.DrawShapeSavesOnce | src/pages/Studio.tsx:245-275 | With a shape tool, exactly one shape is stamped at the pointer and the history gets exactly one entry: it is the entries up to the old cursor followed by the stamped canvas, with nothing to redo. One undo removes the stamp. With any other tool nothing changes. |
| Engine.ImageDrawIsUndoable | src/pages/Studio.tsx:283-308 | An upload draws the image over the canvas, and an apply draws it over a fresh background. The box keeps the aspect ratio, is centred, lies inside the canvas and spans at most the factor of it on both axes. Either is one history entry: the history is the entries up to the old cursor followed by the new canvas, with nothing to redo. One undo removes it. |
| Geometry.CanvasCoordinates | src/pages/Studio.tsx:188-200 | The rectangle's left and top edges map to 0. A pointer inside the displayed rectangle maps inside the canvas's native size, each axis by its own scale. |
| Geometry.CoordinatesRoundTrip | src/pages/Studio.tsx:188-200 | Mapping back to the screen with the inverse scales returns the original pointer position. |
| Geometry.ScaledWithin | src/pages/Studio.tsx:193-198 | An offset within the displayed extent, once scaled, lies within the native extent. |
| Geometry.SquareBox | src/pages/Studio.tsx:259-260 | The square is `size` by `size` and centred on the click. |
| Geometry.DiscRadius | src/pages/Studio.tsx:261-264 | The disc's radius is half the shape size. |
| Geometry.TriangleAt | src/pages/Studio.tsx:265-271 | The apex is half the size above the click. The base is horizontal, half the size below it, and spans half the size to each side. `Geometry.TriangleFillsSquare` relates it to the square. |
| Geometry.BoundingBox | src/pages/Studio.tsx:265-271 | The box holds all three vertices, and each of its four edges passes through one of them, so it is the smallest such box. `Geometry.TriangleFillsSquare` states that for the stamp it is the square. |
| Geometry.TriangleFillsSquare | src/pages/Studio.tsx:265-271 | The triangle's bounding box is the square at the same click. Its apex is at the top centre of the square and its base is the square's bottom edge. |
| Geometry.FitBox | src/pages/Studio.tsx:296-300 | The box keeps the image's aspect ratio and is centred on the canvas, for any factor. For a non-negative factor it spans at most that factor of the canvas on both axes. `Geometry.FitBoxProperties` adds containment and the tight axis. |
| Geometry.FitBoxProperties | src/pages/Studio.tsx:296-302 | The fitted image keeps its aspect ratio and is centred on the canvas. It lies inside the canvas for a factor of at most one. It spans at most that factor of the canvas on both axes and exactly that factor on one, so the scale is `Math.min` of the two axis scales. |
| Surface.StrokePen | src/pages/Studio.tsx:223-235 | Only the pencil and the eraser stroke. The pencil uses the selected colour at the brush size. The eraser uses the background colour `#1a1a2e` at three times the brush size. |
| Surface.EraserTripleWidth | src/pages/Studio.tsx:223-234 | The eraser's width is three times the pencil's at the same brush size. |
| Surface.ShapePaint | src/pages/Studio.tsx:245-272 | A click stamps a shape exactly for the square, circle and triangle tools, filled in the selected colour. |
| Surface.ShapesShareFootprint | src/pages/Studio.tsx:253-271 | The square has side `10 * brushSize` and is centred on the click. The disc is centred on the click and its diameter is that side. The triangle is the one `Geometry.TriangleAt` gives. It points up: its apex is on the square's top edge, its base is the bottom edge, and its bounding box is the square. |
| StudioPage.Studio.constructor | src/pages/Studio.tsx:57-93 | The page starts in the state `Engine.Init` describes, with an empty prompt, no generation running and an empty gallery. |
| StudioPage.Studio.SaveToHistory | src/pages/Studio.tsx:142-152 | Slicing and appending in place gives the state `Engine.SaveToHistory` describes. The cursor is on the last entry, which is the canvas. |
| StudioPage.Studio.Undo | src/pages/Studio.tsx:154-164 | The fields change exactly as `Engine.Undo` says, and the invariant is kept. |
| StudioPage.Studio.Redo | src/pages/Studio.tsx:166-176 | The fields change exactly as `Engine.Redo` says, and the invariant is kept. |
| StudioPage.Studio.ClearCanvas | src/pages/Studio.tsx:178-186 | The fields change exactly as `Engine.ClearCanvas` says, and the invariant is kept. |
| StudioPage.Studio.StartDrawing | src/pages/Studio.tsx:202-212 | The fields change exactly as `Engine.StartDrawing` says: drawing starts with a fresh path at the pointer. |
| StudioPage.Studio.Draw | src/pages/Studio.tsx:214-236 | The fields change exactly as `Engine.Draw` says, and the invariant is kept. |
| StudioPage.Studio.StopDrawing | src/pages/Studio.tsx:238-243 | The fields change exactly as `Engine.StopDrawing` says, and the invariant is kept. |
| StudioPage.Studio.DrawShape | src/pages/Studio.tsx:245-275 | The inline geometry and save give exactly the state `Engine.DrawShape` describes. |
| StudioPage.Studio.HandleCanvasClick | src/pages/Studio.tsx:277-281 | The fields change exactly as `Engine.HandleCanvasClick` says. |
| StudioPage.Studio.HandleImageUpload | src/pages/Studio.tsx:283-308 | The inline 0.8 fit and save give exactly the state `Engine.UploadImage` describes. |
| StudioPage.Studio.ApplyToCanvas | src/pages/Studio.tsx:396-418 | The background fill, the inline 0.9 fit and save give exactly the state `Engine.ApplyToCanvas` describes. The notification is "Applied to canvas!". |
| StudioPage.Studio.LoadSavedCanvas | src/pages/Studio.tsx:107-118 | Drawing the saved image and saving through the first render's empty history give exactly the state `Engine.LoadSavedCanvas` describes, and the class invariant holds afterwards, so every handler can run on a reopened project. |
| StudioPage.Studio.SelectTool | src/pages/Studio.tsx:449-491 | Only the tool changes. |
| StudioPage.Studio.SelectColor | src/pages/Studio.tsx:537-541 | Only the colour changes. |
| StudioPage.Studio.SetBrushSize | src/pages/Studio.tsx:523-531 | Only the brush size changes, within 1..20. |
| StudioPage.Studio.SetPrompt | src/pages/Studio.tsx:570-574 | The prompt becomes the typed text. |
| StudioPage.Studio.GenerateImage | src/pages/Studio.tsx:315-332 | The request is exactly `Generation.Submit` of the current prompt and canvas. A refused request shows the validation error and leaves `generating` alone. An accepted one raises `generating`. |
| StudioPage.Studio.FinishGeneration | src/pages/Studio.tsx:333-362 | `generating` is false after success and after failure. The gallery is `Generation.Settle` of the outcome, so a saved row goes first. The notification is the one for the outcome. |
| Generation.TrimStart | src/pages/Studio.tsx:316 | The result is a suffix of the input, and the part removed is all white space. A non-empty result starts with a non-white-space character. |
| Generation.TrimEnd | src/pages/Studio.tsx:316 | The result is a prefix of the input, and the part removed is all white space. A non-empty result ends with a non-white-space character. |
| Generation.IsJsWhitespace | src/pages/Studio.tsx:316 | The characters `String.prototype.trim` removes: white space and line terminators. `Generation.TrimEmptyIffBlank` uses them. |
| Generation.Trim | src/pages/Studio.tsx:316 | `prompt.trim()`: leading, then trailing white space removed. `Generation.TrimEmptyIffBlank` states when it is empty. |
| Generation.TrimEmptyIffBlank | src/pages/Studio.tsx:316 | `prompt.trim()` is empty exactly when every character is JavaScript white space or a line terminator. |
| Generation.Submit | src/pages/Studio.tsx:316-332 | The request is refused exactly when the prompt is blank and the action is not "enhance". An accepted one carries the typed prompt, the current canvas and the action. |
| Generation.SentPrompt | src/pages/Studio.tsx:316-331 | The prompt sent is never empty. It is "Enhance and polish this design" exactly when nothing was typed, which only "enhance" accepts. A white-space-only prompt is sent unchanged. |
| Generation.Outcome | src/pages/Studio.tsx:334-355 | A row is created exactly when the invocation succeeds, its body has no error, and the insert succeeds. The row carries the returned URL, the store's id and time, the action and a non-empty prompt. A failure carries the invocation's error message, else the body's `error`, else the insert's error message. |
| Generation.RecordedPrompt | src/pages/Studio.tsx:343-347 | The row records the typed prompt, or "Enhance design" when nothing was typed. |
| Generation.ToastFor | src/pages/Studio.tsx:356-359 | Success shows "Image generated successfully!". A failure shows its message as an error, or "Failed to generate image" when the message is empty. The text is never empty. |
| Generation.Settle | src/pages/Studio.tsx:355 | A created row is prepended to the gallery and the rest is kept in order. On failure the gallery is unchanged. |
| GenerateImage.ReferenceNote | supabase/functions/generate-image/index.ts:27-30 | A truthy canvas image gives the one fixed note; a falsy one gives the empty string. |
| GenerateImage.TemplateFor | supabase/functions/generate-image/index.ts:32-47 | 'logo', 'enhance', '3d' and 'animation' each select their own template, each exactly for that action type. Anything else, absent included, selects the default. |
| GenerateImage.PromptOf | supabase/functions/generate-image/index.ts:32-47 | The reverse of template filling: when the reference note, the lead and the trail surround the text, what is between them is read back. |
| GenerateImage.EnhancedPrompt | supabase/functions/generate-image/index.ts:27-47 | The reference note, then the template's lead, the prompt and its trail. `GenerateImage.PromptEmbedded`, `GenerateImage.NoteOpensPrompt` and `GenerateImage.EndsAs` state what it holds. |
| GenerateImage.PromptEmbedded | supabase/functions/generate-image/index.ts:32-47 | Every template embeds the caller's prompt unchanged: it reads back from the enhanced prompt. An absent prompt reads back as "undefined". |
| GenerateImage.NoteOpensPrompt | supabase/functions/generate-image/index.ts:27-47 | The enhanced prompt starts with the reference note: the fixed text when there is a sketch, nothing otherwise. |
| GenerateImage.Signature | supabase/functions/generate-image/index.ts:34-46 | Each template's trailing text ends with its own pair of characters. |
| GenerateImage.EndsAs | supabase/functions/generate-image/index.ts:32-47 | An enhanced prompt ends as the trailing text of the template its action type selects. |
| GenerateImage.TemplatesEndDifferently | supabase/functions/generate-image/index.ts:32-47 | Two action types that select different templates give enhanced prompts that end differently, whatever the prompt and sketch. |
| GenerateImage.TemplatesDistinct | supabase/functions/generate-image/index.ts:32-47 | Different templates give different enhanced prompts for the same prompt and sketch. |
| GenerateImage.Messages | supabase/functions/generate-image/index.ts:50-73 | Always exactly one message, with role "user". With a sketch it has two parts: a text part that is the sketch introduction followed by the enhanced prompt, then an image_url part whose url is the sketch. Without one the content is the enhanced prompt alone. |
| GenerateImage.BuildGatewayRequest | supabase/functions/generate-image/index.ts:77-88 | The POST to the gateway: a bearer token from the key, the image model, the messages for the enhanced prompt, and the image and text modalities. `GenerateImage.RequestCarriesPrompt` states that it carries the caller's prompt. |
| GenerateImage.RequestCarriesPrompt | supabase/functions/generate-image/index.ts:50-88 | In the request sent to the gateway, the message text after the sketch introduction reads back as the caller's prompt. |
| GenerateImage.Decimal | supabase/functions/generate-image/index.ts:107 | A status written in decimal is non-empty and made of the digits 0 to 9. |
| GenerateImage.DecimalRoundTrip | supabase/functions/generate-image/index.ts:107 | The decimal text of a status reads back as that status. |
| GenerateImage.Fail | supabase/functions/generate-image/index.ts:129-135 | A thrown error becomes status 500 with the JSON and CORS headers and the error's message. |
| GenerateImage.MapUpstream | supabase/functions/generate-image/index.ts:90-135 | 429 gives 429 with the rate-limit message, and 402 gives 402 with the usage-limit message. Any other non-ok status gives 500 with "AI gateway error: " and the status. An ok answer without an image URL gives 500 "No image generated". A failed fetch, or an ok answer whose body is not JSON, gives 500 with the error's message. Status 200 happens exactly for an ok JSON answer with an image URL, and then the body has that URL and the text reply, or "Image generated successfully". Every response has the JSON and CORS headers. |
| GenerateImage.Handle | supabase/functions/generate-image/index.ts:8-135 | OPTIONS returns a null body with the CORS headers and sends nothing. A request is sent to the gateway exactly when the method is not OPTIONS, the body parsed and the key is set. It is exactly the request built from the body, and the response is then the mapped gateway answer. A missing key gives 500 "LOVABLE_API_KEY is not configured". A body that is not JSON gives 500 with the parse error's message. |
| GenerateImage.StatusHasThreeDigits | supabase/functions/generate-image/index.ts:107 | A gateway status is written with three digits. |
| GenerateImage.FailuresDistinguishable | supabase/functions/generate-image/index.ts:21-135 | The rate-limit, usage-limit, no-image, missing-key and gateway-status messages are pairwise different. The status reads back from the gateway message. |

## Left out

- Pixels: the browser canvas API (stroke, arc, fill, drawImage, getImageData, putImageData). A canvas is the sequence of paint operations, so two canvases that paint the same pixels differently count as different snapshots.
- The checks for a missing canvas element or 2D context. The handlers would return early then; the model takes the canvas as mounted. For the same reason `getCanvasCoordinates`' fallback to (0, 0) is not modelled.
- The 2D context's line cap, its fill and stroke styles, and the path that `drawShape` resets. The next stroke always starts a fresh path, so no state outside the paint records depends on them.
- `fetchProject`: the query and its error path (a toast and a navigation away), and the project name. What it draws once a saved canvas has loaded, and how that resets the history, is `Engine.LoadSavedCanvas`.
- `fetchGeneratedImages`, `saveProject`, `downloadImage`: Supabase and DOM I/O with no logic to model beyond success or failure.
- The FileReader and Image onload callbacks: an upload or an apply is modelled as the moment its image has loaded (`LoadedImage`, with a non-empty natural size).
- The PNG encoding of the canvas (toDataURL): the body sent carries the canvas value itself.
- supabase-js's handling of non-2xx responses from the function: `InvokeOutcome` is a parameter, and it carries either the transport error or the parsed body's error and URL. With supabase-js, a non-2xx answer arrives as `error` with a generic message and no `data`. So the rate-limit and usage-limit messages that `GenerateImage.FailuresDistinguishable` proves different never reach the page's notification: that page shows the library's generic message instead. This rests on the library's behaviour, which is not part of this model.
- React's batching of state updates and stale closures over `history`/`historyIndex` and `generatedImages`: handlers run one at a time and see each other's updates. The one exception modelled is the saved-canvas load, above. So `Generation.Settle` and `StudioPage.Studio.FinishGeneration` prepend the new row to the current gallery. The source prepends it to the gallery captured when the request was submitted (src/pages/Studio.tsx:355), which drops a gallery that `fetchGeneratedImages` loaded while the request was pending.
- Concurrency: two generations in flight, and the buttons disabled while `generating` is set. `generating` is modelled as a flag that is set and reset.
- Floating point: every coordinate, shape and fit computation is exact over `real`, and NaN and infinities do not arise.
- Geometry.CanvasCoordinates: a displayed rectangle of zero width or height is excluded by the `DisplayBox` type. The canvas is laid out with a positive size, and the source would divide by zero.
- StudioPage.Studio.SelectColor: any colour string is accepted, not only the ten swatches.
- GenerateImage.Handle: JSON fields that are present but not strings are not modelled; a field is a string or absent.
- `response.text()` on a failing gateway answer and all console logging: the text is only logged.
- `Deno.env.get`, `serve` and `fetch`: the key is a parameter, and the gateway's answer is the `Upstream` value, a network error or a status with a parsed or unparsable body.
