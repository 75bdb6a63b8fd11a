/**
 * The client half of image generation on the studio page (generateImage):
 * the check on the prompt, the body sent to the generate-image function, and
 * what the page does with each outcome.
 */
module Generation {
  import opened Wrappers
  import opened Surface

  /** Sent in place of an empty prompt. */
  const DefaultSentPrompt: string := "Enhance and polish this design"
  /** Recorded in place of an empty prompt. */
  const DefaultRecordPrompt: string := "Enhance design"
  /** The action that may be requested with a blank prompt. */
  const EnhanceAction: string := "enhance"

  const ValidationMessage: string := "Please enter a prompt describing what you want to create"
  const FailureFallback: string := "Failed to generate image"
  const SuccessMessage: string := "Image generated successfully!"

  // ---------------------------------------------------------------------------
  // prompt.trim()
  // ---------------------------------------------------------------------------

  /** The characters JavaScript's String.prototype.trim removes: white space and line terminators. */
  predicate IsJsWhitespace(c: char) {
    || c == ' ' || c == '\t' || c == '\n' || c == '\r'
    || c == '\U{B}' || c == '\U{C}' || c == '\U{A0}' || c == '\U{1680}'
    || ('\U{2000}' <= c <= '\U{200A}')
    || c == '\U{2028}' || c == '\U{2029}' || c == '\U{202F}' || c == '\U{205F}'
    || c == '\U{3000}' || c == '\U{FEFF}'
  }

  predicate IsBlank(s: string) {
    forall i :: 0 <= i < |s| ==> IsJsWhitespace(s[i])
  }

  /** `s` without its leading white space. */
  function TrimStart(s: string): (r: string)
    ensures |r| <= |s| && r == s[|s| - |r|..]
    ensures IsBlank(s[..|s| - |r|])
    ensures r != [] ==> !IsJsWhitespace(r[0])
    decreases |s|
  {
    if s != [] && IsJsWhitespace(s[0]) then
      var r := TrimStart(s[1..]);
      assert s[..|s| - |r|] == [s[0]] + s[1..][..|s[1..]| - |r|];
      r
    else s
  }

  /** `s` without its trailing white space. */
  function TrimEnd(s: string): (r: string)
    ensures |r| <= |s| && r == s[..|r|]
    ensures IsBlank(s[|r|..])
    ensures r != [] ==> !IsJsWhitespace(r[|r| - 1])
    decreases |s|
  {
    if s != [] && IsJsWhitespace(s[|s| - 1]) then
      var r := TrimEnd(s[..|s| - 1]);
      assert s[|r|..] == s[..|s| - 1][|r|..] + [s[|s| - 1]];
      r
    else s
  }

  function Trim(s: string): string {
    TrimEnd(TrimStart(s))
  }

  /** `prompt.trim()` is empty exactly when the prompt is all white space. */
  lemma TrimEmptyIffBlank(s: string)
    ensures Trim(s) == [] <==> IsBlank(s)
  {
    var t := TrimStart(s);
    assert t != [] ==> t[0] == s[|s| - |t|];
    assert t[0..] == t;
    assert s == s[..|s| - |t|] + t;
    BlankConcat(s[..|s| - |t|], t);
  }

  lemma BlankConcat(a: string, b: string)
    ensures IsBlank(a + b) <==> IsBlank(a) && IsBlank(b)
  {
    if IsBlank(a + b) {
      forall i | 0 <= i < |a| ensures IsJsWhitespace(a[i]) {
        assert (a + b)[i] == a[i];
      }
      forall i | 0 <= i < |b| ensures IsJsWhitespace(b[i]) {
        assert (a + b)[|a| + i] == b[i];
      }
    }
  }

  // ---------------------------------------------------------------------------
  // The request
  // ---------------------------------------------------------------------------

  /** The body sent to the generate-image function; the canvas goes as a PNG of its snapshot. */
  datatype InvokeBody = InvokeBody(prompt: string, canvasImage: Canvas, actionType: string)

  /** A request on its way: the prompt as typed, and the body that was sent. */
  datatype Pending = Pending(typedPrompt: string, body: InvokeBody)

  /**
   * The gate of generateImage: a blank prompt is refused for every action but
   * "enhance"; an accepted request sends the prompt as typed, or the default
   * when nothing was typed at all, with the current canvas and the action.
   */
  function Submit(prompt: string, canvas: Canvas, actionType: string): (p: Option<Pending>)
    ensures p.None? <==> IsBlank(prompt) && actionType != EnhanceAction
    ensures p.Some? ==> (&& p.value.typedPrompt == prompt
                         && p.value.body.canvasImage == canvas
                         && p.value.body.actionType == actionType)
  {
    TrimEmptyIffBlank(prompt);
    if Trim(prompt) == [] && actionType != EnhanceAction then None
    else Some(Pending(prompt, InvokeBody(if prompt == "" then DefaultSentPrompt else prompt, canvas, actionType)))
  }

  /**
   * The prompt sent is never empty. It is the default exactly when nothing was
   * typed, which only "enhance" accepts; a prompt of only white space is sent
   * as it is.
   */
  lemma SentPrompt(prompt: string, canvas: Canvas, actionType: string)
    requires Submit(prompt, canvas, actionType).Some?
    ensures var sent := Submit(prompt, canvas, actionType).value.body.prompt;
      && sent != ""
      && (prompt == "" ==> sent == DefaultSentPrompt && actionType == EnhanceAction)
      && (prompt != "" ==> sent == prompt)
      && (IsBlank(prompt) ==> actionType == EnhanceAction)
  {
  }

  // ---------------------------------------------------------------------------
  // Outcomes
  // ---------------------------------------------------------------------------

  /** A row of generated_images as the page lists it. */
  datatype GeneratedImage = GeneratedImage(id: string, imageUrl: string, prompt: string,
                                           actionType: string, createdAt: string)

  /**
   * What supabase.functions.invoke reports: a transport or status error, or
   * the parsed body, whose `error` is empty when absent.
   */
  datatype InvokeOutcome = InvokeError(message: string) | InvokeData(error: string, imageUrl: string)

  /** What inserting the row reports: an error, or the id and time the store assigned. */
  datatype SaveOutcome = SaveError(message: string) | Saved(id: string, createdAt: string)

  /** The notification shown. */
  datatype Toast = ToastSuccess(text: string) | ToastError(text: string)

  /**
   * The row created for a request, or the message of the first failure: the
   * invocation, an error in its body, or the insert.
   */
  function Outcome(p: Pending, invoke: InvokeOutcome, save: SaveOutcome): (r: Result<GeneratedImage, string>)
    ensures r.Success? <==> invoke.InvokeData? && invoke.error == "" && save.Saved?
    ensures r.Success? ==> (&& r.value.imageUrl == invoke.imageUrl
                            && r.value.id == save.id && r.value.createdAt == save.createdAt
                            && r.value.actionType == p.body.actionType
                            && r.value.prompt != "")
    ensures r.Failure? ==> r.error == (if invoke.InvokeError? then invoke.message
                                       else if invoke.error != "" then invoke.error
                                       else save.message)
  {
    match invoke
    case InvokeError(m) => Failure(m)
    case InvokeData(error, url) =>
      if error != "" then Failure(error)
      else match save
        case SaveError(m) => Failure(m)
        case Saved(id, at) =>
          var recorded := if p.typedPrompt == "" then DefaultRecordPrompt else p.typedPrompt;
          Success(GeneratedImage(id, url, recorded, p.body.actionType, at))
  }

  /**
   * The row records the prompt as typed; when nothing was typed it records
   * "Enhance design", not the default that was sent.
   */
  lemma RecordedPrompt(p: Pending, url: string, id: string, at: string)
    ensures var r := Outcome(p, InvokeData("", url), Saved(id, at));
      && (p.typedPrompt != "" ==> r.value.prompt == p.typedPrompt)
      && (p.typedPrompt == "" ==> r.value.prompt == DefaultRecordPrompt)
  {
  }

  /** The notification for an outcome; an error without a message gets the fallback. */
  function ToastFor(r: Result<GeneratedImage, string>): (t: Toast)
    ensures t.ToastSuccess? <==> r.Success?
    ensures t.text != ""
    ensures r.Success? ==> t == ToastSuccess(SuccessMessage)
    ensures r.Failure? && r.error != "" ==> t == ToastError(r.error)
    ensures r.Failure? && r.error == "" ==> t == ToastError(FailureFallback)
  {
    match r
    case Success(_) => ToastSuccess(SuccessMessage)
    case Failure(m) => ToastError(if m != "" then m else FailureFallback)
  }

  /** The generated-images list after an outcome: a new row goes first, a failure changes nothing. */
  function Settle(images: seq<GeneratedImage>, r: Result<GeneratedImage, string>): (out: seq<GeneratedImage>)
    ensures r.Success? ==> |out| == |images| + 1 && out[0] == r.value && out[1..] == images
    ensures r.Failure? ==> out == images
  {
    if r.Success? then [r.value] + images else images
  }
}
