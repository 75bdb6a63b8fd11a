/**
 * The generate-image edge function: from the request it builds the prompt
 * for the chosen action, wraps it (and the sketch, when there is one) into the
 * chat message for the AI gateway, and maps the gateway's answer to the
 * response the page receives. The environment lookup, the call to the
 * gateway and the server loop are inputs here: the API key is a parameter and
 * the gateway's answer is the `Upstream` value the handler is given.
 */
module GenerateImage {
  import opened Wrappers

  // ---------------------------------------------------------------------------
  // JavaScript truthiness of the request's string fields
  // ---------------------------------------------------------------------------

  /** A field of the request body that is a string, or absent. */
  predicate Truthy(v: Option<string>) { v.Some? && v.value != "" }

  /** A field as a template literal shows it: an absent one reads "undefined". */
  function Interpolated(v: Option<string>): string {
    if v.Some? then v.value else "undefined"
  }

  // ---------------------------------------------------------------------------
  // The prompt
  // ---------------------------------------------------------------------------

  const ReferenceNoteText: string :=
    "Use the provided sketch ONLY as a rough concept/idea "
      + "reference. Do NOT copy the rough lines or shaky "
      + "strokes. Instead, create a completely new, "
      + "professionally designed image inspired by the general "
      + "concept shown. "

  /** The note that opens the prompt when a sketch is attached, and nothing otherwise. */
  function ReferenceNote(canvasImage: Option<string>): (note: string)
    ensures Truthy(canvasImage) ==> note == ReferenceNoteText
    ensures !Truthy(canvasImage) ==> note == ""
  {
    if Truthy(canvasImage) then ReferenceNoteText else ""
  }

  /** The five templates of the switch on `actionType`. */
  datatype Template = Logo | Enhance | ThreeD | Animation | Default

  function TemplateFor(actionType: Option<string>): (t: Template)
    ensures t == Logo <==> actionType == Some("logo")
    ensures t == Enhance <==> actionType == Some("enhance")
    ensures t == ThreeD <==> actionType == Some("3d")
    ensures t == Animation <==> actionType == Some("animation")
  {
    match actionType
    case Some(a) =>
      if a == "logo" then Logo
      else if a == "enhance" then Enhance
      else if a == "3d" then ThreeD
      else if a == "animation" then Animation
      else Default
    case None => Default
  }

  /** The text of a template before the prompt. */
  function Lead(t: Template): string {
    match t
    case Logo => "Create a professional, modern, clean logo design: "
    case Enhance => "Create a polished, professional version of this concept: "
    case ThreeD => "Create a stunning professional 3D render: "
    case Animation => "Create a professional animation-ready frame: "
    case Default => "Create a beautiful, professional, clean image: "
  }

  /** The text of a template after the prompt. */
  function Trail(t: Template): string {
    match t
    case Logo => (". The logo must be crisp, sharp, vector-quality with "
      + "perfect lines and shapes. Minimalist, memorable, "
      + "suitable for branding. Clean solid background. No rough "
      + "edges or sketchy lines.")
    case Enhance => (". Transform into a refined, high-quality design with "
      + "clean lines, perfect shapes, and professional "
      + "aesthetics. Remove all roughness and imperfections.")
    case ThreeD => (". High-quality 3D visualization with realistic "
      + "lighting, clean geometry, smooth surfaces, and dramatic "
      + "shadows. Professional quality.")
    case Animation => (". Clean vector-style art with smooth lines, vibrant "
      + "colors, and professional animation quality. No rough "
      + "sketchy elements.")
    case Default => (". High quality with crisp details, smooth lines, and "
      + "polished finish. Transform any rough concepts into "
      + "refined artwork.")
  }

  /** enhancedPrompt: the reference note, then the action's template around the prompt. */
  function EnhancedPrompt(prompt: Option<string>, canvasImage: Option<string>, actionType: Option<string>): string {
    var t := TemplateFor(actionType);
    ReferenceNote(canvasImage) + Lead(t) + Interpolated(prompt) + Trail(t)
  }

  /**
   * Reading the prompt back out of an enhanced prompt, given the sketch and
   * the action it was built for.
   */
  function PromptOf(enhanced: string, canvasImage: Option<string>, actionType: Option<string>): Option<string> {
    var t := TemplateFor(actionType);
    var head := ReferenceNote(canvasImage) + Lead(t);
    var tail := Trail(t);
    if |head| + |tail| <= |enhanced| && enhanced[..|head|] == head && enhanced[|enhanced| - |tail|..] == tail
    then Some(enhanced[|head|..|enhanced| - |tail|])
    else None
  }

  /** How a concatenation splits back into its three pieces. */
  lemma SplitThree(head: string, middle: string, tail: string)
    ensures var e := head + middle + tail;
      && e[..|head|] == head
      && e[|e| - |tail|..] == tail
      && e[|head|..|e| - |tail|] == middle
  {
  }

  /** Every template embeds the caller's prompt unchanged: it can be read back out. */
  lemma PromptEmbedded(prompt: Option<string>, canvasImage: Option<string>, actionType: Option<string>)
    ensures PromptOf(EnhancedPrompt(prompt, canvasImage, actionType), canvasImage, actionType)
            == Some(Interpolated(prompt))
  {
    var t := TemplateFor(actionType);
    SplitThree(ReferenceNote(canvasImage) + Lead(t), Interpolated(prompt), Trail(t));
  }

  lemma NoteOpensPrompt(prompt: Option<string>, canvasImage: Option<string>, actionType: Option<string>)
    ensures var e := EnhancedPrompt(prompt, canvasImage, actionType);
      |ReferenceNote(canvasImage)| <= |e| && e[..|ReferenceNote(canvasImage)|] == ReferenceNote(canvasImage)
  {
    var t := TemplateFor(actionType);
    var note, rest := ReferenceNote(canvasImage), Lead(t) + Interpolated(prompt) + Trail(t);
    PrefixOfAppend(note, rest);
  }

  lemma PrefixOfAppend(head: string, rest: string)
    ensures var e := head + rest; |head| <= |e| && e[..|head|] == head
  {
  }

  /** The two characters before the last one: enough to tell the templates apart. */
  function Ending(s: string): (char, char)
    requires |s| >= 3
  {
    (s[|s| - 3], s[|s| - 2])
  }

  /** Each template's text after the prompt ends in its own way. */
  function Signature(t: Template): (sig: (char, char))
    ensures |Trail(t)| >= 3 && Ending(Trail(t)) == sig
  {
    match t
    case Logo => ('e', 's')
    case Enhance => ('n', 's')
    case ThreeD => ('t', 'y')
    case Animation => ('t', 's')
    case Default => ('r', 'k')
  }

  lemma EndingOfAppend(head: string, tail: string)
    requires |tail| >= 3
    ensures Ending(head + tail) == Ending(tail)
  {
  }

  lemma EndsAs(prompt: Option<string>, canvasImage: Option<string>, actionType: Option<string>)
    ensures |EnhancedPrompt(prompt, canvasImage, actionType)| >= 3
    ensures Ending(EnhancedPrompt(prompt, canvasImage, actionType)) == Signature(TemplateFor(actionType))
  {
    var t := TemplateFor(actionType);
    var sig := Signature(t);
    EndingOfAppend(ReferenceNote(canvasImage) + Lead(t) + Interpolated(prompt), Trail(t));
  }

  lemma SignatureInjective(t1: Template, t2: Template)
    ensures Signature(t1) == Signature(t2) ==> t1 == t2
  {
  }

  lemma TemplatesEndDifferently(prompt: Option<string>, canvasImage: Option<string>, a1: Option<string>, a2: Option<string>)
    requires TemplateFor(a1) != TemplateFor(a2)
    ensures |EnhancedPrompt(prompt, canvasImage, a1)| >= 3 && |EnhancedPrompt(prompt, canvasImage, a2)| >= 3
    ensures Ending(EnhancedPrompt(prompt, canvasImage, a1)) != Ending(EnhancedPrompt(prompt, canvasImage, a2))
  {
    EndsAs(prompt, canvasImage, a1);
    EndsAs(prompt, canvasImage, a2);
    SignatureInjective(TemplateFor(a1), TemplateFor(a2));
  }

  lemma TemplatesDistinct(prompt: Option<string>, canvasImage: Option<string>, a1: Option<string>, a2: Option<string>)
    requires TemplateFor(a1) != TemplateFor(a2)
    ensures EnhancedPrompt(prompt, canvasImage, a1) != EnhancedPrompt(prompt, canvasImage, a2)
  {
    TemplatesEndDifferently(prompt, canvasImage, a1, a2);
  }

  // ---------------------------------------------------------------------------
  // The message to the gateway
  // ---------------------------------------------------------------------------

  const SketchIntro: string :=
    "I'm providing a rough sketch as inspiration ONLY. Do "
      + "not replicate the messy/shaky lines. Instead, "
      + "understand the general concept/idea and create a "
      + "completely NEW, professionally designed image. "

  datatype Part = TextPart(text: string) | ImageUrlPart(url: string)
  datatype Content = PlainText(text: string) | Parts(parts: seq<Part>)
  datatype Message = Message(role: string, content: Content)

  /**
   * messages: one user message; with a sketch it holds a text part ending in
   * the enhanced prompt and then the sketch's URL, without one it is the
   * enhanced prompt alone.
   */
  function Messages(enhanced: string, canvasImage: Option<string>): (ms: seq<Message>)
    ensures |ms| == 1 && ms[0].role == "user"
    ensures Truthy(canvasImage) ==> (
      && ms[0].content.Parts? && |ms[0].content.parts| == 2
      && ms[0].content.parts[0] == TextPart(SketchIntro + enhanced)
      && |ms[0].content.parts[0].text| == |SketchIntro| + |enhanced|
      && ms[0].content.parts[0].text[|SketchIntro|..] == enhanced
      && ms[0].content.parts[1] == ImageUrlPart(canvasImage.value))
    ensures !Truthy(canvasImage) ==> ms[0].content == PlainText(enhanced)
  {
    if Truthy(canvasImage) then
      var text := SketchIntro + enhanced;
      assert text[|SketchIntro|..] == enhanced;
      [Message("user", Parts([TextPart(text), ImageUrlPart(canvasImage.value)]))]
    else
      [Message("user", PlainText(enhanced))]
  }

  /** The request posted to the gateway. */
  datatype GatewayRequest = GatewayRequest(url: string, authorization: string, model: string,
                                           messages: seq<Message>, modalities: seq<string>)

  const GatewayUrl: string := "https://ai.gateway.lovable.dev/v1/chat/completions"
  const ImageModel: string := "google/gemini-2.5-flash-image-preview"

  function BuildGatewayRequest(apiKey: string, prompt: Option<string>, canvasImage: Option<string>,
                               actionType: Option<string>): GatewayRequest {
    GatewayRequest(GatewayUrl, "Bearer " + apiKey, ImageModel,
                   Messages(EnhancedPrompt(prompt, canvasImage, actionType), canvasImage),
                   ["image", "text"])
  }

  /** The text of a message: the string content, or the text of its first part. */
  function MessageText(m: Message): string {
    match m.content
    case PlainText(t) => t
    case Parts(ps) => if |ps| > 0 && ps[0].TextPart? then ps[0].text else ""
  }

  /**
   * The request sent to the gateway carries the caller's prompt: after the
   * sketch introduction (when there is a sketch), the message text reads back
   * as the prompt through the chosen template.
   */
  lemma RequestCarriesPrompt(apiKey: string, prompt: Option<string>, canvasImage: Option<string>,
                             actionType: Option<string>)
    ensures var r := BuildGatewayRequest(apiKey, prompt, canvasImage, actionType);
      var text := MessageText(r.messages[0]);
      var skip := if Truthy(canvasImage) then |SketchIntro| else 0;
      && skip <= |text|
      && PromptOf(text[skip..], canvasImage, actionType) == Some(Interpolated(prompt))
  {
    var enhanced := EnhancedPrompt(prompt, canvasImage, actionType);
    var ms := Messages(enhanced, canvasImage);
    PromptEmbedded(prompt, canvasImage, actionType);
  }

  // ---------------------------------------------------------------------------
  // Status codes as text
  // ---------------------------------------------------------------------------

  function DigitChar(d: nat): char
    requires d < 10
  {
    "0123456789"[d]
  }

  /** A number in decimal, as `${status}` writes it. */
  function Decimal(n: nat): (s: string)
    ensures |s| > 0
    ensures forall i :: 0 <= i < |s| ==> '0' <= s[i] <= '9'
    decreases n
  {
    if n < 10 then [DigitChar(n)] else Decimal(n / 10) + [DigitChar(n % 10)]
  }

  function DigitValue(c: char): nat {
    if '0' <= c <= '9' then (c as int - '0' as int) as nat else 0
  }

  function ParseDecimal(s: string): nat
    decreases |s|
  {
    if s == [] then 0 else ParseDecimal(s[..|s| - 1]) * 10 + DigitValue(s[|s| - 1])
  }

  /** The decimal text of a number reads back as that number. */
  lemma {:induction false} DecimalRoundTrip(n: nat)
    ensures ParseDecimal(Decimal(n)) == n
    decreases n
  {
    if n >= 10 {
      DecimalRoundTrip(n / 10);
      var s := Decimal(n);
      assert s[..|s| - 1] == Decimal(n / 10);
      assert s[|s| - 1] == DigitChar(n % 10);
    }
  }

  // ---------------------------------------------------------------------------
  // Responses
  // ---------------------------------------------------------------------------

  /** A status a fetch response carries. */
  type HttpStatus = n: int | 200 <= n <= 599 witness 200

  /** What the gateway's JSON gives: choices[0].message.images[0].image_url.url and choices[0].message.content. */
  datatype Completion = Completion(imageUrl: Option<string>, content: Option<string>)

  /** The body of a successful gateway answer: JSON that parsed, or the parse error's message. */
  datatype ReplyBody = Unparsable(message: string) | Json(completion: Completion)

  /** The gateway's answer: the fetch threw, or it answered with a status and a body. */
  datatype Upstream = NetworkError(message: string) | Reply(status: HttpStatus, body: ReplyBody)

  /** The request the function is invoked with; a body that cannot be read as JSON gives the parse error's message. */
  datatype RequestBody = Malformed(message: string)
                       | Fields(prompt: Option<string>, canvasImage: Option<string>, actionType: Option<string>)
  datatype Request = Request(httpMethod: string, body: RequestBody)

  datatype Body = NoBody | ErrorJson(error: string) | ImageJson(imageUrl: string, description: string)
  datatype Header = Header(name: string, value: string)
  datatype Response = Response(status: int, headers: seq<Header>, body: Body)

  const CorsHeaders: seq<Header> := [
    Header("Access-Control-Allow-Origin", "*"),
    Header("Access-Control-Allow-Headers", "authorization, x-client-info, apikey, content-type")]
  const JsonHeaders: seq<Header> := CorsHeaders + [Header("Content-Type", "application/json")]

  const RateLimitMessage: string := "Rate limit exceeded. Please try again in a moment."
  const UsageLimitMessage: string := "Usage limit reached. Please check your Lovable "
    + "workspace credits."
  const MissingKeyMessage: string := "LOVABLE_API_KEY is not configured"
  const NoImageMessage: string := "No image generated"
  const GatewayErrorPrefix: string := "AI gateway error: "
  const DefaultDescription: string := "Image generated successfully"

  function JsonResponse(status: int, body: Body): Response {
    Response(status, JsonHeaders, body)
  }

  /** The catch block: any error thrown in the handler becomes a 500 carrying its message. */
  function Fail(message: string): (r: Response)
    ensures r.status == 500 && r.body == ErrorJson(message) && r.headers == JsonHeaders
  {
    JsonResponse(500, ErrorJson(message))
  }

  predicate IsOk(status: HttpStatus) { status <= 299 }

  /**
   * From the gateway's answer to the function's response: 429 and 402 pass
   * through with their own messages, any other failing status is a 500 naming
   * it, a success without an image URL is a 500, and a success with one
   * returns the URL with the text reply or a default description.
   */
  function MapUpstream(u: Upstream): (r: Response)
    ensures r.headers == JsonHeaders
    ensures r.status == 200 <==> u.Reply? && IsOk(u.status) && u.body.Json? && Truthy(u.body.completion.imageUrl)
    ensures r.status == 200 ==> r.body == ImageJson(u.body.completion.imageUrl.value,
              if Truthy(u.body.completion.content) then u.body.completion.content.value else DefaultDescription)
    ensures r.status != 200 ==> r.body.ErrorJson? && r.status in {402, 429, 500}
    ensures u.Reply? && u.status == 429 ==> r.status == 429 && r.body.error == RateLimitMessage
    ensures u.Reply? && u.status == 402 ==> r.status == 402 && r.body.error == UsageLimitMessage
    ensures u.Reply? && !IsOk(u.status) && u.status != 429 && u.status != 402 ==>
              r.status == 500 && r.body.error == GatewayErrorPrefix + Decimal(u.status)
    ensures u.Reply? && IsOk(u.status) && u.body.Json? && !Truthy(u.body.completion.imageUrl) ==>
              r == Fail(NoImageMessage)
    ensures u.NetworkError? ==> r == Fail(u.message)
    ensures u.Reply? && IsOk(u.status) && u.body.Unparsable? ==> r == Fail(u.body.message)
  {
    match u
    case NetworkError(m) => Fail(m)
    case Reply(status, body) =>
      if !IsOk(status) then
        if status == 429 then JsonResponse(429, ErrorJson(RateLimitMessage))
        else if status == 402 then JsonResponse(402, ErrorJson(UsageLimitMessage))
        else Fail(GatewayErrorPrefix + Decimal(status))
      else match body
        case Unparsable(m) => Fail(m)
        case Json(c) =>
          if !Truthy(c.imageUrl) then Fail(NoImageMessage)
          else
            var description := if Truthy(c.content) then c.content.value else DefaultDescription;
            JsonResponse(200, ImageJson(c.imageUrl.value, description))
  }

  /** The handler's response, and the request it sent to the gateway, if any. */
  datatype Handled = Handled(response: Response, sent: Option<GatewayRequest>)

  /** The whole handler, for a request, the configured key and the gateway's answer. */
  function Handle(req: Request, apiKey: Option<string>, upstream: Upstream): (h: Handled)
    ensures h.sent.Some? <==> req.httpMethod != "OPTIONS" && req.body.Fields? && Truthy(apiKey)
    ensures h.sent.Some? ==> (
      && h.sent.value == BuildGatewayRequest(apiKey.value, req.body.prompt, req.body.canvasImage, req.body.actionType)
      && h.response == MapUpstream(upstream))
    ensures req.httpMethod == "OPTIONS" ==> h.response == Response(200, CorsHeaders, NoBody)
    ensures req.httpMethod != "OPTIONS" ==> h.response.headers == JsonHeaders
    ensures req.httpMethod != "OPTIONS" && req.body.Fields? && !Truthy(apiKey) ==> h.response == Fail(MissingKeyMessage)
    ensures req.httpMethod != "OPTIONS" && req.body.Malformed? ==> h.response == Fail(req.body.message)
  {
    if req.httpMethod == "OPTIONS" then Handled(Response(200, CorsHeaders, NoBody), None)
    else match req.body
      case Malformed(m) => Handled(Fail(m), None)
      case Fields(prompt, canvasImage, actionType) =>
        if !Truthy(apiKey) then Handled(Fail(MissingKeyMessage), None)
        else
          var sent := BuildGatewayRequest(apiKey.value, prompt, canvasImage, actionType);
          Handled(MapUpstream(upstream), Some(sent))
  }

  /** Gateway statuses have three digits. */
  lemma StatusHasThreeDigits(status: HttpStatus)
    ensures |Decimal(status)| == 3
  {
    assert Decimal(status) == Decimal(status / 10) + [DigitChar(status % 10)];
    assert Decimal(status / 10) == Decimal(status / 100) + [DigitChar(status / 10 % 10)];
  }

  /**
   * The page can tell the failures apart: rate limiting, exhausted credits, a
   * failing gateway status, a missing image and a missing key each carry their
   * own message, and a gateway failure names its status.
   */
  lemma FailuresDistinguishable(status: HttpStatus)
    ensures var generic := GatewayErrorPrefix + Decimal(status);
      && |{RateLimitMessage, UsageLimitMessage, NoImageMessage, MissingKeyMessage, generic}| == 5
      && ParseDecimal(generic[|GatewayErrorPrefix|..]) == status
  {
    var generic := GatewayErrorPrefix + Decimal(status);
    StatusHasThreeDigits(status);
    assert |generic| == 21;
    assert |RateLimitMessage| == 50 && |UsageLimitMessage| == 65;
    assert |NoImageMessage| == 18 && |MissingKeyMessage| == 33;
    assert generic[|GatewayErrorPrefix|..] == Decimal(status);
    DecimalRoundTrip(status);
  }
}
