/**
 * The text-generation route (`POST /api/generate-text`): request validation,
 * data-URL parsing, upstream request assembly and extraction of the generated
 * text from the upstream reply.
 *
 * The handler is a chain of early returns. The one effect it has, the call to
 * the generative service, is made observable by returning the call that would
 * be sent (`Handled.call`); what the service answers is an input (`Upstream`).
 */
module GenerateText {
  import opened Wrappers
  import opened Tones

  // ---------------------------------------------------------------------------
  // Fixed strings
  // ---------------------------------------------------------------------------

  const NoImagesMessage := "画像データが提供されていません"
  const InvalidToneMessage := "無効なトーンが指定されています"
  const NoApiKeyMessage := "APIキーが設定されていません"
  const InvalidImageMessage := "無効な画像データ形式です"
  const UpstreamFailedMessage := "AI による文章生成に失敗しました"
  const EmptyTextMessage := "文章の生成に失敗しました"

  const GeminiEndpoint := "https://generativelanguage.googleapis.com/v1/models/gemini-2.5-flash:generateContent?key="

  const DataUrlPrefix := "data:image/"
  const Base64Marker := ";base64,"

  /** The opening every instruction shares: thanks to the people in these photographs. */
  const TemplateOpening := "これらの写真に写っている人への感謝の気持ちを、"

  /** The instruction that leads every upstream request, one per tone. */
  function ToneTemplate(t: Tone): (r: string)
    ensures TemplateOpening <= r && |r| > |TemplateOpening|
    ensures r[|TemplateOpening|] == (match t case Casual => '親' case Formal => '丁' case Poetic => '詩')
  {
    TemplateOpening + ToneRequest(t)
  }

  /** What follows the shared opening: the register asked for, then the requirements. */
  function ToneRequest(t: Tone): string {
    match t
    case Casual =>
      "親しみやすく温かいトーンで文章にしてください。\n\n要件:\n"
      + "- カジュアルで親しみやすい表現を使う\n"
      + "- 「いつもありがとう」「一緒にいてくれて嬉しい」など、身近な言葉を使う\n"
      + "- 3〜5文程度の長さ\n"
      + "- 写真から読み取れる状況や雰囲気を踏まえる\n"
      + "- 複数の写真がある場合は、それぞれの思い出を織り交ぜる\n"
      + "- 感謝の気持ちが伝わるように"
    case Formal =>
      "丁寧でフォーマルなトーンで文章にしてください。\n\n要件:\n"
      + "- 丁寧で礼儀正しい表現を使う\n"
      + "- 「お世話になっております」「心より感謝申し上げます」など、フォーマルな言葉を使う\n"
      + "- 3〜5文程度の長さ\n"
      + "- 写真から読み取れる状況や雰囲気を踏まえる\n"
      + "- 複数の写真がある場合は、それぞれの思い出を織り交ぜる\n"
      + "- 敬意と感謝の気持ちが伝わるように"
    case Poetic =>
      "詩的で感情豊かなトーンで文章にしてください。\n\n要件:\n"
      + "- 詩的で美しい表現を使う\n"
      + "- 比喩や情景描写を織り交ぜる\n"
      + "- 3〜5文程度の長さ\n"
      + "- 写真から読み取れる状況や雰囲気を踏まえる\n"
      + "- 複数の写真がある場合は、それぞれの思い出を織り交ぜる\n"
      + "- 深い感謝と愛情が伝わるように"
  }

  /** Each tone has its own instruction, so the leading part of a request identifies the tone. */
  lemma ToneTemplateInjective(t: Tone, u: Tone)
    requires ToneTemplate(t) == ToneTemplate(u)
    ensures t == u
  {
    var k := |TemplateOpening|;
    assert ToneTemplate(t)[k] == ToneTemplate(u)[k];
  }

  // ---------------------------------------------------------------------------
  // Incoming request and outgoing response
  // ---------------------------------------------------------------------------

  /**
   * One element of the `imageData` array: a string, or any other value, on
   * which calling `match` throws a `TypeError` with the message `thrown`.
   */
  datatype ImageValue = Text(s: string) | NonString(thrown: string)

  /** The `imageData` field after the body is parsed: falsy, some other value, or an array. */
  datatype ImageField = Absent | NotAnArray | Images(items: seq<ImageValue>)

  /**
   * The request body. `Malformed` is a body whose destructuring throws, carrying
   * the error's message: JSON that does not parse, or JSON `null`. A missing,
   * falsy or non-string tone is `None`.
   */
  datatype RequestBody =
    | Malformed(message: string)
    | Body(imageData: ImageField, tone: Option<string>)

  datatype ResponseBody =
    | ErrorBody(error: string)
    | TextBody(text: string, tone: string)

  datatype Response = Response(status: int, body: ResponseBody)

  // ---------------------------------------------------------------------------
  // Upstream request
  // ---------------------------------------------------------------------------

  /** An image part's `inline_data`: the full MIME type and the base64 payload. */
  datatype InlineData = InlineData(mimeType: string, data: string)

  datatype Part = TextPart(text: string) | InlinePart(inlineData: InlineData)

  datatype RequestContent = RequestContent(parts: seq<Part>)

  /** The integer generation parameters; the two floating-point ones are not modelled. */
  datatype GenerationConfig = GenerationConfig(topK: int, maxOutputTokens: int)

  datatype GeminiRequest = GeminiRequest(contents: seq<RequestContent>, generationConfig: GenerationConfig)

  datatype UpstreamCall = UpstreamCall(url: string, body: GeminiRequest)

  const FixedConfig := GenerationConfig(40, 1024)

  // ---------------------------------------------------------------------------
  // Upstream reply (every level may be missing, as the optional chain allows)
  // ---------------------------------------------------------------------------

  datatype ReplyPart = ReplyPart(text: Option<string>)
  datatype ReplyContent = ReplyContent(parts: Option<seq<ReplyPart>>)
  datatype Candidate = Candidate(content: Option<ReplyContent>)
  datatype Reply = Reply(candidates: Option<seq<Candidate>>)

  /** The reply's body: JSON whose parse throws, or a parsed reply. */
  datatype ReplyBody = Unparsable(message: string) | Parsed(reply: Reply)

  /** What the awaited `fetch` gives: a rejection, or a response with its status. */
  datatype Upstream = Rejected(message: string) | Responded(status: int, body: ReplyBody)

  /** The route's result: the response, and the upstream call it made, if any. */
  datatype Handled = Handled(response: Response, call: Option<UpstreamCall>)

  // ---------------------------------------------------------------------------
  // Data-URL parsing: ^data:image/(\w+);base64,(.+)$
  // ---------------------------------------------------------------------------

  /** `\w` in a JavaScript regular expression without the `u` flag. */
  predicate IsWordChar(c: char) {
    ('a' <= c <= 'z') || ('A' <= c <= 'Z') || ('0' <= c <= '9') || c == '_'
  }

  /** The characters `.` refuses to match when the `s` flag is absent. */
  predicate IsLineTerminator(c: char) {
    c == '\n' || c == '\r' || c == '\U{2028}' || c == '\U{2029}'
  }

  predicate AllWordChars(s: string) {
    forall i :: 0 <= i < |s| ==> IsWordChar(s[i])
  }

  predicate NoLineTerminator(s: string) {
    forall i :: 0 <= i < |s| ==> !IsLineTerminator(s[i])
  }

  /** What the two capture groups may hold for the pattern to match. */
  predicate WellFormed(subtype: string, payload: string) {
    |subtype| > 0 && AllWordChars(subtype) && |payload| > 0 && NoLineTerminator(payload)
  }

  /** The data URL made of a subtype and a payload; the pattern describes exactly these strings. */
  function DataUrl(subtype: string, payload: string): string {
    DataUrlPrefix + subtype + Base64Marker + payload
  }

  /** Length of the longest prefix of `s` made of word characters. */
  function WordRun(s: string): (n: nat)
    ensures n <= |s|
    ensures AllWordChars(s[..n])
    ensures n < |s| ==> !IsWordChar(s[n])
  {
    if |s| > 0 && IsWordChar(s[0]) then 1 + WordRun(s[1..]) else 0
  }

  /**
   * The match at route.ts line 91 together with the part it builds: the first
   * group prefixed with `image/` becomes the MIME type and the second group is
   * the payload, unchanged. `\w` cannot match `;`, so the first group is the
   * whole run of word characters after the prefix.
   */
  function ParseDataUrl(s: string): (r: Option<InlineData>)
    ensures r.Some? ==>
      |r.value.mimeType| > 6 && r.value.mimeType[..6] == "image/"
      && WellFormed(r.value.mimeType[6..], r.value.data)
      && s == DataUrl(r.value.mimeType[6..], r.value.data)
  {
    if !(DataUrlPrefix <= s) then None
    else
      var rest := s[|DataUrlPrefix|..];
      var n := WordRun(rest);
      var after := rest[n..];
      if n == 0 || !(Base64Marker <= after) then None
      else
        var payload := after[|Base64Marker|..];
        if payload == [] || !NoLineTerminator(payload) then None
        else
          var subtype := rest[..n];
          assert s == DataUrl(subtype, payload) by {
            assert s == DataUrlPrefix + rest;
            assert rest == subtype + after;
            assert after == Base64Marker + payload;
          }
          assert ("image/" + subtype)[6..] == subtype;
          Some(InlineData("image/" + subtype, payload))
  }

  /** A run of word characters stops at the `;` that opens the base64 marker. */
  lemma {:induction false} WordRunStops(subtype: string, tail: string)
    requires AllWordChars(subtype)
    ensures WordRun(subtype + Base64Marker + tail) == |subtype|
  {
    var s := subtype + Base64Marker + tail;
    if subtype == [] {
      assert s[0] == ';';
    } else {
      assert s[1..] == subtype[1..] + Base64Marker + tail;
      WordRunStops(subtype[1..], tail);
    }
  }

  /** Every string the pattern describes is accepted, with both groups recovered. */
  lemma ParseDataUrlComplete(subtype: string, payload: string)
    requires WellFormed(subtype, payload)
    ensures ParseDataUrl(DataUrl(subtype, payload)) == Some(InlineData("image/" + subtype, payload))
  {
    var s := DataUrl(subtype, payload);
    var rest := s[|DataUrlPrefix|..];
    assert rest == subtype + Base64Marker + payload;
    WordRunStops(subtype, payload);
    assert rest[..|subtype|] == subtype;
    assert rest[|subtype|..] == Base64Marker + payload;
  }

  /** The worked example: a PNG data URL yields `image/png` and the payload unchanged. */
  lemma ParsePngExample()
    ensures ParseDataUrl("data:image/png;base64,QUJD") == Some(InlineData("image/png", "QUJD"))
  {
    assert DataUrl("png", "QUJD") == "data:image/png;base64,QUJD";
    assert "image/" + "png" == "image/png";
    ParseDataUrlComplete("png", "QUJD");
  }

  /** An element the map turns into an image part: a string that matches the pattern. */
  predicate Admitted(v: ImageValue) {
    v.Text? && ParseDataUrl(v.s).Some?
  }

  /** What the map's callback throws for an element, if anything. */
  function ElementError(v: ImageValue): Option<string> {
    match v
    case NonString(thrown) => Some(thrown)
    case Text(s) => if ParseDataUrl(s).Some? then None else Some(InvalidImageMessage)
  }

  /** The map's result: every part, or the message of the error it threw. */
  datatype MapResult = Mapped(parts: seq<InlineData>) | Threw(message: string)

  /**
   * The map at route.ts line 88: every element becomes a part, in order, or
   * the map throws. Among strings only, the error is the invalid-format one.
   */
  function ParseAll(images: seq<ImageValue>): (r: MapResult)
    ensures r.Mapped? <==> forall i :: 0 <= i < |images| ==> Admitted(images[i])
    ensures r.Mapped? ==>
      |r.parts| == |images| && forall i :: 0 <= i < |images| ==> ParseDataUrl(images[i].s) == Some(r.parts[i])
    ensures r.Threw? && (forall i :: 0 <= i < |images| ==> images[i].Text?) ==> r.message == InvalidImageMessage
  {
    if images == [] then Mapped([])
    else
      match ElementError(images[0])
      case Some(message) => Threw(message)
      case None =>
        match ParseAll(images[1..])
        case Threw(message) => Threw(message)
        case Mapped(ds) => Mapped([ParseDataUrl(images[0].s).value] + ds)
  }

  /** A map that throws reports the error of the first element that is not admitted. */
  lemma {:induction false} ParseAllThrowsFirstError(images: seq<ImageValue>)
    requires ParseAll(images).Threw?
    ensures exists k :: 0 <= k < |images| && (forall j :: 0 <= j < k ==> Admitted(images[j]))
                        && ElementError(images[k]) == Some(ParseAll(images).message)
  {
    if ElementError(images[0]).Some? {
      assert ElementError(images[0]) == Some(ParseAll(images).message);
    } else {
      ParseAllThrowsFirstError(images[1..]);
      var k :| 0 <= k < |images[1..]| && (forall j :: 0 <= j < k ==> Admitted(images[1..][j]))
               && ElementError(images[1..][k]) == Some(ParseAll(images[1..]).message);
      assert forall j :: 0 <= j < k + 1 ==> Admitted(images[j]) by {
        forall j | 0 <= j < k + 1 ensures Admitted(images[j]) {
          if j > 0 { assert images[j] == images[1..][j - 1]; }
        }
      }
      assert ElementError(images[k + 1]) == Some(ParseAll(images).message);
    }
  }

  // ---------------------------------------------------------------------------
  // Request assembly and reply extraction
  // ---------------------------------------------------------------------------

  /** The request body: one content whose parts are the tone instruction and then the images, in order. */
  function BuildRequest(tone: Tone, images: seq<InlineData>): (r: GeminiRequest)
    ensures |r.contents| == 1 && r.generationConfig == FixedConfig
    ensures |r.contents[0].parts| == 1 + |images|
    ensures r.contents[0].parts[0] == TextPart(ToneTemplate(tone))
    ensures forall i :: 0 <= i < |images| ==> r.contents[0].parts[i + 1] == InlinePart(images[i])
  {
    var imageParts := seq(|images|, i requires 0 <= i < |images| => InlinePart(images[i]));
    GeminiRequest([RequestContent([TextPart(ToneTemplate(tone))] + imageParts)], FixedConfig)
  }

  /** `data.candidates?.[0]?.content?.parts?.[0]?.text`: no text unless every link is there. */
  function FirstText(reply: Reply): (r: Option<string>)
    ensures reply.candidates.None? || reply.candidates.value == [] ==> r.None?
  {
    match reply.candidates
    case None => None
    case Some(cs) =>
      if cs == [] then None
      else
        match cs[0].content
        case None => None
        case Some(c) =>
          match c.parts
          case None => None
          case Some(ps) => if ps == [] then None else ps[0].text
  }

  /** Only the first part of the first candidate is read; later parts and candidates are ignored. */
  lemma FirstTextOnly(text: Option<string>, moreParts: seq<ReplyPart>, moreCandidates: seq<Candidate>)
    ensures
      var first := Candidate(Some(ReplyContent(Some([ReplyPart(text)] + moreParts))));
      FirstText(Reply(Some([first] + moreCandidates))) == text
  {
  }

  /** A text extraction that succeeded came from the first part of the first candidate. */
  lemma FirstTextShape(reply: Reply, t: string)
    requires FirstText(reply) == Some(t)
    ensures exists moreParts, moreCandidates ::
      reply == Reply(Some([Candidate(Some(ReplyContent(Some([ReplyPart(Some(t))] + moreParts))))] + moreCandidates))
  {
    var cs := reply.candidates.value;
    var ps := cs[0].content.value.parts.value;
    assert ps == [ReplyPart(Some(t))] + ps[1..];
    assert cs == [Candidate(Some(ReplyContent(Some([ReplyPart(Some(t))] + ps[1..]))))] + cs[1..];
  }

  // ---------------------------------------------------------------------------
  // The handler
  // ---------------------------------------------------------------------------

  predicate ImagesGiven(imageData: ImageField) {
    imageData.Images? && |imageData.items| > 0
  }

  /** `!apiKey`: an unset or empty key counts as missing. */
  predicate KeyPresent(apiKey: Option<string>) {
    apiKey.Some? && apiKey.value != ""
  }

  /** `response.ok`: a status in the 2xx range. */
  predicate IsOkStatus(status: int) {
    200 <= status <= 299
  }

  /** The upstream answered with a success status and a parsed reply whose first text is non-empty. */
  predicate Succeeded(upstream: Upstream) {
    upstream.Responded? && IsOkStatus(upstream.status) && upstream.body.Parsed?
    && FirstText(upstream.body.reply).Some? && FirstText(upstream.body.reply).value != ""
  }

  /** Every check that runs before the upstream call passes. */
  predicate Admissible(body: RequestBody, apiKey: Option<string>) {
    body.Body? && ImagesGiven(body.imageData) && ParseTone(body.tone).Some? && KeyPresent(apiKey)
    && forall i :: 0 <= i < |body.imageData.items| ==> Admitted(body.imageData.items[i])
  }

  function Fail(status: int, message: string): Response {
    Response(status, ErrorBody(message))
  }

  /** The part of the handler after `fetch` resolves or rejects. */
  function HandleUpstream(upstream: Upstream, tone: string): (r: Response)
    ensures r.body.TextBody? <==> Succeeded(upstream)
    ensures Succeeded(upstream) ==> r == Response(200, TextBody(FirstText(upstream.body.reply).value, tone))
    ensures upstream.Responded? && !IsOkStatus(upstream.status) ==> r == Fail(upstream.status, UpstreamFailedMessage)
    ensures upstream.Rejected? ==> r == Fail(500, upstream.message)
    ensures upstream.Responded? && IsOkStatus(upstream.status) && upstream.body.Unparsable? ==>
      r == Fail(500, upstream.body.message)
    ensures upstream.Responded? && IsOkStatus(upstream.status) && upstream.body.Parsed? && !Succeeded(upstream) ==>
      r == Fail(500, EmptyTextMessage)
  {
    match upstream
    case Rejected(message) => Fail(500, message)
    case Responded(status, body) =>
      if !IsOkStatus(status) then Fail(status, UpstreamFailedMessage)
      else
        match body
        case Unparsable(message) => Fail(500, message)
        case Parsed(reply) =>
          match FirstText(reply)
          case None => Fail(500, EmptyTextMessage)
          case Some(text) => if text == "" then Fail(500, EmptyTextMessage) else Response(200, TextBody(text, tone))
  }

  /**
   * `POST`: images, then tone, then the API key are checked, each with its own
   * early return; then every image is parsed (a failure throws and the catch
   * turns it into a 500); only then is the upstream called.
   */
  function Post(body: RequestBody, apiKey: Option<string>, upstream: Upstream): (h: Handled)
    ensures body.Malformed? ==> h == Handled(Fail(500, body.message), None)
    // the checks before the call, in order
    ensures body.Body? && !ImagesGiven(body.imageData) ==>
      h == Handled(Fail(400, NoImagesMessage), None)
    ensures body.Body? && ImagesGiven(body.imageData) && ParseTone(body.tone).None? ==>
      h == Handled(Fail(400, InvalidToneMessage), None)
    ensures body.Body? && ImagesGiven(body.imageData) && ParseTone(body.tone).Some? && !KeyPresent(apiKey) ==>
      h == Handled(Fail(500, NoApiKeyMessage), None)
    ensures (body.Body? && ImagesGiven(body.imageData) && ParseTone(body.tone).Some? && KeyPresent(apiKey)
             && ParseAll(body.imageData.items).Threw?) ==>
      h == Handled(Fail(500, ParseAll(body.imageData.items).message), None)
    ensures (body.Body? && ImagesGiven(body.imageData) && ParseTone(body.tone).Some? && KeyPresent(apiKey)
             && (forall i :: 0 <= i < |body.imageData.items| ==> body.imageData.items[i].Text?)
             && exists i :: 0 <= i < |body.imageData.items| && !Admitted(body.imageData.items[i])) ==>
      h == Handled(Fail(500, InvalidImageMessage), None)
    // the call is made exactly when every check passes, and it carries the tone and then every image
    ensures h.call.Some? <==> Admissible(body, apiKey)
    ensures h.call.Some? ==> h.call.value.url == GeminiEndpoint + apiKey.value && |h.call.value.body.contents| == 1
    ensures h.call.Some? ==>
      var parts := h.call.value.body.contents[0].parts;
      |parts| == 1 + |body.imageData.items|
      && parts[0] == TextPart(ToneTemplate(ParseTone(body.tone).value))
      && forall i :: 0 <= i < |body.imageData.items| ==>
           Admitted(body.imageData.items[i])
           && parts[i + 1] == InlinePart(ParseDataUrl(body.imageData.items[i].s).value)
    // what comes back
    ensures h.call.Some? ==> h.response == HandleUpstream(upstream, body.tone.value)
    ensures h.response.body.TextBody? <==> h.call.Some? && Succeeded(upstream)
    ensures h.response.body.TextBody? ==>
      h.response.status == 200 && h.response.body.tone == body.tone.value
      && h.response.body.tone in {"casual", "formal", "poetic"}
  {
    match body
    case Malformed(message) => Handled(Fail(500, message), None)
    case Body(imageData, tone) =>
      if !ImagesGiven(imageData) then Handled(Fail(400, NoImagesMessage), None)
      else if ParseTone(tone).None? then Handled(Fail(400, InvalidToneMessage), None)
      else if !KeyPresent(apiKey) then Handled(Fail(500, NoApiKeyMessage), None)
      else
        match ParseAll(imageData.items)
        case Threw(message) => Handled(Fail(500, message), None)
        case Mapped(images) =>
          var call := UpstreamCall(GeminiEndpoint + apiKey.value, BuildRequest(ParseTone(tone).value, images));
          Handled(HandleUpstream(upstream, tone.value), Some(call))
  }

  /** Whatever the tone, key and upstream, a request without images is refused the same way. */
  lemma ImagesCheckedFirst(images: ImageField, tone1: Option<string>, tone2: Option<string>,
                           key1: Option<string>, key2: Option<string>, up1: Upstream, up2: Upstream)
    requires !ImagesGiven(images)
    ensures Post(Body(images, tone1), key1, up1) == Post(Body(images, tone2), key2, up2)
  {
  }

  /** With images present, a bad tone is refused the same way whatever the key and upstream. */
  lemma ToneCheckedBeforeKey(items: seq<ImageValue>, tone: Option<string>,
                             key1: Option<string>, key2: Option<string>, up1: Upstream, up2: Upstream)
    requires |items| > 0 && ParseTone(tone).None?
    ensures Post(Body(Images(items), tone), key1, up1) == Post(Body(Images(items), tone), key2, up2)
    ensures Post(Body(Images(items), tone), key1, up1).response.status == 400
  {
  }
}
