/** The two-stage generation pipeline: encoding the two files into inline
    parts, the analysis call, the polishing call built from its text, the
    progress messages and the enrichment of a failure's message. */
module GeminiService {
  import opened Wrappers
  import opened JsStrings
  import opened Types

  /** The built-in prompts of the two stages. Their text lives in a constants
      file outside this model, so nothing here depends on what it says. */
  const Prompt1: string
  const Prompt2: string

  const DefaultModelId := "gemini-3-pro-preview"

  const MissingKeyMessage := "API Key 缺失。请检查环境变量配置。"
  const AnalyzingMessage := "第一步：正在分析视频与文档... (可能需要一分钟)"
  const PolishingMessage := "第二步：正在根据策略生成最终口播稿..."
  const Step1Fallback := "第一步未生成任何内容。"
  const Step2Fallback := "第二步未生成任何内容。"
  const UnknownErrorMessage := "生成过程中发生未知错误。"

  function PreparingMessage(model: string): string {
    "正在准备文件 (使用模型: " + model + ")..."
  }

  /** The sentence that frames the stage-1 draft in the stage-2 request. */
  function DraftIntro(draft: string): string {
    "这是基于视频和PDF生成的中间草稿:\n\n" + draft + "\n\n"
  }

  const PermissionLead := " (权限不足：Key 可能无权访问 "
  const NotFoundLead := " (模型未找到：请检查模型名称 "
  const NotFoundTail := " 是否正确)"

  function PermissionNote(model: string): string {
    PermissionLead + model + ")"
  }

  function NotFoundNote(model: string): string {
    NotFoundLead + model + NotFoundTail
  }

  // ---------------------------------------------------------------------------
  // Requests, replies and what the pipeline emits

  /** One part of a request: plain text, or an inline binary payload. The
      payload is `None` when the data URL had no comma (`split(',')[1]` is
      `undefined`). */
  datatype Part = TextPart(text: string) | InlinePart(data: Option<string>, mimeType: string)

  datatype Content = Content(role: string, parts: seq<Part>)

  /** The argument of one `generateContent` call. */
  datatype Request = Request(model: string, contents: seq<Content>)

  /** What the remote client answers to one call: a reply whose `text` may be
      absent, or an error carrying a message ("" when it has none). */
  datatype Reply = Replied(text: Option<string>) | Failed(message: string)

  /** What the browser's file reader produces for one file: the whole file as
      a data URL, or a failure. */
  datatype ReadOutcome = Loaded(dataUrl: string) | ReadFailed

  /** A status update passed to the progress callback, or a remote call. */
  datatype Event = Status(message: string) | Generate(request: Request)

  datatype Script = Script(step1: string, step2: string)

  /** What one pipeline run produces: its outcome and, in order, everything it
      did that can be observed from outside. */
  datatype Run = Run(outcome: Result<Script>, events: seq<Event>)

  /** Everything a run depends on besides the remote client: the credential,
      the two files, what the reader yields for each, the optional custom
      prompts and the optional model id. */
  datatype Invocation = Invocation(
    apiKey: Option<string>,
    pdfFile: MediaFile, videoFile: MediaFile,
    pdfRead: ReadOutcome, videoRead: ReadOutcome,
    customPrompt1: Option<string>, customPrompt2: Option<string>,
    modelId: Option<string>)

  /** The requests among the events, in order. */
  function Requests(events: seq<Event>): seq<Request> {
    if events == [] then []
    else (if events[0].Generate? then [events[0].request] else []) + Requests(events[1..])
  }

  /** The status messages among the events, in order. */
  function StatusMessages(events: seq<Event>): seq<string> {
    if events == [] then []
    else (if events[0].Status? then [events[0].message] else []) + StatusMessages(events[1..])
  }

  /** The credential counts as present when it is set and non-empty. */
  predicate KeyPresent(apiKey: Option<string>) {
    Truthy(apiKey)
  }

  /** The model id parameter defaults only when it is not passed at all. */
  function ModelOf(modelId: Option<string>): string {
    if modelId.Some? then modelId.value else DefaultModelId
  }

  // ---------------------------------------------------------------------------
  // Encoding

  /** The text between the first comma of a data URL and the next comma (or
      the end): `url.split(',')[1]`. */
  function DataPayload(url: string): (r: Option<string>)
    ensures r.Some? <==> ',' in url
  {
    SplitCountsSeparators(url, ',');
    var fields := Split(url, ',');
    if |fields| >= 2 then Some(fields[1]) else None
  }

  /** For a data URL `data:[<mediatype>][;base64],<data>` (section 3 of
      RFC 2397) whose payload is base64 (section 4 of RFC 4648, which has no
      comma in its alphabet), the payload is exactly what follows the comma. */
  lemma DataPayloadOfDataUrl(prefix: string, payload: string)
    requires ',' !in prefix && ',' !in payload
    ensures DataPayload(prefix + "," + payload) == Some(payload)
  {
    SplitAtFirstSeparator(prefix, ',', payload);
    SplitWithoutSeparator(payload, ',');
  }

  /** In general the payload is the first comma-free field after the first
      comma, and a string without a comma has none. */
  lemma DataPayloadInGeneral(url: string)
    ensures ',' !in url ==> DataPayload(url) == None
    ensures forall a, b | url == a + "," + b && ',' !in a :: DataPayload(url) == Some(Split(b, ',')[0])
  {
    if ',' !in url {
      SplitWithoutSeparator(url, ',');
    }
    forall a, b | url == a + "," + b && ',' !in a
      ensures DataPayload(url) == Some(Split(b, ',')[0])
    {
      SplitAtFirstSeparator(a, ',', b);
    }
  }

  /** `fileToPart`: the reader's data URL with its prefix removed, paired with
      the file's declared media type; a read failure rejects with the
      reader's error event, which carries no message. */
  function FileToPart(file: MediaFile, read: ReadOutcome): (r: Result<Part>)
    ensures r.Err? <==> read.ReadFailed?
    ensures r.Err? ==> r.error == ""
    ensures r.Ok? ==> r.value.InlinePart? && r.value.mimeType == file.mimeType
  {
    match read
    case Loaded(url) => Ok(InlinePart(DataPayload(url), file.mimeType))
    case ReadFailed => Err("")
  }

  /** The encoded part of a data URL carries the payload after the comma and
      the file's own media type. */
  lemma FileToPartOfDataUrl(file: MediaFile, prefix: string, payload: string)
    requires ',' !in prefix && ',' !in payload
    ensures FileToPart(file, Loaded(prefix + "," + payload)) == Ok(InlinePart(Some(payload), file.mimeType))
  {
    DataPayloadOfDataUrl(prefix, payload);
  }

  // ---------------------------------------------------------------------------
  // Requests

  function Stage1Request(model: string, prompt: string, pdfPart: Part, videoPart: Part): Request {
    Request(model, [Content("user", [TextPart(prompt), pdfPart, videoPart])])
  }

  function Stage2Request(model: string, draft: string, prompt: string): Request {
    Request(model, [Content("user", [TextPart(DraftIntro(draft)), TextPart(prompt)])])
  }

  // ---------------------------------------------------------------------------
  // Error enrichment

  /** The message thrown for a failed remote call: the original message (or
      the unknown-error text when it is empty), with a note naming the model
      when it mentions 403, or else when it mentions 404. */
  function EnrichError(raw: string, model: string): (m: string)
    ensures var base := OrElse(Some(raw), UnknownErrorMessage);
      && StartsWith(m, base)
      && (Contains(base, "403") ==> m == base + PermissionNote(model))
      && (!Contains(base, "403") && Contains(base, "404") ==> m == base + NotFoundNote(model))
      && (!Contains(base, "403") && !Contains(base, "404") ==> m == base)
  {
    var base := OrElse(Some(raw), UnknownErrorMessage);
    assert (base + PermissionNote(model))[..|base|] == base;
    assert (base + NotFoundNote(model))[..|base|] == base;
    if Contains(base, "403") then base + PermissionNote(model)
    else if Contains(base, "404") then base + NotFoundNote(model)
    else base
  }

  /** An enriched message keeps every status code the original carried. */
  lemma EnrichErrorKeepsCodes(raw: string, model: string, code: string)
    requires Contains(OrElse(Some(raw), UnknownErrorMessage), code)
    ensures Contains(EnrichError(raw, model), code)
  {
    var base := OrElse(Some(raw), UnknownErrorMessage);
    var m := EnrichError(raw, model);
    var note := m[|base|..];
    assert m == "" + base + note by {
      assert StartsWith(m, base);
    }
    ContainsInContext("", base, note, code);
  }

  /** The note added for a 403 or a 404 names the model in use. */
  lemma EnrichErrorNamesModel(raw: string, model: string)
    requires var base := OrElse(Some(raw), UnknownErrorMessage);
      Contains(base, "403") || Contains(base, "404")
    ensures Contains(EnrichError(raw, model), model)
  {
    var base := OrElse(Some(raw), UnknownErrorMessage);
    var note := if Contains(base, "403") then PermissionNote(model) else NotFoundNote(model);
    ContainsMiddle(PermissionLead, model, ")");
    ContainsMiddle(NotFoundLead, model, NotFoundTail);
    ContainsInContext(base, note, "", model);
    assert base + note + "" == EnrichError(raw, model);
  }

  // ---------------------------------------------------------------------------
  // The pipeline

  /** What `generateScript` does for one invocation against a given client. */
  function Pipeline(inv: Invocation, client: Request -> Reply): Run
  {
    if !KeyPresent(inv.apiKey) then Run(Err(MissingKeyMessage), [])
    else
      var model := ModelOf(inv.modelId);
      var prepared := [Status(PreparingMessage(model))];
      match (FileToPart(inv.pdfFile, inv.pdfRead), FileToPart(inv.videoFile, inv.videoRead))
      case (Err(e), _) => Run(Err(e), prepared)
      case (Ok(_), Err(e)) => Run(Err(e), prepared)
      case (Ok(pdfPart), Ok(videoPart)) =>
        var request1 := Stage1Request(model, OrElse(inv.customPrompt1, Prompt1), pdfPart, videoPart);
        var analyzed := prepared + [Status(AnalyzingMessage), Generate(request1)];
        match client(request1)
        case Failed(m) => Run(Err(EnrichError(m, model)), analyzed)
        case Replied(text1) =>
          var step1 := OrElse(text1, Step1Fallback);
          var request2 := Stage2Request(model, step1, OrElse(inv.customPrompt2, Prompt2));
          var polished := analyzed + [Status(PolishingMessage), Generate(request2)];
          match client(request2)
          case Failed(m) => Run(Err(EnrichError(m, model)), polished)
          case Replied(text2) => Run(Ok(Script(step1, OrElse(text2, Step2Fallback))), polished)
  }

  /** Both filters distribute over concatenation. */
  lemma {:induction false} RequestsAppend(a: seq<Event>, b: seq<Event>)
    ensures Requests(a + b) == Requests(a) + Requests(b)
    decreases |a|
  {
    if a == [] {
      assert a + b == b;
    } else {
      RequestsAppend(a[1..], b);
      var head := if a[0].Generate? then [a[0].request] else [];
      assert (a + b)[0] == a[0];
      assert (a + b)[1..] == a[1..] + b;
      assert Requests(a + b) == head + Requests(a[1..] + b);
      assert Requests(a) == head + Requests(a[1..]);
    }
  }

  lemma {:induction false} StatusMessagesAppend(a: seq<Event>, b: seq<Event>)
    ensures StatusMessages(a + b) == StatusMessages(a) + StatusMessages(b)
    decreases |a|
  {
    if a == [] {
      assert a + b == b;
    } else {
      StatusMessagesAppend(a[1..], b);
      assert (a + b)[0] == a[0];
      assert (a + b)[1..] == a[1..] + b;
    }
  }

  /** The requests and status messages of a concatenation are those of its parts. */
  lemma FiltersAppend(a: seq<Event>, b: seq<Event>)
    ensures Requests(a + b) == Requests(a) + Requests(b)
    ensures StatusMessages(a + b) == StatusMessages(a) + StatusMessages(b)
  {
    RequestsAppend(a, b);
    StatusMessagesAppend(a, b);
  }

  lemma RequestsOf3(e0: Event, e1: Event, e2: Event)
    requires e0.Status? && e1.Status? && e2.Generate?
    ensures Requests([e0, e1, e2]) == [e2.request]
    ensures StatusMessages([e0, e1, e2]) == [e0.message, e1.message]
  {
    FiltersAppend([e0], [e1]);
    FiltersAppend([e0, e1], [e2]);
    assert [e0] + [e1] == [e0, e1];
    assert [e0, e1] + [e2] == [e0, e1, e2];
  }

  lemma RequestsOf5(es: seq<Event>)
    requires |es| == 5 && es[0].Status? && es[1].Status? && es[2].Generate? && es[3].Status? && es[4].Generate?
    ensures Requests(es) == [es[2].request, es[4].request]
    ensures StatusMessages(es) == [es[0].message, es[1].message, es[3].message]
  {
    RequestsOf3(es[0], es[1], es[2]);
    FiltersAppend(es[..3], [es[3]]);
    FiltersAppend(es[..4], [es[4]]);
    assert es[..3] == [es[0], es[1], es[2]];
    assert es[..3] + [es[3]] == es[..4];
    assert es[..4] + [es[4]] == es;
  }

  // ---------------------------------------------------------------------------
  // The pipeline, step by step

  /** `generateScript`: the credential check, the two encodings, the analysis
      call and the polishing call, with the status updates returned as the
      events they produce. */
  method GenerateScript(
    apiKey: Option<string>,
    pdfFile: MediaFile, videoFile: MediaFile,
    pdfRead: ReadOutcome, videoRead: ReadOutcome,
    customPrompt1: Option<string>, customPrompt2: Option<string>,
    modelId: Option<string>,
    client: Request -> Reply)
    returns (outcome: Result<Script>, events: seq<Event>)
    ensures Run(outcome, events) == Pipeline(
      Invocation(apiKey, pdfFile, videoFile, pdfRead, videoRead, customPrompt1, customPrompt2, modelId), client)
  {
    events := [];
    if !KeyPresent(apiKey) {
      outcome := Err(MissingKeyMessage);
      return;
    }
    var model := ModelOf(modelId);
    events := events + [Status(PreparingMessage(model))];

    var pdfPart := FileToPart(pdfFile, pdfRead);
    if pdfPart.Err? {
      outcome := Err(pdfPart.error);
      return;
    }
    var videoPart := FileToPart(videoFile, videoRead);
    if videoPart.Err? {
      outcome := Err(videoPart.error);
      return;
    }

    events := events + [Status(AnalyzingMessage)];
    var p1 := OrElse(customPrompt1, Prompt1);
    var p2 := OrElse(customPrompt2, Prompt2);

    // the try block: a failed call ends it with that call's message
    var failure: string;
    var request1 := Stage1Request(model, p1, pdfPart.value, videoPart.value);
    events := events + [Generate(request1)];
    var result1 := client(request1);
    if result1.Replied? {
      var step1Text := OrElse(result1.text, Step1Fallback);
      events := events + [Status(PolishingMessage)];
      var request2 := Stage2Request(model, step1Text, p2);
      events := events + [Generate(request2)];
      var result2 := client(request2);
      if result2.Replied? {
        var step2Text := OrElse(result2.text, Step2Fallback);
        outcome := Ok(Script(step1Text, step2Text));
        return;
      }
      failure := result2.message;
    } else {
      failure := result1.message;
    }

    // the catch block
    var errorMessage := OrElse(Some(failure), UnknownErrorMessage);
    if Contains(errorMessage, "403") {
      errorMessage := errorMessage + PermissionNote(model);
    } else if Contains(errorMessage, "404") {
      errorMessage := errorMessage + NotFoundNote(model);
    }
    outcome := Err(errorMessage);
  }

  // ---------------------------------------------------------------------------
  // Properties of a run

  /** A run gets as far as the first remote call exactly when the credential
      is present and both files were read. */
  predicate ReachesStage1(inv: Invocation) {
    KeyPresent(inv.apiKey) && inv.pdfRead.Loaded? && inv.videoRead.Loaded?
  }

  /** The first request of a run that reaches the first call. */
  function FirstRequest(inv: Invocation): Request
    requires ReachesStage1(inv)
  {
    Stage1Request(ModelOf(inv.modelId), OrElse(inv.customPrompt1, Prompt1),
      FileToPart(inv.pdfFile, inv.pdfRead).value, FileToPart(inv.videoFile, inv.videoRead).value)
  }

  /** Every run makes at most two remote calls, all to the chosen model,
      and returns a result only after making both; a run emits nothing at all
      exactly when the credential is missing. */
  lemma PipelineShape(inv: Invocation, client: Request -> Reply)
    ensures var r := Pipeline(inv, client);
      && (!KeyPresent(inv.apiKey) <==> r.events == [])
      && |Requests(r.events)| <= 2
      && (r.outcome.Ok? ==> |Requests(r.events)| == 2)
      && (forall q | q in Requests(r.events) :: q.model == ModelOf(inv.modelId))
  {
    var r := Pipeline(inv, client);
    if |r.events| == 1 {
      assert r.events[1..] == [];
    } else if |r.events| == 3 {
      RequestsOf3(r.events[0], r.events[1], r.events[2]);
    } else if |r.events| == 5 {
      RequestsOf5(r.events);
    }
  }

  /** Without a credential a run fails before any status update or call. */
  lemma MissingCredential(inv: Invocation, client: Request -> Reply)
    requires !KeyPresent(inv.apiKey)
    ensures Pipeline(inv, client) == Run(Err(MissingKeyMessage), [])
  {
  }

  /** A read failure propagates as it is, with no enrichment, after the
      preparing message and before any remote call. */
  lemma ReadFailurePropagates(inv: Invocation, client: Request -> Reply)
    requires KeyPresent(inv.apiKey) && (inv.pdfRead.ReadFailed? || inv.videoRead.ReadFailed?)
    ensures Pipeline(inv, client) == Run(Err(""), [Status(PreparingMessage(ModelOf(inv.modelId)))])
    ensures Requests(Pipeline(inv, client).events) == []
  {
    assert [Status(PreparingMessage(ModelOf(inv.modelId)))][1..] == [];
  }

  /** Status updates come in the order preparing (which names the model),
      analyzing, polishing; polishing is announced only once the first call
      has returned a reply, and right before the second call. */
  lemma StatusOrder(inv: Invocation, client: Request -> Reply)
    ensures var r := Pipeline(inv, client); var model := ModelOf(inv.modelId);
      StatusMessages(r.events) <= [PreparingMessage(model), AnalyzingMessage, PolishingMessage]
    ensures Contains(PreparingMessage(ModelOf(inv.modelId)), ModelOf(inv.modelId))
    ensures var r := Pipeline(inv, client);
      PolishingMessage in StatusMessages(r.events) ==>
        |r.events| == 5 && r.events[2].Generate? && client(r.events[2].request).Replied?
        && r.events[3] == Status(PolishingMessage) && r.events[4].Generate?
  {
    var r := Pipeline(inv, client);
    var model := ModelOf(inv.modelId);
    ContainsMiddle("正在准备文件 (使用模型: ", model, ")...");
    assert PreparingMessage(model)[0] != PolishingMessage[0];
    if |r.events| == 1 {
      assert r.events[1..] == [];
    } else if |r.events| == 3 {
      RequestsOf3(r.events[0], r.events[1], r.events[2]);
      assert AnalyzingMessage[1] != PolishingMessage[1];
    } else if |r.events| == 5 {
      RequestsOf5(r.events);
    }
  }

  /** A run that reaches the first call announces preparing and then
      analyzing before making it. */
  lemma AnnouncedBeforeFirstCall(inv: Invocation, client: Request -> Reply)
    requires ReachesStage1(inv)
    ensures var r := Pipeline(inv, client);
      |r.events| >= 3
      && r.events[..3] == [Status(PreparingMessage(ModelOf(inv.modelId))), Status(AnalyzingMessage),
                           Generate(FirstRequest(inv))]
  {
    var r := Pipeline(inv, client);
    if |r.events| == 5 {
      assert r.events[..3] == [r.events[0], r.events[1], r.events[2]];
    }
  }

  /** A run that returns a script has announced all three stages, in order,
      and made its two calls in between. */
  lemma SuccessAnnouncesEveryStage(inv: Invocation, client: Request -> Reply)
    requires Pipeline(inv, client).outcome.Ok?
    ensures var r := Pipeline(inv, client); var model := ModelOf(inv.modelId);
      && StatusMessages(r.events) == [PreparingMessage(model), AnalyzingMessage, PolishingMessage]
      && |r.events| == 5 && r.events[2].Generate? && r.events[4].Generate?
  {
    RequestsOf5(Pipeline(inv, client).events);
  }

  /** The first call goes to the chosen model with one user message whose
      parts are the effective first prompt, the PDF part and the video part. */
  lemma FirstCall(inv: Invocation, client: Request -> Reply)
    requires ReachesStage1(inv)
    ensures var r := Pipeline(inv, client);
      |Requests(r.events)| >= 1
      && Requests(r.events)[0] == Request(ModelOf(inv.modelId), [Content("user", [
           TextPart(OrElse(inv.customPrompt1, Prompt1)),
           InlinePart(DataPayload(inv.pdfRead.dataUrl), inv.pdfFile.mimeType),
           InlinePart(DataPayload(inv.videoRead.dataUrl), inv.videoFile.mimeType)])])
  {
    var r := Pipeline(inv, client);
    if |r.events| == 3 {
      RequestsOf3(r.events[0], r.events[1], r.events[2]);
    } else {
      RequestsOf5(r.events);
    }
  }

  /** If the first call fails, the second is never made, nothing is returned
      and the error thrown is the first call's message, enriched. */
  lemma Stage1FailureAborts(inv: Invocation, client: Request -> Reply)
    requires ReachesStage1(inv)
    requires client(FirstRequest(inv)).Failed?
    ensures var r := Pipeline(inv, client); var first := FirstRequest(inv);
      && Requests(r.events) == [first]
      && PolishingMessage !in StatusMessages(r.events)
      && r.outcome == Err(EnrichError(client(first).message, ModelOf(inv.modelId)))
  {
    StatusOrder(inv, client);
    var r := Pipeline(inv, client);
    RequestsOf3(r.events[0], r.events[1], r.events[2]);
  }

  /** Once the first call replies, the second call goes to the same model
      with the draft framed as an intermediate draft, followed by the
      effective second prompt; an empty or absent draft is replaced by the
      step-1 fallback text. */
  lemma SecondCall(inv: Invocation, client: Request -> Reply)
    requires ReachesStage1(inv)
    requires client(FirstRequest(inv)).Replied?
    ensures var r := Pipeline(inv, client);
      var draft := OrElse(client(FirstRequest(inv)).text, Step1Fallback);
      && |Requests(r.events)| == 2
      && Requests(r.events)[0] == FirstRequest(inv)
      && Requests(r.events)[1] == Request(ModelOf(inv.modelId), [Content("user", [
           TextPart(DraftIntro(draft)), TextPart(OrElse(inv.customPrompt2, Prompt2))])])
      && (!Truthy(client(FirstRequest(inv)).text) ==> draft == Step1Fallback)
  {
    RequestsOf5(Pipeline(inv, client).events);
  }

  /** A run returns a result exactly when it reaches both calls and both
      reply; the result holds the two texts, each replaced by its fallback
      when empty. Any failed call yields that call's enriched message. */
  lemma RunOutcome(inv: Invocation, client: Request -> Reply)
    requires ReachesStage1(inv)
    ensures var r := Pipeline(inv, client); var qs := Requests(r.events);
      && 1 <= |qs| && qs[0] == FirstRequest(inv)
      && (r.outcome.Ok? <==> |qs| == 2 && client(qs[0]).Replied? && client(qs[1]).Replied?)
      && (r.outcome.Ok? ==> r.outcome.value == Script(
            OrElse(client(qs[0]).text, Step1Fallback), OrElse(client(qs[1]).text, Step2Fallback)))
      && (r.outcome.Err? ==>
            client(qs[|qs| - 1]).Failed?
            && r.outcome.error == EnrichError(client(qs[|qs| - 1]).message, ModelOf(inv.modelId)))
  {
    var r := Pipeline(inv, client);
    if |r.events| == 3 {
      RequestsOf3(r.events[0], r.events[1], r.events[2]);
    } else {
      RequestsOf5(r.events);
    }
  }

  /** A client that answers "DRAFT" to the first call and "FINAL" to the
      second yields exactly those two texts, after all three status updates. */
  lemma DraftThenFinal(inv: Invocation)
    requires ReachesStage1(inv)
    ensures var client := (q: Request) =>
        if |q.contents| == 1 && |q.contents[0].parts| == 3 then Replied(Some("DRAFT")) else Replied(Some("FINAL"));
      var r := Pipeline(inv, client); var model := ModelOf(inv.modelId);
      && r.outcome == Ok(Script("DRAFT", "FINAL"))
      && StatusMessages(r.events) == [PreparingMessage(model), AnalyzingMessage, PolishingMessage]
  {
    var client := (q: Request) =>
      if |q.contents| == 1 && |q.contents[0].parts| == 3 then Replied(Some("DRAFT")) else Replied(Some("FINAL"));
    var r := Pipeline(inv, client);
    RequestsOf5(r.events);
  }
}
