/** The application shell: its React state as the fields of one object, the
    handlers that update it, and the predicates the page derives from it. */
module AppComponent {
  import opened Wrappers
  import opened JsStrings
  import opened Types
  import opened GeminiService

  /** Videos above this many bytes need the user's confirmation first. */
  const LargeVideoBytes := 50 * 1024 * 1024

  const ReadingMessage := "读取文件中..."

  const EmptyResult := GenerationResult("", "")

  function AuthAlertMessage(model: string): string {
    "权限错误 (403/401)。\n\n当前使用的模型: " + model + "\n\n请检查环境变量中的 API Key 是否有权访问该模型。"
  }

  /** The two model ids the settings offer. */
  predicate IsSupportedModel(id: string) {
    id == "gemini-3-pro-preview" || id == "gemini-2.5-flash"
  }

  /** The model id in use once the stored settings have been loaded: the
      stored value when it is one of the supported ids, otherwise the current
      one. */
  function MountedModelId(stored: Option<string>, current: string): (m: string)
    ensures stored.Some? && IsSupportedModel(stored.value) ==> m == stored.value
    ensures !(stored.Some? && IsSupportedModel(stored.value)) ==> m == current
    ensures IsSupportedModel(current) ==> IsSupportedModel(m)
  {
    if Truthy(stored) && IsSupportedModel(stored.value) then stored.value else current
  }

  /** A run is in flight while the files are read or the first status has
      been reported. */
  predicate IsProcessing(status: Status) {
    status == ReadingFiles || status == ProcessingStep1
  }

  /** Whether the generate button is enabled. */
  function IsReady(files: UploadedFiles, status: Status): (ready: bool)
    ensures ready <==> files.pdf.Some? && files.video.Some? && !IsProcessing(status)
  {
    files.pdf.Some? && files.video.Some? && status != ReadingFiles && status != ProcessingStep1
  }

  /** Whether a failed run's message makes the page raise the credentials alert. */
  predicate RaisesAuthAlert(message: string) {
    Contains(message, "401") || Contains(message, "403") || Contains(ToLower(message), "permission")
  }

  /** The state message for an error: an error without a message (a file
      reader failure) leaves it unset. */
  function ErrorState(message: string): ProcessingState {
    ProcessingState(Error, if message == "" then None else Some(message))
  }

  /** The states the progress callback sets, one per status update, in order. */
  function ProgressStates(events: seq<Event>): (states: seq<ProcessingState>)
    ensures |states| == |StatusMessages(events)|
    ensures forall i | 0 <= i < |states| ::
      states[i] == ProcessingState(ProcessingStep1, Some(StatusMessages(events)[i]))
  {
    if events == [] then []
    else
      (if events[0].Status? then [ProcessingState(ProcessingStep1, Some(events[0].message))] else [])
      + ProgressStates(events[1..])
  }

  /** Every state of a stretch of history has a run in flight. */
  predicate InFlight(states: seq<ProcessingState>) {
    forall i | 0 <= i < |states| :: IsProcessing(states[i].status)
  }

  predicate NeverStep2(states: seq<ProcessingState>) {
    forall i | 0 <= i < |states| :: states[i].status != ProcessingStep2
  }

  /** The states a run sets before it settles: reading the files, then one
      per status update. */
  function RunHistory(events: seq<Event>): seq<ProcessingState> {
    [ProcessingState(ReadingFiles, Some(ReadingMessage))] + ProgressStates(events)
  }

  /** The states a run sets before it settles all have the run in flight and
      none is the second-step status. */
  lemma RunStates(before: seq<ProcessingState>, events: seq<Event>, last: ProcessingState)
    requires last.status != ProcessingStep2
    ensures var after := before + RunHistory(events) + [last];
      && after[|before|..|after| - 1] == RunHistory(events)
      && InFlight(RunHistory(events))
      && (NeverStep2(before) ==> NeverStep2(after))
  {
    var run := RunHistory(events);
    var after := before + run + [last];
    assert after[|before|..|after| - 1] == run;
    assert forall i | 0 <= i < |run| :: IsProcessing(run[i].status) by {
      forall i | 0 <= i < |run| ensures IsProcessing(run[i].status) {
        if i > 0 {
          assert run[i] == ProgressStates(events)[i - 1];
        }
      }
    }
  }

  /** Whether a generate request gets past the guards: both files present,
      and a large video confirmed. */
  predicate StartsRun(files: UploadedFiles, confirmLarge: bool) {
    files.pdf.Some? && files.video.Some? && (files.video.value.size > LargeVideoBytes ==> confirmLarge)
  }

  class App {
    /** The credential injected at build time. */
    const apiKey: Option<string>

    var modelId: string
    var prompt1: string
    var prompt2: string
    var showSettings: bool
    var files: UploadedFiles
    var state: ProcessingState
    var result: GenerationResult

    /** Every processing state set so far, oldest first. */
    var history: seq<ProcessingState>
    /** The browser storage entry that holds the model id. */
    var storedModelId: Option<string>
    /** Every remote call made so far. */
    var requests: seq<Request>
    /** Every alert shown so far. */
    var alerts: seq<string>

    /** Between handlers: the model is a supported one, no run is in flight,
        results are shown only after a complete run, the history ends in the
        current state, and the declared second-step status is never entered. */
    ghost predicate Valid()
      reads this
    {
      && IsSupportedModel(modelId)
      && !IsProcessing(state.status)
      && state.status != ProcessingStep2
      && (state.status != Complete ==> result == EmptyResult)
      && |history| > 0 && history[|history| - 1] == state
      && NeverStep2(history)
    }

    /** The first render, before the mount effect has run. */
    constructor (apiKey: Option<string>, storedModelId: Option<string>)
      ensures Valid()
      ensures this.apiKey == apiKey && this.storedModelId == storedModelId
      ensures modelId == DefaultModelId && prompt1 == Prompt1 && prompt2 == Prompt2
      ensures !showSettings && files == UploadedFiles(None, None)
      ensures state == ProcessingState(Idle, None) && result == EmptyResult
      ensures history == [state] && requests == [] && alerts == []
    {
      this.apiKey := apiKey;
      this.storedModelId := storedModelId;
      modelId := DefaultModelId;
      prompt1, prompt2 := Prompt1, Prompt2;
      showSettings := false;
      files := UploadedFiles(None, None);
      state := ProcessingState(Idle, None);
      result := EmptyResult;
      history := [ProcessingState(Idle, None)];
      requests, alerts := [], [];
    }

    /** The mount effect: adopt the stored model id when it is supported. */
    method LoadStoredModel()
      requires Valid()
      modifies this
      ensures Valid()
      ensures modelId == MountedModelId(storedModelId, old(modelId))
      ensures storedModelId == old(storedModelId) && prompt1 == old(prompt1) && prompt2 == old(prompt2)
      ensures showSettings == old(showSettings) && files == old(files) && state == old(state)
      ensures result == old(result) && history == old(history) && requests == old(requests)
      ensures alerts == old(alerts)
    {
      if storedModelId.Some? && storedModelId.value != ""
        && (storedModelId.value == "gemini-3-pro-preview" || storedModelId.value == "gemini-2.5-flash")
      {
        modelId := storedModelId.value;
      }
    }

    /** Choosing one of the options of the model selector. */
    method SelectModel(id: string)
      requires Valid() && IsSupportedModel(id)
      modifies this`modelId
      ensures Valid() && modelId == id
    {
      modelId := id;
    }

    method OpenSettings()
      requires Valid()
      modifies this`showSettings
      ensures Valid() && showSettings
    {
      showSettings := true;
    }

    /** Saving the settings: store the trimmed model id unless it is blank,
        and close the panel either way. */
    method SaveSettings()
      requires Valid()
      modifies this`storedModelId, this`showSettings
      ensures Valid() && !showSettings
      ensures storedModelId == if Trim(modelId) != "" then Some(Trim(modelId)) else old(storedModelId)
      ensures storedModelId == Some(modelId)
    {
      var trimmed := Trim(modelId);
      if trimmed != "" {
        storedModelId := Some(trimmed);
      }
      showSettings := false;
      SupportedModelIsTrimmed(modelId);
    }

    method EditPrompt1(text: string)
      requires Valid()
      modifies this`prompt1
      ensures Valid() && prompt1 == text
    {
      prompt1 := text;
    }

    method EditPrompt2(text: string)
      requires Valid()
      modifies this`prompt2
      ensures Valid() && prompt2 == text
    {
      prompt2 := text;
    }

    /** Restoring the built-in prompts, if the user confirms. */
    method ResetPrompts(confirmed: bool)
      requires Valid()
      modifies this`prompt1, this`prompt2
      ensures Valid()
      ensures confirmed ==> prompt1 == Prompt1 && prompt2 == Prompt2
      ensures !confirmed ==> prompt1 == old(prompt1) && prompt2 == old(prompt2)
    {
      if confirmed {
        prompt1 := Prompt1;
        prompt2 := Prompt2;
      }
    }

    method SelectPdf(file: MediaFile)
      requires Valid()
      modifies this`files
      ensures Valid() && files == old(files).(pdf := Some(file))
    {
      files := files.(pdf := Some(file));
    }

    method SelectVideo(file: MediaFile)
      requires Valid()
      modifies this`files
      ensures Valid() && files == old(files).(video := Some(file))
    {
      files := files.(video := Some(file));
    }

    /** The generate handler. `confirmLarge` is the user's answer to the
        large-video question, `pdfRead` and `videoRead` what the reader yields
        for each file, `client` the remote service's answers. The ghost
        result `run` is what the pipeline did, when it was called. */
    method HandleGenerate(confirmLarge: bool, pdfRead: ReadOutcome, videoRead: ReadOutcome, client: Request -> Reply)
      returns (ghost run: Option<Run>)
      requires Valid()
      modifies this`state, this`result, this`history, this`requests, this`alerts
      ensures Valid()
      ensures run.Some? <==> StartsRun(old(files), confirmLarge)
      ensures run.None? ==>
        state == old(state) && result == old(result) && history == old(history)
        && requests == old(requests) && alerts == old(alerts)
      ensures run.Some? ==>
        run.value == Pipeline(Invocation(apiKey, files.pdf.value, files.video.value, pdfRead, videoRead,
          Some(prompt1), Some(prompt2), Some(modelId)), client)
      ensures run.Some? ==>
        var r := run.value;
        && history == old(history) + RunHistory(r.events) + [state]
        && requests == old(requests) + Requests(r.events)
        && (r.outcome.Ok? ==>
              state == ProcessingState(Complete, None)
              && result == GenerationResult(r.outcome.value.step1, r.outcome.value.step2)
              && alerts == old(alerts))
        && (r.outcome.Err? ==>
              state == ErrorState(r.outcome.error) && result == EmptyResult
              && alerts == old(alerts) + (if RaisesAuthAlert(r.outcome.error) then [AuthAlertMessage(modelId)] else []))
      ensures run.Some? ==>
        |history| > |old(history)| && InFlight(history[|old(history)|..|history| - 1])
      ensures forall i | |old(history)| <= i < |history| - 1 :: !IsReady(files, history[i].status)
    {
      run := None;
      if files.pdf.None? || files.video.None? {
        return;
      }
      if files.video.value.size > LargeVideoBytes {
        if !confirmLarge {
          return;
        }
      }
      ghost var invocation := Invocation(apiKey, files.pdf.value, files.video.value, pdfRead, videoRead,
        Some(prompt1), Some(prompt2), Some(modelId));
      var r := Launch(pdfRead, videoRead, client);
      run := Some(r);
      assert invocation == Invocation(apiKey, files.pdf.value, files.video.value, pdfRead, videoRead,
        Some(prompt1), Some(prompt2), Some(modelId));
    }

    /** The generate handler past its guards: mark the files as being read,
        run the pipeline, then record what it did. */
    method Launch(pdfRead: ReadOutcome, videoRead: ReadOutcome, client: Request -> Reply)
      returns (ghost r: Run)
      requires Valid() && files.pdf.Some? && files.video.Some?
      modifies this`state, this`result, this`history, this`requests, this`alerts
      ensures Valid()
      ensures r == Pipeline(Invocation(apiKey, files.pdf.value, files.video.value, pdfRead, videoRead,
          Some(prompt1), Some(prompt2), Some(modelId)), client)
      ensures history == old(history) + RunHistory(r.events) + [state]
      ensures requests == old(requests) + Requests(r.events)
      ensures r.outcome.Ok? ==>
        state == ProcessingState(Complete, None)
        && result == GenerationResult(r.outcome.value.step1, r.outcome.value.step2)
        && alerts == old(alerts)
      ensures r.outcome.Err? ==>
        state == ErrorState(r.outcome.error) && result == EmptyResult
        && alerts == old(alerts) + (if RaisesAuthAlert(r.outcome.error) then [AuthAlertMessage(modelId)] else [])
      ensures |history| > |old(history)| && InFlight(history[|old(history)|..|history| - 1])
    {
      ghost var invocation := Invocation(apiKey, files.pdf.value, files.video.value, pdfRead, videoRead,
        Some(prompt1), Some(prompt2), Some(modelId));
      state := ProcessingState(ReadingFiles, Some(ReadingMessage));
      result := EmptyResult;
      var outcome, events := GenerateScript(apiKey, files.pdf.value, files.video.value, pdfRead, videoRead,
        Some(prompt1), Some(prompt2), Some(modelId), client);
      r := Run(outcome, events);
      Finish(outcome, events);
      assert invocation == Invocation(apiKey, files.pdf.value, files.video.value, pdfRead, videoRead,
        Some(prompt1), Some(prompt2), Some(modelId));
    }

    /** What the generate handler records once the pipeline has returned:
        the status updates, the remote calls, then the final state. */
    method Finish(outcome: Result<Script>, events: seq<Event>)
      requires IsSupportedModel(modelId) && NeverStep2(history) && result == EmptyResult
      modifies this`state, this`result, this`history, this`requests, this`alerts
      ensures Valid()
      ensures history == old(history) + RunHistory(events) + [state]
      ensures requests == old(requests) + Requests(events)
      ensures outcome.Ok? ==>
        state == ProcessingState(Complete, None)
        && result == GenerationResult(outcome.value.step1, outcome.value.step2)
        && alerts == old(alerts)
      ensures outcome.Err? ==>
        state == ErrorState(outcome.error) && result == EmptyResult
        && alerts == old(alerts) + (if RaisesAuthAlert(outcome.error) then [AuthAlertMessage(modelId)] else [])
      ensures |history| > |old(history)| && InFlight(history[|old(history)|..|history| - 1])
    {
      var before := history;
      requests := requests + Requests(events);
      Settle(outcome);
      history := before + RunHistory(events) + [state];
      RunStates(before, events, state);
    }

    /** The end of the generate handler: show the result, or the error and,
        for a credentials problem, the alert. */
    method Settle(outcome: Result<Script>)
      requires result == EmptyResult
      modifies this`state, this`result, this`alerts
      ensures !IsProcessing(state.status) && state.status != ProcessingStep2
      ensures state.status != Complete ==> result == EmptyResult
      ensures outcome.Ok? ==>
        state == ProcessingState(Complete, None)
        && result == GenerationResult(outcome.value.step1, outcome.value.step2)
        && alerts == old(alerts)
      ensures outcome.Err? ==>
        state == ErrorState(outcome.error) && result == EmptyResult
        && alerts == old(alerts) + (if RaisesAuthAlert(outcome.error) then [AuthAlertMessage(modelId)] else [])
    {
      match outcome
      case Ok(script) =>
        result := GenerationResult(script.step1, script.step2);
        state := ProcessingState(Complete, None);
      case Err(message) =>
        state := ErrorState(message);
        if Contains(message, "401") || Contains(message, "403") || Contains(ToLower(message), "permission") {
          alerts := alerts + [AuthAlertMessage(modelId)];
        }
    }

    /** A click on the generate button. The button exists only when a
        credential is set (without one the page shows its guidance screen
        instead), and it is disabled unless both files are present and no
        run is in flight; an enabled click runs the generate handler. */
    method ClickGenerate(confirmLarge: bool, pdfRead: ReadOutcome, videoRead: ReadOutcome, client: Request -> Reply)
      returns (ghost run: Option<Run>)
      requires Valid()
      modifies this`state, this`result, this`history, this`requests, this`alerts
      ensures Valid()
      ensures run.Some? <==>
        KeyPresent(apiKey) && IsReady(files, old(state.status)) && StartsRun(files, confirmLarge)
      ensures run.None? ==>
        state == old(state) && result == old(result) && history == old(history)
        && requests == old(requests) && alerts == old(alerts)
      ensures run.Some? ==>
        run.value == Pipeline(Invocation(apiKey, files.pdf.value, files.video.value, pdfRead, videoRead,
          Some(prompt1), Some(prompt2), Some(modelId)), client)
      ensures run.Some? ==>
        var r := run.value;
        && history == old(history) + RunHistory(r.events) + [state]
        && requests == old(requests) + Requests(r.events)
        && (r.outcome.Ok? ==>
              state == ProcessingState(Complete, None)
              && result == GenerationResult(r.outcome.value.step1, r.outcome.value.step2)
              && alerts == old(alerts))
        && (r.outcome.Err? ==>
              state == ErrorState(r.outcome.error) && result == EmptyResult
              && alerts == old(alerts) + (if RaisesAuthAlert(r.outcome.error) then [AuthAlertMessage(modelId)] else []))
    {
      run := None;
      if KeyPresent(apiKey) && IsReady(files, state.status) {
        run := HandleGenerate(confirmLarge, pdfRead, videoRead, client);
      }
    }
  }

  /** Both supported ids are their own trim, so saving never stores a
      different id and never skips the write. */
  lemma SupportedModelIsTrimmed(id: string)
    requires IsSupportedModel(id)
    ensures Trim(id) == id && id != ""
  {
    assert id[0] == 'g' && (id[|id| - 1] == 'w' || id[|id| - 1] == 'h');
    TrimOfTrimmed(id);
  }

  /** A saved supported id is what the next mount adopts, whatever id the
      page starts from. */
  lemma SavedModelSurvivesReload(id: string, current: string)
    requires IsSupportedModel(id)
    ensures MountedModelId(Some(Trim(id)), current) == id
  {
    SupportedModelIsTrimmed(id);
  }

  /** A first call rejected with a 403 makes exactly one remote call and ends
      in an error that still mentions 403, names the model and raises the
      credentials alert. */
  lemma PermissionDeniedOnFirstCall(inv: Invocation, client: Request -> Reply)
    requires ReachesStage1(inv)
    requires client(FirstRequest(inv)).Failed? && Contains(client(FirstRequest(inv)).message, "403")
    ensures var r := Pipeline(inv, client);
      && Requests(r.events) == [FirstRequest(inv)]
      && r.outcome.Err?
      && Contains(r.outcome.error, "403")
      && Contains(r.outcome.error, ModelOf(inv.modelId))
      && RaisesAuthAlert(r.outcome.error)
  {
    var m := client(FirstRequest(inv)).message;
    Stage1FailureAborts(inv, client);
    assert m != "" by {
      ContainsIffOccurs(m, "403");
      var i :| OccursAt(m, "403", i);
    }
    assert OrElse(Some(m), UnknownErrorMessage) == m;
    EnrichErrorKeepsCodes(m, ModelOf(inv.modelId), "403");
    EnrichErrorNamesModel(m, ModelOf(inv.modelId));
  }

  /** The alert rule in full: a message raises the credentials alert exactly
      when it mentions 401 or 403, or spells "permission" in any mix of
      letter cases. */
  lemma AuthAlertIgnoresCase(message: string)
    ensures RaisesAuthAlert(message) <==>
      Contains(message, "401") || Contains(message, "403")
      || exists i :: OccursIgnoringCase(message, "permission", i)
  {
    ToLowerFindsAnyCase(message, "permission");
  }

  /** A first call rejected with a message that spells "permission" in any
      case (a permission-denied error) ends the run with an error that raises
      the credentials alert, whatever the enrichment appends. */
  lemma PermissionMessageRaisesAlert(inv: Invocation, client: Request -> Reply, i: int)
    requires ReachesStage1(inv)
    requires client(FirstRequest(inv)).Failed?
    requires OccursIgnoringCase(client(FirstRequest(inv)).message, "permission", i)
    ensures var r := Pipeline(inv, client);
      r.outcome.Err? && RaisesAuthAlert(r.outcome.error)
  {
    var m := client(FirstRequest(inv)).message;
    Stage1FailureAborts(inv, client);
    assert OrElse(Some(m), UnknownErrorMessage) == m;
    var e := EnrichError(m, ModelOf(inv.modelId));
    assert e[..|m|] == m;
    assert e[i..i + 10] == m[i..i + 10];
    assert OccursIgnoringCase(e, "permission", i);
    AuthAlertIgnoresCase(e);
  }
}
