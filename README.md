# Dual-stage script generator: a verified model

The application is a small single-page tool. The user uploads a PDF and a
vehicle video, and the tool has a generative-model service write a
spoken-word marketing script in two stages:

1. The first call sends a prompt, the PDF and the video. It returns an
   intermediate draft.
2. The second call sends the draft, framed as an intermediate draft, followed
   by a second prompt. It returns the final script.

The page keeps the chosen model id in browser storage and lets the user edit
the two prompts.

This project models two parts of the application, with their contracts.

- **The pipeline** (`services/geminiService.ts`), modelled in
  `GeminiService`: encoding each file into an inline part, the credential
  check, the two calls, the status updates, the fallback texts and the
  enrichment of a failed call's message.
- **The page component** (`App.tsx`), modelled in `AppComponent`. It is a
  class `App` whose fields are the component's state. Its handlers are
  methods:
  - loading the stored model on mount;
  - choosing the model, editing the prompts and choosing the files;
  - opening and saving the settings;
  - resetting the prompts;
  - the generate handler and a click on its button.

  The module functions `IsReady` and `IsProcessing` give the button's
  readiness and the in-flight test.
- `JsStrings` holds the JavaScript string operations both parts rely on.
  The pipeline uses `||` on strings, `split` and `includes`. The page uses
  `trim`, `toLowerCase` and `includes`.
- `Types` holds the records of `types.ts`.

`GeminiService.Pipeline` is the reference definition of one run of
`generateScript`:

- Its inputs are an `Invocation` value and a remote client.
  - The invocation holds the credential, the two files, what the browser's
    file reader yields for each, the optional prompts and the optional model
    id.
  - The client is a total function from requests to replies.
- It returns a `Run`: the outcome (a script or an error message) and the
  ordered list of observable events. An event is either a status update
  passed to the progress callback or a remote call made.

`GenerateScript` is the imperative method, step by step as in the source. It
is proved equal to `Pipeline`. The lemmas about `Pipeline` state what a run
does.

In the same way, `App.HandleGenerate` is proved to leave behind:

- a history of processing states, made of one reading state, one state per
  status update and the settled state;
- the pipeline's requests;
- the result, the final state and any alert, all as functions of that run.

The class invariant `Valid` says the following holds between handlers:

- the model is a supported one;
- no run is in flight;
- results show only after a complete run;
- the history ends in the current state;
- the declared `processing_step2` status is never entered.

## Model

| member | source | states |
|---|---|---|
| JsStrings.OrElse | services/geminiService.ts:52-53 | `s \|\| fallback` yields `s` when it is a non-empty string, else the fallback; with a non-empty fallback the result is never empty |
| JsStrings.ContainsIffOccurs | services/geminiService.ts:100-102 | the recursive `includes` holds exactly when the substring occurs at some position |
| JsStrings.JoinSplit | services/geminiService.ts:10 | `split(',')` loses nothing: joining its pieces with the separator gives back the string |
| JsStrings.SplitAtFirstSeparator | services/geminiService.ts:10 | splitting at the first separator yields the text before it, followed by the split of the text after it |
| JsStrings.TrimSpec | App.tsx:89-90 | `trim` returns a slice of the string, removes only whitespace from both ends, and leaves no whitespace at either end |
| JsStrings.TrimEmptyIffBlank | App.tsx:89 | the trimmed id is empty exactly when the id is all whitespace |
| JsStrings.ToLowerFindsAnyCase | App.tsx:134 | searching the lowered message for a lower-case word finds exactly the places where the message spells that word with each letter in either case |
| JsStrings.SplitCountsSeparators | services/geminiService.ts:10 | `split` yields one more piece than the string has separators |
| GeminiService.DataPayload | services/geminiService.ts:10 | `split(',')[1]` is defined exactly when the data URL contains a comma |
| GeminiService.DataPayloadOfDataUrl | services/geminiService.ts:8-10 | for a data URL whose prefix and base64 payload have no comma, the part after the comma is exactly the payload |
| GeminiService.DataPayloadInGeneral | services/geminiService.ts:10 | a URL without a comma has no payload (`undefined`); otherwise the payload is the first comma-free field after the first comma |
| GeminiService.FileToPart | services/geminiService.ts:4-21 | the encoding fails exactly when the reader fails, with no message; otherwise it is an inline part carrying the file's own media type |
| GeminiService.FileToPartOfDataUrl | services/geminiService.ts:9-16 | an encoded data URL becomes the part holding the stripped payload and the file's media type |
| GeminiService.EnrichError | services/geminiService.ts:97-104 | the error starts with the call's message, or the unknown-error text when that message is empty; a mention of 403 adds the permission note, and 404 adds the not-found note only when 403 is absent |
| GeminiService.EnrichErrorKeepsCodes | services/geminiService.ts:97-106 | enrichment never removes a status code the original message mentioned |
| GeminiService.EnrichErrorNamesModel | services/geminiService.ts:100-104 | the note added for 403 or 404 names the model in use |
| GeminiService.ModelOf | services/geminiService.ts:29 | the model id parameter falls back to `gemini-3-pro-preview` only when it is not passed |
| GeminiService.Pipeline | services/geminiService.ts:23-108 | the reference definition of one run: the credential check, the preparing update, the two encodings, the analyzing update, the first call, the polishing update, the second call, and the enrichment of a failed call's message; the lemmas below state its properties |
| GeminiService.GenerateScript | services/geminiService.ts:23-108 | the step-by-step run has exactly the outcome and the events of the reference pipeline |
| GeminiService.PipelineShape | services/geminiService.ts:55-93 | a run emits nothing exactly when the credential is missing; it makes at most two calls, all to the chosen model, and returns a script only after both calls |
| GeminiService.MissingCredential | services/geminiService.ts:32-36 | without a non-empty credential a run throws the missing-key message before any status update or call |
| GeminiService.ReadFailurePropagates | services/geminiService.ts:43-47 | a file-read failure ends the run after the preparing message, with no call and an error left unenriched |
| GeminiService.StatusOrder | services/geminiService.ts:43-73 | status updates are a prefix of preparing (which names the model), analyzing, polishing; polishing comes only after a reply to the first call, and right before the second call |
| GeminiService.AnnouncedBeforeFirstCall | services/geminiService.ts:43-68 | a run that reaches the first call emits exactly preparing, then analyzing, then that call |
| GeminiService.SuccessAnnouncesEveryStage | services/geminiService.ts:43-93 | every run that returns a script emits all three status updates in order, around its two calls |
| GeminiService.FirstCall | services/geminiService.ts:52-68 | the first request goes to the chosen model: one user message holding the effective first prompt, the PDF part and the video part |
| GeminiService.Stage1FailureAborts | services/geminiService.ts:55-106 | when the first call fails, the second is never made, polishing is never announced, and the error is the first call's message, enriched |
| GeminiService.SecondCall | services/geminiService.ts:70-86 | after a reply, the second request goes to the same model with the framed draft and the effective second prompt; an empty or absent draft text becomes the step-1 fallback |
| GeminiService.RunOutcome | services/geminiService.ts:70-106 | a run returns a script exactly when both calls reply, holding both texts with their fallbacks; otherwise the error is the failed call's message, enriched |
| GeminiService.DraftThenFinal | services/geminiService.ts:43-93 | a client answering DRAFT and then FINAL yields exactly that script, after all three status updates |
| AppComponent.MountedModelId | App.tsx:27-33 | the model id after mount is the stored id when it is one of the two supported ids, and otherwise the current id |
| AppComponent.IsProcessing | App.tsx:141 | a run is in flight exactly in the reading-files and processing-step-1 statuses |
| AppComponent.StartsRun | App.tsx:103-109 | the generate handler gets past its guards exactly when both files are present and, if the video is over 50·1024·1024 bytes, the user confirmed |
| AppComponent.ErrorState | App.tsx:131 | the error state carries the thrown message, and no message when the error had none |
| AppComponent.RaisesAuthAlert | App.tsx:134 | the credentials alert fires when the message contains 401 or 403, or contains "permission" once lowered |
| AppComponent.IsReady | App.tsx:140-141 | the button is enabled exactly when both files are present and no run is in flight |
| AppComponent.ProgressStates | App.tsx:118 | the progress callback sets one processing-step-1 state per status update, carrying its message, in order |
| AppComponent.RunStates | App.tsx:111-118 | every state a run sets before it settles has the run in flight, and none is the second-step status |
| AppComponent.App.constructor | App.tsx:13-24 | the first render: default model, built-in prompts, no files, idle state, empty result |
| AppComponent.App.LoadStoredModel | App.tsx:27-33 | the mount effect adopts a stored supported id and changes nothing else |
| AppComponent.App.SelectModel | App.tsx:167-174 | choosing one of the two options sets the model id |
| AppComponent.App.OpenSettings | App.tsx:271 | the settings button opens the panel |
| AppComponent.App.SaveSettings | App.tsx:87-93 | saving stores the trimmed id when it is non-blank (the supported id itself) and always closes the panel |
| AppComponent.App.EditPrompt1 | App.tsx:222 | editing the first prompt replaces it |
| AppComponent.App.EditPrompt2 | App.tsx:234 | editing the second prompt replaces it |
| AppComponent.App.ResetPrompts | App.tsx:95-100 | a confirmed reset restores both built-in prompts; a declined one changes nothing |
| AppComponent.App.SelectPdf | App.tsx:296 | choosing a PDF replaces only the PDF slot |
| AppComponent.App.SelectVideo | App.tsx:305 | choosing a video replaces only the video slot |
| AppComponent.App.HandleGenerate | App.tsx:102-138 | A run starts exactly when both files are present and, if the video is over 50·1024·1024 bytes, the user confirmed; otherwise nothing changes. When a run starts, it is the pipeline on the page's files, prompts and model. The history gains the reading state, one state per status update and the final state. The calls are recorded. A complete run shows both texts; a failed run shows an error state and raises the credentials alert on 401, 403 or "permission". The button is never ready during the run. |
| AppComponent.App.Launch | App.tsx:111-137 | past the guards, the run is recorded as in the generate handler |
| AppComponent.App.Finish | App.tsx:118-137 | after the pipeline returns, its status updates are recorded, then its calls, then the settled state |
| AppComponent.App.Settle | App.tsx:124-137 | the outcome is turned into the complete state with both texts, or into the error state with the alert on a credentials error |
| AppComponent.App.ClickGenerate | App.tsx:314-316 | a click runs the generate handler exactly when a credential is set (the button exists), the button is enabled and the guards pass, with all of the handler's effects; any other click changes nothing |
| AppComponent.SupportedModelIsTrimmed | App.tsx:172-173 | both supported ids are non-empty and their own trim |
| AppComponent.SavedModelSurvivesReload | App.tsx:28-31 | a saved supported id is the one the next mount adopts, whatever id the page starts from |
| AppComponent.AuthAlertIgnoresCase | App.tsx:134 | the alert fires exactly when the message mentions 401 or 403, or spells "permission" in any mix of letter cases |
| AppComponent.PermissionMessageRaisesAlert | App.tsx:130-136 | a first call rejected with a message spelling "permission" in any case ends in an error that raises the credentials alert |
| AppComponent.PermissionDeniedOnFirstCall | App.tsx:130-136 | when the first call fails mentioning 403, the run makes one call; its error still mentions 403 and names the model, and it raises the credentials alert |

## Left out

- The JSX rendering, CSS, the guidance screen shown without a credential, the
  prompt-editor panel's visibility, the settings panel's close button, and the
  uploader components. These are presentation only. Without a credential the
  page renders only the guidance screen, so the generate button does not
  exist: `ClickGenerate` does nothing then. The handler methods themselves
  take no such guard, and `HandleGenerate` called without a credential ends
  in the missing-key error, a state the page itself cannot reach.
- The remote SDK is replaced by the `client` parameter, a total function from
  request to reply. Streaming, retries and rate limiting are not modelled. Any
  error the call throws (a network failure or time-out included) is a
  `Failed` reply with its message, where "" stands for a missing message.
- The base64 encoding done by the browser's `FileReader` is not modelled.
  - What the reader yields is a parameter: a data URL, or a failure.
  - On a reader failure, the promise rejects with an event that has no
    `message`. The model writes this as the empty error message. The page
    then stores no message, and the alert test is false.
- Environment and browser inputs become parameters or fields:
  - `process.env.API_KEY` is the `apiKey` field;
  - the `localStorage` entry is the `storedModelId` field;
  - `confirm` answers are boolean parameters;
  - `alert` calls are recorded in the `alerts` field.
- `console.error` is left out.
- Asynchrony: a run of the generate handler is modelled as one atomic step.
  - Status updates are replayed in order into the state history.
  - Interleaving with other handlers while a run is awaited is not modelled.
  - React's batching of state updates is not modelled.
- The text of the two built-in prompts lives in `constants.ts`, which is not
  part of this model. `Prompt1` and `Prompt2` are left as unspecified
  constants.
- JsStrings.ToLower: lowers only the ASCII capitals, not the full Unicode case
  mapping. The alert test looks for "permission", which is all ASCII. Only two
  non-ASCII characters lowercase to ASCII letters. The Kelvin sign becomes
  `k`, which "permission" does not contain. The dotted capital I becomes `i`
  followed by a combining dot, and the dot breaks the match.
- The source names `processing_step2` among the statuses but never sets it.
  The model keeps the constructor and proves that it is never entered.
- The declared default `modelId = "gemini-3-pro-preview"` applies only when
  the argument is absent. `ModelOf` models this. An empty string passed
  explicitly is used as the model. The page always passes its model id.
- `handleSaveSettings` stores `modelId.trim()` without checking that the id is
  supported. Types alone would allow any string. In the model, the select
  offers only the two supported ids, each its own trim, so the stored value
  is always the current id (`SaveSettings`).
