# Landmark.ai — a Dafny model of the identification pipeline

Landmark.ai is a browser app. It takes a photo, asks Gemini which landmark it shows, and fetches a short
grounded history of that landmark with Google Search. It then has Gemini read the history aloud, and shows
the result over the photo. This project models the parts of the app that decide what happens:

- `services/geminiService.ts`: the post-processing of the three Gemini replies, the stand-alone
  orchestrator `analyzeImagePipeline`, and the `fileToBase64` helper. These are in `gemini_service.dfy`,
  with the JavaScript string built-ins they use (`trim`, `toLowerCase`, `split`) in `js_string.dfy`.
- `App.tsx`: the component's four state cells, `handleImageSelected`, `resetApp` and the render guards.
  This is the class `AppComponent.App` in `app.dfy`.
- `components/LoadingScreen.tsx`: the dots ticker, the status line and the progress bar width. These are in
  `loading_screen.dfy`.
- `types.ts`: the shared types. These are in `types.dfy`, with `Option` and `Result` in `wrappers.dfy`.

Each Gemini call, and reading the file, is a value the caller passes in:

- `Err(message)` when the SDK throws, and `Err` when the reader fails. The reader's error event has no
  `message`, so a failed read always shows the generic text (`ReadAsBase64`, `ReadFailureShowsGeneric`);
- otherwise the part of the response the code reads (`response.text`, the grounding chunks, the inline
  audio data).

The service stages are functions of those values. `CollectSources`, `FetchLandmarkDetails` and
`AnalyzeImagePipeline` are methods with the source's loop and early returns. Each is proved equal to a
function, or to an explicit case list.

`App` keeps the four cells as fields. The setters update them in place. A ghost `log` records every cell
write and stage invocation in order. `Valid()` says two things: the fields are what the log makes of the
initial cells, and every state along the log was *consistent*. Consistent means a running stage always has
an image behind the loading overlay, and READY always has a result and an image. `HandleImageSelected` is
proved to do three things:

- append exactly `RunEffects(...)` to the log;
- end in the cells `Settled(...)` names;
- keep `Valid()`.

The lemmas about `Run` then give what a run does: the states it visits, the stages it calls and with which
arguments, when `result` is written, and its final cells.

Notes on the code as written, which the model follows:

- `App.tsx` does not call `analyzeImagePipeline`. It calls the three stages itself, and its narration script
  is "I've identified this as <name>. <text>", not the orchestrator's "Here is what I found about <name>.
  <text>" (`ScriptsDiffer`).
- `handleImageSelected` never clears `result` when a run starts. After a failed run the previous result is
  still in the cell. The result overlay stays hidden only because `appState` is ERROR. So "`result` is set
  exactly when the state is READY" does not hold. The model proves the weaker guard-level fact instead
  (`Consistent`, `RunFinalCells`).
- A reply without audio throws "No audio data generated." inside `generateNarration`. The catch there
  replaces it, so the user sees "Failed to generate narration." (`MissingAudioMessage`).
- `fileToBase64` resolves with `undefined` when the data URL has no comma (`FileToBase64`). The
  preview URL then ends in the text "undefined" (`PreviewUrl`).

## Model

| member | source | states |
|---|---|---|
| JsString.Trim | services/geminiService.ts:29 | `trim()` removes exactly a leading and a trailing run of ECMAScript whitespace. The result is the infix between them, neither of its ends is whitespace, and it is empty exactly when the input is all whitespace. |
| JsString.TrimPadded | services/geminiService.ts:29 | Trimming unpadded text surrounded by any whitespace gives back the text. |
| JsString.TrimIdempotent | services/geminiService.ts:29 | Trimming twice is the same as trimming once. |
| JsString.LowerChar | services/geminiService.ts:30 | `toLowerCase` on one character maps an ASCII capital to the lower-case letter at the same place in the alphabet and the KELVIN SIGN to `k`. Every other character is unchanged. |
| JsString.Split | services/geminiService.ts:136 | `split(',')` gives at least one piece, and no piece holds the separator. |
| JsString.SplitCount | services/geminiService.ts:136 | There are two or more pieces exactly when the string holds the separator. |
| JsString.JoinSplit | services/geminiService.ts:136 | Joining the pieces of `split(',')` with commas gives back the string. |
| JsString.SplitWhole | services/geminiService.ts:136 | A string without the separator splits into itself alone. |
| JsString.SplitAtSeparator | services/geminiService.ts:136 | A separator between `x` and `y` splits the whole into the pieces of `x` followed by the pieces of `y`. |
| JsString.SplitJoin | services/geminiService.ts:136 | Splitting a join of separator-free pieces gives back the pieces. |
| GeminiService.IdentifyLandmark | services/geminiService.ts:29-37 | An SDK error is rethrown unchanged. Otherwise the reply is accepted exactly when its trimmed text is non-empty and does not lower-case to "unknown", and the name returned is that trimmed text. Every other reply fails with "Could not identify a landmark in this image.". |
| GeminiService.UnknownSpellings | services/geminiService.ts:30 | The texts rejected as the sentinel are exactly the seven-letter spellings of "unknown", each letter in either case, with a KELVIN SIGN allowed for the k. |
| GeminiService.IdentifyRejectsSentinel | services/geminiService.ts:29-31 | "unknown" in any casing, padded with any whitespace, is rejected with the fixed message. |
| GeminiService.IdentifyRejectsBlank | services/geminiService.ts:29-31 | A missing or whitespace-only reply is rejected with the fixed message. |
| GeminiService.IdentifyAcceptsName | services/geminiService.ts:29-33 | A recognised name surrounded by whitespace is returned without the whitespace. |
| GeminiService.HistoryText | services/geminiService.ts:54 | The history text is the reply text when it is non-empty, and "No details found." otherwise, so it is never empty. |
| GeminiService.Grounded | services/geminiService.ts:60-65 | There are at most as many sources as chunks, and every source has a non-empty uri and a non-empty title. |
| GeminiService.CollectSources | services/geminiService.ts:57-66 | The `forEach`/`push` loop yields the citable chunks' sources, in order, and none when the metadata path is missing. |
| GeminiService.GroundedAppend | services/geminiService.ts:61-65 | Extraction distributes over concatenating chunk lists: nothing is reordered, merged or deduplicated. |
| GeminiService.GroundedSingle | services/geminiService.ts:62-63 | One chunk yields its `{uri, title}` exactly when both fields are non-empty. |
| GeminiService.GroundedAround | services/geminiService.ts:61-65 | A citable chunk contributes its source between the sources of the chunks before it and those after it. |
| GeminiService.GroundedKeepsOrder | services/geminiService.ts:61-65 | Two citable chunks keep their relative order among the sources. |
| GeminiService.GroundedAllCitable | services/geminiService.ts:61-65 | When every chunk is citable, the sources are the chunks' sources at the same positions. |
| GeminiService.GroundedMembers | services/geminiService.ts:61-65 | A source appears exactly when some citable chunk has that uri and title. |
| GeminiService.GroundedNoneCitable | services/geminiService.ts:61-65 | With no citable chunk there are no sources. |
| GeminiService.Details | services/geminiService.ts:44-73 | The stage's outcome fails exactly when the search call throws, with "Failed to retrieve landmark details.". On success the text is non-empty, is the reply text when that is non-empty, and there are at most as many sources as chunks. |
| GeminiService.FetchLandmarkDetails | services/geminiService.ts:44-73 | The method, with its `forEach`/`push` loop, returns exactly the outcome `Details` gives for the search reply. |
| GeminiService.GenerateNarration | services/geminiService.ts:79-103 | The stage succeeds exactly when the reply carries non-empty audio data, and then returns that data. Every failure surfaces as "Failed to generate narration.". |
| GeminiService.MissingAudioMessage | services/geminiService.ts:94-101 | A reply without audio fails inside the try with "No audio data generated.", but the caller sees only the general message. |
| GeminiService.PipelineScript | services/geminiService.ts:117 | The orchestrator's script holds the landmark name right after its 27-character introduction, and ends with the history text unchanged. |
| GeminiService.AnalyzeImagePipeline | services/geminiService.ts:108-126 | The stages run in order: identify with the image, fetch with the identified name, narrate the script. The first failure is returned with its message, and no later stage is called. A success carries the name, text, audio and sources of the stages. |
| GeminiService.FileToBase64Segment | services/geminiService.ts:136 | The piece between the first comma and the next comma (or the end) is what the helper resolves with. |
| GeminiService.FileToBase64DataUrl | services/geminiService.ts:133-137 | A data URL `data:<mime>;base64,<payload>` with a comma-free type and payload resolves to the payload. |
| GeminiService.FileToBase64 | services/geminiService.ts:136 | `result.split(',')[1]` is `undefined` exactly when the data URL has no comma, and otherwise a comma-free piece. |
| GeminiService.ReadAsBase64 | services/geminiService.ts:129-141 | The promise rejects exactly when the read fails, with the error event's empty message. A completed read resolves, to `undefined` exactly when the data URL has no comma. |
| LoadingScreen.NextDots | components/LoadingScreen.tsx:15 | From a value of at most three dots, one tick gives `(n + 1) mod 4` dots. |
| LoadingScreen.Ticks | components/LoadingScreen.tsx:13-17 | From a value of at most three dots, `n` ticks leave a value of at most three dots, with `(k + n) mod 4` of them. |
| LoadingScreen.TicksCount | components/LoadingScreen.tsx:13-17 | After `n` ticks from `k` dots the cell holds `(k + n) mod 4` dots. |
| LoadingScreen.TicksFromEmpty | components/LoadingScreen.tsx:11-17 | Starting from the initial empty string, the cell always holds zero to three dots. |
| LoadingScreen.TicksPeriod | components/LoadingScreen.tsx:13-17 | The ticker has period 4. |
| LoadingScreen.StatusText | components/LoadingScreen.tsx:20-27 | "Processing" is shown exactly for the states outside the three stages. |
| LoadingScreen.StatusTextDistinct | components/LoadingScreen.tsx:22-24 | The three stage phrases differ from each other. |
| LoadingScreen.ProgressClass | components/LoadingScreen.tsx:64-67 | The width class is one of four. It is other than `w-0` exactly during the three stages, and `w-full` exactly while generating audio. |
| LoadingScreen.ProgressBounds | components/LoadingScreen.tsx:64-67 | The bar fills between 0 and 1. It is non-empty exactly during the three stages, and full exactly while generating audio. |
| LoadingScreen.ProgressIncreases | components/LoadingScreen.tsx:64-67 | The bar grows strictly along the stage order. |
| AppComponent.ErrorText | App.tsx:58 | The toast text is the thrown message when non-empty, and "Something went wrong. Please try again." otherwise, so it is never blank. |
| AppComponent.PreviewRoundTrip | App.tsx:21 | The preview URL is non-empty, and a comma-free payload reads back from it through `fileToBase64`. |
| AppComponent.NarrationScript | App.tsx:44 | App's script holds the landmark name right after its 24-character introduction, and ends with the history text unchanged. |
| AppComponent.ScriptsDiffer | App.tsx:44 | App's script never equals the orchestrator's script, whatever the names and texts. |
| AppComponent.GuardsFollowState | App.tsx:77-93 | In consistent cells exactly one layer is rendered, the one that belongs to the state: the loading overlay during a stage, the result when READY, the toast on ERROR, none when IDLE. |
| AppComponent.LoadingShowsStage | App.tsx:77-80 | Whenever the loading overlay is rendered, it shows a stage phrase and a non-empty progress bar. |
| AppComponent.Outcome | App.tsx:15-61 | A run succeeds exactly when the read and all three stages succeed, and its result copies the stage outputs. A failure names the first stage that threw (0 is the read) and carries that stage's message. |
| AppComponent.ServiceOutcome | App.tsx:35-52 | With the service's own stages: the result is the trimmed name, the fallback history text, the grounded sources and the audio data. Failures in enrichment and narration carry the service's fixed messages. |
| AppComponent.StagesCalls | App.tsx:35-45 | From the identify call on, a run writes FETCHING_INFO, GENERATING_AUDIO and READY, or the first of these still due and then ERROR. It calls identify, then fetch with the name, then narrate with App's script, stopping at the first failure. |
| AppComponent.StagesEnds | App.tsx:35-59 | From the identify call on, `result` is written once on success, immediately before READY, and never on failure. The cells end READY with the result, or ERROR with the message. |
| AppComponent.StagesConsistent | App.tsx:35-59 | Entered with an image on screen, the stages pass through consistent cells only. |
| AppComponent.RunStates | App.tsx:24-59 | The appState values a run writes are ANALYZING_IMAGE, FETCHING_INFO, GENERATING_AUDIO, READY, or the prefix of them reached before a failure followed by ERROR. |
| AppComponent.Run | App.tsx:15-61 | Every run has at least four effects and begins by clearing the error and reading the file. |
| AppComponent.RunEffects | App.tsx:15-61 | With the service's own stages, a run whose read fails clears the error, reads, writes the generic message and shows ERROR, and does nothing else. |
| AppComponent.ReadFailureShowsGeneric | App.tsx:15-59 | After a failed read, from any cells, the state is ERROR with "Something went wrong. Please try again.", and nothing but the read was called. |
| AppComponent.RunCallList | App.tsx:20-45 | The calls a run makes, listed for each way it can end. |
| AppComponent.RunCalls | App.tsx:20-45 | A run calls the read, then one stage more for each stage that succeeded, in pipeline order. Identify gets the preview's base64 and the MIME type, fetch gets the identified name, and narrate gets App's script. |
| AppComponent.RunWritesResultOnSuccess | App.tsx:47-54 | `result` is written exactly once by a run that succeeds, with the stage outputs, immediately before READY. A failed run never writes it. |
| AppComponent.RunStart | App.tsx:17-24 | Every run first clears the error and reads the file. After a read it shows the preview, then enters ANALYZING_IMAGE. |
| AppComponent.RunFinalCells | App.tsx:15-61 | From any cells, a run clears the error and shows the preview when the read succeeded. It then ends READY with the result, or ERROR with the displayed message, and a failed run keeps the previous `result`. |
| AppComponent.RunStaysConsistent | App.tsx:15-61 | From consistent cells, the cells are consistent after every effect of a run. |
| AppComponent.ResetClears | App.tsx:63-68 | resetApp restores the initial cells from any cells, writing only IDLE to appState and calling nothing. Started from consistent cells, it passes through consistent cells only. |
| AppComponent.App.constructor | App.tsx:10-13 | The four cells start IDLE, null, null and null, and the log is empty. |
| AppComponent.App.Catch | App.tsx:56-59 | The catch block records the message, replaced by the generic one when empty, then shows ERROR. |
| AppComponent.App.HandleImageSelected | App.tsx:15-61 | The handler appends exactly the run's effects to the log and keeps every state consistent. It ends in the settled cells: error cleared, preview shown, then READY with the result or ERROR with the message. Those cells are consistent, so the render guards show exactly the state's layer. |
| AppComponent.App.IdentifyStep | App.tsx:35-36 | Identify, then on success enter FETCHING_INFO and go on. On failure catch. |
| AppComponent.App.FetchStep | App.tsx:36-40 | Enter FETCHING_INFO, fetch with the name, then on success enter GENERATING_AUDIO and go on. On failure catch. |
| AppComponent.App.NarrationStep | App.tsx:40-54 | Enter GENERATING_AUDIO and narrate App's script. On success write the result, then READY. On failure catch. |
| AppComponent.App.ResetApp | App.tsx:63-68 | resetApp leaves the initial cells whatever the state was, and keeps every state consistent, the final one included. |

## Left out

- The Gemini SDK, its model names, prompts, tool and voice configuration, and the API key. Each call is an
  outcome the caller passes in (`Err` for a throw), reduced to the response fields the code reads.
- `FileReader`: reading the file is a `Result<string>`, the data URL or `Err` for the reader's error event. What
  the event holds is not modelled, only that it has no `message`.
- The dynamic `import('./services/geminiService')` in the handler, which only loads code.
- `async`/`await`, re-entrant calls of the handler while a run is in progress, React batching and
  re-rendering. A run is modelled as one uninterrupted sequence of cell writes.
- `console.error` logging in every catch block.
- The render output beyond its guards: JSX, class names other than the progress width, `getIcon`,
  `CameraView` and `ResultOverlay`.
- The interval timer of `LoadingScreen`. Its ticks are counted (`Ticks`), not timed, and clearing the
  interval on unmount is not modelled.
- `LandmarkInfo` in `types.ts`, which no core code uses.
- A grounding chunk whose `web` field is not an object, or a chunk list holding `null` elements. The model
  takes well-formed chunks with optional `uri` and `title` strings.
- JsString.LowerChar: models `toLowerCase` only for ASCII capitals and the KELVIN SIGN. That is enough to
  decide whether a trimmed text lower-cases to "unknown", but not the full Unicode case mapping;
  characters are Unicode scalar values, not UTF-16 code units.
- The whitespace set of `trim` is that of ECMAScript (WhiteSpace and LineTerminator, with the
  Space_Separator characters of current Unicode), not one tied to a particular engine version.
