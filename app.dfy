/** The App component: four state cells driven through one pipeline run by
    handleImageSelected, cleared by resetApp, and read by the render guards. */
module AppComponent {
  import opened Wrappers
  import opened Types
  import opened JsString
  import opened GeminiService
  import LoadingScreen

  /** The message shown when the thrown error has an empty or missing message. */
  const GenericError: string := "Something went wrong. Please try again."

  /** `error.message || "Something went wrong. Please try again."`: the toast is never blank,
      and a non-empty message is shown as thrown. */
  function ErrorText(message: string): (t: string)
    ensures t != ""
    ensures message != "" ==> t == message
    ensures message == "" ==> t == GenericError
  {
    if message == "" then GenericError else message
  }

  /** The preview `data:${file.type};base64,${base64}`; an `undefined` base64 prints as "undefined". */
  function PreviewUrl(mimeType: string, base64: Option<string>): string {
    "data:" + mimeType + ";base64," + (if base64.Some? then base64.value else "undefined")
  }

  /** The preview URL is never empty, and its payload reads back through fileToBase64. */
  lemma PreviewRoundTrip(mimeType: string, base64: string)
    requires ',' !in mimeType && ',' !in base64
    ensures PreviewUrl(mimeType, Some(base64)) != ""
    ensures FileToBase64(PreviewUrl(mimeType, Some(base64))) == Some(base64)
  {
    FileToBase64DataUrl(mimeType, base64);
  }

  /** The narration script App builds itself: an introduction naming the landmark, then the text. */
  function NarrationScript(name: string, text: string): (s: string)
    ensures |s| == 26 + |name| + |text|
    ensures s[24..24 + |name|] == name && s[|s| - |text|..] == text
  {
    "I've identified this as " + name + ". " + text
  }

  /** App's script never equals the one analyzeImagePipeline would send. */
  lemma ScriptsDiffer(name: string, text: string, name': string, history: string)
    ensures NarrationScript(name, text) != PipelineScript(name', history)
  {
    assert NarrationScript(name, text)[0] == 'I';
    assert PipelineScript(name', history)[0] == 'H';
  }

  // ---------------------------------------------------------------------
  // The four cells, their writes and the render guards

  /** The values of appState, currentImage, result and errorMessage. */
  datatype AppCells = AppCells(
    appState: AppState,
    currentImage: Option<string>,
    result: Option<AnalysisResult>,
    errorMessage: Option<string>)

  const InitialCells: AppCells := AppCells(Idle, None, None, None)

  /** What a run does, in order: a write to one cell, or a stage invocation. */
  datatype Effect =
    | WroteAppState(state: AppState)
    | WroteCurrentImage(image: Option<string>)
    | WroteResult(result: Option<AnalysisResult>)
    | WroteErrorMessage(message: Option<string>)
    | Invoked(call: StageCall)

  function Apply(c: AppCells, e: Effect): AppCells {
    match e
    case WroteAppState(s) => c.(appState := s)
    case WroteCurrentImage(i) => c.(currentImage := i)
    case WroteResult(r) => c.(result := r)
    case WroteErrorMessage(m) => c.(errorMessage := m)
    case Invoked(_) => c
  }

  /** The cells after performing `es` from `c`. */
  function Replay(c: AppCells, es: seq<Effect>): AppCells
    decreases |es|
  {
    if es == [] then c else Replay(Apply(c, es[0]), es[1..])
  }

  /** The appState value one effect writes, if any. */
  function StateWrite(e: Effect): seq<AppState> {
    if e.WroteAppState? then [e.state] else []
  }

  /** The stage one effect invokes, if any. */
  function CallMade(e: Effect): seq<StageCall> {
    if e.Invoked? then [e.call] else []
  }

  /** The value one effect writes to `result`, if any. */
  function ResultWrite(e: Effect): seq<Option<AnalysisResult>> {
    if e.WroteResult? then [e.result] else []
  }

  /** The appState values written, in order. */
  function StatesOf(es: seq<Effect>): seq<AppState>
    decreases |es|
  {
    if es == [] then [] else StateWrite(es[0]) + StatesOf(es[1..])
  }

  /** The stage invocations, in order. */
  function CallsOf(es: seq<Effect>): seq<StageCall>
    decreases |es|
  {
    if es == [] then [] else CallMade(es[0]) + CallsOf(es[1..])
  }

  /** The writes to `result`, in order. */
  function ResultsOf(es: seq<Effect>): seq<Option<AnalysisResult>>
    decreases |es|
  {
    if es == [] then [] else ResultWrite(es[0]) + ResultsOf(es[1..])
  }

  /** JavaScript truthiness of `currentImage`. */
  predicate HasImage(img: Option<string>) {
    img.Some? && img.value != ""
  }

  /** The three states in which a stage is running. */
  predicate InProgress(s: AppState) {
    s == AnalyzingImage || s == FetchingInfo || s == GeneratingAudio
  }

  /** The loading overlay is rendered. */
  predicate ShowsLoading(c: AppCells) {
    InProgress(c.appState) && HasImage(c.currentImage)
  }

  /** The result overlay is rendered. */
  predicate ShowsResult(c: AppCells) {
    c.appState == Ready && c.result.Some? && HasImage(c.currentImage)
  }

  /** The error toast is rendered. */
  predicate ShowsError(c: AppCells) {
    c.appState == Error
  }

  /** The cells agree with the state: a running stage has an image to show behind
      the loading overlay, and Ready has a result and an image. */
  predicate Consistent(c: AppCells) {
    (InProgress(c.appState) ==> HasImage(c.currentImage))
    && (c.appState == Ready ==> c.result.Some? && HasImage(c.currentImage))
  }

  /** In a consistent state exactly the layer that belongs to the state is rendered:
      the loading overlay while a stage runs, the result when Ready, the toast on Error,
      nothing over the camera when Idle. */
  lemma GuardsFollowState(c: AppCells)
    requires Consistent(c)
    ensures ShowsLoading(c) <==> InProgress(c.appState)
    ensures ShowsResult(c) <==> c.appState == Ready
    ensures ShowsError(c) <==> c.appState == Error
    ensures c.appState == Idle <==> !ShowsLoading(c) && !ShowsResult(c) && !ShowsError(c)
  {
  }

  /** Whenever the loading overlay is rendered it shows a stage phrase and a non-empty bar. */
  lemma LoadingShowsStage(c: AppCells)
    requires ShowsLoading(c)
    ensures LoadingScreen.StatusText(c.appState) != LoadingScreen.Processing
    ensures LoadingScreen.WidthOf(LoadingScreen.ProgressClass(c.appState)) > 0.0
  {
    LoadingScreen.ProgressBounds(c.appState);
  }

  // ---------------------------------------------------------------------
  // Consistency along a sequence of effects, and how traces compose

  /** Performing `es` from `c`, the cells are consistent before the first effect and after each one. */
  predicate StaysConsistent(c: AppCells, es: seq<Effect>)
    decreases |es|
  {
    Consistent(c) && (es == [] || StaysConsistent(Apply(c, es[0]), es[1..]))
  }

  /** StaysConsistent is consistency of the cells after every prefix. */
  lemma {:induction false} StaysConsistentPrefixes(c: AppCells, es: seq<Effect>)
    ensures StaysConsistent(c, es) <==> forall j :: 0 <= j <= |es| ==> Consistent(Replay(c, es[..j]))
    decreases |es|
  {
    assert es[..0] == [];
    if es != [] {
      StaysConsistentPrefixes(Apply(c, es[0]), es[1..]);
      forall j | 1 <= j <= |es|
        ensures Replay(c, es[..j]) == Replay(Apply(c, es[0]), es[1..][..j - 1])
      {
        assert es[..j][0] == es[0] && es[..j][1..] == es[1..][..j - 1];
      }
      if forall j :: 0 <= j <= |es| ==> Consistent(Replay(c, es[..j])) {
        forall j | 0 <= j <= |es[1..]|
          ensures Consistent(Replay(Apply(c, es[0]), es[1..][..j]))
        {
          assert Replay(c, es[..j + 1]) == Replay(Apply(c, es[0]), es[1..][..j]);
        }
      }
    }
  }

  lemma {:induction false} ReplayAppend(c: AppCells, a: seq<Effect>, b: seq<Effect>)
    ensures Replay(c, a + b) == Replay(Replay(c, a), b)
    decreases |a|
  {
    if a == [] {
      assert a + b == b;
    } else {
      assert (a + b)[0] == a[0] && (a + b)[1..] == a[1..] + b;
      ReplayAppend(Apply(c, a[0]), a[1..], b);
    }
  }

  lemma {:induction false} StatesOfAppend(a: seq<Effect>, b: seq<Effect>)
    ensures StatesOf(a + b) == StatesOf(a) + StatesOf(b)
    decreases |a|
  {
    if a == [] {
      assert a + b == b;
    } else {
      assert (a + b)[0] == a[0] && (a + b)[1..] == a[1..] + b;
      StatesOfAppend(a[1..], b);
    }
  }

  lemma {:induction false} CallsOfAppend(a: seq<Effect>, b: seq<Effect>)
    ensures CallsOf(a + b) == CallsOf(a) + CallsOf(b)
    decreases |a|
  {
    if a == [] {
      assert a + b == b;
    } else {
      assert (a + b)[0] == a[0] && (a + b)[1..] == a[1..] + b;
      CallsOfAppend(a[1..], b);
    }
  }

  lemma {:induction false} ResultsOfAppend(a: seq<Effect>, b: seq<Effect>)
    ensures ResultsOf(a + b) == ResultsOf(a) + ResultsOf(b)
    decreases |a|
  {
    if a == [] {
      assert a + b == b;
    } else {
      assert (a + b)[0] == a[0] && (a + b)[1..] == a[1..] + b;
      ResultsOfAppend(a[1..], b);
    }
  }

  lemma {:induction false} StaysConsistentAppend(c: AppCells, a: seq<Effect>, b: seq<Effect>)
    ensures StaysConsistent(c, a + b) <==> StaysConsistent(c, a) && StaysConsistent(Replay(c, a), b)
    decreases |a|
  {
    if a == [] {
      assert a + b == b;
    } else {
      assert (a + b)[0] == a[0] && (a + b)[1..] == a[1..] + b;
      StaysConsistentAppend(Apply(c, a[0]), a[1..], b);
    }
  }

  /** How each observation of a trace splits over a concatenation. */
  lemma TraceAppend(c: AppCells, a: seq<Effect>, b: seq<Effect>)
    ensures Replay(c, a + b) == Replay(Replay(c, a), b)
    ensures StatesOf(a + b) == StatesOf(a) + StatesOf(b)
    ensures CallsOf(a + b) == CallsOf(a) + CallsOf(b)
    ensures ResultsOf(a + b) == ResultsOf(a) + ResultsOf(b)
    ensures StaysConsistent(c, a + b) <==> StaysConsistent(c, a) && StaysConsistent(Replay(c, a), b)
  {
    ReplayAppend(c, a, b);
    StatesOfAppend(a, b);
    CallsOfAppend(a, b);
    ResultsOfAppend(a, b);
    StaysConsistentAppend(c, a, b);
  }

  /** A prefix of a concatenation, up to a cut inside or at the end of its first part. */
  lemma PrefixOfAppend(a: seq<Effect>, b: seq<Effect>, k: nat)
    requires k <= |a| + |b|
    ensures k <= |a| ==> (a + b)[..k] == a[..k]
    ensures |a| <= k ==> (a + b)[..k] == a + b[..k - |a|]
  {
  }

  /** Regrouping a concatenation of traces. */
  lemma RegroupTraces(a: seq<Effect>, b: seq<Effect>, c: seq<Effect>)
    ensures a + b + c == a + (b + c)
  {
  }

  /** Two effects appended one at a time, then a trace. */
  lemma PairThen(before: seq<Effect>, e1: Effect, e2: Effect, rest: seq<Effect>)
    ensures before + [e1] + [e2] + rest == before + ([e1, e2] + rest)
  {
    assert before + [e1] + [e2] == before + [e1, e2];
  }

  /** One effect appended, then a trace. */
  lemma OneThen(before: seq<Effect>, e: Effect, rest: seq<Effect>)
    ensures before + [e] + rest == before + ([e] + rest)
  {
  }

  /** The cells at the end of a consistent trace are consistent. */
  lemma {:induction false} StaysConsistentEnd(c: AppCells, es: seq<Effect>)
    requires StaysConsistent(c, es)
    ensures Consistent(Replay(c, es))
    decreases |es|
  {
    if es != [] {
      StaysConsistentEnd(Apply(c, es[0]), es[1..]);
    }
  }

  /** A consistent trace extended by a trace that is consistent from where it ended. */
  lemma ExtendConsistent(c: AppCells, a: seq<Effect>, b: seq<Effect>)
    requires StaysConsistent(c, a) && StaysConsistent(Replay(c, a), b)
    ensures StaysConsistent(c, a + b)
    ensures Replay(c, a + b) == Replay(Replay(c, a), b)
  {
    ReplayAppend(c, a, b);
    StaysConsistentAppend(c, a, b);
  }

  /** The observations of a trace of one effect. */
  lemma TraceOne(c: AppCells, e: Effect)
    ensures Replay(c, [e]) == Apply(c, e)
    ensures StatesOf([e]) == StateWrite(e)
    ensures CallsOf([e]) == CallMade(e)
    ensures ResultsOf([e]) == ResultWrite(e)
    ensures StaysConsistent(c, [e]) <==> Consistent(c) && Consistent(Apply(c, e))
  {
    assert [e][0] == e && [e][1..] == [];
  }

  /** The observations of a trace of two effects. */
  lemma TracePair(c: AppCells, e1: Effect, e2: Effect)
    ensures Replay(c, [e1, e2]) == Apply(Apply(c, e1), e2)
    ensures StatesOf([e1, e2]) == StateWrite(e1) + StateWrite(e2)
    ensures CallsOf([e1, e2]) == CallMade(e1) + CallMade(e2)
    ensures ResultsOf([e1, e2]) == ResultWrite(e1) + ResultWrite(e2)
    ensures StaysConsistent(c, [e1, e2]) <==>
      Consistent(c) && Consistent(Apply(c, e1)) && Consistent(Apply(Apply(c, e1), e2))
  {
    TraceOne(c, e1);
    TraceOne(Apply(c, e1), e2);
    TraceAppend(c, [e1], [e2]);
    assert [e1, e2] == [e1] + [e2];
  }

  // ---------------------------------------------------------------------
  // One run of handleImageSelected, as a sequence of effects

  /** The states of a run where every stage succeeds. */
  const SuccessPath: seq<AppState> := [AnalyzingImage, FetchingInfo, GeneratingAudio, Ready]

  /** The catch block: record the message, then show the error. */
  function Failure(message: string): seq<Effect> {
    [WroteErrorMessage(Some(ErrorText(message))), WroteAppState(Error)]
  }

  // The stages below take what each service call resolves to: `id` from identifyLandmark,
  // `details` from fetchLandmarkDetails and `audio` from generateNarration (Err: it threw).

  /** The narration stage and what follows it. */
  function NarrationStage(name: string, d: LandmarkDetails, audio: Result<string>): seq<Effect> {
    [WroteAppState(GeneratingAudio), Invoked(Narrate(NarrationScript(name, d.text)))] +
    match audio
    case Err(m) => Failure(m)
    case Ok(a) => [WroteResult(Some(AnalysisResult(name, d.text, Some(a), d.sources))), WroteAppState(Ready)]
  }

  /** The enrichment stage and what follows it. */
  function FetchStage(name: string, details: Result<LandmarkDetails>, audio: Result<string>): seq<Effect> {
    [WroteAppState(FetchingInfo), Invoked(Fetch(name))] +
    match details
    case Err(m) => Failure(m)
    case Ok(d) => NarrationStage(name, d, audio)
  }

  /** The run from the identify call on. */
  function Stages(
    image: Option<string>, mimeType: string,
    id: Result<string>, details: Result<LandmarkDetails>, audio: Result<string>): seq<Effect>
  {
    [Invoked(Identify(image, mimeType))] +
    match id
    case Err(m) => Failure(m)
    case Ok(name) => FetchStage(name, details, audio)
  }

  /** The first two steps of every run: clear the error, read the file. */
  const ReadStart: seq<Effect> := [WroteErrorMessage(None), Invoked(ReadFile)]

  /** Once the file is read: show the preview, then enter ANALYZING_IMAGE. */
  function ShowPreview(mimeType: string, image: Option<string>): seq<Effect> {
    [WroteCurrentImage(Some(PreviewUrl(mimeType, image))), WroteAppState(AnalyzingImage)]
  }

  /** handleImageSelected for a file of type `mimeType`, where `file` is what awaiting
      fileToBase64 gives, with the given stage results. */
  function Run(
    mimeType: string, file: Result<Option<string>>,
    id: Result<string>, details: Result<LandmarkDetails>, audio: Result<string>): (es: seq<Effect>)
    ensures |es| >= 4 && es[..2] == ReadStart
  {
    ReadStart +
    match file
    case Err(m) => Failure(m)
    case Ok(image) => ShowPreview(mimeType, image) + Stages(image, mimeType, id, details, audio)
  }

  /** handleImageSelected when reading the file gives `read` and the three Gemini calls
      give `vision`, `search` and `speech`. */
  function RunEffects(
    mimeType: string, read: Result<string>,
    vision: Result<Option<string>>, search: Result<SearchResponse>, speech: Result<Option<string>>): (es: seq<Effect>)
    ensures read.Err? ==> es == ReadStart + [WroteErrorMessage(Some(GenericError)), WroteAppState(Error)]
  {
    Run(mimeType, ReadAsBase64(read), IdentifyLandmark(vision), Details(search), GenerateNarration(speech))
  }

  /** How a run ends: with a result, or after `stages` stages succeeded with the thrown message. */
  datatype RunOutcome = Succeeded(result: AnalysisResult) | FailedAfter(stages: nat, message: string)

  /** How the narration stage ends. */
  function NarrationOutcome(name: string, d: LandmarkDetails, audio: Result<string>): RunOutcome {
    match audio
    case Err(m) => FailedAfter(3, m)
    case Ok(a) => Succeeded(AnalysisResult(name, d.text, Some(a), d.sources))
  }

  /** How the run ends from the enrichment stage on. */
  function FetchOutcome(name: string, details: Result<LandmarkDetails>, audio: Result<string>): RunOutcome {
    match details
    case Err(m) => FailedAfter(2, m)
    case Ok(d) => NarrationOutcome(name, d, audio)
  }

  /** How the run ends from the identify call on. */
  function IdentifyOutcome(id: Result<string>, details: Result<LandmarkDetails>, audio: Result<string>): RunOutcome {
    match id
    case Err(m) => FailedAfter(1, m)
    case Ok(name) => FetchOutcome(name, details, audio)
  }

  /** The outcome of a run: the first stage that throws decides the message, and the result
      copies the stage outputs unchanged. Reading the file is stage 0. */
  function Outcome(
    file: Result<Option<string>>, id: Result<string>, details: Result<LandmarkDetails>, audio: Result<string>): (o: RunOutcome)
    ensures o.Succeeded? <==> file.Ok? && id.Ok? && details.Ok? && audio.Ok?
    ensures o.Succeeded? ==>
      o.result == AnalysisResult(id.value, details.value.text, Some(audio.value), details.value.sources)
    ensures o.FailedAfter? ==>
      o.stages <= 3
      && (o.stages == 0 <==> file.Err?)
      && (o.stages == 0 ==> o.message == file.message)
      && (o.stages == 1 ==> file.Ok? && id.Err? && o.message == id.message)
      && (o.stages == 2 ==> file.Ok? && id.Ok? && details.Err? && o.message == details.message)
      && (o.stages == 3 ==> file.Ok? && id.Ok? && details.Ok? && audio.Err? && o.message == audio.message)
  {
    match file
    case Err(m) => FailedAfter(0, m)
    case Ok(_) => IdentifyOutcome(id, details, audio)
  }

  /** The outcome with the service's own results: the trimmed name, the fallback history text,
      the grounded sources and the audio data on success; the service's fixed messages for the
      enrichment and narration failures. */
  lemma ServiceOutcome(
    file: Result<Option<string>>,
    vision: Result<Option<string>>, search: Result<SearchResponse>, speech: Result<Option<string>>)
    ensures var o := Outcome(file, IdentifyLandmark(vision), Details(search), GenerateNarration(speech));
      (o.Succeeded? <==> file.Ok? && IdentifyLandmark(vision).Ok? && search.Ok? && GenerateNarration(speech).Ok?)
      && (o.Succeeded? ==>
            o.result.landmarkName == Trim(vision.value.value)
            && o.result.historyText == HistoryText(search.value.text)
            && o.result.sources == GroundingSources(search.value.chunks)
            && o.result.audioBase64 == Some(speech.value.value))
      && (o.FailedAfter? && o.stages == 2 ==> o.message == DetailsFailure)
      && (o.FailedAfter? && o.stages == 3 ==> o.message == NarrationFailure)
  {
  }

  /** The cells once a run has ended from `c`: Ready with the result, or Error with the
      displayed message; nothing else is touched. */
  function Settled(c: AppCells, o: RunOutcome): AppCells {
    match o
    case Succeeded(r) => c.(appState := Ready, result := Some(r))
    case FailedAfter(_, m) => c.(appState := Error, errorMessage := Some(ErrorText(m)))
  }

  /** The tail of a trace that ends with `o`, performed from `c`: `result` is written
      once, just before Ready, on success and never otherwise, and the cells end Settled. */
  predicate EndsWith(c: AppCells, es: seq<Effect>, o: RunOutcome) {
    ResultsOf(es) == (if o.Succeeded? then [Some(o.result)] else [])
    && Replay(c, es) == Settled(c, o)
    && (o.Succeeded? ==> |es| >= 2 && es[|es| - 2..] == [WroteResult(Some(o.result)), WroteAppState(Ready)])
  }

  /** The last two effects do not change when effects are placed in front. */
  lemma LastTwo(a: seq<Effect>, b: seq<Effect>)
    requires |b| >= 2
    ensures (a + b)[|a + b| - 2..] == b[|b| - 2..]
  {
    var n := |a + b|;
    assert (a + b)[n - 2..] == [(a + b)[n - 2], (a + b)[n - 1]];
    assert b[|b| - 2..] == [b[|b| - 2], b[|b| - 1]];
  }

  /** Placing effects that leave `result` alone and change at most `appState` in front of
      a trace keeps EndsWith. */
  lemma EndsWithAfter(c: AppCells, head: seq<Effect>, es: seq<Effect>, o: RunOutcome)
    requires ResultsOf(head) == [] && Replay(c, head) == c.(appState := Replay(c, head).appState)
    requires EndsWith(Replay(c, head), es, o)
    ensures EndsWith(c, head + es, o)
  {
    ReplayAppend(c, head, es);
    ResultsOfAppend(head, es);
    var c1 := Replay(c, head);
    assert Settled(c1, o) == Settled(c, o) by {
      match o
      case Succeeded(r) =>
      case FailedAfter(_, m) =>
    }
    if o.Succeeded? {
      LastTwo(head, es);
    }
  }

  /** The observations of a failure, the catch block's two writes. */
  lemma FailureTrace(c: AppCells, m: string)
    ensures Replay(c, Failure(m)) == c.(appState := Error, errorMessage := Some(ErrorText(m)))
    ensures StatesOf(Failure(m)) == [Error] && CallsOf(Failure(m)) == [] && ResultsOf(Failure(m)) == []
    ensures StaysConsistent(c, Failure(m)) <==> Consistent(c)
  {
    TracePair(c, Failure(m)[0], Failure(m)[1]);
  }

  /** A failure trace ends a run that fails with its message. */
  lemma FailureEnds(c: AppCells, stages: nat, m: string)
    ensures EndsWith(c, Failure(m), FailedAfter(stages, m))
  {
    FailureTrace(c, m);
  }

  /** The states written and the stages invoked from the narration stage on. */
  lemma NarrationStageCalls(name: string, d: LandmarkDetails, audio: Result<string>)
    ensures var es := NarrationStage(name, d, audio);
      StatesOf(es) == [GeneratingAudio, if audio.Err? then Error else Ready]
      && CallsOf(es) == [Narrate(NarrationScript(name, d.text))]
  {
    var c := InitialCells;
    var e1, e2 := WroteAppState(GeneratingAudio), Invoked(Narrate(NarrationScript(name, d.text)));
    TracePair(c, e1, e2);
    match audio
    case Err(m) =>
      FailureTrace(c, m);
      StatesOfAppend([e1, e2], Failure(m));
      CallsOfAppend([e1, e2], Failure(m));
    case Ok(a) =>
      var done := [WroteResult(Some(AnalysisResult(name, d.text, Some(a), d.sources))), WroteAppState(Ready)];
      TracePair(c, done[0], done[1]);
      StatesOfAppend([e1, e2], done);
      CallsOfAppend([e1, e2], done);
  }

  /** How the narration stage ends from `c`. */
  lemma NarrationStageEnds(c: AppCells, name: string, d: LandmarkDetails, audio: Result<string>)
    ensures EndsWith(c, NarrationStage(name, d, audio), NarrationOutcome(name, d, audio))
  {
    var e1, e2 := WroteAppState(GeneratingAudio), Invoked(Narrate(NarrationScript(name, d.text)));
    var c2 := Apply(Apply(c, e1), e2);
    TracePair(c, e1, e2);
    match audio
    case Err(m) =>
      FailureEnds(c2, 3, m);
      EndsWithAfter(c, [e1, e2], Failure(m), FailedAfter(3, m));
    case Ok(a) =>
      var done := [WroteResult(Some(AnalysisResult(name, d.text, Some(a), d.sources))), WroteAppState(Ready)];
      TracePair(c2, done[0], done[1]);
      ReplayAppend(c, [e1, e2], done);
      ResultsOfAppend([e1, e2], done);
      LastTwo([e1, e2], done);
  }

  /** The narration stage, entered with an image on screen, passes through consistent cells only. */
  lemma NarrationStageConsistent(c: AppCells, name: string, d: LandmarkDetails, audio: Result<string>)
    requires Consistent(c) && HasImage(c.currentImage)
    ensures StaysConsistent(c, NarrationStage(name, d, audio))
  {
    var e1, e2 := WroteAppState(GeneratingAudio), Invoked(Narrate(NarrationScript(name, d.text)));
    var c2 := Apply(Apply(c, e1), e2);
    TracePair(c, e1, e2);
    match audio
    case Err(m) =>
      FailureTrace(c2, m);
      StaysConsistentAppend(c, [e1, e2], Failure(m));
    case Ok(a) =>
      var done := [WroteResult(Some(AnalysisResult(name, d.text, Some(a), d.sources))), WroteAppState(Ready)];
      TracePair(c2, done[0], done[1]);
      StaysConsistentAppend(c, [e1, e2], done);
  }

  /** The states written and the stages invoked from the enrichment stage on. */
  lemma FetchStageCalls(name: string, details: Result<LandmarkDetails>, audio: Result<string>)
    ensures var es := FetchStage(name, details, audio);
      StatesOf(es) == (if details.Err? then [FetchingInfo, Error]
                       else [FetchingInfo, GeneratingAudio, if audio.Err? then Error else Ready])
      && CallsOf(es) == [Fetch(name)] + (if details.Err? then []
                                         else [Narrate(NarrationScript(name, details.value.text))])
  {
    var e1, e2 := WroteAppState(FetchingInfo), Invoked(Fetch(name));
    TracePair(InitialCells, e1, e2);
    match details
    case Err(m) =>
      FailureTrace(InitialCells, m);
      StatesOfAppend([e1, e2], Failure(m));
      CallsOfAppend([e1, e2], Failure(m));
    case Ok(d) =>
      NarrationStageCalls(name, d, audio);
      StatesOfAppend([e1, e2], NarrationStage(name, d, audio));
      CallsOfAppend([e1, e2], NarrationStage(name, d, audio));
  }

  /** How the run ends from the enrichment stage on. */
  lemma FetchStageEnds(c: AppCells, name: string, details: Result<LandmarkDetails>, audio: Result<string>)
    ensures EndsWith(c, FetchStage(name, details, audio), FetchOutcome(name, details, audio))
  {
    var e1, e2 := WroteAppState(FetchingInfo), Invoked(Fetch(name));
    var c2 := Apply(Apply(c, e1), e2);
    TracePair(c, e1, e2);
    match details
    case Err(m) =>
      FailureEnds(c2, 2, m);
      EndsWithAfter(c, [e1, e2], Failure(m), FailedAfter(2, m));
    case Ok(d) =>
      NarrationStageEnds(c2, name, d, audio);
      EndsWithAfter(c, [e1, e2], NarrationStage(name, d, audio), NarrationOutcome(name, d, audio));
  }

  /** The enrichment stage, entered with an image on screen, passes through consistent cells only. */
  lemma FetchStageConsistent(c: AppCells, name: string, details: Result<LandmarkDetails>, audio: Result<string>)
    requires Consistent(c) && HasImage(c.currentImage)
    ensures StaysConsistent(c, FetchStage(name, details, audio))
  {
    var e1, e2 := WroteAppState(FetchingInfo), Invoked(Fetch(name));
    var c2 := Apply(Apply(c, e1), e2);
    TracePair(c, e1, e2);
    match details
    case Err(m) =>
      FailureTrace(c2, m);
      StaysConsistentAppend(c, [e1, e2], Failure(m));
    case Ok(d) =>
      NarrationStageConsistent(c2, name, d, audio);
      StaysConsistentAppend(c, [e1, e2], NarrationStage(name, d, audio));
  }

  /** The states written and the stages invoked from the identify call on. */
  lemma StagesCalls(
    image: Option<string>, mimeType: string,
    id: Result<string>, details: Result<LandmarkDetails>, audio: Result<string>)
    ensures var es := Stages(image, mimeType, id, details, audio);
      StatesOf(es) == (if id.Err? then [Error]
                       else if details.Err? then [FetchingInfo, Error]
                       else if audio.Err? then [FetchingInfo, GeneratingAudio, Error]
                       else [FetchingInfo, GeneratingAudio, Ready])
      && CallsOf(es) == [Identify(image, mimeType)] +
           (if id.Err? then []
            else [Fetch(id.value)] + (if details.Err? then []
                                      else [Narrate(NarrationScript(id.value, details.value.text))]))
  {
    var head: seq<Effect> := [Invoked(Identify(image, mimeType))];
    TraceOne(InitialCells, head[0]);
    match id
    case Err(m) =>
      FailureTrace(InitialCells, m);
      StatesOfAppend(head, Failure(m));
      CallsOfAppend(head, Failure(m));
    case Ok(name) =>
      FetchStageCalls(name, details, audio);
      StatesOfAppend(head, FetchStage(name, details, audio));
      CallsOfAppend(head, FetchStage(name, details, audio));
  }

  /** How the run ends from the identify call on. */
  lemma StagesEnds(
    c: AppCells, image: Option<string>, mimeType: string,
    id: Result<string>, details: Result<LandmarkDetails>, audio: Result<string>)
    ensures EndsWith(c, Stages(image, mimeType, id, details, audio), IdentifyOutcome(id, details, audio))
  {
    var head: seq<Effect> := [Invoked(Identify(image, mimeType))];
    TraceOne(c, head[0]);
    match id
    case Err(m) =>
      FailureEnds(c, 1, m);
      EndsWithAfter(c, head, Failure(m), FailedAfter(1, m));
    case Ok(name) =>
      FetchStageEnds(c, name, details, audio);
      EndsWithAfter(c, head, FetchStage(name, details, audio), FetchOutcome(name, details, audio));
  }

  /** The stages, entered with an image on screen, pass through consistent cells only. */
  lemma StagesConsistent(
    c: AppCells, image: Option<string>, mimeType: string,
    id: Result<string>, details: Result<LandmarkDetails>, audio: Result<string>)
    requires Consistent(c) && HasImage(c.currentImage)
    ensures StaysConsistent(c, Stages(image, mimeType, id, details, audio))
  {
    var head: seq<Effect> := [Invoked(Identify(image, mimeType))];
    TraceOne(c, head[0]);
    match id
    case Err(m) =>
      FailureTrace(c, m);
      StaysConsistentAppend(c, head, Failure(m));
    case Ok(name) =>
      FetchStageConsistent(c, name, details, audio);
      StaysConsistentAppend(c, head, FetchStage(name, details, audio));
  }

  /** The observations of the first two steps. */
  lemma ReadStartTrace(c: AppCells)
    ensures Replay(c, ReadStart) == c.(errorMessage := None)
    ensures StatesOf(ReadStart) == [] && CallsOf(ReadStart) == [ReadFile] && ResultsOf(ReadStart) == []
    ensures Consistent(c) ==> StaysConsistent(c, ReadStart)
  {
    TracePair(c, ReadStart[0], ReadStart[1]);
  }

  /** The observations of the preview steps. */
  lemma ShowPreviewTrace(c: AppCells, mimeType: string, image: Option<string>)
    ensures var es := ShowPreview(mimeType, image);
      Replay(c, es) == c.(currentImage := Some(PreviewUrl(mimeType, image)), appState := AnalyzingImage)
      && Replay(c, es[..1]) == c.(currentImage := Some(PreviewUrl(mimeType, image)))
      && StatesOf(es) == [AnalyzingImage] && CallsOf(es) == [] && ResultsOf(es) == []
      && (Consistent(c) ==> StaysConsistent(c, es))
  {
    var es := ShowPreview(mimeType, image);
    TracePair(c, es[0], es[1]);
    TraceOne(c, es[0]);
    assert es[..1] == [es[0]];
  }

  lemma SuccessPathPrefixes()
    ensures SuccessPath[..0] == [] && SuccessPath[..1] == [AnalyzingImage]
    ensures SuccessPath[..2] == [AnalyzingImage, FetchingInfo]
    ensures SuccessPath[..3] == [AnalyzingImage, FetchingInfo, GeneratingAudio]
  {
  }

  // ---------------------------------------------------------------------
  // What every run of handleImageSelected does

  /** A run whose read fails writes only Error to appState. */
  lemma ReadFailedStates(
    mimeType: string, m: string, id: Result<string>, details: Result<LandmarkDetails>, audio: Result<string>)
    ensures StatesOf(Run(mimeType, Err(m), id, details, audio)) == [Error]
  {
    ReadStartTrace(InitialCells);
    FailureTrace(InitialCells, m);
    StatesOfAppend(ReadStart, Failure(m));
  }

  /** Once the file is read, a run writes ANALYZING_IMAGE and then what its stages write. */
  lemma StatesAfterRead(
    mimeType: string, image: Option<string>,
    id: Result<string>, details: Result<LandmarkDetails>, audio: Result<string>)
    ensures StatesOf(Run(mimeType, Ok(image), id, details, audio)) ==
      [AnalyzingImage] + StatesOf(Stages(image, mimeType, id, details, audio))
  {
    var shown := ShowPreview(mimeType, image);
    var rest := Stages(image, mimeType, id, details, audio);
    ReadStartTrace(InitialCells);
    ShowPreviewTrace(InitialCells, mimeType, image);
    StatesOfAppend(shown, rest);
    StatesOfAppend(ReadStart, shown + rest);
  }

  /** The appState values a run whose read succeeds writes, listed per outcome of the stages. */
  lemma ReadStates(
    mimeType: string, image: Option<string>,
    id: Result<string>, details: Result<LandmarkDetails>, audio: Result<string>)
    ensures var states := StatesOf(Run(mimeType, Ok(image), id, details, audio));
      if id.Err? then states == [AnalyzingImage, Error]
      else if details.Err? then states == [AnalyzingImage, FetchingInfo, Error]
      else if audio.Err? then states == [AnalyzingImage, FetchingInfo, GeneratingAudio, Error]
      else states == SuccessPath
  {
    StatesAfterRead(mimeType, image, id, details, audio);
    StagesCalls(image, mimeType, id, details, audio);
  }

  /** The appState values a run writes: the success path, or a prefix of it followed by Error. */
  lemma RunStates(
    mimeType: string, file: Result<Option<string>>,
    id: Result<string>, details: Result<LandmarkDetails>, audio: Result<string>)
    ensures var o := Outcome(file, id, details, audio);
      StatesOf(Run(mimeType, file, id, details, audio)) ==
        if o.Succeeded? then SuccessPath else SuccessPath[..o.stages] + [Error]
  {
    SuccessPathPrefixes();
    match file
    case Err(m) => ReadFailedStates(mimeType, m, id, details, audio);
    case Ok(image) => ReadStates(mimeType, image, id, details, audio);
  }

  lemma PreludeCalls(mimeType: string, image: Option<string>)
    ensures CallsOf(ReadStart) == [ReadFile] && CallsOf(ShowPreview(mimeType, image)) == []
    ensures ResultsOf(ReadStart) == [] && ResultsOf(ShowPreview(mimeType, image)) == []
  {
    ReadStartTrace(InitialCells);
    ShowPreviewTrace(InitialCells, mimeType, image);
  }

  /** The call sequences a run can make are indexed by stage. */
  predicate InStageOrder(calls: seq<StageCall>) {
    forall i :: 0 <= i < |calls| ==> StageIndex(calls[i]) == i
  }

  lemma StageOrderPrefixes(identify: StageCall, name: string, script: string)
    requires identify.Identify?
    ensures InStageOrder([ReadFile])
    ensures InStageOrder([ReadFile, identify])
    ensures InStageOrder([ReadFile, identify, Fetch(name)])
    ensures InStageOrder([ReadFile, identify, Fetch(name), Narrate(script)])
  {
  }

  /** Once the file is read, a run calls what its stages call. */
  lemma CallsAfterRead(
    mimeType: string, image: Option<string>,
    id: Result<string>, details: Result<LandmarkDetails>, audio: Result<string>)
    ensures CallsOf(Run(mimeType, Ok(image), id, details, audio)) ==
      [ReadFile] + CallsOf(Stages(image, mimeType, id, details, audio))
  {
    var shown := ShowPreview(mimeType, image);
    var rest := Stages(image, mimeType, id, details, audio);
    PreludeCalls(mimeType, image);
    CallsOfAppend(shown, rest);
    CallsOfAppend(ReadStart, shown + rest);
  }

  /** A run whose read fails calls nothing after the read. */
  lemma ReadFailedCalls(
    mimeType: string, m: string, id: Result<string>, details: Result<LandmarkDetails>, audio: Result<string>)
    ensures CallsOf(Run(mimeType, Err(m), id, details, audio)) == [ReadFile]
  {
    PreludeCalls(mimeType, None);
    FailureTrace(InitialCells, m);
    CallsOfAppend(ReadStart, Failure(m));
  }

  /** The calls of a run whose read succeeds, listed per outcome of the stages. */
  lemma ReadCalls(
    mimeType: string, image: Option<string>,
    id: Result<string>, details: Result<LandmarkDetails>, audio: Result<string>)
    ensures var calls := CallsOf(Run(mimeType, Ok(image), id, details, audio));
      var identify := Identify(image, mimeType);
      if id.Err? then calls == [ReadFile, identify]
      else if details.Err? then calls == [ReadFile, identify, Fetch(id.value)]
      else calls == [ReadFile, identify, Fetch(id.value), Narrate(NarrationScript(id.value, details.value.text))]
  {
    CallsAfterRead(mimeType, image, id, details, audio);
    StagesCalls(image, mimeType, id, details, audio);
  }

  /** The calls of a run, listed per outcome of the stages. */
  lemma RunCallList(
    mimeType: string, file: Result<Option<string>>,
    id: Result<string>, details: Result<LandmarkDetails>, audio: Result<string>)
    ensures var calls := CallsOf(Run(mimeType, file, id, details, audio));
      if file.Err? then calls == [ReadFile]
      else
        var identify := Identify(file.value, mimeType);
        if id.Err? then calls == [ReadFile, identify]
        else if details.Err? then calls == [ReadFile, identify, Fetch(id.value)]
        else calls == [ReadFile, identify, Fetch(id.value), Narrate(NarrationScript(id.value, details.value.text))]
  {
    match file
    case Err(m) => ReadFailedCalls(mimeType, m, id, details, audio);
    case Ok(image) => ReadCalls(mimeType, image, id, details, audio);
  }

  /** The stages a run invokes: the file read, then each stage fed the previous stage's output,
      and none after the first failure. */
  lemma RunCalls(
    mimeType: string, file: Result<Option<string>>,
    id: Result<string>, details: Result<LandmarkDetails>, audio: Result<string>)
    ensures var calls := CallsOf(Run(mimeType, file, id, details, audio));
      var o := Outcome(file, id, details, audio);
      |calls| == (if o.Succeeded? then 4 else o.stages + 1)
      && InStageOrder(calls)
      && |calls| >= 1 && calls[0] == ReadFile
      && (file.Ok? ==> |calls| >= 2 && calls[1] == Identify(file.value, mimeType))
      && (file.Ok? && id.Ok? ==> |calls| >= 3 && calls[2] == Fetch(id.value))
      && (file.Ok? && id.Ok? && details.Ok? ==>
            |calls| == 4 && calls[3] == Narrate(NarrationScript(id.value, details.value.text)))
  {
    RunCallList(mimeType, file, id, details, audio);
    var identify := Identify(if file.Ok? then file.value else None, mimeType);
    var name := if id.Ok? then id.value else "";
    StageOrderPrefixes(identify, name, if details.Ok? then NarrationScript(name, details.value.text) else "");
  }

  /** `result` is written only by a run that succeeds, exactly once, with the stage outputs,
      immediately before READY; a failed run never writes it. */
  lemma RunWritesResultOnSuccess(
    mimeType: string, file: Result<Option<string>>,
    id: Result<string>, details: Result<LandmarkDetails>, audio: Result<string>)
    ensures var es := Run(mimeType, file, id, details, audio);
      var o := Outcome(file, id, details, audio);
      ResultsOf(es) == (if o.Succeeded? then [Some(o.result)] else [])
      && (o.Succeeded? ==> es[|es| - 2..] == [WroteResult(Some(o.result)), WroteAppState(Ready)])
  {
    match file
    case Err(m) =>
      PreludeCalls(mimeType, None);
      FailureTrace(InitialCells, m);
      ResultsOfAppend(ReadStart, Failure(m));
    case Ok(image) =>
      ResultsAfterRead(mimeType, image, id, details, audio);
      StagesEnds(InitialCells, image, mimeType, id, details, audio);
  }

  /** Once the file is read, a run writes `result` as its stages do, and ends as they end. */
  lemma ResultsAfterRead(
    mimeType: string, image: Option<string>,
    id: Result<string>, details: Result<LandmarkDetails>, audio: Result<string>)
    ensures var es := Run(mimeType, Ok(image), id, details, audio);
      var rest := Stages(image, mimeType, id, details, audio);
      ResultsOf(es) == ResultsOf(rest)
      && (|rest| >= 2 ==> es[|es| - 2..] == rest[|rest| - 2..])
  {
    var shown := ShowPreview(mimeType, image);
    var rest := Stages(image, mimeType, id, details, audio);
    PreludeCalls(mimeType, image);
    ResultsOfAppend(shown, rest);
    ResultsOfAppend(ReadStart, shown + rest);
    if |rest| >= 2 {
      LastTwo(shown, rest);
      LastTwo(ReadStart, shown + rest);
    }
  }

  /** The cells just before the identify call: the error cleared, the preview shown, ANALYZING_IMAGE. */
  function Started(c: AppCells, mimeType: string, image: Option<string>): AppCells {
    c.(errorMessage := None, currentImage := Some(PreviewUrl(mimeType, image)), appState := AnalyzingImage)
  }

  /** The cells a run leaves from any `c`: the error cleared and the preview shown (when the
      file was read), then Ready with the result or Error with the message. A failed run keeps
      the previous `result`. */
  lemma RunFinalCells(
    c: AppCells, mimeType: string, file: Result<Option<string>>,
    id: Result<string>, details: Result<LandmarkDetails>, audio: Result<string>)
    ensures Replay(c, Run(mimeType, file, id, details, audio)) ==
      Settled(c.(errorMessage := None,
                 currentImage := if file.Ok? then Some(PreviewUrl(mimeType, file.value)) else c.currentImage),
              Outcome(file, id, details, audio))
  {
    ReadStartTrace(c);
    var c1 := c.(errorMessage := None);
    match file
    case Err(m) =>
      FailureTrace(c1, m);
      ReplayAppend(c, ReadStart, Failure(m));
    case Ok(image) =>
      var shown := ShowPreview(mimeType, image);
      var rest := Stages(image, mimeType, id, details, audio);
      var c2 := Started(c, mimeType, image);
      ShowPreviewTrace(c1, mimeType, image);
      StagesEnds(c2, image, mimeType, id, details, audio);
      ReplayAppend(c1, shown, rest);
      ReplayAppend(c, ReadStart, shown + rest);
      var o := IdentifyOutcome(id, details, audio);
      assert Settled(c2, o) == Settled(c1.(currentImage := c2.currentImage), o) by {
        match o
        case Succeeded(r) =>
        case FailedAfter(_, m) =>
      }
  }

  /** A failed read shows the generic message whatever the reader reported, since its error
      event has no message, and calls nothing more. */
  lemma ReadFailureShowsGeneric(
    c: AppCells, mimeType: string, read: Result<string>,
    vision: Result<Option<string>>, search: Result<SearchResponse>, speech: Result<Option<string>>)
    requires read.Err?
    ensures var es := RunEffects(mimeType, read, vision, search, speech);
      Replay(c, es) == c.(appState := Error, errorMessage := Some(GenericError))
      && CallsOf(es) == [ReadFile]
  {
    var id, details, audio := IdentifyLandmark(vision), Details(search), GenerateNarration(speech);
    RunFinalCells(c, mimeType, ReadAsBase64(read), id, details, audio);
    ReadFailedCalls(mimeType, ReaderErrorMessage, id, details, audio);
  }

  /** A run starts by clearing the error, and shows the preview before the state becomes
      ANALYZING_IMAGE. */
  lemma RunStart(
    c: AppCells, mimeType: string, file: Result<Option<string>>,
    id: Result<string>, details: Result<LandmarkDetails>, audio: Result<string>)
    ensures var es := Run(mimeType, file, id, details, audio);
      |es| >= 4
      && Replay(c, es[..2]) == c.(errorMessage := None)
      && (file.Ok? ==>
            var preview := Some(PreviewUrl(mimeType, file.value));
            Replay(c, es[..3]) == c.(errorMessage := None, currentImage := preview)
            && Replay(c, es[..4]) == c.(errorMessage := None, currentImage := preview, appState := AnalyzingImage))
  {
    ReadStartTrace(c);
    match file
    case Err(m) =>
      PrefixOfAppend(ReadStart, Failure(m), 2);
    case Ok(image) =>
      var shown := ShowPreview(mimeType, image);
      var rest := shown + Stages(image, mimeType, id, details, audio);
      ShowPreviewTrace(c.(errorMessage := None), mimeType, image);
      PrefixOfAppend(ReadStart, rest, 2);
      PrefixOfAppend(ReadStart, rest, 3);
      PrefixOfAppend(ReadStart, rest, 4);
      PrefixOfAppend(shown, Stages(image, mimeType, id, details, audio), 1);
      PrefixOfAppend(shown, Stages(image, mimeType, id, details, audio), 2);
      ReplayAppend(c, ReadStart, shown[..1]);
      ReplayAppend(c, ReadStart, shown);
  }

  /** A run whose read fails keeps consistent cells consistent. */
  lemma ReadFailedConsistent(
    c: AppCells, mimeType: string, m: string,
    id: Result<string>, details: Result<LandmarkDetails>, audio: Result<string>)
    requires Consistent(c)
    ensures StaysConsistent(c, Run(mimeType, Err(m), id, details, audio))
  {
    ReadStartTrace(c);
    FailureTrace(c.(errorMessage := None), m);
    StaysConsistentAppend(c, ReadStart, Failure(m));
  }

  /** A run whose read succeeds keeps consistent cells consistent. */
  lemma ReadConsistent(
    c: AppCells, mimeType: string, image: Option<string>,
    id: Result<string>, details: Result<LandmarkDetails>, audio: Result<string>)
    requires Consistent(c)
    ensures StaysConsistent(c, Run(mimeType, Ok(image), id, details, audio))
  {
    var c1 := c.(errorMessage := None);
    var shown := ShowPreview(mimeType, image);
    var rest := Stages(image, mimeType, id, details, audio);
    ReadStartTrace(c);
    ShowPreviewTrace(c1, mimeType, image);
    StagesConsistent(Started(c, mimeType, image), image, mimeType, id, details, audio);
    StaysConsistentAppend(c1, shown, rest);
    StaysConsistentAppend(c, ReadStart, shown + rest);
  }

  /** From consistent cells, every intermediate state of a run is consistent, so the render
      guards show exactly the layer of the current state at every step (GuardsFollowState). */
  lemma RunStaysConsistent(
    c: AppCells, mimeType: string, file: Result<Option<string>>,
    id: Result<string>, details: Result<LandmarkDetails>, audio: Result<string>)
    requires Consistent(c)
    ensures StaysConsistent(c, Run(mimeType, file, id, details, audio))
    ensures var es := Run(mimeType, file, id, details, audio);
      forall j :: 0 <= j <= |es| ==> Consistent(Replay(c, es[..j]))
  {
    StaysConsistentPrefixes(c, Run(mimeType, file, id, details, audio));
    match file
    case Err(m) => ReadFailedConsistent(c, mimeType, m, id, details, audio);
    case Ok(image) => ReadConsistent(c, mimeType, image, id, details, audio);
  }

  /** resetApp's writes, in source order. */
  const ResetEffects: seq<Effect> :=
    [WroteAppState(Idle), WroteCurrentImage(None), WroteResult(None), WroteErrorMessage(None)]

  /** resetApp restores the initial cells whatever they were, through consistent states only. */
  lemma ResetClears(c: AppCells)
    ensures Replay(c, ResetEffects) == InitialCells
    ensures StatesOf(ResetEffects) == [Idle] && CallsOf(ResetEffects) == []
    ensures Consistent(c) ==> StaysConsistent(c, ResetEffects)
  {
    var e1, e2, e3, e4 := ResetEffects[0], ResetEffects[1], ResetEffects[2], ResetEffects[3];
    assert ResetEffects == [e1, e2] + [e3, e4];
    TracePair(c, e1, e2);
    TracePair(Apply(Apply(c, e1), e2), e3, e4);
    TraceAppend(c, [e1, e2], [e3, e4]);
  }

  // ---------------------------------------------------------------------
  // The component

  /** The App component's state cells. `log` records every write and stage invocation
      since the component was created. */
  class App {
    var appState: AppState
    var currentImage: Option<string>
    var result: Option<AnalysisResult>
    var errorMessage: Option<string>
    ghost var log: seq<Effect>

    function Current(): AppCells
      reads this
    {
      AppCells(appState, currentImage, result, errorMessage)
    }

    /** The cells are what the logged effects make of the initial cells, and every
        state on the way was consistent. */
    ghost predicate Valid()
      reads this
    {
      Replay(InitialCells, log) == Current() && StaysConsistent(InitialCells, log)
    }

    /** The four useState hooks with their initial values. */
    constructor ()
      ensures Current() == InitialCells && log == []
      ensures Valid()
    {
      appState, currentImage, result, errorMessage := Idle, None, None, None;
      log := [];
    }

    method SetAppState(s: AppState)
      modifies this
      ensures Current() == old(Current()).(appState := s)
      ensures log == old(log) + [WroteAppState(s)]
    {
      appState := s;
      log := log + [WroteAppState(s)];
    }

    method SetCurrentImage(image: Option<string>)
      modifies this
      ensures Current() == old(Current()).(currentImage := image)
      ensures log == old(log) + [WroteCurrentImage(image)]
    {
      currentImage := image;
      log := log + [WroteCurrentImage(image)];
    }

    method SetResult(r: Option<AnalysisResult>)
      modifies this
      ensures Current() == old(Current()).(result := r)
      ensures log == old(log) + [WroteResult(r)]
    {
      result := r;
      log := log + [WroteResult(r)];
    }

    method SetErrorMessage(message: Option<string>)
      modifies this
      ensures Current() == old(Current()).(errorMessage := message)
      ensures log == old(log) + [WroteErrorMessage(message)]
    {
      errorMessage := message;
      log := log + [WroteErrorMessage(message)];
    }

    /** The catch block of handleImageSelected. */
    method Catch(message: string)
      modifies this
      ensures Current() == old(Current()).(appState := Error, errorMessage := Some(ErrorText(message)))
      ensures log == old(log) + Failure(message)
    {
      SetErrorMessage(Some(ErrorText(message)));
      SetAppState(Error);
    }

    /** handleImageSelected for a file of type `mimeType`: `read` is what reading it gives, and
        `vision`, `search` and `speech` are what the three Gemini calls return. */
    method HandleImageSelected(
      mimeType: string, read: Result<string>,
      vision: Result<Option<string>>, search: Result<SearchResponse>, speech: Result<Option<string>>)
      requires Valid()
      modifies this
      ensures Valid() && Consistent(Current())
      ensures log == old(log) + RunEffects(mimeType, read, vision, search, speech)
      ensures Current() ==
        Settled(old(Current()).(errorMessage := None,
                                currentImage := if read.Ok? then Some(PreviewUrl(mimeType, FileToBase64(read.value)))
                                                else old(currentImage)),
                Outcome(ReadAsBase64(read), IdentifyLandmark(vision), Details(search), GenerateNarration(speech)))
    {
      ghost var c0, log0 := Current(), log;
      ghost var file, id, fetched, audio :=
        ReadAsBase64(read), IdentifyLandmark(vision), Details(search), GenerateNarration(speech);
      ghost var es := Run(mimeType, file, id, fetched, audio);
      SetErrorMessage(None);
      log := log + [Invoked(ReadFile)];
      if read.Err? {
        Catch(ReaderErrorMessage);
        PairThen(log0, WroteErrorMessage(None), Invoked(ReadFile), Failure(ReaderErrorMessage));
        assert es == ReadStart + Failure(ReaderErrorMessage);
      } else {
        var base64 := FileToBase64(read.value);
        ghost var log1 := log;
        SetCurrentImage(Some(PreviewUrl(mimeType, base64)));
        SetAppState(AnalyzingImage);
        IdentifyStep(base64, mimeType, vision, search, speech);
        ghost var rest := ShowPreview(mimeType, base64) + Stages(base64, mimeType, id, fetched, audio);
        PairThen(log1, WroteCurrentImage(Some(PreviewUrl(mimeType, base64))), WroteAppState(AnalyzingImage),
                 Stages(base64, mimeType, id, fetched, audio));
        PairThen(log0, WroteErrorMessage(None), Invoked(ReadFile), rest);
        assert es == ReadStart + rest;
      }
      assert log == log0 + es;
      RunFinalCells(c0, mimeType, file, id, fetched, audio);
      StaysConsistentEnd(InitialCells, log0);
      RunStaysConsistent(c0, mimeType, file, id, fetched, audio);
      ExtendConsistent(InitialCells, log0, es);
      StaysConsistentEnd(InitialCells, log);
    }

    /** Step 1 of the try block and what follows it: identify, then enrich. */
    method IdentifyStep(
      image: Option<string>, mimeType: string,
      vision: Result<Option<string>>, search: Result<SearchResponse>, speech: Result<Option<string>>)
      modifies this
      ensures log == old(log) + Stages(image, mimeType, IdentifyLandmark(vision), Details(search), GenerateNarration(speech))
      ensures Current() == Settled(old(Current()), IdentifyOutcome(IdentifyLandmark(vision), Details(search), GenerateNarration(speech)))
    {
      ghost var log0 := log;
      log := log + [Invoked(Identify(image, mimeType))];
      var identified := IdentifyLandmark(vision);
      if identified.Err? {
        Catch(identified.message);
        OneThen(log0, Invoked(Identify(image, mimeType)), Failure(identified.message));
      } else {
        FetchStep(identified.value, search, speech);
        OneThen(log0, Invoked(Identify(image, mimeType)), FetchStage(identified.value, Details(search), GenerateNarration(speech)));
      }
    }

    /** Step 2: FETCHING_INFO, search, then narrate. */
    method FetchStep(landmarkName: string, search: Result<SearchResponse>, speech: Result<Option<string>>)
      modifies this
      ensures log == old(log) + FetchStage(landmarkName, Details(search), GenerateNarration(speech))
      ensures Current() == Settled(old(Current()), FetchOutcome(landmarkName, Details(search), GenerateNarration(speech)))
    {
      ghost var log0 := log;
      SetAppState(FetchingInfo);
      log := log + [Invoked(Fetch(landmarkName))];
      var details := FetchLandmarkDetails(search);
      if details.Err? {
        Catch(details.message);
        PairThen(log0, WroteAppState(FetchingInfo), Invoked(Fetch(landmarkName)), Failure(details.message));
      } else {
        NarrationStep(landmarkName, details.value, speech);
        PairThen(log0, WroteAppState(FetchingInfo), Invoked(Fetch(landmarkName)),
                 NarrationStage(landmarkName, details.value, GenerateNarration(speech)));
      }
    }

    /** Step 3: GENERATING_AUDIO, narrate App's script, then record the result and show it. */
    method NarrationStep(landmarkName: string, d: LandmarkDetails, speech: Result<Option<string>>)
      modifies this
      ensures log == old(log) + NarrationStage(landmarkName, d, GenerateNarration(speech))
      ensures Current() == Settled(old(Current()), NarrationOutcome(landmarkName, d, GenerateNarration(speech)))
    {
      ghost var log0 := log;
      SetAppState(GeneratingAudio);
      var script := NarrationScript(landmarkName, d.text);
      log := log + [Invoked(Narrate(script))];
      var audioBase64 := GenerateNarration(speech);
      if audioBase64.Err? {
        Catch(audioBase64.message);
        PairThen(log0, WroteAppState(GeneratingAudio), Invoked(Narrate(script)), Failure(audioBase64.message));
      } else {
        ghost var log1 := log;
        var result := AnalysisResult(landmarkName, d.text, Some(audioBase64.value), d.sources);
        SetResult(Some(result));
        SetAppState(Ready);
        PairThen(log1, WroteResult(Some(result)), WroteAppState(Ready), []);
        PairThen(log0, WroteAppState(GeneratingAudio), Invoked(Narrate(script)), [WroteResult(Some(result)), WroteAppState(Ready)]);
      }
    }

    /** resetApp: back to the initial cells, whatever the state. */
    method ResetApp()
      requires Valid()
      modifies this
      ensures Valid() && Consistent(Current())
      ensures Current() == InitialCells
      ensures log == old(log) + ResetEffects
    {
      ghost var c0, log0 := Current(), log;
      SetAppState(Idle);
      SetCurrentImage(None);
      SetResult(None);
      SetErrorMessage(None);
      RegroupTraces(log0 + [ResetEffects[0]], [ResetEffects[1]], [ResetEffects[2]]);
      RegroupTraces(log0, [ResetEffects[0]], [ResetEffects[1], ResetEffects[2]]);
      RegroupTraces(log0, [ResetEffects[0], ResetEffects[1], ResetEffects[2]], [ResetEffects[3]]);
      assert log == log0 + ResetEffects;
      ResetClears(c0);
      StaysConsistentEnd(InitialCells, log0);
      ExtendConsistent(InitialCells, log0, ResetEffects);
    }
  }
}
