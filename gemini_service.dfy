/** The three Gemini-backed stages, their composition and the data-URL helper.
    Every Gemini call is an outcome handed in by the caller: `Err(message)`
    when the SDK throws, otherwise the part of the response the code reads. */
module GeminiService {
  import opened Wrappers
  import opened JsString
  import opened Types

  const IdentifyFailure: string := "Could not identify a landmark in this image."
  const NoDetails: string := "No details found."
  const DetailsFailure: string := "Failed to retrieve landmark details."
  const NoAudio: string := "No audio data generated."
  const NarrationFailure: string := "Failed to generate narration."

  /** The reply the vision prompt asks for when nothing is recognised, after lower-casing. */
  const Sentinel: string := "unknown"

  /** A stage invocation, with the argument it was given. */
  datatype StageCall =
    | ReadFile
    | Identify(image: Option<string>, mimeType: string)
    | Fetch(landmarkName: string)
    | Narrate(script: string)

  /** The position of a stage in the pipeline, starting with the file read. */
  function StageIndex(c: StageCall): nat {
    match c
    case ReadFile => 0
    case Identify(_, _) => 1
    case Fetch(_) => 2
    case Narrate(_) => 3
  }

  /** `chunk.web`, with the two optional fields the code reads. */
  datatype WebSource = WebSource(uri: Option<string>, title: Option<string>)
  datatype GroundingChunk = GroundingChunk(web: Option<WebSource>)

  /** The search response as read: `response.text` and
      `response.candidates?.[0]?.groundingMetadata?.groundingChunks`. */
  datatype SearchResponse = SearchResponse(text: Option<string>, chunks: Option<seq<GroundingChunk>>)

  /** `{ text, sources }` returned by the enrichment stage. */
  datatype LandmarkDetails = LandmarkDetails(text: string, sources: seq<GroundingSource>)

  /** JavaScript truthiness of an optional string: present and non-empty. */
  predicate Truthy(s: Option<string>) {
    s.Some? && s.value != ""
  }

  // ---------------------------------------------------------------------
  // Stage 1: identifyLandmark

  /** The sentinel test `text.toLowerCase() === 'unknown'`. */
  predicate IsUnknown(t: string) {
    ToLower(t) == Sentinel
  }

  /** Post-processing of the vision reply: `response.text?.trim()`, rejected when
      empty or the sentinel. The catch logs and rethrows the same error, so an
      SDK error surfaces with its own message. */
  function IdentifyLandmark(reply: Result<Option<string>>): (r: Result<string>)
    ensures reply.Err? ==> r == Err(reply.message)
    ensures reply.Ok? ==> r.Ok? || r == Err(IdentifyFailure)
    ensures reply.Ok? && reply.value.Some? ==>
      (r.Ok? <==> !AllWhitespace(reply.value.value) && !IsUnknown(Trim(reply.value.value)))
    ensures r.Ok? ==>
      reply.Ok? && reply.value.Some? && r.value == Trim(reply.value.value)
      && r.value != "" && Unpadded(r.value) && !IsUnknown(r.value)
  {
    match reply
    case Err(m) => Err(m)
    case Ok(text) =>
      var t := if text.Some? then Some(Trim(text.value)) else None;
      if !Truthy(t) || IsUnknown(t.value) then Err(IdentifyFailure) else Ok(t.value)
  }

  /** The spellings of the sentinel that `toLowerCase` folds to "unknown":
      each letter in either case, and the KELVIN SIGN for the 'k'. */
  lemma UnknownSpellings(v: string)
    ensures IsUnknown(v) <==>
      |v| == 7 && forall i :: 0 <= i < 7 ==>
        v[i] == "unknown"[i] || v[i] == "UNKNOWN"[i] || (i == 2 && v[i] == Kelvin)
  {
    if IsUnknown(v) {
      forall i | 0 <= i < 7
        ensures v[i] == "unknown"[i] || v[i] == "UNKNOWN"[i] || (i == 2 && v[i] == Kelvin)
      {
        assert LowerChar(v[i]) == "unknown"[i];
      }
    }
  }

  /** The sentinel in any casing, padded with any whitespace, is rejected with the fixed message. */
  lemma IdentifyRejectsSentinel(w1: string, v: string, w2: string)
    requires AllWhitespace(w1) && AllWhitespace(w2)
    requires |v| == 7 && forall i :: 0 <= i < 7 ==> v[i] == "unknown"[i] || v[i] == "UNKNOWN"[i]
    ensures IdentifyLandmark(Ok(Some(w1 + v + w2))) == Err(IdentifyFailure)
  {
    UnknownSpellings(v);
    assert !IsWhitespace(v[0]) && !IsWhitespace(v[6]);
    TrimPadded(w1, v, w2);
  }

  /** A missing or whitespace-only reply is rejected with the fixed message. */
  lemma IdentifyRejectsBlank(text: Option<string>)
    requires text.None? || AllWhitespace(text.value)
    ensures IdentifyLandmark(Ok(text)) == Err(IdentifyFailure)
  {
  }

  /** A recognised name is returned trimmed, whatever whitespace surrounds it. */
  lemma IdentifyAcceptsName(w1: string, name: string, w2: string)
    requires AllWhitespace(w1) && AllWhitespace(w2)
    requires name != "" && Unpadded(name) && !IsUnknown(name)
    ensures IdentifyLandmark(Ok(Some(w1 + name + w2))) == Ok(name)
  {
    TrimPadded(w1, name, w2);
  }

  // ---------------------------------------------------------------------
  // Stage 2: fetchLandmarkDetails

  /** `response.text || "No details found."`: the history text is never empty. */
  function HistoryText(text: Option<string>): (r: string)
    ensures r != ""
    ensures Truthy(text) ==> r == text.value
    ensures !Truthy(text) ==> r == NoDetails
  {
    if Truthy(text) then text.value else NoDetails
  }

  /** `chunk.web?.uri && chunk.web?.title`: both present and non-empty. */
  predicate Citable(c: GroundingChunk) {
    c.web.Some? && Truthy(c.web.value.uri) && Truthy(c.web.value.title)
  }

  function SourceOf(c: GroundingChunk): GroundingSource
    requires Citable(c)
  {
    GroundingSource(c.web.value.uri.value, c.web.value.title.value)
  }

  /** The citable chunks, in order, each mapped to `{uri, title}`. */
  function Grounded(cs: seq<GroundingChunk>): (r: seq<GroundingSource>)
    ensures |r| <= |cs|
    ensures forall k :: 0 <= k < |r| ==> r[k].uri != "" && r[k].title != ""
    decreases |cs|
  {
    if cs == [] then []
    else
      var last := cs[|cs| - 1];
      Grounded(cs[..|cs| - 1]) + (if Citable(last) then [SourceOf(last)] else [])
  }

  /** The sources for the whole response: none when the metadata path is missing. */
  function GroundingSources(chunks: Option<seq<GroundingChunk>>): seq<GroundingSource> {
    if chunks.Some? then Grounded(chunks.value) else []
  }

  /** The `forEach`/`push` loop that collects the sources. */
  method CollectSources(chunks: Option<seq<GroundingChunk>>) returns (sources: seq<GroundingSource>)
    ensures sources == GroundingSources(chunks)
  {
    sources := [];
    if chunks.Some? {
      var cs := chunks.value;
      var i := 0;
      while i < |cs|
        invariant 0 <= i <= |cs|
        invariant sources == Grounded(cs[..i])
      {
        assert cs[..i + 1][..i] == cs[..i];
        if Citable(cs[i]) {
          sources := sources + [SourceOf(cs[i])];
        }
        i := i + 1;
      }
      assert cs[..i] == cs;
    }
  }

  /** Extraction distributes over concatenation: nothing is reordered, merged or deduplicated. */
  lemma {:induction false} GroundedAppend(a: seq<GroundingChunk>, b: seq<GroundingChunk>)
    ensures Grounded(a + b) == Grounded(a) + Grounded(b)
    decreases |b|
  {
    if b == [] {
      assert a + b == a;
    } else {
      var b' := b[..|b| - 1];
      assert (a + b)[..|a + b| - 1] == a + b';
      GroundedAppend(a, b');
    }
  }

  /** A chunk on its own yields its source exactly when both fields are non-empty. */
  lemma GroundedSingle(c: GroundingChunk)
    ensures Grounded([c]) == if Citable(c) then [SourceOf(c)] else []
  {
    assert [c][..0] == [];
  }

  /** Cutting a chunk list at `k`, and growing a prefix by one chunk. */
  lemma CutAt(s: seq<GroundingChunk>, k: nat)
    requires k <= |s|
    ensures s == s[..k] + s[k..]
    ensures k < |s| ==> s[..k + 1] == s[..k] + [s[k]]
  {
  }

  /** A citable chunk contributes its source between those of the chunks around it. */
  lemma GroundedAround(cs: seq<GroundingChunk>, k: nat)
    requires k < |cs| && Citable(cs[k])
    ensures Grounded(cs) == Grounded(cs[..k]) + [SourceOf(cs[k])] + Grounded(cs[k + 1..])
  {
    CutAt(cs, k + 1);
    CutAt(cs, k);
    GroundedAppend(cs[..k + 1], cs[k + 1..]);
    GroundedAppend(cs[..k], [cs[k]]);
    GroundedSingle(cs[k]);
  }

  /** Two citable chunks keep their relative order among the sources. */
  lemma GroundedKeepsOrder(cs: seq<GroundingChunk>, i: nat, j: nat)
    requires i < j < |cs| && Citable(cs[i]) && Citable(cs[j])
    ensures Grounded(cs) ==
      Grounded(cs[..i]) + [SourceOf(cs[i])] + Grounded(cs[i + 1..j]) + [SourceOf(cs[j])] + Grounded(cs[j + 1..])
  {
    var front := cs[..j];
    GroundedAround(cs, j);
    GroundedAround(front, i);
    assert front[..i] == cs[..i] && front[i + 1..] == cs[i + 1..j];
  }

  /** When every chunk is citable, every chunk yields its source, in the same positions. */
  lemma {:induction false} GroundedAllCitable(cs: seq<GroundingChunk>)
    requires forall k :: 0 <= k < |cs| ==> Citable(cs[k])
    ensures |Grounded(cs)| == |cs|
    ensures forall k :: 0 <= k < |cs| ==> Grounded(cs)[k] == SourceOf(cs[k])
    decreases |cs|
  {
    if cs != [] {
      GroundedAllCitable(cs[..|cs| - 1]);
    }
  }

  /** Each source comes from a citable chunk, and each citable chunk contributes one. */
  lemma {:induction false} GroundedMembers(cs: seq<GroundingChunk>, s: GroundingSource)
    ensures s in Grounded(cs) <==> exists k :: 0 <= k < |cs| && Citable(cs[k]) && SourceOf(cs[k]) == s
    decreases |cs|
  {
    if cs != [] {
      var init := cs[..|cs| - 1];
      GroundedMembers(init, s);
      if s in Grounded(init) {
        var k :| 0 <= k < |init| && Citable(init[k]) && SourceOf(init[k]) == s;
        assert cs[k] == init[k];
      }
      if exists k :: 0 <= k < |cs| && Citable(cs[k]) && SourceOf(cs[k]) == s {
        var k :| 0 <= k < |cs| && Citable(cs[k]) && SourceOf(cs[k]) == s;
        if k < |init| {
          assert init[k] == cs[k];
        }
      }
    }
  }

  /** With no citable chunk there are no sources. */
  lemma GroundedNoneCitable(cs: seq<GroundingChunk>)
    requires forall k :: 0 <= k < |cs| ==> !Citable(cs[k])
    ensures Grounded(cs) == []
  {
    if Grounded(cs) != [] {
      GroundedMembers(cs, Grounded(cs)[0]);
    }
  }

  /** What fetchLandmarkDetails yields for a search outcome. Any failure inside
      the try is rethrown as the fixed message. */
  function Details(reply: Result<SearchResponse>): (r: Result<LandmarkDetails>)
    ensures r.Err? <==> reply.Err?
    ensures r.Err? ==> r.message == DetailsFailure
    ensures r.Ok? ==>
      r.value.text != ""
      && (Truthy(reply.value.text) ==> r.value.text == reply.value.text.value)
      && |r.value.sources| <= (if reply.value.chunks.Some? then |reply.value.chunks.value| else 0)
  {
    match reply
    case Err(_) => Err(DetailsFailure)
    case Ok(resp) => Ok(LandmarkDetails(HistoryText(resp.text), GroundingSources(resp.chunks)))
  }

  /** fetchLandmarkDetails: fallback text, the collected sources, the fixed failure message. */
  method FetchLandmarkDetails(reply: Result<SearchResponse>) returns (r: Result<LandmarkDetails>)
    ensures r == Details(reply)
  {
    match reply
    case Err(_) =>
      r := Err(DetailsFailure);
    case Ok(resp) =>
      var text := HistoryText(resp.text);
      var sources := CollectSources(resp.chunks);
      r := Ok(LandmarkDetails(text, sources));
  }

  // ---------------------------------------------------------------------
  // Stage 3: generateNarration

  /** The body of the try: the inline audio data, or the inner "No audio data generated." error. */
  function NarrationAttempt(reply: Result<Option<string>>): Result<string> {
    match reply
    case Err(m) => Err(m)
    case Ok(audio) => if Truthy(audio) then Ok(audio.value) else Err(NoAudio)
  }

  /** generateNarration: the catch replaces every error, the inner one included,
      with "Failed to generate narration.". */
  function GenerateNarration(reply: Result<Option<string>>): (r: Result<string>)
    ensures r.Ok? <==> reply.Ok? && Truthy(reply.value)
    ensures r.Ok? ==> r.value == reply.value.value
    ensures r.Err? ==> r.message == NarrationFailure
  {
    match NarrationAttempt(reply)
    case Err(_) => Err(NarrationFailure)
    case Ok(audio) => Ok(audio)
  }

  /** A reply without audio fails inside the try, but the caller sees the general message. */
  lemma MissingAudioMessage(audio: Option<string>)
    requires !Truthy(audio)
    ensures NarrationAttempt(Ok(audio)) == Err(NoAudio)
    ensures GenerateNarration(Ok(audio)) == Err(NarrationFailure) != Err(NoAudio)
  {
  }

  // ---------------------------------------------------------------------
  // analyzeImagePipeline

  /** The narration script of analyzeImagePipeline: an introduction naming the
      landmark, then the history text unchanged. */
  function PipelineScript(name: string, history: string): (s: string)
    ensures |s| == 29 + |name| + |history|
    ensures s[27..27 + |name|] == name && s[|s| - |history|..] == history
  {
    "Here is what I found about " + name + ". " + history
  }

  /** analyzeImagePipeline: identify, then fetch with the name, then narrate the
      script; the first failure propagates and no later stage runs. */
  method AnalyzeImagePipeline(
    image: string, mimeType: string,
    vision: Result<Option<string>>, search: Result<SearchResponse>, speech: Result<Option<string>>)
    returns (r: Result<AnalysisResult>, calls: seq<StageCall>)
    ensures var id := IdentifyLandmark(vision);
      id.Err? ==> r == Err(id.message) && calls == [Identify(Some(image), mimeType)]
    ensures var id := IdentifyLandmark(vision);
      id.Ok? && search.Err? ==>
        r == Err(DetailsFailure) && calls == [Identify(Some(image), mimeType), Fetch(id.value)]
    ensures var id := IdentifyLandmark(vision);
      id.Ok? && search.Ok? ==>
        var d := Details(search).value;
        calls == [Identify(Some(image), mimeType), Fetch(id.value), Narrate(PipelineScript(id.value, d.text))]
        && r == match GenerateNarration(speech)
                case Err(_) => Err(NarrationFailure)
                case Ok(audio) => Ok(AnalysisResult(id.value, d.text, Some(audio), d.sources))
    ensures r.Ok? ==> |calls| == 3 && forall i :: 0 <= i < 3 ==> StageIndex(calls[i]) == i + 1
  {
    calls := [Identify(Some(image), mimeType)];
    var identified := IdentifyLandmark(vision);
    if identified.Err? {
      return Err(identified.message), calls;
    }
    var landmarkName := identified.value;
    calls := calls + [Fetch(landmarkName)];
    var details := FetchLandmarkDetails(search);
    if details.Err? {
      return Err(details.message), calls;
    }
    var historyText := details.value.text;
    var script := PipelineScript(landmarkName, historyText);
    calls := calls + [Narrate(script)];
    var audio := GenerateNarration(speech);
    if audio.Err? {
      return Err(audio.message), calls;
    }
    r := Ok(AnalysisResult(landmarkName, historyText, Some(audio.value), details.value.sources));
  }

  // ---------------------------------------------------------------------
  // fileToBase64

  /** `result.split(',')[1]`: the piece after the first comma, `undefined` without one. */
  function FileToBase64(dataUrl: string): (r: Option<string>)
    ensures r.None? <==> ',' !in dataUrl
    ensures r.Some? ==> ',' !in r.value
  {
    SplitCount(dataUrl, ',');
    var parts := Split(dataUrl, ',');
    if |parts| >= 2 then Some(parts[1]) else None
  }

  /** `error.message` for what the reader rejects with: the error event of a failed read
      has no `message` property, and an undefined message counts as empty. */
  const ReaderErrorMessage: string := ""

  /** fileToBase64's promise: a failed read rejects with the reader's error event, whose
      message is empty; a completed read resolves to the piece after the first comma. */
  function ReadAsBase64(read: Result<string>): (r: Result<Option<string>>)
    ensures r.Err? <==> read.Err?
    ensures r.Err? ==> r.message == ReaderErrorMessage
    ensures r.Ok? ==> (r.value.None? <==> ',' !in read.value)
  {
    match read
    case Err(_) => Err(ReaderErrorMessage)
    case Ok(dataUrl) => Ok(FileToBase64(dataUrl))
  }

  /** The piece between the first and the second comma (or the end) is returned. */
  lemma FileToBase64Segment(head: string, payload: string, rest: string)
    requires ',' !in head && ',' !in payload
    requires rest == [] || rest[0] == ','
    ensures FileToBase64(head + [','] + payload + rest) == Some(payload)
  {
    var tail := payload + rest;
    var url := head + [','] + tail;
    assert head + [','] + payload + rest == url;
    assert Split(tail, ',')[0] == payload by {
      if rest == [] {
        assert tail == payload;
        SplitWhole(payload, ',');
      } else {
        assert tail == payload + [','] + rest[1..];
        SplitAtSeparator(payload, ',', rest[1..]);
        SplitWhole(payload, ',');
      }
    }
    SplitAtSeparator(head, ',', tail);
    SplitWhole(head, ',');
    assert Split(url, ',') == [head] + Split(tail, ',');
  }

  /** A data URL `data:<mime>;base64,<payload>` yields its comma-free payload. */
  lemma FileToBase64DataUrl(mimeType: string, payload: string)
    requires ',' !in mimeType && ',' !in payload
    ensures FileToBase64("data:" + mimeType + ";base64," + payload) == Some(payload)
  {
    var head := "data:" + mimeType + ";base64";
    assert ',' !in head;
    assert "data:" + mimeType + ";base64," + payload == head + [','] + payload + [];
    FileToBase64Segment(head, payload, []);
  }
}
