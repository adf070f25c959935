/** The AI gateway of services/geminiService.ts. Every call into the
    generative-AI SDK, `fetch` and `URL.createObjectURL` is replaced by the
    value it would have produced, passed in as a parameter; the gateway's
    own logic (client caching, response checks, prompt building, theme
    choice, video-result selection and the stream-reading loop) is modelled. */
module Gemini {
  import opened Js
  import opened Text
  import opened Decimal

  newtype byte = x: int | 0 <= x < 256
  type Bytes = seq<byte>

  const ApiKeyNotConfigured := "API_KEY is not configured. Cannot initialize Story Spark's AI."
  const MissingVideoUri := "Veo response missing video URI."
  const MissingApiKeyForFetch := "API Key is missing for fetching video."
  const NoDataStream := "Video response from Veo contained no data stream."
  const DefaultVideoMimeType := "video/mp4"
  const EmptyStory := "Gemini API returned an empty story."
  const EmptyWorldDescription := "Gemini API returned an empty world description."
  const EmptyContinuation := "Gemini API returned an empty continuation."
  const HistorySeparator := "\n\n---\n\n"

  /** The fixed catalog of themes a random world is drawn from. */
  const RandomWorldThemes: seq<string> := [
    "a secret garden hidden behind a sparkling waterfall where flowers sing",
    "a bustling treetop city where friendly animals wear tiny hats and run shops",
    "a magical kingdom made entirely of colorful candy, cookies, and ice cream",
    "a cozy spaceship exploring a galaxy filled with planets made of fluff and stars that giggle",
    "an ancient, dusty library where books whisper secrets and maps show paths to treasure",
    "a tiny, cheerful village built on the back of a giant, gentle, moss-covered turtle",
    "an enchanted forest where trees have kind faces, tell silly jokes, and leaves shimmer in rainbow colors",
    "a floating island marketplace with flying carpets, talking parrots, and stalls selling bottled starlight",
    "an underwater city of playful merfolk, with castles made of glowing coral and paths of pearls",
    "a snowy mountain peak where friendly Yetis have fluffy blue fur and host joyful snowball festivals",
    "a desert oasis where the sand dunes are made of cinnamon and the water tastes like fruit punch",
    "a school for young wizards and witches located in a floating cloud castle",
    "a land where all the toys come to life at night and have their own secret adventures",
    "a prehistoric valley where baby dinosaurs wear flower crowns and play hide-and-seek",
    "a pirate ship crewed by friendly otters searching for the legendary lost island of giant bubbles"
  ]

  /** The names the gateway imports from its constants module; their values
      are not part of this model, so they are supplied from outside. */
  datatype ImportedConstants = ImportedConstants(
    geminiModelName: string,
    veoModelName: string,
    storySystemInstruction: string,
    worldGenerationSystemInstruction: string,
    storyContinuationSystemInstruction: string,
    videoScenePromptEnhancer: string)

  /** The `contents` of a `generateContent` call: the user's prompt as is,
      or one of the gateway's two templates filled in; `PromptText` spells
      each out character by character. */
  datatype Prompt =
    | UserPrompt(text: string)
    | WorldPrompt(theme: string)
    | ContinuationPrompt(worldTheme: string, initialWorldDescription: string, storySoFar: string, userAction: string)

  /** What a `generateContent` call is asked. */
  datatype TextRequest = TextRequest(
    model: string, contents: Prompt, systemInstruction: string,
    temperature: real, topP: real, topK: nat)

  /** What a `generateVideos` call is asked. */
  datatype VideoRequest = VideoRequest(
    model: string, prompt: string, personGeneration: string,
    aspectRatio: string, durationSeconds: nat, numberOfVideos: nat)

  // What the SDK and `fetch` hand back.
  datatype Video = Video(uri: Option<string>, mimeType: Option<string>)
  datatype GeneratedVideo = GeneratedVideo(video: Option<Video>)
  datatype VideoResponse = VideoResponse(generatedVideos: Option<seq<GeneratedVideo>>)
  /** A finished long-running video operation. */
  datatype Operation = Operation(error: Option<Thrown>, response: Option<VideoResponse>)
  /** What one `reader.read()` resolves to. */
  datatype ReadResult = ReadResult(done: bool, value: Option<Bytes>)
  /** One `await reader.read()`: its result, or what it rejected with. */
  type Read = Result<ReadResult, Thrown>
  /** A `fetch` response: status, the text read on failure, and the reads its body reader performs. */
  datatype FetchResponse = FetchResponse(ok: bool, status: nat, errorText: string, body: Option<seq<Read>>)
  /** Everything the video step awaits: the operation after polling (or what
      starting or polling it threw), the fetch of the video (or what it
      threw), and the object URL that `URL.createObjectURL` mints. */
  datatype VideoBackend = VideoBackend(
    finished: Result<Operation, Thrown>, fetched: Result<FetchResponse, Thrown>, objectUrl: string)

  datatype Blob = Blob(parts: seq<Bytes>, mimeType: string)
  datatype VideoScene = VideoScene(videoUrl: string, videoMimeType: string)
  datatype WorldSetting = WorldSetting(description: string, theme: string, videoUrl: string, videoMimeType: string)
  datatype SceneContinuation = SceneContinuation(
    nextSceneTextDescription: string, nextSceneVideoUrl: string, nextSceneVideoMimeType: string)
  /** The requests the video step issued, in order, and the blob it built. */
  datatype VideoTrace = VideoTrace(request: Option<VideoRequest>, fetchUrl: Option<string>, blob: Option<Blob>)

  const NoVideoTrace := VideoTrace(None, None, None)

  // ---------------------------------------------------------------- text checks

  /** The check applied to every text response: a missing text, or one that
      trims to nothing, is an error; otherwise the trimmed text is used. */
  function RequireText(text: Option<string>, emptyMessage: string): (r: Result<string, Thrown>)
    ensures r.Failure? <==> text.None? || AllWhitespace(text.value)
    ensures r.Failure? ==> r.error == ErrorObject(emptyMessage)
    ensures r.Success? ==> r.value == Trim(text.value)
    ensures r.Success? ==> r.value != [] && !IsWhitespace(r.value[0]) && !IsWhitespace(r.value[|r.value| - 1])
  {
    if text.None? || text.value == "" || Trim(text.value) == "" then Failure(ErrorObject(emptyMessage))
    else Success(Trim(text.value))
  }

  // ---------------------------------------------------------------- themes

  /** `Math.floor(random * RANDOM_WORLD_THEMES.length)` for a `random` that
      `Math.random` draws from [0, 1). */
  function RandomThemeIndex(random: real): (i: nat)
    requires 0.0 <= random < 1.0
    ensures i < |RandomWorldThemes|
  {
    (random * (|RandomWorldThemes| as real)).Floor
  }

  function PickRandomTheme(random: real): (theme: string)
    requires 0.0 <= random < 1.0
    ensures theme in RandomWorldThemes
  {
    RandomWorldThemes[RandomThemeIndex(random)]
  }

  /** Each theme is chosen exactly on its own interval [k/15, (k+1)/15) of
      the random draw, so the choice is uniform over the catalog. */
  lemma ThemeInterval(random: real, k: nat)
    requires 0.0 <= random < 1.0
    requires k < |RandomWorldThemes|
    ensures RandomThemeIndex(random) == k <==>
            (k as real) / 15.0 <= random < ((k + 1) as real) / 15.0
  {
    var x := random * 15.0;
    assert (k as real) / 15.0 <= random <==> k as real <= x;
    assert random < ((k + 1) as real) / 15.0 <==> x < (k + 1) as real;
  }

  // ---------------------------------------------------------------- history and prompts

  function TotalLength(parts: seq<string>): nat {
    if parts == [] then 0 else |parts[0]| + TotalLength(parts[1..])
  }

  /** `parts.join(sep)`: nothing of any part is lost. */
  function Join(parts: seq<string>, sep: string): (r: string)
    ensures |r| >= TotalLength(parts)
    ensures parts == [] ==> r == ""
  {
    if |parts| == 0 then "" else if |parts| == 1 then parts[0]
    else parts[0] + sep + Join(parts[1..], sep)
  }

  /** Appending a part extends the joined text by the separator and that part. */
  lemma {:induction false} JoinAppend(parts: seq<string>, p: string, sep: string)
    requires parts != []
    ensures Join(parts + [p], sep) == Join(parts, sep) + sep + p
    decreases |parts|
  {
    if |parts| > 1 {
      assert (parts + [p])[1..] == parts[1..] + [p];
      JoinAppend(parts[1..], p, sep);
    } else {
      assert parts + [p] == [parts[0], p];
      assert [parts[0], p][1..] == [p];
    }
  }

  /** The joined text holds every part and one separator between neighbours. */
  lemma {:induction false} JoinLength(parts: seq<string>, sep: string)
    requires parts != []
    ensures |Join(parts, sep)| == TotalLength(parts) + (|parts| - 1) * |sep|
    decreases |parts|
  {
    if |parts| > 1 { JoinLength(parts[1..], sep); }
  }

  /** The joined text begins with the first part and ends with the last. */
  lemma {:induction false} JoinEnds(parts: seq<string>, sep: string)
    requires parts != []
    ensures StartsWith(Join(parts, sep), parts[0])
    ensures var j := Join(parts, sep); var l := parts[|parts| - 1];
            |l| <= |j| && j[|j| - |l|..] == l
    decreases |parts|
  {
    if |parts| > 1 {
      JoinEnds(parts[1..], sep);
      var j := Join(parts, sep);
      var rest := Join(parts[1..], sep);
      assert j == parts[0] + sep + rest;
      assert j[..|parts[0]|] == parts[0];
      assert j[|j| - |rest|..] == rest;
    }
  }

  /** The story so far, as the continuation prompt quotes it. */
  function StorySoFar(history: seq<string>): string {
    Join(history, HistorySeparator)
  }

  // The fixed text of the two prompt templates, between the values they quote.
  const WorldOpening := "Generate a rich, visual description of a world based on this theme: \""
  const ThemeLine := "\n  The world is themed around: \""
  const DescriptionLine := "\"\n  The initial detailed description of this world was: \""
  const HistoryOpening := "\"\n\n  So far, the story has unfolded like this:\n  ---\n  "
  const ActionLine := "\n  ---\n\n  Now, the character/user wants to: \""
  const ClosingInstruction :=
    "\"\n\n  Describe what happens next in 1 engaging paragraph. This description will be used to generate a video scene. Focus on visually rich details.\n  "

  /** The text of a prompt, as the template literals of the gateway build it. */
  function PromptText(p: Prompt): (r: string)
    ensures p.UserPrompt? ==> r == p.text
    ensures p.WorldPrompt? ==> |r| == |WorldOpening| + |p.theme| + 1
    ensures p.ContinuationPrompt? ==>
              |r| == |ThemeLine| + |p.worldTheme| + |DescriptionLine| + |p.initialWorldDescription|
                     + |HistoryOpening| + |p.storySoFar| + |ActionLine| + |p.userAction|
                     + |ClosingInstruction|
  {
    match p
    case UserPrompt(text) => text
    case WorldPrompt(theme) => WorldOpening + theme + "\""
    case ContinuationPrompt(worldTheme, initialWorldDescription, storySoFar, userAction) =>
      Interleave(ThemeLine, worldTheme, DescriptionLine, initialWorldDescription, HistoryOpening,
                 storySoFar, ActionLine, userAction, ClosingInstruction)
  }

  /** Five fixed texts with four values between them, in order. */
  function Interleave(c1: string, v1: string, c2: string, v2: string, c3: string, v3: string,
                      c4: string, v4: string, c5: string): (r: string)
    ensures |r| == |c1| + |v1| + |c2| + |v2| + |c3| + |v3| + |c4| + |v4| + |c5|
  {
    c1 + (v1 + (c2 + (v2 + (c3 + (v3 + (c4 + (v4 + c5)))))))
  }

  lemma SliceOfConcat(a: string, b: string, c: string)
    ensures (a + b + c)[|a|..|a| + |b|] == b
    ensures (a + b + c)[..|a|] == a
  {
    assert (a + b + c)[..|a|] == a;
  }

  /** Where a text reads `a`, then `b`, then `rest` from position `m`, the
      value `b` sits right after `a` and `rest` follows it. */
  lemma Step(t: string, m: nat, a: string, b: string, rest: string)
    requires m <= |t| && t[m..] == a + (b + rest)
    ensures m + |a| + |b| <= |t|
    ensures t[m..m + |a|] == a
    ensures t[m + |a|..m + |a| + |b|] == b
    ensures t[m + |a| + |b|..] == rest
  {
    forall x | 0 <= x < |a| ensures t[m + x] == a[x] {
      assert t[m..][x] == a[x];
    }
    forall x | 0 <= x < |b| ensures t[m + |a| + x] == b[x] {
      assert t[m..][|a| + x] == b[x];
    }
    forall x | 0 <= x < |rest| ensures t[m + |a| + |b| + x] == rest[x] {
      assert t[m..][|a| + |b| + x] == rest[x];
    }
  }

  /** The world prompt quotes the theme verbatim after its fixed opening. */
  lemma WorldPromptQuotesTheme(theme: string)
    ensures var t := PromptText(WorldPrompt(theme));
            && |t| == |WorldOpening| + |theme| + 1
            && StartsWith(t, WorldOpening)
            && t[|WorldOpening|..|WorldOpening| + |theme|] == theme
            && t[|t| - 1] == '"'
  {
    SliceOfConcat(WorldOpening, theme, "\"");
  }

  /** `t` reads `c1`, `v1`, `c2`, `v2`, `c3`, `v3`, `c4`, `v4`, `c5` in order:
      each value sits verbatim at its offset, each fixed text between two
      values sits verbatim between them, and the last fixed text ends `t`. */
  predicate Quotes(t: string, c1: string, v1: string, c2: string, v2: string, c3: string, v3: string,
                   c4: string, v4: string, c5: string) {
    var i := |c1|;
    var j := i + |v1| + |c2|;
    var k := j + |v2| + |c3|;
    var l := k + |v3| + |c4|;
    && |t| == l + |v4| + |c5|
    && StartsWith(t, c1)
    && t[i..i + |v1|] == v1
    && t[i + |v1|..j] == c2
    && t[j..j + |v2|] == v2
    && t[j + |v2|..k] == c3
    && t[k..k + |v3|] == v3
    && t[k + |v3|..l] == c4
    && t[l..l + |v4|] == v4
    && t[l + |v4|..] == c5
  }

  /** An interleaving quotes each of its values at its place. */
  lemma Interleaved(c1: string, v1: string, c2: string, v2: string, c3: string, v3: string,
                    c4: string, v4: string, c5: string)
    ensures Quotes(Interleave(c1, v1, c2, v2, c3, v3, c4, v4, c5), c1, v1, c2, v2, c3, v3, c4, v4, c5)
  {
    var t := Interleave(c1, v1, c2, v2, c3, v3, c4, v4, c5);
    var i := |c1|;
    var j := i + |v1| + |c2|;
    var k := j + |v2| + |c3|;
    assert t[..i] == c1;
    assert t[0..] == c1 + (v1 + (c2 + (v2 + (c3 + (v3 + (c4 + (v4 + c5)))))));
    Step(t, 0, c1, v1, c2 + (v2 + (c3 + (v3 + (c4 + (v4 + c5))))));
    Step(t, i + |v1|, c2, v2, c3 + (v3 + (c4 + (v4 + c5))));
    Step(t, j + |v2|, c3, v3, c4 + (v4 + c5));
    Step(t, k + |v3|, c4, v4, c5);
  }

  /** The continuation prompt holds the theme, the initial description, the
      story so far and the action, each verbatim at its place between the
      fixed lines of the template, and ends with the closing instruction. */
  lemma ContinuationPromptQuotes(worldTheme: string, initialWorldDescription: string, storySoFar: string, userAction: string)
    ensures Quotes(PromptText(ContinuationPrompt(worldTheme, initialWorldDescription, storySoFar, userAction)),
                   ThemeLine, worldTheme, DescriptionLine, initialWorldDescription, HistoryOpening,
                   storySoFar, ActionLine, userAction, ClosingInstruction)
  {
    Interleaved(ThemeLine, worldTheme, DescriptionLine, initialWorldDescription, HistoryOpening,
                storySoFar, ActionLine, userAction, ClosingInstruction);
  }

  /** The text request of a continuation: the prompt quotes the theme, the
      initial description, the history joined by the separator, and the action. */
  function ContinuationRequest(imports: ImportedConstants, worldTheme: string, initialWorldDescription: string,
                               storyHistory: seq<string>, userAction: string): TextRequest {
    TextRequest(imports.geminiModelName,
                ContinuationPrompt(worldTheme, initialWorldDescription, StorySoFar(storyHistory), userAction),
                imports.storyContinuationSystemInstruction, 0.7, 0.95, 40)
  }

  /** A `generateContent` call followed by the text check: what the call
      threw is rethrown, otherwise the response text must not be blank. */
  function TextStep(reply: Result<Option<string>, Thrown>, emptyMessage: string): (r: Result<string, Thrown>)
    ensures reply.Failure? ==> r == Failure(reply.error)
    ensures reply.Success? ==> r == RequireText(reply.value, emptyMessage)
  {
    if reply.Failure? then Failure(reply.error) else RequireText(reply.value, emptyMessage)
  }

  /** The world a successful description and video make; a failed video step fails the whole call. */
  function WorldOf(description: string, theme: string, scene: Result<VideoScene, Thrown>): Result<WorldSetting, Thrown> {
    match scene
    case Failure(e) => Failure(e)
    case Success(v) => Success(WorldSetting(description, theme, v.videoUrl, v.videoMimeType))
  }

  function ContinuationOf(next: string, scene: Result<VideoScene, Thrown>): Result<SceneContinuation, Thrown> {
    match scene
    case Failure(e) => Failure(e)
    case Success(v) => Success(SceneContinuation(next, v.videoUrl, v.videoMimeType))
  }

  /** The video prompt: the fixed enhancer followed by the scene text. */
  function EnhancedPrompt(enhancer: string, textPrompt: string): (p: string)
    ensures StartsWith(p, enhancer) && p[|enhancer|..] == textPrompt
  {
    enhancer + textPrompt
  }

  // ---------------------------------------------------------------- video result

  /** `operation.response?.generatedVideos?.[0]?.video`. */
  function FirstVideo(op: Operation): Option<Video> {
    if op.response.None? then None
    else
      var vs := op.response.value.generatedVideos;
      if vs.None? || |vs.value| == 0 then None else vs.value[0].video
  }

  predicate HasVideoUri(op: Operation) {
    FirstVideo(op).Some? && Truthy(FirstVideo(op).value.uri)
  }

  /** The finished operation's error is rethrown; a result without a video
      URI is an error; otherwise the first generated video is used. */
  function LocateVideo(op: Operation): (r: Result<Video, Thrown>)
    ensures op.error.Some? ==> r == Failure(op.error.value)
    ensures op.error.None? && !HasVideoUri(op) ==> r == Failure(ErrorObject(MissingVideoUri))
    ensures r.Success? <==> op.error.None? && HasVideoUri(op)
    ensures r.Success? ==> FirstVideo(op) == Some(r.value) && Truthy(r.value.uri)
  {
    if op.error.Some? then Failure(op.error.value)
    else if !HasVideoUri(op) then Failure(ErrorObject(MissingVideoUri))
    else Success(FirstVideo(op).value)
  }

  /** `video.mimeType || 'video/mp4'`. */
  function VideoMimeType(video: Video): (m: string)
    ensures m != ""
    ensures Truthy(video.mimeType) ==> m == video.mimeType.value
    ensures !Truthy(video.mimeType) ==> m == DefaultVideoMimeType
  {
    if Truthy(video.mimeType) then video.mimeType.value else DefaultVideoMimeType
  }

  /** `${videoUri}&key=${apiKey}`. */
  function FetchUrl(videoUri: string, apiKey: string): (u: string)
    ensures StartsWith(u, videoUri) && u[|videoUri|..] == "&key=" + apiKey
  {
    videoUri + "&key=" + apiKey
  }

  /** The message of the error a non-ok fetch raises: `Status <n>: <text>`. */
  function StatusMessage(status: nat, errorText: string): string {
    "Status " + NatToString(status) + ": " + errorText
  }

  /** Reads status and text back out of a `Status <n>: <text>` message. */
  function ParseStatusMessage(m: string): Option<(nat, string)> {
    if !StartsWith(m, "Status ") then None
    else
      var rest := m[7..];
      var k := DigitRun(rest);
      if k == 0 || !StartsWith(rest[k..], ": ") then None
      else Some((DigitsValue(rest[..k]), rest[k + 2..]))
  }

  /** The status message loses nothing: status and text can be read back. */
  lemma StatusMessageRoundTrip(status: nat, errorText: string)
    ensures ParseStatusMessage(StatusMessage(status, errorText)) == Some((status, errorText))
  {
    var m := StatusMessage(status, errorText);
    var d := NatToString(status);
    assert m == "Status " + (d + (": " + errorText));
    var rest := m[7..];
    assert rest == d + (": " + errorText);
    DigitRunOfDigits(d, ": " + errorText);
    assert rest[..|d|] == d;
    assert rest[|d|..] == ": " + errorText;
    DigitsValueOfNatToString(status);
  }

  /** A non-ok response and a response without a body are errors; otherwise
      the body's stream is read. */
  function CheckFetch(resp: FetchResponse): (r: Result<seq<Read>, Thrown>)
    ensures !resp.ok ==> r == Failure(ErrorObject(StatusMessage(resp.status, resp.errorText)))
    ensures resp.ok && resp.body.None? ==> r == Failure(ErrorObject(NoDataStream))
    ensures r.Success? <==> resp.ok && resp.body.Some?
    ensures r.Success? ==> r.value == resp.body.value
  {
    if !resp.ok then Failure(ErrorObject(StatusMessage(resp.status, resp.errorText)))
    else if resp.body.None? then Failure(ErrorObject(NoDataStream))
    else Success(resp.body.value)
  }

  /** What the video step returns once the client exists and the request is
      sent, given what the SDK and `fetch` hand back. */
  function VideoSceneOutcome(apiKey: Option<string>, backend: VideoBackend): (r: Result<VideoScene, Thrown>)
    ensures r.Success? ==> r.value.videoUrl == backend.objectUrl && r.value.videoMimeType != ""
  {
    match backend.finished
    case Failure(t) => Failure(t)
    case Success(op) =>
      match LocateVideo(op)
      case Failure(t) => Failure(t)
      case Success(video) =>
        if !Truthy(apiKey) then Failure(ErrorObject(MissingApiKeyForFetch))
        else
          match backend.fetched
          case Failure(t) => Failure(t)
          case Success(resp) =>
            match CheckFetch(resp)
            case Failure(t) => Failure(t)
            case Success(body) =>
              match StreamChunks(body)
              case Failure(t) => Failure(t)
              case Success(_) => Success(VideoScene(backend.objectUrl, VideoMimeType(video)))
  }

  /** The video step succeeds exactly when the operation finished without
      error with a video URI, the key is present, the fetch returned an ok
      response with a body, and no read of that body rejected before `done`. */
  lemma VideoSceneSucceeds(apiKey: Option<string>, backend: VideoBackend)
    ensures VideoSceneOutcome(apiKey, backend).Success? <==>
            && backend.finished.Success? && backend.finished.value.error.None?
            && HasVideoUri(backend.finished.value)
            && Truthy(apiKey)
            && backend.fetched.Success? && backend.fetched.value.ok && backend.fetched.value.body.Some?
            && StreamChunks(backend.fetched.value.body.value).Success?
  {
  }

  /** The mime type of a produced scene is the video's own, or 'video/mp4'. */
  lemma VideoSceneMimeType(apiKey: Option<string>, backend: VideoBackend)
    requires VideoSceneOutcome(apiKey, backend).Success?
    ensures FirstVideo(backend.finished.value).Some?
    ensures VideoSceneOutcome(apiKey, backend).value.videoMimeType
            == VideoMimeType(FirstVideo(backend.finished.value).value)
  {
  }

  // ---------------------------------------------------------------- reading the stream

  /** What one read hands over. */
  function ValueOf(res: ReadResult): seq<Bytes> {
    if res.value.Some? then [res.value.value] else []
  }

  /** `chunks` followed by what a later part of the stream yields, or that part's error. */
  function Prepend(chunks: seq<Bytes>, rest: Result<seq<Bytes>, Thrown>): Result<seq<Bytes>, Thrown> {
    match rest
    case Failure(e) => Failure(e)
    case Success(more) => Success(chunks + more)
  }

  lemma PrependAssociates(a: seq<Bytes>, b: seq<Bytes>, rest: Result<seq<Bytes>, Thrown>)
    ensures Prepend(a, Prepend(b, rest)) == Prepend(a + b, rest)
    ensures Prepend([], rest) == rest
  {
    if rest.Success? {
      assert a + (b + rest.value) == (a + b) + rest.value;
      assert [] + rest.value == rest.value;
    }
  }

  /** What `streamToBlob` collects from a reader whose reads go as `script`
      says: every value, in order, up to and including the read that reports
      `done`; a read that rejects before that ends it with its error. A
      reader that has run out reports `done` with no value. */
  function StreamChunks(script: seq<Read>): Result<seq<Bytes>, Thrown> {
    if script == [] then Success([])
    else
      match script[0]
      case Failure(e) => Failure(e)
      case Success(res) =>
        if res.done then Success(ValueOf(res)) else Prepend(ValueOf(res), StreamChunks(script[1..]))
  }

  /** All values of the resolved reads of `script`, in order. */
  function Values(script: seq<Read>): seq<Bytes> {
    if script == [] then []
    else (if script[0].Success? then ValueOf(script[0].value) else []) + Values(script[1..])
  }

  lemma {:induction false} ValuesAppend(script: seq<Read>, res: ReadResult)
    ensures Values(script + [Success(res)]) == Values(script) + ValueOf(res)
  {
    if script != [] {
      assert (script + [Success(res)])[1..] == script[1..] + [Success(res)];
      ValuesAppend(script[1..], res);
    } else {
      var last: Read := Success(res);
      assert [last][1..] == [];
    }
  }

  /** When the reads before `k` resolve without `done`, and read `k` (if
      any) resolves with `done`, what is collected is exactly the values of
      the reads up to and including `k`, the value delivered with `done`
      included. */
  lemma {:induction false} ChunksUpToDone(script: seq<Read>, k: nat)
    requires k <= |script|
    requires forall j :: 0 <= j < k ==> script[j].Success? && !script[j].value.done
    requires k < |script| ==> script[k].Success? && script[k].value.done
    ensures StreamChunks(script) == Success(Values(script[..if k < |script| then k + 1 else k]))
    decreases k
  {
    var n := if k < |script| then k + 1 else k;
    if script != [] {
      if k == 0 {
        assert script[..1] == [script[0]];
        assert [script[0]][1..] == [];
        assert Values([script[0]]) == ValueOf(script[0].value) + Values([]);
        assert Values([script[0]]) == ValueOf(script[0].value);
        assert StreamChunks(script) == Success(ValueOf(script[0].value));
      } else {
        ChunksUpToDone(script[1..], k - 1);
        assert script[..n][0] == script[0];
        assert script[..n][1..] == script[1..][..n - 1];
      }
    }
  }

  /** A read that rejects before any read has reported `done` makes the whole
      read fail with what it rejected with. */
  lemma {:induction false} RejectedRead(script: seq<Read>, k: nat)
    requires k < |script| && script[k].Failure?
    requires forall j :: 0 <= j < k ==> script[j].Success? && !script[j].value.done
    ensures StreamChunks(script) == Failure(script[k].error)
    decreases k
  {
    if k > 0 {
      RejectedRead(script[1..], k - 1);
    }
  }

  /** A value delivered together with `done` is kept: it is the last chunk
      collected. */
  lemma ChunkOfFinalRead(script: seq<Read>, k: nat)
    requires k < |script| && script[k].Success? && script[k].value.done && script[k].value.value.Some?
    requires forall j :: 0 <= j < k ==> script[j].Success? && !script[j].value.done
    ensures StreamChunks(script).Success?
    ensures var c := StreamChunks(script).value; c != [] && c[|c| - 1] == script[k].value.value.value
  {
    ChunksUpToDone(script, k);
    assert script[..k + 1] == script[..k] + [script[k]];
    ValuesAppend(script[..k], script[k].value);
  }

  /** `streamToBlob`: read until the reader reports `done`, keeping every
      value it hands over, and wrap the chunks in a blob of `mimeType`; a
      rejected read rejects the whole call. */
  method StreamToBlob(script: seq<Read>, mimeType: string) returns (r: Result<Blob, Thrown>)
    ensures StreamChunks(script).Success? ==> r == Success(Blob(StreamChunks(script).value, mimeType))
    ensures StreamChunks(script).Failure? ==> r == Failure(StreamChunks(script).error)
  {
    var chunks: seq<Bytes> := [];
    var i := 0;
    assert script[0..] == script;
    PrependAssociates([], [], StreamChunks(script));
    while true
      invariant 0 <= i <= |script|
      invariant StreamChunks(script) == Prepend(chunks, StreamChunks(script[i..]))
      decreases |script| - i
    {
      var read: Read := if i < |script| then script[i] else Success(ReadResult(true, None));
      if read.Failure? {
        return Failure(read.error);
      }
      var res := read.value;
      if i < |script| {
        assert script[i..][1..] == script[i + 1..];
        PrependAssociates(chunks, ValueOf(res), StreamChunks(script[i + 1..]));
      }
      chunks := chunks + ValueOf(res);
      if res.done {
        break;
      }
      i := i + 1;
    }
    r := Success(Blob(chunks, mimeType));
  }

  // ---------------------------------------------------------------- the client and the gateway calls

  /** The SDK client object. */
  class AiClient {
    const apiKey: string
    constructor (apiKey: string)
      ensures this.apiKey == apiKey
    {
      this.apiKey := apiKey;
    }
  }

  /** The gateway module: its constants and the module-level client cache `ai`. */
  class GeminiService {
    const imports: ImportedConstants
    var ai: AiClient?

    constructor (imports: ImportedConstants)
      ensures this.imports == imports && ai == null
    {
      this.imports := imports;
      ai := null;
    }

    /** `getAiClient`: the cached client, or a new one made from the API key
        and cached; without a key and without a cached client it throws and
        the cache stays empty. */
    method GetAiClient(apiKey: Option<string>) returns (r: Result<AiClient, Thrown>)
      modifies this`ai
      ensures old(ai) != null ==> r == Success(old(ai)) && ai == old(ai)
      ensures old(ai) == null && !Truthy(apiKey) ==> r == Failure(ErrorObject(ApiKeyNotConfigured)) && ai == null
      ensures old(ai) == null && Truthy(apiKey) ==>
                r.Success? && fresh(r.value) && r.value.apiKey == apiKey.value && ai == r.value
      ensures r.Success? ==> ai == r.value
    {
      if ai == null {
        if !Truthy(apiKey) {
          return Failure(ErrorObject(ApiKeyNotConfigured));
        }
        ai := new AiClient(apiKey.value);
      }
      r := Success(ai);
    }

    /** `generateVideoSceneFromText`, from the finished operation on (the
        polling loop is not modelled). */
    method GenerateVideoSceneFromText(textPrompt: string, apiKey: Option<string>, backend: VideoBackend)
      returns (trace: VideoTrace, r: Result<VideoScene, Thrown>)
      modifies this`ai
      ensures old(ai) == null && !Truthy(apiKey) ==>
                r == Failure(ErrorObject(ApiKeyNotConfigured)) && trace == NoVideoTrace && ai == null
      ensures old(ai) != null || Truthy(apiKey) ==>
                && ai != null && (old(ai) != null ==> ai == old(ai))
                && trace.request == Some(VideoRequest(imports.veoModelName,
                                                      EnhancedPrompt(imports.videoScenePromptEnhancer, textPrompt),
                                                      "dont_allow", "16:9", 5, 1))
                && r == VideoSceneOutcome(apiKey, backend)
      ensures trace.fetchUrl.Some? ==>
                && backend.finished.Success? && LocateVideo(backend.finished.value).Success?
                && Truthy(apiKey)
                && trace.fetchUrl.value == FetchUrl(LocateVideo(backend.finished.value).value.uri.value, apiKey.value)
      ensures (old(ai) != null || Truthy(apiKey)) && backend.finished.Success?
              && LocateVideo(backend.finished.value).Success? && Truthy(apiKey) ==>
                trace.fetchUrl.Some?
      ensures r.Success? ==> trace.fetchUrl.Some?
      ensures r.Success? ==>
                && StreamChunks(backend.fetched.value.body.value).Success?
                && trace.blob == Some(Blob(StreamChunks(backend.fetched.value.body.value).value, r.value.videoMimeType))
    {
      var client := GetAiClient(apiKey);
      if client.Failure? {
        return NoVideoTrace, Failure(client.error);
      }
      var request := VideoRequest(imports.veoModelName, EnhancedPrompt(imports.videoScenePromptEnhancer, textPrompt),
                                  "dont_allow", "16:9", 5, 1);
      trace := VideoTrace(Some(request), None, None);
      if backend.finished.Failure? {
        return trace, Failure(backend.finished.error);
      }
      var located := LocateVideo(backend.finished.value);
      if located.Failure? {
        return trace, Failure(located.error);
      }
      var video := located.value;
      if !Truthy(apiKey) {
        return trace, Failure(ErrorObject(MissingApiKeyForFetch));
      }
      trace := trace.(fetchUrl := Some(FetchUrl(video.uri.value, apiKey.value)));
      if backend.fetched.Failure? {
        return trace, Failure(backend.fetched.error);
      }
      var body := CheckFetch(backend.fetched.value);
      if body.Failure? {
        return trace, Failure(body.error);
      }
      var mimeType := VideoMimeType(video);
      var blob := StreamToBlob(body.value, mimeType);
      if blob.Failure? {
        return trace, Failure(blob.error);
      }
      trace := trace.(blob := Some(blob.value));
      r := Success(VideoScene(backend.objectUrl, mimeType));
    }

    /** `generateStoryFromUserPrompt`. */
    method GenerateStoryFromUserPrompt(userPrompt: string, apiKey: Option<string>, reply: Result<Option<string>, Thrown>)
      returns (request: Option<TextRequest>, r: Result<string, Thrown>)
      modifies this`ai
      ensures old(ai) == null && !Truthy(apiKey) ==>
                r == Failure(ErrorObject(ApiKeyNotConfigured)) && request.None? && ai == null
      ensures old(ai) != null || Truthy(apiKey) ==>
                && ai != null && (old(ai) != null ==> ai == old(ai))
                && request == Some(TextRequest(imports.geminiModelName, UserPrompt(userPrompt), imports.storySystemInstruction, 0.75, 0.95, 40))
                && r == TextStep(reply, EmptyStory)
    {
      var client := GetAiClient(apiKey);
      if client.Failure? {
        return None, Failure(client.error);
      }
      request := Some(TextRequest(imports.geminiModelName, UserPrompt(userPrompt), imports.storySystemInstruction, 0.75, 0.95, 40));
      if reply.Failure? {
        return request, Failure(reply.error);
      }
      r := RequireText(reply.value, EmptyStory);
    }

    /** `generateRandomWorldSetting`, with the value `Math.random` drew as `random`. */
    method GenerateRandomWorldSetting(random: real, apiKey: Option<string>, reply: Result<Option<string>, Thrown>,
                                      backend: VideoBackend)
      returns (request: Option<TextRequest>, trace: VideoTrace, r: Result<WorldSetting, Thrown>)
      requires 0.0 <= random < 1.0
      modifies this`ai
      ensures old(ai) == null && !Truthy(apiKey) ==>
                r == Failure(ErrorObject(ApiKeyNotConfigured)) && request.None? && trace == NoVideoTrace && ai == null
      ensures old(ai) != null || Truthy(apiKey) ==>
                && ai != null && (old(ai) != null ==> ai == old(ai))
                && request == Some(TextRequest(imports.geminiModelName, WorldPrompt(PickRandomTheme(random)),
                                               imports.worldGenerationSystemInstruction, 0.8, 0.95, 50))
                && match TextStep(reply, EmptyWorldDescription)
                   case Failure(e) => r == Failure(e) && trace == NoVideoTrace
                   case Success(description) =>
                     && trace.request.Some?
                     && trace.request.value.prompt == EnhancedPrompt(imports.videoScenePromptEnhancer, description)
                     && r == WorldOf(description, PickRandomTheme(random), VideoSceneOutcome(apiKey, backend))
      ensures r.Success? ==> r.value.theme in RandomWorldThemes && r.value.description != ""
    {
      var client := GetAiClient(apiKey);
      if client.Failure? {
        return None, NoVideoTrace, Failure(client.error);
      }
      var randomTheme := PickRandomTheme(random);
      request := Some(TextRequest(imports.geminiModelName, WorldPrompt(randomTheme),
                                  imports.worldGenerationSystemInstruction, 0.8, 0.95, 50));
      var description := TextStep(reply, EmptyWorldDescription);
      if description.Failure? {
        return request, NoVideoTrace, Failure(description.error);
      }
      var scene;
      trace, scene := GenerateVideoSceneFromText(description.value, apiKey, backend);
      r := WorldOf(description.value, randomTheme, scene);
    }

    /** `continueStoryInWorld`. */
    method ContinueStoryInWorld(worldTheme: string, initialWorldDescription: string, storyHistory: seq<string>,
                                userAction: string, apiKey: Option<string>, reply: Result<Option<string>, Thrown>,
                                backend: VideoBackend)
      returns (request: Option<TextRequest>, trace: VideoTrace, r: Result<SceneContinuation, Thrown>)
      modifies this`ai
      ensures old(ai) == null && !Truthy(apiKey) ==>
                r == Failure(ErrorObject(ApiKeyNotConfigured)) && request.None? && trace == NoVideoTrace && ai == null
      ensures old(ai) != null || Truthy(apiKey) ==>
                && ai != null && (old(ai) != null ==> ai == old(ai))
                && request == Some(ContinuationRequest(imports, worldTheme, initialWorldDescription, storyHistory, userAction))
                && match TextStep(reply, EmptyContinuation)
                   case Failure(e) => r == Failure(e) && trace == NoVideoTrace
                   case Success(next) =>
                     && trace.request.Some?
                     && trace.request.value.prompt == EnhancedPrompt(imports.videoScenePromptEnhancer, next)
                     && r == ContinuationOf(next, VideoSceneOutcome(apiKey, backend))
      ensures r.Success? ==> r.value.nextSceneTextDescription != ""
    {
      var client := GetAiClient(apiKey);
      if client.Failure? {
        return None, NoVideoTrace, Failure(client.error);
      }
      request := Some(ContinuationRequest(imports, worldTheme, initialWorldDescription, storyHistory, userAction));
      var next := TextStep(reply, EmptyContinuation);
      if next.Failure? {
        return request, NoVideoTrace, Failure(next.error);
      }
      var scene;
      trace, scene := GenerateVideoSceneFromText(next.value, apiKey, backend);
      r := ContinuationOf(next.value, scene);
    }
  }
}
