# Story Spark: a verified model of the session, the AI gateway and the story display

Story Spark is a React application. A user either types a story idea or asks
for a random world. An AI gateway turns that into a world description, a
theme and a short generated video. The user then continues the adventure one
action at a time: each action yields a new scene text and a new video. This
project models the three parts of the application that hold logic of their
own, and proves what they do.

- **The session** (`App.tsx`), in `session.dfy`, module `Session`.
  - Class `Session.App` holds the one `AppState` record of the component.
  - Every change but the reset goes through `Merge`, the model of `{ ...prev, ...updates }`. The reset writes the initial record whole, as the component does.
  - Each async handler is split in two:
    - a Begin phase writes the loading patch;
    - a Complete phase takes the awaited outcome as a parameter and writes the success or the failure patch.
  - A combined `Handle…` method runs both phases back to back.
  - Releasing object URLs is recorded in a ghost set `revoked`. This covers the handlers' guarded `URL.revokeObjectURL` calls and the cleanup of the effect that watches `currentSceneVideoUrl`.
  - The invariant `Valid` says that only `blob:` URLs are ever released.
  - The predicate `Coherent` describes the shape of a story on screen:
    - the theme and the description are set;
    - the first part is the description;
    - after it come `"\n\nYour action: …"` and `"\n\n…"` parts in alternation.
- **The AI gateway** (`services/geminiService.ts`), in `gemini.dfy`, module `Gemini`.
  - Every SDK call, `fetch` and `URL.createObjectURL` becomes the value it would have produced, passed in as a parameter.
  - What the gateway decides itself is modelled:
    - the lazily cached client (class `GeminiService` with its `ai` field);
    - the empty-response checks and the trimming;
    - the theme chosen from the fixed catalog;
    - the history join and the prompt templates;
    - the enhancer prefix of the video prompt;
    - the choice of the video result with its error cases and its default MIME type;
    - the `streamToBlob` reading loop, which is a method with a loop.
- **The story display** (`components/StoryDisplay.tsx`), in `story_display.dfy`, module `StoryDisplay`.
  - The pipeline `split(/\n\s*\n+/)`, `trim`, `filter` is modelled as ECMAScript's `split` runs it.
  - The regular expression is matched at each position in turn. `\s*` is greedy and backtracks, so a match ends after the last line feed of its whitespace run.
  - What the component shows for a null, empty or blank story is modelled too.
- **Shared helpers.**
  - `js.dfy`: nullable values, thrown values, truthiness and `err instanceof Error ? err.message : fallback`.
  - `text.dfy`: the whitespace class of `\s` and `trim`, `trim` itself and `startsWith`.
  - `decimal.dfy`: the decimal rendering of a status code.

Two guarantees one might expect of such a session do not hold of the code, and the model follows the code:

- A superseded video URL is not released exactly once. The code can release the same URL twice: once by the handler, then again by the effect cleanup when the URL field changes. The model records releases as a set and proves only that nothing but `blob:` URLs is released.
- A result that arrives after a reset is not discarded: there is no generation token or other staleness guard. `CompleteContinueStory` writes its patch into whatever state it finds. The model states what that patch does, and proves `Coherent` only when the story has not changed since the request was read.

`App.tsx` imports `generateWorldSettingFromPrompt`, but `services/geminiService.ts` does not define it. The outcome of that call is a parameter of `HandleStorySubmit` and `CompleteWorldGeneration`.

The two world handlers do not check the screen they run in. A failed generation started from the exploration screen leaves exploration mode with no description. Only the component's rendering rules this out, since it offers both handlers in the initial screen alone. The model states that case outright, and proves `Consistent` for the calls the screens allow.

## Model

| member | source | states |
|---|---|---|
| Js.ErrorMessage | App.tsx:129 | A thrown `Error` shows its message; any other thrown value shows the per-operation fallback. |
| Js.Truthy | App.tsx:180 | `!x` for a nullable string: null and the empty string are falsy, every other string is truthy. |
| Text.IsWhitespace | components/StoryDisplay.tsx:14 | The fixed whitespace class of `\s` and `trim`: the ECMAScript WhiteSpace and LineTerminator code points. |
| Text.Trim | services/geminiService.ts:126 | The trimmed text is empty exactly when the text is all whitespace, and otherwise neither starts nor ends with whitespace. |
| Text.TrimBounds | components/StoryDisplay.tsx:15 | The trimmed text is an infix of the text with only whitespace cut off on either side. |
| Text.TrimUnique | components/StoryDisplay.tsx:15 | Any cut that removes whitespace only and leaves no whitespace at either end is the trimmed text. |
| Text.TrimIdempotent | components/StoryDisplay.tsx:15 | Trimming a trimmed text changes nothing. |
| Text.NonWhitespaceTrim | components/StoryDisplay.tsx:15 | Trimming keeps every non-whitespace character, in order. |
| Text.NonWhitespaceEmpty | components/StoryDisplay.tsx:16 | A text has no visible character exactly when it is all whitespace. |
| Text.NonWhitespaceConcat | components/StoryDisplay.tsx:13-16 | The visible characters of a concatenation are those of the first part followed by those of the second. |
| Decimal.NatToString | services/geminiService.ts:94 | The rendering of a status code is a non-empty run of digits with no leading zero. |
| Decimal.DigitsValueOfNatToString | services/geminiService.ts:94 | Reading the rendered digits back gives the status code. |
| Gemini.RequireText | services/geminiService.ts:125-130 | A missing text or one that trims to nothing is an `Error` with the given message; otherwise the result is the trimmed text, non-empty and with no whitespace at either end. |
| Gemini.TextStep | services/geminiService.ts:114-130 | A throwing call is rethrown unchanged; a reply goes through the text check. |
| Gemini.RandomThemeIndex | services/geminiService.ts:140-141 | `floor(random * 15)` for a draw in [0, 1) is a valid index of the catalog. |
| Gemini.PickRandomTheme | constants.ts:31-47 | The chosen theme is one of the catalog's fifteen themes. |
| Gemini.ThemeInterval | services/geminiService.ts:141 | Theme k is chosen exactly when the draw lies in [k/15, (k+1)/15), in both directions, so every theme has an interval of the same width. |
| Gemini.Join | services/geminiService.ts:183 | `parts.join(sep)`: the joined text is at least as long as all parts together, and empty for no parts; its exact shape is stated by the three lemmas below. |
| Gemini.StorySoFar | services/geminiService.ts:183 | The history joined by `"\n\n---\n\n"`; its shape follows from the `Join` lemmas. |
| Gemini.JoinAppend | services/geminiService.ts:183 | Appending a part to the history extends the joined story by the separator and that part. |
| Gemini.JoinLength | services/geminiService.ts:183 | The joined story is as long as all parts plus one separator between each neighbouring pair. |
| Gemini.JoinEnds | services/geminiService.ts:183 | The joined story begins with the first part and ends with the last. |
| Gemini.PromptText | services/geminiService.ts:146 | The `contents` text of each `generateContent` call: a user prompt is sent unchanged, and a template's text is exactly as long as its fixed lines plus the values it quotes; where each value sits is stated by the lemmas below. |
| Gemini.WorldPromptQuotesTheme | services/geminiService.ts:146 | The world prompt is the fixed opening, the theme verbatim, and a closing quote. |
| Gemini.Interleave | services/geminiService.ts:185-197 | Fixed texts and quoted values, alternating in order, as a template literal joins them: nothing is added or lost, so the length is the sum of the nine lengths. |
| Gemini.Interleaved | services/geminiService.ts:185-197 | Such a template satisfies `Quotes`: it starts with the first fixed text, every value and every fixed text between two values sits verbatim at its offset, and the last fixed text ends the whole. |
| Gemini.ContinuationPromptQuotes | services/geminiService.ts:185-197 | The continuation prompt is the template character for character: its fixed lines and the theme, the initial description, the joined story so far and the action, each verbatim at its place, ending with the fixed instruction. |
| Gemini.ContinuationRequest | services/geminiService.ts:199-209 | The continuation's `generateContent` request: the Gemini model, the continuation prompt over the joined history, the continuation instruction, temperature 0.7, topP 0.95, topK 40. |
| Gemini.WorldOf | services/geminiService.ts:160-168 | The random world returned: the trimmed description, the drawn theme and the video's URL and MIME type; a failed video step fails the call. |
| Gemini.ContinuationOf | services/geminiService.ts:220-228 | The continuation returned: the trimmed scene text and the video's URL and MIME type; a failed video step fails the call. |
| Gemini.EnhancedPrompt | services/geminiService.ts:45 | The video prompt starts with the enhancer prefix, and what follows it is exactly the scene text. |
| Gemini.FirstVideo | services/geminiService.ts:76 | `operation.response?.generatedVideos?.[0]?.video`: none when any link of the chain is missing or the list is empty. |
| Gemini.HasVideoUri | services/geminiService.ts:77 | The first generated video exists and its URI is truthy. |
| Gemini.LocateVideo | services/geminiService.ts:65-80 | An operation error is rethrown. A result without a video URI is the "Veo response missing video URI." error. The step succeeds exactly when neither happens, and then yields the first generated video. |
| Gemini.VideoMimeType | services/geminiService.ts:101 | The MIME type is the video's own when it is non-empty, and 'video/mp4' otherwise; it is never empty. |
| Gemini.FetchUrl | services/geminiService.ts:87 | The fetch URL is the video URI followed by `&key=` and the API key. |
| Gemini.StatusMessage | services/geminiService.ts:94 | The message of a non-ok fetch: `Status `, the status in decimal, `: ` and the response text. |
| Gemini.ParseStatusMessage | services/geminiService.ts:94 | Reads the status and the text back out of such a message; the partner of `StatusMessage`. |
| Gemini.StatusMessageRoundTrip | services/geminiService.ts:92-95 | The status and the response text can both be read back from the `Status <n>: <text>` message. |
| Gemini.CheckFetch | services/geminiService.ts:92-99 | A non-ok response fails with the status message. An ok response without a body fails with the no-data-stream error. Only an ok response with a body passes, and then its body is read. |
| Gemini.VideoSceneOutcome | services/geminiService.ts:65-106 | A produced scene carries the minted object URL and a non-empty MIME type. |
| Gemini.VideoSceneSucceeds | services/geminiService.ts:65-106 | The video step succeeds exactly when all of these hold: the operation finished without error and with a video URI, the key is present, the fetch gave an ok response with a body, and no read of the body rejected before `done`. |
| Gemini.VideoSceneMimeType | services/geminiService.ts:101-106 | A produced scene's MIME type is that of the first generated video, or the default. |
| Gemini.StreamChunks | services/geminiService.ts:31-37 | The reference definition of the loop: the values of the reads, in order, up to and including the one reporting `done`, or the error of the first read that rejects before it. |
| Gemini.ValuesAppend | services/geminiService.ts:35 | The values of a longer read sequence are those before plus the new read's value, if any. |
| Gemini.ChunksUpToDone | services/geminiService.ts:31-38 | When no read rejects, the collected chunks are exactly the values of the reads up to and including the first one that reports `done`, in read order. |
| Gemini.RejectedRead | services/geminiService.ts:34 | A read that rejects before `done` makes the whole read fail with its error. |
| Gemini.ChunkOfFinalRead | services/geminiService.ts:35-36 | A value delivered together with `done` is kept, as the last chunk. |
| Gemini.StreamToBlob | services/geminiService.ts:27-39 | The loop builds the blob of the given MIME type from exactly the chunks `StreamChunks` specifies, or rejects with the error of the read that rejected. |
| Gemini.AiClient.constructor | services/geminiService.ts:22 | The client is made with the given API key. |
| Gemini.GeminiService.constructor | services/geminiService.ts:13 | The gateway starts with no cached client. |
| Gemini.GeminiService.GetAiClient | services/geminiService.ts:15-25 | A cached client is returned and kept. Without a cache and without a key the call throws the not-configured error and the cache stays empty. Otherwise a new client with the key is made, cached and returned. |
| Gemini.GeminiService.GenerateVideoSceneFromText | services/geminiService.ts:41-107 | The request asks the Veo model for the enhanced prompt, no person generation, 16:9, 5 seconds, one video. The outcome is `VideoSceneOutcome`. The video is fetched from `<uri>&key=<key>` exactly when a video was located and the key is present, and every produced scene was fetched. A produced scene's blob holds the chunks read from the body, and a read that rejects fails the call with its error. Without a client the call throws before any request. |
| Gemini.GeminiService.GenerateStoryFromUserPrompt | services/geminiService.ts:109-131 | The user's prompt is sent as is with the story instruction at temperature 0.75, topP 0.95, topK 40; the result is the checked, trimmed reply. |
| Gemini.GeminiService.GenerateRandomWorldSetting | services/geminiService.ts:133-169 | The world prompt quotes the drawn theme, at temperature 0.8, topP 0.95, topK 50. A blank description fails before any video request. Otherwise the video prompt is the enhancer plus the trimmed description. A produced world carries a catalog theme and a non-empty description. |
| Gemini.GeminiService.ContinueStoryInWorld | services/geminiService.ts:171-229 | The continuation prompt quotes the theme, the description, the history joined by `"\n\n---\n\n"` and the action, at temperature 0.7, topP 0.95, topK 40. A blank reply fails before any video request. Otherwise the next scene is the trimmed reply, non-empty, and the video is made from it. |
| StoryDisplay.WhitespaceRunEnd | components/StoryDisplay.tsx:14 | The `\s*` run from a position ends at the first non-whitespace character. |
| StoryDisplay.LastNewline | components/StoryDisplay.tsx:14 | The last line feed in a range, or none when the range has no line feed. |
| StoryDisplay.MatchEnd | components/StoryDisplay.tsx:14 | A match of `\n\s*\n+` at a position covers a separator: at least two characters of whitespace, beginning and ending with a line feed. |
| StoryDisplay.NoMatchNoSeparator | components/StoryDisplay.tsx:14 | Where the pattern does not match at a line feed, no later line feed is reachable through whitespace alone. |
| StoryDisplay.SegmentsFrom | components/StoryDisplay.tsx:14 | The split loop of `String.prototype.split`: each piece with the separator matched after it; never empty. |
| StoryDisplay.Split | components/StoryDisplay.tsx:14 | `split(/\n\s*\n+/)` yields at least one piece, even for the empty text. |
| StoryDisplay.TrimEach | components/StoryDisplay.tsx:15 | `.map((p) => p.trim())`: one trimmed piece per piece, in order. |
| StoryDisplay.DropEmpty | components/StoryDisplay.tsx:16 | Every kept piece is non-empty and every non-empty piece is kept. |
| StoryDisplay.DropEmptyAppend | components/StoryDisplay.tsx:16 | The filter works piece by piece: a single piece is kept exactly when it is non-empty, and the filter of a concatenation is the concatenation of the filters, so order and multiplicity are kept. |
| StoryDisplay.Paragraphs | components/StoryDisplay.tsx:13-16 | The whole pipeline, split then trim then filter: every paragraph is non-empty and already trimmed; the lemmas below say what else it keeps. |
| StoryDisplay.Render | components/StoryDisplay.tsx:7-16 | A null or empty story shows nothing. Any other story shows its paragraphs, with the placeholder exactly when there are none. |
| StoryDisplay.SegmentsReassemble | components/StoryDisplay.tsx:14 | The pieces and the separators between them, in order, rebuild the story. |
| StoryDisplay.SegmentsSeparated | components/StoryDisplay.tsx:14 | Every piece but the last is followed by a separator. |
| StoryDisplay.SegmentsHaveNoSeparator | components/StoryDisplay.tsx:14 | No piece contains two line feeds with only whitespace between them. |
| StoryDisplay.UnseparatedIsOneSegment | components/StoryDisplay.tsx:14 | A text without such a pair of line feeds is not split. |
| StoryDisplay.ParagraphsAreTrimmed | components/StoryDisplay.tsx:13-16 | Every paragraph is non-empty, trimmed, starts and ends with a visible character, and holds no separator. |
| StoryDisplay.ParagraphsKeepVisibleText | components/StoryDisplay.tsx:13-16 | The paragraphs, in order, hold every visible character of the story in its original order; only whitespace is dropped. |
| StoryDisplay.NoParagraphsIffBlank | components/StoryDisplay.tsx:16 | A story has no paragraph exactly when it is blank. |
| StoryDisplay.PlaceholderIffBlank | components/StoryDisplay.tsx:32 | A non-empty story shows the placeholder exactly when it is blank. |
| StoryDisplay.UnseparatedIsOneParagraph | components/StoryDisplay.tsx:14 | A story in which no two line feeds have only whitespace between them (a single line feed, say) is one paragraph, its trimmed self, unless it is blank. |
| Session.Merge | App.tsx:72 | `{ ...prev, ...updates }`: each field the patch sets takes the patch's value, every other field keeps its old one; its properties are the three lemmas below. |
| Session.MergeNoChange | App.tsx:71-73 | An empty patch leaves the state as it is. |
| Session.MergeOverlay | App.tsx:71-73 | Two updates in a row are one update in which the later patch wins field by field. |
| Session.MergeIdempotent | App.tsx:71-73 | Applying the same patch twice is applying it once. |
| Session.ErrorOnly | App.tsx:98 | The patch of a refused submit or continue: only the error is set. |
| Session.WorldLoading | App.tsx:106-114 | The loading patch before a world generation: loading with the message, no error, and the description, URL, MIME type and parts cleared. |
| Session.WorldLoaded | App.tsx:119-127 | The patch of a generated world: its theme, description, URL, MIME type, the description as the single part, exploration mode, loading stopped. |
| Session.Failed | App.tsx:130-133 | The patch of a failed generation: the error message, loading stopped. |
| Session.ContinueLoading | App.tsx:185-189 | The loading patch before a continuation: loading with the continuing message, no error. |
| Session.ContinueLoaded | App.tsx:203-213 | The patch of a continuation: the continued parts, the new URL and MIME type, the action cleared, loading stopped. |
| Session.ContinuedParts | App.tsx:204-208 | A continuation keeps the old parts as a prefix and appends exactly two: the action part and the scene part. |
| Session.CurrentSceneText | App.tsx:245-246 | The scene text is the last story part, or the world description when there is no part. |
| Session.IsBlobUrl | App.tsx:64 | `startsWith("blob:")`. |
| Session.BlobSet | App.tsx:64 | A guarded release releases the URL exactly when it is present and starts with `blob:`. |
| Session.Released | App.tsx:61-68 | The effect cleanup releases the previous URL only when the URL changed. |
| Session.Coherent | App.tsx:119-127 | The shape of a world on screen: theme and description set, an odd number of parts, the first being the description, then action parts and scene parts in alternation. |
| Session.Consistent | App.tsx:225-235 | The states the screens can reach: coherent, and holding no description and no part while in the initial screen, the only one that offers the submit handlers. |
| Session.InitialStateConsistent | App.tsx:47-58 | The initial record is consistent. |
| Session.NothingToContinueInInitial | App.tsx:178-182 | In the initial screen of a consistent session there is no description and no part, so a continue is refused. |
| Session.FailedGenerationInExploration | App.tsx:102-133 | A world generation that fails while exploring leaves exploration mode with no description and no part, which is not coherent. |
| Session.InitialStateCoherent | App.tsx:47-58 | The initial record is coherent and shows no scene text. |
| Session.WorldLoadedCoherent | App.tsx:119-127 | After a generated world is installed, the session is coherent and shows the description as the scene text. |
| Session.ContinueLoadedCoherent | App.tsx:203-213 | A continuation of a coherent story keeps it coherent and shows `"\n\n"` plus the new scene text. |
| Session.SceneTextOfCoherent | App.tsx:245-246 | A coherent world on screen always has a scene text: the description before the first action, a generated scene after it. |
| Session.App.constructor | App.tsx:47-58 | The session starts from the initial record with nothing released. |
| Session.App.RevokeIfBlob | App.tsx:64-65 | Only a `blob:` URL is released. |
| Session.App.Commit | App.tsx:61-68 | Committing a state releases the previous scene URL when it changed and is a blob URL. |
| Session.App.UpdateState | App.tsx:71-73 | The new state is the old one merged with the patch. |
| Session.App.ResetToInitial | App.tsx:75-92 | Whatever the state, the result is exactly the initial record, which is consistent, and only the old blob URL is released. A reset of the initial record releases nothing. |
| Session.App.SetUserAction | App.tsx:255 | Only the action field changes. |
| Session.App.BeginWorldGeneration | App.tsx:102-114 | The old blob URL is released. The state is loading with the given message and no error. Description, URL, MIME type and parts are cleared. Mode, theme and action are kept. |
| Session.App.BeginStorySubmit | App.tsx:97-114 | A prompt that is missing or blank only sets the story-idea error and starts nothing. Any other prompt starts the world generation. |
| Session.App.CompleteWorldGeneration | App.tsx:116-133 | Success installs the theme, the description, the URL, the MIME type and the single part, switches to exploration and stops loading. Failure sets the thrown message or the fallback, stops loading, and keeps the mode and everything else. Coherence is kept. |
| Session.App.HandleStorySubmit | App.tsx:95-138 | The whole handler, per case: refused if the prompt is blank, otherwise it ends in the generated world or in a cleared state with an error, the old blob URL released in both. A consistent session stays consistent when the handler runs in the initial screen or succeeds; a failure in the exploration screen leaves it incoherent. |
| Session.App.HandleRandomizeWorld | App.tsx:140-175 | The whole handler: the generated world or a cleared state with the random-world error in its place, the old blob URL released in both. A consistent session stays consistent when the handler runs in the initial screen or succeeds; a failure in the exploration screen leaves it incoherent. |
| Session.App.BeginContinueStory | App.tsx:178-189 | The request is refused, with only the missing-details error set, exactly when one of these holds: the theme is empty, the description is empty, there is no part, or the action is blank. Otherwise it captures the theme, the description, the parts, the trimmed action and the scene URL, and only the loading fields change. |
| Session.App.CompleteContinueStory | App.tsx:191-219 | Success appends exactly the action part and the scene part to the captured parts. It releases the captured blob URL, installs the new URL and MIME type, clears the action and stops loading. Failure only sets the error and stops loading: story, scene, action and releases are unchanged. |
| Session.App.HandleContinueStoryInWorld | App.tsx:177-222 | The whole handler, per case (refused, continued, failed), in terms of the state before it. It keeps the session coherent and consistent, and from the initial screen of a consistent session it is refused with only the error set and the story untouched. |
| Session.App.Unmount | App.tsx:61-68 | Unmounting releases the current blob URL. |

## Left out

- Gemini.GeminiService.GenerateVideoSceneFromText: the polling loop (`while (!operation.done)` with its 10-second wait) is not modelled. It is timing-based and has no bound in the code. The finished operation, or what starting or polling it threw, is a parameter.
- The SDK calls (`generateContent`, `generateVideos`, `getVideosOperation`), `fetch`, `Blob` and `URL.createObjectURL` are foreign. Their results are parameters: the reply text, the finished operation, the fetch response with the results its body reader yields, and the minted object URL. A failure of `response.text()` on a non-ok fetch is not modelled.
- `process.env.API_KEY` is a parameter of each gateway call.
- `Math.random` is a parameter in [0, 1).
- Gemini.ThemeInterval: the draw and the product `random * 15` are exact reals, not IEEE doubles. Rounding at the interval boundaries is not captured: a few doubles just below k/15 give a product that rounds up to k. The index bound and catalog membership hold either way.
- The names the gateway imports but `constants.ts` does not export are supplied from outside as `ImportedConstants`, with their values opaque. These are the model names, the system instructions and the video prompt enhancer.
- Session.App.HandleStorySubmit: `generateWorldSettingFromPrompt` is not defined in the gateway, so its outcome is a parameter.
- Session.App.CompleteContinueStory: releases are a set, so the order of the handler's release relative to the effect cleanup, and whether a URL was released twice, are not captured.
- Async interleaving is not modelled: each combined handler runs its two phases back to back. The Begin and Complete phases can be called apart to describe an interleaving by hand. The code has no staleness guard and the model adds none.
- Session.App.BeginStorySubmit: the input guards of `StoryInput.tsx` and `ActionControls.tsx` (trim before submit, disabled while loading) are not preconditions. The handlers check what they check themselves, and the model takes any input as they do.
- All rendering is not modelled: the views, the loading and error overlays, the UI primitives, the icons and the audio player. The only exceptions are the paragraph pipeline and the choice between nothing, paragraphs and placeholder.
- Console logging is not modelled.
- The error classes of `types/index.ts` are never thrown by the modelled code.
- Text-to-speech, WAV headers, goal checks and prompt length limits do not exist in the modelled code.
- Strings are sequences of code points, not UTF-16 units. The whitespace class is a fixed list of the ECMAScript WhiteSpace and LineTerminator code points, including every space separator (Zs) of Unicode 15. A code point that a later Unicode version adds to Zs is not covered.
