/** The session of App.tsx: one `AppState` record, replaced through
    `updateState` patches by the four handlers, and the object URLs of scene
    videos released as the scene changes. */
module Session {
  import opened Js
  import opened Text
  import Gemini

  datatype AppMode = Initial | WorldExploration

  /** `AppState`; `null` and `undefined` are both `None`. */
  datatype AppState = AppState(
    appMode: AppMode,
    worldTheme: Option<string>,
    initialWorldDescription: Option<string>,
    currentSceneVideoUrl: Option<string>,
    currentSceneVideoMimeType: Option<string>,
    storyParts: seq<string>,
    currentUserAction: string,
    isLoading: bool,
    loadingMessage: string,
    error: Option<string>)

  /** The record the session starts from and `resetToInitial` restores. */
  const InitialState := AppState(Initial, None, None, None, None, [], "", false, "", None)

  const LoadingCreatingWorld := "Conjuring your story world and its sights (this may take a few minutes)..."
  const LoadingRandomWorld := "Conjuring a random world and its sights (this may take a few minutes)..."
  const LoadingContinuingStory := "Weaving the next part of your adventure and its video (this may take a few minutes)..."

  const ErrorWorldCreation := "An unexpected error occurred while creating your story world."
  const ErrorRandomWorld := "An unexpected error occurred while creating a new world."
  const ErrorStoryContinuation := "An unexpected error occurred while continuing the adventure."
  const ErrorMissingDetails := "Cannot continue: missing world details or your action."
  const EnterStoryIdea := "Please enter a story idea to continue."

  const ActionPrefix := "\n\nYour action: "
  const ScenePrefix := "\n\n"

  // ---------------------------------------------------------------- patches

  /** A `Partial<AppState>`: `None` leaves the field alone, `Some(v)` sets it to `v`. */
  datatype Patch = Patch(
    appMode: Option<AppMode>,
    worldTheme: Option<Option<string>>,
    initialWorldDescription: Option<Option<string>>,
    currentSceneVideoUrl: Option<Option<string>>,
    currentSceneVideoMimeType: Option<Option<string>>,
    storyParts: Option<seq<string>>,
    currentUserAction: Option<string>,
    isLoading: Option<bool>,
    loadingMessage: Option<string>,
    error: Option<Option<string>>)

  const NoChange := Patch(None, None, None, None, None, None, None, None, None, None)

  function Pick<T>(update: Option<T>, previous: T): T {
    if update.Some? then update.value else previous
  }

  /** `{ ...prev, ...updates }`. */
  function Merge(prev: AppState, u: Patch): AppState {
    AppState(
      Pick(u.appMode, prev.appMode),
      Pick(u.worldTheme, prev.worldTheme),
      Pick(u.initialWorldDescription, prev.initialWorldDescription),
      Pick(u.currentSceneVideoUrl, prev.currentSceneVideoUrl),
      Pick(u.currentSceneVideoMimeType, prev.currentSceneVideoMimeType),
      Pick(u.storyParts, prev.storyParts),
      Pick(u.currentUserAction, prev.currentUserAction),
      Pick(u.isLoading, prev.isLoading),
      Pick(u.loadingMessage, prev.loadingMessage),
      Pick(u.error, prev.error))
  }

  /** `{ ...p, ...q }` on two patches. */
  function Overlay(p: Patch, q: Patch): Patch {
    Patch(
      if q.appMode.Some? then q.appMode else p.appMode,
      if q.worldTheme.Some? then q.worldTheme else p.worldTheme,
      if q.initialWorldDescription.Some? then q.initialWorldDescription else p.initialWorldDescription,
      if q.currentSceneVideoUrl.Some? then q.currentSceneVideoUrl else p.currentSceneVideoUrl,
      if q.currentSceneVideoMimeType.Some? then q.currentSceneVideoMimeType else p.currentSceneVideoMimeType,
      if q.storyParts.Some? then q.storyParts else p.storyParts,
      if q.currentUserAction.Some? then q.currentUserAction else p.currentUserAction,
      if q.isLoading.Some? then q.isLoading else p.isLoading,
      if q.loadingMessage.Some? then q.loadingMessage else p.loadingMessage,
      if q.error.Some? then q.error else p.error)
  }

  lemma MergeNoChange(s: AppState)
    ensures Merge(s, NoChange) == s
  {
  }

  /** Two successive updates are one update with the later patch winning. */
  lemma MergeOverlay(s: AppState, p: Patch, q: Patch)
    ensures Merge(Merge(s, p), q) == Merge(s, Overlay(p, q))
  {
  }

  lemma MergeIdempotent(s: AppState, p: Patch)
    ensures Merge(Merge(s, p), p) == Merge(s, p)
  {
  }

  /** The patch of a refused submit or continue: the error alone. */
  function ErrorOnly(message: string): Patch {
    NoChange.(error := Some(Some(message)))
  }

  /** The loading patch written before a world is generated. */
  function WorldLoading(message: string): Patch {
    NoChange.(
      isLoading := Some(true),
      loadingMessage := Some(message),
      error := Some(None),
      initialWorldDescription := Some(None),
      currentSceneVideoUrl := Some(None),
      currentSceneVideoMimeType := Some(None),
      storyParts := Some([]))
  }

  /** The patch written when a world has been generated. */
  function WorldLoaded(w: Gemini.WorldSetting): Patch {
    NoChange.(
      worldTheme := Some(Some(w.theme)),
      initialWorldDescription := Some(Some(w.description)),
      currentSceneVideoUrl := Some(Some(w.videoUrl)),
      currentSceneVideoMimeType := Some(Some(w.videoMimeType)),
      storyParts := Some([w.description]),
      appMode := Some(WorldExploration),
      isLoading := Some(false))
  }

  /** The patch written when an awaited generation threw. */
  function Failed(message: string): Patch {
    NoChange.(error := Some(Some(message)), isLoading := Some(false))
  }

  /** The loading patch written before the next scene is generated. */
  function ContinueLoading(): Patch {
    NoChange.(
      isLoading := Some(true),
      loadingMessage := Some(LoadingContinuingStory),
      error := Some(None))
  }

  /** What `handleContinueStoryInWorld` reads from the state before it awaits:
      the arguments of the continuation (the action already trimmed) and the
      scene URL to release once the next scene arrives. */
  datatype ContinueRequest = ContinueRequest(
    worldTheme: string,
    initialWorldDescription: string,
    storyParts: seq<string>,
    action: string,
    videoUrl: Option<string>)

  /** The story after a continuation: the old parts, the action, the new scene. */
  function ContinuedParts(parts: seq<string>, action: string, nextScene: string): (r: seq<string>)
    ensures |r| == |parts| + 2 && r[..|parts|] == parts
    ensures r[|parts|] == ActionPrefix + action && r[|parts| + 1] == ScenePrefix + nextScene
  {
    parts + [ActionPrefix + action, ScenePrefix + nextScene]
  }

  /** The patch written when the next scene has been generated. */
  function ContinueLoaded(req: ContinueRequest, c: Gemini.SceneContinuation): Patch {
    NoChange.(
      storyParts := Some(ContinuedParts(req.storyParts, req.action, c.nextSceneTextDescription)),
      currentSceneVideoUrl := Some(Some(c.nextSceneVideoUrl)),
      currentSceneVideoMimeType := Some(Some(c.nextSceneVideoMimeType)),
      currentUserAction := Some(""),
      isLoading := Some(false))
  }

  // ---------------------------------------------------------------- derived values

  /** The text of the scene on screen: the newest story part, or the world
      description while there is none. */
  function CurrentSceneText(s: AppState): (r: Option<string>)
    ensures s.storyParts != [] ==> r == Some(s.storyParts[|s.storyParts| - 1])
    ensures s.storyParts == [] ==> r == s.initialWorldDescription
  {
    if |s.storyParts| > 0 then Some(s.storyParts[|s.storyParts| - 1]) else s.initialWorldDescription
  }

  /** `url?.startsWith("blob:")`. */
  predicate IsBlobUrl(url: string) {
    StartsWith(url, "blob:")
  }

  /** The URLs a guarded `URL.revokeObjectURL` releases. */
  function BlobSet(url: Option<string>): (r: set<string>)
    ensures forall u :: u in r <==> url == Some(u) && IsBlobUrl(u)
  {
    if url.Some? && IsBlobUrl(url.value) then {url.value} else {}
  }

  /** What the cleanup of the scene-URL effect releases when the state moves
      from `prev` to `next`: the old URL, when the URL changed and it is a blob URL. */
  function Released(prev: Option<string>, next: Option<string>): (r: set<string>)
    ensures prev == next ==> r == {}
    ensures prev != next ==> r == BlobSet(prev)
  {
    if prev != next then BlobSet(prev) else {}
  }

  /** The shape of a session that shows a world: its theme and description are
      set, and the story is the description followed by pairs of an action and
      the scene it led to. */
  predicate Coherent(s: AppState) {
    s.appMode == WorldExploration ==>
      && s.worldTheme.Some?
      && s.initialWorldDescription.Some?
      && |s.storyParts| % 2 == 1
      && s.storyParts[0] == s.initialWorldDescription.value
      && forall i :: 1 <= i < |s.storyParts| ==>
           StartsWith(s.storyParts[i], if i % 2 == 1 then ActionPrefix else ScenePrefix)
  }

  /** The states the session can reach when the submit handlers run only in
      the initial screen: coherent, and holding no world while in that screen. */
  predicate Consistent(s: AppState) {
    && Coherent(s)
    && (s.appMode == Initial ==> s.initialWorldDescription.None? && s.storyParts == [])
  }

  lemma InitialStateConsistent()
    ensures Consistent(InitialState)
  {
  }

  /** In the initial screen of a consistent session there is no story to continue. */
  lemma NothingToContinueInInitial(s: AppState)
    requires Consistent(s) && s.appMode == Initial
    ensures !Truthy(s.initialWorldDescription) && s.storyParts == []
  {
  }

  /** A world generation that fails while a world is shown leaves the session
      in exploration mode with no description: the handlers allow it, and
      only the screens that offer them keep it from happening. */
  lemma FailedGenerationInExploration(s: AppState, message: string, error: string)
    requires s.appMode == WorldExploration
    ensures var t := Merge(Merge(s, WorldLoading(message)), Failed(error));
            && t.appMode == WorldExploration && t.initialWorldDescription.None? && t.storyParts == []
            && !Coherent(t)
  {
  }

  lemma InitialStateCoherent()
    ensures Coherent(InitialState) && CurrentSceneText(InitialState).None?
  {
  }

  /** A generated world is shown with its description as the scene text. */
  lemma WorldLoadedCoherent(s: AppState, w: Gemini.WorldSetting)
    ensures Coherent(Merge(s, WorldLoaded(w)))
    ensures CurrentSceneText(Merge(s, WorldLoaded(w))) == Some(w.description)
  {
  }

  /** A continuation keeps the story's shape and shows the new scene. */
  lemma ContinueLoadedCoherent(s: AppState, req: ContinueRequest, c: Gemini.SceneContinuation)
    requires Coherent(s) && req.storyParts == s.storyParts
    ensures Coherent(Merge(s, ContinueLoaded(req, c)))
    ensures CurrentSceneText(Merge(s, ContinueLoaded(req, c))) == Some(ScenePrefix + c.nextSceneTextDescription)
  {
    var n := Merge(s, ContinueLoaded(req, c));
    var parts := n.storyParts;
    if n.appMode == WorldExploration {
      forall i | 1 <= i < |parts|
        ensures StartsWith(parts[i], if i % 2 == 1 then ActionPrefix else ScenePrefix)
      {
        if i < |s.storyParts| {
          assert parts[i] == s.storyParts[i];
        } else if i == |s.storyParts| {
          assert parts[i][..|ActionPrefix|] == ActionPrefix;
        } else {
          assert parts[i][..|ScenePrefix|] == ScenePrefix;
        }
      }
    }
  }

  /** In a coherent session that shows a world, the scene text is the world
      description until the first action, and a generated scene afterwards. */
  lemma SceneTextOfCoherent(s: AppState)
    requires Coherent(s) && s.appMode == WorldExploration
    ensures CurrentSceneText(s).Some?
    ensures |s.storyParts| == 1 ==> CurrentSceneText(s) == s.initialWorldDescription
    ensures |s.storyParts| > 1 ==> StartsWith(CurrentSceneText(s).value, ScenePrefix)
  {
    var n := |s.storyParts|;
    if n > 1 {
      assert (n - 1) % 2 == 0;
    }
  }

  // ---------------------------------------------------------------- the component

  class App {
    var state: AppState
    /** Every URL handed to `URL.revokeObjectURL` so far. */
    ghost var revoked: set<string>

    ghost predicate Valid()
      reads this
    {
      forall u :: u in revoked ==> IsBlobUrl(u)
    }

    constructor ()
      ensures Valid() && state == InitialState && revoked == {}
    {
      state := InitialState;
      revoked := {};
    }

    /** A guarded `URL.revokeObjectURL`: blob URLs only. */
    method RevokeIfBlob(url: Option<string>)
      requires Valid()
      modifies this`revoked
      ensures Valid()
      ensures revoked == old(revoked) + BlobSet(url)
    {
      if url.Some? && IsBlobUrl(url.value) {
        revoked := revoked + {url.value};
      }
    }

    /** A committed state change, followed by the cleanup of the effect that
        watches `currentSceneVideoUrl`. */
    method Commit(next: AppState)
      requires Valid()
      modifies this
      ensures Valid()
      ensures state == next
      ensures revoked == old(revoked) + Released(old(state.currentSceneVideoUrl), next.currentSceneVideoUrl)
    {
      var previousUrl := state.currentSceneVideoUrl;
      state := next;
      if previousUrl != next.currentSceneVideoUrl {
        RevokeIfBlob(previousUrl);
      }
    }

    /** `updateState`. */
    method UpdateState(u: Patch)
      requires Valid()
      modifies this
      ensures Valid()
      ensures state == Merge(old(state), u)
      ensures revoked == old(revoked) + Released(old(state.currentSceneVideoUrl), state.currentSceneVideoUrl)
    {
      Commit(Merge(state, u));
    }

    /** `resetToInitial`: releases the scene URL and restores the initial
        record, whatever the state was; a second reset changes nothing. */
    method ResetToInitial()
      requires Valid()
      modifies this
      ensures Valid()
      ensures state == InitialState
      ensures revoked == old(revoked) + BlobSet(old(state.currentSceneVideoUrl))
      ensures old(state) == InitialState ==> revoked == old(revoked)
      ensures Consistent(state)
    {
      var url := state.currentSceneVideoUrl;
      RevokeIfBlob(url);
      Commit(InitialState);
    }

    /** `onUserActionChange`. */
    method SetUserAction(action: string)
      requires Valid()
      modifies this
      ensures Valid()
      ensures state == old(state).(currentUserAction := action)
      ensures revoked == old(revoked)
    {
      UpdateState(NoChange.(currentUserAction := Some(action)));
    }

    /** The first phase of `handleStorySubmit` and `handleRandomizeWorld`:
        release the scene URL, show `message` and clear the previous world. */
    method BeginWorldGeneration(message: string)
      requires Valid()
      modifies this
      ensures Valid()
      ensures state == old(state).(
                isLoading := true, loadingMessage := message, error := None,
                initialWorldDescription := None, currentSceneVideoUrl := None,
                currentSceneVideoMimeType := None, storyParts := [])
      ensures revoked == old(revoked) + BlobSet(old(state.currentSceneVideoUrl))
      ensures old(Coherent(state)) && old(state.appMode) == Initial ==> Coherent(state)
    {
      var url := state.currentSceneVideoUrl;
      RevokeIfBlob(url);
      UpdateState(WorldLoading(message));
    }

    /** The first phase of `handleStorySubmit`: a missing or blank prompt only
        sets the error; any other prompt starts the world generation. */
    method BeginStorySubmit(prompt: Option<string>) returns (started: bool)
      requires Valid()
      modifies this
      ensures Valid()
      ensures started <==> prompt.Some? && !AllWhitespace(prompt.value)
      ensures !started ==> state == old(state).(error := Some(EnterStoryIdea)) && revoked == old(revoked)
      ensures started ==> state == old(state).(
                isLoading := true, loadingMessage := LoadingCreatingWorld, error := None,
                initialWorldDescription := None, currentSceneVideoUrl := None,
                currentSceneVideoMimeType := None, storyParts := [])
      ensures started ==> revoked == old(revoked) + BlobSet(old(state.currentSceneVideoUrl))
    {
      if prompt.None? || Trim(prompt.value) == "" {
        UpdateState(ErrorOnly(EnterStoryIdea));
        return false;
      }
      BeginWorldGeneration(LoadingCreatingWorld);
      return true;
    }

    /** The second phase of `handleStorySubmit` and `handleRandomizeWorld`: the
        generated world is shown, or the error of the failed generation is,
        with `fallback` when the thrown value is not an `Error`. */
    method CompleteWorldGeneration(outcome: Result<Gemini.WorldSetting, Thrown>, fallback: string)
      requires Valid()
      modifies this
      ensures Valid()
      ensures outcome.Success? ==>
                var w := outcome.value;
                && state == old(state).(
                     worldTheme := Some(w.theme), initialWorldDescription := Some(w.description),
                     currentSceneVideoUrl := Some(w.videoUrl), currentSceneVideoMimeType := Some(w.videoMimeType),
                     storyParts := [w.description], appMode := WorldExploration, isLoading := false)
                && revoked == old(revoked) + Released(old(state.currentSceneVideoUrl), Some(w.videoUrl))
      ensures outcome.Failure? ==>
                && state == old(state).(error := Some(ErrorMessage(outcome.error, fallback)), isLoading := false)
                && revoked == old(revoked)
      ensures old(Coherent(state)) ==> Coherent(state)
    {
      match outcome
      case Success(w) =>
        UpdateState(WorldLoaded(w));
        WorldLoadedCoherent(old(state), w);
      case Failure(err) =>
        UpdateState(Failed(ErrorMessage(err, fallback)));
    }

    /** `handleStorySubmit`, with the outcome of the world generation it awaits. */
    method HandleStorySubmit(prompt: Option<string>, outcome: Result<Gemini.WorldSetting, Thrown>)
      requires Valid()
      modifies this
      ensures Valid()
      ensures (prompt.None? || AllWhitespace(prompt.value)) ==>
                state == old(state).(error := Some(EnterStoryIdea)) && revoked == old(revoked)
      ensures prompt.Some? && !AllWhitespace(prompt.value) && outcome.Success? ==>
                var w := outcome.value;
                && state == old(state).(
                     loadingMessage := LoadingCreatingWorld, error := None,
                     worldTheme := Some(w.theme), initialWorldDescription := Some(w.description),
                     currentSceneVideoUrl := Some(w.videoUrl), currentSceneVideoMimeType := Some(w.videoMimeType),
                     storyParts := [w.description], appMode := WorldExploration, isLoading := false)
                && revoked == old(revoked) + BlobSet(old(state.currentSceneVideoUrl))
      ensures prompt.Some? && !AllWhitespace(prompt.value) && outcome.Failure? ==>
                && state == old(state).(
                     isLoading := false, loadingMessage := LoadingCreatingWorld,
                     error := Some(ErrorMessage(outcome.error, ErrorWorldCreation)),
                     initialWorldDescription := None, currentSceneVideoUrl := None,
                     currentSceneVideoMimeType := None, storyParts := [])
                && revoked == old(revoked) + BlobSet(old(state.currentSceneVideoUrl))
      ensures old(Consistent(state)) && (old(state.appMode) == Initial || outcome.Success?) ==> Consistent(state)
      ensures old(state.appMode) == WorldExploration && prompt.Some? && !AllWhitespace(prompt.value)
              && outcome.Failure? ==>
                state.appMode == WorldExploration && state.initialWorldDescription.None? && !Coherent(state)
    {
      var started := BeginStorySubmit(prompt);
      if started {
        CompleteWorldGeneration(outcome, ErrorWorldCreation);
      }
    }

    /** `handleRandomizeWorld`, with the outcome of the random world generation. */
    method HandleRandomizeWorld(outcome: Result<Gemini.WorldSetting, Thrown>)
      requires Valid()
      modifies this
      ensures Valid()
      ensures outcome.Success? ==>
                var w := outcome.value;
                && state == old(state).(
                     loadingMessage := LoadingRandomWorld, error := None,
                     worldTheme := Some(w.theme), initialWorldDescription := Some(w.description),
                     currentSceneVideoUrl := Some(w.videoUrl), currentSceneVideoMimeType := Some(w.videoMimeType),
                     storyParts := [w.description], appMode := WorldExploration, isLoading := false)
                && revoked == old(revoked) + BlobSet(old(state.currentSceneVideoUrl))
      ensures outcome.Failure? ==>
                && state == old(state).(
                     isLoading := false, loadingMessage := LoadingRandomWorld,
                     error := Some(ErrorMessage(outcome.error, ErrorRandomWorld)),
                     initialWorldDescription := None, currentSceneVideoUrl := None,
                     currentSceneVideoMimeType := None, storyParts := [])
                && revoked == old(revoked) + BlobSet(old(state.currentSceneVideoUrl))
      ensures old(Consistent(state)) && (old(state.appMode) == Initial || outcome.Success?) ==> Consistent(state)
      ensures old(state.appMode) == WorldExploration && outcome.Failure? ==>
                state.appMode == WorldExploration && state.initialWorldDescription.None? && !Coherent(state)
    {
      BeginWorldGeneration(LoadingRandomWorld);
      CompleteWorldGeneration(outcome, ErrorRandomWorld);
    }

    /** The first phase of `handleContinueStoryInWorld`: refused, with an
        error and no other change, unless the theme and the description are
        non-empty, the story has a part and the action is not blank. */
    method BeginContinueStory() returns (req: Option<ContinueRequest>)
      requires Valid()
      modifies this
      ensures Valid()
      ensures revoked == old(revoked)
      ensures req.None? <==>
                || !Truthy(old(state.worldTheme))
                || !Truthy(old(state.initialWorldDescription))
                || old(state.storyParts) == []
                || AllWhitespace(old(state.currentUserAction))
      ensures req.None? ==> state == old(state).(error := Some(ErrorMissingDetails))
      ensures req.Some? ==>
                && req.value == ContinueRequest(
                     old(state.worldTheme.value), old(state.initialWorldDescription.value),
                     old(state.storyParts), Trim(old(state.currentUserAction)), old(state.currentSceneVideoUrl))
                && state == old(state).(isLoading := true, loadingMessage := LoadingContinuingStory, error := None)
      ensures old(Coherent(state)) ==> Coherent(state)
    {
      var s := state;
      if !Truthy(s.worldTheme) || !Truthy(s.initialWorldDescription) || |s.storyParts| == 0
         || Trim(s.currentUserAction) == ""
      {
        UpdateState(ErrorOnly(ErrorMissingDetails));
        return None;
      }
      req := Some(ContinueRequest(
        s.worldTheme.value, s.initialWorldDescription.value, s.storyParts,
        Trim(s.currentUserAction), s.currentSceneVideoUrl));
      UpdateState(ContinueLoading());
    }

    /** The second phase of `handleContinueStoryInWorld`: the next scene is
        appended after the action, the scene URL read before the await is
        released and the action box is cleared; a failure sets the error and
        keeps the story, the scene and the action. */
    method CompleteContinueStory(req: ContinueRequest, outcome: Result<Gemini.SceneContinuation, Thrown>)
      requires Valid()
      modifies this
      ensures Valid()
      ensures outcome.Success? ==>
                var c := outcome.value;
                && state == old(state).(
                     storyParts := ContinuedParts(req.storyParts, req.action, c.nextSceneTextDescription),
                     currentSceneVideoUrl := Some(c.nextSceneVideoUrl),
                     currentSceneVideoMimeType := Some(c.nextSceneVideoMimeType),
                     currentUserAction := "", isLoading := false)
                && revoked == old(revoked) + BlobSet(req.videoUrl)
                              + Released(old(state.currentSceneVideoUrl), Some(c.nextSceneVideoUrl))
      ensures outcome.Failure? ==>
                && state == old(state).(
                     error := Some(ErrorMessage(outcome.error, ErrorStoryContinuation)), isLoading := false)
                && revoked == old(revoked)
      ensures old(Coherent(state)) && req.storyParts == old(state.storyParts) ==> Coherent(state)
    {
      match outcome
      case Success(c) =>
        RevokeIfBlob(req.videoUrl);
        ghost var before := state;
        UpdateState(ContinueLoaded(req, c));
        if Coherent(before) && req.storyParts == before.storyParts {
          ContinueLoadedCoherent(before, req, c);
        }
      case Failure(err) =>
        UpdateState(Failed(ErrorMessage(err, ErrorStoryContinuation)));
    }

    /** `handleContinueStoryInWorld`, with the outcome of the continuation it awaits. */
    method HandleContinueStoryInWorld(outcome: Result<Gemini.SceneContinuation, Thrown>)
      requires Valid()
      modifies this
      ensures Valid()
      ensures old(!Truthy(state.worldTheme) || !Truthy(state.initialWorldDescription)
                  || state.storyParts == [] || AllWhitespace(state.currentUserAction)) ==>
                state == old(state).(error := Some(ErrorMissingDetails)) && revoked == old(revoked)
      ensures old(Truthy(state.worldTheme) && Truthy(state.initialWorldDescription)
                  && state.storyParts != [] && !AllWhitespace(state.currentUserAction)) && outcome.Success? ==>
                var c := outcome.value;
                && state == old(state).(
                     storyParts := ContinuedParts(old(state.storyParts), Trim(old(state.currentUserAction)),
                                                  c.nextSceneTextDescription),
                     currentSceneVideoUrl := Some(c.nextSceneVideoUrl),
                     currentSceneVideoMimeType := Some(c.nextSceneVideoMimeType),
                     currentUserAction := "", isLoading := false,
                     loadingMessage := LoadingContinuingStory, error := None)
                && revoked == old(revoked) + BlobSet(old(state.currentSceneVideoUrl))
      ensures old(Truthy(state.worldTheme) && Truthy(state.initialWorldDescription)
                  && state.storyParts != [] && !AllWhitespace(state.currentUserAction)) && outcome.Failure? ==>
                && state == old(state).(
                     loadingMessage := LoadingContinuingStory, isLoading := false,
                     error := Some(ErrorMessage(outcome.error, ErrorStoryContinuation)))
                && revoked == old(revoked)
      ensures old(Coherent(state)) ==> Coherent(state)
      ensures old(Consistent(state)) ==> Consistent(state)
      ensures old(Consistent(state)) && old(state.appMode) == Initial ==>
                state == old(state).(error := Some(ErrorMissingDetails)) && revoked == old(revoked)
    {
      var req := BeginContinueStory();
      if req.Some? {
        CompleteContinueStory(req.value, outcome);
      }
    }

    /** Unmounting runs the effect cleanup one last time. */
    method Unmount()
      requires Valid()
      modifies this`revoked
      ensures Valid()
      ensures revoked == old(revoked) + BlobSet(state.currentSceneVideoUrl)
    {
      RevokeIfBlob(state.currentSceneVideoUrl);
    }
  }
}
