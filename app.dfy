/**
 * The application component (App.tsx): the video-generation lifecycle, the
 * poll timer, the input-mode switch, the two suggestion refreshes and the
 * API-key state.
 *
 * Every asynchronous handler is split at its `await`: the part that runs
 * before the remote call is one method, and the continuation is another,
 * which takes the remote outcome as a parameter. One firing of the poll
 * timer, including its `await`, is one call of `ReelsStudio.PollTick`.
 */
module App {
  import opened JsValues
  import opened Types
  import opened GeminiService

  datatype ApiKeyState = ApiKeyState(hasKey: bool, isLoading: bool, error: Option<string>)

  datatype GeneratedContent = GeneratedContent(
    videoOperation: Option<Operation>,
    videoUrl: Option<string>,
    captionSuggestions: Option<string>,
    musicMoodSuggestions: Option<string>,
    groundingUrls: Option<seq<Source>>)

  const EMPTY_CONTENT := GeneratedContent(None, None, None, None, None)

  /** How one status check of the tracked operation ends. */
  datatype PollOutcome = Polled(operation: Operation) | PollFailed(message: Option<string>)

  /** How a suggestion request ends. */
  datatype SuggestOutcome = Responded(response: ContentResponse) | SuggestFailed(message: Option<string>)

  const KEY_NOT_SELECTED := "API key not selected. Please select your API key before generating."
  const ENTITY_NOT_FOUND := "Requested entity was not found."
  const KEY_INVALID_FOR_VEO := "API key might be invalid or not properly configured for Veo. Please select your API key again."
  const KEY_INVALID_OR_EXPIRED := "API key might be invalid or expired."
  const NO_VIDEO_URI := "Video generation completed, but no video URI was found."
  const KEY_CHECK_FAILED := "Failed to check API key."
  const KEY_SELECTOR_FAILED := "Failed to open API key selector."

  /** `error.message || 'Unknown error'`. */
  function ErrorText(message: Option<string>): string {
    OrElse(message, "Unknown error")
  }

  /** The upstream message names the "entity not found" failure of a bad key. */
  predicate IsKeyNotFound(message: Option<string>) {
    Truthy(message) && Includes(message.value, ENTITY_NOT_FOUND)
  }

  const START_FAILURE_PREFIX := "Failed to generate video: "
  const POLL_FAILURE_PREFIX := "Error during video processing: "
  const CAPTION_FAILURE_PREFIX := "Failed to generate captions: "
  const MUSIC_MOOD_FAILURE_PREFIX := "Failed to generate music moods: "

  /**
   * The error texts of the catch blocks: a fixed prefix, then the thrown
   * message, or "Unknown error" when the message is empty or absent.
   */
  function FailureText(prefix: string, message: Option<string>): (r: string)
    ensures |prefix| <= |r| && r[..|prefix|] == prefix
    ensures Truthy(message) ==> r[|prefix|..] == message.value
    ensures !Truthy(message) ==> r[|prefix|..] == "Unknown error"
  {
    prefix + ErrorText(message)
  }

  /** The prefix of the failure text a suggestion refresh of `kind` stores. */
  function SuggestFailurePrefix(kind: SuggestionKind): string {
    match kind
    case Caption => CAPTION_FAILURE_PREFIX
    case MusicMood => MUSIC_MOOD_FAILURE_PREFIX
  }

  /** The playable URL: the credential is appended with `&key=`, exactly once, at the end. */
  function PlayableUrl(uri: string, apiKey: string): (r: string)
    ensures |r| == |uri| + 5 + |apiKey|
    ensures r[..|uri|] == uri && r[|uri|..|uri| + 5] == "&key=" && r[|uri| + 5..] == apiKey
  {
    uri + "&key=" + apiKey
  }

  /** Two playable URLs agree only when their URIs and keys agree. */
  lemma PlayableUrlInjective(u1: string, k1: string, u2: string, k2: string)
    requires |u1| == |u2| && PlayableUrl(u1, k1) == PlayableUrl(u2, k2)
    ensures u1 == u2 && k1 == k2
  {
    var r := PlayableUrl(u1, k1);
    assert u1 == r[..|u1|] == u2;
    assert k1 == r[|u1| + 5..] == k2;
  }

  /**
   * The characters `String.prototype.trim` removes: white space and line
   * terminators as ECMAScript defines them.
   */
  predicate TrimRemoves(c: char) {
    || c in {'\t', '\n', '\U{000B}', '\U{000C}', '\r', ' ', '\U{00A0}', '\U{1680}'}
    || ('\U{2000}' <= c <= '\U{200A}')
    || c in {'\U{2028}', '\U{2029}', '\U{202F}', '\U{205F}', '\U{3000}', '\U{FEFF}'}
  }

  /** `!prompt.trim()`: nothing is left once the prompt is trimmed. */
  predicate IsBlank(prompt: string) {
    forall i :: 0 <= i < |prompt| ==> TrimRemoves(prompt[i])
  }

  /** The submit button's `disabled` condition: the only place a blank prompt is refused. */
  function SubmitDisabled(isGeneratingVideo: bool, prompt: string): bool {
    isGeneratingVideo || IsBlank(prompt)
  }

  /** The set of timer handles a poll-timer reference names. */
  function HandleSet(ref: Option<nat>): set<nat> {
    match ref
    case Some(h) => {h}
    case None => {}
  }

  /** Which input-mode-specific files may be set in each input mode. */
  predicate InputsMatchMode(mode: VideoInputMode, image: Option<ImageData>, video: Option<VideoFile>) {
    match mode
    case TextOnly => image.None? && video.None?
    case ImageUpload => video.None?
    case VideoUpload => image.None?
  }

  /**
   * The application component. `activeTimers` stands for the browser's set
   * of live intervals created by this component; `pendingStarts` and
   * `pendingSuggestions` count the remote calls whose answers are still due.
   */
  class ReelsStudio {
    const hostKeyCapability: bool
    var apiKeyState: ApiKeyState
    var prompt: string
    var videoInputMode: VideoInputMode
    var startingImage: Option<ImageData>
    var uploadedVideo: Option<VideoFile>
    var aspectRatio: VeoAspectRatio
    var resolution: VeoResolution
    var generatedContent: GeneratedContent
    var isGeneratingVideo: bool
    var videoGenerationError: Option<string>
    var isGeneratingCaption: bool
    var isGeneratingMusic: bool
    var pollIntervalRef: Option<nat>
    var currentOperation: Option<Operation>
    var activeTimers: set<nat>
    var nextTimerId: nat
    var mounted: bool
    var pendingStarts: nat
    var pendingSuggestions: multiset<SuggestionKind>

    /**
     * The timer invariant: every live interval is the one the reference
     * holds (so at most one is live), and while mounted the reference holds
     * exactly the live one. Handles are positive, hence truthy.
     */
    ghost predicate Valid()
      reads this
    {
      && 0 < nextTimerId
      && activeTimers <= HandleSet(pollIntervalRef)
      && (mounted ==> activeTimers == HandleSet(pollIntervalRef))
      && (pollIntervalRef.Some? ==> 0 < pollIntervalRef.value < nextTimerId)
      && (Polling() ==> currentOperation.Some?)
    }

    ghost predicate ModeConsistent()
      reads this
    {
      InputsMatchMode(videoInputMode, startingImage, uploadedVideo)
    }

    /** True when the poll timer is live. */
    predicate Polling()
      reads this
    {
      pollIntervalRef.Some? && pollIntervalRef.value in activeTimers
    }

    /**
     * Mounting: the initial state, then the key effect. Without the host key
     * capability the key is assumed present; with it, a key check starts.
     */
    constructor (hostKeyCapability: bool)
      ensures Valid() && ModeConsistent() && mounted
      ensures this.hostKeyCapability == hostKeyCapability
      ensures apiKeyState == if hostKeyCapability then ApiKeyState(false, true, None) else ApiKeyState(true, false, None)
      ensures prompt == "" && videoInputMode == TextOnly && startingImage == None && uploadedVideo == None
      ensures aspectRatio == DEFAULT_ASPECT_RATIO && resolution == DEFAULT_RESOLUTION
      ensures generatedContent == EMPTY_CONTENT && videoGenerationError == None
      ensures !isGeneratingVideo && !isGeneratingCaption && !isGeneratingMusic
      ensures pollIntervalRef == None && activeTimers == {}
      ensures pendingStarts == 0 && pendingSuggestions == multiset{}
    {
      this.hostKeyCapability := hostKeyCapability;
      apiKeyState := if hostKeyCapability then ApiKeyState(false, true, None) else ApiKeyState(true, false, None);
      prompt := "";
      videoInputMode := TextOnly;
      startingImage := None;
      uploadedVideo := None;
      aspectRatio := DEFAULT_ASPECT_RATIO;
      resolution := DEFAULT_RESOLUTION;
      generatedContent := EMPTY_CONTENT;
      isGeneratingVideo := false;
      videoGenerationError := None;
      isGeneratingCaption := false;
      isGeneratingMusic := false;
      pollIntervalRef := None;
      currentOperation := None;
      activeTimers := {};
      nextTimerId := 1;
      mounted := true;
      pendingStarts := 0;
      pendingSuggestions := multiset{};
    }

    // -------------------------------------------------------------------------
    // API key
    // -------------------------------------------------------------------------

    /** The end of `checkApiKey`: the host's answer, or None when the host call threw. */
    method KeyCheckFinished(hasKey: Option<bool>)
      modifies this`apiKeyState
      ensures hasKey.Some? ==> apiKeyState == ApiKeyState(hasKey.value, false, None)
      ensures hasKey.None? ==> apiKeyState == ApiKeyState(false, false, Some(KEY_CHECK_FAILED))
    {
      match hasKey
      case Some(k) => apiKeyState := ApiKeyState(k, false, None);
      case None => apiKeyState := ApiKeyState(false, false, Some(KEY_CHECK_FAILED));
    }

    /** The start of `handleSelectApiKey`. */
    method BeginKeySelection()
      modifies this`apiKeyState
      ensures apiKeyState == old(apiKeyState).(isLoading := true, error := None)
    {
      apiKeyState := apiKeyState.(isLoading := true, error := None);
    }

    /** The end of `handleSelectApiKey`: success is assumed as soon as the selector returns. */
    method KeySelectionFinished(selectorReturned: bool)
      modifies this`apiKeyState
      ensures selectorReturned ==> apiKeyState == ApiKeyState(true, false, None)
      ensures !selectorReturned ==> apiKeyState == ApiKeyState(false, false, Some(KEY_SELECTOR_FAILED))
    {
      if selectorReturned {
        apiKeyState := ApiKeyState(true, false, None);
      } else {
        apiKeyState := ApiKeyState(false, false, Some(KEY_SELECTOR_FAILED));
      }
    }

    // -------------------------------------------------------------------------
    // Form fields
    // -------------------------------------------------------------------------

    method SetPrompt(p: string)
      modifies this`prompt
      ensures prompt == p
    {
      prompt := p;
    }

    method SetAspectRatio(a: VeoAspectRatio)
      modifies this`aspectRatio
      ensures aspectRatio == a
    {
      aspectRatio := a;
    }

    method SetResolution(r: VeoResolution)
      modifies this`resolution
      ensures resolution == r
    {
      resolution := r;
    }

    /**
     * The input-mode radio buttons: text-only clears both files, image mode
     * clears the context video, video mode clears the starting image.
     */
    method SelectInputMode(mode: VideoInputMode)
      modifies this`videoInputMode, this`startingImage, this`uploadedVideo
      ensures videoInputMode == mode
      ensures startingImage == (if mode == ImageUpload then old(startingImage) else None)
      ensures uploadedVideo == (if mode == VideoUpload then old(uploadedVideo) else None)
      ensures ModeConsistent()
      ensures startingImage.None? || uploadedVideo.None?
    {
      videoInputMode := mode;
      match mode
      case TextOnly =>
        startingImage := None;
        uploadedVideo := None;
      case ImageUpload =>
        uploadedVideo := None;
      case VideoUpload =>
        startingImage := None;
    }

    /** The image uploader's `onFileChange`. */
    method StartingImageChanged(file: Option<ImageData>)
      modifies this`startingImage
      ensures startingImage == file
      ensures old(ModeConsistent()) && videoInputMode == ImageUpload ==> ModeConsistent()
    {
      startingImage := file;
    }

    /** The video uploader's `onFileChange`. */
    method UploadedVideoChanged(file: Option<VideoFile>)
      modifies this`uploadedVideo
      ensures uploadedVideo == file
      ensures old(ModeConsistent()) && videoInputMode == VideoUpload ==> ModeConsistent()
    {
      uploadedVideo := file;
    }

    // -------------------------------------------------------------------------
    // Video generation
    // -------------------------------------------------------------------------

    /**
     * `handleVideoGeneration` up to its `await`. The results are cleared and
     * the generating flag is raised; then either the key gate refuses (no
     * request, error set, flag lowered) or the request is sent. The prompt is
     * not checked here.
     */
    method Submit() returns (request: Option<VideoRequest>)
      requires Valid()
      modifies this`generatedContent, this`isGeneratingVideo, this`videoGenerationError, this`pendingStarts
      ensures Valid()
      ensures generatedContent == EMPTY_CONTENT
      ensures request.None? <==> !apiKeyState.hasKey && hostKeyCapability
      ensures request.None? ==>
                videoGenerationError == Some(KEY_NOT_SELECTED) && !isGeneratingVideo && pendingStarts == old(pendingStarts)
      ensures request.Some? ==>
                request.value == GenerateVideoRequest(VideoOptions(prompt, startingImage, aspectRatio, resolution)) &&
                videoGenerationError == None && isGeneratingVideo && pendingStarts == old(pendingStarts) + 1
    {
      videoGenerationError := None;
      generatedContent := EMPTY_CONTENT;
      isGeneratingVideo := true;
      if !apiKeyState.hasKey && hostKeyCapability {
        videoGenerationError := Some(KEY_NOT_SELECTED);
        isGeneratingVideo := false;
        request := None;
        return;
      }
      request := Some(GenerateVideoRequest(VideoOptions(prompt, startingImage, aspectRatio, resolution)));
      pendingStarts := pendingStarts + 1;
    }

    /**
     * The start call resolved: the operation is stored and polling is armed.
     * Any live poll timer is cleared first, so exactly one timer is live
     * afterwards, and it is a new one.
     */
    method StartSucceeded(operation: Operation)
      requires Valid() && pendingStarts > 0
      modifies this`generatedContent, this`pollIntervalRef, this`currentOperation, this`activeTimers,
               this`nextTimerId, this`pendingStarts
      ensures Valid()
      ensures generatedContent == old(generatedContent).(videoOperation := Some(operation))
      ensures pollIntervalRef == Some(old(nextTimerId)) && activeTimers == {old(nextTimerId)}
      ensures old(pollIntervalRef).Some? ==> old(pollIntervalRef).value !in activeTimers
      ensures currentOperation == Some(operation) && Polling()
      ensures pendingStarts == old(pendingStarts) - 1
    {
      pendingStarts := pendingStarts - 1;
      generatedContent := generatedContent.(videoOperation := Some(operation));
      // startPollingVideoStatus
      if pollIntervalRef.Some? && pollIntervalRef.value != 0 {
        activeTimers := activeTimers - {pollIntervalRef.value};
      }
      var handle := nextTimerId;
      nextTimerId := nextTimerId + 1;
      activeTimers := activeTimers + {handle};
      pollIntervalRef := Some(handle);
      currentOperation := Some(operation);
    }

    /**
     * The start call was rejected. An "entity not found" message revokes the
     * key; any other message is reported as a generic failure.
     */
    method StartRejected(message: Option<string>)
      requires Valid() && pendingStarts > 0
      modifies this`videoGenerationError, this`apiKeyState, this`isGeneratingVideo, this`pendingStarts
      ensures Valid()
      ensures !isGeneratingVideo
      ensures IsKeyNotFound(message) ==>
                videoGenerationError == Some(KEY_INVALID_FOR_VEO) &&
                apiKeyState == ApiKeyState(false, false, Some(KEY_INVALID_OR_EXPIRED))
      ensures !IsKeyNotFound(message) ==>
                videoGenerationError == Some(FailureText(START_FAILURE_PREFIX, message)) && apiKeyState == old(apiKeyState)
      ensures pendingStarts == old(pendingStarts) - 1
    {
      pendingStarts := pendingStarts - 1;
      if message.Some? && message.value != "" && Includes(message.value, ENTITY_NOT_FOUND) {
        videoGenerationError := Some(KEY_INVALID_FOR_VEO);
        apiKeyState := ApiKeyState(false, false, Some(KEY_INVALID_OR_EXPIRED));
      } else {
        videoGenerationError := Some(FailureText(START_FAILURE_PREFIX, message));
      }
      isGeneratingVideo := false;
    }

    /**
     * One firing of the poll timer. The check is sent for `checked`, the
     * operation tracked so far (stored by the start or by the previous tick);
     * `outcome` is how that check ends, and `apiKey` is the credential
     * appended to the video URI.
     * - Not done: only the tracked operation changes; the timer stays live.
     * - Done with a URI: timer cleared, flag lowered, URL and operation stored.
     * - Done without a URI: timer cleared, flag lowered, error set.
     * - Check failed: timer cleared, flag lowered, error set.
     * A "not found" message here does not touch the key state.
     */
    method PollTick(outcome: PollOutcome, apiKey: string) returns (checked: Operation)
      requires Valid() && Polling()
      modifies this`currentOperation, this`pollIntervalRef, this`activeTimers, this`isGeneratingVideo,
               this`generatedContent, this`videoGenerationError
      ensures Valid()
      ensures Some(checked) == old(currentOperation)
      ensures outcome.Polled? ==> currentOperation == Some(outcome.operation)
      ensures outcome.Polled? && !outcome.operation.done ==>
                Polling() && pollIntervalRef == old(pollIntervalRef) && activeTimers == old(activeTimers) &&
                isGeneratingVideo == old(isGeneratingVideo) && generatedContent == old(generatedContent) &&
                videoGenerationError == old(videoGenerationError)
      ensures (outcome.PollFailed? || outcome.operation.done) ==>
                pollIntervalRef == None && activeTimers == {} && !isGeneratingVideo
      ensures outcome.Polled? && outcome.operation.done && Truthy(outcome.operation.videoUri) ==>
                generatedContent == old(generatedContent).(
                  videoUrl := Some(PlayableUrl(outcome.operation.videoUri.value, apiKey)),
                  videoOperation := Some(outcome.operation)) &&
                videoGenerationError == old(videoGenerationError)
      ensures outcome.Polled? && outcome.operation.done && !Truthy(outcome.operation.videoUri) ==>
                generatedContent == old(generatedContent) && videoGenerationError == Some(NO_VIDEO_URI)
      ensures outcome.PollFailed? ==>
                generatedContent == old(generatedContent) &&
                videoGenerationError == Some(FailureText(POLL_FAILURE_PREFIX, outcome.message)) &&
                currentOperation == old(currentOperation)
    {
      checked := currentOperation.value;
      match outcome
      case Polled(op) =>
        currentOperation := Some(op);
        if op.done {
          activeTimers := activeTimers - {pollIntervalRef.value};
          pollIntervalRef := None;
          isGeneratingVideo := false;
          if op.videoUri.Some? && op.videoUri.value != "" {
            var fullVideoUrl := op.videoUri.value + "&key=" + apiKey;
            generatedContent := generatedContent.(videoUrl := Some(fullVideoUrl), videoOperation := Some(op));
          } else {
            videoGenerationError := Some(NO_VIDEO_URI);
          }
        }
      case PollFailed(message) =>
        activeTimers := activeTimers - {pollIntervalRef.value};
        pollIntervalRef := None;
        isGeneratingVideo := false;
        videoGenerationError := Some(FailureText(POLL_FAILURE_PREFIX, message));
    }

    // -------------------------------------------------------------------------
    // Suggestions
    // -------------------------------------------------------------------------

    /**
     * `handleCaptionSuggestion` / `handleMusicMoodSuggestion` up to the
     * `await`: raise that kind's loading flag, clear that kind's text, and
     * send the request for the current prompt. Nothing of the other kind
     * changes.
     */
    method BeginSuggestion(kind: SuggestionKind) returns (request: ContentRequest)
      modifies this`isGeneratingCaption, this`isGeneratingMusic, this`generatedContent, this`pendingSuggestions
      ensures request == SuggestionRequest(prompt, kind)
      ensures pendingSuggestions == old(pendingSuggestions) + multiset{kind}
      ensures kind == Caption ==>
                isGeneratingCaption && isGeneratingMusic == old(isGeneratingMusic) &&
                generatedContent == old(generatedContent).(captionSuggestions := None)
      ensures kind == MusicMood ==>
                isGeneratingMusic && isGeneratingCaption == old(isGeneratingCaption) &&
                generatedContent == old(generatedContent).(musicMoodSuggestions := None)
    {
      if kind == Caption {
        isGeneratingCaption := true;
        generatedContent := generatedContent.(captionSuggestions := None);
      } else {
        isGeneratingMusic := true;
        generatedContent := generatedContent.(musicMoodSuggestions := None);
      }
      request := SuggestionRequest(prompt, kind);
      pendingSuggestions := pendingSuggestions + multiset{kind};
    }

    /**
     * The suggestion call of kind `kind` ended. On an answer, that kind's
     * text and the shared `groundingUrls` are replaced; on a failure, that
     * kind's text becomes the failure message and the sources stay. Either
     * way that kind's loading flag is lowered and the other kind is untouched.
     */
    method FinishSuggestion(kind: SuggestionKind, outcome: SuggestOutcome)
      requires kind in pendingSuggestions
      modifies this`isGeneratingCaption, this`isGeneratingMusic, this`generatedContent, this`pendingSuggestions
      ensures pendingSuggestions == old(pendingSuggestions) - multiset{kind}
      ensures kind == Caption ==> !isGeneratingCaption && isGeneratingMusic == old(isGeneratingMusic)
      ensures kind == MusicMood ==> !isGeneratingMusic && isGeneratingCaption == old(isGeneratingCaption)
      ensures generatedContent.videoOperation == old(generatedContent.videoOperation)
      ensures generatedContent.videoUrl == old(generatedContent.videoUrl)
      ensures kind == Caption ==> generatedContent.musicMoodSuggestions == old(generatedContent.musicMoodSuggestions)
      ensures kind == MusicMood ==> generatedContent.captionSuggestions == old(generatedContent.captionSuggestions)
      ensures outcome.Responded? ==>
                generatedContent.groundingUrls == GroundingUrlsOf(outcome.response.groundingChunks) &&
                (kind == Caption ==> generatedContent.captionSuggestions == Some(outcome.response.text)) &&
                (kind == MusicMood ==> generatedContent.musicMoodSuggestions == Some(outcome.response.text))
      ensures outcome.SuggestFailed? ==>
                generatedContent.groundingUrls == old(generatedContent.groundingUrls) &&
                (kind == Caption ==> generatedContent.captionSuggestions == Some(FailureText(SuggestFailurePrefix(kind), outcome.message))) &&
                (kind == MusicMood ==> generatedContent.musicMoodSuggestions == Some(FailureText(SuggestFailurePrefix(kind), outcome.message)))
    {
      pendingSuggestions := pendingSuggestions - multiset{kind};
      match outcome {
        case Responded(response) =>
          var result := ReadSuggestionResponse(response);
          if kind == Caption {
            generatedContent := generatedContent.(captionSuggestions := Some(result.content), groundingUrls := result.groundingUrls);
          } else {
            generatedContent := generatedContent.(musicMoodSuggestions := Some(result.content), groundingUrls := result.groundingUrls);
          }
        case SuggestFailed(message) =>
          if kind == Caption {
            generatedContent := generatedContent.(captionSuggestions := Some(FailureText(SuggestFailurePrefix(kind), message)));
          } else {
            generatedContent := generatedContent.(musicMoodSuggestions := Some(FailureText(SuggestFailurePrefix(kind), message)));
          }
      }
      // finally
      if kind == Caption {
        isGeneratingCaption := false;
      } else {
        isGeneratingMusic := false;
      }
    }

    // -------------------------------------------------------------------------
    // Teardown
    // -------------------------------------------------------------------------

    /** Unmounting: a live poll timer is cleared; the reference itself is left as it is. */
    method Teardown()
      requires Valid() && mounted
      modifies this`activeTimers, this`mounted
      ensures Valid() && !mounted
      ensures activeTimers == {}
      ensures pollIntervalRef == old(pollIntervalRef)
    {
      if pollIntervalRef.Some? && pollIntervalRef.value != 0 {
        activeTimers := activeTimers - {pollIntervalRef.value};
      }
      mounted := false;
    }
  }

  // ---------------------------------------------------------------------------
  // Whole sequences of events
  // ---------------------------------------------------------------------------

  /**
   * Two checks that are not done, then one that is done with a URI: the
   * playable URL is the URI with the key appended once, no error is shown
   * and the poll timer is gone.
   */
  method PollUntilDone(uri: string, apiKey: string) returns (videoUrl: Option<string>, error: Option<string>, live: set<nat>)
    requires uri != ""
    ensures videoUrl == Some(uri + "&key=" + apiKey)
    ensures error == None && live == {}
  {
    var app := new ReelsStudio(false);
    app.SetPrompt("a sunset");
    var request := app.Submit();
    var op := Operation("operations/1", false, None);
    app.StartSucceeded(op);
    var c1 := app.PollTick(Polled(op), apiKey);
    var c2 := app.PollTick(Polled(op), apiKey);
    var c3 := app.PollTick(Polled(op.(done := true, videoUri := Some(uri))), apiKey);
    videoUrl, error, live := app.generatedContent.videoUrl, app.videoGenerationError, app.activeTimers;
  }

  /**
   * Each tick checks the operation tracked so far: the first tick checks the
   * operation the start returned, the next one the operation the first
   * check answered with.
   */
  method TicksCheckTrackedOperation(started: Operation, reply: Operation, apiKey: string)
    returns (firstChecked: Operation, secondChecked: Operation)
    requires !started.done && !reply.done
    ensures firstChecked == started && secondChecked == reply
  {
    var app := new ReelsStudio(false);
    var request := app.Submit();
    app.StartSucceeded(started);
    firstChecked := app.PollTick(Polled(reply), apiKey);
    secondChecked := app.PollTick(Polled(reply.(done := true)), apiKey);
  }

  /**
   * A starting image whose read finishes after the user switched to video
   * mode is still stored, so both files are set and the image is sent with
   * the next request.
   */
  method LateImageReport(image: ImageData, video: VideoFile)
    returns (storedImage: Option<ImageData>, storedVideo: Option<VideoFile>, request: Option<VideoRequest>)
    ensures storedImage == Some(image) && storedVideo == Some(video)
    ensures request.Some? && request.value.image == Some(ImageInput(image.base64, image.mimeType))
  {
    var app := new ReelsStudio(false);
    app.SelectInputMode(ImageUpload);
    app.SelectInputMode(VideoUpload);
    app.UploadedVideoChanged(Some(video));
    app.StartingImageChanged(Some(image));
    storedImage, storedVideo := app.startingImage, app.uploadedVideo;
    request := app.Submit();
  }

  /**
   * With the host key capability present and no key selected, submitting
   * sends nothing and reports the missing key.
   */
  method SubmitWithoutKey() returns (request: Option<VideoRequest>, error: Option<string>, generating: bool)
    ensures request == None && error == Some(KEY_NOT_SELECTED) && !generating
  {
    var app := new ReelsStudio(true);
    app.KeyCheckFinished(Some(false));
    request := app.Submit();
    error, generating := app.videoGenerationError, app.isGeneratingVideo;
  }

  /**
   * A second generation started while the first still polls: the first
   * timer is cleared and exactly one timer, the new one, is live.
   */
  method RestartWhilePolling() returns (first: nat, second: nat, live: set<nat>)
    ensures first != second && live == {second}
  {
    var app := new ReelsStudio(false);
    var r1 := app.Submit();
    app.StartSucceeded(Operation("operations/1", false, None));
    first := app.pollIntervalRef.value;
    var r2 := app.Submit();
    app.StartSucceeded(Operation("operations/2", false, None));
    second := app.pollIntervalRef.value;
    live := app.activeTimers;
  }

  /**
   * Caption and music-mood refreshes in flight together; the caption call
   * fails and the music-mood call succeeds. Each kind ends with its own
   * outcome and both loading flags are down.
   */
  method IndependentSuggestions(response: ContentResponse, message: string)
    returns (captions: Option<string>, moods: Option<string>, sources: Option<seq<Source>>, loading: bool)
    requires message != ""
    ensures captions == Some("Failed to generate captions: " + message)
    ensures moods == Some(response.text)
    ensures sources == GroundingUrlsOf(response.groundingChunks)
    ensures !loading
  {
    var app := new ReelsStudio(false);
    var captionRequest := app.BeginSuggestion(Caption);
    var moodRequest := app.BeginSuggestion(MusicMood);
    app.FinishSuggestion(Caption, SuggestFailed(Some(message)));
    app.FinishSuggestion(MusicMood, Responded(response));
    captions, moods := app.generatedContent.captionSuggestions, app.generatedContent.musicMoodSuggestions;
    sources, loading := app.generatedContent.groundingUrls, app.isGeneratingCaption || app.isGeneratingMusic;
  }

  /**
   * The start call rejected with the "entity not found" message: the key is
   * revoked and the re-selection message is shown.
   */
  method StartRejectedForKey() returns (hasKey: bool, error: Option<string>)
    ensures !hasKey && error == Some(KEY_INVALID_FOR_VEO)
  {
    var app := new ReelsStudio(false);
    var request := app.Submit();
    assert OccursAt(ENTITY_NOT_FOUND, ENTITY_NOT_FOUND, 0);
    app.StartRejected(Some(ENTITY_NOT_FOUND));
    hasKey, error := app.apiKeyState.hasKey, app.videoGenerationError;
  }

  /**
   * Unmounting while the start call is still pending: the answer arrives
   * afterwards and arms a poll timer that teardown no longer clears. It keeps
   * polling for the unmounted component until the operation finishes (or a
   * check fails), when the tick clears it itself.
   */
  method StartAfterTeardown(uri: string, apiKey: string)
    returns (stillMounted: bool, liveAfterStart: set<nat>, liveAfterDone: set<nat>)
    ensures !stillMounted && |liveAfterStart| == 1 && liveAfterDone == {}
  {
    var app := new ReelsStudio(false);
    var request := app.Submit();
    app.Teardown();
    var op := Operation("operations/1", false, None);
    app.StartSucceeded(op);
    stillMounted, liveAfterStart := app.mounted, app.activeTimers;
    var checked := app.PollTick(Polled(op.(done := true, videoUri := Some(uri))), apiKey);
    liveAfterDone := app.activeTimers;
  }
}
