# Reels studio: a verified model of the generation core

This project models the core of a single-page web application that turns a
text prompt (optionally with a starting image) into a short portrait video
through a remote video-generation service, then suggests captions and
background-music moods for it through a text-generation service. The core is:

- the application component (`App.tsx`): the API-key state, the form fields,
  the input-mode switch, the video-generation lifecycle (submit, start, the
  repeating status poll, success, failure), the two suggestion refreshes and
  the teardown of the poll timer — modelled as the class `App.ReelsStudio`,
  whose fields are the component's state variables plus the poll-timer
  reference and the browser's set of live intervals;
- the service layer (`services/geminiService.ts`): the request that starts a
  video generation, the request that asks for suggestions, the flattening of
  grounding metadata into `{ uri, title }` sources, and the file encoder —
  module `GeminiService`;
- the upload widget (`components/VideoUploader.tsx`): encoding a chosen file
  into an image or video record, the value reported to the parent, the
  preview data URL and the drag-highlight flag — module `VideoUploader`,
  class `VideoUploader.FileUploader`;
- the progress indicator (`components/Loader.tsx`): the first message and the
  rotation through the ten loading messages — module `Loader`, class
  `Loader.Loader`.

Shared records, enumerations and constants (`types.ts`, `constants.ts`) are in
module `Types`; the few JavaScript behaviours the code relies on (truthiness,
`a || b`, template interpolation of `undefined`, `indexOf`, `includes`,
`split(',')[1]`) are written out in module `JsValues`.

Every asynchronous handler of the application component that calls the
remote service is split at its `await`. The part before the remote call is
one method and returns the request it would send. The continuation is
another method, which takes the remote outcome (an answer or a thrown
message) as a parameter. Examples are `ReelsStudio.Submit` followed by
`StartSucceeded` or `StartRejected`, and `BeginSuggestion` followed by
`FinishSuggestion`. One firing of the poll timer is one `PollTick`, which
returns the operation it checked. The upload widget's `handleFileChange` is
one atomic `FileUploader.HandleFileChange`; that its file read can finish
late shows on the application's side as an `onFileChange` report
(`StartingImageChanged`, `UploadedVideoChanged`) arriving after other
events. The
timer invariant `ReelsStudio.Valid` says that at most one poll interval is
live and that, while the component is mounted, the reference names exactly
the live one. Every state-changing method keeps it.

Behaviours of the code that the model keeps as written:

- A blank prompt is refused only by the submit button's `disabled` condition
  (`App.SubmitDisabled`, `App.tsx:347`); the handler itself sends any prompt.
- Both suggestion kinds write the one shared `groundingUrls` field, so the
  refresh that finishes last decides the sources shown; a failed refresh
  leaves the previous sources in place.
- The credential is appended to the video URI as `&key=<key>`, whatever the
  URI already contains.
- Only a failed start with an "entity not found" message revokes the key; the
  same message during polling is reported as an ordinary polling error.
- A start call that resolves after the component was torn down arms a poll
  timer that teardown no longer clears; it keeps polling for the unmounted
  component until the operation finishes or a check fails, when the tick
  clears it itself (`App.StartAfterTeardown`).
- The input-mode switch clears the files of the other modes, but a file
  report that arrives after the switch is still stored: an image read that
  finishes after switching to video mode leaves both files set, and the
  image is sent with the next request (`App.LateImageReport`).
- Teardown clears the live timer but leaves the reference set.

## Model

| member | source | states |
|---|---|---|
| JsValues.IndexOf | components/Loader.tsx:15 | `indexOf`: -1 exactly when the value is absent, otherwise the position of its first occurrence |
| JsValues.SecondField | components/VideoUploader.tsx:18 | `split(',')[1]`: absent exactly when the text has no separator; when present it holds no separator |
| JsValues.SecondFieldOfOne | services/geminiService.ts:11 | with exactly one separator, `split(',')[1]` is everything after it |
| JsValues.SecondFieldOfMany | services/geminiService.ts:11 | with further separators, `split(',')[1]` stops at the second one |
| GeminiService.FileToBase64 | services/geminiService.ts:6-19 | resolves exactly when the reader yields a string; the MIME type is the file's own; a non-string result rejects with the conversion error, a reader error rejects with that error |
| GeminiService.FileToBase64Payload | services/geminiService.ts:9-12 | for `data:<type>;base64,<payload>` without further commas the stored payload is exactly `<payload>` |
| GeminiService.GenerateVideoRequest | services/geminiService.ts:29-73 | the request uses the fast model, copies the prompt, asks for one video with the given resolution and aspect ratio, and carries an image exactly when a starting image was given, with its bytes and MIME type |
| GeminiService.GenerateVideoRequestLossless | services/geminiService.ts:47-73 | the caller's options can be read back from the request unchanged |
| GeminiService.SuggestionRequest | services/geminiService.ts:89-113 | the text model is used; captions get the caption instruction and prefixed prompt, music moods theirs |
| GeminiService.SuggestionRequestInjective | services/geminiService.ts:97-103 | different prompts or kinds never yield the same request |
| GeminiService.GroundingUrlsOf | services/geminiService.ts:115-137 | the sources are null exactly when there are no chunks or none yields a source; otherwise they are the flattened, non-empty list |
| GeminiService.FlattenAppend | services/geminiService.ts:117-133 | chunk order is kept: the sources of a concatenation are the concatenated sources |
| GeminiService.SnippetSourcesAppend | services/geminiService.ts:125-129 | snippet order is kept across concatenation |
| GeminiService.SnippetWithoutUriSkipped | services/geminiService.ts:126-128 | a review snippet without a uri contributes nothing, wherever it stands |
| GeminiService.SnippetSourcesAligned | services/geminiService.ts:125-129 | when every snippet has a uri, sources and snippets correspond one to one, and each title falls back to the uri |
| GeminiService.FlattenTitlesFallBack | services/geminiService.ts:119-131 | an emitted title is empty only when the uri it falls back to is empty |
| GeminiService.SnippetTitlesFallBack | services/geminiService.ts:126-128 | every source from a review snippet has a non-empty uri and title |
| GeminiService.PushSnippetSources | services/geminiService.ts:124-130 | the `forEach` appends exactly the sources of the snippets, in order |
| GeminiService.PushMapsSources | services/geminiService.ts:122-131 | the maps branch appends exactly the maps entry and then its snippets' sources |
| GeminiService.PushChunkSources | services/geminiService.ts:119-131 | one loop iteration appends exactly the chunk's sources: web entry, maps entry, then its snippets |
| GeminiService.CollectGroundingUrls | services/geminiService.ts:116-133 | the loop's list equals the flattening of all chunks |
| GeminiService.ReadSuggestionResponse | services/geminiService.ts:115-138 | the result carries the answer's text; the sources are null exactly when nothing was collected, otherwise the collected list |
| VideoUploader.EncodeFile | components/VideoUploader.tsx:13-31 | resolves exactly when the reader yields a string; a video record exactly for a video widget, with the file's MIME type and, for videos, its name; a non-string result is the conversion error |
| VideoUploader.EncodeFilePayload | components/VideoUploader.tsx:18 | the stored payload is the field after the data URL's first comma |
| VideoUploader.FileChangeReport | components/VideoUploader.tsx:37-53 | the parent receives a record exactly when a non-empty selection was read into a string, else null; the record's kind, MIME type, payload and name |
| VideoUploader.FileChangeReportFirstOnly | components/VideoUploader.tsx:40-45 | files after the first never change the report |
| VideoUploader.PreviewUrl | components/VideoUploader.tsx:80 | null exactly when there is no file; otherwise the data URL built from the record, with an absent payload printed as `undefined` |
| VideoUploader.PreviewRoundTrip | components/VideoUploader.tsx:80 | choosing a file whose reader yields `data:<type>;base64,<payload>` and previewing the report gives back that data URL |
| VideoUploader.PreviewTruncatesAtSecondComma | components/VideoUploader.tsx:18 | a payload containing a comma is cut at that comma in the preview |
| VideoUploader.DragAfterLastToggle | components/VideoUploader.tsx:55-63 | after any series of drag events the highlight reflects the last `dragenter`/`dragover` (on) or `dragleave` (off) |
| VideoUploader.DragAfterNoToggle | components/VideoUploader.tsx:58-62 | other event types leave the highlight as it was |
| VideoUploader.FileUploader.constructor | components/VideoUploader.tsx:33-35 | no highlight and nothing reported yet |
| VideoUploader.FileUploader.HandleFileChange | components/VideoUploader.tsx:37-53 | exactly one report is made, the one `FileChangeReport` describes; the highlight is unchanged |
| VideoUploader.FileUploader.HandleDrag | components/VideoUploader.tsx:55-63 | `dragenter`/`dragover` set the highlight, `dragleave` clears it, other types leave it; nothing is reported |
| VideoUploader.FileUploader.HandleDrop | components/VideoUploader.tsx:65-70 | the highlight goes off and the dropped files are reported as a selection would be |
| VideoUploader.FileUploader.ClearFile | components/VideoUploader.tsx:72-77 | reports null and changes nothing else |
| Loader.MessagesDistinct | constants.ts:14-25 | ten loading messages, no two alike |
| Loader.InitialMessage | components/Loader.tsx:9 | a non-empty `message` prop is shown first, otherwise the first loading message |
| Loader.NextMessage | components/Loader.tsx:14-18 | the next message is always one of the list |
| Loader.NextOfListed | components/Loader.tsx:15-17 | in a list without repeats, each message is followed by the next one, cyclically |
| Loader.LastWrapsToFirst | components/Loader.tsx:16 | the last message is followed by the first |
| Loader.UnlistedGoesToFirst | components/Loader.tsx:15-16 | a message not in the list (index -1) is followed by the first |
| Loader.NextPosition | components/Loader.tsx:15-17 | in a list without repeats, one tick moves one position on and wraps from the last position to the first |
| Loader.RotateFollowsTickIndex | components/Loader.tsx:13-19 | in a list without repeats, n ticks from an entry land on the entry n positions on, cyclically |
| Loader.FullCycle | components/Loader.tsx:13-19 | as many ticks as there are messages bring the display back to where it started |
| Loader.Loader.constructor | components/Loader.tsx:9-24 | the initial message is shown, and the rotation runs exactly when there is no prop; a prop is shown without rotation |
| Loader.Loader.Tick | components/Loader.tsx:13-18 | one tick shows the message after the previous one, always one of the list; the prop and the rotation stay |
| Loader.Loader.SetMessage | components/Loader.tsx:11-24 | an unchanged prop changes nothing; a new non-empty prop is shown and stops rotation; a new empty prop restarts rotation from the current message; a shown prop stays shown |
| Loader.Loader.Unmount | components/Loader.tsx:20 | the rotation stops, the display is unchanged |
| App.FailureText | App.tsx:162 | the catch blocks' texts (also lines 128, 176 and 190): the fixed prefix, then the thrown message, or "Unknown error" when it is empty or absent |
| App.PlayableUrl | App.tsx:151 | the playable URL is the URI, then `&key=`, then the credential, in that order and nothing else |
| App.PlayableUrlInjective | App.tsx:151 | URIs of the same length and their keys can be read back from the playable URL |
| App.ReelsStudio.constructor | App.tsx:30-79 | the initial state; with the host key capability a key check is loading, without it the key is taken as present; no timer is live |
| App.ReelsStudio.KeyCheckFinished | App.tsx:59-68 | the host's answer becomes `hasKey`; a failing check records the check error and no key |
| App.ReelsStudio.BeginKeySelection | App.tsx:83 | loading starts and the error is cleared |
| App.ReelsStudio.KeySelectionFinished | App.tsx:84-90 | a returning selector counts as success; a failing one records the selector error and no key |
| App.ReelsStudio.SetPrompt | App.tsx:226 | the prompt becomes the typed text |
| App.ReelsStudio.SetAspectRatio | App.tsx:313 | the aspect ratio becomes the chosen one |
| App.ReelsStudio.SetResolution | App.tsx:328 | the resolution becomes the chosen one |
| App.ReelsStudio.SelectInputMode | App.tsx:245-277 | text-only clears both files, image mode clears the video, video mode clears the image; afterwards the files match the mode |
| App.ReelsStudio.StartingImageChanged | App.tsx:289 | the starting image becomes the reported one; in image mode the files still match the mode |
| App.ReelsStudio.UploadedVideoChanged | App.tsx:299 | the context video becomes the reported one; in video mode the files still match the mode |
| App.ReelsStudio.Submit | App.tsx:93-117 | results are cleared; no request is sent exactly when the host can select keys and none is selected, in which case the missing-key error is shown and generation stops; otherwise the request built from prompt, image, ratio and resolution is sent and generation is on |
| App.ReelsStudio.StartSucceeded | App.tsx:118-141 | the operation is stored and polling is armed with a fresh timer; any earlier timer is cleared, so exactly one timer is live |
| App.ReelsStudio.StartRejected | App.tsx:120-131 | an "entity not found" message revokes the key and asks for re-selection; any other message is a generic failure with the key untouched; generation stops |
| App.ReelsStudio.PollTick | App.tsx:141-165 | the check is sent for the operation tracked so far, stored by the start or the previous tick; not done: only the tracked operation changes and the timer stays; done with a URI: timer cleared, playable URL and operation stored; done without: timer cleared, no-URI error; failed check: timer cleared, error quoted; the timer invariant holds throughout |
| App.ReelsStudio.BeginSuggestion | App.tsx:168-172 | that kind's loading flag goes on and its text is cleared; the request is the suggestion request for the current prompt; the other kind is untouched |
| App.ReelsStudio.FinishSuggestion | App.tsx:172-193 | on an answer that kind's text and the shared sources are replaced; on a failure that kind's text is the failure message and the sources stay; that kind's loading flag goes off; the video and the other kind are untouched |
| App.ReelsStudio.Teardown | App.tsx:196-202 | the live poll timer is cleared; the reference is left as it was |
| App.PollUntilDone | App.tsx:141-156 | two unfinished checks and one finished with a URI yield the URI with the key appended, no error and no live timer |
| App.SubmitWithoutKey | App.tsx:105-109 | with the host capability and no key, nothing is sent and the missing-key error is shown |
| App.RestartWhilePolling | App.tsx:134-141 | a second start while polling leaves exactly one live timer, the new one |
| App.IndependentSuggestions | App.tsx:168-194 | concurrent refreshes of the two kinds each end with their own outcome; the sources come from the successful one |
| App.StartRejectedForKey | App.tsx:123-126 | an "entity not found" rejection leaves no key and the re-selection message |
| App.StartAfterTeardown | App.tsx:111-165 | a start that resolves after teardown leaves one live timer on an unmounted component, which the tick clears once the operation is done |
| App.TicksCheckTrackedOperation | App.tsx:135-143 | the first tick checks the operation the start returned, the second the operation the first check answered with |
| App.LateImageReport | App.tsx:274-289 | an image reported after switching to video mode is stored beside the video and sent with the next request |

## Left out

- The remote calls (`generateVideos`, `getVideosOperation`, `generateContent`) and the SDK client construction: a request is returned instead, and the answer or thrown message is a parameter. `pollVideoGenerationStatus` is nothing but such a call, so it appears only as the `PollOutcome` parameter of `PollTick`.
- `FileReader` and the base64 encoding of file bytes: how a read ends (`DataUrl`, a non-string result, an error) is a parameter; the data URL's contents are taken as given.
- Timing: the 5000 ms poll interval and the 3000 ms message rotation are not modelled, only the order of events. Each timer firing is atomic, so a tick that would start before the previous tick's `await` returned is not modelled.
- `window.aistudio` and `process.env.API_KEY`: whether the host offers key selection is the constructor parameter `hostKeyCapability`, the host's answers are parameters of `KeyCheckFinished` and `KeySelectionFinished`, and the credential is the `apiKey` parameter of `PollTick`. The `isLoading` step of `checkApiKey` at `App.tsx:61` is folded into the constructor.
- `temperature` and `maxOutputTokens` of the suggestion request: constants with no effect on the modelled behaviour.
- Rendering: the JSX markup and the `SuggestionCard`, `ApiKeyPrompt` and `VideoPlayer` components. The render gates are not preconditions of the handlers. These gates are: the key prompt in place of the form without a key; the suggestion cards only once a video URL exists; each uploader only in its mode. A consequence is that the key check in `Submit` is unreachable from the rendered form.
- `App.SubmitDisabled`: it is only the button's `disabled` expression, so it has no contract. `TrimRemoves` follows the white-space and line-terminator characters that `String.prototype.trim` removes.
- `VEO_MODEL` and `BILLING_DOCUMENTATION_URL`: declared but not used by the modelled code.
- `clearFile`'s reset of the file input element's `value` (a DOM side effect), and `preventDefault`/`stopPropagation` in the drag handlers.
- `console.error` logging.
- The SDK's optional fields that the code dereferences without a check: the `uri` of a web or maps chunk is taken as present, and `response.text` as a string.
- A thrown value's `message` is taken as an optional string; thrown values whose `message` is some other kind of value are not modelled.
- The chain `candidates?.[0]?.groundingMetadata?.groundingChunks` is a single optional chunk list. Likewise `response?.generatedVideos?.[0]?.video?.uri` is a single optional URI on `Operation`.
- The uploaded context video is stored but never sent; the model stores it too and proves nothing more about it.
