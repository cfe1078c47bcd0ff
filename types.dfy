/**
 * The records, enumerations and constants shared by the application
 * (types.ts and constants.ts), plus the shapes of the remote service's
 * answers that the application inspects.
 */
module Types {
  import opened JsValues

  datatype VeoAspectRatio = AspectRatio16x9 | AspectRatio9x16 | AspectRatio1x1
  datatype VeoResolution = Resolution720p | Resolution1080p
  datatype VideoInputMode = TextOnly | ImageUpload | VideoUpload

  /**
   * An encoded still image. `base64` is whatever `split(',')[1]` produced,
   * so it is absent when the reader's data URL had no comma.
   */
  datatype ImageData = ImageData(base64: Option<string>, mimeType: string)

  /** An encoded video; unlike an image it also carries the file name. */
  datatype VideoFile = VideoFile(base64: Option<string>, mimeType: string, name: string)

  /** What an uploader reports: an image record or a video record. */
  datatype UploadedFile = Image(image: ImageData) | Video(video: VideoFile) {
    function MimeType(): string {
      match this
      case Image(i) => i.mimeType
      case Video(v) => v.mimeType
    }
    function Base64(): Option<string> {
      match this
      case Image(i) => i.base64
      case Video(v) => v.base64
    }
  }

  /** A grounding source as the application stores it: `{ uri, title }`. */
  datatype Source = Source(uri: string, title: string)

  /** The result of a suggestion request: generated text and optional sources. */
  datatype SuggestionResult = SuggestionResult(content: string, groundingUrls: Option<seq<Source>>)

  /**
   * A long-running video-generation operation as the application observes it:
   * an opaque name, the completion flag and the first generated video's URI
   * (`response?.generatedVideos?.[0]?.video?.uri`, absent when any link of
   * that chain is missing).
   */
  datatype Operation = Operation(name: string, done: bool, videoUri: Option<string>)

  /** A File as the encoders see it: its `name` and its `type`. */
  datatype FileInfo = FileInfo(name: string, mimeType: string)

  /**
   * How a `FileReader.readAsDataURL` ends: `onload` with a string result,
   * `onload` with a non-string result, or `onerror`.
   */
  datatype ReaderOutcome = DataUrl(url: string) | NonStringResult | ReadError

  /** Why encoding a file failed. */
  datatype EncodeError = ConversionFailed | ReaderFailed

  const VEO_FAST_MODEL := "veo-3.1-fast-generate-preview"
  const GEMINI_FLASH_MODEL := "gemini-2.5-flash"

  const DEFAULT_ASPECT_RATIO := AspectRatio9x16
  const DEFAULT_RESOLUTION := Resolution720p

  const VIDEO_GENERATION_LOADING_MESSAGES: seq<string> := [
    "Crafting your cinematic masterpiece...",
    "Generating frames with AI magic...",
    "Synthesizing your vision into motion...",
    "Adding a touch of AI brilliance...",
    "Polishing pixels for perfection...",
    "Almost there! Your reel is brewing...",
    "Infusing creativity into every second...",
    "Bringing your prompt to life, frame by frame...",
    "Our AI director is hard at work...",
    "Expect cinematic quality, delivered by AI."
  ]
}
