/**
 * The service layer (services/geminiService.ts): reading a file into an
 * encoded image, building the video-generation request, and building the
 * suggestion request and turning its answer into text plus grounding
 * sources. The remote calls themselves are not modelled: a request is
 * returned to the caller, and the remote answer is taken as a parameter.
 */
module GeminiService {
  import opened JsValues
  import opened Types

  // ---------------------------------------------------------------------------
  // fileToBase64
  // ---------------------------------------------------------------------------

  /**
   * The image record that `fileToBase64` resolves with, or the rejection.
   * The MIME type is the file's own `type`, never the one written in the
   * data URL.
   */
  function FileToBase64(file: FileInfo, read: ReaderOutcome): (r: Result<ImageData, EncodeError>)
    ensures r.Success? <==> read.DataUrl?
    ensures r.Success? ==> r.value.mimeType == file.mimeType
    ensures read.NonStringResult? ==> r == Failure(ConversionFailed)
    ensures read.ReadError? ==> r == Failure(ReaderFailed)
  {
    match read
    case DataUrl(url) => Success(ImageData(SecondField(url, ','), file.mimeType))
    case NonStringResult => Failure(ConversionFailed)
    case ReadError => Failure(ReaderFailed)
  }

  /**
   * For a well-formed data URL `data:<type>;base64,<payload>` the stored
   * payload is exactly `<payload>`.
   */
  lemma FileToBase64Payload(file: FileInfo, payload: string)
    requires ',' !in file.mimeType && ',' !in payload
    ensures FileToBase64(file, DataUrl("data:" + file.mimeType + ";base64," + payload))
         == Success(ImageData(Some(payload), file.mimeType))
  {
    var head := "data:" + file.mimeType + ";base64";
    assert "data:" + file.mimeType + ";base64," + payload == head + [','] + payload;
    SecondFieldOfOne(head, ',', payload);
  }

  // ---------------------------------------------------------------------------
  // generateVideo: the two request shapes
  // ---------------------------------------------------------------------------

  datatype VideoOptions = VideoOptions(
    prompt: string,
    startingImage: Option<ImageData>,
    aspectRatio: VeoAspectRatio,
    resolution: VeoResolution)

  datatype ImageInput = ImageInput(imageBytes: Option<string>, mimeType: string)
  datatype VideoConfig = VideoConfig(numberOfVideos: nat, resolution: VeoResolution, aspectRatio: VeoAspectRatio)
  datatype VideoRequest = VideoRequest(model: string, prompt: string, image: Option<ImageInput>, config: VideoConfig)

  /** The parameters `generateVideo` hands to the video-generation call. */
  function GenerateVideoRequest(options: VideoOptions): (r: VideoRequest)
    ensures r.model == VEO_FAST_MODEL
    ensures r.prompt == options.prompt
    ensures r.config == VideoConfig(1, options.resolution, options.aspectRatio)
    ensures r.image.Some? <==> options.startingImage.Some?
    ensures r.image.Some? ==>
              r.image.value.imageBytes == options.startingImage.value.base64 &&
              r.image.value.mimeType == options.startingImage.value.mimeType
  {
    var config := VideoConfig(1, options.resolution, options.aspectRatio);
    match options.startingImage
    case Some(img) =>
      VideoRequest(VEO_FAST_MODEL, options.prompt, Some(ImageInput(img.base64, img.mimeType)), config)
    case None =>
      VideoRequest(VEO_FAST_MODEL, options.prompt, None, config)
  }

  /** Reads the caller's options back out of a request. */
  function RequestOptions(r: VideoRequest): VideoOptions {
    VideoOptions(
      r.prompt,
      match r.image
      case Some(i) => Some(ImageData(i.imageBytes, i.mimeType))
      case None => None,
      r.config.aspectRatio,
      r.config.resolution)
  }

  /** Nothing the caller supplies is lost or altered on the way into the request. */
  lemma GenerateVideoRequestLossless(options: VideoOptions)
    ensures RequestOptions(GenerateVideoRequest(options)) == options
  {
  }

  // ---------------------------------------------------------------------------
  // suggestContent: prompt selection
  // ---------------------------------------------------------------------------

  datatype SuggestionKind = Caption | MusicMood

  const CAPTION_INSTRUCTION := "You are an Instagram Reels caption writer. Provide short, engaging, and relevant captions, including relevant emojis and hashtags, for a video described by the user. Provide 3 distinct options, each on a new line. Do not include introductory or concluding remarks."
  const MUSIC_MOOD_INSTRUCTION := "You are a music expert recommending background music moods/genres for Instagram Reels. Suggest 3 music moods/genres and provide a short reason for each, for a video described by the user. Format as a bulleted list. Do not include introductory or concluding remarks."
  const CAPTION_PROMPT_PREFIX := "Generate captions for a video about: "
  const MUSIC_MOOD_PROMPT_PREFIX := "Suggest music moods/genres for a video about: "

  /** The text-generation request; temperature and output cap are not modelled. */
  datatype ContentRequest = ContentRequest(model: string, contents: string, systemInstruction: string)

  /** The request `suggestContent` sends for a prompt and a suggestion kind. */
  function SuggestionRequest(prompt: string, kind: SuggestionKind): (r: ContentRequest)
    ensures r.model == GEMINI_FLASH_MODEL
    ensures kind == Caption ==>
              r.contents == CAPTION_PROMPT_PREFIX + prompt && r.systemInstruction == CAPTION_INSTRUCTION
    ensures kind == MusicMood ==>
              r.contents == MUSIC_MOOD_PROMPT_PREFIX + prompt && r.systemInstruction == MUSIC_MOOD_INSTRUCTION
  {
    match kind
    case Caption => ContentRequest(GEMINI_FLASH_MODEL, CAPTION_PROMPT_PREFIX + prompt, CAPTION_INSTRUCTION)
    case MusicMood => ContentRequest(GEMINI_FLASH_MODEL, MUSIC_MOOD_PROMPT_PREFIX + prompt, MUSIC_MOOD_INSTRUCTION)
  }

  /** Distinct prompts or kinds never produce the same request. */
  lemma SuggestionRequestInjective(p1: string, k1: SuggestionKind, p2: string, k2: SuggestionKind)
    requires SuggestionRequest(p1, k1) == SuggestionRequest(p2, k2)
    ensures p1 == p2 && k1 == k2
  {
    if k1 != k2 {
      assert false;
    }
    var prefix := if k1 == Caption then CAPTION_PROMPT_PREFIX else MUSIC_MOOD_PROMPT_PREFIX;
    assert (prefix + p1)[|prefix|..] == p1;
    assert (prefix + p2)[|prefix|..] == p2;
  }

  // ---------------------------------------------------------------------------
  // suggestContent: grounding sources
  // ---------------------------------------------------------------------------

  datatype WebChunk = WebChunk(uri: string, title: Option<string>)
  datatype ReviewSnippet = ReviewSnippet(uri: Option<string>, title: Option<string>)
  datatype PlaceAnswerSources = PlaceAnswerSources(reviewSnippets: Option<seq<ReviewSnippet>>)
  datatype MapsChunk = MapsChunk(uri: string, title: Option<string>, placeAnswerSources: Option<PlaceAnswerSources>)
  datatype GroundingChunk = GroundingChunk(web: Option<WebChunk>, maps: Option<MapsChunk>)

  /**
   * The parts of a text-generation answer the application reads: the text and
   * the first candidate's grounding chunks (absent when any link of
   * `candidates?.[0]?.groundingMetadata?.groundingChunks` is missing).
   */
  datatype ContentResponse = ContentResponse(text: string, groundingChunks: Option<seq<GroundingChunk>>)

  /** The review snippets of a maps chunk, or none when either level is absent. */
  function ReviewSnippetsOf(m: MapsChunk): seq<ReviewSnippet> {
    match m.placeAnswerSources
    case Some(p) => (match p.reviewSnippets case Some(ss) => ss case None => [])
    case None => []
  }

  /** The sources contributed by review snippets: those with a uri, in order. */
  function SnippetSources(ss: seq<ReviewSnippet>): seq<Source> {
    if ss == [] then []
    else
      var s := ss[0];
      (if Truthy(s.uri) then [Source(s.uri.value, OrElse(s.title, s.uri.value))] else [])
      + SnippetSources(ss[1..])
  }

  /** The source a web entry contributes, if there is one. */
  function WebSources(web: Option<WebChunk>): seq<Source> {
    match web
    case Some(w) => [Source(w.uri, OrElse(w.title, w.uri))]
    case None => []
  }

  /** The sources a maps entry contributes: itself, then its review snippets. */
  function MapsSources(maps: Option<MapsChunk>): seq<Source> {
    match maps
    case Some(m) => [Source(m.uri, OrElse(m.title, m.uri))] + SnippetSources(ReviewSnippetsOf(m))
    case None => []
  }

  /** The sources one chunk contributes: its web entry, its maps entry, then the maps entry's snippets. */
  function ChunkSources(c: GroundingChunk): seq<Source> {
    WebSources(c.web) + MapsSources(c.maps)
  }

  /** All sources of a chunk list, chunk after chunk. */
  function FlattenChunks(cs: seq<GroundingChunk>): seq<Source> {
    if cs == [] then [] else ChunkSources(cs[0]) + FlattenChunks(cs[1..])
  }

  /** The `groundingUrls` field: null exactly when no source was collected. */
  function GroundingUrlsOf(chunks: Option<seq<GroundingChunk>>): (r: Option<seq<Source>>)
    ensures r.None? <==> (chunks.None? || FlattenChunks(chunks.value) == [])
    ensures r.Some? ==> r.value == FlattenChunks(chunks.value) && |r.value| > 0
  {
    match chunks
    case Some(cs) => if |FlattenChunks(cs)| > 0 then Some(FlattenChunks(cs)) else None
    case None => None
  }

  /** Concatenation is associative; stated once so the proofs below need no element-wise reasoning. */
  lemma AppendAssoc<T>(a: seq<T>, b: seq<T>, c: seq<T>)
    ensures (a + b) + c == a + (b + c)
  {
  }

  lemma AppendEmpty<T>(a: seq<T>)
    ensures a + [] == a && [] + a == a
  {
  }

  lemma TailOfAppend<T>(a: seq<T>, b: seq<T>)
    requires a != []
    ensures (a + b)[0] == a[0] && (a + b)[1..] == a[1..] + b
  {
  }

  lemma SnippetSourcesOne(s: ReviewSnippet)
    ensures SnippetSources([s]) == if Truthy(s.uri) then [Source(s.uri.value, OrElse(s.title, s.uri.value))] else []
  {
    assert [s][1..] == [];
    AppendEmpty(if Truthy(s.uri) then [Source(s.uri.value, OrElse(s.title, s.uri.value))] else []);
  }

  lemma FlattenOne(c: GroundingChunk)
    ensures FlattenChunks([c]) == ChunkSources(c)
  {
    assert [c][1..] == [];
    AppendEmpty(ChunkSources(c));
  }

  /** Flattening respects concatenation: chunk order is kept and nothing is merged across chunks. */
  lemma {:induction false} FlattenAppend(a: seq<GroundingChunk>, b: seq<GroundingChunk>)
    ensures FlattenChunks(a + b) == FlattenChunks(a) + FlattenChunks(b)
  {
    if a == [] {
      AppendEmpty(b);
      AppendEmpty(FlattenChunks(b));
    } else {
      TailOfAppend(a, b);
      FlattenAppend(a[1..], b);
      AppendAssoc(ChunkSources(a[0]), FlattenChunks(a[1..]), FlattenChunks(b));
    }
  }

  lemma {:induction false} SnippetSourcesAppend(a: seq<ReviewSnippet>, b: seq<ReviewSnippet>)
    ensures SnippetSources(a + b) == SnippetSources(a) + SnippetSources(b)
  {
    if a == [] {
      AppendEmpty(b);
      AppendEmpty(SnippetSources(b));
    } else {
      TailOfAppend(a, b);
      SnippetSourcesAppend(a[1..], b);
      var s := a[0];
      AppendAssoc(if Truthy(s.uri) then [Source(s.uri.value, OrElse(s.title, s.uri.value))] else [],
                  SnippetSources(a[1..]), SnippetSources(b));
    }
  }

  /** A review snippet without a uri contributes nothing, wherever it stands. */
  lemma SnippetWithoutUriSkipped(a: seq<ReviewSnippet>, s: ReviewSnippet, b: seq<ReviewSnippet>)
    requires !Truthy(s.uri)
    ensures SnippetSources(a + [s] + b) == SnippetSources(a + b)
  {
    SnippetSourcesAppend(a + [s], b);
    SnippetSourcesAppend(a, [s]);
    SnippetSourcesAppend(a, b);
  }

  /**
   * When every snippet has a uri, the snippet sources line up one to one with
   * the snippets: nothing is dropped, merged or reordered, and each title
   * falls back to the uri.
   */
  lemma {:induction false} SnippetSourcesAligned(ss: seq<ReviewSnippet>)
    requires forall k :: 0 <= k < |ss| ==> Truthy(ss[k].uri)
    ensures |SnippetSources(ss)| == |ss|
    ensures forall k :: 0 <= k < |ss| ==>
              ss[k].uri == Some(SnippetSources(ss)[k].uri) &&
              SnippetSources(ss)[k].title == OrElse(ss[k].title, SnippetSources(ss)[k].uri)
  {
    if ss != [] {
      SnippetSourcesAligned(ss[1..]);
    }
  }

  /** Every emitted title is non-empty unless the uri it falls back to is empty too. */
  lemma {:induction false} FlattenTitlesFallBack(cs: seq<GroundingChunk>)
    ensures forall k :: 0 <= k < |FlattenChunks(cs)| && FlattenChunks(cs)[k].title == "" ==>
              FlattenChunks(cs)[k].uri == ""
  {
    if cs != [] {
      FlattenTitlesFallBack(cs[1..]);
      SnippetTitlesFallBack(ReviewSnippetsOf(if cs[0].maps.Some? then cs[0].maps.value else MapsChunk("", None, None)));
    }
  }

  lemma {:induction false} SnippetTitlesFallBack(ss: seq<ReviewSnippet>)
    ensures forall k :: 0 <= k < |SnippetSources(ss)| ==>
              SnippetSources(ss)[k].uri != "" && SnippetSources(ss)[k].title != ""
  {
    if ss != [] {
      SnippetTitlesFallBack(ss[1..]);
    }
  }

  /** The `reviewSnippets?.forEach` step: push each snippet that has a uri. */
  method PushSnippetSources(urls: seq<Source>, snippets: seq<ReviewSnippet>) returns (out: seq<Source>)
    ensures out == urls + SnippetSources(snippets)
  {
    out := urls;
    var j := 0;
    while j < |snippets|
      invariant 0 <= j <= |snippets|
      invariant out == urls + SnippetSources(snippets[..j])
    {
      var snippet := snippets[j];
      if snippet.uri.Some? && snippet.uri.value != "" {
        out := out + [Source(snippet.uri.value, OrElse(snippet.title, snippet.uri.value))];
      } else {
        AppendEmpty(out);
      }
      SnippetSourcesOne(snippet);
      SnippetSourcesAppend(snippets[..j], [snippet]);
      AppendAssoc(urls, SnippetSources(snippets[..j]), SnippetSources([snippet]));
      assert snippets[..j + 1] == snippets[..j] + [snippet];
      j := j + 1;
    }
    assert snippets[..j] == snippets;
  }

  /** The `if (chunk.maps)` branch: push the maps entry, then its snippets that have a uri. */
  method PushMapsSources(urls: seq<Source>, maps: MapsChunk) returns (out: seq<Source>)
    ensures out == urls + MapsSources(Some(maps))
  {
    var entry := Source(maps.uri, OrElse(maps.title, maps.uri));
    out := urls + [entry];
    if maps.placeAnswerSources.Some? && maps.placeAnswerSources.value.reviewSnippets.Some? {
      out := PushSnippetSources(out, maps.placeAnswerSources.value.reviewSnippets.value);
    } else {
      AppendEmpty(out);
    }
    AppendAssoc(urls, [entry], SnippetSources(ReviewSnippetsOf(maps)));
  }

  /** The body of the chunk loop: push the web entry, then the maps entry and its snippets. */
  method PushChunkSources(urls: seq<Source>, chunk: GroundingChunk) returns (out: seq<Source>)
    ensures out == urls + ChunkSources(chunk)
  {
    out := urls;
    if chunk.web.Some? {
      var web := chunk.web.value;
      out := out + [Source(web.uri, OrElse(web.title, web.uri))];
    } else {
      AppendEmpty(urls);
    }
    if chunk.maps.Some? {
      out := PushMapsSources(out, chunk.maps.value);
    } else {
      AppendEmpty(out);
    }
    AppendAssoc(urls, WebSources(chunk.web), MapsSources(chunk.maps));
  }

  /**
   * The grounding-source loop of `suggestContent`: chunk after chunk, each
   * pushes its web entry, then its maps entry, then the maps entry's review
   * snippets that have a uri.
   */
  method CollectGroundingUrls(chunks: seq<GroundingChunk>) returns (urls: seq<Source>)
    ensures urls == FlattenChunks(chunks)
  {
    urls := [];
    var i := 0;
    while i < |chunks|
      invariant 0 <= i <= |chunks|
      invariant urls == FlattenChunks(chunks[..i])
    {
      urls := PushChunkSources(urls, chunks[i]);
      FlattenOne(chunks[i]);
      FlattenAppend(chunks[..i], [chunks[i]]);
      assert chunks[..i + 1] == chunks[..i] + [chunks[i]];
      i := i + 1;
    }
    assert chunks[..i] == chunks;
  }

  /** What `suggestContent` resolves with, given the service's answer. */
  function SuggestionOf(response: ContentResponse): SuggestionResult {
    SuggestionResult(response.text, GroundingUrlsOf(response.groundingChunks))
  }

  /**
   * The rest of `suggestContent` once the service answered with `response`:
   * the text, and the collected sources or null when none was collected.
   */
  method ReadSuggestionResponse(response: ContentResponse) returns (result: SuggestionResult)
    ensures result.content == response.text
    ensures result.groundingUrls.None? <==>
              response.groundingChunks.None? || FlattenChunks(response.groundingChunks.value) == []
    ensures result.groundingUrls.Some? ==> result.groundingUrls.value == FlattenChunks(response.groundingChunks.value)
    ensures result == SuggestionOf(response)
  {
    var urls: seq<Source> := [];
    if response.groundingChunks.Some? {
      urls := CollectGroundingUrls(response.groundingChunks.value);
    }
    result := SuggestionResult(response.text, if |urls| > 0 then Some(urls) else None);
  }
}
