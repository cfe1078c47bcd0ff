/**
 * The file-upload widget (components/VideoUploader.tsx): encoding the chosen
 * file into an image or video record, what it reports to its parent through
 * `onFileChange`, the preview data URL, and the drag-highlight flag.
 * `FileReader` is not modelled: how the read ends is a parameter.
 */
module VideoUploader {
  import opened JsValues
  import opened Types

  /** The widget's `fileType` prop. */
  datatype FileKind = ImageKind | VideoKind

  /** `fileToBase64Helper`: the record it resolves with, or the rejection. */
  function EncodeFile(file: FileInfo, isVideo: bool, read: ReaderOutcome): (r: Result<UploadedFile, EncodeError>)
    ensures r.Success? <==> read.DataUrl?
    ensures r.Success? ==> r.value.Video? == isVideo
    ensures r.Success? ==> r.value.MimeType() == file.mimeType
    ensures r.Success? && isVideo ==> r.value.video.name == file.name
    ensures read.NonStringResult? ==> r == Failure(ConversionFailed)
  {
    match read
    case DataUrl(url) =>
      var payload := SecondField(url, ',');
      if isVideo then Success(Video(VideoFile(payload, file.mimeType, file.name)))
      else Success(Image(ImageData(payload, file.mimeType)))
    case NonStringResult => Failure(ConversionFailed)
    case ReadError => Failure(ReaderFailed)
  }

  /** The stored payload is the field after the first comma of the reader's data URL. */
  lemma EncodeFilePayload(file: FileInfo, isVideo: bool, url: string)
    ensures EncodeFile(file, isVideo, DataUrl(url)).value.Base64() == SecondField(url, ',')
  {
  }

  /**
   * The value `handleFileChange` passes to `onFileChange` when the selection
   * is `files` and reading the first file ends with `read`: nothing for a
   * missing or empty selection or a failed encoding.
   */
  function FileChangeReport(files: Option<seq<FileInfo>>, kind: FileKind, read: ReaderOutcome): (r: Option<UploadedFile>)
    ensures r.Some? <==> files.Some? && |files.value| > 0 && read.DataUrl?
    ensures r.Some? ==> r.value.Video? == (kind == VideoKind)
    ensures r.Some? ==> r.value.MimeType() == files.value[0].mimeType
    ensures r.Some? ==> r.value.Base64() == SecondField(read.url, ',')
    ensures r.Some? && kind == VideoKind ==> r.value.video.name == files.value[0].name
  {
    if files.Some? && |files.value| > 0 then
      match EncodeFile(files.value[0], kind == VideoKind, read)
      case Success(f) => Some(f)
      case Failure(_) => None
    else None
  }

  /** Only the first file of a selection matters: the rest never change the report. */
  lemma FileChangeReportFirstOnly(first: FileInfo, rest1: seq<FileInfo>, rest2: seq<FileInfo>, kind: FileKind, read: ReaderOutcome)
    ensures FileChangeReport(Some([first] + rest1), kind, read) == FileChangeReport(Some([first] + rest2), kind, read)
  {
  }

  /** `previewUrl`: the data URL shown for the current file, or null. */
  function PreviewUrl(current: Option<UploadedFile>): (r: Option<string>)
    ensures r.None? <==> current.None?
    ensures r.Some? ==> r.value == "data:" + current.value.MimeType() + ";base64," + Interpolate(current.value.Base64())
  {
    match current
    case Some(f) => Some("data:" + f.MimeType() + ";base64," + Interpolate(f.Base64()))
    case None => None
  }

  /**
   * Round trip: selecting a file whose reader yields
   * `data:<file type>;base64,<payload>` (no further commas) and previewing
   * the reported record reproduces that data URL.
   */
  lemma PreviewRoundTrip(file: FileInfo, kind: FileKind, payload: string)
    requires ',' !in file.mimeType && ',' !in payload
    ensures var url := "data:" + file.mimeType + ";base64," + payload;
            PreviewUrl(FileChangeReport(Some([file]), kind, DataUrl(url))) == Some(url)
  {
    var head := "data:" + file.mimeType + ";base64";
    assert "data:" + file.mimeType + ";base64," + payload == head + [','] + payload;
    SecondFieldOfOne(head, ',', payload);
  }

  /**
   * A data URL with a comma inside its payload does not survive the round
   * trip: only the text up to that comma is kept.
   */
  lemma PreviewTruncatesAtSecondComma(file: FileInfo, kind: FileKind, payload: string, tail: string)
    requires ',' !in file.mimeType && ',' !in payload
    ensures var url := "data:" + file.mimeType + ";base64," + payload + "," + tail;
            PreviewUrl(FileChangeReport(Some([file]), kind, DataUrl(url)))
              == Some("data:" + file.mimeType + ";base64," + payload)
  {
    var head := "data:" + file.mimeType + ";base64";
    assert "data:" + file.mimeType + ";base64," + payload + "," + tail == head + [','] + payload + [','] + tail;
    SecondFieldOfMany(head, ',', payload, tail);
  }

  // ---------------------------------------------------------------------------
  // The drag-highlight flag
  // ---------------------------------------------------------------------------

  /** `handleDrag`: the flag after one drag event of type `eventType`. */
  function DragStep(active: bool, eventType: string): bool {
    if eventType == "dragenter" || eventType == "dragover" then true
    else if eventType == "dragleave" then false
    else active
  }

  /** Event types that `handleDrag` reacts to. */
  predicate Toggles(eventType: string) {
    eventType == "dragenter" || eventType == "dragover" || eventType == "dragleave"
  }

  /** The flag after a series of drag events, one `handleDrag` call each. */
  function DragAfter(active: bool, events: seq<string>): bool
    decreases |events|
  {
    if events == [] then active else DragAfter(DragStep(active, events[0]), events[1..])
  }

  /**
   * After a series of drag events the flag reflects the last event that
   * toggles it: on for `dragenter`/`dragover`, off for `dragleave`.
   */
  lemma {:induction false} DragAfterLastToggle(active: bool, events: seq<string>, k: int)
    requires 0 <= k < |events| && Toggles(events[k])
    requires forall j :: k < j < |events| ==> !Toggles(events[j])
    ensures DragAfter(active, events) == (events[k] != "dragleave")
    decreases |events|
  {
    if k == 0 {
      DragAfterNoToggle(DragStep(active, events[0]), events[1..]);
    } else {
      DragAfterLastToggle(DragStep(active, events[0]), events[1..], k - 1);
    }
  }

  /** Events that do not toggle leave the flag as it was. */
  lemma {:induction false} DragAfterNoToggle(active: bool, events: seq<string>)
    requires forall j :: 0 <= j < |events| ==> !Toggles(events[j])
    ensures DragAfter(active, events) == active
    decreases |events|
  {
    if events != [] {
      DragAfterNoToggle(DragStep(active, events[0]), events[1..]);
    }
  }

  /**
   * One uploader widget. `reports` records, in order, every value handed to
   * the parent's `onFileChange` callback.
   */
  class FileUploader {
    const fileType: FileKind
    var dragActive: bool
    var reports: seq<Option<UploadedFile>>

    constructor (fileType: FileKind)
      ensures this.fileType == fileType
      ensures !dragActive && reports == []
    {
      this.fileType := fileType;
      dragActive := false;
      reports := [];
    }

    /** `handleFileChange` for a selection `files` whose first file reads as `read`. */
    method HandleFileChange(files: Option<seq<FileInfo>>, read: ReaderOutcome)
      modifies this
      ensures reports == old(reports) + [FileChangeReport(files, fileType, read)]
      ensures dragActive == old(dragActive)
    {
      if files.Some? && |files.value| > 0 {
        var file := files.value[0];
        var encoded := EncodeFile(file, fileType == VideoKind, read);
        match encoded
        case Success(f) => reports := reports + [Some(f)];
        case Failure(_) => reports := reports + [None];
      } else {
        reports := reports + [None];
      }
    }

    /** `handleDrag` for an event of type `eventType`. */
    method HandleDrag(eventType: string)
      modifies this
      ensures eventType == "dragenter" || eventType == "dragover" ==> dragActive
      ensures eventType == "dragleave" ==> !dragActive
      ensures !Toggles(eventType) ==> dragActive == old(dragActive)
      ensures dragActive == DragStep(old(dragActive), eventType)
      ensures reports == old(reports)
    {
      if eventType == "dragenter" || eventType == "dragover" {
        dragActive := true;
      } else if eventType == "dragleave" {
        dragActive := false;
      }
    }

    /** `handleDrop`: the highlight goes off, then the dropped files are handled. */
    method HandleDrop(files: Option<seq<FileInfo>>, read: ReaderOutcome)
      modifies this
      ensures !dragActive
      ensures reports == old(reports) + [FileChangeReport(files, fileType, read)]
    {
      dragActive := false;
      HandleFileChange(files, read);
    }

    /** `clearFile`: always reports that no file is selected. */
    method ClearFile()
      modifies this
      ensures reports == old(reports) + [None]
      ensures dragActive == old(dragActive)
    {
      reports := reports + [None];
    }
  }
}
