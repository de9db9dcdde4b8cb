/** The client orchestrator (`App` and its `Controls` and `SummaryDisplay`
    parts): the state the page keeps, the handlers that change it, and the pure
    decisions the page takes from it (button guard, length labels, download).
    Every handler, and each of the two halves of `handleSummarize` (before the
    request and after its answer), is one atomic step. */
module ClientSession {
  import opened Wrappers

  const NoFileError: string := "Please upload a file first."
  const RequestFailedError: string := "Failed to generate summary. Please check the server or file."

  /** The length options the drop-down offers, in order. */
  const Options: seq<string> := ["short", "medium", "long"]
  const DefaultLength: string := "medium"

  /** A file the user picked: its name and its media type. */
  datatype FileRef = FileRef(name: string, mimetype: string)

  /** The multipart upload the client sends: the file and the length field. */
  datatype UploadRequest = UploadRequest(file: FileRef, summaryLength: string)

  /** How the upload ended: the server's summary, or any request error. */
  datatype Answer = Delivered(summary: string) | RequestFailed

  /** What a download produces: the file name, its declared MIME type and
      its content. */
  datatype Download = Download(fileName: string, mimeType: string, content: string)

  /** The label shown for a length value, in the button and in the list. */
  function LengthLabel(length: string): (shown: string)
    ensures shown == "Short Summary" <==> length == "short"
    ensures shown == "Medium Summary" <==> length == "medium"
    ensures shown == "Long Summary" <==> length != "short" && length != "medium"
  {
    if length == "short" then "Short Summary"
    else if length == "medium" then "Medium Summary"
    else "Long Summary"
  }

  /** The three options have three different labels. */
  lemma LabelsDistinguishOptions(a: string, b: string)
    requires a in Options && b in Options
    requires LengthLabel(a) == LengthLabel(b)
    ensures a == b
  {
  }

  /** Whether the "Summarize Now" button is disabled. */
  predicate SummarizeDisabled(loading: bool, fileSelected: bool)
  {
    loading || !fileSelected
  }

  /** `handleDownload(type)`: nothing for an empty summary or an unknown type;
      otherwise the raw summary text under `summary.<type>`, labelled as PDF
      only for `pdf` (the text is not converted). */
  function DownloadOf(summary: string, kind: string): (r: Option<Download>)
    ensures r.Some? <==> summary != [] && (kind == "txt" || kind == "pdf")
    ensures r.Some? ==> r.value.content == summary && r.value.fileName == "summary." + kind
    ensures r.Some? ==> (r.value.mimeType == "application/pdf" <==> kind == "pdf")
    ensures r.Some? ==> (r.value.mimeType == "text/plain" <==> kind == "txt")
  {
    if summary == [] then None
    else if kind == "txt" then Some(Download("summary.txt", "text/plain", summary))
    else if kind == "pdf" then Some(Download("summary.pdf", "application/pdf", summary))
    else None
  }

  /** The state of the page. `isOpen` is the length drop-down's own flag. */
  class Session {
    var file: Option<FileRef>
    var fileName: string
    var summary: string
    var summaryLength: string
    var loading: bool
    var error: string
    var isOpen: bool

    /** The length is always one of the options; the shown file name is the
        selected file's; no summary is shown while a request is in flight. */
    ghost predicate Valid()
      reads this
    {
      summaryLength in Options
      && fileName == (if file.Some? then file.value.name else "")
      && (loading ==> summary == "")
    }

    /** Whether the "Summarize Now" button is disabled in this state. */
    predicate ButtonDisabled()
      reads this
    {
      SummarizeDisabled(loading, file.Some?)
    }

    constructor ()
      ensures Valid()
      ensures file == None && fileName == "" && summary == "" && summaryLength == DefaultLength
      ensures !loading && error == "" && !isOpen
    {
      file := None;
      fileName := "";
      summary := "";
      summaryLength := DefaultLength;
      loading := false;
      error := "";
      isOpen := false;
    }

    /** `onDrop(acceptedFiles)`: the first accepted file, if any, becomes the
        selection, and the previous summary and error are cleared. */
    method OnDrop(acceptedFiles: seq<FileRef>)
      requires Valid()
      modifies this
      ensures Valid()
      ensures acceptedFiles == [] ==>
                file == old(file) && fileName == old(fileName) && summary == old(summary) && error == old(error)
      ensures acceptedFiles != [] ==>
                file == Some(acceptedFiles[0]) && fileName == acceptedFiles[0].name && summary == "" && error == ""
      ensures summaryLength == old(summaryLength) && loading == old(loading) && isOpen == old(isOpen)
    {
      if acceptedFiles != [] {
        file := Some(acceptedFiles[0]);
        fileName := acceptedFiles[0].name;
        error := "";
        summary := "";
      }
    }

    /** The part of `handleSummarize` before the request: with no file it only
        sets the error; otherwise it enters the loading state, clears the
        error and the summary, and returns the request to send. */
    method StartSummarize() returns (request: Option<UploadRequest>)
      requires Valid()
      modifies this
      ensures Valid()
      ensures request.Some? <==> old(file).Some?
      ensures !old(ButtonDisabled()) ==> request.Some?
      ensures old(file).None? ==>
                error == NoFileError && loading == old(loading) && summary == old(summary)
      ensures old(file).Some? ==>
                request == Some(UploadRequest(old(file).value, old(summaryLength)))
                && loading && error == "" && summary == ""
      ensures file == old(file) && fileName == old(fileName)
      ensures summaryLength == old(summaryLength) && isOpen == old(isOpen)
    {
      if file.None? {
        error := NoFileError;
        return None;
      }
      loading := true;
      error := "";
      summary := "";
      request := Some(UploadRequest(file.value, summaryLength));
    }

    /** A click on the "Summarize Now" button: a disabled button ignores the
        click; an enabled one runs `handleSummarize`, which then always sends
        a request. */
    method ClickSummarize() returns (request: Option<UploadRequest>)
      requires Valid()
      modifies this
      ensures Valid()
      ensures request.Some? <==> !old(ButtonDisabled())
      ensures old(ButtonDisabled()) ==>
                file == old(file) && fileName == old(fileName) && summary == old(summary)
                && loading == old(loading) && error == old(error)
      ensures request.Some? ==>
                request.value == UploadRequest(old(file).value, old(summaryLength))
                && loading && error == "" && summary == ""
      ensures file == old(file) && fileName == old(fileName)
      ensures summaryLength == old(summaryLength) && isOpen == old(isOpen)
    {
      if ButtonDisabled() {
        return None;
      }
      request := StartSummarize();
    }

    /** The part of `handleSummarize` after the answer: the summary on
        success, the fixed error on any failure, and the loading state ends. */
    method CompleteSummarize(answer: Answer)
      requires Valid()
      modifies this
      ensures Valid()
      ensures !loading
      ensures answer.Delivered? ==> summary == answer.summary && error == old(error)
      ensures answer.RequestFailed? ==> error == RequestFailedError && summary == old(summary)
      ensures file == old(file) && fileName == old(fileName)
      ensures summaryLength == old(summaryLength) && isOpen == old(isOpen)
    {
      match answer {
        case Delivered(s) =>
          summary := s;
        case RequestFailed =>
          error := RequestFailedError;
      }
      loading := false;
    }

    /** `handleRemoveFile`: back to no file, no summary and no error. */
    method RemoveFile()
      requires Valid()
      modifies this
      ensures Valid()
      ensures file == None && fileName == "" && summary == "" && error == ""
      ensures summaryLength == old(summaryLength) && loading == old(loading) && isOpen == old(isOpen)
    {
      file := None;
      fileName := "";
      summary := "";
      error := "";
    }

    /** The "Delete Summary" button: only the summary is cleared. */
    method DeleteSummary()
      requires Valid()
      modifies this
      ensures Valid()
      ensures summary == ""
      ensures file == old(file) && fileName == old(fileName) && summaryLength == old(summaryLength)
      ensures loading == old(loading) && error == old(error) && isOpen == old(isOpen)
    {
      summary := "";
    }

    /** The drop-down button: opens or closes the list of options. */
    method ToggleOptions()
      requires Valid()
      modifies this
      ensures Valid()
      ensures isOpen == !old(isOpen)
      ensures file == old(file) && fileName == old(fileName) && summary == old(summary)
      ensures summaryLength == old(summaryLength) && loading == old(loading) && error == old(error)
    {
      isOpen := !isOpen;
    }

    /** Picking an entry of the list: the length becomes that option and the
        list closes. */
    method SelectLength(option: string)
      requires Valid()
      requires option in Options
      modifies this
      ensures Valid()
      ensures summaryLength == option && !isOpen
      ensures file == old(file) && fileName == old(fileName) && summary == old(summary)
      ensures loading == old(loading) && error == old(error)
    {
      summaryLength := option;
      isOpen := false;
    }
  }

  /** Selecting a new file while a summary is shown clears the summary and
      the error before the next request: the request then carries that file. */
  method NewFileBeforeRequest(s: Session, f: FileRef) returns (request: Option<UploadRequest>)
    requires s.Valid()
    modifies s
    ensures s.Valid()
    ensures request == Some(UploadRequest(f, old(s.summaryLength)))
    ensures s.loading && s.summary == "" && s.error == "" && s.file == Some(f)
  {
    s.OnDrop([f]);
    assert s.summary == "" && s.error == "";
    request := s.StartSummarize();
  }
}
