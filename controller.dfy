/** The upload handler of the server (`processDocument`) and the summary
    requester (`getAiSummary`). One run of the handler is one atomic sequential
    step: it answers 400 when no file was uploaded; otherwise it extracts the
    text, builds the prompt, asks the AI service, answers 200 with the trimmed
    summary or 500 with an error message, and in every case then deletes the
    temporary file. The AI service is not modelled: what it would return for
    the prompt is an input. */
module SummarizeController {
  import opened Wrappers
  import Js
  import TextExtractor

  const NoFileMessage: string := "No file uploaded."
  const AiFailureMessage: string := "Failed to generate summary from AI service."
  const FallbackMessage: string := "Failed to process document."

  const PromptHead: string := "Summarize the following text in a "
  const PromptMiddle: string := " format. Identify the key points and main ideas, and wrap the most important phrases or sentences in asterisks (*like this*). Do not use any other markdown. Text: \""
  const PromptTail: string := "\""

  /** The request as the handler sees it: the single uploaded file, if any, and
      the `summaryLength` field of the form, if present. */
  datatype Request = Request(file: Option<TextExtractor.UploadedFile>, summaryLength: Option<string>)

  /** What the AI service does with a prompt: it generates text, or it fails
      (network, authentication or API error). */
  datatype AiOutcome = Generated(text: string) | ServiceFailed(detail: string)

  /** The JSON body of a response. */
  datatype Body = SummaryBody(summary: string) | ErrorBody(error: string)

  /** A complete response: status code and JSON body. */
  datatype Reply = Reply(status: int, body: Body)

  /** The effects of one handler run, in order. */
  datatype Event =
    | ExtractionRun(library: TextExtractor.Library)
    | AiRequested(prompt: string)
    | Responded(status: int)
    | Unlinked(path: string)

  /** A settled asynchronous step: a value or a thrown error. */
  datatype Outcome<T> = Ok(value: T) | Thrown(error: Js.Error)

  /** What a template literal prints for the `summaryLength` field: the string
      itself, or `undefined` when the field is missing. */
  function LengthText(summaryLength: Option<string>): (t: string)
    ensures summaryLength.Some? ==> t == summaryLength.value
    ensures summaryLength.None? ==> t == "undefined"
  {
    match summaryLength
    case Some(s) => s
    case None => "undefined"
  }

  /** The prompt sent to the AI service. It embeds the length word and the
      text verbatim, at positions fixed by the length word alone. */
  function BuildPrompt(text: string, length: string): (p: string)
    ensures |p| == |PromptHead| + |length| + |PromptMiddle| + |text| + |PromptTail|
    ensures p[..|PromptHead|] == PromptHead
    ensures p[|PromptHead|..|PromptHead| + |length|] == length
    ensures p[|PromptHead| + |length|..] == PromptMiddle + text + PromptTail
    ensures p[|p| - |PromptTail| - |text|..|p| - |PromptTail|] == text
    ensures p[|p| - |PromptTail|..] == PromptTail
  {
    FiveParts(PromptHead, length, PromptMiddle, text, PromptTail);
    PromptHead + length + PromptMiddle + text + PromptTail
  }

  /** Where each part of a five-part concatenation sits. */
  lemma FiveParts(a: string, b: string, c: string, d: string, e: string)
    ensures var p := a + b + c + d + e;
            p[..|a|] == a && p[|a|..|a| + |b|] == b && p[|a| + |b|..] == c + d + e
            && p[|p| - |e| - |d|..|p| - |e|] == d && p[|p| - |e|..] == e
  {
    var p := a + b + c + d + e;
    assert p == (a + b) + (c + d + e);
    assert p == (a + b + c) + d + e;
  }

  /** Different length words give different prompts for the same text, and
      different texts give different prompts for the same length word. */
  lemma PromptIsInjective(t1: string, l1: string, t2: string, l2: string)
    requires BuildPrompt(t1, l1) == BuildPrompt(t2, l2)
    requires |l1| == |l2| || t1 == t2
    ensures l1 == l2 && t1 == t2
  {
    var p := BuildPrompt(t1, l1);
    assert |l1| == |l2|;
    assert l1 == p[|PromptHead|..|PromptHead| + |l1|];
    assert |t1| == |t2|;
  }

  /** Two prompts for the same text differ only in the embedded length word:
      they share everything before it and everything after it. */
  lemma PromptsDifferOnlyInLength(text: string, l1: string, l2: string)
    ensures BuildPrompt(text, l1)[..|PromptHead|] == BuildPrompt(text, l2)[..|PromptHead|]
    ensures BuildPrompt(text, l1)[|PromptHead| + |l1|..] == BuildPrompt(text, l2)[|PromptHead| + |l2|..]
  {
  }

  /** `getAiSummary`: the trimmed generated text, or one fixed error whatever
      the service reported. */
  function GetAiSummary(ai: AiOutcome): (r: Outcome<string>)
    ensures r.Ok? <==> ai.Generated?
    ensures r.Ok? ==> r.value == Js.Trim(ai.text)
    ensures r.Thrown? ==> r.error == Js.Error(AiFailureMessage)
  {
    match ai
    case Generated(text) => Ok(Js.Trim(text))
    case ServiceFailed(_) => Thrown(Js.Error(AiFailureMessage))
  }

  /** The message of the 500 response: the error's own message when it is
      truthy, the fixed fallback otherwise. Never empty. */
  function ErrorMessage(e: Js.Error): (m: string)
    ensures m != []
    ensures e.message != [] ==> m == e.message
    ensures e.message == [] ==> m == FallbackMessage
  {
    if e.message != [] then e.message else FallbackMessage
  }

  /** The response the handler sends for a request, given what the extractor
      libraries and the AI service do. */
  function ReplyTo(req: Request, pdf: TextExtractor.PdfOutcome, ocr: TextExtractor.OcrOutcome, ai: AiOutcome): (r: Reply)
    ensures r.status in {200, 400, 500}
    ensures r.status == 400 <==> req.file.None?
    ensures req.file.None? ==> r.body == ErrorBody(NoFileMessage)
    ensures r.status == 200 <==>
              req.file.Some? && TextExtractor.Extract(req.file.value, pdf, ocr).settled.Resolved? && ai.Generated?
    ensures r.status == 200 ==> r.body == SummaryBody(Js.Trim(ai.text))
    ensures r.status == 500 ==> r.body.ErrorBody? && r.body.error != []
    ensures r.status == 500 && TextExtractor.Extract(req.file.value, pdf, ocr).settled.Resolved? ==>
              r.body == ErrorBody(AiFailureMessage)
    ensures req.file.Some? && TextExtractor.Extract(req.file.value, pdf, ocr).settled.Rejected? ==>
              r == Reply(500, ErrorBody(ErrorMessage(TextExtractor.Extract(req.file.value, pdf, ocr).settled.error)))
  {
    match req.file
    case None => Reply(400, ErrorBody(NoFileMessage))
    case Some(file) =>
      match TextExtractor.Extract(file, pdf, ocr).settled
      case Rejected(e) => Reply(500, ErrorBody(ErrorMessage(e)))
      case Resolved(text) =>
        match GetAiSummary(ai)
        case Ok(summary) => Reply(200, SummaryBody(summary))
        case Thrown(e) => Reply(500, ErrorBody(ErrorMessage(e)))
  }

  /** How many times `path` is unlinked in a trace. */
  function UnlinkCount(trace: seq<Event>, path: string): nat
  {
    if trace == [] then 0
    else (if trace[0] == Unlinked(path) then 1 else 0) + UnlinkCount(trace[1..], path)
  }

  /** Whether a trace asks the AI service for anything. */
  predicate CallsAi(trace: seq<Event>)
  {
    exists i :: 0 <= i < |trace| && trace[i].AiRequested?
  }

  /** The effects of one handler run, in order. */
  function Trace(req: Request, pdf: TextExtractor.PdfOutcome, ocr: TextExtractor.OcrOutcome, ai: AiOutcome): (t: seq<Event>)
    ensures req.file.None? ==> t == [Responded(400)]
    ensures req.file.Some? ==>
              |t| >= 3 && t[0] == ExtractionRun(TextExtractor.Extract(req.file.value, pdf, ocr).invoked)
              && t[|t| - 2] == Responded(ReplyTo(req, pdf, ocr, ai).status) && t[|t| - 1] == Unlinked(req.file.value.path)
    ensures req.file.Some? ==> |t| == if TextExtractor.Extract(req.file.value, pdf, ocr).settled.Resolved? then 4 else 3
    ensures req.file.Some? ==> UnlinkCount(t, req.file.value.path) == 1
    ensures CallsAi(t) <==> req.file.Some? && TextExtractor.Extract(req.file.value, pdf, ocr).settled.Resolved?
    ensures forall i :: 0 <= i < |t| && t[i].AiRequested? ==>
              i == 1 && t[i].prompt == BuildPrompt(TextExtractor.Extract(req.file.value, pdf, ocr).settled.text, LengthText(req.summaryLength))
  {
    match req.file
    case None => [Responded(400)]
    case Some(file) =>
      var x := TextExtractor.Extract(file, pdf, ocr);
      var reply := ReplyTo(req, pdf, ocr, ai);
      var asked := if x.settled.Resolved? then [AiRequested(BuildPrompt(x.settled.text, LengthText(req.summaryLength)))] else [];
      var head := [ExtractionRun(x.invoked)] + asked;
      var tail := [Responded(reply.status), Unlinked(file.path)];
      assert UnlinkCount(asked, file.path) == 0 by {
        if asked != [] { assert asked[1..] == []; }
      }
      assert UnlinkCount(head, file.path) == 0 by {
        assert head[1..] == asked;
      }
      assert UnlinkCount(tail, file.path) == 1 by {
        assert tail[1..] == [Unlinked(file.path)];
        assert tail[1..][1..] == [];
      }
      UnlinkCountConcat(head, tail, file.path);
      assert x.settled.Resolved? ==> (head + tail)[1].AiRequested?;
      head + tail
  }

  /** Unlinks of two traces run one after the other add up. */
  lemma {:induction false} UnlinkCountConcat(a: seq<Event>, b: seq<Event>, path: string)
    ensures UnlinkCount(a + b, path) == UnlinkCount(a, path) + UnlinkCount(b, path)
  {
    if a != [] {
      UnlinkCountConcat(a[1..], b, path);
      assert (a + b)[1..] == a[1..] + b;
    } else {
      assert a + b == b;
    }
  }

  /** The response object of one request, written once by `status(...).json(...)`
      or by `json(...)` alone (status then stays at 200). */
  class Response {
    var statusCode: int
    var body: Option<Body>

    constructor ()
      ensures statusCode == 200 && body == None
    {
      statusCode := 200;
      body := None;
    }

    method Status(code: int)
      modifies this
      ensures statusCode == code && body == old(body)
    {
      statusCode := code;
    }

    /** Sending a body twice is an error in the web framework, so the body must
        not have been sent yet. */
    method Json(b: Body)
      requires body == None
      modifies this
      ensures body == Some(b) && statusCode == old(statusCode)
    {
      body := Some(b);
    }
  }

  /** The server side of the endpoint, with a log of the effects of every
      handler run so far. */
  class Handler {
    ghost var log: seq<Event>

    constructor ()
      ensures log == []
    {
      log := [];
    }

    /** Sends a response and records that it was sent. */
    method Send(res: Response, status: int, b: Body)
      requires res.body == None
      modifies this, res
      ensures res.statusCode == status && res.body == Some(b)
      ensures log == old(log) + [Responded(status)]
    {
      res.Status(status);
      res.Json(b);
      log := log + [Responded(status)];
    }

    /** `processDocument(req, res)`: an early 400 when no file was uploaded;
        otherwise a try block (extract, then summarize, then respond 200), a
        catch block (respond 500) and a finally block (unlink the file). */
    method ProcessDocument(req: Request, res: Response,
                           pdf: TextExtractor.PdfOutcome, ocr: TextExtractor.OcrOutcome, ai: AiOutcome)
      requires res.body == None
      modifies this, res
      ensures res.statusCode == ReplyTo(req, pdf, ocr, ai).status
      ensures res.body == Some(ReplyTo(req, pdf, ocr, ai).body)
      ensures log == old(log) + Trace(req, pdf, ocr, ai)
    {
      if req.file.None? {
        Send(res, 400, ErrorBody(NoFileMessage));
        return;
      }
      var file := req.file.value;
      ghost var before := log;

      // try
      var failure: Option<Js.Error> := None;
      var x := TextExtractor.Extract(file, pdf, ocr);
      log := log + [ExtractionRun(x.invoked)];
      ghost var asked: seq<Event> := [];
      match x.settled {
        case Rejected(e) =>
          failure := Some(e);
        case Resolved(text) =>
          var prompt := BuildPrompt(text, LengthText(req.summaryLength));
          log := log + [AiRequested(prompt)];
          asked := [AiRequested(prompt)];
          var summary := GetAiSummary(ai);
          match summary {
            case Ok(s) =>
              Send(res, 200, SummaryBody(s));
            case Thrown(e) =>
              failure := Some(e);
          }
      }
      // catch
      if failure.Some? {
        Send(res, 500, ErrorBody(ErrorMessage(failure.value)));
      }
      // finally
      log := log + [Unlinked(file.path)];
      assert res.statusCode == ReplyTo(req, pdf, ocr, ai).status;
      assert log == before + ([ExtractionRun(x.invoked)] + asked + [Responded(res.statusCode), Unlinked(file.path)]);
    }
  }

  /** With no file the handler touches no library, no AI service and no file. */
  lemma NoFileNoEffects(req: Request, pdf: TextExtractor.PdfOutcome, ocr: TextExtractor.OcrOutcome, ai: AiOutcome)
    requires req.file.None?
    ensures !CallsAi(Trace(req, pdf, ocr, ai))
    ensures forall e :: e in Trace(req, pdf, ocr, ai) ==> !e.ExtractionRun? && !e.Unlinked?
  {
  }

  /** An unsupported media type is answered with 500 and its fixed message,
      without any library or AI call. */
  lemma UnsupportedTypeReply(req: Request, pdf: TextExtractor.PdfOutcome, ocr: TextExtractor.OcrOutcome, ai: AiOutcome)
    requires req.file.Some?
    requires TextExtractor.Dispatch(req.file.value.mimetype) == TextExtractor.UnsupportedBranch
    ensures ReplyTo(req, pdf, ocr, ai) == Reply(500, ErrorBody(TextExtractor.UnsupportedMessage))
    ensures Trace(req, pdf, ocr, ai)
         == [ExtractionRun(TextExtractor.NoLibrary), Responded(500), Unlinked(req.file.value.path)]
  {
  }
}
