/** The two ends of `POST /api/summarize` put together: what the client makes
    of the server's reply. The HTTP client resolves for every 2xx status and
    rejects for every other status, as for a network error. */
module Endpoint {
  import SummarizeController
  import ClientSession
  import TextExtractor
  import Js
  import opened Wrappers

  /** The client's view of a server reply. A 2xx body without a `summary`
      field yields `undefined`, which the page treats like the empty string. */
  function AnswerFor(reply: SummarizeController.Reply): (a: ClientSession.Answer)
    ensures a.Delivered? <==> 200 <= reply.status < 300
    ensures a.Delivered? && reply.body.SummaryBody? ==> a.summary == reply.body.summary
    ensures a.Delivered? && !reply.body.SummaryBody? ==> a.summary == ""
  {
    if 200 <= reply.status < 300 then
      ClientSession.Delivered(if reply.body.SummaryBody? then reply.body.summary else "")
    else ClientSession.RequestFailed
  }

  /** Whatever the server reports (no file, unsupported type, parser error,
      AI failure), the client shows its one generic failure, and a delivered
      summary is always the trimmed text of the AI service. */
  lemma ClientSeesSummaryOrGenericFailure(req: SummarizeController.Request, pdf: TextExtractor.PdfOutcome,
                                          ocr: TextExtractor.OcrOutcome, ai: SummarizeController.AiOutcome)
    ensures var a := AnswerFor(SummarizeController.ReplyTo(req, pdf, ocr, ai));
            (a.Delivered? <==> SummarizeController.ReplyTo(req, pdf, ocr, ai).status == 200)
            && (a.Delivered? ==> ai.Generated? && a.summary == Js.Trim(ai.text))
  {
  }

  /** One full round trip as the user experiences it: a session with a file
      clicks the button, the server handles the request, the client takes the
      answer. The summary shown is the server's reply, and loading has ended. */
  method RoundTrip(s: ClientSession.Session, h: SummarizeController.Handler, res: SummarizeController.Response,
                   path: string, pdf: TextExtractor.PdfOutcome, ocr: TextExtractor.OcrOutcome,
                   ai: SummarizeController.AiOutcome)
    requires s.Valid() && s.file.Some? && !s.loading
    requires res.body == None
    modifies s, h, res
    ensures s.Valid() && !s.loading
    ensures |old(h.log)| <= |h.log|
    ensures var upload := TextExtractor.UploadedFile(path, old(s.file).value.mimetype, old(s.file).value.name);
            var req := SummarizeController.Request(Some(upload), Some(old(s.summaryLength)));
            var reply := SummarizeController.ReplyTo(req, pdf, ocr, ai);
            (reply.status == 200 ==> s.summary == Js.Trim(ai.text) && s.error == "")
            && (reply.status != 200 ==> s.summary == "" && s.error == ClientSession.RequestFailedError)
            && UnlinkedOnce(h.log[|old(h.log)|..], path)
  {
    var request := s.ClickSummarize();
    var sent := request.value;
    var upload := TextExtractor.UploadedFile(path, sent.file.mimetype, sent.file.name);
    var req := SummarizeController.Request(Some(upload), Some(sent.summaryLength));
    h.ProcessDocument(req, res, pdf, ocr, ai);
    var reply := SummarizeController.Reply(res.statusCode, res.body.value);
    assert h.log[|old(h.log)|..] == SummarizeController.Trace(req, pdf, ocr, ai);
    s.CompleteSummarize(AnswerFor(reply));
  }

  /** The temporary file is unlinked exactly once in a handler run. */
  predicate UnlinkedOnce(trace: seq<SummarizeController.Event>, path: string)
  {
    SummarizeController.UnlinkCount(trace, path) == 1
  }
}
