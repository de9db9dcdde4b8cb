/** The text extractor of the server (`extractTextFromFile`): the declared media
    type of the uploaded file chooses between the PDF parser, the OCR engine and
    a rejection. The libraries themselves are not modelled: what they would
    produce for the file is given as an input, and the model records which of
    them is invoked, on which path and with which settings. */
module TextExtractor {
  import Js

  const PdfMimeType: string := "application/pdf"
  const ImagePrefix: string := "image/"
  const OcrLanguage: string := "eng"
  const PdfParseErrorMessage: string := "Error parsing PDF file."
  const UnsupportedMessage: string := "Unsupported file type."

  /** The file as the upload middleware stores it: temporary path and declared media type. */
  datatype UploadedFile = UploadedFile(path: string, mimetype: string, originalName: string)

  /** Which branch of the dispatch a media type selects. */
  datatype Branch = PdfBranch | ImageBranch | UnsupportedBranch

  /** A library call the extractor makes on the file, if any. */
  datatype Library = PdfParser(path: string) | Ocr(path: string, language: string) | NoLibrary

  /** What the PDF parser does with the file: it emits `pdfParser_dataReady`
      (the raw text is then read back), it emits `pdfParser_dataError`, or
      setting it up throws before any event. */
  datatype PdfOutcome = DataReady(rawText: string) | DataError(parserError: string) | PdfThrew(error: Js.Error)

  /** What the OCR engine does with the file: it recognizes text, or it fails. */
  datatype OcrOutcome = Recognized(text: string) | OcrFailed(error: Js.Error)

  /** How the promise returned by the extractor settles. */
  datatype Settled = Resolved(text: string) | Rejected(error: Js.Error)

  /** One run of the extractor: the library it invoked and how it settled. */
  datatype Extraction = Extraction(invoked: Library, settled: Settled)

  /** The branch choice: the exact type `application/pdf`, then any type with
      the prefix `image/`, otherwise unsupported. */
  function Dispatch(mimetype: string): (b: Branch)
    ensures b == PdfBranch <==> mimetype == PdfMimeType
    ensures b == ImageBranch <==> mimetype != PdfMimeType && ImagePrefix <= mimetype
    ensures b == UnsupportedBranch <==> mimetype != PdfMimeType && !(ImagePrefix <= mimetype)
  {
    if mimetype == PdfMimeType then PdfBranch
    else if ImagePrefix <= mimetype then ImageBranch
    else UnsupportedBranch
  }

  /** `extractTextFromFile(file)`, given what each library would do with it. */
  function Extract(file: UploadedFile, pdf: PdfOutcome, ocr: OcrOutcome): (r: Extraction)
    ensures r.invoked == PdfParser(file.path) <==> file.mimetype == PdfMimeType
    ensures r.invoked == Ocr(file.path, OcrLanguage) <==> file.mimetype != PdfMimeType && ImagePrefix <= file.mimetype
    ensures r.invoked == NoLibrary <==> Dispatch(file.mimetype) == UnsupportedBranch
    ensures r.settled.Resolved? <==> (r.invoked.PdfParser? && pdf.DataReady?) || (r.invoked.Ocr? && ocr.Recognized?)
    ensures r.settled.Resolved? ==> r.settled.text == if r.invoked.PdfParser? then pdf.rawText else ocr.text
    ensures r.invoked == NoLibrary ==> r.settled == Rejected(Js.Error(UnsupportedMessage))
    ensures r.invoked.PdfParser? && pdf.DataError? ==> r.settled == Rejected(Js.Error(PdfParseErrorMessage))
    ensures r.invoked.PdfParser? && pdf.PdfThrew? ==> r.settled == Rejected(pdf.error)
    ensures r.invoked.Ocr? && ocr.OcrFailed? ==> r.settled == Rejected(ocr.error)
  {
    match Dispatch(file.mimetype)
    case PdfBranch =>
      var settled :=
        match pdf
        case DataReady(raw) => Resolved(raw)
        case DataError(_) => Rejected(Js.Error(PdfParseErrorMessage))
        case PdfThrew(e) => Rejected(e);
      Extraction(PdfParser(file.path), settled)
    case ImageBranch =>
      var settled :=
        match ocr
        case Recognized(text) => Resolved(text)
        case OcrFailed(e) => Rejected(e);
      Extraction(Ocr(file.path, OcrLanguage), settled)
    case UnsupportedBranch =>
      Extraction(NoLibrary, Rejected(Js.Error(UnsupportedMessage)))
  }

  /** The three media types the client's drop zone lists (it also accepts
      files by extension, whatever media type they are then sent with). */
  const ClientAcceptedTypes: seq<string> := ["application/pdf", "image/png", "image/jpeg"]

  /** The three media types the drop zone lists all reach a library. */
  lemma ClientTypesAreSupported()
    ensures forall m :: m in ClientAcceptedTypes ==> Dispatch(m) != UnsupportedBranch
    ensures Dispatch("image/png") == ImageBranch && Dispatch("image/jpeg") == ImageBranch
  {
    assert ImagePrefix <= "image/png";
    assert ImagePrefix <= "image/jpeg";
  }

  /** The PDF test is an exact comparison: a PDF type carrying parameters is
      not recognized, and neither is an image type with a different case. */
  lemma DispatchIsExact()
    ensures Dispatch("application/pdf; charset=binary") == UnsupportedBranch
    ensures Dispatch("IMAGE/PNG") == UnsupportedBranch
  {
    assert "application/pdf; charset=binary" != PdfMimeType;
    assert !(ImagePrefix <= "application/pdf; charset=binary") by {
      assert "application/pdf; charset=binary"[0] != ImagePrefix[0];
    }
    assert !(ImagePrefix <= "IMAGE/PNG") by {
      assert "IMAGE/PNG"[0] != ImagePrefix[0];
    }
  }

  /** A rejection always carries a message that is one of the two fixed ones,
      or the error a library raised. */
  lemma RejectionMessages(file: UploadedFile, pdf: PdfOutcome, ocr: OcrOutcome)
    requires Extract(file, pdf, ocr).settled.Rejected?
    ensures var e := Extract(file, pdf, ocr).settled.error;
            e == Js.Error(UnsupportedMessage) || e == Js.Error(PdfParseErrorMessage)
            || (pdf.PdfThrew? && e == pdf.error) || (ocr.OcrFailed? && e == ocr.error)
  {
  }
}
