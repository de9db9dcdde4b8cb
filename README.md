# SummarMuse core, modelled in Dafny

SummarMuse lets a user upload a PDF or an image and get back a summary. The
summary's length is adjustable, and key phrases are marked with `*`. This
project models the sequential logic of the system and proves properties of it:

- `emphasis.dfy`, module `Emphasis`: the client's emphasis renderer (`ImpText`).
  The text is split on `*`. Odd-indexed fragments are emphasized and the others
  are plain. The split is proved to be the exact inverse of joining with `*`.
- `session.dfy`, module `ClientSession`: the page state of `App` as a class.
  Its fields are `file`, `fileName`, `summary`, `summaryLength`, `loading`,
  `error` and the drop-down flag `isOpen`. There is one method per handler, and
  `handleSummarize` is split into its start and completion steps. The pure parts
  are the button guard, the length labels and the download choice. The class
  invariant holds three facts:
  - the length is one of the options;
  - the shown file name is the selected file's name;
  - no summary is shown while a request is in flight.
- `extractor.dfy`, module `TextExtractor`: `extractTextFromFile`. It dispatches
  on the media type and maps each library outcome to a resolve or a reject.
- `controller.dfy`, module `SummarizeController`: `processDocument` and
  `getAiSummary`. The express response object is a class. The handler keeps a
  ghost log of its effects: the extraction run, the AI request, the response
  and the unlink of the temporary file. The method is proved against the pure
  functions `ReplyTo` and `Trace`, whose contracts give the 400/200/500 rules,
  the order of effects and the single unlink.
- `js.dfy`, modules `Wrappers` and `Js`: `Option`, the JavaScript `Error` value
  and `String.prototype.trim`.
- `endpoint.dfy`, module `Endpoint`: the two ends joined. It covers what the
  client makes of each server reply and one full click-to-display round trip.

Conventions:
- A falsy string (`""`, and also a missing message) is the empty string.
- A missing `summaryLength` form field is `None`. The template literal prints
  it as `undefined`.
- The PDF parser, the OCR engine and the AI service are inputs. Each is given
  as the outcome the library would produce, and the model records which
  library was invoked, on which path and with which language.

Three behaviours of the code that the model keeps:
- The server does not validate the length word. Any string, or `undefined`,
  goes into the prompt.
- The server does not require non-empty extracted text before calling the AI
  service.
- The extractor does not wrap library errors in a new error. A parser `dataError`
  becomes the fixed message `Error parsing PDF file.`, and an OCR or set-up
  failure is rejected with the library's own error.

## Model

| member | source | states |
|---|---|---|
| Emphasis.Split | client/src/ImpText.jsx:6 | the number of fragments is the number of `*` plus one, and no fragment contains `*` |
| Emphasis.JoinSplit | client/src/ImpText.jsx:6 | joining the fragments with `*` gives back the original text exactly |
| Emphasis.SplitJoin | client/src/ImpText.jsx:6 | splitting `*`-free fragments joined by `*` gives back those fragments, so split is the inverse of join |
| Emphasis.ConcatSplit | client/src/ImpText.jsx:6 | concatenating the fragments is the text with every `*` removed |
| Emphasis.Render | client/src/ImpText.jsx:3-21 | empty text renders nothing; otherwise there are count(`*`)+1 spans, span i is emphasized iff i is odd, and no span contains `*` |
| Emphasis.RenderRoundTrip | client/src/ImpText.jsx:6-18 | the span texts are the split fragments in order, and joined with `*` they give back the text |
| Emphasis.RenderShowsTextWithoutDelimiters | client/src/ImpText.jsx:6-18 | the concatenated span texts are the text without its `*` characters |
| Emphasis.TrailingEmphasisParity | client/src/ImpText.jsx:6-11 | the last span is emphasized iff the number of `*` is odd |
| Emphasis.BalancedExample | client/src/ImpText.jsx:6-18 | `A *B* C *D* E` renders as plain, strong, plain, strong, plain with the expected texts |
| Emphasis.UnclosedExample | client/src/ImpText.jsx:6-18 | `A *B* C *D` emphasizes the unclosed trailing `D` |
| ClientSession.LengthLabel | client/src/App.jsx:254-258 | "short" maps to Short Summary, "medium" to Medium Summary, and every other value to Long Summary |
| ClientSession.LabelsDistinguishOptions | client/src/App.jsx:289-293 | the three options of the drop-down get three different labels |
| ClientSession.DownloadOf | client/src/App.jsx:306-322 | nothing for an empty summary or an unknown type; otherwise the raw summary under `summary.txt` (text/plain) or `summary.pdf` (application/pdf) |
| ClientSession.Session.constructor | client/src/App.jsx:19-24 | the initial state has no file, empty name, summary and error, length "medium" and not loading |
| ClientSession.Session.OnDrop | client/src/App.jsx:26-33 | a non-empty drop selects the first file, sets its name and clears error and summary; an empty drop changes nothing |
| ClientSession.Session.StartSummarize | client/src/App.jsx:45-56 | with no file only the error is set to "Please upload a file first."; with a file, loading starts, error and summary are cleared, and the request carries the current file and length |
| ClientSession.Session.ClickSummarize | client/src/App.jsx:219-221 | the guard `SummarizeDisabled`/`ButtonDisabled`: the button is disabled exactly when loading or no file is selected; a disabled click changes nothing, an enabled click sends a request, and the selection is kept either way |
| ClientSession.Session.CompleteSummarize | client/src/App.jsx:58-72 | on success the summary is the response's summary; on failure the error is the fixed generic message; loading ends in both cases |
| ClientSession.Session.RemoveFile | client/src/App.jsx:75-80 | file, name, summary and error are cleared, and the length is unchanged |
| ClientSession.Session.DeleteSummary | client/src/App.jsx:233-235 | only the summary is cleared |
| ClientSession.Session.ToggleOptions | client/src/App.jsx:247-248 | only the drop-down's open flag flips |
| ClientSession.Session.SelectLength | client/src/App.jsx:276-281 | the length becomes the chosen option and the list closes, so the length stays one of short, medium and long |
| ClientSession.NewFileBeforeRequest | client/src/App.jsx:26-56 | dropping a new file clears the old summary and error before the next request, and that request carries the new file |
| TextExtractor.Dispatch | server/src/services/textExtractor.js:8-28 | PDF iff the type is exactly `application/pdf`; image iff it is not that and starts with `image/`; unsupported otherwise |
| TextExtractor.Extract | server/src/services/textExtractor.js:5-33 | PDF invokes the parser on the path (ready resolves with the raw text, a data error rejects with "Error parsing PDF file.", a throw rejects with that error); image invokes OCR with `eng` (its text resolves, its error rejects); unsupported invokes no library and rejects with "Unsupported file type." |
| TextExtractor.ClientTypesAreSupported | server/src/services/textExtractor.js:8-23 | the three media types the drop zone lists (pdf, png, jpeg) reach a library |
| TextExtractor.DispatchIsExact | server/src/services/textExtractor.js:8-23 | the comparisons are exact: a PDF type with parameters and an upper-case image type are unsupported |
| TextExtractor.RejectionMessages | server/src/services/textExtractor.js:11-31 | a rejection carries one of the two fixed messages or the error a library raised |
| Js.LeadingWhitespace | server/src/controllers/summarizeController.js:17 | counts exactly the whitespace characters before the first non-whitespace one |
| Js.TrimEnd | server/src/controllers/summarizeController.js:17 | a prefix of the input with only whitespace dropped, not ending in whitespace |
| Js.Trim | server/src/controllers/summarizeController.js:17 | a substring of the input with only whitespace dropped on both sides, neither starting nor ending with whitespace |
| Js.TrimIdempotent | server/src/controllers/summarizeController.js:17 | trimming twice is trimming once |
| SummarizeController.LengthText | server/src/controllers/summarizeController.js:12-31 | the length field is printed as is, or as `undefined` when missing |
| SummarizeController.BuildPrompt | server/src/controllers/summarizeController.js:12 | the prompt embeds the length word and the text verbatim, between fixed instruction texts |
| SummarizeController.PromptIsInjective | server/src/controllers/summarizeController.js:12 | for a fixed text the prompt determines the length word, and for a fixed length word it determines the text |
| SummarizeController.PromptsDifferOnlyInLength | server/src/controllers/summarizeController.js:12 | two prompts for the same text agree before and after the embedded length word |
| SummarizeController.GetAiSummary | server/src/controllers/summarizeController.js:11-22 | success gives the trimmed generated text; any service failure gives the one message "Failed to generate summary from AI service." |
| SummarizeController.ErrorMessage | server/src/controllers/summarizeController.js:36 | the error's own message when non-empty, otherwise "Failed to process document."; never empty |
| SummarizeController.ReplyTo | server/src/controllers/summarizeController.js:24-36 | 400 with "No file uploaded." iff there is no file; 200 with the trimmed AI text iff extraction resolved and the AI succeeded; otherwise 500 with a non-empty message: the AI message when extraction succeeded, and the extraction error's message (or "Failed to process document." when it has none) when extraction rejected |
| SummarizeController.Trace | server/src/controllers/summarizeController.js:24-39 | no file: only the 400 response. With a file: extraction first, the AI request (built from the extracted text and length) only if extraction resolved, then the response, then exactly one unlink of the path, so four effects when extraction resolved and three otherwise |
| SummarizeController.Response.Status | server/src/controllers/summarizeController.js:26-36 | sets the status code and leaves the body alone |
| SummarizeController.Response.Json | server/src/controllers/summarizeController.js:26-36 | sends the body once and leaves the status alone (default 200) |
| SummarizeController.Handler.Send | server/src/controllers/summarizeController.js:26-36 | the response gets its status and body, and the log records the response |
| SummarizeController.Handler.ProcessDocument | server/src/controllers/summarizeController.js:24-40 | the response is `ReplyTo` of the request and the outcomes, and the log grows by exactly `Trace` of them |
| SummarizeController.NoFileNoEffects | server/src/controllers/summarizeController.js:25-27 | without a file there is no extraction, no AI request and no unlink |
| SummarizeController.UnsupportedTypeReply | server/src/controllers/summarizeController.js:29-39 | an unsupported type gets 500 "Unsupported file type." with no library or AI call, and the file is still unlinked |
| Endpoint.AnswerFor | client/src/App.jsx:58-69 | every 2xx reply is delivered, with its summary, or the empty string when the body has none; every other status is a request failure |
| Endpoint.ClientSeesSummaryOrGenericFailure | client/src/App.jsx:58-69 | whatever the server's error, the client sees a generic failure; a delivered summary is always the trimmed AI text |
| Endpoint.RoundTrip | client/src/App.jsx:45-72 | one click with a file selected, handled by the server: the page shows the trimmed AI text on 200 or the generic error otherwise, loading ends, and the file is unlinked once |

## Left out

- Rendering is left out: JSX, styling, animation, `Header`, `FileDropzoneContent`
  and `ShootingStars`. These are presentation only, and the stars use random
  floating-point positions.
- The HTTP transport is left out: the request body (`FormData`) and axios.
  The request is a value returned by `StartSummarize`, and the answer is a value
  passed to `CompleteSummarize`.
- The browser download is left out: `Blob`, `URL.createObjectURL` and the link
  click. Only the guard, the file name, the MIME label and the content are
  modelled.
- The PDF parser, the OCR engine and the AI client are foreign libraries, so
  their results are inputs.
- The model assumes the PDF parser emits exactly one event or throws while it is
  set up. If the parser never emits, the request is never answered and the file
  is never deleted. If it emits both events, only the first one settles the
  promise.
- `fs.unlinkSync` is a ghost log entry. A deletion that throws after the
  response is not modelled.
- The express, cors and multer wiring is left out, and so is `listen`. The rule
  of one file per request comes from the upload middleware and is taken as
  given.
- Concurrency is left out: asynchronous interleavings and requests from several
  clients at once. Each handler run, and each half of `handleSummarize`, is one
  atomic step. A React closure that sees a stale `file` or `summaryLength`
  during an in-flight request is not represented.
- Logging to the console and environment configuration are left out.
