/** GET /api/report: the wellness report with the " - " separator, written by a document
    that opens no page on its own (SafePDFDocument forces autoFirstPage off). After
    piping, the font file is checked, registered, the first page added, and only then
    the font selected; the buffering promise rejects on a stream error. */
module ReportRoute {
  import opened Base
  import opened Rows
  import opened PdfWriter
  import opened PdfStream
  import opened Http
  import Wellness

  const SEPARATOR := " - "
  const FONT_NAME := "RobotoMono"
  const HEADERS: seq<(string, string)> := [
    ("Content-Type", "application/pdf"),
    ("Content-Disposition", "attachment; filename=wellness_report.pdf")]

  function FontMissing(fontPath: string): Error {
    Error(Some("Font file not found at " + fontPath))
  }

  /** `new SafePDFDocument(options)`: the caller's options with autoFirstPage forced to
      false. */
  method NewSafeDocument(margin: nat) returns (doc: Writer)
    ensures fresh(doc)
    ensures doc.margin == margin && doc.compress
    ensures doc.pages == 0 && doc.blocks == []
    ensures doc.size == DEFAULT_SIZE && doc.color == Black && doc.font == Builtin && doc.registered == map[]
    ensures !doc.piped && !doc.ended
  {
    doc := new Writer(margin, true, false);
  }

  /** The response for a query result, the library's fault, the font check and the
      stream's events. Creating and piping the document come before the font check;
      registering the font, adding the page and writing come after it. */
  function Respond(q: Query<Entry>, fault: Fault, fontPath: string, fontExists: bool, events: seq<StreamEvent>): Response {
    match q
    case QueryFailed(e) => ServerError(e)
    case Fetched(d) =>
      if d.None? || |d.value| == 0 then NOT_FOUND
      else if fault.FailsAtOpen? then ServerError(fault.err)
      else if !fontExists then ServerError(FontMissing(fontPath))
      else if fault.FailsLater? then ServerError(fault.err)
      else match Drain(events, true)
           case Resolved(buf) => PdfResponse(buf, HEADERS)
           case Rejected(e) => ServerError(e)
           case Pending => NoResponse
  }

  method Get(q: Query<Entry>, fault: Fault, fontPath: string, fontExists: bool, now: Instant, events: seq<StreamEvent>)
    returns (resp: Response, doc: Writer?)
    ensures resp == Respond(q, fault, fontPath, fontExists, events)
    ensures doc == null <==>
              (q.QueryFailed? || q.data.None? || |q.data.value| == 0 ||
               fault.FailsAtOpen? || (fontExists && fault.FailsLater?))
    ensures doc != null && !fontExists ==>
              doc.blocks == [] && doc.pages == 0 && doc.piped && !doc.ended
    ensures doc != null && fontExists ==>
              && doc.blocks == [PageBreak({FONT_NAME})] + Wellness.Document(q.data.value, SEPARATOR, now, Registered(FONT_NAME))
              && doc.registered == map[FONT_NAME := fontPath]
              && doc.pages == 1 && doc.piped && doc.ended && doc.margin == 50
  {
    if q.QueryFailed? {
      return ServerError(q.err), null;
    }
    if q.data.None? || |q.data.value| == 0 {
      return NOT_FOUND, null;
    }
    if fault.FailsAtOpen? {
      return ServerError(fault.err), null;
    }
    var rows := q.data.value;
    doc := NewSafeDocument(50);
    doc.Pipe();
    if !fontExists {
      return ServerError(FontMissing(fontPath)), doc;
    }
    if fault.FailsLater? {
      return ServerError(fault.err), null;
    }
    doc.RegisterFont(FONT_NAME, fontPath);
    assert doc.registered.Keys == {FONT_NAME};
    doc.AddPage();
    doc.UseFont(Registered(FONT_NAME));
    Wellness.Render(doc, Wellness.Summarize(rows), rows, SEPARATOR, now);
    var drained := Buffer(events, true);
    match drained {
      case Resolved(buf) => resp := PdfResponse(buf, HEADERS);
      case Rejected(e) => resp := ServerError(e);
      case Pending => resp := NoResponse;
    }
  }

  // ---------------------------------------------------------------------------

  lemma NoDataIsNotFound(d: Option<seq<Entry>>, fault: Fault, fontPath: string, fontExists: bool, events: seq<StreamEvent>)
    requires d.None? || d == Some([])
    ensures Respond(Fetched(d), fault, fontPath, fontExists, events) == JsonResponse(404, MessageBody("No data available"))
  {
  }

  /** A query error gives 500 with its message; with data, a throw while the document is
      created or piped, a missing font or a throw from a later library call gives 500
      with that error's message, and never a PDF. */
  lemma ErrorsGive500(q: Query<Entry>, fault: Fault, fontPath: string, fontExists: bool, events: seq<StreamEvent>)
    ensures q.QueryFailed? ==> Respond(q, fault, fontPath, fontExists, events) == JsonResponse(500, ErrorBody(q.err.message))
    ensures q.Fetched? && q.data.Some? && |q.data.value| > 0 ==>
              && (fault.FailsAtOpen? ==>
                    Respond(q, fault, fontPath, fontExists, events) == JsonResponse(500, ErrorBody(fault.err.message)))
              && (!fault.FailsAtOpen? && !fontExists ==>
                    Respond(q, fault, fontPath, fontExists, events) == JsonResponse(500, ErrorBody(Some("Font file not found at " + fontPath))))
              && (fault.FailsLater? && fontExists ==>
                    Respond(q, fault, fontPath, fontExists, events) == JsonResponse(500, ErrorBody(fault.err.message)))
  {
  }

  /** A stream error before 'end' rejects the promise: 500 with the stream's error and
      never a partial PDF. */
  lemma StreamErrorGives500(rows: seq<Entry>, fontPath: string, data: seq<StreamEvent>, e: Error, rest: seq<StreamEvent>)
    requires |rows| > 0 && AllData(data)
    ensures Respond(Fetched(Some(rows)), NoFault, fontPath, true, data + [ErrorEvent(e)] + rest) == JsonResponse(500, ErrorBody(e.message))
  {
    ErrorBeforeEndGivesNoBuffer(data, e, rest, true);
  }

  lemma SuccessIsConcatenatedPdf(rows: seq<Entry>, fontPath: string, data: seq<StreamEvent>, rest: seq<StreamEvent>)
    requires |rows| > 0 && AllData(data)
    ensures Respond(Fetched(Some(rows)), NoFault, fontPath, true, data + [EndEvent] + rest) == PdfResponse(Concat(Chunks(data)), HEADERS)
  {
    ResolvesWithAllChunks(data, rest, true);
  }
}
