/** GET /api/export: the wellness report with the " — " separator. The document is
    created with a first page before the font file is checked; the font is registered
    and selected on that page; the buffering promise has no 'error' listener. */
module ExportRoute {
  import opened Base
  import opened Rows
  import opened PdfWriter
  import opened PdfStream
  import opened Http
  import Wellness

  const SEPARATOR := " \U{2014} "
  const FONT_NAME := "RobotoMono"
  const HEADERS: seq<(string, string)> := [
    ("Content-Type", "application/pdf"),
    ("Content-Disposition", "attachment; filename=wellness_report.pdf")]

  function FontMissing(fontPath: string): Error {
    Error(Some("Font not found at " + fontPath))
  }

  /** The response for a query result, the library's fault, the font check and the
      stream's events. `fontPath` is the joined path of the font file; `fontExists` what
      the file system says about it. Creating the document comes before the font check;
      every other library call after it. */
  function Respond(q: Query<Entry>, fault: Fault, fontPath: string, fontExists: bool, events: seq<StreamEvent>): Response {
    match q
    case QueryFailed(e) => ServerError(e)
    case Fetched(d) =>
      if d.None? || |d.value| == 0 then NOT_FOUND
      else if fault.FailsAtOpen? then ServerError(fault.err)
      else if !fontExists then ServerError(FontMissing(fontPath))
      else if fault.FailsLater? then ServerError(fault.err)
      else match Drain(events, false)
           case Resolved(buf) => PdfResponse(buf, HEADERS)
           case _ => NoResponse
  }

  method Get(q: Query<Entry>, fault: Fault, fontPath: string, fontExists: bool, now: Instant, events: seq<StreamEvent>)
    returns (resp: Response, doc: Writer?)
    ensures resp == Respond(q, fault, fontPath, fontExists, events)
    ensures doc == null <==>
              (q.QueryFailed? || q.data.None? || |q.data.value| == 0 ||
               fault.FailsAtOpen? || (fontExists && fault.FailsLater?))
    ensures doc != null && !fontExists ==>
              doc.blocks == [PageBreak({})] && doc.registered == map[] && !doc.piped && !doc.ended
    ensures doc != null && fontExists ==>
              && doc.blocks == [PageBreak({})] + Wellness.Document(q.data.value, SEPARATOR, now, Registered(FONT_NAME))
              && doc.registered == map[FONT_NAME := fontPath]
              && doc.piped && doc.ended && doc.margin == 50
  {
    if q.QueryFailed? {
      return ServerError(q.err), null;
    }
    if q.data.None? || |q.data.value| == 0 {
      return NOT_FOUND, null;
    }
    if fault.FailsAtOpen? {
      return ServerError(fault.err), null;
    }
    var rows := q.data.value;
    doc := new Writer(50, true, true);
    if !fontExists {
      return ServerError(FontMissing(fontPath)), doc;
    }
    if fault.FailsLater? {
      return ServerError(fault.err), null;
    }
    doc.RegisterFont(FONT_NAME, fontPath);
    doc.UseFont(Registered(FONT_NAME));
    doc.Pipe();
    Wellness.Render(doc, Wellness.Summarize(rows), rows, SEPARATOR, now);
    var drained := Buffer(events, false);
    match drained {
      case Resolved(buf) => resp := PdfResponse(buf, HEADERS);
      case Rejected(_) => resp := NoResponse;
      case Pending => resp := NoResponse;
    }
  }

  // ---------------------------------------------------------------------------

  /** Null or empty data gives 404 "No data available", whatever the library, the font
      and the stream do. */
  lemma NoDataIsNotFound(d: Option<seq<Entry>>, fault: Fault, fontPath: string, fontExists: bool, events: seq<StreamEvent>)
    requires d.None? || d == Some([])
    ensures Respond(Fetched(d), fault, fontPath, fontExists, events) == JsonResponse(404, MessageBody("No data available"))
  {
  }

  /** A query error gives 500 with its message; with data, a throw while the document is
      created, a missing font or a throw from a later library call gives 500 with that
      error's message, and never a PDF. A throw at creation wins over the font check, the
      font check over a later throw. */
  lemma ErrorsGive500(q: Query<Entry>, fault: Fault, fontPath: string, fontExists: bool, events: seq<StreamEvent>)
    ensures q.QueryFailed? ==> Respond(q, fault, fontPath, fontExists, events) == JsonResponse(500, ErrorBody(q.err.message))
    ensures q.Fetched? && q.data.Some? && |q.data.value| > 0 ==>
              && (fault.FailsAtOpen? ==>
                    Respond(q, fault, fontPath, fontExists, events) == JsonResponse(500, ErrorBody(fault.err.message)))
              && (!fault.FailsAtOpen? && !fontExists ==>
                    Respond(q, fault, fontPath, fontExists, events) == JsonResponse(500, ErrorBody(Some("Font not found at " + fontPath))))
              && (fault.FailsLater? && fontExists ==>
                    Respond(q, fault, fontPath, fontExists, events) == JsonResponse(500, ErrorBody(fault.err.message)))
  {
  }

  /** With data, the font present and no throw, an ending stream gives the in-order
      concatenation of every chunk. */
  lemma SuccessIsConcatenatedPdf(rows: seq<Entry>, fontPath: string, data: seq<StreamEvent>, rest: seq<StreamEvent>)
    requires |rows| > 0 && AllData(data)
    ensures Respond(Fetched(Some(rows)), NoFault, fontPath, true, data + [EndEvent] + rest) == PdfResponse(Concat(Chunks(data)), HEADERS)
  {
    ResolvesWithAllChunks(data, rest, false);
  }

  /** Nothing listens for 'error': a stream error leaves the handler without a response
      instead of answering 500. */
  lemma StreamErrorNeverAnswers(rows: seq<Entry>, fontPath: string, data: seq<StreamEvent>, e: Error, rest: seq<StreamEvent>)
    requires |rows| > 0 && AllData(data)
    ensures Respond(Fetched(Some(rows)), NoFault, fontPath, true, data + [ErrorEvent(e)] + rest) == NoResponse
  {
    ErrorBeforeEndGivesNoBuffer(data, e, rest, false);
  }
}
