/** GET /api/trust/export: the trust summary report. Fetches every transaction in
    ascending creation order, computes the summaries, writes the report to a fresh
    document and answers with the drained buffer. */
module TrustExport {
  import opened Base
  import opened Rows
  import opened PdfWriter
  import opened PdfStream
  import opened Http
  import opened ReportLayout

  const TITLE := "Trust Summary Report"
  const SEPARATOR := " \U{2014} "
  const FALLBACK_ERROR := "Export failed"
  const HEADERS: seq<(string, string)> := [
    ("Content-Type", "application/pdf"),
    ("Content-Disposition", "attachment; filename=\"trust_report.pdf\""),
    ("Cache-Control", "no-store")]

  /** Size the transaction lines start at, and the size a note line sets. */
  const ROW_SIZE: nat := 11
  const NOTE_SIZE: nat := 10

  datatype Summary = Summary(totalDist: real, totalExp: real, avgDist: real)

  /** The three summaries: both totals read null amounts as 0 and take only their own
      type; the average is guarded against an empty set of distributions. */
  function Summarize(rows: seq<Tx>): (s: Summary)
    ensures s.totalDist == SumWhere(rows, DISTRIBUTION)
    ensures s.totalExp == SumWhere(rows, EXPENSE)
    ensures CountOf(rows, DISTRIBUTION) == 0 ==> s.avgDist == 0.0
    ensures CountOf(rows, DISTRIBUTION) > 0 ==>
              s.avgDist * (CountOf(rows, DISTRIBUTION) as real) == s.totalDist
  {
    TotalOfIsSumWhere(rows, DISTRIBUTION);
    TotalOfIsSumWhere(rows, EXPENSE);
    var total := TotalOf(rows, DISTRIBUTION);
    Summary(total, TotalOf(rows, EXPENSE), GuardedMean(total, CountOf(rows, DISTRIBUTION)))
  }

  // ---------------------------------------------------------------------------
  // The report, block by block.

  function Heading(s: Summary, now: Instant, font: FontSel): seq<Block> {
    Head(TITLE, now,
         [Lit("Total Distributed: "), Currency(s.totalDist)],
         [Lit("Total Expenses:    "), Currency(s.totalExp)],
         [Lit("Average Distribution: "), Currency(s.avgDist)],
         "Transactions", font)
  }

  /** Any type other than 'distribution' is labelled Expense. */
  function KindLabel(r: Tx): string {
    if IsKind(r, DISTRIBUTION) then "Distribution" else "Expense"
  }

  function TxText(r: Tx): seq<Piece> {
    [LocaleDate(r.createdAt), Lit(SEPARATOR), Lit(KindLabel(r)), Lit(": "), Currency(AmountOr0(r))]
  }

  function NoteText(note: string): seq<Piece> {
    [Lit("\"" + note + "\"")]
  }

  /** The font size in effect after these rows: a note line sets 10 and nothing sets it
      back. */
  function SizeAfter(rows: seq<Tx>): nat {
    if rows == [] then ROW_SIZE
    else if Truthy(rows[|rows| - 1].note) then NOTE_SIZE
    else SizeAfter(rows[..|rows| - 1])
  }

  function RowBlocks(r: Tx, size: nat, font: FontSel): seq<Block> {
    [Line(TxText(r), Style(size, Black, font), Plain)]
    + (if Truthy(r.note) then [Line(NoteText(r.note.value), Style(NOTE_SIZE, Gray, font), Plain)] else [])
    + [Gap(0.3)]
  }

  function RowsBlocks(rows: seq<Tx>, font: FontSel): seq<Block> {
    if rows == [] then []
    else RowsBlocks(rows[..|rows| - 1], font)
         + RowBlocks(rows[|rows| - 1], SizeAfter(rows[..|rows| - 1]), font)
  }

  /** The whole report after the first page break. */
  function Document(s: Summary, rows: seq<Tx>, now: Instant, font: FontSel): seq<Block> {
    Heading(s, now, font) + RowsBlocks(rows, font)
  }

  /** Writes one row: its transaction line, its note line if the note is truthy, and
      the gap after it. */
  method WriteRow(doc: Writer, r: Tx)
    requires doc.pages > 0 && !doc.ended && doc.color == Black
    modifies doc`size, doc`color, doc`blocks
    ensures doc.blocks == old(doc.blocks) + RowBlocks(r, old(doc.size), doc.font)
    ensures doc.size == if Truthy(r.note) then NOTE_SIZE else old(doc.size)
    ensures doc.color == Black
  {
    doc.Text(TxText(r), Plain);
    if Truthy(r.note) {
      doc.FontSize(NOTE_SIZE);
      doc.FillColor(Gray);
      doc.Text(NoteText(r.note.value), Plain);
      doc.FillColor(Black);
    }
    doc.MoveDown(0.3);
  }

  /** Writes the report to `doc` and ends it. */
  method Render(doc: Writer, s: Summary, rows: seq<Tx>, now: Instant)
    requires doc.pages > 0 && !doc.ended && doc.color == Black
    modifies doc
    ensures doc.blocks == old(doc.blocks) + Document(s, rows, now, old(doc.font))
    ensures doc.size == SizeAfter(rows) && doc.color == Black && doc.ended
    ensures doc.font == old(doc.font) && doc.pages == old(doc.pages)
    ensures doc.registered == old(doc.registered) && doc.piped == old(doc.piped)
  {
    WriteHead(doc, TITLE, now,
              [Lit("Total Distributed: "), Currency(s.totalDist)],
              [Lit("Total Expenses:    "), Currency(s.totalExp)],
              [Lit("Average Distribution: "), Currency(s.avgDist)],
              "Transactions");
    doc.FontSize(ROW_SIZE);
    ghost var top := doc.blocks;
    var i := 0;
    while i < |rows|
      invariant 0 <= i <= |rows|
      invariant doc.blocks == top + RowsBlocks(rows[..i], doc.font)
      invariant doc.size == SizeAfter(rows[..i])
      invariant doc.color == Black && !doc.ended
      invariant doc.font == old(doc.font) && doc.pages == old(doc.pages)
      invariant doc.registered == old(doc.registered) && doc.piped == old(doc.piped)
    {
      assert rows[..i + 1][..i] == rows[..i];
      WriteRow(doc, rows[i]);
      i := i + 1;
    }
    assert rows[..|rows|] == rows;
    doc.End();
  }

  // ---------------------------------------------------------------------------
  // The handler.

  function FontOf(fetched: Option<seq<byte>>): FontSel {
    match fetched
    case Some(b) => Embedded(b)
    case None => Builtin
  }

  function Failure(e: Error): Response {
    JsonResponse(500, ErrorBody(Some(e.message.GetOr(FALLBACK_ERROR))))
  }

  /** The response for a query result, the library's fault and the stream's events. A
      throw of `doc.font(fontBuf)` is caught on the spot and is not a fault here; every
      other throw from the library reaches the outer catch. */
  function Respond(q: Query<Tx>, fault: Fault, events: seq<StreamEvent>): Response {
    match q
    case QueryFailed(e) => Failure(e)
    case Fetched(_) =>
      if !fault.NoFault? then Failure(fault.err)
      else match Drain(events, true)
      case Resolved(buf) => PdfResponse(buf, HEADERS)
      case Rejected(e) => Failure(e)
      case Pending => NoResponse
  }

  /** GET. `fontBytes` is the font fetched and accepted by the writer, or None when the
      fetch or the writer's doc.font call threw; `events` is what the document stream
      emits once the document has ended. */
  method Get(q: Query<Tx>, fault: Fault, fontBytes: Option<seq<byte>>, now: Instant, events: seq<StreamEvent>)
    returns (resp: Response, doc: Writer?)
    ensures resp == Respond(q, fault, events)
    ensures doc == null <==> q.QueryFailed? || !fault.NoFault?
    ensures doc != null ==>
              var rows := q.data.GetOr([]);
              && doc.blocks == [PageBreak({})] + Document(Summarize(rows), rows, now, FontOf(fontBytes))
              && doc.piped && doc.ended && doc.compress == false && doc.margin == 50
  {
    if q.QueryFailed? {
      return Failure(q.err), null;
    }
    if !fault.NoFault? {
      return Failure(fault.err), null;
    }
    var rows := q.data.GetOr([]);
    var s := Summarize(rows);
    doc := new Writer(50, false, true);
    doc.Pipe();
    if fontBytes.Some? {
      doc.UseFont(Embedded(fontBytes.value));
    }
    Render(doc, s, rows, now);
    var drained := Buffer(events, true);
    match drained {
      case Resolved(buf) => resp := PdfResponse(buf, HEADERS);
      case Rejected(e) => resp := Failure(e);
      case Pending => resp := NoResponse;
    }
  }

  // ---------------------------------------------------------------------------
  // Properties of the report.

  /** An empty (or null) result is not rejected: all summaries are 0 and the report
      ends with the header and no transaction lines. */
  lemma EmptyReportHasZeroSummaries(now: Instant, font: FontSel)
    ensures Summarize([]) == Summary(0.0, 0.0, 0.0)
    ensures Document(Summarize([]), [], now, font) == Heading(Summary(0.0, 0.0, 0.0), now, font)
  {
    assert OfKind([], DISTRIBUTION) == [];
  }

  /** The lines of the report in order: title, Generated, Total Distributed, Total
      Expenses, Average Distribution, the Transactions header, then the rows' lines. */
  lemma LineOrder(s: Summary, rows: seq<Tx>, now: Instant, font: FontSel)
    ensures Lines(Document(s, rows, now, font)) ==
      [ Line([Lit(TITLE)], Style(TITLE_SIZE, Black, font), Centered),
        Line(Generated(now), Style(BODY_SIZE, Black, font), Plain),
        Line([Lit("Total Distributed: "), Currency(s.totalDist)], Style(BODY_SIZE, Black, font), Plain),
        Line([Lit("Total Expenses:    "), Currency(s.totalExp)], Style(BODY_SIZE, Black, font), Plain),
        Line([Lit("Average Distribution: "), Currency(s.avgDist)], Style(BODY_SIZE, Black, font), Plain),
        Line([Lit("Transactions")], Style(SECTION_SIZE, Black, font), Underlined) ]
      + Lines(RowsBlocks(rows, font))
  {
    LinesAppend(Heading(s, now, font), RowsBlocks(rows, font));
    LinesOfHead(TITLE, now,
                [Lit("Total Distributed: "), Currency(s.totalDist)],
                [Lit("Total Expenses:    "), Currency(s.totalExp)],
                [Lit("Average Distribution: "), Currency(s.avgDist)],
                "Transactions", font);
  }

  predicate NoteBefore(rows: seq<Tx>, i: int) {
    exists j :: 0 <= j < i && j < |rows| && Truthy(rows[j].note)
  }

  lemma {:induction false} SizeAfterNotes(rows: seq<Tx>)
    ensures SizeAfter(rows) == if NoteBefore(rows, |rows|) then NOTE_SIZE else ROW_SIZE
  {
    if rows != [] {
      var init := rows[..|rows| - 1];
      SizeAfterNotes(init);
      if NoteBefore(init, |init|) {
        var j :| 0 <= j < |init| && Truthy(init[j].note);
        assert rows[j] == init[j];
      }
      if NoteBefore(rows, |rows|) && !Truthy(rows[|rows| - 1].note) {
        var j :| 0 <= j < |rows| && Truthy(rows[j].note);
        assert init[j] == rows[j];
      }
    }
  }

  lemma TxLinesOfRow(r: Tx, size: nat, font: FontSel)
    ensures RowLines(RowBlocks(r, size, font)) == [Line(TxText(r), Style(size, Black, font), Plain)]
  {
    var head := [Line(TxText(r), Style(size, Black, font), Plain)];
    var note: seq<Block> := if Truthy(r.note) then [Line(NoteText(r.note.value), Style(NOTE_SIZE, Gray, font), Plain)] else [];
    RowLinesAppend(head + note, [Gap(0.3)]);
    RowLinesAppend(head, note);
  }

  /** Whether a note came before row i does not depend on the rows after it. */
  lemma NoteBeforePrefix(rows: seq<Tx>, n: nat, i: nat)
    requires i <= n <= |rows|
    ensures NoteBefore(rows, i) == NoteBefore(rows[..n], i)
  {
    if NoteBefore(rows, i) {
      var j :| 0 <= j < i && j < |rows| && Truthy(rows[j].note);
      assert rows[..n][j] == rows[j];
    }
    if NoteBefore(rows[..n], i) {
      var j :| 0 <= j < i && j < n && Truthy(rows[..n][j].note);
      assert rows[..n][j] == rows[j];
    }
  }

  lemma {:induction false} RowLinesOfRows(rows: seq<Tx>, font: FontSel)
    ensures |RowLines(RowsBlocks(rows, font))| == |rows|
    ensures forall i :: 0 <= i < |rows| ==>
              RowLines(RowsBlocks(rows, font))[i] ==
                Line(TxText(rows[i]), Style(if NoteBefore(rows, i) then NOTE_SIZE else ROW_SIZE, Black, font), Plain)
  {
    if rows != [] {
      var n := |rows| - 1;
      var init := rows[..n];
      RowLinesOfRows(init, font);
      SizeAfterNotes(init);
      RowLinesAppend(RowsBlocks(init, font), RowBlocks(rows[n], SizeAfter(init), font));
      TxLinesOfRow(rows[n], SizeAfter(init), font);
      NoteBeforePrefix(rows, n, n);
      assert NoteBefore(init, |init|) == NoteBefore(init, n);
      forall i | 0 <= i < n
        ensures NoteBefore(rows, i) == NoteBefore(init, i) && rows[i] == init[i]
      {
        NoteBeforePrefix(rows, n, i);
      }
    }
  }

  /** Exactly one transaction line per row, in fetch order, each with that row's text;
      no other line of the report starts with a date. The size of row i's line is 11
      until some earlier row had a note, and 10 from then on: the note's fontSize(10) is
      never undone. */
  lemma OneTxLinePerRow(s: Summary, rows: seq<Tx>, now: Instant, font: FontSel)
    ensures |RowLines(Document(s, rows, now, font))| == |rows|
    ensures forall i :: 0 <= i < |rows| ==>
              RowLines(Document(s, rows, now, font))[i] ==
                Line(TxText(rows[i]), Style(if NoteBefore(rows, i) then NOTE_SIZE else ROW_SIZE, Black, font), Plain)
  {
    RowLinesAppend(Heading(s, now, font), RowsBlocks(rows, font));
    HeadHasNoRowLines(TITLE, now,
                      [Lit("Total Distributed: "), Currency(s.totalDist)],
                      [Lit("Total Expenses:    "), Currency(s.totalExp)],
                      [Lit("Average Distribution: "), Currency(s.avgDist)],
                      "Transactions", font);
    RowLinesOfRows(rows, font);
  }

  function NoteCount(rows: seq<Tx>): nat {
    if rows == [] then 0 else (if Truthy(rows[|rows| - 1].note) then 1 else 0) + NoteCount(rows[..|rows| - 1])
  }

  /** Each row gives its transaction line, plus one gray 10-point quoted note line
      exactly when its note is truthy (null and "" give none). */
  lemma {:induction false} RowLineCount(rows: seq<Tx>, font: FontSel)
    ensures |Lines(RowsBlocks(rows, font))| == |rows| + NoteCount(rows)
  {
    if rows != [] {
      var n := |rows| - 1;
      RowLineCount(rows[..n], font);
      var last := RowBlocks(rows[n], SizeAfter(rows[..n]), font);
      LinesAppend(RowsBlocks(rows[..n], font), last);
      var tail := (if Truthy(rows[n].note) then [Line(NoteText(rows[n].note.value), Style(NOTE_SIZE, Gray, font), Plain)] else []) + [Gap(0.3)];
      LinesAppend([Line(TxText(rows[n]), Style(SizeAfter(rows[..n]), Black, font), Plain)], tail);
      LinesAppend(if Truthy(rows[n].note) then [Line(NoteText(rows[n].note.value), Style(NOTE_SIZE, Gray, font), Plain)] else [], [Gap(0.3)]);
    }
  }

  /** Two renders of the same rows differ only in the Generated line. */
  lemma OnlyTimestampDiffers(s: Summary, rows: seq<Tx>, t1: Instant, t2: Instant, font: FontSel)
    ensures |Document(s, rows, t1, font)| == |Document(s, rows, t2, font)|
    ensures forall i :: 0 <= i < |Document(s, rows, t1, font)| && i != 2 ==>
              Document(s, rows, t1, font)[i] == Document(s, rows, t2, font)[i]
  {
    var stamp := Line(Generated(t1), Style(BODY_SIZE, Black, font), Plain);
    assert Heading(s, t1, font) == Heading(s, t2, font)[2 := stamp];
    assert Document(s, rows, t1, font) == Document(s, rows, t2, font)[2 := stamp];
  }

  // ---------------------------------------------------------------------------
  // Properties of the handler.

  /** A query error, a throw from the library, or an error on the stream gives 500 with
      the error's message, or "Export failed" when it has none. */
  lemma ErrorsGive500(q: Query<Tx>, fault: Fault, events: seq<StreamEvent>, data: seq<StreamEvent>, e: Error, rest: seq<StreamEvent>)
    requires AllData(data)
    ensures q.QueryFailed? ==> Respond(q, fault, events) == JsonResponse(500, ErrorBody(Some(q.err.message.GetOr(FALLBACK_ERROR))))
    ensures q.Fetched? && !fault.NoFault? ==>
              Respond(q, fault, events) == JsonResponse(500, ErrorBody(Some(fault.err.message.GetOr(FALLBACK_ERROR))))
    ensures q.Fetched? ==> Respond(q, NoFault, data + [ErrorEvent(e)] + rest) == JsonResponse(500, ErrorBody(Some(e.message.GetOr(FALLBACK_ERROR))))
  {
    ErrorBeforeEndGivesNoBuffer(data, e, rest, true);
  }

  /** When the query succeeds (empty result included) and the stream ends, the response
      is the PDF: the in-order concatenation of every chunk. */
  lemma SuccessIsConcatenatedPdf(q: Query<Tx>, data: seq<StreamEvent>, rest: seq<StreamEvent>)
    requires q.Fetched? && AllData(data)
    ensures Respond(q, NoFault, data + [EndEvent] + rest) == PdfResponse(Concat(Chunks(data)), HEADERS)
  {
    ResolvesWithAllChunks(data, rest, true);
  }
}
