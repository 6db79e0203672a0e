/** The wellness progress report that GET /api/export and GET /api/report both write:
    three averages over every fetched entry, the shared head, then one 12-point line per
    entry (nullish fields shown as "N/A") and an optional gray quoted journal line. The
    two routes differ only in the separator after the date. */
module Wellness {
  import opened Base
  import opened Rows
  import opened PdfWriter
  import opened ReportLayout

  const TITLE := "Wellness Progress Report"
  const SECTION := "Entries"
  const NA := "N/A"
  const JOURNAL_SIZE: nat := 10

  /** The three numeric columns of a wellness row. */
  datatype Field = Mood | Sleep | Exercise

  /** The column as a number, None when it is null (`r.field ?? ...` sees None). */
  function FieldValue(r: Entry, f: Field): Option<real> {
    match f
    case Mood => if r.mood.Some? then Some(r.mood.value as real) else None
    case Sleep => r.sleep
    case Exercise => if r.exercise.Some? then Some(r.exercise.value as real) else None
  }

  /** `r.field || 0`: a null reads as 0 (and 0 stays 0). */
  function FieldOr0(r: Entry, f: Field): real {
    FieldValue(r, f).GetOr(0.0)
  }

  /** data.reduce((a, r) => a + (r.field || 0), 0). */
  function FieldSum(rows: seq<Entry>, f: Field): real {
    if rows == [] then 0.0 else FieldSum(rows[..|rows| - 1], f) + FieldOr0(rows[|rows| - 1], f)
  }

  datatype Averages = Averages(mood: real, sleep: real, exercise: real)

  /** The sum divided by `data.length`: every row is in the denominator, including rows
      whose field is null. The routes only get here with at least one row. */
  function Average(rows: seq<Entry>, f: Field): (r: real)
    requires |rows| > 0
    ensures r * (|rows| as real) == FieldSum(rows, f)
  {
    FieldSum(rows, f) / (|rows| as real)
  }

  function Summarize(rows: seq<Entry>): (a: Averages)
    requires |rows| > 0
    ensures a.mood * (|rows| as real) == FieldSum(rows, Mood)
    ensures a.sleep * (|rows| as real) == FieldSum(rows, Sleep)
    ensures a.exercise * (|rows| as real) == FieldSum(rows, Exercise)
  {
    Averages(Average(rows, Mood), Average(rows, Sleep), Average(rows, Exercise))
  }

  // ---------------------------------------------------------------------------
  // The report, block by block.

  function MoodLine(a: Averages): seq<Piece> {
    [Lit("Average Mood: "), Fixed2(a.mood)]
  }

  function SleepLine(a: Averages): seq<Piece> {
    [Lit("Average Sleep: "), Fixed2(a.sleep), Lit(" hours")]
  }

  function ExerciseLine(a: Averages): seq<Piece> {
    [Lit("Average Exercise: "), Fixed2(a.exercise), Lit(" minutes")]
  }

  function Heading(a: Averages, now: Instant, font: FontSel): seq<Block> {
    Head(TITLE, now, MoodLine(a), SleepLine(a), ExerciseLine(a), SECTION, font)
  }

  /** `${r.field ?? "N/A"}`. */
  function FieldPiece(r: Entry, f: Field): Piece {
    match FieldValue(r, f)
    case Some(x) => Num(x)
    case None => Lit(NA)
  }

  function EntryText(r: Entry, sep: string): seq<Piece> {
    [ LocaleDate(Some(r.createdAt)), Lit(sep + "Mood: "), FieldPiece(r, Mood),
      Lit(", Sleep: "), FieldPiece(r, Sleep), Lit("h, Exercise: "), FieldPiece(r, Exercise), Lit("m") ]
  }

  function JournalText(j: string): seq<Piece> {
    [Lit("\"" + j + "\"")]
  }

  /** Every entry line sets 12 point first, so its size never depends on earlier rows. */
  function EntryBlocks(r: Entry, sep: string, font: FontSel): seq<Block> {
    [Line(EntryText(r, sep), Style(BODY_SIZE, Black, font), Plain)]
    + (if Truthy(r.journal) then [Line(JournalText(r.journal.value), Style(JOURNAL_SIZE, Gray, font), Plain)] else [])
    + [Gap(0.5)]
  }

  function EntriesBlocks(rows: seq<Entry>, sep: string, font: FontSel): seq<Block> {
    if rows == [] then []
    else EntriesBlocks(rows[..|rows| - 1], sep, font) + EntryBlocks(rows[|rows| - 1], sep, font)
  }

  /** The whole report after the first page break. */
  function Document(rows: seq<Entry>, sep: string, now: Instant, font: FontSel): seq<Block>
    requires |rows| > 0
  {
    Heading(Summarize(rows), now, font) + EntriesBlocks(rows, sep, font)
  }

  /** The font size left in effect by the last entry. */
  function SizeAfter(last: Entry): nat {
    if Truthy(last.journal) then JOURNAL_SIZE else BODY_SIZE
  }

  method WriteEntry(doc: Writer, r: Entry, sep: string)
    requires doc.pages > 0 && !doc.ended && doc.color == Black
    modifies doc`size, doc`color, doc`blocks
    ensures doc.blocks == old(doc.blocks) + EntryBlocks(r, sep, doc.font)
    ensures doc.size == SizeAfter(r) && doc.color == Black
  {
    doc.FontSize(BODY_SIZE);
    doc.Text(EntryText(r, sep), Plain);
    if Truthy(r.journal) {
      doc.FontSize(JOURNAL_SIZE);
      doc.FillColor(Gray);
      doc.Text(JournalText(r.journal.value), Plain);
      doc.FillColor(Black);
    }
    doc.MoveDown(0.5);
  }

  /** data.forEach: every entry's blocks, in order. */
  method WriteEntries(doc: Writer, rows: seq<Entry>, sep: string)
    requires doc.pages > 0 && !doc.ended && doc.color == Black
    modifies doc`size, doc`color, doc`blocks
    ensures doc.blocks == old(doc.blocks) + EntriesBlocks(rows, sep, doc.font)
    ensures |rows| > 0 ==> doc.size == SizeAfter(rows[|rows| - 1])
    ensures |rows| == 0 ==> doc.size == old(doc.size)
    ensures doc.color == Black
  {
    var i := 0;
    while i < |rows|
      invariant 0 <= i <= |rows|
      invariant doc.blocks == old(doc.blocks) + EntriesBlocks(rows[..i], sep, doc.font)
      invariant i > 0 ==> doc.size == SizeAfter(rows[i - 1])
      invariant i == 0 ==> doc.size == old(doc.size)
      invariant doc.color == Black
    {
      assert rows[..i + 1][..i] == rows[..i];
      WriteEntry(doc, rows[i], sep);
      i := i + 1;
    }
    assert rows[..|rows|] == rows;
  }

  /** Writes the report with averages `avg` to `doc` and ends it. */
  method Render(doc: Writer, avg: Averages, rows: seq<Entry>, sep: string, now: Instant)
    requires |rows| > 0
    requires doc.pages > 0 && !doc.ended && doc.color == Black
    modifies doc
    ensures doc.blocks == old(doc.blocks) + Heading(avg, now, old(doc.font)) + EntriesBlocks(rows, sep, old(doc.font))
    ensures doc.size == SizeAfter(rows[|rows| - 1]) && doc.color == Black && doc.ended
    ensures doc.font == old(doc.font) && doc.pages == old(doc.pages)
    ensures doc.registered == old(doc.registered) && doc.piped == old(doc.piped)
  {
    WriteHead(doc, TITLE, now, MoodLine(avg), SleepLine(avg), ExerciseLine(avg), SECTION);
    WriteEntries(doc, rows, sep);
    doc.End();
  }

  // ---------------------------------------------------------------------------
  // Properties of the averages.

  function NullRow(createdAt: string): Entry {
    Entry(createdAt, None, None, None, None)
  }

  lemma {:induction false} FieldSumAppend(a: seq<Entry>, b: seq<Entry>, f: Field)
    ensures FieldSum(a + b, f) == FieldSum(a, f) + FieldSum(b, f)
  {
    if b == [] {
      assert a + b == a;
    } else {
      assert (a + b)[..|a + b| - 1] == a + b[..|b| - 1];
      FieldSumAppend(a, b[..|b| - 1], f);
    }
  }

  /** A row whose field is null adds nothing to the sum but one to the denominator, so
      it pulls the average towards 0. */
  lemma NullStaysInDenominator(rows: seq<Entry>, r: Entry, f: Field)
    requires FieldValue(r, f).None?
    ensures FieldSum(rows + [r], f) == FieldSum(rows, f)
    ensures Average(rows + [r], f) == FieldSum(rows, f) / ((|rows| + 1) as real)
  {
    var longer := rows + [r];
    assert longer[..|longer| - 1] == rows;
    assert FieldSum(longer, f) == FieldSum(rows, f) + FieldOr0(r, f);
  }

  /** Entries whose fields are all null average to 0. */
  lemma {:induction false} AllNullAveragesZero(rows: seq<Entry>, f: Field)
    requires |rows| > 0
    requires forall i :: 0 <= i < |rows| ==> FieldValue(rows[i], f).None?
    ensures Average(rows, f) == 0.0
  {
    AllNullSumZero(rows, f);
  }

  lemma {:induction false} AllNullSumZero(rows: seq<Entry>, f: Field)
    requires forall i :: 0 <= i < |rows| ==> FieldValue(rows[i], f).None?
    ensures FieldSum(rows, f) == 0.0
  {
    if rows != [] {
      AllNullSumZero(rows[..|rows| - 1], f);
    }
  }

  lemma {:induction false} FieldSumBounds(rows: seq<Entry>, f: Field, hi: real)
    requires forall i :: 0 <= i < |rows| ==> 0.0 <= FieldOr0(rows[i], f) <= hi
    ensures 0.0 <= FieldSum(rows, f) <= (|rows| as real) * hi
  {
    if rows != [] {
      FieldSumBounds(rows[..|rows| - 1], f, hi);
    }
  }

  /** Values between 0 and hi (nulls read as 0) average between 0 and hi: mood levels
      1-10 average at most 10. */
  lemma AverageBounds(rows: seq<Entry>, f: Field, hi: real)
    requires |rows| > 0
    requires forall i :: 0 <= i < |rows| ==> 0.0 <= FieldOr0(rows[i], f) <= hi
    ensures 0.0 <= Average(rows, f) <= hi
  {
    FieldSumBounds(rows, f, hi);
    var a, n := Average(rows, f), |rows| as real;
    assert (hi - a) * n == n * hi - FieldSum(rows, f);
    NonNegativeFactor(a, n);
    NonNegativeFactor(hi - a, n);
  }

  lemma NonNegativeFactor(x: real, n: real)
    requires n > 0.0 && x * n >= 0.0
    ensures x >= 0.0
  {
  }

  /** Two moods 4 and 8 average 6; 4 and null average 2. */
  lemma AverageExamples()
    ensures Average([Entry("a", Some(4), None, None, None), Entry("b", Some(8), None, None, None)], Mood) == 6.0
    ensures Average([Entry("a", Some(4), None, None, None), NullRow("b")], Mood) == 2.0
  {
    var two := [Entry("a", Some(4), None, None, None), Entry("b", Some(8), None, None, None)];
    assert two[..1] == [two[0]];
    assert FieldSum(two, Mood) == 12.0;
    var half := [Entry("a", Some(4), None, None, None), NullRow("b")];
    assert half[..1] == [half[0]];
    assert FieldSum(half, Mood) == 4.0;
  }

  // ---------------------------------------------------------------------------
  // Properties of the entry lines.

  /** "N/A" appears exactly for a null field; 0 is shown as 0, not as "N/A". */
  lemma NaExactlyForNull(r: Entry, f: Field)
    ensures FieldPiece(r, f) == Lit(NA) <==> FieldValue(r, f).None?
    ensures FieldValue(r, f) == Some(0.0) ==> FieldPiece(r, f) == Num(0.0)
    ensures FieldValue(r, f).Some? ==> FieldPiece(r, f) == Num(FieldValue(r, f).value)
  {
  }

  lemma EntryLinesOfEntry(r: Entry, sep: string, font: FontSel)
    ensures RowLines(EntryBlocks(r, sep, font)) == [Line(EntryText(r, sep), Style(BODY_SIZE, Black, font), Plain)]
  {
    var head := [Line(EntryText(r, sep), Style(BODY_SIZE, Black, font), Plain)];
    var journal: seq<Block> := if Truthy(r.journal) then [Line(JournalText(r.journal.value), Style(JOURNAL_SIZE, Gray, font), Plain)] else [];
    RowLinesAppend(head + journal, [Gap(0.5)]);
    RowLinesAppend(head, journal);
  }

  lemma {:induction false} EntryLinesOfEntries(rows: seq<Entry>, sep: string, font: FontSel)
    ensures RowLines(EntriesBlocks(rows, sep, font)) ==
              seq(|rows|, i requires 0 <= i < |rows| => Line(EntryText(rows[i], sep), Style(BODY_SIZE, Black, font), Plain))
  {
    if rows != [] {
      var n := |rows| - 1;
      EntryLinesOfEntries(rows[..n], sep, font);
      RowLinesAppend(EntriesBlocks(rows[..n], sep, font), EntryBlocks(rows[n], sep, font));
      EntryLinesOfEntry(rows[n], sep, font);
    }
  }

  /** Exactly one entry line per row, in fetch order, each 12-point black with that row's
      text; no other line of the report starts with a date. */
  lemma OneEntryLinePerRow(rows: seq<Entry>, sep: string, now: Instant, font: FontSel)
    requires |rows| > 0
    ensures |RowLines(Document(rows, sep, now, font))| == |rows|
    ensures forall i :: 0 <= i < |rows| ==>
              RowLines(Document(rows, sep, now, font))[i] == Line(EntryText(rows[i], sep), Style(BODY_SIZE, Black, font), Plain)
  {
    var a := Summarize(rows);
    RowLinesAppend(Heading(a, now, font), EntriesBlocks(rows, sep, font));
    HeadHasNoRowLines(TITLE, now, MoodLine(a), SleepLine(a), ExerciseLine(a), SECTION, font);
    EntryLinesOfEntries(rows, sep, font);
  }

  /** The lines in order: title, Generated, the Mood, Sleep and Exercise averages, the
      Entries header, then the entries' lines. */
  lemma LineOrder(rows: seq<Entry>, sep: string, now: Instant, font: FontSel)
    requires |rows| > 0
    ensures Lines(Document(rows, sep, now, font)) ==
      [ Line([Lit(TITLE)], Style(TITLE_SIZE, Black, font), Centered),
        Line(Generated(now), Style(BODY_SIZE, Black, font), Plain),
        Line(MoodLine(Summarize(rows)), Style(BODY_SIZE, Black, font), Plain),
        Line(SleepLine(Summarize(rows)), Style(BODY_SIZE, Black, font), Plain),
        Line(ExerciseLine(Summarize(rows)), Style(BODY_SIZE, Black, font), Plain),
        Line([Lit(SECTION)], Style(SECTION_SIZE, Black, font), Underlined) ]
      + Lines(EntriesBlocks(rows, sep, font))
  {
    var a := Summarize(rows);
    LinesAppend(Heading(a, now, font), EntriesBlocks(rows, sep, font));
    LinesOfHead(TITLE, now, MoodLine(a), SleepLine(a), ExerciseLine(a), SECTION, font);
  }

  function JournalCount(rows: seq<Entry>): nat {
    if rows == [] then 0 else JournalCount(rows[..|rows| - 1]) + (if Truthy(rows[|rows| - 1].journal) then 1 else 0)
  }

  /** Each entry gives its line, plus one quoted journal line exactly when the journal
      is truthy (null and "" give none). */
  lemma {:induction false} EntryLineCount(rows: seq<Entry>, sep: string, font: FontSel)
    ensures |Lines(EntriesBlocks(rows, sep, font))| == |rows| + JournalCount(rows)
  {
    if rows != [] {
      var n := |rows| - 1;
      var r := rows[n];
      EntryLineCount(rows[..n], sep, font);
      LinesAppend(EntriesBlocks(rows[..n], sep, font), EntryBlocks(r, sep, font));
      var journal: seq<Block> := if Truthy(r.journal) then [Line(JournalText(r.journal.value), Style(JOURNAL_SIZE, Gray, font), Plain)] else [];
      LinesAppend([Line(EntryText(r, sep), Style(BODY_SIZE, Black, font), Plain)], journal + [Gap(0.5)]);
      LinesAppend(journal, [Gap(0.5)]);
    }
  }

  /** Reports that differ only in their separator have the same blocks wherever neither
      holds an entry line. */
  lemma {:induction false} SeparatorOnlyChangesEntryLines(rows: seq<Entry>, s1: string, s2: string, font: FontSel)
    ensures |EntriesBlocks(rows, s1, font)| == |EntriesBlocks(rows, s2, font)|
    ensures forall i :: 0 <= i < |EntriesBlocks(rows, s1, font)| && !IsRowLine(EntriesBlocks(rows, s1, font)[i]) ==>
              EntriesBlocks(rows, s1, font)[i] == EntriesBlocks(rows, s2, font)[i]
  {
    if rows != [] {
      SeparatorOnlyChangesEntryLines(rows[..|rows| - 1], s1, s2, font);
    }
  }
}
