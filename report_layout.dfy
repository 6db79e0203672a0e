/** The fixed layout the three report routes share: a centered 18-point title, the
    Generated line, three 12-point summary lines, an underlined 14-point section header,
    then one block per row whose first line starts with the row's date. */
module ReportLayout {
  import opened Base
  import opened PdfWriter

  const TITLE_SIZE: nat := 18
  const BODY_SIZE: nat := 12
  const SECTION_SIZE: nat := 14

  function Generated(now: Instant): seq<Piece> {
    [Lit("Generated: "), LocaleDateTime(now)]
  }

  /** The blocks from the title to the gap under the section header. */
  function Head(title: string, now: Instant, s1: seq<Piece>, s2: seq<Piece>, s3: seq<Piece>,
                section: string, font: FontSel): seq<Block>
  {
    var h := HeadLines(title, now, s1, s2, s3, section, font);
    ([h[0]] + [Gap(1.0)]) + ([h[1]] + [Gap(1.0)]) + (h[2..5] + [Gap(1.0)]) + ([h[5]] + [Gap(0.5)])
  }

  /** The lines of the head, top to bottom. */
  function HeadLines(title: string, now: Instant, s1: seq<Piece>, s2: seq<Piece>, s3: seq<Piece>,
                     section: string, font: FontSel): seq<Block>
  {
    [ Line([Lit(title)], Style(TITLE_SIZE, Black, font), Centered),
      Line(Generated(now), Style(BODY_SIZE, Black, font), Plain),
      Line(s1, Style(BODY_SIZE, Black, font), Plain),
      Line(s2, Style(BODY_SIZE, Black, font), Plain),
      Line(s3, Style(BODY_SIZE, Black, font), Plain),
      Line([Lit(section)], Style(SECTION_SIZE, Black, font), Underlined) ]
  }

  lemma {:induction false} LinesThenGap(ls: seq<Block>, g: real)
    requires forall i :: 0 <= i < |ls| ==> ls[i].Line?
    ensures Lines(ls + [Gap(g)]) == ls
  {
    if ls == [] {
      LinesCons([Gap(g)]);
      assert [Gap(g)][1..] == [];
    } else {
      assert (ls + [Gap(g)])[1..] == ls[1..] + [Gap(g)];
      LinesThenGap(ls[1..], g);
      LinesCons(ls + [Gap(g)]);
    }
  }

  /** Title, Generated, the three summaries and the section header, in that order and
      nothing else. */
  lemma LinesOfHead(title: string, now: Instant, s1: seq<Piece>, s2: seq<Piece>, s3: seq<Piece>,
                    section: string, font: FontSel)
    ensures Lines(Head(title, now, s1, s2, s3, section, font)) == HeadLines(title, now, s1, s2, s3, section, font)
  {
    var h := HeadLines(title, now, s1, s2, s3, section, font);
    var p1, p2, p3, p4 := [h[0]] + [Gap(1.0)], [h[1]] + [Gap(1.0)], h[2..5] + [Gap(1.0)], [h[5]] + [Gap(0.5)];
    LinesThenGap([h[0]], 1.0);
    LinesThenGap([h[1]], 1.0);
    LinesThenGap(h[2..5], 1.0);
    LinesThenGap([h[5]], 0.5);
    LinesAppend(p1, p2);
    LinesAppend(p1 + p2, p3);
    LinesAppend(p1 + p2 + p3, p4);
    assert [h[0]] + [h[1]] + h[2..5] + [h[5]] == h;
  }

  /** The source's header sequence: fontSize(18).text(title, center), moveDown(),
      fontSize(12).text(Generated), moveDown(), three summary lines, moveDown(),
      fontSize(14).text(section, underline), moveDown(0.5). */
  method WriteHead(doc: Writer, title: string, now: Instant, s1: seq<Piece>, s2: seq<Piece>,
                   s3: seq<Piece>, section: string)
    requires doc.pages > 0 && !doc.ended && doc.color == Black
    modifies doc`size, doc`blocks
    ensures doc.blocks == old(doc.blocks) + Head(title, now, s1, s2, s3, section, doc.font)
    ensures doc.size == SECTION_SIZE
  {
    ghost var b0 := doc.blocks;
    ghost var h := Head(title, now, s1, s2, s3, section, doc.font);
    doc.FontSize(TITLE_SIZE);
    doc.Text([Lit(title)], Centered);
    doc.MoveDown(1.0);
    doc.FontSize(BODY_SIZE);
    doc.Text(Generated(now), Plain);
    doc.MoveDown(1.0);
    assert doc.blocks == b0 + h[..4];
    ghost var b1 := doc.blocks;
    doc.Text(s1, Plain);
    doc.Text(s2, Plain);
    doc.Text(s3, Plain);
    doc.MoveDown(1.0);
    assert doc.blocks == b1 + h[4..8];
    ghost var b2 := doc.blocks;
    doc.FontSize(SECTION_SIZE);
    doc.Text([Lit(section)], Underlined);
    doc.MoveDown(0.5);
    assert doc.blocks == b2 + h[8..];
    assert h == h[..4] + h[4..8] + h[8..];
  }

  // ---------------------------------------------------------------------------
  // Row lines: the only lines that start with a date.

  predicate IsRowLine(b: Block) {
    b.Line? && |b.text| > 0 && b.text[0].LocaleDate?
  }

  function RowLines(blocks: seq<Block>): (r: seq<Block>)
    ensures |r| <= |blocks|
  {
    if blocks == [] then []
    else if IsRowLine(blocks[0]) then [blocks[0]] + RowLines(blocks[1..])
    else RowLines(blocks[1..])
  }

  lemma {:induction false} RowLinesAppend(a: seq<Block>, b: seq<Block>)
    ensures RowLines(a + b) == RowLines(a) + RowLines(b)
  {
    if a == [] {
      assert a + b == b;
    } else {
      assert (a + b)[1..] == a[1..] + b;
      RowLinesAppend(a[1..], b);
    }
  }

  /** The head has no row line when its texts start with literals. */
  lemma HeadHasNoRowLines(title: string, now: Instant, s1: seq<Piece>, s2: seq<Piece>, s3: seq<Piece>,
                          section: string, font: FontSel)
    requires |s1| > 0 && |s2| > 0 && |s3| > 0
    requires s1[0].Lit? && s2[0].Lit? && s3[0].Lit?
    ensures RowLines(Head(title, now, s1, s2, s3, section, font)) == []
  {
    var h := Head(title, now, s1, s2, s3, section, font);
    forall i | 0 <= i < |h| ensures !IsRowLine(h[i]) { }
    NoRowLines(h);
  }

  lemma {:induction false} NoRowLines(blocks: seq<Block>)
    requires forall i :: 0 <= i < |blocks| ==> !IsRowLine(blocks[i])
    ensures RowLines(blocks) == []
  {
    if blocks != [] {
      NoRowLines(blocks[1..]);
    }
  }
}
