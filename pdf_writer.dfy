/** The streaming document writer the report routes drive (PDFKit's document object),
    seen from the routes: each call either changes the current text state or appends a
    block to the document. The bytes the library produces for those blocks are not
    modelled; they arrive as stream events (module PdfStream). */
module PdfWriter {
  import opened Base

  datatype Color = Black | Gray

  /** The face text is drawn in: the library's built-in one, a face registered under a
      name, or a face given as raw font bytes. */
  datatype FontSel = Builtin | Registered(name: string) | Embedded(data: seq<byte>)

  /** The text state in effect when a line is written. */
  datatype Style = Style(size: nat, color: Color, font: FontSel)

  datatype Opts = Plain | Centered | Underlined

  /** What the document holds, top to bottom. */
  datatype Block =
    | Line(text: seq<Piece>, style: Style, opts: Opts)   // doc.text(...)
    | Gap(lines: real)                                   // doc.moveDown(lines)
    | PageBreak(fontsAtOpen: set<string>)                // a new page, and the fonts registered when it was opened

  /** Whether a call into the document library throws, and when: while the document is
      created and piped (before a route checks its font file), or at one of the later
      calls. Which later call threw, and what it had written by then, is not modelled:
      every route's catch discards the document. */
  datatype Fault = NoFault | FailsAtOpen(err: Error) | FailsLater(err: Error)

  /** The library's default text state: 12 point, black, built-in face. */
  const DEFAULT_SIZE: nat := 12

  class Writer {
    const margin: nat
    const compress: bool
    var size: nat
    var color: Color
    var font: FontSel
    var registered: map<string, string>   // font name -> font file
    var pages: nat
    var piped: bool
    var ended: bool
    var blocks: seq<Block>

    /** `new PDFDocument({margin, compress, autoFirstPage})`; the first page is added at
        once unless autoFirstPage is false. */
    constructor (margin: nat, compress: bool, autoFirstPage: bool)
      ensures this.margin == margin && this.compress == compress
      ensures size == DEFAULT_SIZE && color == Black && font == Builtin && registered == map[]
      ensures pages == (if autoFirstPage then 1 else 0)
      ensures blocks == (if autoFirstPage then [PageBreak({})] else [])
      ensures !piped && !ended
    {
      this.margin := margin;
      this.compress := compress;
      size := DEFAULT_SIZE;
      color := Black;
      font := Builtin;
      registered := map[];
      pages := if autoFirstPage then 1 else 0;
      blocks := if autoFirstPage then [PageBreak({})] else [];
      piped := false;
      ended := false;
    }

    /** doc.pipe(stream): the output goes to the stream from now on. */
    method Pipe()
      modifies this`piped
      ensures piped
    {
      piped := true;
    }

    /** doc.registerFont(name, path). */
    method RegisterFont(name: string, path: string)
      modifies this`registered
      ensures registered == old(registered)[name := path]
    {
      registered := registered[name := path];
    }

    /** doc.font(...): a name must have been registered first. */
    method UseFont(sel: FontSel)
      requires sel.Registered? ==> sel.name in registered
      modifies this`font
      ensures font == sel
    {
      font := sel;
    }

    /** doc.addPage(). */
    method AddPage()
      requires !ended
      modifies this`pages, this`blocks
      ensures pages == old(pages) + 1
      ensures blocks == old(blocks) + [PageBreak(old(registered).Keys)]
    {
      pages := pages + 1;
      blocks := blocks + [PageBreak(registered.Keys)];
    }

    /** doc.fontSize(n): applies to every later line until changed again. */
    method FontSize(n: nat)
      modifies this`size
      ensures size == n
    {
      size := n;
    }

    /** doc.fillColor(c): applies to every later line until changed again. */
    method FillColor(c: Color)
      modifies this`color
      ensures color == c
    {
      color := c;
    }

    /** doc.text(t, opts): a line in the current text state; there must be a page. */
    method Text(t: seq<Piece>, opts: Opts)
      requires pages > 0 && !ended
      modifies this`blocks
      ensures blocks == old(blocks) + [Line(t, Style(size, color, font), opts)]
    {
      blocks := blocks + [Line(t, Style(size, color, font), opts)];
    }

    /** doc.moveDown(n). */
    method MoveDown(n: real)
      modifies this`blocks
      ensures blocks == old(blocks) + [Gap(n)]
    {
      blocks := blocks + [Gap(n)];
    }

    /** doc.end(): the document is complete; the stream will end after its last chunk. */
    method End()
      modifies this`ended
      ensures ended
    {
      ended := true;
    }
  }

  // ---------------------------------------------------------------------------
  // Views of a finished document.

  /** The lines of a document, in order. */
  function Lines(blocks: seq<Block>): (r: seq<Block>)
    ensures |r| <= |blocks|
    ensures forall b :: b in r ==> b.Line?
  {
    if blocks == [] then []
    else if blocks[0].Line? then [blocks[0]] + Lines(blocks[1..])
    else Lines(blocks[1..])
  }

  lemma LinesCons(blocks: seq<Block>)
    requires blocks != []
    ensures Lines(blocks) == (if blocks[0].Line? then [blocks[0]] else []) + Lines(blocks[1..])
  {
  }

  lemma {:induction false} LinesAppend(a: seq<Block>, b: seq<Block>)
    ensures Lines(a + b) == Lines(a) + Lines(b)
  {
    if a == [] {
      assert a + b == b;
    } else {
      assert (a + b)[1..] == a[1..] + b;
      LinesAppend(a[1..], b);
    }
  }
}
