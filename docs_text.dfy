/**
 * Plain-text extraction from a Google Docs document (`extractTextFromDocument`
 * in src/lib/google.ts). The document is a tree: body content is a list of
 * structural elements, each a paragraph of text runs or a table of rows of
 * cells, and a cell holds structural elements again.
 *
 * The text functions below are the specification, each level a `Concat`
 * of the level below; the `Append...` methods are the source's accumulator
 * loops, proved equal to it.
 */
module DocsText {
  import opened Options

  /** A text run; the Docs API may omit `content`. */
  datatype TextRun = TextRun(content: Option<string>)
  /** A paragraph element; only text runs carry text. */
  datatype ParagraphElement = ParagraphElement(textRun: Option<TextRun>)
  datatype Paragraph = Paragraph(elements: seq<ParagraphElement>)
  /** A structural element may carry a paragraph, a table, both or neither (section breaks, tables of contents). */
  datatype StructuralElement = StructuralElement(paragraph: Option<Paragraph>, table: Option<Table>)
  datatype Table = Table(tableRows: seq<TableRow>)
  datatype TableRow = TableRow(tableCells: seq<TableCell>)
  datatype TableCell = TableCell(content: seq<StructuralElement>)
  datatype Body = Body(content: Option<seq<StructuralElement>>)
  datatype Document = Document(title: Option<string>, body: Option<Body>)

  const CellSeparator := " | "
  const RowSeparator := "\n"

  // ---------------------------------------------------------------------
  // Concatenation and sums over a list, in list order

  /** The pieces `f(x)` of the elements of `s`, concatenated in order. */
  function Concat<T>(s: seq<T>, f: T -> string): string
  {
    if s == [] then "" else Concat(s[..|s| - 1], f) + f(s[|s| - 1])
  }

  function Sum<T>(s: seq<T>, g: T -> nat): nat
  {
    if s == [] then 0 else Sum(s[..|s| - 1], g) + g(s[|s| - 1])
  }

  lemma ConcatSnoc<T>(s: seq<T>, x: T, f: T -> string)
    ensures Concat(s + [x], f) == Concat(s, f) + f(x)
  {
    assert (s + [x])[..|s|] == s;
  }

  lemma {:induction false} ConcatAppend<T>(a: seq<T>, b: seq<T>, f: T -> string)
    ensures Concat(a + b, f) == Concat(a, f) + Concat(b, f)
    decreases |b|
  {
    if b == [] {
      assert a + b == a;
    } else {
      var n := |b| - 1;
      ConcatAppend(a, b[..n], f);
      assert a + b == (a + b[..n]) + [b[n]] && b == b[..n] + [b[n]];
      ConcatSnoc(a + b[..n], b[n], f);
      ConcatSnoc(b[..n], b[n], f);
    }
  }

  /** Two lists of the same length whose pieces agree position by position concatenate alike. */
  lemma {:induction false} ConcatPointwise<T, U>(s: seq<T>, f: T -> string, t: seq<U>, g: U -> string)
    requires |s| == |t|
    requires forall i :: 0 <= i < |s| ==> f(s[i]) == g(t[i])
    ensures Concat(s, f) == Concat(t, g)
    decreases |s|
  {
    if s != [] {
      var n := |s| - 1;
      ConcatPointwise(s[..n], f, t[..n], g);
    }
  }

  /** Occurrences of `ch` in `s`. */
  function Count(s: string, ch: char): nat
  {
    if s == [] then 0 else Count(s[..|s| - 1], ch) + (if s[|s| - 1] == ch then 1 else 0)
  }

  lemma {:induction false} CountAppend(a: string, b: string, ch: char)
    ensures Count(a + b, ch) == Count(a, ch) + Count(b, ch)
    decreases |b|
  {
    if b == [] {
      assert a + b == a;
    } else {
      var n := |b| - 1;
      assert (a + b)[..|a + b| - 1] == a + b[..n];
      assert (a + b)[|a + b| - 1] == b[n];
      CountAppend(a, b[..n], ch);
    }
  }

  /** Counting in a concatenation sums the counts of the pieces. */
  lemma {:induction false} CountConcat<T>(s: seq<T>, f: T -> string, g: T -> nat, ch: char)
    requires forall x :: g(x) == Count(f(x), ch)
    ensures Count(Concat(s, f), ch) == Sum(s, g)
    decreases |s|
  {
    if s != [] {
      var n := |s| - 1;
      CountConcat(s[..n], f, g, ch);
      CountAppend(Concat(s[..n], f), f(s[n]), ch);
    }
  }

  lemma DistributeRight(x: nat, y: nat, k: nat)
    ensures (x + y) * k == x * k + y * k
  {
  }

  /** A sum of `g(x) + a(x)·k1 + b(x)·k2` splits into three sums. */
  lemma {:induction false} SumLinear<T>(s: seq<T>, h: T -> nat, g: T -> nat, a: T -> nat, b: T -> nat, k1: nat, k2: nat)
    requires forall x :: h(x) == g(x) + a(x) * k1 + b(x) * k2
    ensures Sum(s, h) == Sum(s, g) + Sum(s, a) * k1 + Sum(s, b) * k2
    decreases |s|
  {
    if s != [] {
      var n := |s| - 1;
      SumLinear(s[..n], h, g, a, b, k1, k2);
      DistributeRight(Sum(s[..n], a), a(s[n]), k1);
      DistributeRight(Sum(s[..n], b), b(s[n]), k2);
    }
  }

  lemma {:induction false} SumOnes<T>(s: seq<T>, a: T -> nat)
    requires forall x :: a(x) == 1
    ensures Sum(s, a) == |s|
    decreases |s|
  {
    if s != [] {
      SumOnes(s[..|s| - 1], a);
    }
  }

  // ---------------------------------------------------------------------
  // The specification of the extraction

  /**
   * What `text += el.textRun.content` appends: the content, or the string
   * "undefined" that JavaScript's `+=` produces when the content is missing.
   */
  function RunText(run: TextRun): string
  {
    match run.content
    case Some(s) => s
    case None => "undefined"
  }

  /** A paragraph element contributes its text run, and nothing when it has none. */
  function ElementPiece(el: ParagraphElement): string
  {
    if el.textRun.Some? then RunText(el.textRun.value) else ""
  }

  /** The text runs of a paragraph, concatenated in element order. */
  function ParagraphText(p: Paragraph): string
  {
    Concat(p.elements, ElementPiece)
  }

  /** Inside a cell only paragraphs are read; nested tables and anything else contribute nothing. */
  function CellPiece(e: StructuralElement): string
  {
    if e.paragraph.Some? then ParagraphText(e.paragraph.value) else ""
  }

  function CellContentText(content: seq<StructuralElement>): string
  {
    Concat(content, CellPiece)
  }

  /** A cell's text followed by the separator (the last cell of a row included). */
  function CellText(cell: TableCell): string
  {
    CellContentText(cell.content) + CellSeparator
  }

  /** A row's cells followed by a newline. */
  function RowText(row: TableRow): string
  {
    Concat(row.tableCells, CellText) + RowSeparator
  }

  function TableText(table: Table): string
  {
    Concat(table.tableRows, RowText)
  }

  /** A paragraph wins over a table in the same element; other elements contribute nothing. */
  function ElementText(e: StructuralElement): string
  {
    if e.paragraph.Some? then ParagraphText(e.paragraph.value)
    else if e.table.Some? then TableText(e.table.value)
    else ""
  }

  function ContentText(content: seq<StructuralElement>): string
  {
    Concat(content, ElementText)
  }

  /** The specification of `extractTextFromDocument`. */
  function DocumentText(doc: Document): string
  {
    if doc.body.None? || doc.body.value.content.None? then "" else ContentText(doc.body.value.content.value)
  }

  // ---------------------------------------------------------------------
  // The source's accumulator loops

  /** Appends the text runs of one paragraph (the innermost `forEach`, written twice in the source). */
  method AppendParagraphText(text: string, p: Paragraph) returns (r: string)
    ensures r == text + ParagraphText(p)
  {
    r := text;
    var els := p.elements;
    var k := 0;
    while k < |els|
      invariant 0 <= k <= |els|
      invariant r == text + Concat(els[..k], ElementPiece)
    {
      assert els[..k + 1] == els[..k] + [els[k]];
      ConcatSnoc(els[..k], els[k], ElementPiece);
      if els[k].textRun.Some? {
        r := r + RunText(els[k].textRun.value);
      }
      k := k + 1;
    }
    assert els[..k] == els;
  }

  /** Appends the paragraph text of one table cell, then the separator. */
  method AppendCellText(text: string, cell: TableCell) returns (r: string)
    ensures r == text + CellText(cell)
  {
    r := text;
    var content := cell.content;
    var j := 0;
    while j < |content|
      invariant 0 <= j <= |content|
      invariant r == text + Concat(content[..j], CellPiece)
    {
      assert content[..j + 1] == content[..j] + [content[j]];
      ConcatSnoc(content[..j], content[j], CellPiece);
      if content[j].paragraph.Some? {
        r := AppendParagraphText(r, content[j].paragraph.value);
      }
      j := j + 1;
    }
    assert content[..j] == content;
    r := r + CellSeparator;
  }

  /** Appends the cells of one table row, each followed by the separator, then the newline. */
  method AppendRowText(text: string, row: TableRow) returns (r: string)
    ensures r == text + RowText(row)
  {
    r := text;
    var cells := row.tableCells;
    var c := 0;
    while c < |cells|
      invariant 0 <= c <= |cells|
      invariant r == text + Concat(cells[..c], CellText)
    {
      assert cells[..c + 1] == cells[..c] + [cells[c]];
      ConcatSnoc(cells[..c], cells[c], CellText);
      r := AppendCellText(r, cells[c]);
      c := c + 1;
    }
    assert cells[..c] == cells;
    r := r + RowSeparator;
  }

  /** Appends every row of a table, row by row. */
  method AppendTableText(text: string, table: Table) returns (r: string)
    ensures r == text + TableText(table)
  {
    r := text;
    var rows := table.tableRows;
    var k := 0;
    while k < |rows|
      invariant 0 <= k <= |rows|
      invariant r == text + Concat(rows[..k], RowText)
    {
      assert rows[..k + 1] == rows[..k] + [rows[k]];
      ConcatSnoc(rows[..k], rows[k], RowText);
      r := AppendRowText(r, rows[k]);
      k := k + 1;
    }
    assert rows[..k] == rows;
  }

  /** `extractTextFromDocument`: builds the text by appending to an accumulator. */
  method ExtractTextFromDocument(doc: Document) returns (text: string)
    ensures text == DocumentText(doc)
  {
    if doc.body.None? || doc.body.value.content.None? {
      return "";
    }
    var content := doc.body.value.content.value;
    text := "";
    var i := 0;
    while i < |content|
      invariant 0 <= i <= |content|
      invariant text == Concat(content[..i], ElementText)
    {
      assert content[..i + 1] == content[..i] + [content[i]];
      ConcatSnoc(content[..i], content[i], ElementText);
      var element := content[i];
      if element.paragraph.Some? {
        text := AppendParagraphText(text, element.paragraph.value);
      } else if element.table.Some? {
        text := AppendTableText(text, element.table.value);
      }
      i := i + 1;
    }
    assert content[..i] == content;
  }

  // ---------------------------------------------------------------------
  // Properties of the extraction

  /** Extraction distributes over concatenation of the content list. */
  lemma ContentTextAppend(a: seq<StructuralElement>, b: seq<StructuralElement>)
    ensures ContentText(a + b) == ContentText(a) + ContentText(b)
  {
    ConcatAppend(a, b, ElementText);
  }

  /** A table cell whose elements have their tables removed. */
  function WithoutTables(content: seq<StructuralElement>): (r: seq<StructuralElement>)
    ensures |r| == |content|
    ensures forall i :: 0 <= i < |content| ==> r[i] == StructuralElement(content[i].paragraph, None)
  {
    seq(|content|, i requires 0 <= i < |content| => StructuralElement(content[i].paragraph, None))
  }

  /**
   * A cell reads its elements as the top level would read them with every
   * nested table removed: nested tables are never visited.
   */
  lemma CellIgnoresNestedTables(content: seq<StructuralElement>)
    ensures CellContentText(content) == ContentText(WithoutTables(content))
  {
    ConcatPointwise(content, CellPiece, WithoutTables(content), ElementText);
  }

  /** Occurrences of `ch` in the text runs a row's cells read (separators excluded). */
  function RowRunCount(row: TableRow, ch: char): nat
  {
    Sum(row.tableCells, (c: TableCell) => Count(CellContentText(c.content), ch))
  }

  function TableRunCount(table: Table, ch: char): nat
  {
    Sum(table.tableRows, (r: TableRow) => RowRunCount(r, ch))
  }

  /** Number of cells over all rows of a table. */
  function TableCells(table: Table): nat
  {
    Sum(table.tableRows, (r: TableRow) => |r.tableCells|)
  }

  /** Whether an element is read as a table (a paragraph in the same element wins). */
  predicate ReadAsTable(e: StructuralElement)
  {
    e.paragraph.None? && e.table.Some?
  }

  /** Occurrences of `ch` in the text runs an element contributes. */
  function ElementRunCount(e: StructuralElement, ch: char): nat
  {
    if e.paragraph.Some? then Count(ParagraphText(e.paragraph.value), ch)
    else if e.table.Some? then TableRunCount(e.table.value, ch)
    else 0
  }

  function ElementRows(e: StructuralElement): nat
  {
    if ReadAsTable(e) then |e.table.value.tableRows| else 0
  }

  function ElementCells(e: StructuralElement): nat
  {
    if ReadAsTable(e) then TableCells(e.table.value) else 0
  }

  /** Occurrences of `ch` in all text runs the extraction reads. */
  function ContentRunCount(content: seq<StructuralElement>, ch: char): nat
  {
    Sum(content, (e: StructuralElement) => ElementRunCount(e, ch))
  }

  /** Rows of the tables the extraction reads. */
  function ContentRows(content: seq<StructuralElement>): nat
  {
    Sum(content, ElementRows)
  }

  /** Cells of the tables the extraction reads. */
  function ContentCells(content: seq<StructuralElement>): nat
  {
    Sum(content, ElementCells)
  }

  /** A row's text holds the runs of its cells, one cell separator per cell and one newline. */
  lemma RowCount(row: TableRow, ch: char)
    ensures Count(RowText(row), ch)
            == RowRunCount(row, ch) + |row.tableCells| * Count(CellSeparator, ch) + Count(RowSeparator, ch)
  {
    var cells := row.tableCells;
    var k1 := Count(CellSeparator, ch);
    var runs := (c: TableCell) => Count(CellContentText(c.content), ch);
    var h := (c: TableCell) => Count(CellText(c), ch);
    forall c: TableCell ensures h(c) == runs(c) + 1 * k1 + 0 * 0 {
      CountAppend(CellContentText(c.content), CellSeparator, ch);
    }
    CountConcat(cells, CellText, h, ch);
    SumLinear(cells, h, runs, _ => 1, _ => 0, k1, 0);
    SumOnes(cells, (_: TableCell) => 1);
    CountAppend(Concat(cells, CellText), RowSeparator, ch);
  }

  /** A table's text holds its runs, one cell separator per cell and one newline per row. */
  lemma TableCount(table: Table, ch: char)
    ensures Count(TableText(table), ch)
            == TableRunCount(table, ch) + TableCells(table) * Count(CellSeparator, ch)
               + |table.tableRows| * Count(RowSeparator, ch)
  {
    var rows := table.tableRows;
    var k1, k2 := Count(CellSeparator, ch), Count(RowSeparator, ch);
    var h := (r: TableRow) => Count(RowText(r), ch);
    forall r: TableRow ensures h(r) == RowRunCount(r, ch) + |r.tableCells| * k1 + 1 * k2 {
      RowCount(r, ch);
    }
    CountConcat(rows, RowText, h, ch);
    SumLinear(rows, h, (r: TableRow) => RowRunCount(r, ch), (r: TableRow) => |r.tableCells|, _ => 1, k1, k2);
    SumOnes(rows, (_: TableRow) => 1);
  }

  /**
   * Every occurrence of a character in the extracted text comes either from
   * a text run that was read, or from a cell separator (one per cell), or
   * from a row separator (one per row).
   */
  lemma ContentCount(content: seq<StructuralElement>, ch: char)
    ensures Count(ContentText(content), ch)
            == ContentRunCount(content, ch)
               + ContentCells(content) * Count(CellSeparator, ch)
               + ContentRows(content) * Count(RowSeparator, ch)
  {
    var k1, k2 := Count(CellSeparator, ch), Count(RowSeparator, ch);
    var h := (e: StructuralElement) => Count(ElementText(e), ch);
    forall e: StructuralElement ensures h(e) == ElementRunCount(e, ch) + ElementCells(e) * k1 + ElementRows(e) * k2 {
      if ReadAsTable(e) {
        TableCount(e.table.value, ch);
      }
    }
    CountConcat(content, ElementText, h, ch);
    SumLinear(content, h, (e: StructuralElement) => ElementRunCount(e, ch), ElementCells, ElementRows, k1, k2);
  }

  /**
   * Table structure adds exactly one newline per row read and one " | "
   * (hence one '|') per cell read.
   */
  lemma SeparatorCounts(content: seq<StructuralElement>)
    ensures Count(ContentText(content), '\n') == ContentRunCount(content, '\n') + ContentRows(content)
    ensures Count(ContentText(content), '|') == ContentRunCount(content, '|') + ContentCells(content)
  {
    assert RowSeparator[..0] == [];
    assert CellSeparator[..2] == " |" && " |"[..1] == " " && " "[..0] == [];
    assert Count(CellSeparator, '\n') == 0 && Count(RowSeparator, '\n') == 1;
    assert Count(CellSeparator, '|') == 1 && Count(RowSeparator, '|') == 0;
    ContentCount(content, '\n');
    ContentCount(content, '|');
  }

  /** A document with no body, or a body with no content, yields the empty string. */
  lemma MissingBodyIsEmpty(title: Option<string>)
    ensures DocumentText(Document(title, None)) == ""
    ensures DocumentText(Document(title, Some(Body(None)))) == ""
  {
  }

  /** A cell holding a single paragraph of one text run. */
  function TextCell(s: string): TableCell
  {
    TableCell([StructuralElement(Some(Paragraph([ParagraphElement(Some(TextRun(Some(s))))])), None)])
  }

  /** A list of one element reads as that element's piece. */
  lemma ConcatSingle<T>(x: T, f: T -> string)
    ensures Concat([x], f) == f(x)
  {
    ConcatSnoc([], x, f);
    assert [] + [x] == [x];
  }

  lemma TextCellText(s: string)
    ensures CellText(TextCell(s)) == s + CellSeparator
  {
    var run := ParagraphElement(Some(TextRun(Some(s))));
    ConcatSingle(run, ElementPiece);
    var e := StructuralElement(Some(Paragraph([run])), None);
    ConcatSingle(e, CellPiece);
  }

  /** A one-row table with cells "a" and "b" reads as "a | b | " and a newline. */
  lemma TableExample()
    ensures ElementText(StructuralElement(None, Some(Table([TableRow([TextCell("a"), TextCell("b")])]))))
            == "a | b | \n"
  {
    TextCellText("a");
    TextCellText("b");
    ConcatSingle(TextCell("a"), CellText);
    ConcatSnoc([TextCell("a")], TextCell("b"), CellText);
    assert [TextCell("a")] + [TextCell("b")] == [TextCell("a"), TextCell("b")];
    ConcatSingle(TableRow([TextCell("a"), TextCell("b")]), RowText);
  }

  /** An element carrying both a paragraph and a table is read as the paragraph alone. */
  lemma ParagraphWinsExample(t: Table)
    ensures ElementText(StructuralElement(Some(Paragraph([ParagraphElement(Some(TextRun(Some("x")))), ParagraphElement(None)])), Some(t)))
            == "x"
  {
    var x := ParagraphElement(Some(TextRun(Some("x"))));
    ConcatSingle(x, ElementPiece);
    ConcatSnoc([x], ParagraphElement(None), ElementPiece);
    assert [x] + [ParagraphElement(None)] == [x, ParagraphElement(None)];
  }
}
