/** The quote-aware reader for schema tables. */
module Csv {
  type Row = seq<string>
  type Table = seq<Row>

  const QUOTE := '\"'

  predicate IsBreak(c: char) {
    c == '\n' || c == '\r'
  }

  /** One left-to-right pass: rows so far, fields of the open row, text of the open field. */
  function Parse(text: string, rows: Table, row: Row, field: string, quoted: bool): Table
    decreases |text|
  {
    if text == [] then
      if field != [] || row != [] then rows + [row + [field]] else rows
    else if quoted then
      if text[0] != QUOTE then Parse(text[1..], rows, row, field + [text[0]], true)
      else if |text| > 1 && text[1] == QUOTE then Parse(text[2..], rows, row, field + [QUOTE], true)
      else Parse(text[1..], rows, row, field, false)
    else if text[0] == QUOTE then Parse(text[1..], rows, row, field, true)
    else if text[0] == ',' then Parse(text[1..], rows, row + [field], [], false)
    else if IsBreak(text[0]) then
      Parse(if text[0] == '\r' && |text| > 1 && text[1] == '\n' then text[2..]
        else text[1..], rows + [row + [field]], [], [], false)
    else Parse(text[1..], rows, row, field + [text[0]], false)
  }

  method ParseSimpleCsv(text: string) returns (rows: Table)
    ensures rows == Parse(text, [], [], [], false)
  {
    rows := [];
    var row: Row, field, quoted := [], [], false;
    var i := 0;
    while i < |text|
      invariant i <= |text| && Parse(text[i..], rows, row, field, quoted) == Parse(text, [], [], [], false)
    {
      var c := text[i];
      ghost var rest := text[i..];
      assert rest[0] == c && rest[1..] == text[i + 1..]
        && (i + 1 < |text| ==> rest[1] == text[i + 1] && rest[2..] == text[i + 2..]);
      if quoted {
        if c == QUOTE {
          if i + 1 < |text| && text[i + 1] == QUOTE {
            field := field + [QUOTE];
            i := i + 1;
          } else {
            quoted := false;
          }
        } else {
          field := field + [c];
        }
      } else if c == QUOTE {
        quoted := true;
      } else if c == ',' {
        row, field := row + [field], [];
      } else if c == '\n' || c == '\r' {
        if c == '\r' && i + 1 < |text| && text[i + 1] == '\n' {
          i := i + 1;
        }
        rows := rows + [row + [field]];
        row, field := [], [];
      } else {
        field := field + [c];
      }
      i := i + 1;
    }
    if field != [] || row != [] {
      rows := rows + [row + [field]];
    }
  }

  // ------------------------------------------------------------------ spellings (section 2 of RFC 4180, and more)

  datatype Ending = LF | CRLF | CR

  /** A stretch of a field: written as it is, or in quotes with its own quotes doubled. */
  datatype Piece = Bare(text: string) | InQuotes(text: string)

  /** How one field is written. No piece at all writes the empty field as nothing. */
  type Cell = seq<Piece>

  datatype Line = Line(cells: seq<Cell>, ending: Ending)

  predicate Ordinary(c: char) {
    c != QUOTE && c != ',' && !IsBreak(c)
  }

  predicate PieceOk(p: Piece) {
    p.Bare? ==> p.text != [] && forall c :: c in p.text ==> Ordinary(c)
  }

  /** Quotes may open anywhere in a field, but not right where other quotes close: that is a doubled quote. */
  predicate CellOk(cell: Cell) {
    && (forall i :: 0 <= i < |cell| ==> PieceOk(cell[i]))
    && forall i :: 0 <= i < |cell| - 1 ==> cell[i].Bare? || cell[i + 1].Bare?
  }

  predicate CellsOk(cells: seq<Cell>) {
    cells != [] && forall i :: 0 <= i < |cells| ==> CellOk(cells[i])
  }

  /** A line that ends with CR is not followed by an empty one that ends with LF: that is one line that ends with
      CR LF. */
  predicate LinesOk(lines: seq<Line>) {
    && (forall i :: 0 <= i < |lines| ==> CellsOk(lines[i].cells))
    && forall i :: 0 <= i < |lines| - 1 && lines[i].ending.CR? ==> lines[i + 1] != Line([[]], LF)
  }

  // What is meant.

  function Text(cell: Cell): string {
    if cell == [] then [] else cell[0].text + Text(cell[1..])
  }

  function Texts(cells: seq<Cell>): Row {
    seq(|cells|, i requires 0 <= i < |cells| => Text(cells[i]))
  }

  function Rows(lines: seq<Line>): Table {
    seq(|lines|, i requires 0 <= i < |lines| => Texts(lines[i].cells))
  }

  // How it is written.

  function Chars(e: Ending): string {
    match e
    case LF => ['\n']
    case CRLF => ['\r', '\n']
    case CR => ['\r']
  }

  function Doubled(field: string): string {
    if field == [] then [] else (if field[0] == QUOTE then [QUOTE, QUOTE] else [field[0]]) + Doubled(field[1..])
  }

  function SpellPiece(p: Piece): string {
    match p
    case Bare(text) => text
    case InQuotes(text) => [QUOTE] + Doubled(text) + [QUOTE]
  }

  function SpellCell(cell: Cell): string {
    if cell == [] then [] else SpellPiece(cell[0]) + SpellCell(cell[1..])
  }

  function SpellCells(cells: seq<Cell>): string {
    if cells == [] then [] else
      SpellCell(cells[0]) + if |cells| == 1 then [] else [','] + SpellCells(cells[1..])
  }

  function Spell(lines: seq<Line>): string {
    if lines == [] then [] else SpellCells(lines[0].cells) + Chars(lines[0].ending) + Spell(lines[1..])
  }

  // ------------------------------------------------------------------ reading it back

  lemma {:induction false} ReadDoubled(field: string, tail: string, rows: Table, row: Row, acc: string)
    requires tail == [] || tail[0] != QUOTE
    ensures Parse(Doubled(field) + [QUOTE] + tail, rows, row, acc, true) == Parse(tail, rows, row, acc + field, false)
    decreases |field|
  {
    var text := Doubled(field) + [QUOTE] + tail;
    if field == [] {
      assert text == [QUOTE] + tail && text[1..] == tail && acc + field == acc;
    } else {
      var rest := Doubled(field[1..]) + [QUOTE] + tail;
      assert acc + field == acc + [field[0]] + field[1..];
      if field[0] == QUOTE { assert text == [QUOTE, QUOTE] + rest && text[2..] == rest; }
      else { assert text == [field[0]] + rest && text[1..] == rest; }
      ReadDoubled(field[1..], tail, rows, row, acc + [field[0]]);
    }
  }

  lemma {:induction false} ReadBare(text: string, tail: string, rows: Table, row: Row, acc: string)
    requires forall c :: c in text ==> Ordinary(c)
    ensures Parse(text + tail, rows, row, acc, false) == Parse(tail, rows, row, acc + text, false)
    decreases |text|
  {
    if text == [] {
      assert text + tail == tail && acc + text == acc;
    } else {
      assert (text + tail)[0] == text[0] && text[0] in text && (text + tail)[1..] == text[1..] + tail;
      ReadBare(text[1..], tail, rows, row, acc + [text[0]]);
      assert acc + text == acc + [text[0]] + text[1..];
    }
  }

  lemma OpensQuotes(rest: string, rows: Table, row: Row, field: string)
    ensures Parse([QUOTE] + rest, rows, row, field, false) == Parse(rest, rows, row, field, true)
  {
    assert ([QUOTE] + rest)[1..] == rest;
  }

  lemma ReadPiece(p: Piece, tail: string, rows: Table, row: Row, acc: string)
    requires PieceOk(p) && (p.Bare? || tail == [] || tail[0] != QUOTE)
    ensures Parse(SpellPiece(p) + tail, rows, row, acc, false) == Parse(tail, rows, row, acc + p.text, false)
  {
    hide Parse, Doubled;
    if p.Bare? {
      ReadBare(p.text, tail, rows, row, acc);
    } else {
      var rest := Doubled(p.text) + [QUOTE] + tail;
      assert SpellPiece(p) + tail == [QUOTE] + rest;
      OpensQuotes(rest, rows, row, acc);
      ReadDoubled(p.text, tail, rows, row, acc);
    }
  }

  /** A field reads back as its pieces, one after the other. */
  lemma FirstPiece(cell: Cell, tail: string, acc: string)
    requires cell != []
    ensures SpellCell(cell) + tail == SpellPiece(cell[0]) + (SpellCell(cell[1..]) + tail)
    ensures acc + cell[0].text + Text(cell[1..]) == acc + Text(cell)
  {
    hide SpellPiece;
    assert SpellCell(cell) == SpellPiece(cell[0]) + SpellCell(cell[1..]);
    assert Text(cell) == cell[0].text + Text(cell[1..]);
    Associative(SpellPiece(cell[0]), SpellCell(cell[1..]), tail);
    Associative(acc, cell[0].text, Text(cell[1..]));
  }

  lemma Associative(a: string, b: string, c: string)
    ensures a + b + c == a + (b + c)
  {
  }

  lemma {:induction false} ReadCell(cell: Cell, tail: string, rows: Table, row: Row, acc: string)
    requires CellOk(cell) && (cell == [] || cell[|cell| - 1].Bare? || tail == [] || tail[0] != QUOTE)
    ensures Parse(SpellCell(cell) + tail, rows, row, acc, false) == Parse(tail, rows, row, acc + Text(cell), false)
    decreases |cell|
  {
    hide Parse, Ordinary;
    if cell == [] {
      assert SpellCell(cell) + tail == tail && acc + Text(cell) == acc;
    } else {
      var rest := SpellCell(cell[1..]) + tail;
      FirstPiece(cell, tail, acc);
      if |cell| > 1 && cell[0].InQuotes? { StartsBare(cell[1..], tail); }
      ReadPiece(cell[0], rest, rows, row, acc);
      ReadCell(cell[1..], tail, rows, row, acc + cell[0].text);
    }
  }

  lemma StartsBare(cell: Cell, tail: string)
    requires CellOk(cell) && cell != [] && cell[0].Bare?
    ensures var text := SpellCell(cell) + tail; text != [] && text[0] != QUOTE
  {
    assert PieceOk(cell[0]) && cell[0].text[0] in cell[0].text;
  }

  lemma ReadComma(tail: string, rows: Table, row: Row, field: string)
    ensures Parse([','] + tail, rows, row, field, false) == Parse(tail, rows, row + [field], [], false)
  {
    assert ([','] + tail)[1..] == tail;
  }

  /** A row reads back as its fields, the last one still open. */
  lemma {:induction false} ReadCells(cells: seq<Cell>, tail: string, rows: Table, row: Row)
    requires CellsOk(cells) && (tail == [] || tail[0] != QUOTE)
    ensures Parse(SpellCells(cells) + tail, rows, row, [], false) ==
      Parse(tail, rows, row + Texts(cells[..|cells| - 1]), Text(cells[|cells| - 1]), false)
    decreases |cells|
  {
    hide Parse, CellOk, SpellCell;
    if |cells| == 1 {
      assert SpellCells(cells) + tail == SpellCell(cells[0]) + tail;
      ReadCell(cells[0], tail, rows, row, []);
      assert row + Texts(cells[..0]) == row && [] + Text(cells[0]) == Text(cells[0]);
    } else {
      var rest := SpellCells(cells[1..]) + tail;
      assert SpellCells(cells) + tail == SpellCell(cells[0]) + ([','] + rest);
      ReadCell(cells[0], [','] + rest, rows, row, []);
      assert [] + Text(cells[0]) == Text(cells[0]);
      ReadComma(rest, rows, row, Text(cells[0]));
      ReadCells(cells[1..], tail, rows, row + [Text(cells[0])]);
      assert row + [Text(cells[0])] + Texts(cells[1..][..|cells| - 2]) == row + Texts(cells[..|cells| - 1]);
    }
  }

  lemma ReadEnding(e: Ending, tail: string, rows: Table, row: Row, field: string)
    requires e.CR? && tail != [] ==> tail[0] != '\n'
    ensures Parse(Chars(e) + tail, rows, row, field, false) == Parse(tail, rows + [row + [field]], [], [], false)
  {
    var text := Chars(e) + tail;
    assert text[|Chars(e)|..] == tail;
  }

  lemma TextsWhole(cells: seq<Cell>)
    requires cells != []
    ensures Texts(cells[..|cells| - 1]) + [Text(cells[|cells| - 1])] == Texts(cells)
  {
  }

  /** One line reads back. */
  lemma ReadLine(line: Line, rest: string, rows: Table)
    requires CellsOk(line.cells) && (line.ending.CR? && rest != [] ==> rest[0] != '\n')
    ensures Parse(SpellCells(line.cells) + (Chars(line.ending) + rest), rows, [], [], false) ==
      Parse(rest, rows + [Texts(line.cells)], [], [], false)
  {
    hide Parse, SpellCells, CellsOk, Texts;
    var cells, tail := line.cells, Chars(line.ending) + rest;
    assert cells != [] by { assert CellsOk(cells); SomeCells(cells); }
    ReadCells(cells, tail, rows, []);
    var front := Texts(cells[..|cells| - 1]);
    assert [] + front == front;
    ReadEnding(line.ending, rest, rows, front, Text(cells[|cells| - 1]));
    TextsWhole(cells);
  }

  lemma SomeCells(cells: seq<Cell>)
    requires CellsOk(cells)
    ensures cells != []
  {
  }

  /** No field starts with a line break, and nothing that starts with one is a field. */
  lemma NoBreakFirst(cells: seq<Cell>, tail: string)
    requires CellsOk(cells) && (cells != [[]] || tail == [] || tail[0] != '\n')
    ensures var text := SpellCells(cells) + tail; text == [] || text[0] != '\n'
  {
    var cell := cells[0];
    assert CellOk(cell);
    if cell != [] { assert PieceOk(cell[0]) && (cell[0].Bare? ==> cell[0].text[0] in cell[0].text); }
  }

  lemma NextStarts(line: Line, rest: string)
    requires CellsOk(line.cells) && line != Line([[]], LF)
    ensures var text := SpellCells(line.cells) + (Chars(line.ending) + rest); text != [] && text[0] != '\n'
  {
    hide CellsOk, SpellCells;
    NoBreakFirst(line.cells, Chars(line.ending) + rest);
  }

  lemma {:induction false} ReadLines(lines: seq<Line>, tail: string, rows: Table)
    requires LinesOk(lines) && (tail == [] || tail[0] != '\n')
    ensures Parse(Spell(lines) + tail, rows, [], [], false) == Parse(tail, rows + Rows(lines), [], [], false)
    decreases |lines|
  {
    hide Parse, SpellCells, Chars, CellsOk, Texts;
    if lines == [] {
      assert rows + Rows(lines) == rows && Spell(lines) + tail == tail;
    } else {
      var line, rest := lines[0], Spell(lines[1..]) + tail;
      SpellFirst(lines, tail);
      AfterReturn(lines, tail);
      ReadLine(line, rest, rows);
      ReadLines(lines[1..], tail, rows + [Texts(line.cells)]);
      assert rows + [Texts(line.cells)] + Rows(lines[1..]) == rows + Rows(lines);
    }
  }

  lemma SpellFirst(lines: seq<Line>, tail: string)
    requires lines != []
    ensures Spell(lines) + tail == SpellCells(lines[0].cells) + (Chars(lines[0].ending) + (Spell(lines[1..]) + tail))
  {
    hide SpellCells, Chars;
  }

  /** What follows the first line does not start with a line feed. */
  lemma AfterReturn(lines: seq<Line>, tail: string)
    requires LinesOk(lines) && lines != [] && (tail == [] || tail[0] != '\n')
    ensures lines[0].ending.CR? ==> Spell(lines[1..]) + tail == [] || (Spell(lines[1..]) + tail)[0] != '\n'
  {
    hide Parse, SpellCells, Chars, CellsOk, Texts;
    if |lines| > 1 && lines[0].ending.CR? {
      SpellFirst(lines[1..], tail);
      NextStarts(lines[1], Spell(lines[1..][1..]) + tail);
    } else if |lines| == 1 {
      assert Spell(lines[1..]) + tail == tail;
    }
  }

  lemma ReadNothing(rows: Table)
    ensures Parse([], rows, [], [], false) == rows
  {
  }

  /** Whatever way the fields of a table are written, plain, in quotes or partly so, and however its lines end, parsing
      gives the table back. */
  lemma RoundTrip(lines: seq<Line>)
    requires LinesOk(lines)
    ensures Parse(Spell(lines), [], [], [], false) == Rows(lines)
  {
    ReadLines(lines, [], []);
    ReadNothing(Rows(lines));
    assert Spell(lines) + [] == Spell(lines) && [] + Rows(lines) == Rows(lines);
  }

  /** At the end of the text an open row is kept, unless it is a single empty field. */
  lemma ReadEnd(rows: Table, row: Row, field: string, quoted: bool)
    ensures Parse([], rows, row, field, quoted) == if field != [] || row != [] then rows + [row + [field]] else rows
  {
  }

  /** Without the ending after the last line, the table comes back unless that line is a single empty field. */
  lemma OpenEnd(lines: seq<Line>, last: seq<Cell>)
    requires LinesOk(lines) && CellsOk(last)
    ensures Parse(Spell(lines) + SpellCells(last), [], [], [], false) == Rows(lines) + [Texts(last)]
      <==> Texts(last) != [[]]
  {
    hide Parse, SpellCells, Spell, CellsOk, LinesOk, Rows;
    SomeCells(last);
    assert SpellCells(last) + [] == SpellCells(last) && [] + Rows(lines) == Rows(lines);
    NoBreakFirst(last, []);
    ReadLines(lines, SpellCells(last), []);
    ReadCells(last, [], Rows(lines), []);
    var front, end := Texts(last[..|last| - 1]), Text(last[|last| - 1]);
    assert [] + front == front;
    TextsWhole(last);
    ReadEnd(Rows(lines), front, end, false);
    assert Texts(last) == [[]] <==> front == [] && end == [] by {
      assert (front + [end])[|front|] == end && |front + [end]| == |front| + 1;
    }
    assert |Rows(lines) + [Texts(last)]| == |Rows(lines)| + 1;
  }

  lemma {:induction false} ReadUnclosed(field: string, rows: Table, row: Row, acc: string)
    ensures Parse(Doubled(field), rows, row, acc, true) == Parse([], rows, row, acc + field, true)
    decreases |field|
  {
    var text := Doubled(field);
    if field == [] {
      assert acc + field == acc;
    } else {
      assert acc + field == acc + [field[0]] + field[1..];
      if field[0] == QUOTE {
        assert text[2..] == Doubled(field[1..]);
      } else {
        assert text[1..] == Doubled(field[1..]);
      }
      ReadUnclosed(field[1..], rows, row, acc + [field[0]]);
    }
  }

  /** Quotes that are never closed take the rest of the text, commas and line breaks included. */
  lemma OpenQuotes(lines: seq<Line>, last: Cell, rest: string)
    requires LinesOk(lines) && CellOk(last) && (last != [] ==> last[|last| - 1].Bare?) && Text(last) + rest != []
    ensures Parse(Spell(lines) + (SpellCell(last) + ([QUOTE] + Doubled(rest))), [], [], [], false)
      == Rows(lines) + [[Text(last) + rest]]
  {
    hide Parse, Spell, CellOk, LinesOk, Rows, SpellCell, Text;
    var tail := [QUOTE] + Doubled(rest);
    assert [] + Rows(lines) == Rows(lines) && [] + Text(last) == Text(last);
    NoBreak(last, tail);
    ReadLines(lines, SpellCell(last) + tail, []);
    ReadCell(last, tail, Rows(lines), [], []);
    OpensQuotes(Doubled(rest), Rows(lines), [], Text(last));
    ReadUnclosed(rest, Rows(lines), [], Text(last));
    ReadEnd(Rows(lines), [], Text(last) + rest, true);
    assert [] + [Text(last) + rest] == [Text(last) + rest];
  }

  lemma NoBreak(cell: Cell, tail: string)
    requires CellOk(cell) && tail != [] && tail[0] == QUOTE
    ensures (SpellCell(cell) + tail)[0] != '\n'
  {
    if cell != [] { assert PieceOk(cell[0]) && (cell[0].Bare? ==> cell[0].text[0] in cell[0].text); }
  }

  /** Where quotes open right after others close, the reader sees a quote instead. */
  lemma TouchingQuotes(a: string, b: string)
    ensures Parse(SpellCell([InQuotes(a), InQuotes(b)]) + ['\n'], [], [], [], false) == [[a + [QUOTE] + b]]
  {
    hide Parse, Doubled, Spell;
    var whole := InQuotes(a + [QUOTE] + b);
    var line := Line([[whole]], LF);
    DoubledMiddle(a, b);
    TwoPieces(InQuotes(a), InQuotes(b));
    OnePiece(whole);
    assert SpellPiece(InQuotes(a)) + SpellPiece(InQuotes(b)) == SpellPiece(whole);
    OneLine(line);
    RoundTrip([line]);
    assert Texts(line.cells) == [Text([whole])];
    assert Rows([line]) == [Texts(line.cells)];
  }

  lemma OnePiece(p: Piece)
    ensures SpellCell([p]) == SpellPiece(p) && Text([p]) == p.text
  {
    assert [p][1..] == [];
  }

  lemma TwoPieces(p: Piece, q: Piece)
    ensures SpellCell([p, q]) == SpellPiece(p) + SpellPiece(q)
  {
    hide SpellPiece;
    assert [p, q][1..] == [q];
    OnePiece(q);
  }

  lemma OneLine(line: Line)
    requires |line.cells| == 1
    ensures Spell([line]) == SpellCell(line.cells[0]) + Chars(line.ending)
  {
    hide SpellCell;
    assert [line][1..] == [];
  }

  lemma {:induction false} DoubledMiddle(a: string, b: string)
    ensures Doubled(a + [QUOTE] + b) == Doubled(a) + [QUOTE, QUOTE] + Doubled(b)
    decreases |a|
  {
    var all := a + [QUOTE] + b;
    if a == [] {
      assert all == [QUOTE] + b && all[1..] == b;
    } else {
      assert all[1..] == a[1..] + [QUOTE] + b;
      DoubledMiddle(a[1..], b);
    }
  }

  /** Every table has a spelling, whatever its fields contain: all of it in quotes. */
  lemma QuotedIsSpelling(table: Table, endings: seq<Ending>)
    requires |endings| == |table| && forall i :: 0 <= i < |table| ==> table[i] != []
    ensures LinesOk(AllQuoted(table, endings)) && Rows(AllQuoted(table, endings)) == table
  {
    var lines := AllQuoted(table, endings);
    forall i, j | 0 <= i < |table| && 0 <= j < |table[i]| ensures Text(lines[i].cells[j]) == table[i][j] {
      assert lines[i].cells[j] == [InQuotes(table[i][j])];
      assert Text(lines[i].cells[j][1..]) == [];
    }
    forall i | 0 <= i < |table| ensures Texts(lines[i].cells) == table[i] && lines[i].cells != [[]] {
      assert lines[i].cells[0] != [];
    }
  }

  function AllQuoted(table: Table, endings: seq<Ending>): seq<Line>
    requires |endings| == |table|
  {
    seq(|table|, i requires 0 <= i < |table| =>
      Line(seq(|table[i]|, j requires 0 <= j < |table[i]| => [InQuotes(table[i][j])]), endings[i]))
  }
}
