/** The CSV printer, and a reader for the format it writes. */
module Csv {
  import opened Wrappers
  import opened Strings

  // ----- printing -----

  function Doubled(s: string): string {
    if s == "" then "" else (if s[0] == '"' then "\"\"" else [s[0]]) + Doubled(s[1..])
  }

  predicate NeedsQuotes(s: string) {
    exists i :: 0 <= i < |s| && (s[i] == '"' || s[i] == ',' || s[i] == '\n')
  }

  function Quote(s: string): string {
    if NeedsQuotes(s) then "\"" + Doubled(s) + "\"" else s
  }

  /** The text of a value; a missing one prints as nothing. */
  function CellText(value: Option<string>): string {
    value.GetOr("")
  }

  function EscapeCell(value: Option<string>): string {
    Quote(CellText(value))
  }

  datatype Column<!Row> = Column(header: string, value: Row -> Option<string>)

  function HeaderCells<Row>(columns: seq<Column<Row>>): seq<string> {
    if columns == [] then [] else [EscapeCell(Some(columns[0].header))] + HeaderCells(columns[1..])
  }

  function RowCells<Row>(columns: seq<Column<Row>>, row: Row): seq<string> {
    if columns == [] then [] else [EscapeCell(columns[0].value(row))] + RowCells(columns[1..], row)
  }

  function RowLines<Row>(columns: seq<Column<Row>>, rows: seq<Row>): seq<string> {
    if rows == [] then [] else [Join(RowCells(columns, rows[0]), ',')] + RowLines(columns, rows[1..])
  }

  function CsvText<Row>(columns: seq<Column<Row>>, rows: seq<Row>): string {
    Join([Join(HeaderCells(columns), ',')] + RowLines(columns, rows), '\n')
  }

  // ----- reading: the quoting rules of section 2 of RFC 4180, with LF between records -----

  datatype State = FieldStart | Bare | Quoted | Closing

  /**
   A field is bare, with no quote in it, or enclosed in quotes with each quote in it
   doubled; commas end fields and line feeds end records. None is malformed text.
   */
  function Read(
    text: string, state: State, field: string, record: seq<string>, table: seq<seq<string>>): Option<seq<seq<string>>>
    decreases |text|
  {
    if text == "" then
      if state == Quoted then None else Some(table + [record + [field]])
    else
      var c, rest := text[0], text[1..];
      match state
      case Quoted => if c == '"' then Read(rest, Closing, field, record, table)
        else Read(rest, Quoted, field + [c], record, table)
      case _ =>
        if c == ',' then Read(rest, FieldStart, "", record + [field], table)
        else if c == '\n' then Read(rest, FieldStart, "", [], table + [record + [field]])
        else if c == '"' then
          if state == FieldStart then Read(rest, Quoted, "", record, table)
          else if state == Closing then Read(rest, Quoted, field + ['"'], record, table)
          else None
        else if state == Closing then None
        else Read(rest, Bare, field + [c], record, table)
  }

  function Decode(text: string): Option<seq<seq<string>>> {
    Read(text, FieldStart, "", [], [])
  }

  // ----- reading back -----

  /** Text that may follow a complete field. */
  predicate Separated(rest: string) {
    rest != "" ==> rest[0] == ',' || rest[0] == '\n'
  }

  /** At a separator it no longer matters how the field was written. */
  lemma {:induction false} AnyStateEnds(
    rest: string, state: State, field: string, record: seq<string>, table: seq<seq<string>>)
    requires Separated(rest) && state != Quoted
    ensures Read(rest, state, field, record, table) == Read(rest, Closing, field, record, table)
  {
  }

  lemma {:induction false} ReadBare(
    s: string, rest: string, state: State, field: string, record: seq<string>, table: seq<seq<string>>)
    requires !NeedsQuotes(s) && Separated(rest) && (state == FieldStart || state == Bare)
    ensures Read(s + rest, state, field, record, table) == Read(rest, Closing, field + s, record, table)
    decreases |s|
  {
    if s == "" {
      assert s + rest == rest && field + s == field;
      AnyStateEnds(rest, state, field, record, table);
    } else {
      assert (s + rest)[1..] == s[1..] + rest;
      assert s[0] != '"' && s[0] != ',' && s[0] != '\n';
      assert forall i :: 0 <= i < |s[1..]| ==> s[1..][i] == s[i + 1];
      ReadBare(s[1..], rest, Bare, field + [s[0]], record, table);
      assert field + [s[0]] + s[1..] == field + s;
    }
  }

  lemma {:induction false} ReadQuoted(
    s: string, rest: string, field: string, record: seq<string>, table: seq<seq<string>>)
    requires Separated(rest)
    ensures Read(Doubled(s) + "\"" + rest, Quoted, field, record, table)
            == Read(rest, Closing, field + s, record, table)
    decreases |s|
  {
    var text := Doubled(s) + "\"" + rest;
    if s == "" {
      assert text[1..] == rest && field + s == field;
    } else {
      assert field + [s[0]] + s[1..] == field + s;
      ReadQuoted(s[1..], rest, field + [s[0]], record, table);
      if s[0] == '"' {
        assert text[1..][1..] == Doubled(s[1..]) + "\"" + rest;
        assert text[1..][0] == '"';
      } else {
        assert text[1..] == Doubled(s[1..]) + "\"" + rest;
      }
    }
  }

  lemma {:induction false} ReadOpening(rest: string, record: seq<string>, table: seq<seq<string>>)
    ensures Read("\"" + rest, FieldStart, "", record, table) == Read(rest, Quoted, "", record, table)
  {
    assert ("\"" + rest)[1..] == rest;
  }

  lemma {:induction false} ReadComma(rest: string, field: string, record: seq<string>, table: seq<seq<string>>)
    ensures Read("," + rest, Closing, field, record, table) == Read(rest, FieldStart, "", record + [field], table)
  {
    assert ("," + rest)[1..] == rest;
  }

  /** The end of a record: the end of the text or a line feed. */
  lemma {:induction false} ReadEnd(rest: string, field: string, record: seq<string>, table: seq<seq<string>>)
    requires rest != "" ==> rest[0] == '\n'
    ensures Read(rest, Closing, field, record, table)
         == if rest == "" then Some(table + [record + [field]])
            else Read(rest[1..], FieldStart, "", [], table + [record + [field]])
  {
  }

  lemma {:induction false} QuoteOpens(s: string, rest: string)
    requires NeedsQuotes(s)
    ensures Quote(s) + rest == "\"" + (Doubled(s) + "\"" + rest)
  {
  }

  lemma {:induction false} ReadCell(s: string, rest: string, record: seq<string>, table: seq<seq<string>>)
    requires Separated(rest)
    ensures Read(Quote(s) + rest, FieldStart, "", record, table) == Read(rest, Closing, s, record, table)
  {
    assert "" + s == s;
    if NeedsQuotes(s) {
      QuoteOpens(s, rest);
      ReadOpening(Doubled(s) + "\"" + rest, record, table);
      ReadQuoted(s, rest, "", record, table);
    } else {
      ReadBare(s, rest, FieldStart, "", record, table);
    }
  }

  function QuoteAll(cells: seq<string>): (quoted: seq<string>)
    ensures |quoted| == |cells|
  {
    if cells == [] then [] else [Quote(cells[0])] + QuoteAll(cells[1..])
  }

  function Line(cells: seq<string>): string {
    Join(QuoteAll(cells), ',')
  }

  lemma LineMore(cell: string, others: seq<string>, rest: string)
    requires others != []
    ensures Line([cell] + others) + rest == Quote(cell) + ("," + (Line(others) + rest))
  {
    assert ([cell] + others)[1..] == others;
    JoinMore(Quote(cell), QuoteAll(others), ',');
  }

  lemma {:induction false} ReadLine(cells: seq<string>, rest: string, record: seq<string>, table: seq<seq<string>>)
    requires cells != [] && (rest != "" ==> rest[0] == '\n')
    ensures Read(Line(cells) + rest, FieldStart, "", record, table)
         == if rest == "" then Some(table + [record + cells])
            else Read(rest[1..], FieldStart, "", [], table + [record + cells])
    decreases |cells|
  {
    var cell, others := cells[0], cells[1..];
    if others == [] {
      assert Line(cells) == Quote(cell);
      ReadCell(cell, rest, record, table);
      ReadEnd(rest, cell, record, table);
      assert [cell] == cells;
    } else {
      var more := Line(others) + rest;
      LineMore(cell, others, rest);
      assert cells == [cell] + others;
      ReadCell(cell, "," + more, record, table);
      ReadComma(more, cell, record, table);
      ReadLine(others, rest, record + [cell], table);
      assert record + [cell] + others == record + cells;
    }
  }

  function Lines(records: seq<seq<string>>): (lines: seq<string>)
    ensures |lines| == |records|
  {
    if records == [] then [] else [Line(records[0])] + Lines(records[1..])
  }

  lemma {:induction false} ReadLines(records: seq<seq<string>>, table: seq<seq<string>>)
    requires records != [] && forall r :: 0 <= r < |records| ==> records[r] != []
    ensures Read(Join(Lines(records), '\n'), FieldStart, "", [], table) == Some(table + records)
    decreases |records|
  {
    var first, others := records[0], records[1..];
    assert [] + first == first;
    if others == [] {
      ReadLine(first, "", [], table);
      assert Line(first) + "" == Line(first);
      assert table + [first] == table + records;
    } else {
      var rest := "\n" + Join(Lines(others), '\n');
      assert Lines(records) == [Line(first)] + Lines(others);
      JoinMore(Line(first), Lines(others), '\n');
      ReadLine(first, rest, [], table);
      assert rest[1..] == Join(Lines(others), '\n');
      ReadLines(others, table + [first]);
      assert table + [first] + others == table + records;
    }
  }

  /** What the export shows: the headers, then the text of every cell. */
  function Headers<Row>(columns: seq<Column<Row>>): (cells: seq<string>)
    ensures |cells| == |columns|
    ensures forall c :: 0 <= c < |cells| ==> cells[c] == columns[c].header
  {
    seq(|columns|, c requires 0 <= c < |columns| => columns[c].header)
  }

  function Cells<Row>(columns: seq<Column<Row>>, row: Row): (cells: seq<string>)
    ensures |cells| == |columns|
    ensures forall c :: 0 <= c < |cells| ==> cells[c] == CellText(columns[c].value(row))
  {
    seq(|columns|, c requires 0 <= c < |columns| => CellText(columns[c].value(row)))
  }

  function Table<Row>(columns: seq<Column<Row>>, rows: seq<Row>): (table: seq<seq<string>>)
    ensures |table| == |rows| + 1
    ensures table[0] == Headers(columns)
    ensures forall r :: 0 <= r < |rows| ==> table[r + 1] == Cells(columns, rows[r])
  {
    [Headers(columns)] + seq(|rows|, r requires 0 <= r < |rows| => Cells(columns, rows[r]))
  }

  lemma {:induction false} PrintsHeaders<Row>(columns: seq<Column<Row>>)
    ensures HeaderCells(columns) == QuoteAll(Headers(columns))
    decreases |columns|
  {
    if columns != [] {
      PrintsHeaders(columns[1..]);
      assert Headers(columns)[1..] == Headers(columns[1..]);
    }
  }

  lemma {:induction false} PrintsCells<Row>(columns: seq<Column<Row>>, row: Row)
    ensures RowCells(columns, row) == QuoteAll(Cells(columns, row))
    decreases |columns|
  {
    if columns != [] {
      PrintsCells(columns[1..], row);
      assert Cells(columns, row)[1..] == Cells(columns[1..], row);
    }
  }

  lemma {:induction false} PrintsRows<Row>(columns: seq<Column<Row>>, rows: seq<Row>)
    ensures RowLines(columns, rows) == Lines(Table(columns, rows)[1..])
    decreases |rows|
  {
    if rows != [] {
      PrintsCells(columns, rows[0]);
      PrintsRows(columns, rows[1..]);
      assert Table(columns, rows)[1..][1..] == Table(columns, rows[1..])[1..];
    }
  }

  lemma PrintsTheTable<Row>(columns: seq<Column<Row>>, rows: seq<Row>)
    ensures CsvText(columns, rows) == Join(Lines(Table(columns, rows)), '\n')
  {
    PrintsHeaders(columns);
    PrintsRows(columns, rows);
  }

  /** No text decodes to a record without fields. */
  lemma {:induction false} RecordsHaveFields(
    text: string, state: State, field: string, record: seq<string>, table: seq<seq<string>>)
    requires forall r :: 0 <= r < |table| ==> table[r] != []
    ensures var d := Read(text, state, field, record, table);
            d.Some? ==> d.value != [] && forall r :: 0 <= r < |d.value| ==> d.value[r] != []
    decreases |text|
  {
    if text != "" {
      var c, rest := text[0], text[1..];
      if state == Quoted {
        RecordsHaveFields(rest, if c == '"' then Closing else Quoted, if c == '"' then field
          else field + [c], record, table);
      } else if c == ',' {
        RecordsHaveFields(rest, FieldStart, "", record + [field], table);
      } else if c == '\n' {
        RecordsHaveFields(rest, FieldStart, "", [], table + [record + [field]]);
      } else if c == '"' {
        RecordsHaveFields(rest, Quoted, if state == FieldStart then "" else field + ['"'], record, table);
      } else {
        RecordsHaveFields(rest, Bare, field + [c], record, table);
      }
    }
  }

  /** The export reads back as the table it shows, exactly when it has a column. */
  lemma ExportIsInvertible<Row>(columns: seq<Column<Row>>, rows: seq<Row>)
    ensures Decode(CsvText(columns, rows)) == Some(Table(columns, rows)) <==> columns != []
  {
    if columns != [] {
      PrintsTheTable(columns, rows);
      ReadLines(Table(columns, rows), []);
      assert [] + Table(columns, rows) == Table(columns, rows);
    } else {
      RecordsHaveFields(CsvText(columns, rows), FieldStart, "", [], []);
      assert Table(columns, rows)[0] == [];
    }
  }

  /** So two exports with columns are the same text exactly when they show the same table. */
  lemma DistinctTablesPrintDifferently<Row, Other>(
    columns: seq<Column<Row>>, rows: seq<Row>, columns': seq<Column<Other>>, rows': seq<Other>)
    requires columns != [] && columns' != []
    ensures CsvText(columns, rows) == CsvText(columns', rows') <==> Table(columns, rows) == Table(columns', rows')
  {
    ExportIsInvertible(columns, rows);
    ExportIsInvertible(columns', rows');
    PrintsTheTable(columns, rows);
    PrintsTheTable(columns', rows');
  }

  // ----- the end of the file -----

  predicate EndsIn(text: string, c: char) {
    text != "" && text[|text| - 1] == c
  }

  lemma EndsInLater(text: string, more: string, c: char)
    requires more != ""
    ensures EndsIn(text + more, c) <==> EndsIn(more, c)
  {
  }

  /** A joined text ends in `c` when its last part does, or is empty after a separator `c`. */
  lemma {:induction false} JoinEnds(parts: seq<string>, separator: char, c: char)
    requires parts != []
    ensures var last := parts[|parts| - 1];
            EndsIn(Join(parts, separator), c) <==> EndsIn(last, c) || (last == "" && |parts| > 1 && separator == c)
    decreases |parts|
  {
    if |parts| > 1 {
      JoinEnds(parts[1..], separator, c);
      var joined := Join(parts[1..], separator);
      EndsInLater(parts[0], [separator] + joined, c);
      if joined != "" {
        EndsInLater([separator], joined, c);
      } else {
        JoinEmpty(parts[1..], separator);
      }
      assert parts == [parts[0]] + parts[1..];
      JoinMore(parts[0], parts[1..], separator);
    }
  }

  lemma {:induction false} JoinEmpty(parts: seq<string>, separator: char)
    requires parts != []
    ensures Join(parts, separator) == "" <==> parts == [""]
  {
  }

  lemma {:induction false} LastQuoted(cells: seq<string>)
    requires cells != []
    ensures QuoteAll(cells)[|cells| - 1] == Quote(cells[|cells| - 1])
  {
    if |cells| > 1 {
      LastQuoted(cells[1..]);
    }
  }

  lemma {:induction false} LastLine(records: seq<seq<string>>)
    requires records != []
    ensures Lines(records)[|records| - 1] == Line(records[|records| - 1])
  {
    if |records| > 1 {
      LastLine(records[1..]);
    }
  }

  /** No line of the export ends in a line feed, and only a line of one empty cell is empty. */
  lemma LineEnds(cells: seq<string>)
    requires cells != []
    ensures !EndsIn(Line(cells), '\n')
    ensures Line(cells) == "" <==> cells == [""]
  {
    LastQuoted(cells);
    JoinEnds(QuoteAll(cells), ',', '\n');
    JoinEmpty(QuoteAll(cells), ',');
    if |cells| == 1 {
      assert QuoteAll(cells) == [Quote(cells[0])];
    }
  }

  /**
   RFC 4180 lets a reader take a final line break for the end of the last record
   instead of the start of another. The export ends in one, and so loses its last row
   to such a reader, exactly when that row is one empty cell.
   */
  lemma EndsInLineBreak<Row>(columns: seq<Column<Row>>, rows: seq<Row>)
    requires columns != []
    ensures EndsIn(CsvText(columns, rows), '\n') <==> rows != [] && Cells(columns, rows[|rows| - 1]) == [""]
  {
    PrintsTheTable(columns, rows);
    var table := Table(columns, rows);
    LastLine(table);
    LineEnds(table[|rows|]);
    JoinEnds(Lines(table), '\n', '\n');
  }

  lemma {:induction false} DoubledLength(s: string)
    ensures |Doubled(s)| == |s| + multiset(s)['"']
  {
    if s != "" {
      assert s == [s[0]] + s[1..];
      DoubledLength(s[1..]);
    }
  }

  /** A cell is quoted only when it must be, and then grows by the two quotes and one more for each quote in it. */
  lemma QuotedOnlyWhenNeeded(value: Option<string>)
    ensures var text := if value.Some? then value.value else "";
            if '"' in text || ',' in text || '\n' in text
            then |EscapeCell(value)| == |text| + 2 + multiset(text)['"']
            else EscapeCell(value) == text
  {
    DoubledLength(CellText(value));
  }
}
