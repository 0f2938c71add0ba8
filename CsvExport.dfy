/** The CSV writer both exports use (the stock list and the move history): an unquoted header
  * line, then one line per row with every cell wrapped in double quotes, joined by line feeds. */
module CsvExport {
  import opened Strings
  import opened CsvParser

  /** A cell wrapped in double quotes, with quotes inside it left as they are. */
  function Quote(cell: string): string {
    "\"" + cell + "\""
  }

  function QuoteAll(cells: seq<string>): (r: seq<string>)
    ensures |r| == |cells|
    ensures forall k :: 0 <= k < |cells| ==> r[k] == Quote(cells[k])
  {
    if cells == [] then [] else [Quote(cells[0])] + QuoteAll(cells[1..])
  }

  /** One data line: every cell quoted, joined by commas. */
  function QuotedLine(cells: seq<string>): string {
    Join(QuoteAll(cells), ",")
  }

  function QuotedLines(rows: seq<seq<string>>): (r: seq<string>)
    ensures |r| == |rows|
    ensures forall k :: 0 <= k < |rows| ==> r[k] == QuotedLine(rows[k])
  {
    if rows == [] then [] else [QuotedLine(rows[0])] + QuotedLines(rows[1..])
  }

  /** The exported text: the header names joined by commas, then the data lines, one per row in
    * order, all joined by line feeds; with no rows, the header line alone. */
  function ExportContent(headers: seq<string>, rows: seq<seq<string>>): (r: string)
    ensures rows == [] ==> r == Join(headers, ",")
  {
    Join([Join(headers, ",")] + QuotedLines(rows), "\n")
  }

  /** The file as saved: a byte-order mark, then the content. */
  function WithBom(content: string): (r: string)
    ensures |r| == |content| + 1 && r[0] == '\U{FEFF}' && r[1..] == content
  {
    "\U{FEFF}" + content
  }

  /** A quoted line of two or more cells: the first cell quoted, a comma, the rest. */
  lemma QuotedLineCons(cells: seq<string>)
    requires |cells| >= 2
    ensures QuotedLine(cells) == "\"" + cells[0] + "\"" + ("," + QuotedLine(cells[1..]))
  {
    assert QuoteAll(cells)[1..] == QuoteAll(cells[1..]);
  }

  /** Reading the first of two or more quoted cells stores it and moves on to the rest. */
  lemma ScanFirstCell(fields: seq<string>, cells: seq<string>)
    requires |cells| >= 2 && '"' !in cells[0] && Trim(cells[0]) == cells[0]
    ensures ScanFrom(QuotedLine(cells), Scan(fields, "", false))
      == ScanFrom(QuotedLine(cells[1..]), Scan(fields + [cells[0]], "", false))
  {
    var rest := QuotedLine(cells[1..]);
    QuotedLineCons(cells);
    ScanQuotedField(fields, cells[0], "," + rest);
    assert ("," + rest)[0] == ',' && ("," + rest)[1..] == rest;
  }

  /** The last cell of a quoted line is left as the current field. */
  lemma ScanLastCell(fields: seq<string>, c: string)
    requires '"' !in c
    ensures ScanFrom(QuotedLine([c]), Scan(fields, "", false)) == Scan(fields, c, false)
  {
    assert QuotedLine([c]) == "\"" + c + "\"" + [];
    ScanQuotedField(fields, c, []);
  }

  lemma PrefixStep(fields: seq<string>, cells: seq<string>)
    requires |cells| >= 2
    ensures fields + [cells[0]] + cells[1..][..|cells| - 2] == fields + cells[..|cells| - 1]
  {
  }

  /** Reading the cells of a quoted line back, as far as the last one. */
  lemma {:induction false} ScanQuotedLine(fields: seq<string>, cells: seq<string>)
    requires |cells| >= 1
    requires forall k :: 0 <= k < |cells| ==> '"' !in cells[k] && Trim(cells[k]) == cells[k]
    ensures ScanFrom(QuotedLine(cells), Scan(fields, "", false)) == Scan(fields + cells[..|cells| - 1], cells[|cells| - 1], false)
    decreases |cells|
  {
    if |cells| == 1 {
      ScanLastCell(fields, cells[0]);
      assert fields + cells[..0] == fields;
    } else {
      ScanFirstCell(fields, cells);
      ScanQuotedLine(fields + [cells[0]], cells[1..]);
      PrefixStep(fields, cells);
    }
  }

  /** A quoted line reads back as its cells with the CSV reader, as long as no cell holds a
    * double quote and no cell has surrounding white space (the reader trims every field). */
  lemma QuotedLineRoundTrip(cells: seq<string>)
    requires |cells| >= 1
    requires forall k :: 0 <= k < |cells| ==> '"' !in cells[k] && Trim(cells[k]) == cells[k]
    ensures ParseLine(QuotedLine(cells)) == cells
  {
    ScanQuotedLine([], cells);
    LastSplit(cells);
  }

  lemma LastSplit(cells: seq<string>)
    requires |cells| >= 1
    ensures [] + cells[..|cells| - 1] + [cells[|cells| - 1]] == cells
  {
  }

  /** A quote inside a cell is not doubled, so the reader drops it: the cell `a"b` is written
    * `"a"b"` and read back as `ab` (rule 7 of RFC 4180 section 2 is not honoured). */
  lemma QuoteInCellIsLost()
    ensures QuotedLine(["a\"b"]) == "\"a\"b\""
    ensures ParseLine(QuotedLine(["a\"b"])) == ["ab"]
  {
    assert QuotedLine(["a\"b"]) == "\"a\"b\"";
    QuoteInCellScan();
    assert !IsJsSpace('a') && !IsJsSpace('b');
    assert Trim("ab") == "ab";
  }

  /** The reader's walk over `"a"b"`: the second quote closes the quoted part, the last one
    * opens another, and neither is kept. */
  lemma QuoteInCellScan()
    ensures ScanFrom("\"a\"b\"", Scan([], "", false)) == Scan([], "ab", true)
  {
    var line := "\"a\"b\"";
    assert line[1..] == "a\"b\"" && line[2..] == "\"b\"" && line[3..] == "b\"" && line[4..] == "\"";
    assert ScanFrom(line, Scan([], "", false)) == ScanFrom(line[1..], Scan([], "", true));
    assert ScanFrom(line[1..], Scan([], "", true)) == ScanFrom(line[2..], Scan([], "a", true));
    assert ScanFrom(line[2..], Scan([], "a", true)) == ScanFrom(line[3..], Scan([], "a", false));
    assert ScanFrom(line[3..], Scan([], "a", false)) == ScanFrom(line[4..], Scan([], "ab", false));
    assert ScanFrom(line[4..], Scan([], "ab", false)) == ScanFrom(line[5..], Scan([], "ab", true));
    assert line[5..] == [];
  }

  /** No text in the row can break a line or a quoted cell, and the reader's trimming keeps it. */
  predicate CleanRow(cells: seq<string>) {
    forall k :: 0 <= k < |cells| ==> '\n' !in cells[k] && '"' !in cells[k] && Trim(cells[k]) == cells[k]
  }

  lemma {:induction false} JoinAvoids(parts: seq<string>, sep: string, c: char)
    requires c !in sep
    requires forall k :: 0 <= k < |parts| ==> c !in parts[k]
    ensures c !in Join(parts, sep)
    decreases |parts|
  {
    if |parts| > 1 {
      JoinAvoids(parts[1..], sep, c);
    }
  }

  lemma QuotedLineNoNewline(cells: seq<string>)
    requires forall k :: 0 <= k < |cells| ==> '\n' !in cells[k]
    ensures '\n' !in QuotedLine(cells)
  {
    forall k | 0 <= k < |cells| ensures '\n' !in QuoteAll(cells)[k] {
      assert QuoteAll(cells)[k] == "\"" + cells[k] + "\"";
    }
    JoinAvoids(QuoteAll(cells), ",", '\n');
  }

  /** An export splits back into its header line and one line per row, and each data line reads
    * back as its row, as long as the rows are clean and no header holds a line feed. */
  lemma ExportRoundTrip(headers: seq<string>, rows: seq<seq<string>>)
    requires '\n' !in Join(headers, ",")
    requires forall k :: 0 <= k < |rows| ==> |rows[k]| >= 1 && CleanRow(rows[k])
    ensures var lines := Split(ExportContent(headers, rows), '\n');
      |lines| == |rows| + 1 && lines[0] == Join(headers, ",")
      && forall k :: 0 <= k < |rows| ==> ParseLine(lines[k + 1]) == rows[k]
  {
    var parts := [Join(headers, ",")] + QuotedLines(rows);
    forall k | 1 <= k < |parts|
      ensures '\n' !in parts[k]
    {
      QuotedLineNoNewline(rows[k - 1]);
    }
    SplitJoin(parts, '\n');
    forall k | 0 <= k < |rows|
      ensures ParseLine(parts[k + 1]) == rows[k]
    {
      QuotedLineRoundTrip(rows[k]);
    }
  }
}
