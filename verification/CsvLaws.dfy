/** Parsing undoes printing, and what the reader does on texts nobody printed. */
module CsvLaws {
  import opened Wrappers
  import opened Csv

  /** What follows a row: nothing, or a line break. */
  predicate EndsRow(rest: string) {
    rest == "" || IsBreak(rest[0])
  }

  /** The reader inside a row's last field, its earlier fields collected. */
  function AfterRow(r: Reader, row: Row): Reader
    requires row != []
  {
    r.(row := r.row + row[..|row| - 1], field := row[|row| - 1])
  }

  lemma AfterRowCons(r: Reader, row: Row)
    requires |row| > 1
    ensures AfterRow(EndField(r.(field := row[0])), row[1..]) == AfterRow(r, row)
  {
    assert r.row + [row[0]] + row[1..][..|row| - 2] == r.row + row[..|row| - 1];
  }

  // ---------------------------------------------------------------- printed texts

  lemma {:induction false} FeedQuotedBody(r: Reader, field: string, rest: string)
    requires r.quoted && (rest == "" || rest[0] != '"')
    ensures Feed(r, Escape(field) + "\"" + rest) == Feed(r.(field := r.field + field, quoted := false), rest)
    decreases |field|
  {
    var text := Escape(field) + "\"" + rest;
    if field == "" {
      assert text == "\"" + rest;
      assert text[1..] == rest;
      assert r.field + field == r.field;
    } else {
      var tail := Escape(field[1..]) + "\"" + rest;
      var next := r.(field := r.field + [field[0]]);
      if field[0] == '"' {
        assert text == "\"\"" + tail;
        assert text[2..] == tail;
      } else {
        assert text == [field[0]] + tail;
        assert text[1..] == tail;
      }
      FeedQuotedBody(next, field[1..], rest);
      assert next.field + field[1..] == r.field + field;
    }
  }

  lemma FeedQuoted(r: Reader, field: string, rest: string)
    requires !r.quoted && r.field == "" && (rest == "" || rest[0] != '"')
    ensures Feed(r, Quote(field) + rest) == Feed(r.(field := field), rest)
  {
    var text := Quote(field) + rest;
    assert text == "\"" + (Escape(field) + "\"" + rest);
    assert text[1..] == Escape(field) + "\"" + rest;
    FeedQuotedBody(r.(quoted := true), field, rest);
    assert "" + field == field;
  }

  lemma {:induction false} FeedPrintedRow(r: Reader, row: Row, rest: string)
    requires row != [] && !r.quoted && r.field == "" && EndsRow(rest)
    ensures Feed(r, PrintRow(row) + rest) == Feed(AfterRow(r, row), rest)
    decreases |row|
  {
    if |row| == 1 {
      assert PrintRow(row) == Quote(row[0]);
      FeedQuoted(r, row[0], rest);
      assert r.row + row[..0] == r.row;
    } else {
      var tail := PrintRow(row[1..]) + rest;
      assert PrintRow(row) + rest == Quote(row[0]) + ("," + tail);
      FeedQuoted(r, row[0], "," + tail);
      assert ("," + tail)[1..] == tail;
      var next := EndField(r.(field := row[0]));
      FeedPrintedRow(next, row[1..], rest);
      AfterRowCons(r, row);
    }
  }

  /** A line break ends the row, unless a line feed follows a lone carriage return. */
  lemma FeedBreak(r: Reader, lineBreak: LineBreak, rest: string)
    requires !r.quoted && (lineBreak.CR? ==> rest == "" || rest[0] != '\n')
    ensures Feed(r, lineBreak.Text() + rest) == Feed(EndRow(r), rest)
  {
  }

  /** Only the fields of a row matter to how it ends. */
  lemma EndAfterRow(r: Reader, row: Row)
    requires row != [] && r.row == []
    ensures EndRow(AfterRow(r, row)) ==
            r.(rows := if BlankRow(row) then r.rows else r.rows + [row], field := "")
  {
    assert [] + row[..|row| - 1] + [row[|row| - 1]] == row;
  }

  lemma PrintedRowsStart(rows: seq<Row>)
    ensures var text := PrintRows(rows, CR); text == "" || text[0] != '\n'
  {
  }

  /** Between rows: nothing collected, outside quotes. */
  predicate Ready(r: Reader) {
    !r.quoted && r.field == "" && r.row == []
  }

  lemma FinishHere(r: Reader)
    requires !r.quoted
    ensures Finish(Feed(r, "")) == Success(EndRow(r).rows)
  {
  }

  /** Ending a row moves its non-blank content from the rows to come to the rows read. */
  lemma EndRowMoves(r: Reader, row: Row, tail: seq<Row>)
    requires row != [] && Ready(r)
    ensures var next := EndRow(AfterRow(r, row));
      && Ready(next) && next.rows + NonBlank(tail) == r.rows + NonBlank([row] + tail)
  {
    EndAfterRow(r, row);
    hide BlankRow;
    assert ([row] + tail)[1..] == tail;
  }

  lemma BlankRowsVanish(tail: seq<Row>)
    ensures NonBlank([[]] + tail) == NonBlank([[""]] + tail)
  {
    assert ([[]] + tail)[1..] == tail && ([[""]] + tail)[1..] == tail;
  }

  lemma {:induction false} FeedPrintedRows(r: Reader, rows: seq<Row>, lineBreak: LineBreak)
    requires Ready(r)
    ensures Finish(Feed(r, PrintRows(rows, lineBreak))) == Success(r.rows + NonBlank(rows))
    decreases |rows|
  {
    if rows == [] {
      FinishHere(r);
      assert r.row + [r.field] == [""] && BlankRow([""]);
      assert r.rows + [] == r.rows;
    } else {
      var row, tail := rows[0], rows[1..];
      var shown := if row == [] then [""] else row;
      var rest := if tail == [] then "" else lineBreak.Text() + PrintRows(tail, lineBreak);
      assert PrintRows(rows, lineBreak) == PrintRow(row) + rest;
      FeedRowText(r, row, rest);
      BlankRowsVanish(tail);
      assert [row] + tail == rows;
      EndRowMoves(r, shown, tail);
      hide Feed, Finish, EndRow, BlankRow;
      var ended := AfterRow(r, shown);
      hide AfterRow;
      if tail == [] {
        FinishHere(ended);
        assert EndRow(ended).rows + NonBlank(tail) == EndRow(ended).rows;
      } else {
        PrintedRowsStart(tail);
        FeedBreak(ended, lineBreak, PrintRows(tail, lineBreak));
        FeedPrintedRows(EndRow(ended), tail, lineBreak);
      }
    }
  }

  lemma FeedRowText(r: Reader, row: Row, rest: string)
    requires Ready(r) && EndsRow(rest)
    ensures var ended := AfterRow(r, if row == [] then [""] else row);
      !ended.quoted && Feed(r, PrintRow(row) + rest) == Feed(ended, rest)
  {
    if row == [] {
      assert PrintRow(row) + rest == rest;
      assert AfterRow(r, [""]) == r;
    } else {
      FeedPrintedRow(r, row, rest);
    }
  }

  /** Reading a printed table gives back its rows, but for those without a non-blank field. */
  lemma ParseUndoesPrint(rows: seq<Row>, lineBreak: LineBreak)
    ensures Parse(PrintRows(rows, lineBreak)) == Success(NonBlank(rows))
  {
    FeedPrintedRows(START, rows, lineBreak);
    assert [] + NonBlank(rows) == NonBlank(rows);
  }

  // ---------------------------------------------------------------- quote parity

  function CountQuotes(text: string): nat {
    if text == "" then 0 else (if text[0] == '"' then 1 else 0) + CountQuotes(text[1..])
  }

  lemma {:induction false} FeedParity(r: Reader, text: string)
    ensures Feed(r, text).quoted == (r.quoted != (CountQuotes(text) % 2 == 1))
    decreases |text|
  {
    if text != "" {
      if DoubleToken(r, text) {
        assert text[1..][1..] == text[2..];
        FeedParity(if r.quoted then r.(field := r.field + "\"") else EndRow(r), text[2..]);
      } else {
        FeedParity(Take(r, text[0]), text[1..]);
      }
    }
  }

  /** The reader refuses exactly the texts with an odd number of quote characters. */
  lemma UnclosedIffOddQuotes(text: string)
    ensures Parse(text).Failure? <==> CountQuotes(text) % 2 == 1
  {
    FeedParity(START, text);
  }

  // ---------------------------------------------------------------- texts without quotes

  /** The characters of the line break at the start of a text. */
  function BreakLength(text: string): (n: nat)
    requires text != "" && IsBreak(text[0])
    ensures 1 <= n <= |text|
  {
    if |text| > 1 && text[0] == '\r' && text[1] == '\n' then 2 else 1
  }

  /** The text cut at every CRLF, CR or LF. */
  function SplitLines(text: string): (lines: seq<string>)
    ensures lines != []
    decreases |text|
  {
    if text == "" then [""]
    else if IsBreak(text[0]) then [""] + SplitLines(text[BreakLength(text)..])
    else Extend([text[0]], SplitLines(text[1..]))
  }

  /** The line cut at every comma. */
  function SplitFields(line: string): (row: Row)
    ensures row != []
  {
    if line == "" then [""]
    else if line[0] == ',' then [""] + SplitFields(line[1..])
    else Extend([line[0]], SplitFields(line[1..]))
  }

  /** The pieces with `start` in front of the first. */
  function Extend(start: string, pieces: seq<string>): (r: seq<string>)
    requires pieces != []
    ensures r != []
  {
    [start + pieces[0]] + pieces[1..]
  }

  lemma ExtendLaws(a: string, b: string, pieces: seq<string>)
    requires pieces != []
    ensures Extend("", pieces) == pieces
    ensures Extend(a, Extend(b, pieces)) == Extend(a + b, pieces)
    ensures Extend(a, [""] + pieces) == [a] + pieces && Extend(a, [""]) == [a]
  {
    assert "" + pieces[0] == pieces[0];
    assert a + (b + pieces[0]) == a + b + pieces[0];
    assert a + "" == a;
    assert ([""] + pieces)[1..] == pieces;
  }

  function FieldsOf(lines: seq<string>): seq<Row> {
    if lines == [] then [] else [SplitFields(lines[0])] + FieldsOf(lines[1..])
  }

  /** The rows still to be read, the first continuing what the reader has collected. */
  function Continued(r: Reader, lines: seq<string>): seq<Row>
    requires lines != []
  {
    [r.row + Extend(r.field, SplitFields(lines[0]))] + FieldsOf(lines[1..])
  }

  /** A comma, a break or any other character of a text without quotes, in terms of its lines. */
  lemma ContinuedByComma(r: Reader, lines: seq<string>)
    requires lines != []
    ensures Continued(r, Extend(",", lines)) == Continued(EndField(r), lines)
  {
    var fields, line := SplitFields(lines[0]), "," + lines[0];
    assert line[1..] == lines[0];
    ExtendLaws(r.field, "", fields);
    assert r.row + ([r.field] + fields) == (r.row + [r.field]) + fields;
  }

  lemma ContinuedByChar(r: Reader, c: char, lines: seq<string>)
    requires lines != [] && c != ','
    ensures Continued(r, Extend([c], lines)) == Continued(r.(field := r.field + [c]), lines)
  {
    var fields, line := SplitFields(lines[0]), [c] + lines[0];
    assert line[1..] == lines[0];
    ExtendLaws(r.field, [c], fields);
  }

  lemma ContinuedByBreak(r: Reader, lines: seq<string>)
    requires lines != []
    ensures Continued(r, [""] + lines) == [r.row + [r.field]] + Continued(r.(row := [], field := ""), lines)
  {
    var fields := SplitFields(lines[0]);
    ExtendLaws(r.field, "", fields);
    assert [] + fields == fields;
    assert ([""] + lines)[1..] == lines;
  }

  lemma {:induction false} FeedUnquoted(r: Reader, text: string)
    requires !r.quoted && '"' !in text
    ensures Finish(Feed(r, text)) == Success(r.rows + NonBlank(Continued(r, SplitLines(text))))
    decreases |text|
  {
    if text == "" {
      ExtendLaws(r.field, "", [""]);
      var row := r.row + [r.field];
      assert Continued(r, [""]) == [row] + [];
      FinishHere(r);
      EndRowKeeps(r, []);
      assert EndRow(r).rows + NonBlank([]) == EndRow(r).rows;
    } else if IsBreak(text[0]) {
      var n := BreakLength(text);
      FeedAtBreak(r, text);
      ContinuedByBreak(r, SplitLines(text[n..]));
      EndRowKeeps(r, Continued(EndRow(r), SplitLines(text[n..])));
      NoQuotesAfter(text, n);
      hide Feed, Finish, Continued, BlankRow;
      FeedUnquoted(EndRow(r), text[n..]);
    } else {
      NoQuotesAfter(text, 1);
      FeedUnquoted(Take(r, text[0]), text[1..]);
      if text[0] == ',' {
        assert [text[0]] == ",";
        ContinuedByComma(r, SplitLines(text[1..]));
      } else {
        ContinuedByChar(r, text[0], SplitLines(text[1..]));
      }
    }
  }

  lemma NoQuotesAfter(text: string, n: nat)
    requires n <= |text| && '"' !in text
    ensures '"' !in text[n..]
  {
  }

  lemma FeedAtBreak(r: Reader, text: string)
    requires !r.quoted && text != "" && IsBreak(text[0])
    ensures Feed(r, text) == Feed(EndRow(r), text[BreakLength(text)..])
  {
  }

  lemma EndRowKeeps(r: Reader, tail: seq<Row>)
    ensures EndRow(r).rows + NonBlank(tail) == r.rows + NonBlank([r.row + [r.field]] + tail)
  {
    assert ([r.row + [r.field]] + tail)[1..] == tail;
    hide BlankRow;
  }

  /** Without quotes, reading is cutting at line breaks, then at commas, and dropping blank rows. */
  lemma QuoteFreeTextSplits(text: string)
    requires '"' !in text
    ensures Parse(text) == Success(NonBlank(FieldsOf(SplitLines(text))))
  {
    FeedUnquoted(START, text);
    var lines := SplitLines(text);
    var fields := SplitFields(lines[0]);
    ExtendLaws("", "", fields);
    assert [] + fields == fields;
    assert Continued(START, lines) == FieldsOf(lines);
    assert [] + NonBlank(FieldsOf(lines)) == NonBlank(FieldsOf(lines));
  }

  // ---------------------------------------------------------------- the management pack

  const PACK_HEADER: Row := ["section", "metric", "value"]

  /** A field that needs no quoting. */
  predicate BareField(field: string) {
    forall i :: 0 <= i < |field| ==> field[i] != '"' && field[i] != ',' && !IsBreak(field[i])
  }

  /** Fields joined by commas, without quotes. */
  function Bare(row: Row): string {
    if row == [] then "" else row[0] + if |row| == 1 then "" else "," + Bare(row[1..])
  }

  /** The exported pack: a bare header line and one quoted line per metric. */
  function PackCsv(metrics: seq<Row>): string {
    Bare(PACK_HEADER) + if metrics == [] then "" else "\n" + PrintRows(metrics, LF)
  }

  lemma {:induction false} FeedBareField(r: Reader, field: string, rest: string)
    requires !r.quoted && BareField(field)
    ensures Feed(r, field + rest) == Feed(r.(field := r.field + field), rest)
    decreases |field|
  {
    if field == "" {
      assert field + rest == rest && r.field + field == r.field;
    } else {
      assert (field + rest)[1..] == field[1..] + rest;
      var next := r.(field := r.field + [field[0]]);
      FeedBareField(next, field[1..], rest);
      assert next.field + field[1..] == r.field + field;
    }
  }

  lemma FeedComma(r: Reader, rest: string)
    requires !r.quoted
    ensures Feed(r, "," + rest) == Feed(EndField(r), rest)
  {
    assert ("," + rest)[1..] == rest;
  }

  lemma {:induction false} FeedBareRow(r: Reader, row: Row, rest: string)
    requires row != [] && !r.quoted && r.field == ""
    requires forall i :: 0 <= i < |row| ==> BareField(row[i])
    ensures Feed(r, Bare(row) + rest) == Feed(AfterRow(r, row), rest)
    decreases |row|
  {
    assert "" + row[0] == row[0];
    if |row| == 1 {
      assert Bare(row) == row[0];
      FeedBareField(r, row[0], rest);
      hide Feed, BareField, Bare;
      assert r.row + row[..0] == r.row;
    } else {
      var tail := Bare(row[1..]) + rest;
      assert Bare(row) + rest == row[0] + ("," + tail);
      hide Feed, BareField, Bare, AfterRow;
      FeedBareField(r, row[0], "," + tail);
      FeedComma(r.(field := row[0]), tail);
      var next := EndField(r.(field := row[0]));
      FeedBareRow(next, row[1..], rest);
      AfterRowCons(r, row);
    }
  }

  /** A table printed below a bare header reads back as the header and the table. */
  lemma ParseHeadedTable(header: Row, rows: seq<Row>)
    requires header != [] && forall i :: 0 <= i < |header| ==> BareField(header[i])
    ensures Parse(Bare(header) + if rows == [] then "" else "\n" + PrintRows(rows, LF)) ==
            Success(NonBlank([header] + rows))
  {
    var rest := if rows == [] then "" else "\n" + PrintRows(rows, LF);
    FeedBareRow(START, header, rest);
    var ended := AfterRow(START, header);
    assert !ended.quoted;
    EndRowMoves(START, header, rows);
    hide Feed, Finish, AfterRow, EndRow, BlankRow;
    if rows == [] {
      FinishHere(ended);
      assert EndRow(ended).rows + NonBlank(rows) == EndRow(ended).rows;
    } else {
      assert LF.Text() == "\n";
      FeedBreak(ended, LF, PrintRows(rows, LF));
      FeedPrintedRows(EndRow(ended), rows, LF);
    }
    assert [] + NonBlank([header] + rows) == NonBlank([header] + rows);
  }

  /** Reading an exported pack back gives its header and every metric that is not blank. */
  lemma ParseUndoesPack(metrics: seq<Row>)
    ensures Parse(PackCsv(metrics)) == Success([PACK_HEADER] + NonBlank(metrics))
  {
    assert !IsSpace(PACK_HEADER[0][0]);
    assert BareField(PACK_HEADER[0]) && BareField(PACK_HEADER[1]) && BareField(PACK_HEADER[2]);
    assert !BlankRow(PACK_HEADER);
    hide Parse, Bare, BlankRow;
    ParseHeadedTable(PACK_HEADER, metrics);
    assert ([PACK_HEADER] + metrics)[1..] == metrics;
  }
}
