/**
 The CSV reader `csvRows` and the quoting printer `csv` of
 src/modules/finance-operations/operations.service.ts.

 The reader is a character state machine; `Feed` is its meaning on the text still to be read.
 */
module Csv {
  import opened Wrappers

  type Row = seq<string>

  datatype CsvError = UnclosedQuote

  /** The reader's variables. */
  datatype Reader = Reader(rows: seq<Row>, row: Row, field: string, quoted: bool)

  const START := Reader([], [], "", false)

  /** The white space that `trim` removes. */
  predicate IsSpace(c: char) {
    var n := c as int;
    9 <= n <= 13 || n == 32 || n == 0xA0 || n == 0x1680 || 0x2000 <= n <= 0x200A
    || n == 0x2028 || n == 0x2029 || n == 0x202F || n == 0x205F || n == 0x3000 || n == 0xFEFF
  }

  predicate Blank(field: string) {
    forall i :: 0 <= i < |field| ==> IsSpace(field[i])
  }

  /** No field of the row has anything but white space. */
  predicate BlankRow(row: Row) {
    forall i :: 0 <= i < |row| ==> Blank(row[i])
  }

  function NonBlank(rows: seq<Row>): seq<Row> {
    if rows == [] then []
    else (if BlankRow(rows[0]) then [] else [rows[0]]) + NonBlank(rows[1..])
  }

  predicate IsBreak(c: char) {
    c == '\n' || c == '\r'
  }

  function EndField(r: Reader): Reader {
    r.(row := r.row + [r.field], field := "")
  }

  function EndRow(r: Reader): Reader {
    var row := r.row + [r.field];
    r.(rows := if BlankRow(row) then r.rows else r.rows + [row], row := [], field := "")
  }

  /** The reader after one character that is not the first of a two-character token. */
  function Take(r: Reader, c: char): Reader {
    if c == '"' then r.(quoted := !r.quoted)
    else if c == ',' && !r.quoted then EndField(r)
    else if IsBreak(c) && !r.quoted then EndRow(r)
    else r.(field := r.field + [c])
  }

  /** A doubled quote inside quotes, or a carriage return and line feed outside them. */
  predicate DoubleToken(r: Reader, text: string) {
    && |text| >= 2
    && if r.quoted then text[0] == '"' && text[1] == '"' else text[0] == '\r' && text[1] == '\n'
  }

  /** The reader after the whole text. */
  function Feed(r: Reader, text: string): Reader
    decreases |text|
  {
    if text == "" then r
    else if DoubleToken(r, text) then
      Feed(if r.quoted then r.(field := r.field + "\"") else EndRow(r), text[2..])
    else Feed(Take(r, text[0]), text[1..])
  }

  function Finish(r: Reader): Result<seq<Row>, CsvError> {
    if r.quoted then Failure(UnclosedQuote) else Success(EndRow(r).rows)
  }

  /** What reading a text returns. */
  function Parse(text: string): Result<seq<Row>, CsvError> {
    Finish(Feed(START, text))
  }

  method CsvRows(text: string) returns (result: Result<seq<Row>, CsvError>)
    ensures result == Parse(text)
  {
    var rows: seq<Row> := [];
    var row: Row, field, quoted := [], "", false;
    var i := 0;
    while i < |text|
      invariant i <= |text|
      invariant Feed(Reader(rows, row, field, quoted), text[i..]) == Feed(START, text)
    {
      ghost var rest := text[i..];
      assert rest[1..] == text[i + 1..];
      assert |rest| >= 2 ==> rest[2..] == text[i + 2..] && rest[1] == text[i + 1];
      var c := text[i];
      if c == '"' {
        if quoted && i + 1 < |text| && text[i + 1] == '"' {
          field := field + "\"";
          i := i + 1;
        } else {
          quoted := !quoted;
        }
      } else if c == ',' && !quoted {
        row := row + [field];
        field := "";
      } else if (c == '\n' || c == '\r') && !quoted {
        if c == '\r' && i + 1 < |text| && text[i + 1] == '\n' {
          i := i + 1;
        }
        row := row + [field];
        if !BlankRow(row) {
          rows := rows + [row];
        }
        row := [];
        field := "";
      } else {
        field := field + [c];
      }
      i := i + 1;
    }
    row := row + [field];
    if !BlankRow(row) {
      rows := rows + [row];
    }
    if quoted {
      return Failure(UnclosedQuote);
    }
    return Success(rows);
  }

  // ---------------------------------------------------------------- the printer

  function Escape(field: string): string {
    if field == "" then ""
    else (if field[0] == '"' then "\"\"" else [field[0]]) + Escape(field[1..])
  }

  function Quote(field: string): string {
    "\"" + Escape(field) + "\""
  }

  /** The fields of a row, quoted and joined by commas. */
  function PrintRow(row: Row): string {
    if row == [] then "" else Quote(row[0]) + if |row| == 1 then "" else "," + PrintRow(row[1..])
  }

  datatype LineBreak = LF | CR | CRLF {
    function Text(): string {
      match this case LF => "\n" case CR => "\r" case CRLF => "\r\n"
    }
  }

  /** The printed rows, joined by a line break. */
  function PrintRows(rows: seq<Row>, lineBreak: LineBreak): string {
    if rows == [] then ""
    else PrintRow(rows[0]) + if |rows| == 1 then "" else lineBreak.Text() + PrintRows(rows[1..], lineBreak)
  }
}
