/** Which rows the reader keeps, in terms of their characters. */
module CsvBlank {
  import opened Csv
  import opened CsvLaws
  import opened Wrappers

  /** Every character of white space there is. */
  const WHITE_SPACE: string :=
    "\t\n\U{B}\U{C}\r \U{A0}\U{1680}"
    + "\U{2000}\U{2001}\U{2002}\U{2003}\U{2004}\U{2005}\U{2006}\U{2007}\U{2008}\U{2009}\U{200A}"
    + "\U{2028}\U{2029}\U{202F}\U{205F}\U{3000}\U{FEFF}"

  /** The row shows something: a character that is not white space. */
  ghost predicate Shows(row: Row) {
    exists i, j :: 0 <= i < |row| && 0 <= j < |row[i]| && row[i][j] !in WHITE_SPACE
  }

  /** No letter, digit, sign or other printable ASCII character but the space is white space. */
  lemma PrintableShows(c: char)
    requires '!' <= c <= '~'
    ensures c !in WHITE_SPACE
  {
  }

  lemma WhiteSpaceIs(c: char)
    ensures IsSpace(c) <==> c in WHITE_SPACE
  {
  }

  lemma BlankRowIff(row: Row)
    ensures BlankRow(row) <==> !Shows(row)
  {
    forall c
      ensures IsSpace(c) <==> c in WHITE_SPACE
    {
      WhiteSpaceIs(c);
    }
    hide IsSpace;
    if !BlankRow(row) {
      var i :| 0 <= i < |row| && !Blank(row[i]);
      var j :| 0 <= j < |row[i]| && !IsSpace(row[i][j]);
      assert row[i][j] !in WHITE_SPACE;
    }
  }

  /** The positions of the rows that show something, in order. */
  ghost predicate Picks(rows: seq<Row>, picks: seq<nat>) {
    && (forall a, b :: 0 <= a < b < |picks| ==> picks[a] < picks[b])
    && (forall k: nat :: k in picks <==> k < |rows| && Shows(rows[k]))
  }

  function Picked(rows: seq<Row>, picks: seq<nat>): seq<Row>
    requires forall a :: 0 <= a < |picks| ==> picks[a] < |rows|
  {
    seq(|picks|, a requires 0 <= a < |picks| => rows[picks[a]])
  }

  function Moved(picks: seq<nat>): seq<nat> {
    seq(|picks|, a requires 0 <= a < |picks| => picks[a] + 1)
  }

  lemma MovedHolds(picks: seq<nat>, k: nat)
    ensures k in Moved(picks) <==> k > 0 && k - 1 in picks
  {
    if k > 0 && k - 1 in picks {
      var a :| 0 <= a < |picks| && picks[a] == k - 1;
      assert Moved(picks)[a] == k;
    }
  }

  /** The picks of a table, from those below its first row. */
  ghost function WithFirst(rows: seq<Row>, later: seq<nat>): seq<nat>
    requires rows != []
  {
    (if Shows(rows[0]) then [0] else []) + Moved(later)
  }

  lemma WithFirstPicks(rows: seq<Row>, later: seq<nat>)
    requires rows != [] && Picks(rows[1..], later)
    ensures Picks(rows, WithFirst(rows, later))
  {
    var picks := WithFirst(rows, later);
    hide Shows;
    forall k: nat
      ensures k in picks <==> k < |rows| && Shows(rows[k])
    {
      MovedHolds(later, k);
      hide Moved;
      if k > 0 {
        assert k - 1 in later <==> k - 1 < |rows[1..]| && Shows(rows[1..][k - 1]);
      } else {
        assert k in Moved(later) <==> false;
      }
    }
  }

  lemma PickedWithFirst(rows: seq<Row>, later: seq<nat>)
    requires rows != [] && forall a :: 0 <= a < |later| ==> later[a] < |rows[1..]|
    ensures var picks := WithFirst(rows, later);
      && (forall a :: 0 <= a < |picks| ==> picks[a] < |rows|)
      && Picked(rows, picks) == (if Shows(rows[0]) then [rows[0]] else []) + Picked(rows[1..], later)
  {
    hide Shows;
  }

  lemma {:induction false} NonBlankPicks(rows: seq<Row>) returns (picks: seq<nat>)
    ensures Picks(rows, picks) && (forall a :: 0 <= a < |picks| ==> picks[a] < |rows|)
    ensures NonBlank(rows) == Picked(rows, picks)
  {
    if rows == [] {
      picks := [];
    } else {
      var later := NonBlankPicks(rows[1..]);
      BlankRowIff(rows[0]);
      WithFirstPicks(rows, later);
      picks := WithFirst(rows, later);
      hide BlankRow, Shows, Picks, Picked, WithFirst;
      PickedWithFirst(rows, later);
    }
  }

  /** Reading a printed table keeps exactly the rows that show something, in order and unchanged. */
  lemma PrintedRowsThatShow(rows: seq<Row>, lineBreak: LineBreak) returns (picks: seq<nat>)
    ensures Picks(rows, picks) && (forall a :: 0 <= a < |picks| ==> picks[a] < |rows|)
    ensures Parse(PrintRows(rows, lineBreak)) == Success(Picked(rows, picks))
  {
    ParseUndoesPrint(rows, lineBreak);
    picks := NonBlankPicks(rows);
    hide Parse, PrintRows, NonBlank, Picks;
  }

  lemma {:induction false} ShowingRowsStay(rows: seq<Row>)
    ensures (forall k :: 0 <= k < |rows| ==> Shows(rows[k])) ==> NonBlank(rows) == rows
    ensures (forall k :: 0 <= k < |rows| ==> !Shows(rows[k])) ==> NonBlank(rows) == []
  {
    if rows != [] {
      BlankRowIff(rows[0]);
      ShowingRowsStay(rows[1..]);
      hide BlankRow, Shows;
      assert [rows[0]] + rows[1..] == rows;
    }
  }

  /** Rows that each show something read back as they were printed. */
  lemma PrintedTableReadsBack(rows: seq<Row>, lineBreak: LineBreak)
    requires forall k :: 0 <= k < |rows| ==> Shows(rows[k])
    ensures Parse(PrintRows(rows, lineBreak)) == Success(rows)
  {
    ParseUndoesPrint(rows, lineBreak);
    ShowingRowsStay(rows);
  }

  /** Rows of nothing but white space are not read at all. */
  lemma PrintedBlanksVanish(rows: seq<Row>, lineBreak: LineBreak)
    requires forall k :: 0 <= k < |rows| ==> !Shows(rows[k])
    ensures Parse(PrintRows(rows, lineBreak)) == Success([])
  {
    ParseUndoesPrint(rows, lineBreak);
    ShowingRowsStay(rows);
  }

  /** The same of any text without quotes: of its lines, cut at the commas, those stay that show something. */
  lemma QuoteFreeRowsThatShow(text: string) returns (picks: seq<nat>)
    requires '"' !in text
    ensures var rows := FieldsOf(SplitLines(text));
      && Picks(rows, picks) && (forall a :: 0 <= a < |picks| ==> picks[a] < |rows|)
      && Parse(text) == Success(Picked(rows, picks))
  {
    QuoteFreeTextSplits(text);
    picks := NonBlankPicks(FieldsOf(SplitLines(text)));
    hide Parse, NonBlank, Picks;
  }
}
