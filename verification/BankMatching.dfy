/** Which transaction a new statement line is matched with, in terms of the books. */
module BankMatching {
  import opened Wrappers
  import opened Decimals
  import opened BankReconciliation
  import opened BankReconciliationLaws
  import CsvBlank
  import Csv

  /** The same character, or the same ASCII letter in the other case. */
  predicate SameLetter(c: char, d: char) {
    || c == d
    || ('a' <= c <= 'z' && d as int == c as int - 32)
    || ('a' <= d <= 'z' && c as int == d as int - 32)
  }

  predicate SameText(a: string, b: string) {
    |a| == |b| && forall i :: 0 <= i < |a| ==> SameLetter(a[i], b[i])
  }

  ghost predicate HasText(reference: string) {
    exists i :: 0 <= i < |reference| && reference[i] !in CsvBlank.WHITE_SPACE
  }

  /** A receipt of the amount credited, or else a payment of the amount debited, with the line's reference. */
  predicate Fits(books: Books, l: Line, t: Target) {
    match t
    case Receipt(id) =>
      && l.credit > 0.0 && id in books.receipts && books.receipts[id].amount == l.credit
      && SameText(books.receipts[id].reference, l.reference)
    case Payment(id) =>
      && l.credit <= 0.0 && id in books.payments && books.payments[id].amount == l.debit
      && SameText(books.payments[id].reference, l.reference)
    case Journal(_) => false
  }

  /** No line before the k-th has the transaction. */
  predicate FreeBefore(lines: seq<Line>, k: nat, t: Target)
    requires k <= |lines|
  {
    forall j :: 0 <= j < k && lines[j].suggestion.Some? ==> lines[j].suggestion.value.target != t
  }

  lemma LowerIs(c: char, d: char)
    ensures Lower(c) == Lower(d) <==> SameLetter(c, d)
  {
  }

  lemma SameReferenceIs(a: string, b: string)
    ensures SameReference(a, b) <==> SameText(a, b)
  {
    forall c, d
      ensures Lower(c) == Lower(d) <==> SameLetter(c, d)
    {
      LowerIs(c, d);
    }
    hide Lower, SameLetter;
  }

  lemma BlankIff(reference: string)
    ensures Csv.Blank(reference) <==> !HasText(reference)
  {
    forall c
      ensures Csv.IsSpace(c) <==> c in CsvBlank.WHITE_SPACE
    {
      CsvBlank.WhiteSpaceIs(c);
    }
    hide Csv.IsSpace;
  }

  lemma CandidateIff(books: Books, lines: seq<Line>, k: nat, l: Line, t: Target)
    requires k <= |lines|
    ensures t in Candidates(books, lines[..k], l) <==> Fits(books, l, t) && FreeBefore(lines, k, t)
  {
    match t
    case Receipt(id) => if id in books.receipts { SameReferenceIs(books.receipts[id].reference, l.reference); }
    case Payment(id) => if id in books.payments { SameReferenceIs(books.payments[id].reference, l.reference); }
    case Journal(_) =>
    hide SameReference, SameText;
    assert Taken(lines[..k], t) <==> !FreeBefore(lines, k, t);
  }

  lemma OneElement<T>(s: set<T>, t: T)
    ensures |s| == 1 && t in s <==> s == {t}
  {
    if |s| == 1 && t in s {
      assert |s - {t}| == 0;
      assert s == {t} + (s - {t});
    }
  }

  /**
   A line of a new statement is matched, unconfirmed, with a transaction exactly when the line's
   reference is more than white space and the transaction is the only one that fits and is on no
   earlier line; otherwise it is matched with nothing.
   */
  lemma MatchedIff(s: Store, from: nat, k: nat, t: Target)
    requires from <= k < |s.lines| && WithoutMatches(s.lines, from)
    ensures var lines, l := Suggest(s, from).lines, s.lines[k];
      && (lines[k].suggestion == Some(Match(t, false)) <==>
            && HasText(l.reference) && Fits(s.books, l, t) && FreeBefore(lines, k, t)
            && forall o :: Fits(s.books, l, o) && FreeBefore(lines, k, o) ==> o == t)
      && (lines[k].suggestion.Some? ==> !lines[k].suggestion.value.confirmed)
  {
    SuggestsTheOnlyCandidate(s, from, k);
    var lines, l := Suggest(s, from).lines, s.lines[k];
    BlankIff(l.reference);
    hide Suggest, Fits, FreeBefore, HasText, Candidates;
    var candidates := Candidates(s.books, lines[..k], l);
    forall o
      ensures o in candidates <==> Fits(s.books, l, o) && FreeBefore(lines, k, o)
    {
      CandidateIff(s.books, lines, k, l, o);
    }
    if |candidates| == 1 {
      OneElement(candidates, Only(candidates));
    }
    OneElement(candidates, t);
  }

  // ---------------------------------------------------------------- what an import stores

  /** Credits less debits of the rows, each rounded. */
  function Turnover(rows: seq<ParsedLine>): real {
    if rows == [] then 0.0
    else
      var last := rows[|rows| - 1];
      Turnover(rows[..|rows| - 1]) + Round2(last.credit) - Round2(last.debit)
  }

  lemma {:induction false} NetIsTurnover(rows: seq<ParsedLine>, statement: nat)
    ensures Net(LinesOf(rows, statement), statement) == Turnover(rows)
  {
    hide Round2;
    if rows != [] {
      NetIsTurnover(rows[..|rows| - 1], statement);
      assert LinesOf(rows, statement)[..|rows| - 1] == LinesOf(rows[..|rows| - 1], statement);
    }
  }

  /** In the period, and after rounding either paid out or paid in. */
  predicate ValidRow(row: ParsedLine, from: int, to: int) {
    && row.debit >= 0.0 && row.credit >= 0.0 && from <= row.date <= to
    && (Round2(row.debit) > 0.0) != (Round2(row.credit) > 0.0)
  }

  predicate AllValid(rows: seq<ParsedLine>, from: int, to: int) {
    forall i :: 0 <= i < |rows| ==> ValidRow(rows[i], from, to)
  }

  /** A file is accepted exactly when it adds up, row by row and to its closing balance, and is new. */
  lemma ImportIff(s: Store, user: User, from: int, to: int, opening: real, closing: real, hash: string,
      rows: seq<ParsedLine>)
    ensures Import(s, user, from, to, opening, closing, hash, rows).Success? <==>
              && rows != [] && from <= to && AllValid(rows, from, to)
              && Round2(opening + Turnover(rows)) == closing
              && forall i :: 0 <= i < |s.statements| ==> s.statements[i].hash != hash
  {
    hide Round2, RowRefused, AllValid, Suggest, Turnover, Net, LinesOf, Imported;
    NetIsTurnover(rows, |s.statements|);
    RowsIff(rows, from, to);
  }

  lemma RowsIff(rows: seq<ParsedLine>, from: int, to: int)
    ensures (exists i :: 0 <= i < |rows| && (RowRefused(rows[i]) || rows[i].date < from || rows[i].date > to)) <==>
            !AllValid(rows, from, to)
  {
    forall i | 0 <= i < |rows|
      ensures ValidRow(rows[i], from, to) <==>
              !(RowRefused(rows[i]) || rows[i].date < from || rows[i].date > to)
    {
      RowIff(rows[i], from, to);
    }
    hide RowRefused, ValidRow;
  }

  lemma RowIff(row: ParsedLine, from: int, to: int)
    ensures ValidRow(row, from, to) <==> !RowRefused(row) && from <= row.date <= to
  {
    RowsRound(row);
    hide Round2;
  }

  lemma RowsRound(row: ParsedLine)
    ensures row.debit >= 0.0 ==> Round2(row.debit) >= 0.0
    ensures row.credit >= 0.0 ==> Round2(row.credit) >= 0.0
  {
    Round2Nearest(row.debit);
    Round2Nearest(row.credit);
    hide Round2, IsMoney;
  }

  /** The k-th line of the file as it is stored. */
  ghost predicate StoredAs(l: Line, statement: nat, row: ParsedLine) {
    && l.statement == statement && l.reference == row.reference && l.resolution.Pending?
    && l.debit == Round2(row.debit) && l.credit == Round2(row.credit)
  }

  /** An import adds one draft statement, and its rows in order; nothing else changes. */
  lemma ImportAdds(s: Store, user: User, from: int, to: int, opening: real, closing: real, hash: string,
      rows: seq<ParsedLine>, k: nat)
    requires Import(s, user, from, to, opening, closing, hash, rows).Success? && k < |rows|
    ensures var t := Import(s, user, from, to, opening, closing, hash, rows).value;
      && t.books == s.books
      && |t.statements| == |s.statements| + 1 && t.statements[..|s.statements|] == s.statements
      && var x := t.statements[|s.statements|];
      && x.status.Draft? && x.importedBy == user && x.approvedBy.None? && x.hash == hash
      && x.opening == Round2(opening) && x.closing == closing
      && |t.lines| == |s.lines| + |rows| && t.lines[..|s.lines|] == s.lines
      && StoredAs(t.lines[|s.lines| + k], |s.statements|, rows[k])
  {
    var u := Imported(s, user, opening, closing, hash, rows);
    SuggestsTheOnlyCandidate(u, |s.lines|, |s.lines| + k);
    hide Suggest, Round2, Suggestion, RowRefused, Net;
  }

  // ---------------------------------------------------------------- what the other calls change

  /** The line belongs to a statement that is a draft or was rejected. */
  predicate InWork(s: Store, k: nat) {
    && k < |s.lines| && s.lines[k].statement < |s.statements|
    && var status := s.statements[s.lines[k].statement].status; status.Draft? || status.RejectedStatement?
  }

  /** A receipt or payment of what the bank moved, or any journal; no line has it. */
  predicate Matches(s: Store, l: Line, t: Target) {
    && (forall j :: 0 <= j < |s.lines| && s.lines[j].suggestion.Some? ==> s.lines[j].suggestion.value.target != t)
    && match t
       case Receipt(id) =>
         id in s.books.receipts && s.books.receipts[id].amount == if l.credit > 0.0 then l.credit else l.debit
       case Payment(id) =>
         id in s.books.payments && s.books.payments[id].amount == if l.credit > 0.0 then l.credit else l.debit
       case Journal(id) => id in s.books.journals
  }

  /** How a call may change a line, and when it does. */
  predicate LineChanges(s: Store, op: Op, k: nat, l: Line)
    requires k < |s.lines|
  {
    match op
    case MatchOp(line, t) =>
      line == k && InWork(s, k) && Matches(s, s.lines[k], t)
      && l == s.lines[k].(resolution := Matched, suggestion := Some(Match(t, true)))
    case ConfirmOp(line) =>
      line == k && InWork(s, k) && s.lines[k].suggestion.Some?
      && l == s.lines[k].(resolution := Matched,
                          suggestion := Some(Match(s.lines[k].suggestion.value.target, true)))
    case AcceptOp(line, reasonGiven) =>
      line == k && InWork(s, k) && reasonGiven
      && l == s.lines[k].(resolution := UnmatchedAccepted, suggestion := None)
    case _ => false
  }

  /** A line changes exactly by being matched, confirmed or accepted while its statement is in work. */
  lemma LineAfter(s: Store, op: Op, k: nat)
    requires k < |s.lines|
    ensures var t := Step(s, op);
      && k < |t.lines|
      && (LineChanges(s, op, k, t.lines[k])
          || (t.lines[k] == s.lines[k] && forall l :: !LineChanges(s, op, k, l)))
  {
    match op
    case ImportOp(user, from, to, opening, closing, hash, rows) =>
      if Apply(s, op).Success? {
        ImportAdds(s, user, from, to, opening, closing, hash, rows, 0);
        assert Step(s, op).lines[..|s.lines|][k] == s.lines[k];
      }
    case _ =>
  }

  /** How a call may change a statement, and when it does. */
  predicate StatementChanges(s: Store, op: Op, id: nat, x: Statement)
    requires id < |s.statements|
  {
    var was := s.statements[id];
    match op
    case SubmitOp(n) =>
      && n == id && (was.status.Draft? || was.status.RejectedStatement?) && x == was.(status := PendingApproval)
      && forall k :: 0 <= k < |s.lines| && s.lines[k].statement == id ==> !s.lines[k].resolution.Pending?
    case ApproveOp(n, user) =>
      && n == id && was.status.PendingApproval? && was.importedBy != user
      && x == was.(status := ApprovedStatement, approvedBy := Some(user))
    case RejectOp(n) => n == id && was.status.PendingApproval? && x == was.(status := RejectedStatement)
    case _ => false
  }

  /** A statement changes exactly by being submitted, approved or rejected. */
  lemma StatementAfter(s: Store, op: Op, id: nat)
    requires id < |s.statements|
    ensures var t := Step(s, op);
      && id < |t.statements|
      && (StatementChanges(s, op, id, t.statements[id])
          || (t.statements[id] == s.statements[id] && forall x :: !StatementChanges(s, op, id, x)))
  {
    match op
    case ImportOp(user, from, to, opening, closing, hash, rows) =>
      if Apply(s, op).Success? {
        ImportAdds(s, user, from, to, opening, closing, hash, rows, 0);
        assert Step(s, op).statements[..|s.statements|][id] == s.statements[id];
      }
    case _ =>
  }

  // ---------------------------------------------------------------- refusals

  /** Which error a refused call gives: not found for a line or statement that is not there. */
  lemma RefusedWith(s: Store, op: Op)
    requires Apply(s, op).Failure?
    ensures Apply(s, op).error ==
            match op
            case ImportOp(_, from, to, opening, closing, _, rows) =>
              if rows != [] && from <= to && AllValid(rows, from, to) && Round2(opening + Turnover(rows)) == closing
              then Conflict else BadRequest
            case MatchOp(line, _) => if line >= |s.lines| then NotFound else BadRequest
            case ConfirmOp(line) => if line >= |s.lines| then NotFound else BadRequest
            case AcceptOp(line, reasonGiven) => if reasonGiven && line >= |s.lines| then NotFound else BadRequest
            case SubmitOp(id) => if id >= |s.statements| then NotFound else BadRequest
            case ApproveOp(id, _) => if id >= |s.statements| then NotFound else BadRequest
            case RejectOp(id) => if id >= |s.statements| then NotFound else BadRequest
            case Posted(_, _) => BadRequest
  {
    match op
    case ImportOp(_, from, to, opening, closing, _, rows) =>
      hide Round2, RowRefused, AllValid, Suggest, Turnover, Net, LinesOf, Imported;
      NetIsTurnover(rows, |s.statements|);
      RowsIff(rows, from, to);
    case _ =>
  }
}
