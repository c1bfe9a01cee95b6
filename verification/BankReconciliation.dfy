/**
 Bank statement import and matching: src/modules/finance-operations/operations.service.ts.

 Statement lines are one table; a line's id, and a statement's, is its position. Only posted
 receipts and journals and executed payments are kept, since nothing else can be matched.
 */
module BankReconciliation {
  import opened Wrappers
  import opened Decimals
  import Csv

  type User = string
  type Id = string

  /** A posted receipt or executed payment. */
  datatype Transaction = Transaction(amount: real, reference: string)

  datatype Target = Receipt(id: Id) | Payment(id: Id) | Journal(id: Id)

  datatype Match = Match(target: Target, confirmed: bool)

  datatype Resolution = Pending | Matched | UnmatchedAccepted

  datatype Line = Line(
    statement: nat, debit: real, credit: real, reference: string, resolution: Resolution, suggestion: Option<Match>)

  datatype Status = Draft | PendingApproval | RejectedStatement | ApprovedStatement

  datatype Statement = Statement(
    status: Status, importedBy: User, approvedBy: Option<User>, opening: real, closing: real, hash: string)

  datatype Books = Books(receipts: map<Id, Transaction>, payments: map<Id, Transaction>, journals: set<Id>)

  datatype Store = Store(books: Books, statements: seq<Statement>, lines: seq<Line>)

  datatype Error = NotFound | BadRequest | Conflict

  /** A row of the imported file: its amounts not yet rounded, its reference already trimmed. */
  datatype ParsedLine = ParsedLine(date: int, debit: real, credit: real, reference: string)

  // ---------------------------------------------------------------- helpers

  /** The side of the line the bank moved. */
  function Amount(l: Line): real {
    if l.credit > 0.0 then l.credit else l.debit
  }

  function Lower(c: char): char {
    if 'A' <= c <= 'Z' then (c as int + 32) as char else c
  }

  /** Equality of references regardless of case. */
  predicate SameReference(a: string, b: string) {
    |a| == |b| && forall i :: 0 <= i < |a| ==> Lower(a[i]) == Lower(b[i])
  }

  /** The transaction is matched to some line. */
  predicate Taken(lines: seq<Line>, target: Target) {
    exists i :: 0 <= i < |lines| && lines[i].suggestion.Some? && lines[i].suggestion.value.target == target
  }

  predicate Editable(status: Status) {
    status.Draft? || status.RejectedStatement?
  }

  /** The two amounts of an imported row, rounded; refused when negative, both or neither. */
  predicate RowRefused(p: ParsedLine) {
    || p.debit < 0.0 || p.credit < 0.0
    || (Round2(p.debit) > 0.0 && Round2(p.credit) > 0.0)
    || (Round2(p.debit) == 0.0 && Round2(p.credit) == 0.0)
  }

  function LineOf(p: ParsedLine, statement: nat): Line {
    Line(statement, Round2(p.debit), Round2(p.credit), p.reference, Pending, None)
  }

  function LinesOf(ps: seq<ParsedLine>, statement: nat): seq<Line> {
    seq(|ps|, i requires 0 <= i < |ps| => LineOf(ps[i], statement))
  }

  /** Credits minus debits of the statement's lines. */
  function Net(lines: seq<Line>, statement: nat): real {
    if lines == [] then 0.0
    else
      var last := lines[|lines| - 1];
      Net(lines[..|lines| - 1], statement) + if last.statement == statement then last.credit - last.debit else 0.0
  }

  /** The receipts, or payments, with the line's amount and reference that `lines` does not match yet. */
  function Candidates(books: Books, lines: seq<Line>, l: Line): set<Target> {
    if l.credit > 0.0 then
      set id | id in books.receipts && books.receipts[id].amount == l.credit
               && SameReference(books.receipts[id].reference, l.reference) && !Taken(lines, Receipt(id)) :: Receipt(id)
    else
      set id | id in books.payments && books.payments[id].amount == l.debit
               && SameReference(books.payments[id].reference, l.reference) && !Taken(lines, Payment(id)) :: Payment(id)
  }

  ghost function Only(targets: set<Target>): (t: Target)
    requires |targets| == 1
    ensures t in targets
  {
    assert targets != {};
    var t :| t in targets;
    t
  }

  lemma OnlyIs(targets: set<Target>, t: Target)
    requires |targets| == 1 && t in targets
    ensures Only(targets) == t
  {
    assert |targets - {t}| == 0;
    assert targets == {t} + (targets - {t});
  }

  /** The only candidate, when the line has a reference and there is exactly one. */
  ghost function Suggestion(books: Books, lines: seq<Line>, l: Line): Option<Match> {
    var candidates := Candidates(books, lines, l);
    if Csv.Blank(l.reference) || |candidates| != 1 then None else Some(Match(Only(candidates), false))
  }

  /** One round of the suggestion loop. */
  ghost function SuggestLine(s: Store, k: nat): Store
    requires k < |s.lines|
  {
    var suggestion := Suggestion(s.books, s.lines, s.lines[k]);
    if suggestion.None? then s else s.(lines := s.lines[k := s.lines[k].(suggestion := suggestion)])
  }

  ghost function Suggest(s: Store, from: nat): (t: Store)
    requires from <= |s.lines|
    ensures |t.lines| == |s.lines|
    decreases |s.lines| - from
  {
    if from == |s.lines| then s else Suggest(SuggestLine(s, from), from + 1)
  }

  /** The transaction can still be matched: it is in the books and on no line. */
  predicate Matchable(s: Store, target: Target) {
    && !Taken(s.lines, target)
    && match target
       case Receipt(id) => id in s.books.receipts
       case Payment(id) => id in s.books.payments
       case Journal(id) => id in s.books.journals
  }

  /** What the bank line has to amount to; any journal will do. */
  function TargetAmount(s: Store, target: Target, bankAmount: real): real
    requires Matchable(s, target)
  {
    match target
    case Receipt(id) => s.books.receipts[id].amount
    case Payment(id) => s.books.payments[id].amount
    case Journal(_) => bankAmount
  }

  // ---------------------------------------------------------------- the operations

  ghost function Import(s: Store, user: User, from: int, to: int, opening: real, closing: real, hash: string,
                        rows: seq<ParsedLine>): Result<Store, Error>
  {
    if rows == [] || to < from then Failure(BadRequest)
    else if exists i :: 0 <= i < |rows| && (RowRefused(rows[i]) || rows[i].date < from || rows[i].date > to) then
      Failure(BadRequest)
    else if Round2(opening + Net(LinesOf(rows, |s.statements|), |s.statements|)) != closing then Failure(BadRequest)
    else if exists i :: 0 <= i < |s.statements| && s.statements[i].hash == hash then Failure(Conflict)
    else Success(Suggest(Imported(s, user, opening, closing, hash, rows), |s.lines|))
  }

  /** The statement and its lines as the tables keep them, the opening balance rounded to two places. */
  function Imported(s: Store, user: User, opening: real, closing: real, hash: string, rows: seq<ParsedLine>): Store {
    s.(statements := s.statements + [Statement(Draft, user, None, Round2(opening), closing, hash)],
       lines := s.lines + LinesOf(rows, |s.statements|))
  }

  /** The line is there and its statement is open for reconciliation. */
  predicate Open(s: Store, k: nat) {
    k < |s.lines| && s.lines[k].statement < |s.statements| && Editable(s.statements[s.lines[k].statement].status)
  }

  function Refusal(s: Store, k: nat): Error {
    if k >= |s.lines| then NotFound else BadRequest
  }

  function PutLine(s: Store, k: nat, resolution: Resolution, suggestion: Option<Match>): Store
    requires k < |s.lines|
  {
    s.(lines := s.lines[k := s.lines[k].(resolution := resolution, suggestion := suggestion)])
  }

  function MatchTo(s: Store, k: nat, target: Target): Result<Store, Error> {
    if !Open(s, k) then Failure(Refusal(s, k))
    else if !Matchable(s, target) || TargetAmount(s, target, Amount(s.lines[k])) != Amount(s.lines[k])
        then Failure(BadRequest)
    else Success(PutLine(s, k, Matched, Some(Match(target, true))))
  }

  function Confirm(s: Store, k: nat): Result<Store, Error> {
    if !Open(s, k) then Failure(Refusal(s, k))
    else if s.lines[k].suggestion.None? then Failure(BadRequest)
    else Success(PutLine(s, k, Matched, Some(s.lines[k].suggestion.value.(confirmed := true))))
  }

  function Accept(s: Store, k: nat, reasonGiven: bool): Result<Store, Error> {
    if !reasonGiven then Failure(BadRequest)
    else if !Open(s, k) then Failure(Refusal(s, k))
    else Success(PutLine(s, k, UnmatchedAccepted, None))
  }

  function Submit(s: Store, id: nat): Result<Store, Error> {
    if id >= |s.statements| then Failure(NotFound)
    else if !Editable(s.statements[id].status) then Failure(BadRequest)
    else if exists i :: 0 <= i < |s.lines| && s.lines[i].statement == id && s.lines[i].resolution.Pending? then
      Failure(BadRequest)
    else Success(s.(statements := s.statements[id := s.statements[id].(status := PendingApproval)]))
  }

  function Approve(s: Store, id: nat, user: User): Result<Store, Error> {
    if id >= |s.statements| then Failure(NotFound)
    else if !s.statements[id].status.PendingApproval? || s.statements[id].importedBy == user then Failure(BadRequest)
    else Success(s.(statements :=
      s.statements[id := s.statements[id].(status := ApprovedStatement, approvedBy := Some(user))]))
  }

  function Reject(s: Store, id: nat): Result<Store, Error> {
    if id >= |s.statements| then Failure(NotFound)
    else if !s.statements[id].status.PendingApproval? then Failure(BadRequest)
    else Success(s.(statements := s.statements[id := s.statements[id].(status := RejectedStatement)]))
  }

  // ---------------------------------------------------------------- the service

  class OperationsService {
    var books: Books
    var statements: seq<Statement>
    var lines: seq<Line>

    constructor ()
      ensures statements == [] && lines == []
    {
      books, statements, lines := Books(map[], map[], {}), [], [];
    }

    function State(): Store
      reads this
    {
      Store(books, statements, lines)
    }

    /** For each new line in turn: if exactly one transaction fits, suggest it. */
    method SuggestMatches(from: nat)
      requires from <= |lines|
      modifies this`lines
      ensures State() == Suggest(old(State()), from)
    {
      ghost var total := |lines|;
      var k := from;
      while k < |lines|
        invariant from <= k <= |lines| == total
        invariant Suggest(State(), k) == Suggest(old(State()), from)
      {
        ghost var before := State();
        var line := lines[k];
        if !Csv.Blank(line.reference) {
          var rows := Candidates(books, lines, line);
          if |rows| == 1 {
            var target :| target in rows;
            OnlyIs(rows, target);
            lines := lines[k := line.(suggestion := Some(Match(target, false)))];
          }
        }
        assert State() == SuggestLine(before, k);
        k := k + 1;
      }
    }

    method ImportStatement(user: User, from: int, to: int, opening: real, closing: real, hash: string,
        rows: seq<ParsedLine>)
      returns (outcome: Outcome<Error>)
      modifies this
      ensures Follows(old(State()), State(), outcome,
                Import(old(State()), user, from, to, opening, closing, hash, rows))
    {
      hide Suggest, RowRefused, Round2;
      if rows == [] || to < from {
        return Fail(BadRequest);
      }
      if exists i :: 0 <= i < |rows| && (RowRefused(rows[i]) || rows[i].date < from || rows[i].date > to) {
        return Fail(BadRequest);
      }
      var id := |statements|;
      var newLines := LinesOf(rows, id);
      var net := 0.0;
      for i := 0 to |newLines|
        invariant net == Net(newLines[..i], id)
        invariant State() == old(State())
      {
        NetStep(newLines, i, id);
        net := net + newLines[i].credit - newLines[i].debit;
      }
      assert newLines[..|newLines|] == newLines;
      if Round2(opening + net) != closing {
        return Fail(BadRequest);
      }
      if exists i :: 0 <= i < |statements| && statements[i].hash == hash {
        return Fail(Conflict);
      }
      var firstLine := |lines|;
      statements := statements + [Statement(Draft, user, None, Round2(opening), closing, hash)];
      lines := lines + newLines;
      SuggestMatches(firstLine);
      return Pass;
    }

    method MatchLine(k: nat, target: Target) returns (outcome: Outcome<Error>)
      modifies this
      ensures Follows(old(State()), State(), outcome, MatchTo(old(State()), k, target))
    {
      if !Open(State(), k) {
        return Fail(Refusal(State(), k));
      }
      if !Matchable(State(), target) {
        return Fail(BadRequest);
      }
      var expected := TargetAmount(State(), target, Amount(lines[k]));
      if expected != Amount(lines[k]) {
        return Fail(BadRequest);
      }
      lines := lines[k := lines[k].(suggestion := Some(Match(target, true)))];
      lines := lines[k := lines[k].(resolution := Matched)];
      return Pass;
    }

    method ConfirmSuggestion(k: nat) returns (outcome: Outcome<Error>)
      modifies this
      ensures Follows(old(State()), State(), outcome, Confirm(old(State()), k))
    {
      if !Open(State(), k) {
        return Fail(Refusal(State(), k));
      }
      if lines[k].suggestion.None? {
        return Fail(BadRequest);
      }
      lines := lines[k := lines[k].(suggestion := Some(lines[k].suggestion.value.(confirmed := true)))];
      lines := lines[k := lines[k].(resolution := Matched)];
      return Pass;
    }

    method AcceptUnmatched(k: nat, reasonGiven: bool) returns (outcome: Outcome<Error>)
      modifies this
      ensures Follows(old(State()), State(), outcome, Accept(old(State()), k, reasonGiven))
    {
      if !reasonGiven {
        return Fail(BadRequest);
      }
      if !Open(State(), k) {
        return Fail(Refusal(State(), k));
      }
      lines := lines[k := lines[k].(suggestion := None)];
      lines := lines[k := lines[k].(resolution := UnmatchedAccepted)];
      return Pass;
    }

    method SubmitStatement(id: nat) returns (outcome: Outcome<Error>)
      modifies this
      ensures Follows(old(State()), State(), outcome, Submit(old(State()), id))
    {
      if id >= |statements| {
        return Fail(NotFound);
      }
      if !Editable(statements[id].status) {
        return Fail(BadRequest);
      }
      if exists i :: 0 <= i < |lines| && lines[i].statement == id && lines[i].resolution.Pending? {
        return Fail(BadRequest);
      }
      statements := statements[id := statements[id].(status := PendingApproval)];
      return Pass;
    }

    method ApproveStatement(id: nat, user: User) returns (outcome: Outcome<Error>)
      modifies this
      ensures Follows(old(State()), State(), outcome, Approve(old(State()), id, user))
    {
      if id >= |statements| {
        return Fail(NotFound);
      }
      if !statements[id].status.PendingApproval? || statements[id].importedBy == user {
        return Fail(BadRequest);
      }
      statements := statements[id := statements[id].(status := ApprovedStatement, approvedBy := Some(user))];
      return Pass;
    }

    method RejectStatement(id: nat) returns (outcome: Outcome<Error>)
      modifies this
      ensures Follows(old(State()), State(), outcome, Reject(old(State()), id))
    {
      if id >= |statements| {
        return Fail(NotFound);
      }
      if !statements[id].status.PendingApproval? {
        return Fail(BadRequest);
      }
      statements := statements[id := statements[id].(status := RejectedStatement)];
      return Pass;
    }
  }

  lemma NetStep(lines: seq<Line>, i: nat, statement: nat)
    requires i < |lines|
    ensures Net(lines[..i + 1], statement) ==
            Net(lines[..i], statement)
                + if lines[i].statement == statement then lines[i].credit - lines[i].debit else 0.0
  {
    assert lines[..i + 1][..i] == lines[..i];
  }
}
