/** What every run of importing, matching and approving bank statements keeps. */
module BankReconciliationLaws {
  import opened Wrappers
  import opened Decimals
  import opened BankReconciliation

  // ---------------------------------------------------------------- the invariant

  /** A receipt or payment of that amount is in the books; a journal only has to exist. */
  ghost predicate InBooks(books: Books, target: Target, amount: real) {
    match target
    case Receipt(id) => id in books.receipts && books.receipts[id].amount == amount
    case Payment(id) => id in books.payments && books.payments[id].amount == amount
    case Journal(id) => id in books.journals
  }

  /** The resolution says what the match says. */
  ghost predicate ResolutionOk(l: Line) {
    match l.resolution
    case Matched => l.suggestion.Some? && l.suggestion.value.confirmed
    case UnmatchedAccepted => l.suggestion.None?
    case Pending => l.suggestion.Some? ==> !l.suggestion.value.confirmed
  }

  /** The bank moved money on exactly one side of the line. */
  ghost predicate OneSided(l: Line) {
    && IsMoney(l.debit) && IsMoney(l.credit)
    && ((l.debit > 0.0 && l.credit == 0.0) || (l.credit > 0.0 && l.debit == 0.0))
  }

  ghost predicate LineOk(books: Books, l: Line) {
    && ResolutionOk(l)
    && OneSided(l)
    && (l.suggestion.Some? ==> InBooks(books, l.suggestion.value.target, Amount(l)))
  }

  /** A statement awaiting or past approval has every line resolved, and its approver is not its importer. */
  ghost predicate StatementOk(x: Statement, id: nat, lines: seq<Line>) {
    && (x.status.ApprovedStatement? ==> x.approvedBy.Some? && x.approvedBy.value != x.importedBy)
    && (!Editable(x.status) ==> forall i :: 0 <= i < |lines| && lines[i].statement == id ==>
        !lines[i].resolution.Pending?)
  }

  /** No transaction is matched to two lines. */
  ghost predicate OneToOne(lines: seq<Line>) {
    forall i, j :: 0 <= i < j < |lines| && lines[i].suggestion.Some? && lines[j].suggestion.Some?
      ==> lines[i].suggestion.value.target != lines[j].suggestion.value.target
  }

  ghost predicate Inv(s: Store) {
    && (forall i :: 0 <= i < |s.lines| ==> s.lines[i].statement < |s.statements| && LineOk(s.books, s.lines[i]))
    && (forall id :: 0 <= id < |s.statements| ==> StatementOk(s.statements[id], id, s.lines))
    && (forall i, j :: 0 <= i < j < |s.statements| ==> s.statements[i].hash != s.statements[j].hash)
    && OneToOne(s.lines)
  }

  ghost predicate OnApproved(s: Store, l: Line) {
    l.statement < |s.statements| && s.statements[l.statement].status.ApprovedStatement?
  }

  /** An approved statement and its lines stay as they are. */
  ghost predicate Frozen(s: Store, t: Store) {
    && |s.statements| <= |t.statements| && |s.lines| <= |t.lines|
    && (forall id :: 0 <= id < |s.statements| && s.statements[id].status.ApprovedStatement? ==>
          t.statements[id] == s.statements[id])
    && (forall i :: 0 <= i < |s.lines| ==> t.lines[i].statement == s.lines[i].statement)
    && (forall i :: 0 <= i < |s.lines| && OnApproved(s, s.lines[i]) ==> t.lines[i] == s.lines[i])
    && (forall i :: |s.lines| <= i < |t.lines| ==> t.lines[i].statement >= |s.statements|)
  }

  ghost predicate Kept(s: Store, t: Store) {
    Inv(t) && Frozen(s, t)
  }

  // ---------------------------------------------------------------- sums of lines

  lemma {:induction false} NetOfAmounts(a: seq<Line>, b: seq<Line>, statement: nat)
    requires |a| == |b|
    requires forall i :: 0 <= i < |a| ==>
               a[i].statement == b[i].statement && a[i].credit == b[i].credit && a[i].debit == b[i].debit
    ensures Net(a, statement) == Net(b, statement)
  {
    if a != [] {
      NetOfAmounts(a[..|a| - 1], b[..|b| - 1], statement);
    }
  }

  lemma {:induction false} NetOfOthers(a: seq<Line>, statement: nat)
    requires forall i :: 0 <= i < |a| ==> a[i].statement != statement
    ensures Net(a, statement) == 0.0
  {
    if a != [] {
      NetOfOthers(a[..|a| - 1], statement);
    }
  }

  lemma {:induction false} NetAppend(a: seq<Line>, b: seq<Line>, statement: nat)
    ensures Net(a + b, statement) == Net(a, statement) + Net(b, statement)
  {
    if b == [] {
      assert a + b == a;
    } else {
      NetAppend(a, b[..|b| - 1], statement);
      assert (a + b)[..|a + b| - 1] == a + b[..|b| - 1];
    }
  }

  lemma {:induction false} NetIsMoney(a: seq<Line>, statement: nat)
    requires forall i :: 0 <= i < |a| ==> OneSided(a[i])
    ensures IsMoney(Net(a, statement))
  {
    ZeroIsMoney();
    if a != [] {
      var init, last := a[..|a| - 1], a[|a| - 1];
      NetIsMoney(init, statement);
      assert OneSided(last);
      MoneyClosed(last.credit, last.debit);
      MoneyClosed(Net(init, statement), last.credit - last.debit);
    }
  }

  // ---------------------------------------------------------------- one line changes

  /** The target is on no other line. */
  ghost predicate FreeFor(lines: seq<Line>, k: nat, suggestion: Option<Match>) {
    suggestion.Some? ==>
      forall i :: 0 <= i < |lines| && i != k && lines[i].suggestion.Some? ==>
        lines[i].suggestion.value.target != suggestion.value.target
  }

  lemma PutLineStatementOk(s: Store, k: nat, resolution: Resolution, suggestion: Option<Match>, id: nat)
    requires Open(s, k) && id < |s.statements| && StatementOk(s.statements[id], id, s.lines)
    ensures StatementOk(s.statements[id], id, PutLine(s, k, resolution, suggestion).lines)
  {
  }

  lemma PutLineKeeps(s: Store, k: nat, resolution: Resolution, suggestion: Option<Match>)
    requires Inv(s) && Open(s, k)
    requires LineOk(s.books, s.lines[k].(resolution := resolution, suggestion := suggestion))
    requires FreeFor(s.lines, k, suggestion)
    ensures Kept(s, PutLine(s, k, resolution, suggestion))
  {
    hide LineOk, StatementOk;
    forall id | 0 <= id < |s.statements|
      ensures StatementOk(s.statements[id], id, PutLine(s, k, resolution, suggestion).lines)
    {
      PutLineStatementOk(s, k, resolution, suggestion, id);
    }
  }

  lemma MatchKeeps(s: Store, k: nat, target: Target)
    requires Inv(s) && MatchTo(s, k, target).Success?
    ensures Kept(s, MatchTo(s, k, target).value)
  {
    hide StatementOk, OneToOne;
    assert LineOk(s.books, s.lines[k]);
    PutLineKeeps(s, k, Matched, Some(Match(target, true)));
  }

  lemma ConfirmKeeps(s: Store, k: nat)
    requires Inv(s) && Confirm(s, k).Success?
    ensures Kept(s, Confirm(s, k).value)
  {
    hide StatementOk;
    assert LineOk(s.books, s.lines[k]);
    PutLineKeeps(s, k, Matched, Some(s.lines[k].suggestion.value.(confirmed := true)));
  }

  lemma AcceptKeeps(s: Store, k: nat, reasonGiven: bool)
    requires Inv(s) && Accept(s, k, reasonGiven).Success?
    ensures Kept(s, Accept(s, k, reasonGiven).value)
  {
    hide StatementOk, OneToOne;
    assert LineOk(s.books, s.lines[k]);
    PutLineKeeps(s, k, UnmatchedAccepted, None);
  }

  // ---------------------------------------------------------------- one statement changes

  lemma PutStatementKeeps(s: Store, id: nat, x: Statement)
    requires Inv(s) && id < |s.statements| && !s.statements[id].status.ApprovedStatement?
    requires StatementOk(x, id, s.lines) && x.hash == s.statements[id].hash
    ensures Kept(s, s.(statements := s.statements[id := x]))
  {
  }

  lemma SubmitKeeps(s: Store, id: nat)
    requires Inv(s) && Submit(s, id).Success?
    ensures Kept(s, Submit(s, id).value)
  {
    hide LineOk, OneToOne;
    PutStatementKeeps(s, id, s.statements[id].(status := PendingApproval));
  }

  lemma ApproveKeeps(s: Store, id: nat, user: User)
    requires Inv(s) && Approve(s, id, user).Success?
    ensures Kept(s, Approve(s, id, user).value)
  {
    hide LineOk, OneToOne;
    PutStatementKeeps(s, id, s.statements[id].(status := ApprovedStatement, approvedBy := Some(user)));
  }

  lemma RejectKeeps(s: Store, id: nat)
    requires Inv(s) && Reject(s, id).Success?
    ensures Kept(s, Reject(s, id).value)
  {
    hide LineOk, OneToOne;
    PutStatementKeeps(s, id, s.statements[id].(status := RejectedStatement));
  }

  // ---------------------------------------------------------------- import

  /** The line is waiting, without a match, on a statement that is open. */
  ghost predicate Untouched(s: Store, k: nat) {
    Open(s, k) && s.lines[k].resolution.Pending? && s.lines[k].suggestion.None?
  }

  lemma CandidateFits(books: Books, lines: seq<Line>, l: Line, target: Target)
    requires target in Candidates(books, lines, l)
    ensures !Taken(lines, target) && InBooks(books, target, Amount(l))
  {
  }

  lemma SuggestLineKeeps(s: Store, k: nat)
    requires Inv(s) && Untouched(s, k)
    ensures Kept(s, SuggestLine(s, k))
  {
    var l, suggestion := s.lines[k], Suggestion(s.books, s.lines, s.lines[k]);
    assert LineOk(s.books, l);
    if suggestion.Some? {
      CandidateFits(s.books, s.lines, l, suggestion.value.target);
      hide StatementOk, OneToOne, Candidates, Suggestion;
      PutLineKeeps(s, k, Pending, suggestion);
      assert SuggestLine(s, k) == PutLine(s, k, Pending, suggestion);
    }
  }

  lemma KeptTransitive(s: Store, t: Store, u: Store)
    requires Inv(s) && Kept(s, t) && Kept(t, u)
    ensures Kept(s, u)
  {
    hide LineOk, StatementOk, OneToOne;
  }

  lemma SuggestLineLeavesLater(s: Store, k: nat)
    requires k < |s.lines|
    ensures |SuggestLine(s, k).lines| == |s.lines|
    ensures forall j :: k < j < |s.lines| && Untouched(s, j) ==> Untouched(SuggestLine(s, k), j)
  {
    hide Suggestion;
  }

  lemma {:induction false} SuggestKeeps(s: Store, from: nat)
    requires Inv(s) && from <= |s.lines|
    requires forall k :: from <= k < |s.lines| ==> Untouched(s, k)
    ensures Kept(s, Suggest(s, from))
    decreases |s.lines| - from
  {
    hide Inv, SuggestLine, Untouched, Frozen;
    if from == |s.lines| {
      FrozenToItself(s);
    } else {
      SuggestLineKeeps(s, from);
      var t := SuggestLine(s, from);
      SuggestLineLeavesLater(s, from);
      SuggestKeeps(t, from + 1);
      KeptTransitive(s, t, Suggest(s, from));
    }
  }

  lemma NewLinesOk(rows: seq<ParsedLine>, statement: nat, books: Books)
    requires forall i :: 0 <= i < |rows| ==> !RowRefused(rows[i])
    ensures forall l :: l in LinesOf(rows, statement) ==> LineOk(books, l)
  {
  }

  lemma ImportedKeeps(s: Store, user: User, opening: real, closing: real, hash: string, rows: seq<ParsedLine>)
    requires Inv(s)
    requires forall i :: 0 <= i < |rows| ==> !RowRefused(rows[i])
    requires forall i :: 0 <= i < |s.statements| ==> s.statements[i].hash != hash
    ensures Kept(s, Imported(s, user, opening, closing, hash, rows))
  {
    var t := Imported(s, user, opening, closing, hash, rows);
    NewLinesOk(rows, |s.statements|, s.books);
    hide LineOk, RowRefused, Round2, LineOf;
    assert forall i :: |s.lines| <= i < |t.lines| ==> t.lines[i] == LinesOf(rows, |s.statements|)[i - |s.lines|];
  }

  lemma ImportKeeps(s: Store, user: User, from: int, to: int, opening: real, closing: real, hash: string,
      rows: seq<ParsedLine>)
    requires Inv(s) && Import(s, user, from, to, opening, closing, hash, rows).Success?
    ensures Kept(s, Import(s, user, from, to, opening, closing, hash, rows).value)
  {
    hide Inv, RowRefused, Net;
    var t := Imported(s, user, opening, closing, hash, rows);
    ImportedKeeps(s, user, opening, closing, hash, rows);
    SuggestKeeps(t, |s.lines|);
    KeptTransitive(s, t, Suggest(t, |s.lines|));
  }

  // ---------------------------------------------------------------- suggestions

  ghost predicate WithoutMatches(lines: seq<Line>, from: nat) {
    forall k :: from <= k < |lines| ==> lines[k].suggestion.None?
  }

  lemma CandidatesBefore(books: Books, lines: seq<Line>, k: nat, l: Line)
    requires k <= |lines| && WithoutMatches(lines, k)
    ensures Candidates(books, lines, l) == Candidates(books, lines[..k], l)
  {
    assert forall target :: Taken(lines, target) <==> Taken(lines[..k], target);
  }

  lemma {:induction false} SuggestKeepsEarlier(s: Store, from: nat)
    requires from <= |s.lines|
    ensures Suggest(s, from).books == s.books && Suggest(s, from).statements == s.statements
    ensures Suggest(s, from).lines[..from] == s.lines[..from]
    decreases |s.lines| - from
  {
    hide Suggestion;
    if from < |s.lines| {
      var t := Suggest(s, from);
      SuggestKeepsEarlier(SuggestLine(s, from), from + 1);
      assert t.lines[..from] == t.lines[..from + 1][..from];
    }
  }

  /**
   A line of a new statement gets a suggestion exactly when it has a reference and, of the
   transactions with its amount and reference that no earlier line matches, there is exactly
   one; and it gets that one. Nothing else about any line changes.
   */
  lemma {:induction false} SuggestsTheOnlyCandidate(s: Store, from: nat, k: nat)
    requires from <= k < |s.lines| && WithoutMatches(s.lines, from)
    ensures var t := Suggest(s, from);
      && t.books == s.books && t.statements == s.statements && t.lines[..from] == s.lines[..from]
      && t.lines[k] == s.lines[k].(suggestion := Suggestion(s.books, t.lines[..k], s.lines[k]))
    decreases |s.lines| - from
  {
    SuggestKeepsEarlier(s, from);
    var u, t := SuggestLine(s, from), Suggest(s, from);
    if k == from {
      CandidatesBefore(s.books, s.lines, from, s.lines[from]);
      SuggestKeepsEarlier(u, from + 1);
      hide Suggest, Candidates;
      assert t.lines[k] == t.lines[..from + 1][k] == u.lines[..from + 1][k];
    } else {
      hide Suggestion;
      assert forall j :: from < j < |s.lines| ==> u.lines[j] == s.lines[j];
      SuggestsTheOnlyCandidate(u, from + 1, k);
    }
  }

  // ---------------------------------------------------------------- runs

  /** The calls of the service, and the postings that add transactions under fresh ids. */
  datatype Op =
    | ImportOp(user: User, from: int, to: int, opening: real, closing: real, hash: string, rows: seq<ParsedLine>)
    | MatchOp(line: nat, target: Target)
    | ConfirmOp(line: nat)
    | AcceptOp(line: nat, reasonGiven: bool)
    | SubmitOp(id: nat)
    | ApproveOp(id: nat, user: User)
    | RejectOp(id: nat)
    | Posted(target: Target, transaction: Transaction)

  /** A posting adds a transaction that was not there. */
  function Post(s: Store, target: Target, transaction: Transaction): Store {
    match target
    case Receipt(id) => if id in s.books.receipts then s
        else s.(books := s.books.(receipts := s.books.receipts[id := transaction]))
    case Payment(id) => if id in s.books.payments then s
        else s.(books := s.books.(payments := s.books.payments[id := transaction]))
    case Journal(id) => s.(books := s.books.(journals := s.books.journals + {id}))
  }

  ghost function Apply(s: Store, op: Op): Result<Store, Error> {
    match op
    case ImportOp(user, from, to, opening, closing, hash, rows) =>
        Import(s, user, from, to, opening, closing, hash, rows)
    case MatchOp(line, target) => MatchTo(s, line, target)
    case ConfirmOp(line) => Confirm(s, line)
    case AcceptOp(line, reasonGiven) => Accept(s, line, reasonGiven)
    case SubmitOp(id) => Submit(s, id)
    case ApproveOp(id, user) => Approve(s, id, user)
    case RejectOp(id) => Reject(s, id)
    case Posted(target, transaction) => Success(Post(s, target, transaction))
  }

  /** The store after one call, which changes nothing when it fails. */
  ghost function Step(s: Store, op: Op): Store {
    var r := Apply(s, op);
    if r.Success? then r.value else s
  }

  ghost function Run(s: Store, ops: seq<Op>): Store
    decreases |ops|
  {
    if ops == [] then s else Run(Step(s, ops[0]), ops[1..])
  }

  lemma PostKeeps(s: Store, target: Target, transaction: Transaction)
    requires Inv(s)
    ensures Kept(s, Post(s, target, transaction))
  {
  }

  lemma StepKeeps(s: Store, op: Op)
    requires Inv(s)
    ensures Kept(s, Step(s, op))
  {
    hide Inv, Import, MatchTo, Confirm, Accept, Submit, Approve, Reject, Post;
    if Apply(s, op).Success? {
      match op
      case ImportOp(user, from, to, opening, closing, hash, rows) =>
          ImportKeeps(s, user, from, to, opening, closing, hash, rows);
      case MatchOp(line, target) => MatchKeeps(s, line, target);
      case ConfirmOp(line) => ConfirmKeeps(s, line);
      case AcceptOp(line, reasonGiven) => AcceptKeeps(s, line, reasonGiven);
      case SubmitOp(id) => SubmitKeeps(s, id);
      case ApproveOp(id, user) => ApproveKeeps(s, id, user);
      case RejectOp(id) => RejectKeeps(s, id);
      case Posted(target, transaction) => PostKeeps(s, target, transaction);
    }
  }

  /** Every run keeps the invariant, and leaves what was approved before it as it was. */
  lemma {:induction false} RunKeeps(s: Store, ops: seq<Op>)
    requires Inv(s)
    ensures Kept(s, Run(s, ops))
    decreases |ops|
  {
    hide Inv, Step, Frozen;
    if ops == [] {
      FrozenToItself(s);
    } else {
      StepKeeps(s, ops[0]);
      RunKeeps(Step(s, ops[0]), ops[1..]);
      KeptTransitive(s, Step(s, ops[0]), Run(s, ops));
    }
  }

  lemma FrozenToItself(s: Store)
    ensures Frozen(s, s)
  {
  }

  const EMPTY := Store(Books(map[], map[], {}), [], [])

  /**
   In every run no transaction is matched to two bank lines, a matched receipt or payment is
   in the books with the line's amount, and every line of an approved statement is either
   confirmed as matched or accepted without a match, by someone other than the importer.
   */
  lemma EveryRunMatchesOneToOne(ops: seq<Op>, i: nat)
    requires i < |Run(EMPTY, ops).lines|
    ensures var s := Run(EMPTY, ops);
      var l := s.lines[i];
      && (l.suggestion.Some? ==> InBooks(s.books, l.suggestion.value.target, Amount(l)))
      && (l.suggestion.Some? ==> forall j :: 0 <= j < |s.lines| && j != i && s.lines[j].suggestion.Some? ==>
            s.lines[j].suggestion.value.target != l.suggestion.value.target)
      && l.statement < |s.statements|
      && (s.statements[l.statement].status.ApprovedStatement? ==>
            && s.statements[l.statement].approvedBy != Some(s.statements[l.statement].importedBy)
            && ((l.resolution.Matched? && l.suggestion.Some? && l.suggestion.value.confirmed)
                || (l.resolution.UnmatchedAccepted? && l.suggestion.None?)))
  {
    assert Inv(EMPTY);
    RunKeeps(EMPTY, ops);
    var s := Run(EMPTY, ops);
    hide Run, Net, IsMoney;
    assert LineOk(s.books, s.lines[i]);
    assert StatementOk(s.statements[s.lines[i].statement], s.lines[i].statement, s.lines);
  }

  // ---------------------------------------------------------------- balances

  /** The statement as stored for an opening balance as entered. */
  ghost predicate Entered(x: Statement, net: real, opening: real) {
    x.opening == Round2(opening) && x.closing == Round2(opening + net)
  }

  ghost predicate AllEntered(s: Store, openings: seq<real>) {
    |openings| == |s.statements|
    && forall id :: 0 <= id < |s.statements| ==> Entered(s.statements[id], Net(s.lines, id), openings[id])
  }

  /** The opening balance a call enters, if it imports a statement. */
  ghost function Opened(s: Store, op: Op): seq<real> {
    if op.ImportOp? && Apply(s, op).Success? then [op.opening] else []
  }

  /** The opening balances entered in a run, one for each statement it imports. */
  ghost function Openings(s: Store, ops: seq<Op>): seq<real>
    decreases |ops|
  {
    if ops == [] then [] else Opened(s, ops[0]) + Openings(Step(s, ops[0]), ops[1..])
  }

  /** Matching and approving change no amount. */
  ghost predicate SameAmounts(s: Store, t: Store) {
    && |t.lines| == |s.lines| && |t.statements| == |s.statements|
    && (forall i :: 0 <= i < |s.lines| ==>
          t.lines[i].statement == s.lines[i].statement && t.lines[i].credit == s.lines[i].credit &&
              t.lines[i].debit == s.lines[i].debit)
    && (forall id :: 0 <= id < |s.statements| ==>
          t.statements[id].opening == s.statements[id].opening && t.statements[id].closing == s.statements[id].closing)
  }

  lemma SameAmountsKeepEntered(s: Store, t: Store, openings: seq<real>)
    requires SameAmounts(s, t) && AllEntered(s, openings)
    ensures AllEntered(t, openings)
  {
    hide Entered;
    forall id | 0 <= id < |t.statements|
      ensures Entered(t.statements[id], Net(t.lines, id), openings[id])
    {
      NetOfAmounts(s.lines, t.lines, id);
      SameEntered(s.statements[id], t.statements[id], Net(s.lines, id), openings[id]);
    }
  }

  lemma SameEntered(x: Statement, y: Statement, net: real, opening: real)
    requires x.opening == y.opening && x.closing == y.closing && Entered(x, net, opening)
    ensures Entered(y, net, opening)
  {
  }

  lemma OthersKeepAmounts(s: Store, op: Op)
    requires !op.ImportOp?
    ensures SameAmounts(s, Step(s, op))
  {
    hide Matchable, TargetAmount, Amount, Editable;
  }

  lemma SuggestLineKeepsAmounts(s: Store, k: nat)
    requires k < |s.lines|
    ensures SameAmounts(s, SuggestLine(s, k))
  {
    hide Suggestion;
  }

  lemma {:induction false} SuggestKeepsAmounts(s: Store, from: nat)
    requires from <= |s.lines|
    ensures SameAmounts(s, Suggest(s, from))
    decreases |s.lines| - from
  {
    if from < |s.lines| {
      SuggestLineKeepsAmounts(s, from);
      hide SuggestLine;
      SuggestKeepsAmounts(SuggestLine(s, from), from + 1);
    }
  }

  lemma ImportedEntered(s: Store, user: User, opening: real, closing: real, hash: string, rows: seq<ParsedLine>,
      openings: seq<real>)
    requires Inv(s) && AllEntered(s, openings)
    requires Round2(opening + Net(LinesOf(rows, |s.statements|), |s.statements|)) == closing
    ensures AllEntered(Imported(s, user, opening, closing, hash, rows), openings + [opening])
  {
    hide LineOk, StatementOk, OneToOne, Round2;
    var t, more := Imported(s, user, opening, closing, hash, rows), LinesOf(rows, |s.statements|);
    forall id | 0 <= id < |t.statements|
      ensures Entered(t.statements[id], Net(t.lines, id), (openings + [opening])[id])
    {
      NetAppend(s.lines, more, id);
      if id < |s.statements| {
        NetOfOthers(more, id);
        assert Entered(s.statements[id], Net(s.lines, id), openings[id]);
      } else {
        NetOfOthers(s.lines, id);
      }
      hide Net;
    }
  }

  lemma StepEntered(s: Store, op: Op, openings: seq<real>)
    requires Inv(s) && AllEntered(s, openings)
    ensures AllEntered(Step(s, op), openings + Opened(s, op))
  {
    hide AllEntered, Inv, SameAmounts, RowRefused, Net;
    assert openings + [] == openings;
    if op.ImportOp? {
      if Apply(s, op).Success? {
        var t := Imported(s, op.user, op.opening, op.closing, op.hash, op.rows);
        ImportedEntered(s, op.user, op.opening, op.closing, op.hash, op.rows, openings);
        SuggestKeepsAmounts(t, |s.lines|);
        SameAmountsKeepEntered(t, Suggest(t, |s.lines|), openings + [op.opening]);
      }
    } else {
      OthersKeepAmounts(s, op);
      SameAmountsKeepEntered(s, Step(s, op), openings);
    }
  }

  lemma {:induction false} RunEntered(s: Store, ops: seq<Op>, openings: seq<real>)
    requires Inv(s) && AllEntered(s, openings)
    ensures AllEntered(Run(s, ops), openings + Openings(s, ops))
    decreases |ops|
  {
    hide AllEntered, Inv, Step, Opened;
    if ops == [] {
      assert openings + [] == openings;
    } else {
      StepEntered(s, ops[0], openings);
      StepKeepsInv(s, ops[0]);
      RunEntered(Step(s, ops[0]), ops[1..], openings + Opened(s, ops[0]));
      assert openings + (Opened(s, ops[0]) + Openings(Step(s, ops[0]), ops[1..])) ==
             openings + Opened(s, ops[0]) + Openings(Step(s, ops[0]), ops[1..]);
    }
  }

  lemma StepKeepsInv(s: Store, op: Op)
    requires Inv(s)
    ensures Inv(Step(s, op))
  {
    StepKeeps(s, op);
  }

  /** Half way between two amounts of two decimals. */
  predicate IsTie(x: real) {
    x * 100.0 - 0.5 == (x * 100.0 - 0.5).Floor as real
  }

  /** The opening balance is a tie, and the statement carries it over zero. */
  predicate TieCrossesZero(opening: real, net: real) {
    IsTie(opening) && (opening >= 0.0) != (opening + net >= 0.0)
  }

  lemma FloorShift(y: real, n: int)
    ensures (y + n as real).Floor == y.Floor + n
  {
  }

  /** Rounding half up in terms of the floor: only negative ties go down. */
  lemma HalfUpFloor(y: real)
    ensures var k := (y + 0.5).Floor;
      HalfUp(y) == if y >= 0.0 || y + 0.5 != k as real then k else k - 1
    ensures y - 0.5 == (y - 0.5).Floor as real <==> y + 0.5 == (y + 0.5).Floor as real
  {
    FloorShift(y - 0.5, 1);
    assert y - 0.5 + 1.0 == y + 0.5;
    var k := (y + 0.5).Floor;
    if y < 0.0 {
      NegativeFloor(-y + 0.5, if y + 0.5 != k as real then -k else 1 - k);
    }
  }

  lemma NegativeFloor(x: real, k: int)
    requires k as real <= x < k as real + 1.0
    ensures x.Floor == k
  {
  }

  /** Ties are rounded away from zero, so adding an integer and rounding do not commute across it. */
  lemma HalfUpShift(y: real, n: int)
    ensures HalfUp(y) + n == HalfUp(y + n as real) <==>
            !(y - 0.5 == (y - 0.5).Floor as real && (y >= 0.0) != (y + n as real >= 0.0))
    ensures -1 <= HalfUp(y) + n - HalfUp(y + n as real) <= 1
  {
    HalfUpFloor(y);
    HalfUpFloor(y + n as real);
    FloorShift(y + 0.5, n);
    assert y + 0.5 + n as real == y + n as real + 0.5;
    hide HalfUp;
  }

  lemma RoundedApart(opening: real, net: real)
    requires IsMoney(net)
    ensures Round2(opening) + net == Round2(opening + net) <==> !TieCrossesZero(opening, net)
    ensures Near(Round2(opening) + net, Round2(opening + net), 0.01)
  {
    var n :| net == Hundredths(n);
    HalfUpShift(opening * 100.0, n);
    assert (opening + net) * 100.0 == opening * 100.0 + n as real;
    hide HalfUp;
    assert Round2(opening) + net == Hundredths(HalfUp(opening * 100.0) + n);
  }

  lemma StatementBalances(s: Store, id: nat, openings: seq<real>)
    requires Inv(s) && AllEntered(s, openings) && id < |s.statements|
    ensures var x := s.statements[id];
      && Near(x.opening + Net(s.lines, id), x.closing, 0.01)
      && (x.opening + Net(s.lines, id) == x.closing <==> !TieCrossesZero(openings[id], Net(s.lines, id)))
  {
    hide Net, IsMoney, Round2, OneToOne, ResolutionOk, TieCrossesZero;
    assert forall i :: 0 <= i < |s.lines| ==> LineOk(s.books, s.lines[i]);
    assert forall i :: 0 <= i < |s.lines| ==> OneSided(s.lines[i]);
    assert Entered(s.statements[id], Net(s.lines, id), openings[id]);
    hide Inv, AllEntered;
    NetIsMoney(s.lines, id);
    RoundedApart(openings[id], Net(s.lines, id));
  }

  /**
   In every run each stored statement's opening balance plus credits minus debits is within a
   cent of its closing balance, and equal to it exactly unless the opening balance was entered
   half way between two cents and the statement carries it over zero.
   */
  lemma EveryRunBalances(ops: seq<Op>, id: nat)
    requires id < |Run(EMPTY, ops).statements|
    ensures id < |Openings(EMPTY, ops)|
    ensures var s := Run(EMPTY, ops);
      var x := s.statements[id];
      && Near(x.opening + Net(s.lines, id), x.closing, 0.01)
      && (x.opening + Net(s.lines, id) == x.closing <==> !TieCrossesZero(Openings(EMPTY, ops)[id], Net(s.lines, id)))
  {
    hide Run, Openings, Net, Inv, Frozen, AllEntered;
    EmptyEntered();
    RunKeeps(EMPTY, ops);
    RunEntered(EMPTY, ops, []);
    EnteredCount(Run(EMPTY, ops), [] + Openings(EMPTY, ops));
    assert [] + Openings(EMPTY, ops) == Openings(EMPTY, ops);
    StatementBalances(Run(EMPTY, ops), id, Openings(EMPTY, ops));
  }

  lemma EmptyEntered()
    ensures Inv(EMPTY) && AllEntered(EMPTY, [])
  {
  }

  lemma EnteredCount(s: Store, openings: seq<real>)
    ensures AllEntered(s, openings) ==> |openings| == |s.statements|
  {
  }

  /** An opening balance of two decimals is no tie, so such statements always balance. */
  lemma MoneyIsNoTie(opening: real)
    requires IsMoney(opening)
    ensures !IsTie(opening)
  {
    var n :| opening == Hundredths(n);
    assert opening * 100.0 == n as real;
  }

  /** Half a cent overdrawn and one received: stored as -0.01 + 1.00 against 1.00. */
  lemma OverdrawnHalfCentUnbalanced(user: User, opening: real, closing: real, rows: seq<ParsedLine>)
    requires opening == -0.005 && closing == 1.0
    requires |rows| == 1 && rows[0].date == 0 && rows[0].debit == 0.0 && rows[0].credit == 1.0
    ensures Import(EMPTY, user, 0, 0, opening, closing, "file", rows).Success?
    ensures var s := Import(EMPTY, user, 0, 0, opening, closing, "file", rows).value;
      |s.statements| == 1 && s.statements[0].opening + Net(s.lines, 0) == 0.99 && s.statements[0].closing == 1.0
  {
    OneCreditRow(rows);
    HalfCentRounds(opening);
    hide Net, Round2, RowRefused, LinesOf, Suggest;
    var t := Imported(EMPTY, user, opening, closing, "file", rows);
    assert t.lines == LinesOf(rows, 0);
    SuggestKeepsAmounts(t, 0);
    NetOfAmounts(t.lines, Suggest(t, 0).lines, 0);
  }

  lemma OneCreditRow(rows: seq<ParsedLine>)
    requires |rows| == 1 && rows[0].debit == 0.0 && rows[0].credit == 1.0
    ensures !RowRefused(rows[0]) && Net(LinesOf(rows, 0), 0) == 1.0
  {
    Round2Is(rows[0].debit, 0);
    Round2Is(rows[0].credit, 100);
    hide Round2;
    var lines := LinesOf(rows, 0);
    assert lines[..0] == [] && Net([], 0) == 0.0;
  }

  lemma HalfCentRounds(opening: real)
    requires opening == -0.005
    ensures Round2(opening) == -0.01 && Round2(opening + 1.0) == 1.0
  {
  }
}
