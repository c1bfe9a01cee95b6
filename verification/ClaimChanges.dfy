/** What each call does to expense claims, and what each claim's journals say of each account. */
module ClaimChanges {
  import opened Wrappers
  import opened ExpenseClaims
  import opened ExpenseClaimsLaws

  function AmountSum(lines: seq<Line>): int {
    if lines == [] then 0 else lines[0].amount + AmountSum(lines[1..])
  }

  lemma {:induction false} AmountSumAppend(lines: seq<Line>, l: Line)
    ensures AmountSum(lines + [l]) == AmountSum(lines) + l.amount
  {
    if lines == [] {
      assert [l][1..] == [];
    } else {
      assert (lines + [l])[1..] == lines[1..] + [l];
      AmountSumAppend(lines[1..], l);
    }
  }

  lemma {:induction false} SumIs(lines: seq<Line>)
    ensures SumLines(lines) == AmountSum(lines)
  {
    if lines != [] {
      var init, last := lines[..|lines| - 1], lines[|lines| - 1];
      SumIs(init);
      AmountSumAppend(init, last);
      assert lines == init + [last];
    }
  }

  predicate OwnDraft(c: Claim, user: User) {
    c.employee == user.id && c.status.Draft?
  }

  /** The highest role, or the accounts head on someone else's claim. */
  predicate Approver(c: Claim, user: User) {
    user.superAdmin || (user.accountsHead && c.employee != user.id)
  }

  /** The user's own confirmed receipt, which no line has. */
  predicate FreeReceipt(s: Store, user: User, receipt: Id) {
    && receipt in s.receipts && s.receipts[receipt].uploadedBy == user.id && s.receipts[receipt].active
    && forall i, k :: 0 <= i < |s.claims| && 0 <= k < |s.claims[i].lines| ==> s.claims[i].lines[k].receipt != receipt
  }

  /** The first line with the receipt is taken out. */
  ghost predicate TakesOut(before: seq<Line>, after: seq<Line>, receipt: Id) {
    exists k :: 0 <= k < |before| && before[k].receipt == receipt && after == before[..k] + before[k + 1..]
                && forall j :: 0 <= j < k ==> before[j].receipt != receipt
  }

  /** How a call may change a claim, and when it does. */
  ghost predicate Becomes(s: Store, op: Op, i: nat, c: Claim)
    requires i < |s.claims|
  {
    var was := s.claims[i];
    match op
    case AddLineOp(id, user, amount, category, categoryActive, receipt) =>
      && id == i && OwnDraft(was, user) && amount >= 1 && categoryActive && FreeReceipt(s, user, receipt)
      && c == was.(lines := was.lines + [Line(amount, category, receipt)], total := AmountSum(c.lines))
    case RemoveLineOp(id, user, receipt) =>
      && id == i && OwnDraft(was, user) && TakesOut(was.lines, c.lines, receipt)
      && c == was.(lines := c.lines, total := AmountSum(c.lines))
    case SubmitOp(id, user) => id == i && OwnDraft(was, user) && was.lines != [] && c == was.(status := Submitted)
    case ApproveOp(id, user, _) =>
      && id == i && Approver(was, user) && was.status.Submitted? && was.lines != []
      && c == was.(status := Approved, approvedBy := Some(user.id))
    case RejectOp(id, user, commented) =>
      id == i && Approver(was, user) && was.status.Submitted? && commented && c == was.(status := Rejected)
    case PayOp(id, user) => id == i && Approver(was, user) && was.status.Approved? && c == was.(status := Paid)
    case _ => false
  }

  lemma {:induction false} PositionIs(lines: seq<Line>, receipt: Id)
    ensures forall j :: 0 <= j < Position(lines, receipt) ==> lines[j].receipt != receipt
  {
    if lines != [] && lines[0].receipt != receipt {
      PositionIs(lines[1..], receipt);
    }
  }

  lemma RemovalIs(lines: seq<Line>, receipt: Id)
    ensures var k := Position(lines, receipt);
      if k < |lines| then forall after :: TakesOut(lines, after, receipt) <==> after == Without(lines, k)
      else forall after :: !TakesOut(lines, after, receipt)
  {
    PositionIs(lines, receipt);
    hide Position;
  }

  /** The claim after a call, changed as the call may change it or, if it may not, as it was. */
  ghost predicate ClaimIsAfter(s: Store, t: Store, op: Op, i: nat)
    requires i < |s.claims|
  {
    && i < |t.claims|
    && (Becomes(s, op, i, t.claims[i]) || (t.claims[i] == s.claims[i] && forall c :: !Becomes(s, op, i, c)))
  }

  /** A claim changes exactly as its status and the caller allow. */
  lemma ClaimAfter(s: Store, op: Op, i: nat)
    requires i < |s.claims|
    ensures ClaimIsAfter(s, ExpenseClaimsLaws.Step(s, op), op, i)
  {
    hide ClaimIsAfter, ExpenseClaimsLaws.Step;
    if op.RemoveLineOp? {
      RemovalAfter(s, op.id, op.user, op.receipt, i);
    } else if op.AddLineOp? {
      AdditionAfter(s, op, i);
    } else {
      DecisionAfter(s, op, i);
    }
  }

  lemma AdditionAfter(s: Store, op: Op, i: nat)
    requires i < |s.claims| && op.AddLineOp?
    ensures ClaimIsAfter(s, ExpenseClaimsLaws.Step(s, op), op, i)
  {
    SumIs(s.claims[i].lines + [Line(op.amount, op.category, op.receipt)]);
    hide SumLines, AmountSum;
  }

  lemma DecisionAfter(s: Store, op: Op, i: nat)
    requires i < |s.claims| && !op.RemoveLineOp? && !op.AddLineOp?
    ensures ClaimIsAfter(s, ExpenseClaimsLaws.Step(s, op), op, i)
  {
    hide ApprovalLines, SumLines, AmountSum;
  }

  lemma RemovalAfter(s: Store, id: nat, user: User, receipt: Id, i: nat)
    requires i < |s.claims|
    ensures var op := RemoveLineOp(id, user, receipt); ClaimIsAfter(s, ExpenseClaimsLaws.Step(s, op), op, i)
  {
    var before := s.claims[i].lines;
    RemovalIs(before, receipt);
    if Position(before, receipt) < |before| {
      SumIs(Without(before, Position(before, receipt)));
    }
    hide Position, TakesOut, Without, SumLines, AmountSum;
  }

  // ---------------------------------------------------------------- new rows and journals

  /** What the lines come to that go to one ledger. */
  function LedgerSum(lines: seq<Line>, ledgerOf: Id -> Id, ledger: Id): int {
    if lines == [] then 0
    else
      var last := lines[|lines| - 1];
      LedgerSum(lines[..|lines| - 1], ledgerOf, ledger) + if ledgerOf(last.category) == ledger then last.amount else 0
  }

  function GroupSum(groups: seq<Group>, ledger: Id): int {
    if groups == [] then 0
    else (if groups[0].ledger == ledger then groups[0].amount else 0) + GroupSum(groups[1..], ledger)
  }

  lemma {:induction false} AddToGroup(groups: seq<Group>, ledger: Id, amount: int, other: Id)
    ensures GroupSum(AddTo(groups, ledger, amount), other) ==
            GroupSum(groups, other) + if ledger == other then amount else 0
  {
    if groups == [] {
      assert [Group(ledger, amount)][1..] == [];
    } else if groups[0].ledger == ledger {
      assert ([Group(ledger, groups[0].amount + amount)] + groups[1..])[1..] == groups[1..];
    } else {
      AddToGroup(groups[1..], ledger, amount, other);
      assert ([groups[0]] + AddTo(groups[1..], ledger, amount))[1..] == AddTo(groups[1..], ledger, amount);
    }
  }

  lemma {:induction false} GroupsAre(lines: seq<Line>, ledgerOf: Id -> Id, ledger: Id)
    ensures GroupSum(GroupLines(lines, ledgerOf), ledger) == LedgerSum(lines, ledgerOf, ledger)
  {
    if lines != [] {
      var init, last := lines[..|lines| - 1], lines[|lines| - 1];
      GroupsAre(init, ledgerOf, ledger);
      AddToGroup(GroupLines(init, ledgerOf), ledgerOf(last.category), last.amount, ledger);
    }
  }

  /** Debits less credits of one account. */
  function AccountNet(j: Journal, account: Account): int {
    if j == [] then 0
    else (if j[0].account == account then j[0].debit - j[0].credit else 0) + AccountNet(j[1..], account)
  }

  lemma {:induction false} DebitsFor(groups: seq<Group>, e: Entry, account: Account)
    ensures AccountNet(DebitLines(groups) + [e], account) ==
            (if account.ExpenseLedger? then GroupSum(groups, account.id) else 0)
            + if e.account == account then e.debit - e.credit else 0
  {
    if groups == [] {
      assert DebitLines(groups) + [e] == [e] && [e][1..] == [];
    } else {
      DebitsFor(groups[1..], e, account);
      var j := DebitLines(groups) + [e];
      assert j[1..] == DebitLines(groups[1..]) + [e];
      assert j[0] == Entry(ExpenseLedger(groups[0].ledger), groups[0].amount, 0);
    }
  }

  /** The approval debits each ledger with its lines and owes the claimant all of them. */
  lemma ApprovalIs(lines: seq<Line>, ledgerOf: Id -> Id, account: Account)
    ensures AccountNet(ApprovalLines(lines, ledgerOf), account) ==
            match account
            case ExpenseLedger(id) => LedgerSum(lines, ledgerOf, id)
            case ReimbursementsPayable => -AmountSum(lines)
            case CashAndBank => 0
  {
    var groups := GroupLines(lines, ledgerOf);
    DebitsFor(groups, Entry(ReimbursementsPayable, 0, SumGroups(groups)), account);
    GroupingKeepsTotal(lines, ledgerOf);
    SumIs(lines);
    if account.ExpenseLedger? {
      GroupsAre(lines, ledgerOf, account.id);
    }
    hide GroupLines, DebitLines, SumGroups, GroupSum, LedgerSum, AmountSum, SumLines, AccountNet;
  }

  /** The payment settles what is owed out of cash. */
  lemma PaymentIs(total: int, account: Account)
    ensures AccountNet(PaymentLines(total), account) ==
            match account
            case ReimbursementsPayable => total
            case CashAndBank => -total
            case ExpenseLedger(_) => 0
  {
    var j, paid := PaymentLines(total), Entry(CashAndBank, 0, total);
    assert j[1..] == [paid] && [paid][1..] == [];
    assert AccountNet([paid], account) == (if paid.account == account then -total else 0) + AccountNet([], account);
  }

  /** Which claims, receipts and journals a call adds. */
  lemma RowsAdded(s: Store, op: Op)
    ensures var t := ExpenseClaimsLaws.Step(s, op);
      && (!op.CreateOp? ==> |t.claims| == |s.claims|)
      && (op.CreateOp? ==> t.claims == s.claims + [Claim(op.user.id, [], 0, Draft, None)])
      && (op.UploadOp? ==> t.receipts == s.receipts[op.receipt :=
            if op.receipt in s.receipts then s.receipts[op.receipt].(active := true) else Receipt(op.user.id, false)])
      && (!op.UploadOp? ==> t.receipts == s.receipts)
      && (if op.ApproveOp? && op.id < |s.claims| && t.claims[op.id] != s.claims[op.id] then
            t.journals == s.journals + [ApprovalLines(s.claims[op.id].lines, op.ledgerOf)]
          else if op.PayOp? && op.id < |s.claims| && t.claims[op.id] != s.claims[op.id] then
            t.journals == s.journals + [PaymentLines(s.claims[op.id].total)]
          else t.journals == s.journals)
  {
    hide ApprovalLines, PaymentLines, SumLines, Position;
  }

  /** Which error a refused call gives: not found, then forbidden, then a bad request. */
  lemma RefusedWith(s: Store, op: Op)
    requires ExpenseClaimsLaws.Apply(s, op).Failure?
    ensures var error := ExpenseClaimsLaws.Apply(s, op).error;
      match op
      case AddLineOp(id, user, _, _, _, _) =>
        error == (if id >= |s.claims| then NotFound else if s.claims[id].employee != user.id then Forbidden
                  else BadRequest)
      case RemoveLineOp(id, user, receipt) =>
        error == (if id >= |s.claims| then NotFound else if s.claims[id].employee != user.id then Forbidden
                  else if !s.claims[id].status.Draft? then BadRequest else NotFound)
      case SubmitOp(id, user) =>
        error == (if id >= |s.claims| then NotFound else if s.claims[id].employee != user.id then Forbidden
                  else BadRequest)
      case ApproveOp(id, user, _) =>
        error == (if id >= |s.claims| then NotFound else if !Approver(s.claims[id], user) then Forbidden
                  else BadRequest)
      case RejectOp(id, user, _) =>
        error == (if id >= |s.claims| then NotFound else if !Approver(s.claims[id], user) then Forbidden
                  else BadRequest)
      case PayOp(id, user) =>
        error == (if id >= |s.claims| then NotFound else if !Approver(s.claims[id], user) then Forbidden
                  else BadRequest)
      case _ => true
  {
    hide ApprovalLines, SumLines, Position;
  }
}
