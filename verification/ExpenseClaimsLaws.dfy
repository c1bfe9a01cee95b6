/** Account 2500 owes exactly what approved claims have not been paid. */
module ExpenseClaimsLaws {
  import opened Wrappers
  import opened ExpenseClaims

  // ---------------------------------------------------------------- journals

  /** Credits minus debits of account 2500 in one journal. */
  function Owed(lines: Journal): int {
    if lines == [] then 0
    else
      var last := lines[|lines| - 1];
      Owed(lines[..|lines| - 1]) + if last.account.ReimbursementsPayable? then last.credit - last.debit else 0
  }

  /** Debits minus credits of a journal. */
  function Net(lines: Journal): int {
    if lines == [] then 0 else Net(lines[..|lines| - 1]) + lines[|lines| - 1].debit - lines[|lines| - 1].credit
  }

  function PayableBalance(journals: seq<Journal>): int {
    if journals == [] then 0 else PayableBalance(journals[..|journals| - 1]) + Owed(journals[|journals| - 1])
  }

  lemma {:induction false} AddToSum(groups: seq<Group>, ledger: Id, amount: int)
    ensures SumGroups(AddTo(groups, ledger, amount)) == SumGroups(groups) + amount
  {
    if groups == [] {
      assert [Group(ledger, amount)][1..] == [];
    } else if groups[0].ledger == ledger {
      assert ([Group(ledger, groups[0].amount + amount)] + groups[1..])[1..] == groups[1..];
    } else {
      AddToSum(groups[1..], ledger, amount);
      assert ([groups[0]] + AddTo(groups[1..], ledger, amount))[1..] == AddTo(groups[1..], ledger, amount);
    }
  }

  /** Grouping by ledger keeps the total. */
  lemma {:induction false} GroupingKeepsTotal(lines: seq<Line>, ledgerOf: Id -> Id)
    ensures SumGroups(GroupLines(lines, ledgerOf)) == SumLines(lines)
  {
    if lines != [] {
      var last := lines[|lines| - 1];
      GroupingKeepsTotal(lines[..|lines| - 1], ledgerOf);
      AddToSum(GroupLines(lines[..|lines| - 1], ledgerOf), ledgerOf(last.category), last.amount);
    }
  }

  predicate HasLedger(groups: seq<Group>, ledger: Id) {
    groups != [] && (groups[0].ledger == ledger || HasLedger(groups[1..], ledger))
  }

  predicate OneGroupEach(groups: seq<Group>) {
    groups == [] || (!HasLedger(groups[1..], groups[0].ledger) && OneGroupEach(groups[1..]))
  }

  lemma {:induction false} AddToLedgers(groups: seq<Group>, ledger: Id, amount: int, other: Id)
    ensures HasLedger(AddTo(groups, ledger, amount), other) <==> other == ledger || HasLedger(groups, other)
    ensures OneGroupEach(groups) ==> OneGroupEach(AddTo(groups, ledger, amount))
  {
    if groups == [] {
      assert [Group(ledger, amount)][1..] == [];
    } else if groups[0].ledger == ledger {
      assert ([Group(ledger, groups[0].amount + amount)] + groups[1..])[1..] == groups[1..];
    } else {
      assert ([groups[0]] + AddTo(groups[1..], ledger, amount))[1..] == AddTo(groups[1..], ledger, amount);
      AddToLedgers(groups[1..], ledger, amount, other);
      AddToLedgers(groups[1..], ledger, amount, groups[0].ledger);
    }
  }

  /** One debit per distinct ledger. */
  lemma {:induction false} OneDebitPerLedger(lines: seq<Line>, ledgerOf: Id -> Id)
    ensures OneGroupEach(GroupLines(lines, ledgerOf))
  {
    if lines != [] {
      var last := lines[|lines| - 1];
      OneDebitPerLedger(lines[..|lines| - 1], ledgerOf);
      AddToLedgers(GroupLines(lines[..|lines| - 1], ledgerOf), ledgerOf(last.category), last.amount, last.category);
    }
  }

  lemma {:induction false} DebitsNet(groups: seq<Group>)
    ensures Net(DebitLines(groups)) == SumBack(groups) && Owed(DebitLines(groups)) == 0
  {
    if groups != [] {
      var init := groups[..|groups| - 1];
      DebitsNet(init);
      assert DebitLines(groups)[..|groups| - 1] == DebitLines(init);
    }
  }

  function SumBack(groups: seq<Group>): int {
    if groups == [] then 0 else SumBack(groups[..|groups| - 1]) + groups[|groups| - 1].amount
  }

  lemma {:induction false} SumGroupsAppend(groups: seq<Group>, g: Group)
    ensures SumGroups(groups + [g]) == SumGroups(groups) + g.amount
  {
    if groups == [] {
      assert [g][1..] == [];
    } else {
      assert (groups + [g])[1..] == groups[1..] + [g];
      SumGroupsAppend(groups[1..], g);
    }
  }

  lemma {:induction false} SumsAgree(groups: seq<Group>)
    ensures SumBack(groups) == SumGroups(groups)
  {
    if groups != [] {
      var init, last := groups[..|groups| - 1], groups[|groups| - 1];
      SumsAgree(init);
      SumGroupsAppend(init, last);
      assert groups == init + [last];
    }
  }

  /** An approval balances and owes the claim's lines; a payment balances and pays its total. */
  lemma JournalsBalance(lines: seq<Line>, ledgerOf: Id -> Id, total: int)
    ensures Net(ApprovalLines(lines, ledgerOf)) == 0 && Owed(ApprovalLines(lines, ledgerOf)) == SumLines(lines)
    ensures Net(PaymentLines(total)) == 0 && Owed(PaymentLines(total)) == -total
  {
    var groups := GroupLines(lines, ledgerOf);
    var j, p := ApprovalLines(lines, ledgerOf), PaymentLines(total);
    GroupingKeepsTotal(lines, ledgerOf);
    DebitsNet(groups);
    SumsAgree(groups);
    assert j[..|j| - 1] == DebitLines(groups);
    assert p[..1] == [Entry(ReimbursementsPayable, total, 0)] && p[..1][..0] == [];
    hide GroupLines, SumLines, SumGroups, SumBack;
  }

  /** What the posting helper demands of a journal: one-sided lines, whose debits and credits are equal and positive. */
  predicate Accepted(lines: Journal) {
    && lines != [] && Net(lines) == 0
    && forall i :: 0 <= i < |lines| ==> (lines[i].debit > 0) != (lines[i].credit > 0)
  }

  predicate PositiveLines(lines: seq<Line>) {
    forall i :: 0 <= i < |lines| ==> lines[i].amount > 0
  }

  predicate PositiveGroups(groups: seq<Group>) {
    forall i :: 0 <= i < |groups| ==> groups[i].amount > 0
  }

  lemma {:induction false} AddToPositive(groups: seq<Group>, ledger: Id, amount: int)
    requires PositiveGroups(groups) && amount > 0
    ensures PositiveGroups(AddTo(groups, ledger, amount)) && AddTo(groups, ledger, amount) != []
  {
    if groups != [] && groups[0].ledger != ledger {
      AddToPositive(groups[1..], ledger, amount);
    }
  }

  lemma {:induction false} GroupsPositive(lines: seq<Line>, ledgerOf: Id -> Id)
    requires PositiveLines(lines)
    ensures PositiveGroups(GroupLines(lines, ledgerOf)) && SumLines(lines) >= 0
    ensures lines != [] ==> SumLines(lines) > 0
  {
    if lines != [] {
      var last := lines[|lines| - 1];
      GroupsPositive(lines[..|lines| - 1], ledgerOf);
      AddToPositive(GroupLines(lines[..|lines| - 1], ledgerOf), ledgerOf(last.category), last.amount);
    }
  }

  /** So the helper never refuses a claim's approval or payment. */
  lemma JournalsAccepted(lines: seq<Line>, ledgerOf: Id -> Id)
    requires lines != [] && PositiveLines(lines)
    ensures Accepted(ApprovalLines(lines, ledgerOf)) && Accepted(PaymentLines(SumLines(lines)))
  {
    GroupsPositive(lines, ledgerOf);
    GroupingKeepsTotal(lines, ledgerOf);
    JournalsBalance(lines, ledgerOf, SumLines(lines));
    hide Net, GroupLines, SumLines, SumGroups;
  }

  // ---------------------------------------------------------------- the invariant

  function Outstanding(claims: seq<Claim>): int {
    if claims == [] then 0
    else
      var last := claims[|claims| - 1];
      Outstanding(claims[..|claims| - 1]) + if last.status.Approved? then last.total else 0
  }

  function Due(c: Claim): int {
    if c.status.Approved? then c.total else 0
  }

  lemma {:induction false} OutstandingUpdate(claims: seq<Claim>, i: nat, c: Claim)
    requires i < |claims|
    ensures Outstanding(claims[i := c]) == Outstanding(claims) - Due(claims[i]) + Due(c)
  {
    var n := |claims| - 1;
    if i == n {
      assert claims[i := c][..n] == claims[..n];
    } else {
      assert claims[i := c][..n] == claims[..n][i := c];
      OutstandingUpdate(claims[..n], i, c);
    }
  }

  ghost predicate ClaimOk(c: Claim) {
    && c.total == SumLines(c.lines) && PositiveLines(c.lines)
    && (!c.status.Draft? ==> c.lines != [])
    && (c.status.Approved? || c.status.Paid? ==> c.approvedBy.Some?)
  }

  ghost predicate SameReceipt(claims: seq<Claim>, i: int, k: int, j: int, l: int) {
    && 0 <= i < |claims| && 0 <= k < |claims[i].lines| && 0 <= j < |claims| && 0 <= l < |claims[j].lines|
    && claims[i].lines[k].receipt == claims[j].lines[l].receipt
  }

  /** No receipt is on two lines. */
  ghost predicate ReceiptsOnce(claims: seq<Claim>) {
    forall i, k, j, l :: SameReceipt(claims, i, k, j, l) ==> i == j && k == l
  }

  ghost predicate Inv(s: Store) {
    && (forall i :: 0 <= i < |s.claims| ==> ClaimOk(s.claims[i]))
    && ReceiptsOnce(s.claims)
    && (forall j :: 0 <= j < |s.journals| ==> Accepted(s.journals[j]))
    && PayableBalance(s.journals) == Outstanding(s.claims)
  }

  /** One claim changes, together with what is posted. */
  lemma OneClaim(s: Store, id: nat, c: Claim, journals: seq<Journal>)
    requires Inv(s) && id < |s.claims| && ClaimOk(c) && ReceiptsOnce(s.claims[id := c])
    requires (journals == [] && Due(c) == Due(s.claims[id]))
             || (|journals| == 1 && Accepted(journals[0]) && Owed(journals[0]) == Due(c) - Due(s.claims[id]))
    ensures Inv(s.(claims := s.claims[id := c], journals := s.journals + journals))
  {
    OutstandingUpdate(s.claims, id, c);
    assert s.journals + [] == s.journals;
    if journals != [] {
      assert (s.journals + journals)[..|s.journals|] == s.journals;
    }
    hide Accepted, Owed, ClaimOk, ReceiptsOnce, Outstanding;
  }

  lemma SameLines(claims: seq<Claim>, id: nat, c: Claim)
    requires id < |claims| && c.lines == claims[id].lines && ReceiptsOnce(claims)
    ensures ReceiptsOnce(claims[id := c])
  {
    var after := claims[id := c];
    forall i, k, j, l | SameReceipt(after, i, k, j, l)
      ensures i == j && k == l
    {
      assert SameReceipt(claims, i, k, j, l);
    }
  }

  lemma AddedLine(claims: seq<Claim>, id: nat, c: Claim, l: Line)
    requires id < |claims| && c.lines == claims[id].lines + [l] && ReceiptsOnce(claims) && !Attached(claims, l.receipt)
    ensures ReceiptsOnce(claims[id := c])
  {
    var after := claims[id := c];
    forall i, k, j, m | SameReceipt(after, i, k, j, m)
      ensures i == j && k == m
    {
      var newFirst, newSecond := i == id && k == |claims[id].lines|, j == id && m == |claims[id].lines|;
      if !newFirst {
        assert after[i].lines[k] == claims[i].lines[k];
      }
      if !newSecond {
        assert after[j].lines[m] == claims[j].lines[m];
      }
      assert !newFirst && !newSecond ==> SameReceipt(claims, i, k, j, m);
    }
  }

  /** The line's place before the removal. */
  function Before(k: nat, gone: nat): nat {
    if k < gone then k else k + 1
  }

  lemma RemovedLine(claims: seq<Claim>, id: nat, c: Claim, gone: nat)
    requires id < |claims| && gone < |claims[id].lines| && c.lines == Without(claims[id].lines, gone) &&
              ReceiptsOnce(claims)
    ensures ReceiptsOnce(claims[id := c])
  {
    var after := claims[id := c];
    forall i, k, j, m | SameReceipt(after, i, k, j, m)
      ensures i == j && k == m
    {
      var k', m' := if i == id then Before(k, gone) else k, if j == id then Before(m, gone) else m;
      assert after[i].lines[k] == claims[i].lines[k'];
      assert after[j].lines[m] == claims[j].lines[m'];
      assert SameReceipt(claims, i, k', j, m');
    }
  }

  // ---------------------------------------------------------------- runs

  datatype Op =
    | CreateOp(user: User)
    | UploadOp(receipt: Id, user: User)
    | AddLineOp(id: nat, user: User, amount: int, category: Id, categoryActive: bool, receipt: Id)
    | RemoveLineOp(id: nat, user: User, receipt: Id)
    | SubmitOp(id: nat, user: User)
    | ApproveOp(id: nat, user: User, ledgerOf: Id -> Id)
    | RejectOp(id: nat, user: User, commented: bool)
    | PayOp(id: nat, user: User)

  function Apply(s: Store, op: Op): Result<Store, Error> {
    match op
    case CreateOp(user) => Success(CreateClaim(s, user))
    case UploadOp(receipt, user) => Success(Upload(s, receipt, user))
    case AddLineOp(id, user, amount, category, categoryActive, receipt) =>
        AddLine(s, id, user, amount, category, categoryActive, receipt)
    case RemoveLineOp(id, user, receipt) => RemoveLine(s, id, user, receipt)
    case SubmitOp(id, user) => Submit(s, id, user)
    case ApproveOp(id, user, ledgerOf) => Approve(s, id, user, ledgerOf)
    case RejectOp(id, user, commented) => Reject(s, id, user, commented)
    case PayOp(id, user) => MarkPaid(s, id, user)
  }

  /** The store after one call, which changes nothing when it fails. */
  function Step(s: Store, op: Op): Store {
    var r := Apply(s, op);
    if r.Success? then r.value else s
  }

  function Run(s: Store, ops: seq<Op>): Store
    decreases |ops|
  {
    if ops == [] then s else Run(Step(s, ops[0]), ops[1..])
  }

  /** An edit changes one claim and posts nothing. */
  lemma EditKeeps(s: Store, t: Store, id: nat, d: Claim)
    requires Inv(s) && id < |s.claims| && ClaimOk(d) && ReceiptsOnce(s.claims[id := d])
    requires t.claims == s.claims[id := d] && t.journals == s.journals && Due(d) == Due(s.claims[id])
    ensures Inv(t)
  {
    hide ReceiptsOnce, ClaimOk, Accepted, PayableBalance, Outstanding;
    OneClaim(s, id, d, []);
    assert s.journals + [] == s.journals;
  }

  lemma AddLineKeeps(s: Store, id: nat, user: User, amount: int, category: Id, categoryActive: bool, receipt: Id)
    requires Inv(s) && AddLine(s, id, user, amount, category, categoryActive, receipt).Success?
    ensures Inv(AddLine(s, id, user, amount, category, categoryActive, receipt).value)
  {
    var c, l := s.claims[id], Line(amount, category, receipt);
    var d := WithLines(c, c.lines + [l]);
    assert ClaimOk(c) && ClaimOk(d);
    AddedLine(s.claims, id, d, l);
    hide Inv, ClaimOk, ReceiptsOnce, SumLines, Attached;
    EditKeeps(s, AddLine(s, id, user, amount, category, categoryActive, receipt).value, id, d);
  }

  lemma RemoveLineKeeps(s: Store, id: nat, user: User, receipt: Id)
    requires Inv(s) && RemoveLine(s, id, user, receipt).Success?
    ensures Inv(RemoveLine(s, id, user, receipt).value)
  {
    var c, k := s.claims[id], Position(s.claims[id].lines, receipt);
    var d := WithLines(c, Without(c.lines, k));
    assert ClaimOk(c) && ClaimOk(d);
    RemovedLine(s.claims, id, d, k);
    hide Inv, ClaimOk, ReceiptsOnce, SumLines, Position, Without;
    EditKeeps(s, RemoveLine(s, id, user, receipt).value, id, d);
  }

  lemma SubmitKeeps(s: Store, id: nat, user: User)
    requires Inv(s) && Submit(s, id, user).Success?
    ensures Inv(Submit(s, id, user).value)
  {
    var c, d := s.claims[id], s.claims[id].(status := Submitted);
    assert ClaimOk(c) && ClaimOk(d);
    SameLines(s.claims, id, d);
    hide Inv, ClaimOk, ReceiptsOnce;
    EditKeeps(s, Submit(s, id, user).value, id, d);
  }

  lemma DecideKeeps(s: Store, op: Op)
    requires Inv(s) && Apply(s, op).Success?
    requires op.ApproveOp? || op.RejectOp? || op.PayOp?
    ensures Inv(Apply(s, op).value)
  {
    hide SumLines, Accepted, Owed, ApprovalLines, PaymentLines, PositiveLines;
    var c, t := s.claims[op.id], Apply(s, op).value;
    assert ClaimOk(c);
    SameLines(s.claims, op.id, t.claims[op.id]);
    JournalsBalance(c.lines, if op.ApproveOp? then op.ledgerOf else (x: Id) => x, c.total);
    if c.lines != [] {
      JournalsAccepted(c.lines, if op.ApproveOp? then op.ledgerOf else (x: Id) => x);
    }
    hide ReceiptsOnce;
    if op.RejectOp? {
      OneClaim(s, op.id, t.claims[op.id], []);
      assert s.journals + [] == s.journals;
    } else {
      OneClaim(s, op.id, t.claims[op.id], [t.journals[|s.journals|]]);
    }
  }

  lemma CreateKeeps(s: Store, user: User)
    requires Inv(s)
    ensures Inv(CreateClaim(s, user))
  {
    var t := CreateClaim(s, user);
    assert t.claims[..|s.claims|] == s.claims;
    assert forall i :: 0 <= i < |s.claims| ==> t.claims[i] == s.claims[i];
    assert forall i, k, j, l :: SameReceipt(t.claims, i, k, j, l) ==> SameReceipt(s.claims, i, k, j, l);
    hide Accepted, PayableBalance;
  }

  lemma StepKeeps(s: Store, op: Op)
    requires Inv(s)
    ensures Inv(Step(s, op))
  {
    hide ClaimOk, ReceiptsOnce, Outstanding, PayableBalance, Accepted, AddLine, RemoveLine, Submit, Approve, Reject,
      MarkPaid, CreateClaim;
    if Apply(s, op).Success? {
      match op
      case CreateOp(user) => CreateKeeps(s, user);
      case UploadOp(_, _) =>
      case AddLineOp(id, user, amount, category, categoryActive, receipt) =>
        AddLineKeeps(s, id, user, amount, category, categoryActive, receipt);
      case RemoveLineOp(id, user, receipt) => RemoveLineKeeps(s, id, user, receipt);
      case SubmitOp(id, user) => SubmitKeeps(s, id, user);
      case _ => DecideKeeps(s, op);
    }
  }

  lemma {:induction false} RunKeeps(s: Store, ops: seq<Op>)
    requires Inv(s)
    ensures Inv(Run(s, ops))
    decreases |ops|
  {
    hide Inv, Step;
    if ops != [] {
      StepKeeps(s, ops[0]);
      RunKeeps(Step(s, ops[0]), ops[1..]);
    }
  }

  /**
   In every run account 2500's credit balance is the sum of the totals of approved claims not
   yet paid, every journal balances, and every claim's total is the sum of its lines.
   */
  lemma EveryRunOwesApproved(ops: seq<Op>)
    ensures var s := Run(Store([], map[], []), ops);
      && PayableBalance(s.journals) == Outstanding(s.claims)
      && (forall j :: 0 <= j < |s.journals| ==> Accepted(s.journals[j]))
      && (forall i :: 0 <= i < |s.claims| ==> s.claims[i].total == SumLines(s.claims[i].lines))
      && ReceiptsOnce(s.claims)
  {
    var e := Store([], map[], []);
    assert Inv(e);
    RunKeeps(e, ops);
    hide Run, ReceiptsOnce, Accepted, PayableBalance, Outstanding, SumLines, PositiveLines;
    assert forall i :: 0 <= i < |Run(e, ops).claims| ==> ClaimOk(Run(e, ops).claims[i]);
  }
}
