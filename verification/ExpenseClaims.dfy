/**
 Expense claims: src/modules/expense-claims/expense-claims.service.ts. Amounts are in paise; a
 claim's id is its position; a line's receipt names the line, since no two lines share one.
 */
module ExpenseClaims {
  import opened Wrappers

  type Id = string

  datatype User = User(id: Id, superAdmin: bool, accountsHead: bool)

  datatype Line = Line(amount: int, category: Id, receipt: Id)

  datatype Status = Draft | Submitted | Approved | Rejected | Paid

  datatype Claim = Claim(employee: Id, lines: seq<Line>, total: int, status: Status, approvedBy: Option<Id>)

  datatype Receipt = Receipt(uploadedBy: Id, active: bool)

  /** Account 2500, cash and bank, and the expense ledgers the categories map to. */
  datatype Account = ReimbursementsPayable | CashAndBank | ExpenseLedger(id: Id)

  datatype Entry = Entry(account: Account, debit: int, credit: int)

  type Journal = seq<Entry>

  datatype Store = Store(claims: seq<Claim>, receipts: map<Id, Receipt>, journals: seq<Journal>)

  datatype Error = NotFound | BadRequest | Forbidden

  function SumLines(lines: seq<Line>): int {
    if lines == [] then 0 else SumLines(lines[..|lines| - 1]) + lines[|lines| - 1].amount
  }

  /** The receipt is on some line of some claim. */
  predicate Attached(claims: seq<Claim>, receipt: Id) {
    exists i, k :: 0 <= i < |claims| && 0 <= k < |claims[i].lines| && claims[i].lines[k].receipt == receipt
  }

  /** The position of the receipt's line, or the number of lines. */
  function Position(lines: seq<Line>, receipt: Id): (k: nat)
    ensures k <= |lines|
    ensures k < |lines| ==> lines[k].receipt == receipt
  {
    if lines == [] || lines[0].receipt == receipt then 0 else 1 + Position(lines[1..], receipt)
  }

  function Without(lines: seq<Line>, k: nat): seq<Line>
    requires k < |lines|
  {
    lines[..k] + lines[k + 1..]
  }

  // ---------------------------------------------------------------- the approval journal

  datatype Group = Group(ledger: Id, amount: int)

  /** The amount goes to its ledger's group, or starts one. */
  function AddTo(groups: seq<Group>, ledger: Id, amount: int): seq<Group> {
    if groups == [] then [Group(ledger, amount)]
    else if groups[0].ledger == ledger then [Group(ledger, groups[0].amount + amount)] + groups[1..]
    else [groups[0]] + AddTo(groups[1..], ledger, amount)
  }

  function GroupLines(lines: seq<Line>, ledgerOf: Id -> Id): seq<Group> {
    if lines == [] then []
    else
      var last := lines[|lines| - 1];
      AddTo(GroupLines(lines[..|lines| - 1], ledgerOf), ledgerOf(last.category), last.amount)
  }

  function SumGroups(groups: seq<Group>): int {
    if groups == [] then 0 else groups[0].amount + SumGroups(groups[1..])
  }

  function DebitLines(groups: seq<Group>): Journal {
    seq(|groups|, i requires 0 <= i < |groups| => Entry(ExpenseLedger(groups[i].ledger), groups[i].amount, 0))
  }

  function ApprovalLines(lines: seq<Line>, ledgerOf: Id -> Id): Journal {
    var groups := GroupLines(lines, ledgerOf);
    DebitLines(groups) + [Entry(ReimbursementsPayable, 0, SumGroups(groups))]
  }

  function PaymentLines(total: int): Journal {
    [Entry(ReimbursementsPayable, total, 0), Entry(CashAndBank, 0, total)]
  }

  // ---------------------------------------------------------------- the operations

  /** Anyone the claim may not be edited by, and why. */
  function Editable(s: Store, id: nat, user: User): Outcome<Error> {
    if id >= |s.claims| then Fail(NotFound)
    else if s.claims[id].employee != user.id then Fail(Forbidden)
    else if !s.claims[id].status.Draft? then Fail(BadRequest)
    else Pass
  }

  /** The highest role approves anything; the accounts head anything but their own. */
  predicate MayApprove(claim: Claim, user: User) {
    user.superAdmin || (user.accountsHead && claim.employee != user.id)
  }

  function CreateClaim(s: Store, user: User): Store {
    s.(claims := s.claims + [Claim(user.id, [], 0, Draft, None)])
  }

  function WithLines(c: Claim, lines: seq<Line>): Claim {
    c.(lines := lines, total := SumLines(lines))
  }

  function AddLine(s: Store, id: nat, user: User, amount: int, category: Id, categoryActive: bool, receipt: Id)
      : Result<Store, Error> {
    if Editable(s, id, user).Fail? then Failure(Editable(s, id, user).error)
    else if amount < 1 || !categoryActive then Failure(BadRequest)
    else if receipt !in s.receipts || s.receipts[receipt].uploadedBy != user.id then Failure(BadRequest)
    else if !s.receipts[receipt].active || Attached(s.claims, receipt) then Failure(BadRequest)
    else Success(s.(claims := s.claims[id := WithLines(s.claims[id],
        s.claims[id].lines + [Line(amount, category, receipt)])]))
  }

  function RemoveLine(s: Store, id: nat, user: User, receipt: Id): Result<Store, Error> {
    if Editable(s, id, user).Fail? then Failure(Editable(s, id, user).error)
    else
      var k := Position(s.claims[id].lines, receipt);
      if k == |s.claims[id].lines| then Failure(NotFound)
      else Success(s.(claims := s.claims[id := WithLines(s.claims[id], Without(s.claims[id].lines, k))]))
  }

  function Submit(s: Store, id: nat, user: User): Result<Store, Error> {
    if Editable(s, id, user).Fail? then Failure(Editable(s, id, user).error)
    else if s.claims[id].lines == [] then Failure(BadRequest)
    else Success(s.(claims := s.claims[id := s.claims[id].(status := Submitted)]))
  }

  function Approve(s: Store, id: nat, user: User, ledgerOf: Id -> Id): Result<Store, Error> {
    if id >= |s.claims| then Failure(NotFound)
    else if !MayApprove(s.claims[id], user) then Failure(Forbidden)
    else if !s.claims[id].status.Submitted? || s.claims[id].lines == [] then Failure(BadRequest)
    else Success(s.(
      claims := s.claims[id := s.claims[id].(status := Approved, approvedBy := Some(user.id))],
      journals := s.journals + [ApprovalLines(s.claims[id].lines, ledgerOf)]))
  }

  function Reject(s: Store, id: nat, user: User, commented: bool): Result<Store, Error> {
    if id >= |s.claims| then Failure(NotFound)
    else if !MayApprove(s.claims[id], user) then Failure(Forbidden)
    else if !s.claims[id].status.Submitted? || !commented then Failure(BadRequest)
    else Success(s.(claims := s.claims[id := s.claims[id].(status := Rejected)]))
  }

  function MarkPaid(s: Store, id: nat, user: User): Result<Store, Error> {
    if id >= |s.claims| then Failure(NotFound)
    else if !MayApprove(s.claims[id], user) then Failure(Forbidden)
    else if !s.claims[id].status.Approved? then Failure(BadRequest)
    else Success(s.(
      claims := s.claims[id := s.claims[id].(status := Paid)],
      journals := s.journals + [PaymentLines(s.claims[id].total)]))
  }

  /** An upload, or its confirmation. */
  function Upload(s: Store, receipt: Id, user: User): Store {
    s.(receipts := s.receipts[receipt := if receipt in s.receipts then s.receipts[receipt].(active := true)
        else Receipt(user.id, false)])
  }

  // ---------------------------------------------------------------- the service

  class ExpenseClaimsService {
    var claims: seq<Claim>
    var receipts: map<Id, Receipt>
    var journals: seq<Journal>

    constructor ()
      ensures State() == Store([], map[], [])
    {
      claims, receipts, journals := [], map[], [];
    }

    function State(): Store
      reads this
    {
      Store(claims, receipts, journals)
    }

    /** The stored total is summed again from the claim's lines. */
    method RecomputeTotal(id: nat)
      requires id < |claims|
      modifies this`claims
      ensures claims == old(claims)[id := WithLines(old(claims)[id], old(claims)[id].lines)]
    {
      var lines := claims[id].lines;
      var sum := 0;
      for k := 0 to |lines|
        invariant sum == SumLines(lines[..k])
      {
        assert lines[..k + 1][..k] == lines[..k];
        sum := sum + lines[k].amount;
      }
      assert lines[..|lines|] == lines;
      claims := claims[id := claims[id].(total := sum)];
    }

    method AddClaimLine(id: nat, user: User, amount: int, category: Id, categoryActive: bool, receipt: Id)
      returns (outcome: Outcome<Error>)
      modifies this
      ensures Follows(old(State()), State(), outcome,
                AddLine(old(State()), id, user, amount, category, categoryActive, receipt))
    {
      var editable := Editable(State(), id, user);
      if editable.Fail? {
        return editable;
      }
      if amount < 1 || !categoryActive {
        return Fail(BadRequest);
      }
      if receipt !in receipts || receipts[receipt].uploadedBy != user.id {
        return Fail(BadRequest);
      }
      if !receipts[receipt].active {
        return Fail(BadRequest);
      }
      if Attached(claims, receipt) {
        return Fail(BadRequest);
      }
      claims := claims[id := claims[id].(lines := claims[id].lines + [Line(amount, category, receipt)])];
      RecomputeTotal(id);
      return Pass;
    }

    method RemoveClaimLine(id: nat, user: User, receipt: Id) returns (outcome: Outcome<Error>)
      modifies this
      ensures Follows(old(State()), State(), outcome, RemoveLine(old(State()), id, user, receipt))
    {
      var editable := Editable(State(), id, user);
      if editable.Fail? {
        return editable;
      }
      var k := Position(claims[id].lines, receipt);
      if k == |claims[id].lines| {
        return Fail(NotFound);
      }
      claims := claims[id := claims[id].(lines := Without(claims[id].lines, k))];
      RecomputeTotal(id);
      return Pass;
    }

    method SubmitClaim(id: nat, user: User) returns (outcome: Outcome<Error>)
      modifies this
      ensures Follows(old(State()), State(), outcome, Submit(old(State()), id, user))
    {
      var editable := Editable(State(), id, user);
      if editable.Fail? {
        return editable;
      }
      if |claims[id].lines| == 0 {
        return Fail(BadRequest);
      }
      claims := claims[id := claims[id].(status := Submitted)];
      return Pass;
    }

    /** The loop that adds each line's amount to its ledger's debit. */
    static method GroupDebits(lines: seq<Line>, ledgerOf: Id -> Id) returns (groups: seq<Group>)
      ensures groups == GroupLines(lines, ledgerOf)
    {
      groups := [];
      for k := 0 to |lines|
        invariant groups == GroupLines(lines[..k], ledgerOf)
      {
        assert lines[..k + 1][..k] == lines[..k];
        groups := AddTo(groups, ledgerOf(lines[k].category), lines[k].amount);
      }
      assert lines[..|lines|] == lines;
    }

    method ApproveClaim(id: nat, user: User, ledgerOf: Id -> Id) returns (outcome: Outcome<Error>)
      modifies this
      ensures Follows(old(State()), State(), outcome, Approve(old(State()), id, user, ledgerOf))
    {
      if id >= |claims| {
        return Fail(NotFound);
      }
      if !MayApprove(claims[id], user) {
        return Fail(Forbidden);
      }
      if !claims[id].status.Submitted? {
        return Fail(BadRequest);
      }
      if |claims[id].lines| == 0 {
        return Fail(BadRequest);
      }
      var groups := GroupDebits(claims[id].lines, ledgerOf);
      journals := journals + [DebitLines(groups) + [Entry(ReimbursementsPayable, 0, SumGroups(groups))]];
      claims := claims[id := claims[id].(status := Approved, approvedBy := Some(user.id))];
      return Pass;
    }

    method RejectClaim(id: nat, user: User, commented: bool) returns (outcome: Outcome<Error>)
      modifies this
      ensures Follows(old(State()), State(), outcome, Reject(old(State()), id, user, commented))
    {
      if id >= |claims| {
        return Fail(NotFound);
      }
      if !MayApprove(claims[id], user) {
        return Fail(Forbidden);
      }
      if !claims[id].status.Submitted? || !commented {
        return Fail(BadRequest);
      }
      claims := claims[id := claims[id].(status := Rejected)];
      return Pass;
    }

    method PayClaim(id: nat, user: User) returns (outcome: Outcome<Error>)
      modifies this
      ensures Follows(old(State()), State(), outcome, MarkPaid(old(State()), id, user))
    {
      if id >= |claims| {
        return Fail(NotFound);
      }
      if !MayApprove(claims[id], user) {
        return Fail(Forbidden);
      }
      if !claims[id].status.Approved? {
        return Fail(BadRequest);
      }
      journals := journals + [PaymentLines(claims[id].total)];
      claims := claims[id := claims[id].(status := Paid)];
      return Pass;
    }
  }
}
