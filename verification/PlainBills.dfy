/** Bills of one line without taxes, for the runs of calls shown in other modules. */
module PlainBills {
  import opened Wrappers
  import opened Decimals
  import opened FinancePosting
  import opened FinancePostingLaws
  import opened PostingGate
  import opened PostingBounds
  import opened ControlAccounts
  import opened StoredLedger

  ghost predicate AsksPlain(q: BillRequest, party: Party, price: real, rate: real) {
    && q.party == party && q.rate == rate && q.other == 0.0 && q.tds == 0.0
    && q.taxes.central == 0.0 && q.taxes.state == 0.0 && q.taxes.integrated == 0.0
    && |q.lines| == 1 && q.lines[0].quantity == 1.0 && q.lines[0].unitPrice == price && q.lines[0].tax == 0.0
  }

  /** The row of such a bill. */
  ghost predicate IsPlain(x: Invoice, party: Party, price: real, rate: real) {
    && x.party == party && x.rate == rate && x.taxable == price && Tax(x.taxes) == 0.0
    && x.other == 0.0 && x.tds == 0.0 && x.outstanding == price && x.paid == 0.0
  }

  lemma PlainLines(lines: seq<BillLine>, price: real)
    requires |lines| == 1 && lines[0].quantity == 1.0 && lines[0].unitPrice == price && lines[0].tax == 0.0
    requires IsMoney(price) && price >= 0.0
    ensures ValidBillLines(lines) && BillTaxable(lines) == price && BillTax(lines) == 0.0
  {
    hide BillTaxable, BillTax, LineTaxable, ValidBillLine, IsMoney;
    OneLineBill(lines);
    OneUnit(lines[0], price);
  }

  lemma NoTaxes(t: Taxes)
    requires t.central == 0.0 && t.state == 0.0 && t.integrated == 0.0
    ensures Tax(t) == 0.0 && ValidTaxes(t)
  {
  }

  lemma PlainAmounts(q: BillRequest, party: Party, price: real, rate: real)
    requires AsksPlain(q, party, price, rate) && IsMoney(price) && price >= 0.0
    ensures ValidBillLines(q.lines) && Tax(q.taxes) == BillTax(q.lines) && ValidTaxes(q.taxes)
    ensures Bill(q).taxable == price && Bill(q).outstanding == price
  {
    hide Bill, Tax, BillTaxable, BillTax, ValidBillLines, ValidTaxes, IsMoney;
    BillIs(q);
    NoTaxes(q.taxes);
    PlainLines(q.lines, price);
  }

  lemma BillIs(q: BillRequest)
    ensures var x := Bill(q);
      && x.taxable == BillTaxable(q.lines)
      && x.outstanding == x.taxable + Tax(q.taxes) + q.other - q.tds
      && x.party == q.party && x.rate == q.rate && x.taxes == q.taxes && x.other == q.other && x.tds == q.tds
      && x.paid == 0.0 && x.status.Unposted?
  {
    hide BillTaxable, Tax;
  }

  lemma PlainStored(x: Invoice, price: real)
    requires x.taxable == price && x.other == 0.0 && x.tds == 0.0 && x.outstanding == price && IsMoney(price)
    requires x.taxes.central == 0.0 && x.taxes.state == 0.0 && x.taxes.integrated == 0.0
    ensures Stored(x) == x && Tax(x.taxes) == 0.0
  {
    ZeroIsMoney();
    Round2OfMoney(x.other);
    Round2OfMoney(price);
    hide Round2, IsMoney;
  }

  lemma PlainAccepted(s: Store, q: BillRequest, party: Party, price: real, rate: real)
    requires AsksPlain(q, party, price, rate) && IsMoney(price) && price >= 0.0 && rate > 0.0
    ensures CreateBill(s, q) == Success(s.(bills := s.bills + [Bill(q)]))
    ensures IsPlain(Bill(q), party, price, rate) && Bill(q).status.Unposted?
  {
    hide Bill, BillTax, Tax, ValidBillLines, ValidTaxes, IsMoney, Stored;
    PlainAmounts(q, party, price, rate);
    BillIs(q);
    PlainStored(Bill(q), price);
  }

  /** It can be posted unless it converts to nothing. */
  lemma PlainPosts(x: Invoice, party: Party, price: real, rate: real)
    requires IsPlain(x, party, price, rate) && price > 0.0 && rate > 0.0 && Booked(price, rate) > 0.0
    ensures Posting(BillLines(x)).Success?
  {
    ConvertsNothing(rate);
    Round2OfMoney(0.0);
    ZeroIsMoney();
    assert Booked(0.0, rate) == 0.0;
    hide Booked, BillLines, Posting, Tax, IsMoney;
    BillPostsIff(x);
  }

  // ---------------------------------------------------------------- runs

  lemma {:induction false} RunConcat(s: Store, a: seq<Op>, b: seq<Op>)
    ensures Run(s, a + b) == Run(Run(s, a), b)
    decreases |a|
  {
    if a == [] {
      assert a + b == b;
    } else {
      assert (a + b)[0] == a[0] && (a + b)[1..] == a[1..] + b;
      hide Step;
      RunConcat(Step(s, a[0]), a[1..], b);
    }
  }

  lemma RunTwo(s: Store, first: Op, second: Op)
    ensures Run(s, [first, second]) == Step(Step(s, first), second)
  {
    assert [first, second][1..] == [second] && [second][1..] == [];
    hide Step;
    assert Run(Step(s, first), [second]) == Run(Step(Step(s, first), second), []);
  }

  /** The bill posted in empty books. */
  ghost predicate Opened(s: Store, party: Party, price: real, rate: real) {
    && |s.bills| == 1 && IsPlain(s.bills[0], party, price, rate) && s.bills[0].status.Open?
    && s.sales == [] && s.payments == [] && s.receipts == [] && s.notes == [] && |s.journals| == 1
  }

  ghost predicate Entered(s: Store, party: Party, price: real, rate: real) {
    && |s.bills| == 1 && IsPlain(s.bills[0], party, price, rate) && s.bills[0].status.Unposted?
    && s.sales == [] && s.payments == [] && s.receipts == [] && s.notes == [] && s.journals == []
  }

  lemma PlainEntered(fxConfigured: bool, q: BillRequest, party: Party, price: real, rate: real)
    requires AsksPlain(q, party, price, rate) && IsMoney(price) && price > 0.0 && rate > 0.0
    ensures Entered(Step(Empty(fxConfigured), CreateBillOp(q)), party, price, rate)
  {
    hide CreateBill, Bill, IsMoney, AsksPlain, IsPlain;
    PlainAccepted(Empty(fxConfigured), q, party, price, rate);
  }

  lemma PlainPosted(s: Store, party: Party, price: real, rate: real)
    requires Entered(s, party, price, rate) && price > 0.0 && rate > 0.0 && Booked(price, rate) > 0.0
    ensures Opened(Step(s, PostBillOp(0)), party, price, rate)
  {
    hide Booked, BillLines, Posting, Tax;
    PlainPosts(s.bills[0], party, price, rate);
  }

  lemma PlainOpened(fxConfigured: bool, q: BillRequest, party: Party, price: real, rate: real)
    requires AsksPlain(q, party, price, rate) && IsMoney(price) && price > 0.0 && rate > 0.0
    requires Booked(price, rate) > 0.0
    ensures Opened(Run(Empty(fxConfigured), [CreateBillOp(q), PostBillOp(0)]), party, price, rate)
  {
    hide Step, Run, Opened, Entered, Empty, AsksPlain, IsMoney, Booked;
    RunTwo(Empty(fxConfigured), CreateBillOp(q), PostBillOp(0));
    PlainEntered(fxConfigured, q, party, price, rate);
    PlainPosted(Step(Empty(fxConfigured), CreateBillOp(q)), party, price, rate);
  }

  /** A payment of the bill at the bill's own rate. */
  ghost predicate IsPayment(p: Payment, party: Party, rate: real, amount: real, settled: real) {
    && p.party == party && p.rate == rate && p.amount == amount && !p.executed
    && |p.allocations| == 1 && p.allocations[0].invoice == 0 && p.allocations[0].amount == settled
  }

  lemma PaymentAccepted(s: Store, party: Party, rate: real, amount: real, allocations: seq<Allocation>)
    requires |s.bills| > 0 && s.bills[0].party == party && IsOpen(s.bills[0]) && rate > 0.0
    requires |allocations| == 1 && allocations[0].invoice == 0
    requires IsMoney(amount) && IsMoney(allocations[0].amount)
    requires 0.01 <= allocations[0].amount <= s.bills[0].outstanding && allocations[0].amount <= amount
    ensures CreatePayment(s, party, rate, amount, allocations) ==
            Success(s.(payments := s.payments + [Payment(party, rate, amount, allocations, false)]))
  {
    OneAllocation(allocations);
    StoredAllocationsExact(allocations);
    Round2OfMoney(amount);
    hide Round2, IsMoney, StoredAllocations, Allocated;
  }

  lemma OneAllocation(allocations: seq<Allocation>)
    requires |allocations| == 1
    ensures Allocated(allocations) == allocations[0].amount
  {
    assert allocations[..0] == [];
    assert Allocated(allocations[..0]) == 0.0;
  }

  lemma OneCarrying(bills: seq<Invoice>, allocations: seq<Allocation>)
    requires |allocations| == 1 && Refer(allocations, |bills|)
    ensures Carrying(bills, allocations) == InRupees(allocations[0].amount, bills[allocations[0].invoice].rate)
  {
    assert allocations[..0] == [];
    assert Carrying(bills, allocations[..0]) == 0.0;
    hide InRupees;
  }

  /** Without an exchange difference the gate lets it pass. */
  lemma PaymentPasses(p: Payment, bills: seq<Invoice>, party: Party, rate: real, amount: real, settled: real)
    requires IsPayment(p, party, rate, amount, settled) && |bills| > 0 && bills[0].rate == rate > 0.0
    requires 0.0 < settled <= amount
    ensures PaymentAmounts(p, bills) && RateDifference(bills, p.allocations, p.rate) == 0.0
    ensures PaymentGain(p, bills) == 0.0 && Posting(PaymentLines(p, bills)).Success?
  {
    OneAllocation(p.allocations);
    OneCarrying(bills, p.allocations);
    ZeroIsMoney();
    Round2OfMoney(0.0);
    hide Carrying, Allocated, InRupees, Round2, IsMoney, PaymentLines, Posting;
    PaymentPostsIff(p, bills);
  }
}
