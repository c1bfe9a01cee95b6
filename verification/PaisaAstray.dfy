/** Runs in which a payment is accepted in balance and stored a paisa out of it. */
module PaisaAstray {
  import opened Wrappers
  import opened Decimals
  import opened FinancePosting
  import opened FinancePostingLaws
  import opened PostingGate
  import opened PostingBounds
  import opened ControlAccounts
  import opened StoredLedger
  import opened StoredBalance
  import opened PlainBills

  ghost predicate TwiceThePrice(allocations: seq<Allocation>, price: real, amount: real) {
    && amount == price + price
    && |allocations| == 1 && allocations[0].invoice == 0 && allocations[0].amount == price
  }

  lemma PaidTwice(s: Store, party: Party, price: real, rate: real, amount: real, allocations: seq<Allocation>)
    requires Opened(s, party, price, rate) && TwiceThePrice(allocations, price, amount)
    requires IsMoney(price) && price >= 0.01 && rate > 0.0
    ensures var t := Step(s, CreatePaymentOp(party, rate, amount, allocations));
      && t == s.(payments := t.payments)
      && |t.payments| == 1 && IsPayment(t.payments[0], party, rate, amount, price)
  {
    MoneyClosed(price, price);
    hide IsMoney, CreatePayment;
    PaymentAccepted(s, party, rate, amount, allocations);
  }

  lemma Executes(s: Store, party: Party, price: real, rate: real, amount: real)
    requires |s.bills| == 1 && IsPlain(s.bills[0], party, price, rate) && |s.journals| == 1
    requires |s.payments| == 1 && IsPayment(s.payments[0], party, rate, amount, price)
    requires amount == price + price && price >= 0.01 && rate > 0.0
    ensures var t := Step(s, ExecutePaymentOp(0));
      && |t.journals| == 2
      && Net(StoredLines(t.journals[1]), None) == Booked(price, rate) + Booked(price, rate) - Booked(amount, rate)
  {
    var p := s.payments[0];
    hide PaymentLines, PaymentGain, Posting, Net, StoredLines, Booked, Tax, Settle, PaymentAmounts;
    PaymentPasses(p, s.bills, party, rate, amount, price);
    PostedIs(PaymentLines(p, s.bills));
    StoredTwice(p, s.bills, party, price, rate, amount);
  }

  lemma StoredTwice(p: Payment, bills: seq<Invoice>, party: Party, price: real, rate: real, amount: real)
    requires |bills| == 1 && bills[0].rate == rate && IsPayment(p, party, rate, amount, price)
    requires PaymentAmounts(p, bills) && PaymentGain(p, bills) == 0.0 && amount == price + price && price > 0.0
    ensures Net(StoredLines(WithAmounts(PaymentLines(p, bills))), None) ==
            Booked(price, rate) + Booked(price, rate) - Booked(amount, rate)
  {
    OneAllocation(p.allocations);
    OneCarrying(bills, p.allocations);
    hide PaymentLines, PaymentGain, WithAmounts, Net, StoredLines, Carrying, Allocated, InRupees, Round2;
    StoredPaymentNet(p, bills);
  }

  /** A bill paid twice over at its own rate, half of it in advance: what the stored payment is out by. */
  lemma HalfInAdvance(
    fxConfigured: bool, q: BillRequest, party: Party, price: real, rate: real, amount: real,
    allocations: seq<Allocation>)
    requires AsksPlain(q, party, price, rate) && TwiceThePrice(allocations, price, amount)
    requires IsMoney(price) && price >= 0.01 && rate > 0.0 && Booked(price, rate) > 0.0
    ensures var s := Run(Empty(fxConfigured), [CreateBillOp(q), PostBillOp(0)]
                         + [CreatePaymentOp(party, rate, amount, allocations), ExecutePaymentOp(0)]);
      && |s.journals| == 2
      && Net(StoredLines(s.journals[1]), None) == Booked(price, rate) + Booked(price, rate) - Booked(amount, rate)
  {
    hide Step, Run, Empty, AsksPlain, IsMoney, Booked, Net, StoredLines, IsPlain, IsPayment, TwiceThePrice;
    var e, create, execute := Empty(fxConfigured), CreatePaymentOp(party, rate, amount, allocations),
      ExecutePaymentOp(0);
    RunConcat(e, [CreateBillOp(q), PostBillOp(0)], [create, execute]);
    PlainOpened(fxConfigured, q, party, price, rate);
    var s := Run(e, [CreateBillOp(q), PostBillOp(0)]);
    RunTwo(s, create, execute);
    PaidTwice(s, party, price, rate, amount, allocations);
    SumOf(allocations, price, amount);
    Executes(Step(s, create), party, price, rate, amount);
  }

  lemma SumOf(allocations: seq<Allocation>, price: real, amount: real)
    requires TwiceThePrice(allocations, price, amount)
    ensures amount == price + price
  {
  }

  /** One paisa at 1.5: 0.015 and 0.015 are stored as 0.02 and 0.02, against 0.03. */
  lemma StoredPaisaOver(fxConfigured: bool, q: BillRequest, price: real, rate: real, amount: real,
      allocations: seq<Allocation>)
    requires AsksPlain(q, q.party, price, rate) && TwiceThePrice(allocations, price, amount)
    requires price == 0.01 && rate == 1.5
    ensures var s := Run(Empty(fxConfigured), [CreateBillOp(q), PostBillOp(0)]
                         + [CreatePaymentOp(q.party, rate, amount, allocations), ExecutePaymentOp(0)]);
      |s.journals| == 2 && Net(StoredLines(s.journals[1]), None) == 0.01
  {
    assert price == Hundredths(1);
    HalfUpwards(price, rate);
    BookedIs(amount, rate, 3);
    hide Run, Empty, AsksPlain, Booked, Net, StoredLines;
    HalfInAdvance(fxConfigured, q, q.party, price, rate, amount, allocations);
  }

  lemma HalfUpwards(price: real, rate: real)
    requires price == 0.01 && rate == 1.5
    ensures Booked(price, rate) == 0.02
  {
  }

  /** 50.01 at 83.45: 4173.3345 and 4173.3345 are stored as 4173.33 each, against 8346.67. */
  lemma StoredPaisaUnder(fxConfigured: bool, q: BillRequest, price: real, rate: real, amount: real,
      allocations: seq<Allocation>)
    requires AsksPlain(q, q.party, price, rate) && TwiceThePrice(allocations, price, amount)
    requires price == 50.01 && rate == 83.45
    ensures var s := Run(Empty(fxConfigured), [CreateBillOp(q), PostBillOp(0)]
                         + [CreatePaymentOp(q.party, rate, amount, allocations), ExecutePaymentOp(0)]);
      |s.journals| == 2 && Net(StoredLines(s.journals[1]), None) == -0.01
  {
    assert price == Hundredths(5001);
    BookedIs(price, rate, 417333);
    BookedIs(amount, rate, 834667);
    hide Run, Empty, AsksPlain, Booked, Net, StoredLines;
    HalfInAdvance(fxConfigured, q, q.party, price, rate, amount, allocations);
  }
}
