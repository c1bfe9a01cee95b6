/** When what is outstanding on posted invoices can fall below zero. */
module Outstanding {
  import opened Wrappers
  import opened Decimals
  import opened FinancePosting
  import opened FinancePostingLaws
  import opened PostingGate
  import opened PostingBounds
  import opened ControlAccounts
  import opened JournalBalance
  import opened PlainBills

  ghost predicate NotOverpaid(invoices: seq<Invoice>) {
    forall i :: 0 <= i < |invoices| && !invoices[i].status.Unposted? ==> invoices[i].outstanding >= 0.0
  }

  /** Nothing posted has been paid beyond what it came to. */
  ghost predicate Covered(s: Store) {
    NotOverpaid(s.bills) && NotOverpaid(s.sales)
  }

  /** Each allocation is within what is outstanding now. */
  predicate WithinOutstanding(invoices: seq<Invoice>, allocations: seq<Allocation>)
    requires Refer(allocations, |invoices|)
  {
    forall k :: 0 <= k < |allocations| ==> allocations[k].amount <= invoices[allocations[k].invoice].outstanding
  }

  /** The call settles nothing, or only within what is outstanding as it is posted. */
  predicate Within(s: Store, op: Op) {
    match op
    case ExecutePaymentOp(id) =>
      ExecutePayment(s, id).Success? ==> WithinOutstanding(s.bills, s.payments[id].allocations)
    case PostReceiptOp(id) => PostReceipt(s, id).Success? ==> WithinOutstanding(s.sales, s.receipts[id].allocations)
    case _ => true
  }

  // ---------------------------------------------------------------- settlements

  lemma {:induction false} OnlyAmount(allocations: seq<Allocation>, k: nat)
    requires k < |allocations| && Once(allocations)
    ensures Named(allocations, allocations[k].invoice)
    ensures LastAmount(allocations, allocations[k].invoice) == allocations[k].amount
  {
    if k < |allocations| - 1 {
      OnlyAmount(allocations[..|allocations| - 1], k);
    }
  }

  /** A settlement overpays nothing exactly when each allocation is within what is outstanding. */
  lemma SettleWithinIff(invoices: seq<Invoice>, allocations: seq<Allocation>)
    requires Refer(allocations, |invoices|) && Once(allocations) && NotOverpaid(invoices)
    ensures NotOverpaid(Settle(invoices, allocations)) <==> WithinOutstanding(invoices, allocations)
  {
    var t := Settle(invoices, allocations);
    hide Settle, LastAmount;
    forall i | 0 <= i < |invoices| && !Named(allocations, i)
      ensures t[i] == invoices[i]
    {
      SettleAt(invoices, allocations, i);
    }
    forall k | 0 <= k < |allocations|
      ensures var i := allocations[k].invoice;
        t[i].outstanding == invoices[i].outstanding - allocations[k].amount && !t[i].status.Unposted?
    {
      OnlyAmount(allocations, k);
      SettleAt(invoices, allocations, allocations[k].invoice);
    }
    if WithinOutstanding(invoices, allocations) {
      forall i | 0 <= i < |t| && !t[i].status.Unposted?
        ensures t[i].outstanding >= 0.0
      {
        if Named(allocations, i) {
          var k :| 0 <= k < |allocations| && allocations[k].invoice == i;
        }
      }
    } else {
      var k :| 0 <= k < |allocations| && allocations[k].amount > invoices[allocations[k].invoice].outstanding;
      assert t[allocations[k].invoice].outstanding < 0.0;
    }
  }

  // ---------------------------------------------------------------- single calls

  lemma OneRow(invoices: seq<Invoice>, i: nat, x: Invoice)
    requires NotOverpaid(invoices) && i < |invoices| && (x.status.Unposted? || x.outstanding >= 0.0)
    ensures NotOverpaid(invoices[i := x])
  {
  }

  lemma NewRow(invoices: seq<Invoice>, x: Invoice)
    requires NotOverpaid(invoices) && x.status.Unposted?
    ensures NotOverpaid(invoices + [x])
  {
  }

  lemma EntryKeepsCovered(s: Store, op: Op)
    requires Covered(s) && Apply(s, op).Success?
    requires op.CreateBillOp? || op.CreateSaleOp? || op.CreatePaymentOp? || op.CreateReceiptOp? || op.CreateNoteOp?
             || op.SetTdsOp?
    ensures Covered(Apply(s, op).value)
  {
    hide NotOverpaid, BillTaxable, Tax, Round2, AddUp, StoredTaxes, StoredAllocations, Allocated, CheckAllocations,
      NewReceipt, TdsOn, ValidBillLines, ValidSalesLines, Once, Positive;
    match op
    case CreateBillOp(q) => NewRow(s.bills, Stored(Bill(q)));
    case CreateSaleOp(q) => NewRow(s.sales, Stored(Sale(q)));
    case SetTdsOp(id, base, percent) => OneRow(s.bills, id, s.bills[id].(tds := TdsOn(base, percent)));
    case _ =>
  }

  lemma PostBillKeepsCovered(s: Store, id: nat)
    requires Inv(s) && Covered(s) && PostBill(s, id).Success?
    ensures Covered(PostBill(s, id).value)
  {
    WaitingBills(s);
    hide Inv, NotOverpaid, BillLines, Posting, Tax, IsMoney;
    OneRow(s.bills, id, s.bills[id].(status := Open));
  }

  lemma PostSaleKeepsCovered(s: Store, id: nat)
    requires Inv(s) && Covered(s) && PostSale(s, id).Success?
    ensures Covered(PostSale(s, id).value)
  {
    SaleRate(s, id);
    hide Inv, NotOverpaid, SalesLines, Posting, Tax, Booked;
    SalePostsIff(s.sales[id], s.sales[id].outstanding);
    BookedNear(s.sales[id].outstanding, s.sales[id].rate);
    OneRow(s.sales, id, s.sales[id].(status := Open));
  }

  lemma SaleRate(s: Store, id: nat)
    requires Inv(s) && id < |s.sales|
    ensures s.sales[id].rate > 0.0
  {
    hide Reconciled, IsMoney, AllocationsOk;
    assert InvoiceOk(s.sales[id]);
  }

  lemma PostNoteKeepsCovered(s: Store, id: nat)
    requires Inv(s) && Covered(s) && PostNote(s, id).Success?
    ensures Covered(PostNote(s, id).value)
  {
    NoteOf(s, id);
    hide Inv, NoteLines, Posting;
    var n := s.notes[id];
    OneRow(Invoices(s, n.side), n.invoice, Noted(Invoices(s, n.side)[n.invoice], n));
  }

  lemma NoteOf(s: Store, id: nat)
    requires Inv(s) && id < |s.notes|
    ensures NoteOk(s, s.notes[id])
  {
    hide NoteOk, Reconciled;
  }

  lemma PaymentOf(s: Store, id: nat)
    requires Inv(s) && id < |s.payments|
    ensures PaymentOk(s.bills, s.payments[id])
  {
    hide PaymentOk, Reconciled;
  }

  lemma ReceiptOf(s: Store, id: nat)
    requires Inv(s) && id < |s.receipts|
    ensures ReceiptOk(s.sales, s.receipts[id])
  {
    hide ReceiptOk, Reconciled;
  }

  /** From a state in which nothing is overpaid, only a settlement beyond what is outstanding leads out. */
  lemma StepCoveredIff(s: Store, op: Op)
    requires Inv(s) && Covered(s)
    ensures Covered(Step(s, op)) <==> Within(s, op)
  {
    hide Inv, Covered, NotOverpaid, WithinOutstanding, PaymentLines, ReceiptLines, PaymentGain, ReceiptGain, Posting,
      Settle, CreateBill, CreateSale, CreatePayment, CreateReceipt, CreateNote, SetTds, PostBill, PostSale, PostNote;
    if Apply(s, op).Success? {
      match op
      case ExecutePaymentOp(id) => ExecuteCoveredIff(s, id);
      case PostReceiptOp(id) => ReceiptCoveredIff(s, id);
      case PostBillOp(id) => PostBillKeepsCovered(s, id);
      case PostSaleOp(id) => PostSaleKeepsCovered(s, id);
      case PostNoteOp(id) => PostNoteKeepsCovered(s, id);
      case _ => EntryKeepsCovered(s, op);
    }
  }

  lemma ExecuteCoveredIff(s: Store, id: nat)
    requires Inv(s) && Covered(s) && ExecutePayment(s, id).Success?
    ensures Covered(ExecutePayment(s, id).value) <==> WithinOutstanding(s.bills, s.payments[id].allocations)
  {
    PaymentOf(s, id);
    hide Inv, NotOverpaid, WithinOutstanding, PaymentLines, PaymentGain, Posting, Settle, IsMoney;
    SettleWithinIff(s.bills, s.payments[id].allocations);
  }

  lemma ReceiptCoveredIff(s: Store, id: nat)
    requires Inv(s) && Covered(s) && PostReceipt(s, id).Success?
    ensures Covered(PostReceipt(s, id).value) <==> WithinOutstanding(s.sales, s.receipts[id].allocations)
  {
    ReceiptOf(s, id);
    hide Inv, NotOverpaid, WithinOutstanding, ReceiptLines, ReceiptGain, Posting, Settle, IsMoney;
    SettleWithinIff(s.sales, s.receipts[id].allocations);
  }

  // ---------------------------------------------------------------- runs

  /** Nothing posted is overpaid at any point of the run. */
  ghost predicate AlwaysCovered(s: Store, ops: seq<Op>)
    decreases |ops|
  {
    Covered(s) && (ops != [] ==> AlwaysCovered(Step(s, ops[0]), ops[1..]))
  }

  /** Every settlement of the run is within what is outstanding when it is posted. */
  ghost predicate AlwaysWithin(s: Store, ops: seq<Op>)
    decreases |ops|
  {
    ops != [] ==> Within(s, ops[0]) && AlwaysWithin(Step(s, ops[0]), ops[1..])
  }

  lemma {:induction false} RunCoveredIff(s: Store, ops: seq<Op>)
    requires Inv(s) && Covered(s)
    ensures AlwaysCovered(s, ops) <==> AlwaysWithin(s, ops)
    decreases |ops|
  {
    hide Inv, Covered, Step, Within;
    if ops != [] {
      StepCoveredIff(s, ops[0]);
      StepKeeps(s, ops[0]);
      if Covered(Step(s, ops[0])) {
        RunCoveredIff(Step(s, ops[0]), ops[1..]);
      }
    }
  }

  /**
   In every run no amount outstanding on a posted invoice ever falls below zero exactly when each
   settlement is within what is outstanding as it is posted, and not only as it was entered.
   */
  lemma EveryRunCoveredIff(fxConfigured: bool, ops: seq<Op>)
    ensures AlwaysCovered(Empty(fxConfigured), ops) <==> AlwaysWithin(Empty(fxConfigured), ops)
  {
    InvEmpty(fxConfigured);
    assert Covered(Empty(fxConfigured));
    hide Inv, Covered;
    RunCoveredIff(Empty(fxConfigured), ops);
  }

  // ---------------------------------------------------------------- a bill paid twice

  ghost predicate WholePrice(allocations: seq<Allocation>, price: real) {
    |allocations| == 1 && allocations[0].invoice == 0 && allocations[0].amount == price
  }

  /** Both payments are entered while the whole bill is still outstanding. */
  ghost predicate EnteredTwice(s: Store, party: Party, price: real, rate: real) {
    && |s.bills| == 1 && IsPlain(s.bills[0], party, price, rate) && s.bills[0].status.Open?
    && |s.payments| == 2
    && IsPayment(s.payments[0], party, rate, price, price) && IsPayment(s.payments[1], party, rate, price, price)
  }

  lemma EntersTwice(s: Store, party: Party, price: real, rate: real, allocations: seq<Allocation>)
    requires Opened(s, party, price, rate) && WholePrice(allocations, price)
    requires IsMoney(price) && price >= 0.01 && rate > 0.0
    ensures var pay := CreatePaymentOp(party, rate, price, allocations);
      EnteredTwice(Step(Step(s, pay), pay), party, price, rate)
  {
    var pay := CreatePaymentOp(party, rate, price, allocations);
    hide IsMoney, CreatePayment, Tax;
    PaymentAccepted(s, party, rate, price, allocations);
    PaymentAccepted(Step(s, pay), party, rate, price, allocations);
  }

  /** A payment of the price takes it off the bill, whatever is still outstanding on it. */
  lemma TakesPrice(s: Store, id: nat, party: Party, price: real, rate: real)
    requires |s.bills| == 1 && s.bills[0].rate == rate > 0.0 && price > 0.0
    requires id < |s.payments| && IsPayment(s.payments[id], party, rate, price, price)
    ensures var t := Step(s, ExecutePaymentOp(id));
      && |t.bills| == 1 && t.bills[0].outstanding == s.bills[0].outstanding - price && t.bills[0].rate == rate
      && !t.bills[0].status.Unposted?
      && t.payments == s.payments[id := s.payments[id].(executed := true)]
  {
    var p := s.payments[id];
    hide PaymentLines, PaymentGain, Posting, Settle, PaymentAmounts, LastAmount;
    PaymentPasses(p, s.bills, party, rate, price, price);
    OnlyAmount(p.allocations, 0);
    SettleAt(s.bills, p.allocations, 0);
  }

  /** Two payments of the whole bill can be entered one after the other, and both be executed. */
  lemma PaidBeyondPrice(
    fxConfigured: bool, q: BillRequest, party: Party, price: real, rate: real, allocations: seq<Allocation>)
    requires AsksPlain(q, party, price, rate) && WholePrice(allocations, price)
    requires IsMoney(price) && price >= 0.01 && rate > 0.0 && Booked(price, rate) > 0.0
    ensures var pay := CreatePaymentOp(party, rate, price, allocations);
      var s := Run(Empty(fxConfigured), [CreateBillOp(q), PostBillOp(0)]
                   + ([pay, pay] + [ExecutePaymentOp(0), ExecutePaymentOp(1)]));
      |s.bills| == 1 && !s.bills[0].status.Unposted? && s.bills[0].outstanding == -price
  {
    var e, pay, executes := Empty(fxConfigured), CreatePaymentOp(party, rate, price, allocations),
      [ExecutePaymentOp(0), ExecutePaymentOp(1)];
    hide Run, Step, Empty, AsksPlain, IsMoney, Booked, WholePrice;
    RunConcat(e, [CreateBillOp(q), PostBillOp(0)], [pay, pay] + executes);
    PlainOpened(fxConfigured, q, party, price, rate);
    var s := Run(e, [CreateBillOp(q), PostBillOp(0)]);
    hide Opened;
    RunConcat(s, [pay, pay], executes);
    RunTwo(s, pay, pay);
    EntersTwice(s, party, price, rate, allocations);
    var t := Step(Step(s, pay), pay);
    RunTwo(t, ExecutePaymentOp(0), ExecutePaymentOp(1));
    TakesPrice(t, 0, party, price, rate);
    TakesPrice(Step(t, ExecutePaymentOp(0)), 1, party, price, rate);
  }
}
