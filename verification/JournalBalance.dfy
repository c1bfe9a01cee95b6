/** What the posting helper makes of every run: which documents are posted, and how far off the others are. */
module JournalBalance {
  import opened Wrappers
  import opened Decimals
  import opened FinancePosting
  import opened FinancePostingLaws
  import opened PostingGate
  import opened PostingBounds
  import opened ControlAccounts

  // ---------------------------------------------------------------- every journal balances

  ghost predicate AllBalanced(journals: seq<Journal>) {
    forall j :: 0 <= j < |journals| ==> Balanced(journals[j])
  }

  lemma StepBalances(s: Store, op: Op)
    requires AllBalanced(s.journals)
    ensures AllBalanced(Step(s, op).journals)
  {
    hide Balanced, BillLines, SalesLines, PaymentLines, ReceiptLines, NoteLines, WithAmounts, PaymentGain,
      ReceiptGain;
    hide Bill, Stored, Sale, NewReceipt, StoredAllocations, Allocated, CheckAllocations, Settle, Noted, StoredTaxes,
      Round2;
  }

  lemma {:induction false} RunBalances(s: Store, ops: seq<Op>)
    requires AllBalanced(s.journals)
    ensures AllBalanced(Run(s, ops).journals)
    decreases |ops|
  {
    if ops != [] {
      StepBalances(s, ops[0]);
      hide Step, AllBalanced;
      RunBalances(Step(s, ops[0]), ops[1..]);
    }
  }

  /**
   In every run, whatever amounts and rates were entered, each journal recorded has only
   one-sided lines, and its debits and credits are equal and positive.
   */
  lemma EveryJournalBalances(fxConfigured: bool, ops: seq<Op>, j: nat)
    requires j < |Run(Empty(fxConfigured), ops).journals|
    ensures var lines := Run(Empty(fxConfigured), ops).journals[j];
      && (forall i :: 0 <= i < |lines| ==> (lines[i].debit > 0.0) != (lines[i].credit > 0.0))
      && Debits(lines) == Credits(lines) > 0.0
      && Net(lines, None) == 0.0
  {
    RunBalances(Empty(fxConfigured), ops);
    hide Run, Debits, Credits, Net;
    NetIsDifference(Run(Empty(fxConfigured), ops).journals[j]);
  }

  // ---------------------------------------------------------------- which documents are posted

  /** In a reachable store a waiting bill is posted exactly when its converted amounts add up. */
  lemma BillPosts(s: Store, id: nat)
    requires Inv(s) && id < |s.bills| && s.bills[id].status.Unposted?
    ensures var x := s.bills[id];
      PostBill(s, id).Success? <==>
        && Booked(x.taxable + x.other, x.rate) + Booked(Tax(x.taxes), x.rate)
           == Booked(x.outstanding, x.rate) + Booked(x.tds, x.rate)
        && Booked(x.outstanding, x.rate) + Booked(x.tds, x.rate) > 0.0
  {
    hide Booked, Tax, BillLines, Posting, AllocationsOk, InvoicesOk, Reconciled;
    BillPostsIff(s.bills[id]);
  }

  /** A waiting sales invoice: when its converted total is positive and covers its tax. */
  lemma SalePosts(s: Store, id: nat)
    requires id < |s.sales| && s.sales[id].status.Unposted?
    ensures var x := s.sales[id];
      PostSale(s, id).Success? <==>
        Booked(x.outstanding, x.rate) > 0.0 && 0.0 <= Booked(Tax(x.taxes), x.rate) <= Booked(x.outstanding, x.rate)
  {
    hide Booked, Tax, SalesLines, Posting;
    SalePostsIff(s.sales[id], s.sales[id].outstanding);
  }

  /**
   A waiting payment: when a rounded exchange difference has its accounts, and rounding it makes
   up for what the allocations exceed the payment by.
   */
  lemma PaymentPosts(s: Store, id: nat)
    requires Inv(s) && id < |s.payments| && !s.payments[id].executed
    ensures var p := s.payments[id];
      && Refer(p.allocations, |s.bills|)
      && var d := RateDifference(s.bills, p.allocations, p.rate);
      && (ExecutePayment(s, id).Success? <==>
            (Round2(d) == 0.0 || s.fxConfigured) && InRupees(Excess(p), p.rate) + d == Round2(d))
      && (Allocated(p.allocations) <= p.amount ==>
            (ExecutePayment(s, id).Success? <==> (d == 0.0 || s.fxConfigured) && IsMoney(d)))
  {
    hide IsMoney, Round2, Carrying, Allocated, InRupees, PaymentLines, Posting, Reconciled, Settle, AllocationsOk,
      AllocationTerms;
    PaymentRowAt(s, id);
    PaymentPostsIff(s.payments[id], s.bills);
    Round2OfMoney(RateDifference(s.bills, s.payments[id].allocations, s.payments[id].rate));
    hide Inv;
  }

  lemma PaymentRowAt(s: Store, id: nat)
    requires Inv(s) && id < |s.payments|
    ensures Refer(s.payments[id].allocations, |s.bills|) && PaymentAmounts(s.payments[id], s.bills)
  {
    hide Reconciled;
    assert PaymentOk(s.bills, s.payments[id]);
    AllocationsHaveTerms(s.bills, s.payments[id].allocations);
  }

  /** A waiting receipt: when its gain has an account, and its two roundings differ by what it is out. */
  lemma ReceiptPosts(s: Store, id: nat)
    requires Inv(s) && id < |s.receipts| && !s.receipts[id].posted
    ensures var r := s.receipts[id];
      && Refer(r.allocations, |s.sales|)
      && (PostReceipt(s, id).Success? <==>
            && (ReceiptGain(r, s.sales) == 0.0 || s.fxConfigured)
            && InRupees(ReceiptGap(r) + Overcharge(r), r.rate) + BankRounding(r) == GainRounding(r, s.sales))
  {
    var r := s.receipts[id];
    hide IsMoney, Round2, Carrying, Allocated, InRupees, ReceiptLines, ReceiptGain, Posting, Reconciled, Settle,
      BankRounding, GainRounding, ReceiptGap, Overcharge;
    assert ReceiptOk(s.sales, r);
    AllocationsHaveTerms(s.sales, r.allocations);
    ReceiptPostsIff(r, s.sales);
    hide AllocationsOk, AllocationTerms;
  }

  /** A waiting note: when a credit is still covered and the converted total is the sum of its converted parts. */
  lemma NotePosts(s: Store, id: nat)
    requires Inv(s) && id < |s.notes| && !s.notes[id].posted
    ensures var n := s.notes[id];
      && n.invoice < |Invoices(s, n.side)|
      && var x := Invoices(s, n.side)[n.invoice];
      PostNote(s, id).Success? <==>
        && (n.increase || n.total <= x.outstanding)
        && Booked(n.total, x.rate) == Booked(n.taxable, x.rate) + Booked(Tax(n.taxes), x.rate)
        && Booked(n.total, x.rate) > 0.0
  {
    var n := s.notes[id];
    hide IsMoney, Booked, Tax, NoteLines, Posting, Reconciled, AllocationsOk;
    assert NoteOk(s, n);
    NotePostsIff(n, Invoices(s, n.side)[n.invoice]);
  }

  /** The five conditions hold in every run. */
  lemma EveryRunDecidesPosting(fxConfigured: bool, ops: seq<Op>)
    ensures Inv(Run(Empty(fxConfigured), ops))
  {
    assert Inv(Empty(fxConfigured));
    RunKeeps(Empty(fxConfigured), ops);
  }

  // ---------------------------------------------------------------- whole cents

  ghost predicate MoneyAllocations(allocations: seq<Allocation>) {
    forall i :: 0 <= i < |allocations| ==> IsMoney(allocations[i].amount)
  }

  /** The amounts entered have two decimals, and no receipt is charged more than it brings in. */
  ghost predicate Entered(op: Op) {
    match op
    case CreateBillOp(q) => MoneyTaxes(q.taxes) && IsMoney(q.other) && IsMoney(q.tds)
    case CreatePaymentOp(_, _, amount, allocations) => IsMoney(amount) && MoneyAllocations(allocations)
    case CreateReceiptOp(q) =>
      && IsMoney(q.amount) && IsMoney(q.tdsDeducted) && IsMoney(q.bankCharges) && MoneyAllocations(q.allocations)
      && q.bankCharges <= q.amount
    case CreateNoteOp(_, _, _, taxable, taxes) => IsMoney(taxable) && MoneyTaxes(taxes)
    case _ => true
  }

  /** Some call sets the bill's TDS after the bill was entered. */
  ghost predicate TdsSet(ops: seq<Op>, id: nat) {
    exists i :: 0 <= i < |ops| && ops[i].SetTdsOp? && ops[i].id == id
  }

  ghost predicate BillAddsUp(bills: seq<Invoice>, id: nat) {
    id < |bills| && bills[id].status.Unposted? ==> BillGap(bills[id]) == 0.0
  }

  ghost predicate PaymentAddsUp(p: Payment) {
    Allocated(p.allocations) <= p.amount
  }

  ghost predicate ReceiptAddsUp(r: Receipt) {
    ReceiptGap(r) == 0.0 && r.bankCharges <= r.amount
  }

  /** No settlement or note has a gap. */
  ghost predicate Exact(s: Store) {
    && (forall i :: 0 <= i < |s.payments| ==> PaymentAddsUp(s.payments[i]))
    && (forall i :: 0 <= i < |s.receipts| ==> ReceiptAddsUp(s.receipts[i]))
    && (forall i :: 0 <= i < |s.notes| ==> NoteGap(s.notes[i]) == 0.0)
  }

  lemma BillEntered(q: BillRequest)
    requires MoneyTaxes(q.taxes) && IsMoney(q.other) && IsMoney(q.tds)
    ensures BillGap(Stored(Bill(q))) == 0.0
  {
    BillStoredExactly(q);
  }

  lemma PaymentEntered(s: Store, party: Party, rate: real, amount: real, allocations: seq<Allocation>)
    requires CreatePayment(s, party, rate, amount, allocations).Success?
    requires IsMoney(amount) && MoneyAllocations(allocations)
    ensures PaymentAddsUp(Payment(party, rate, Round2(amount), StoredAllocations(allocations), false))
  {
    Round2OfMoney(amount);
    hide IsMoney, Round2, StoredAllocations, Allocated, Positive, Once, Refer;
    StoredAllocationsExact(allocations);
  }

  lemma ReceiptEntered(s: Store, q: ReceiptRequest)
    requires CreateReceipt(s, q).Success? && Entered(CreateReceiptOp(q))
    ensures ReceiptAddsUp(NewReceipt(q))
  {
    ReceiptStoredExactly(q);
    Round2OfMoney(q.bankCharges);
    Round2OfMoney(q.amount);
    hide IsMoney, Round2, StoredAllocations, Allocated, MoneyAllocations, Positive, Once, CheckAllocations,
      ReceiptGap;
  }

  lemma NoteEntered(taxable: real, taxes: Taxes)
    requires IsMoney(taxable) && MoneyTaxes(taxes)
    ensures Round2(taxable + Tax(taxes)) - Round2(taxable) - Tax(StoredTaxes(taxes)) == 0.0
  {
    NoteStoredExactly(taxable, taxes);
  }

  lemma CreateKeepsExact(s: Store, op: Op)
    requires Exact(s) && Entered(op) && Apply(s, op).Success?
    requires op.CreatePaymentOp? || op.CreateReceiptOp? || op.CreateNoteOp?
    ensures Exact(Apply(s, op).value)
  {
    hide IsMoney, Round2, PaymentAddsUp, ReceiptAddsUp, MoneyTaxes, MoneyAllocations, NewReceipt, StoredAllocations,
      Tax, StoredTaxes, CheckAllocations, Allocated, Refer, Once, Positive;
    match op
    case CreatePaymentOp(party, rate, amount, allocations) => PaymentEntered(s, party, rate, amount, allocations);
    case CreateReceiptOp(q) => ReceiptEntered(s, q);
    case CreateNoteOp(side, increase, invoice, taxable, taxes) => NoteEntered(taxable, taxes);
  }

  lemma OthersKeepExact(s: Store, op: Op)
    requires Exact(s) && Apply(s, op).Success?
    requires !op.CreatePaymentOp? && !op.CreateReceiptOp? && !op.CreateNoteOp?
    ensures Exact(Apply(s, op).value)
  {
    hide IsMoney, BillLines, SalesLines, PaymentLines, ReceiptLines, NoteLines, Posting, PaymentGain, ReceiptGain,
      Settle, Noted, Allocated, Tax, Stored, Bill, Sale, ValidBillLines, ValidSalesLines, TdsOn;
  }

  lemma {:induction false} RunKeepsExact(s: Store, ops: seq<Op>)
    requires Exact(s)
    requires forall i :: 0 <= i < |ops| ==> Entered(ops[i])
    ensures Exact(Run(s, ops))
    decreases |ops|
  {
    if ops != [] {
      var op := ops[0];
      hide Exact, Apply, Entered;
      assert Entered(op);
      if Apply(s, op).Success? {
        if op.CreatePaymentOp? || op.CreateReceiptOp? || op.CreateNoteOp? {
          CreateKeepsExact(s, op);
        } else {
          OthersKeepExact(s, op);
        }
      }
      RunKeepsExact(Step(s, op), ops[1..]);
    }
  }

  /** A bill that waits to be posted changes only when its TDS is set or when it is posted. */
  lemma StepKeepsWaiting(s: Store, op: Op, id: nat)
    requires Inv(s) && Apply(s, op).Success? && id < |s.bills|
    requires !op.SetTdsOp? || op.id != id
    ensures id < |Apply(s, op).value.bills|
    ensures Apply(s, op).value.bills[id].status.Unposted? ==> Apply(s, op).value.bills[id] == s.bills[id]
    ensures s.bills[id].status.Unposted? && !(op.PostBillOp? && op.id == id) ==>
              Apply(s, op).value.bills[id] == s.bills[id]
  {
    hide IsMoney, BillLines, SalesLines, PaymentLines, ReceiptLines, NoteLines, PaymentGain, ReceiptGain, Posting,
      Reconciled, Bill, Stored, Sale, NewReceipt, StoredAllocations, Allocated, CheckAllocations, StoredTaxes,
      Round2, InvoiceOk, Settle, Tax, TdsOn, ValidBillLines, ValidSalesLines, Once, Positive;
    if op.ExecutePaymentOp? {
      assert PaymentOk(s.bills, s.payments[op.id]);
      SettleAt(s.bills, s.payments[op.id].allocations, id);
    }
    if op.PostNoteOp? {
      assert NoteOk(s, s.notes[op.id]);
    }
  }

  lemma StepKeepsGap(s: Store, op: Op, id: nat)
    requires Inv(s) && BillAddsUp(s.bills, id) && Entered(op)
    requires !op.SetTdsOp? || op.id != id
    ensures BillAddsUp(Step(s, op).bills, id)
  {
    hide Inv, BillGap, MoneyTaxes, IsMoney, MoneyAllocations, Bill, Stored;
    if Apply(s, op).Success? {
      if id < |s.bills| {
        StepKeepsWaiting(s, op, id);
      } else if op.CreateBillOp? {
        BillEntered(op.bill);
        hide Tax, ValidBillLines, ValidTaxes;
      } else {
        SameBills(s, op);
      }
      hide Apply;
    }
  }

  lemma SameBills(s: Store, op: Op)
    requires Apply(s, op).Success? && !op.CreateBillOp?
    ensures |Apply(s, op).value.bills| == |s.bills|
  {
    hide IsMoney, BillLines, SalesLines, PaymentLines, ReceiptLines, NoteLines, PaymentGain, ReceiptGain, Posting,
      Sale, Stored, NewReceipt, StoredAllocations, Allocated, CheckAllocations, StoredTaxes, Round2, Tax, TdsOn,
      Noted;
  }

  lemma {:induction false} RunKeepsGap(s: Store, ops: seq<Op>, id: nat)
    requires Inv(s) && BillAddsUp(s.bills, id) && !TdsSet(ops, id)
    requires forall i :: 0 <= i < |ops| ==> Entered(ops[i])
    ensures BillAddsUp(Run(s, ops).bills, id)
    decreases |ops|
  {
    if ops != [] {
      StepKeeps(s, ops[0]);
      StepKeepsGap(s, ops[0], id);
      assert !TdsSet(ops[1..], id) by {
        forall i | 0 <= i < |ops[1..]|
          ensures !(ops[1..][i].SetTdsOp? && ops[1..][i].id == id)
        {
          assert ops[1..][i] == ops[i + 1];
        }
      }
      hide Inv, Step, BillAddsUp, Entered, TdsSet;
      RunKeepsGap(Step(s, ops[0]), ops[1..], id);
    }
  }

  /**
   In every run whose amounts are entered in whole cents, with no receipt charged more than it
   brings in, the lines of a document still to be posted are out by at most 0.02 for a bill,
   0.005 for a payment, 0.01 for a receipt and 0.015 for a note, at any rates; a bill whose TDS
   is set again is out by the change as well.
   */
  lemma EveryRunHandsOverNearly(fxConfigured: bool, ops: seq<Op>, id: nat)
    requires forall i :: 0 <= i < |ops| ==> Entered(ops[i])
    ensures var s := Run(Empty(fxConfigured), ops);
      && (id < |s.bills| && s.bills[id].status.Unposted? && !TdsSet(ops, id) ==>
            Near(Net(BillLines(s.bills[id]), None), 0.0, 0.02))
      && (id < |s.payments| ==> var p := s.payments[id];
            Refer(p.allocations, |s.bills|) && Near(Net(PaymentLines(p, s.bills), None), 0.0, 0.005))
      && (id < |s.receipts| ==> var r := s.receipts[id];
            Refer(r.allocations, |s.sales|) && Near(Net(ReceiptLines(r, s.sales), None), 0.0, 0.01))
      && (id < |s.notes| ==> var n := s.notes[id];
            n.invoice < |Invoices(s, n.side)| &&
                Near(Net(NoteLines(n, Invoices(s, n.side)[n.invoice]), None), 0.0, 0.015))
  {
    var e := Empty(fxConfigured);
    assert Inv(e) && Exact(e) && BillAddsUp(e.bills, id);
    RunKeeps(e, ops);
    RunKeepsExact(e, ops);
    hide Run, Net, BillLines, PaymentLines, ReceiptLines, NoteLines, TdsSet, BillAddsUp, Exact, Inv, Entered;
    ExactHandsOverNearly(Run(e, ops), id);
    if !TdsSet(ops, id) {
      RunKeepsGap(e, ops, id);
      WaitingBills(Run(e, ops));
      GaplessBill(Run(e, ops), id);
    }
  }

  lemma WaitingBills(s: Store)
    ensures Inv(s) ==> PendingOk(s.bills)
  {
  }

  lemma GaplessBill(s: Store, id: nat)
    requires PendingOk(s.bills) && BillAddsUp(s.bills, id)
    ensures id < |s.bills| && s.bills[id].status.Unposted? ==> Near(Net(BillLines(s.bills[id]), None), 0.0, 0.02)
  {
    hide Net, BillLines, InRupees, BillGap, IsMoney, Tax;
    if id < |s.bills| && s.bills[id].status.Unposted? {
      BillImbalance(s.bills[id]);
      ConvertsNothing(s.bills[id].rate);
    }
  }

  lemma ExactHandsOverNearly(s: Store, id: nat)
    requires Inv(s) && Exact(s)
    ensures id < |s.payments| ==>
              && Refer(s.payments[id].allocations, |s.bills|)
              && Near(Net(PaymentLines(s.payments[id], s.bills), None), 0.0, 0.005)
    ensures id < |s.receipts| ==>
              && Refer(s.receipts[id].allocations, |s.sales|)
              && Near(Net(ReceiptLines(s.receipts[id], s.sales), None), 0.0, 0.01)
    ensures id < |s.notes| ==>
              var n := s.notes[id];
              n.invoice < |Invoices(s, n.side)| &&
                  Near(Net(NoteLines(n, Invoices(s, n.side)[n.invoice]), None), 0.0, 0.015)
  {
    hide Net, PaymentLines, ReceiptLines, NoteLines, InRupees, NoteGap, ReceiptGap, Allocated, Tax, IsMoney,
      Reconciled;
    if id < |s.payments| {
      assert PaymentOk(s.bills, s.payments[id]) && PaymentAddsUp(s.payments[id]);
      PaymentImbalance(s.payments[id], s.bills);
    }
    if id < |s.receipts| {
      assert ReceiptOk(s.sales, s.receipts[id]) && ReceiptAddsUp(s.receipts[id]);
      ReceiptImbalance(s.receipts[id], s.sales);
      ConvertsNothing(s.receipts[id].rate);
    }
    if id < |s.notes| {
      assert NoteOk(s, s.notes[id]);
      var x := Invoices(s, s.notes[id].side)[s.notes[id].invoice];
      assert InvoiceOk(x);
      NoteImbalance(s.notes[id], x);
      ConvertsNothing(x.rate);
      assert 1.0 * 0.0 == 0.0 && -1.0 * 0.0 == 0.0;
    }
  }
}
