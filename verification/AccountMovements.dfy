/** What posting each kind of document moves on every ledger account. */
module AccountMovements {
  import opened Wrappers
  import opened Decimals
  import opened FinancePosting
  import opened FinancePostingLaws
  import opened PostingGate
  import opened ControlAccounts
  import opened JournalBalance
  import opened StoredBalance
  import opened AsEntered

  /** An amount at a rate, and rounded. */
  function Value(x: real, rate: real): real {
    Round2(Times(x, rate))
  }

  lemma BookedIsValue(x: real, rate: real)
    ensures Booked(x, rate) == Value(x, rate) && InRupees(x, rate) == Times(x, rate)
  {
  }

  function Above(x: real): real {
    if x > 0.0 then x else 0.0
  }

  /** Debits less credits of the account before and after. */
  ghost predicate Moves(s: Store, t: Store, a: Account, amount: real) {
    LedgerNet(t.journals, a) == LedgerNet(s.journals, a) + amount
  }

  lemma JournalMoves(s: Store, t: Store, lines: Journal, a: Account)
    requires AllProper(lines) && Posting(lines).Success? && t.journals == s.journals + [Posting(lines).value]
    ensures Moves(s, t, a, Net(lines, Some(a)))
  {
    hide Posting, Net, LedgerNet, AllProper;
    PostedNet(lines, a);
    LedgerAppend(s.journals, Posting(lines).value, a);
  }

  // ---------------------------------------------------------------- bills and sales invoices

  /** Cost or stock and input tax against the payable and the TDS held back. */
  function BillMove(x: Invoice, a: Account): real {
    match a
    case Inventory => if x.ordered then Value(x.taxable + x.other, x.rate) else 0.0
    case Expense => if x.ordered then 0.0 else Value(x.taxable + x.other, x.rate)
    case InputTax => Value(TaxSum(x.taxes), x.rate)
    case Payables => -Value(x.outstanding, x.rate)
    case TdsPayable => -Value(x.tds, x.rate)
    case _ => 0.0
  }

  lemma BillLinesMove(x: Invoice, a: Account)
    requires BillAmounts(x)
    ensures Net(BillLines(x), Some(a)) == BillMove(x, a)
  {
    BillNet(x, Some(a));
    BookedNear(Tax(x.taxes), x.rate);
    BookedNear(x.tds, x.rate);
    BookedIsValue(x.taxable + x.other, x.rate);
    BookedIsValue(Tax(x.taxes), x.rate);
    BookedIsValue(x.outstanding, x.rate);
    BookedIsValue(x.tds, x.rate);
    assert Tax(x.taxes) == TaxSum(x.taxes);
    hide Net, BillLines, Booked, Value, Tax, TaxSum;
  }

  /** A bill posted is open, and moves these accounts by these amounts; nothing else changes. */
  lemma BillPosted(s: Store, id: nat, a: Account)
    requires Inv(s) && PostBill(s, id).Success?
    ensures var t := PostBill(s, id).value;
      && t == s.(bills := s.bills[id := s.bills[id].(status := Open)], journals := t.journals)
      && |t.journals| == |s.journals| + 1 && t.journals[..|s.journals|] == s.journals
      && Moves(s, t, a, BillMove(s.bills[id], a))
  {
    WaitingBills(s);
    hide Inv, BillLines, Posting, BillMove, Net, LedgerNet, BillAmounts, AllProper, IsMoney;
    BillProper(s.bills[id]);
    BillLinesMove(s.bills[id], a);
    JournalMoves(s, PostBill(s, id).value, BillLines(s.bills[id]), a);
  }

  /** The receivable against revenue and output tax. */
  function SaleMove(x: Invoice, a: Account): real {
    match a
    case Receivables => Value(x.outstanding, x.rate)
    case Revenue => Value(TaxSum(x.taxes), x.rate) - Value(x.outstanding, x.rate)
    case OutputTax => -Value(TaxSum(x.taxes), x.rate)
    case _ => 0.0
  }

  lemma SaleLinesMove(x: Invoice, a: Account)
    ensures Net(SalesLines(x, x.outstanding), Some(a)) == SaleMove(x, a)
  {
    SalesNet(x, x.outstanding, Some(a));
    BookedIsValue(x.outstanding, x.rate);
    BookedIsValue(Tax(x.taxes), x.rate);
    assert Tax(x.taxes) == TaxSum(x.taxes);
    hide Net, SalesLines, Booked, Value, Tax, TaxSum;
  }

  lemma SalePosted(s: Store, id: nat, a: Account)
    requires PostSale(s, id).Success?
    ensures var t := PostSale(s, id).value;
      && t == s.(sales := s.sales[id := s.sales[id].(status := Open)], journals := t.journals)
      && |t.journals| == |s.journals| + 1 && t.journals[..|s.journals|] == s.journals
      && Moves(s, t, a, SaleMove(s.sales[id], a))
  {
    hide SalesLines, Posting, SaleMove, Net, LedgerNet, AllProper;
    SalePostsIff(s.sales[id], s.sales[id].outstanding);
    SaleLinesMove(s.sales[id], a);
    JournalMoves(s, PostSale(s, id).value, SalesLines(s.sales[id], s.sales[id].outstanding), a);
  }

  // ---------------------------------------------------------------- payments and receipts

  /** The allocations at the rates of their invoices. */
  function BookValue(invoices: seq<Invoice>, allocations: seq<Allocation>): real
    requires forall k :: 0 <= k < |allocations| ==> allocations[k].invoice < |invoices|
  {
    if allocations == [] then 0.0
    else
      var last := allocations[|allocations| - 1];
      BookValue(invoices, allocations[..|allocations| - 1]) + Times(last.amount, invoices[last.invoice].rate)
  }

  lemma {:induction false} CarryingIs(invoices: seq<Invoice>, allocations: seq<Allocation>)
    requires Refer(allocations, |invoices|)
    ensures Carrying(invoices, allocations) == BookValue(invoices, allocations)
  {
    if allocations != [] {
      var last := allocations[|allocations| - 1];
      CarryingIs(invoices, allocations[..|allocations| - 1]);
      BookedIsValue(last.amount, invoices[last.invoice].rate);
      hide InRupees, Times;
    }
  }

  /** A gain is credited to the gains account, a loss debited to the losses account. */
  function FxMove(gain: real, a: Account): real {
    match a
    case FxGain => -Above(gain)
    case FxLoss => Above(-gain)
    case _ => 0.0
  }

  lemma FxLinesMove(gain: real, a: Account)
    ensures Net(FxLine(gain), Some(a)) == FxMove(gain, a)
  {
    NetOfOne(Credit(FxGain, gain), Some(a));
    NetOfOne(Debit(FxLoss, -gain), Some(a));
    assert Net([], Some(a)) == 0.0;
    hide Net;
  }

  function PaymentFx(p: Payment, bills: seq<Invoice>): real
    requires forall k :: 0 <= k < |p.allocations| ==> p.allocations[k].invoice < |bills|
  {
    Round2(BookValue(bills, p.allocations) - Times(AmountSum(p.allocations), p.rate))
  }

  /** What is settled at its book value and what is paid in advance, against the bank. */
  function PaymentMove(p: Payment, bills: seq<Invoice>, a: Account): real
    requires forall k :: 0 <= k < |p.allocations| ==> p.allocations[k].invoice < |bills|
  {
    match a
    case Payables => BookValue(bills, p.allocations)
    case VendorAdvance => Times(Above(p.amount - AmountSum(p.allocations)), p.rate)
    case Bank => -Times(p.amount, p.rate)
    case _ => FxMove(PaymentFx(p, bills), a)
  }

  lemma GainIs(p: Payment, bills: seq<Invoice>)
    requires Refer(p.allocations, |bills|)
    ensures PaymentGain(p, bills) == PaymentFx(p, bills)
  {
    CarryingIs(bills, p.allocations);
    AllocatedIs(p.allocations);
    BookedIsValue(Allocated(p.allocations), p.rate);
    hide Round2, Carrying, BookValue, InRupees, Times, Allocated, AmountSum;
  }

  lemma PaymentLinesMove(p: Payment, bills: seq<Invoice>, a: Account)
    requires PaymentAmounts(p, bills)
    ensures Net(PaymentLines(p, bills), Some(a)) == PaymentMove(p, bills, a)
  {
    hide Net, PaymentLines, Carrying, BookValue, InRupees, Times, Allocated, AmountSum, PaymentGain, PaymentFx, FxLine;
    PaymentNet(p, bills, Some(a));
    FxLinesMove(PaymentGain(p, bills), a);
    GainIs(p, bills);
    CarryingIs(bills, p.allocations);
    CarryingSign(bills, p.allocations);
    AllocatedIs(p.allocations);
    NothingTimes(p.rate);
    BookedIsValue(p.amount, p.rate);
    BookedIsValue(p.amount - Allocated(p.allocations), p.rate);
  }

  lemma NothingTimes(rate: real)
    ensures Times(0.0, rate) == 0.0
  {
  }

  /** A payment executed moves these accounts by these amounts; what its bills keep is in `SettleAt`. */
  lemma PaymentPosted(s: Store, id: nat, a: Account)
    requires Inv(s) && ExecutePayment(s, id).Success?
    ensures var t, p := ExecutePayment(s, id).value, s.payments[id];
      && Refer(p.allocations, |s.bills|)
      && t == s.(bills := Settle(s.bills, p.allocations), payments := s.payments[id := p.(executed := true)],
                 journals := t.journals)
      && |t.journals| == |s.journals| + 1 && t.journals[..|s.journals|] == s.journals
      && Moves(s, t, a, PaymentMove(p, s.bills, a))
  {
    PaymentRowAt(s, id);
    hide Inv, PaymentLines, PaymentGain, Posting, PaymentMove, Net, LedgerNet, PaymentAmounts, AllProper, Settle;
    PaymentProper(s.payments[id], s.bills);
    PaymentLinesMove(s.payments[id], s.bills, a);
    JournalMoves(s, ExecutePayment(s, id).value, PaymentLines(s.payments[id], s.bills), a);
  }

  function ReceiptFx(r: Receipt, sales: seq<Invoice>): real
    requires forall k :: 0 <= k < |r.allocations| ==> r.allocations[k].invoice < |sales|
  {
    Round2(Times(AmountSum(r.allocations), r.rate) - BookValue(sales, r.allocations))
  }

  /** What the bank brings in, its charges and the TDS, against what is settled and what is left over. */
  function ReceiptMove(r: Receipt, sales: seq<Invoice>, a: Account): real
    requires forall k :: 0 <= k < |r.allocations| ==> r.allocations[k].invoice < |sales|
  {
    match a
    case Bank => Above(Value(r.amount - r.bankCharges, r.rate))
    case Expense => Times(r.bankCharges, r.rate)
    case TdsReceivable => Times(r.tdsDeducted, r.rate)
    case Receivables => -BookValue(sales, r.allocations)
    case CustomerAdvance => -Times(r.unapplied, r.rate)
    case _ => FxMove(ReceiptFx(r, sales), a)
  }

  lemma ReceiptGainIs(r: Receipt, sales: seq<Invoice>)
    requires Refer(r.allocations, |sales|)
    ensures ReceiptGain(r, sales) == ReceiptFx(r, sales)
  {
    CarryingIs(sales, r.allocations);
    AllocatedIs(r.allocations);
    BookedIsValue(Allocated(r.allocations), r.rate);
    hide Round2, Carrying, BookValue, InRupees, Times, Allocated, AmountSum;
  }

  lemma ReceiptLinesMove(r: Receipt, sales: seq<Invoice>, a: Account)
    requires ReceiptAmounts(r, sales)
    ensures Net(ReceiptLines(r, sales), Some(a)) == ReceiptMove(r, sales, a)
  {
    hide Net, ReceiptLines, Carrying, BookValue, InRupees, Times, Booked, Value, Allocated, AmountSum, ReceiptGain,
      ReceiptFx, FxLine;
    ReceiptNet(r, sales, Some(a));
    FxLinesMove(ReceiptGain(r, sales), a);
    ReceiptGainIs(r, sales);
    CarryingIs(sales, r.allocations);
    CarryingSign(sales, r.allocations);
    NothingTimes(r.rate);
    BookedIsValue(r.amount - r.bankCharges, r.rate);
    BookedIsValue(r.bankCharges, r.rate);
    BookedIsValue(r.tdsDeducted, r.rate);
    BookedIsValue(r.unapplied, r.rate);
  }

  lemma ReceiptPosted(s: Store, id: nat, a: Account)
    requires Inv(s) && PostReceipt(s, id).Success?
    ensures var t, r := PostReceipt(s, id).value, s.receipts[id];
      && Refer(r.allocations, |s.sales|)
      && t == s.(sales := Settle(s.sales, r.allocations), receipts := s.receipts[id := r.(posted := true)],
                 journals := t.journals)
      && |t.journals| == |s.journals| + 1 && t.journals[..|s.journals|] == s.journals
      && Moves(s, t, a, ReceiptMove(r, s.sales, a))
  {
    ReceiptRowAt(s, id);
    hide Inv, ReceiptLines, ReceiptGain, Posting, ReceiptMove, Net, LedgerNet, ReceiptAmounts, AllProper, Settle;
    ReceiptProper(s.receipts[id], s.sales);
    ReceiptLinesMove(s.receipts[id], s.sales, a);
    JournalMoves(s, PostReceipt(s, id).value, ReceiptLines(s.receipts[id], s.sales), a);
  }

  // ---------------------------------------------------------------- notes

  /** A customer's debit note as a sale, a vendor's as a bill; credit notes the other way round. */
  function NoteMove(n: Note, x: Invoice, a: Account): real {
    var sign := if n.increase then 1.0 else -1.0;
    if n.side.Receivable? then
      match a
      case Receivables => sign * Value(n.total, x.rate)
      case Revenue => -sign * Value(n.taxable, x.rate)
      case OutputTax => -sign * Value(TaxSum(n.taxes), x.rate)
      case _ => 0.0
    else
      match a
      case Payables => -sign * Value(n.total, x.rate)
      case Inventory => if x.ordered then sign * Value(n.taxable, x.rate) else 0.0
      case Expense => if x.ordered then 0.0 else sign * Value(n.taxable, x.rate)
      case InputTax => sign * Value(TaxSum(n.taxes), x.rate)
      case _ => 0.0
  }

  lemma NoteLinesMove(n: Note, x: Invoice, a: Account)
    requires NoteAmounts(n, x)
    ensures Net(NoteLines(n, x), Some(a)) == NoteMove(n, x, a)
  {
    NoteNet(n, x, Some(a));
    BookedNear(Tax(n.taxes), x.rate);
    BookedIsValue(n.total, x.rate);
    BookedIsValue(n.taxable, x.rate);
    BookedIsValue(Tax(n.taxes), x.rate);
    assert Tax(n.taxes) == TaxSum(n.taxes);
    hide Net, NoteLines, Booked, Value, Tax, TaxSum;
  }

  /** A note posted moves its invoice and these accounts by these amounts; nothing else changes. */
  lemma NotePosted(s: Store, id: nat, a: Account)
    requires Inv(s) && PostNote(s, id).Success?
    ensures var t, n := PostNote(s, id).value, s.notes[id];
      var before := if n.side.Receivable? then s.sales else s.bills;
      var after := if n.side.Receivable? then t.sales else t.bills;
      && n.invoice < |before|
      && t.notes == s.notes[id := n.(posted := true)]
      && t.payments == s.payments && t.receipts == s.receipts && t.fxConfigured == s.fxConfigured
      && (if n.side.Receivable? then t.bills == s.bills else t.sales == s.sales)
      && var x := before[n.invoice];
      && var left := if n.increase then x.outstanding + n.total else x.outstanding - n.total;
      && after == before[n.invoice := x.(outstanding := left, status := if left == 0.0 then Paid else x.status)]
      && |t.journals| == |s.journals| + 1 && t.journals[..|s.journals|] == s.journals
      && Moves(s, t, a, NoteMove(n, x, a))
  {
    hide Inv, NoteLines, Posting, NoteMove, Net, LedgerNet, NoteAmounts, AllProper;
    NoteIsWaiting(s, id);
    var n := s.notes[id];
    var x := Invoices(s, n.side)[n.invoice];
    NoteProper(n, x);
    NoteLinesMove(n, x, a);
    JournalMoves(s, PostNote(s, id).value, NoteLines(n, x), a);
  }

  lemma NoteIsWaiting(s: Store, id: nat)
    requires Inv(s) && PostNote(s, id).Success?
    ensures NoteAmounts(s.notes[id], Invoices(s, s.notes[id].side)[s.notes[id].invoice])
  {
    hide Reconciled, Posting;
    NoteRowAt(s, id);
  }
}
