/** Whether a journal still balances once its lines are stored with two decimals, over single postings and runs. */
module StoredBalance {
  import opened Wrappers
  import opened Decimals
  import opened FinancePosting
  import opened FinancePostingLaws
  import opened PostingGate
  import opened PostingBounds
  import opened ControlAccounts
  import opened JournalBalance
  import opened StoredLedger

  // ---------------------------------------------------------------- what rounding leaves behind

  /** What a column of two decimals does not keep of an amount. */
  function Residue(x: real): real {
    x - Round2(x)
  }

  lemma ResidueRange(x: real)
    requires x >= 0.0
    ensures -0.005 <= Residue(x) < 0.005
  {
  }

  lemma NoResidue(x: real)
    ensures Residue(x) == 0.0 <==> IsMoney(x)
  {
    Round2OfMoney(x);
    hide Round2, IsMoney;
  }

  lemma ShiftFloor(x: real, n: int)
    ensures (x + n as real).Floor == x.Floor + n
  {
  }

  /** Rounding an amount that is not negative commutes with adding whole paise to it. */
  lemma ShiftByMoney(x: real, m: real)
    requires IsMoney(m) && x >= 0.0 && x + m >= 0.0
    ensures Round2(x + m) == Round2(x) + m
  {
    var n :| m == Hundredths(n);
    ShiftFloor(x * 100.0 + 0.5, n);
    assert (x + m) * 100.0 + 0.5 == x * 100.0 + 0.5 + n as real;
  }

  /** Two amounts rounded one by one, against their sum rounded. */
  lemma RoundedSum(x: real, y: real)
    requires x >= 0.0 && y >= 0.0
    ensures var r := Residue(x) + Residue(y);
      Round2(x + y) == Round2(x) + Round2(y) + if r >= 0.005 then 0.01 else if r < -0.005 then -0.01 else 0.0
  {
    var r := Residue(x) + Residue(y);
    ResidueRange(x);
    ResidueRange(y);
    Round2Nearest(x);
    Round2Nearest(y);
    MoneyClosed(Round2(x), Round2(y));
    var m := Round2(x) + Round2(y);
    var n :| m == Hundredths(n);
    RoundsResidue(x + y, n, r);
  }

  lemma RoundsResidue(x: real, n: int, r: real)
    requires x >= 0.0 && x == Hundredths(n) + r && -0.01 <= r < 0.01
    ensures Round2(x) == Hundredths(n) + if r >= 0.005 then 0.01 else if r < -0.005 then -0.01 else 0.0
  {
    assert x * 100.0 + 0.5 == n as real + (r * 100.0 + 0.5);
    ShiftFloor(r * 100.0 + 0.5, n);
  }

  // ---------------------------------------------------------------- single journals

  lemma StoredFxNet(gain: real)
    requires IsMoney(gain)
    ensures Net(StoredLines(FxLine(gain)), None) == -gain
  {
    ZeroIsMoney();
    MoneyClosed(0.0, gain);
    assert 0.0 - gain == -gain;
    Round2OfMoney(0.0);
    Round2OfMoney(gain);
    Round2OfMoney(-gain);
    hide Round2, IsMoney;
    StoredOfOne(Credit(FxGain, gain));
    StoredOfOne(Debit(FxLoss, -gain));
    NetOfOne(StoredEntry(Credit(FxGain, gain)), None);
    NetOfOne(StoredEntry(Debit(FxLoss, -gain)), None);
    StoredNone(None);
  }

  lemma StoredDebit(account: Account, x: real)
    ensures Worth(StoredEntry(Debit(account, x)), None) == Round2(x)
  {
    ZeroIsMoney();
    Round2OfMoney(0.0);
    hide Round2;
  }

  lemma StoredCredit(account: Account, x: real)
    ensures Worth(StoredEntry(Credit(account, x)), None) == -Round2(x)
  {
    ZeroIsMoney();
    Round2OfMoney(0.0);
    hide Round2;
  }

  /** What a payment leaves for the vendor's advance, in rupees. */
  function Advance(p: Payment): real {
    if p.amount > Allocated(p.allocations) then InRupees(p.amount - Allocated(p.allocations), p.rate) else 0.0
  }

  /** What the stored lines of a payment are out by: each amount is rounded on its own. */
  lemma StoredPaymentNet(p: Payment, bills: seq<Invoice>)
    requires PaymentAmounts(p, bills)
    ensures Net(StoredLines(WithAmounts(PaymentLines(p, bills))), None) ==
            Round2(Carrying(bills, p.allocations)) + Round2(Advance(p)) - Round2(InRupees(p.amount, p.rate))
            - PaymentGain(p, bills)
  {
    PaymentGainIs(p, bills);
    hide InRupees, Net, Carrying, Allocated, PaymentLines, FxLine, Round2, StoredLines, WithAmounts, IsMoney,
      PaymentGain;
    StoredPaymentSum(p, bills, None);
    StoredFxNet(PaymentGain(p, bills));
    CarryingSign(bills, p.allocations);
    ZeroIsMoney();
    Round2OfMoney(0.0);
  }

  /**
   An accepted payment is stored with balanced lines exactly when what rounding leaves of its
   carrying amount and of its advance comes to less than half a paisa; else it is a paisa out.
   */
  lemma StoredPaymentBalance(p: Payment, bills: seq<Invoice>)
    requires PaymentAmounts(p, bills) && Posting(PaymentLines(p, bills)).Success?
    ensures var r := Residue(Carrying(bills, p.allocations)) + Residue(Advance(p));
      Net(StoredLines(Posting(PaymentLines(p, bills)).value), None) ==
        if r >= 0.005 then -0.01 else if r < -0.005 then 0.01 else 0.0
  {
    hide Carrying, Allocated, InRupees, PaymentLines, Net, StoredLines, Residue, Round2, Posting, WithAmounts, Advance,
      PaymentGain, IsMoney;
    PostedIs(PaymentLines(p, bills));
    StoredPaymentNet(p, bills);
    CarryingSign(bills, p.allocations);
    AdvanceSigns(p);
    PaymentGainIs(p, bills);
    AcceptedPayment(p, bills);
    hide PaymentAmounts;
    RoundedApart(Carrying(bills, p.allocations), Advance(p), InRupees(p.amount, p.rate), PaymentGain(p, bills));
  }

  /** Two amounts that come to a third and some whole paise, all rounded one by one. */
  lemma RoundedApart(x: real, y: real, z: real, m: real)
    requires x >= 0.0 && y >= 0.0 && z >= 0.0 && IsMoney(m) && x + y == z + m
    ensures var r := Residue(x) + Residue(y);
      Round2(x) + Round2(y) - Round2(z) - m == if r >= 0.005 then -0.01 else if r < -0.005 then 0.01 else 0.0
  {
    RoundedSum(x, y);
    ShiftByMoney(z, m);
    hide Round2, IsMoney, Residue;
  }

  /** The gate lets a payment pass when its carrying amount and advance come to what it pays and its gain. */
  lemma AcceptedPayment(p: Payment, bills: seq<Invoice>)
    requires PaymentAmounts(p, bills) && Posting(PaymentLines(p, bills)).Success?
    ensures Carrying(bills, p.allocations) + Advance(p) == InRupees(p.amount, p.rate) + PaymentGain(p, bills)
  {
    hide Carrying, Allocated, InRupees, PaymentLines, Round2, Posting, Advance, Excess, RateDifference, PaymentGain;
    PaymentPostsIff(p, bills);
    AdvanceIsRest(p, bills);
    PaymentGainIs(p, bills);
  }

  lemma PaymentGainIs(p: Payment, bills: seq<Invoice>)
    requires Refer(p.allocations, |bills|)
    ensures PaymentGain(p, bills) == Round2(RateDifference(bills, p.allocations, p.rate))
    ensures IsMoney(PaymentGain(p, bills))
  {
    Round2Nearest(RateDifference(bills, p.allocations, p.rate));
    hide Round2, IsMoney, Carrying, Allocated, InRupees;
  }

  lemma PostedIs(lines: Journal)
    requires Posting(lines).Success?
    ensures Posting(lines).value == WithAmounts(lines)
  {
  }

  lemma AdvanceSigns(p: Payment)
    requires p.rate > 0.0 && p.amount > 0.0
    ensures Advance(p) >= 0.0 && InRupees(p.amount, p.rate) > 0.0
  {
    hide Allocated;
    ConvertsPositive(p.amount, p.rate);
    if p.amount > Allocated(p.allocations) {
      ConvertsPositive(p.amount - Allocated(p.allocations), p.rate);
    }
    hide InRupees;
  }

  lemma AdvanceIsRest(p: Payment, bills: seq<Invoice>)
    requires Refer(p.allocations, |bills|)
    ensures InRupees(Excess(p), p.rate) + RateDifference(bills, p.allocations, p.rate) ==
            Carrying(bills, p.allocations) + Advance(p) - InRupees(p.amount, p.rate)
  {
    hide Allocated, Carrying, InRupees;
    ConvertsSum(p.amount, Allocated(p.allocations), p.rate);
    ConvertsSum(Allocated(p.allocations), p.amount, p.rate);
    ConvertsNothing(p.rate);
  }

  /** Without an advance, or when its carrying amount has two decimals, it balances as stored. */
  lemma NoAdvanceBalances(p: Payment, bills: seq<Invoice>)
    requires PaymentAmounts(p, bills) && Posting(PaymentLines(p, bills)).Success?
    requires Allocated(p.allocations) >= p.amount || IsMoney(Carrying(bills, p.allocations))
    ensures Net(StoredLines(Posting(PaymentLines(p, bills)).value), None) == 0.0
  {
    hide PaymentLines, Carrying, Allocated, InRupees, IsMoney, Net, StoredLines, Balanced, WithAmounts, Residue;
    StoredPaymentBalance(p, bills);
    CarryingSign(bills, p.allocations);
    AdvanceSigns(p);
    ResidueRange(Carrying(bills, p.allocations));
    ResidueRange(Advance(p));
    ZeroIsMoney();
    NoResidue(0.0);
    NoResidue(Carrying(bills, p.allocations));
  }

  /** What the stored lines of a receipt are out by. */
  lemma StoredReceiptNet(r: Receipt, sales: seq<Invoice>)
    requires ReceiptAmounts(r, sales)
    ensures Net(StoredLines(WithAmounts(ReceiptLines(r, sales))), None) ==
            (if Booked(r.amount - r.bankCharges, r.rate) > 0.0 then Booked(r.amount - r.bankCharges, r.rate) else 0.0)
            + Booked(r.bankCharges, r.rate) + Booked(r.tdsDeducted, r.rate)
            - Round2(Carrying(sales, r.allocations)) - Booked(r.unapplied, r.rate) - ReceiptGain(r, sales)
  {
    var bankNet := Booked(r.amount - r.bankCharges, r.rate);
    hide InRupees, Booked, Net, Carrying, Allocated, ReceiptLines, FxLine, Round2, StoredLines, WithAmounts, IsMoney,
      ReceiptGain, Worth, StoredEntry, Debit, Credit;
    StoredReceiptSum(r, sales, None);
    StoredDebit(Bank, bankNet);
    StoredAmount(Expense, r.bankCharges, r.rate);
    StoredAmount(TdsReceivable, r.tdsDeducted, r.rate);
    StoredAmount(CustomerAdvance, r.unapplied, r.rate);
    StoredCredit(Receivables, Carrying(sales, r.allocations));
    BookedIsMoney(r.amount - r.bankCharges, r.rate);
    Round2OfMoney(bankNet);
    ReceiptGainIsMoney(r, sales);
    StoredFxNet(ReceiptGain(r, sales));
    CarryingSign(sales, r.allocations);
    hide ReceiptAmounts;
    NothingRounded();
  }

  lemma NothingRounded()
    ensures Round2(0.0) == 0.0
  {
  }

  /** A line for a converted amount, pushed only when there is one, is worth what the amount is booked at. */
  lemma StoredAmount(account: Account, x: real, rate: real)
    requires x >= 0.0
    ensures (if x > 0.0 then Worth(StoredEntry(Debit(account, InRupees(x, rate))), None) else 0.0) == Booked(x, rate)
    ensures (if x > 0.0 then Worth(StoredEntry(Credit(account, InRupees(x, rate))), None) else 0.0) == -Booked(x, rate)
  {
    StoredDebit(account, InRupees(x, rate));
    StoredCredit(account, InRupees(x, rate));
    NothingBooked(rate);
    hide Round2, InRupees, Worth, StoredEntry, Debit, Credit;
  }

  lemma ReceiptGainIsMoney(r: Receipt, sales: seq<Invoice>)
    requires Refer(r.allocations, |sales|)
    ensures IsMoney(ReceiptGain(r, sales))
  {
    Round2Nearest(InRupees(Allocated(r.allocations), r.rate) - Carrying(sales, r.allocations));
    hide Round2, IsMoney, Carrying, Allocated, InRupees;
  }

  lemma NothingBooked(rate: real)
    ensures Booked(0.0, rate) == 0.0
  {
    ZeroIsMoney();
    ConvertsNothing(rate);
    Round2OfMoney(0.0);
    hide Round2, IsMoney;
  }

  /** What rounding leaves of a receipt's credits, less what it leaves of its debits. */
  function ReceiptResidue(r: Receipt, sales: seq<Invoice>): real
    requires Refer(r.allocations, |sales|)
  {
    Residue(Carrying(sales, r.allocations)) + Residue(InRupees(r.unapplied, r.rate))
    - Residue(InRupees(r.bankCharges, r.rate)) - Residue(InRupees(r.tdsDeducted, r.rate))
  }

  /** An accepted receipt is out, as stored, by what rounding leaves of its four converted amounts: at most a paisa. */
  lemma StoredReceiptBalance(r: Receipt, sales: seq<Invoice>)
    requires ReceiptAmounts(r, sales) && Posting(ReceiptLines(r, sales)).Success?
    ensures var net := Net(StoredLines(Posting(ReceiptLines(r, sales)).value), None);
      net == ReceiptResidue(r, sales) && (net == 0.0 || net == 0.01 || net == -0.01)
  {
    hide ReceiptLines, Carrying, InRupees, Booked, Round2, IsMoney, Net, StoredLines, Posting, WithAmounts,
      ReceiptResidue, ReceiptGap, Overcharge, BankRounding, GainRounding, ReceiptGain, Allocated;
    PostedIs(ReceiptLines(r, sales));
    StoredReceiptNet(r, sales);
    ReceiptPostsIff(r, sales);
    ReceiptRoundings(r, sales);
    ResidueIs(r, sales);
    ReceiptResidueRange(r, sales);
    StoredIsMoney(WithAmounts(ReceiptLines(r, sales)));
    WholePaise(Net(StoredLines(WithAmounts(ReceiptLines(r, sales))), None));
  }

  lemma ResidueIs(r: Receipt, sales: seq<Invoice>)
    requires Refer(r.allocations, |sales|)
    ensures ReceiptResidue(r, sales) ==
            Carrying(sales, r.allocations) + InRupees(r.unapplied, r.rate)
            - InRupees(r.bankCharges, r.rate) - InRupees(r.tdsDeducted, r.rate)
            - Round2(Carrying(sales, r.allocations)) - Booked(r.unapplied, r.rate)
            + Booked(r.bankCharges, r.rate) + Booked(r.tdsDeducted, r.rate)
  {
    hide Round2, InRupees, Carrying;
  }

  lemma ReceiptRoundings(r: Receipt, sales: seq<Invoice>)
    requires Refer(r.allocations, |sales|)
    ensures var bankNet := Booked(r.amount - r.bankCharges, r.rate);
      InRupees(ReceiptGap(r) + Overcharge(r), r.rate) + BankRounding(r) - GainRounding(r, sales) ==
        (if bankNet > 0.0 then bankNet else 0.0)
        + InRupees(r.bankCharges, r.rate) + InRupees(r.tdsDeducted, r.rate)
        - Carrying(sales, r.allocations) - InRupees(r.unapplied, r.rate) - ReceiptGain(r, sales)
  {
    hide InRupees, Booked, Allocated, Carrying, ReceiptGap, Overcharge, ReceiptGain;
    ReceiptConverted(r);
  }

  lemma ReceiptResidueRange(r: Receipt, sales: seq<Invoice>)
    requires ReceiptAmounts(r, sales)
    ensures -0.02 < ReceiptResidue(r, sales) < 0.02
  {
    hide InRupees, Carrying, Allocated, Residue;
    CarryingSign(sales, r.allocations);
    ConvertsSign(r.bankCharges, r.rate);
    ConvertsSign(r.tdsDeducted, r.rate);
    ConvertsSign(r.unapplied, r.rate);
    ResidueRange(Carrying(sales, r.allocations));
    ResidueRange(InRupees(r.unapplied, r.rate));
    ResidueRange(InRupees(r.bankCharges, r.rate));
    ResidueRange(InRupees(r.tdsDeducted, r.rate));
  }

  lemma {:induction false} StoredIsMoney(lines: Journal)
    ensures IsMoney(Net(StoredLines(lines), None))
  {
    if lines == [] {
      ZeroIsMoney();
    } else {
      var init, last := lines[..|lines| - 1], lines[|lines| - 1];
      StoredIsMoney(init);
      Round2Nearest(last.debit);
      Round2Nearest(last.credit);
      hide IsMoney, Round2;
      MoneyClosed(Round2(last.debit), Round2(last.credit));
      MoneyClosed(Net(StoredLines(init), None), Round2(last.debit) - Round2(last.credit));
      NetConcat(StoredLines(init), [StoredEntry(last)], None);
      NetOfOne(StoredEntry(last), None);
    }
  }

  lemma WholePaise(x: real)
    requires IsMoney(x) && -0.02 < x < 0.02
    ensures x == 0.0 || x == 0.01 || x == -0.01
  {
  }

  // ---------------------------------------------------------------- runs

  /** The journals whose stored debits and credits differ. */
  function OutOfBalance(journals: seq<Journal>): nat {
    if journals == [] then 0
    else
      OutOfBalance(journals[..|journals| - 1]) +
      if Net(StoredLines(journals[|journals| - 1]), None) != 0.0 then 1 else 0
  }

  /** Total stored debits less total stored credits. */
  function StoredTotal(journals: seq<Journal>): real {
    if journals == [] then 0.0
    else StoredTotal(journals[..|journals| - 1]) + Net(StoredLines(journals[|journals| - 1]), None)
  }

  ghost predicate WithinPaisa(journals: seq<Journal>) {
    forall j :: 0 <= j < |journals| ==> Near(Net(StoredLines(journals[j]), None), 0.0, 0.01)
  }

  function Settled(s: Store): nat {
    Executed(s.payments) + PostedReceipts(s.receipts)
  }

  lemma OneMoreJournal(journals: seq<Journal>, j: Journal)
    ensures OutOfBalance(journals + [j]) == OutOfBalance(journals) + if Net(StoredLines(j), None) != 0.0 then 1 else 0
    ensures WithinPaisa(journals) && Near(Net(StoredLines(j), None), 0.0, 0.01) ==> WithinPaisa(journals + [j])
  {
    assert (journals + [j])[..|journals|] == journals;
    hide Net, StoredLines;
  }

  /** A journal of two-decimal lines is stored as it was accepted, in balance. */
  lemma MoneyJournal(lines: Journal)
    requires Posting(lines).Success? && StoredLines(WithAmounts(lines)) == WithAmounts(lines)
    ensures Net(StoredLines(Posting(lines).value), None) == 0.0
  {
    NetIsDifference(WithAmounts(lines));
    hide Net, StoredLines, WithAmounts, Debits, Credits;
  }

  /** So bills, sales invoices and notes are stored in balance. */
  lemma BillStoredBalanced(x: Invoice)
    requires Posting(BillLines(x)).Success?
    ensures Net(StoredLines(Posting(BillLines(x)).value), None) == 0.0
  {
    BillStoredAsPosted(x);
    hide BillLines, StoredLines, WithAmounts, Posting, Net;
    MoneyJournal(BillLines(x));
  }

  lemma SaleStoredBalanced(x: Invoice, total: real)
    requires Posting(SalesLines(x, total)).Success?
    ensures Net(StoredLines(Posting(SalesLines(x, total)).value), None) == 0.0
  {
    SaleStoredAsPosted(x, total);
    hide SalesLines, StoredLines, WithAmounts, Posting, Net;
    MoneyJournal(SalesLines(x, total));
  }

  lemma NoteStoredBalanced(n: Note, x: Invoice)
    requires Posting(NoteLines(n, x)).Success?
    ensures Net(StoredLines(Posting(NoteLines(n, x)).value), None) == 0.0
  {
    NoteStoredAsPosted(n, x);
    hide NoteLines, StoredLines, WithAmounts, Posting, Net;
    MoneyJournal(NoteLines(n, x));
  }

  /** What one call does to the count of journals that are stored out of balance. */
  ghost predicate Counted(s: Store, t: Store, even: bool) {
    && OutOfBalance(t.journals) == OutOfBalance(s.journals) + (if even then 0 else 1)
    && Settled(t) >= Settled(s) + (if even then 0 else 1)
    && (WithinPaisa(s.journals) ==> WithinPaisa(t.journals))
  }

  lemma CreationCounted(s: Store, op: Op)
    requires Apply(s, op).Success?
    requires op.CreateBillOp? || op.CreateSaleOp? || op.CreatePaymentOp? || op.CreateReceiptOp? || op.CreateNoteOp?
             || op.SetTdsOp?
    ensures Counted(s, Apply(s, op).value, true)
  {
    var t := Apply(s, op).value;
    assert t.payments[..|s.payments|] == s.payments && t.receipts[..|s.receipts|] == s.receipts;
    hide WithinPaisa, OutOfBalance, Bill, Stored, Sale, StoredAllocations, Round2, StoredTaxes, CheckAllocations,
      Allocated, Positive, Once, ValidBillLines, ValidSalesLines, TdsOn;
  }

  lemma DocumentCounted(s: Store, op: Op)
    requires Apply(s, op).Success?
    requires op.PostBillOp? || op.PostSaleOp? || op.PostNoteOp?
    ensures Counted(s, Apply(s, op).value, true)
  {
    hide WithinPaisa, OutOfBalance, Net, StoredLines, BillLines, SalesLines, NoteLines, Posting, Noted, Executed,
      PostedReceipts;
    match op
    case PostBillOp(id) =>
      BillStoredBalanced(s.bills[id]);
      OneMoreJournal(s.journals, Posting(BillLines(s.bills[id])).value);
    case PostSaleOp(id) =>
      SaleStoredBalanced(s.sales[id], s.sales[id].outstanding);
      OneMoreJournal(s.journals, Posting(SalesLines(s.sales[id], s.sales[id].outstanding)).value);
    case PostNoteOp(id) =>
      var n := s.notes[id];
      NoteStoredBalanced(n, Invoices(s, n.side)[n.invoice]);
      OneMoreJournal(s.journals, Posting(NoteLines(n, Invoices(s, n.side)[n.invoice])).value);
  }

  /** What storing leaves of the payment, less than half a paisa in all. */
  predicate PaymentEven(p: Payment, bills: seq<Invoice>)
    requires Refer(p.allocations, |bills|)
  {
    -0.005 <= Residue(Carrying(bills, p.allocations)) + Residue(Advance(p)) < 0.005
  }

  lemma PaymentCounted(s: Store, id: nat)
    requires Inv(s) && ExecutePayment(s, id).Success?
    ensures Counted(s, ExecutePayment(s, id).value, PaymentEven(s.payments[id], s.bills))
  {
    var p := s.payments[id];
    PaymentRowAt(s, id);
    hide Inv, WithinPaisa, OutOfBalance, Net, StoredLines, PaymentLines, PaymentGain, Posting, Settle, Residue,
      Advance, Carrying, PostedReceipts, Executed, PaymentAmounts;
    StoredPaymentBalance(p, s.bills);
    OneMoreJournal(s.journals, Posting(PaymentLines(p, s.bills)).value);
    ExecutedUpdate(s.payments, id);
  }

  lemma ReceiptRowAt(s: Store, id: nat)
    requires Inv(s) && id < |s.receipts|
    ensures Refer(s.receipts[id].allocations, |s.sales|) && ReceiptAmounts(s.receipts[id], s.sales)
  {
    hide Reconciled;
    assert ReceiptOk(s.sales, s.receipts[id]);
    AllocationsHaveTerms(s.sales, s.receipts[id].allocations);
  }

  lemma ReceiptCounted(s: Store, id: nat)
    requires Inv(s) && PostReceipt(s, id).Success?
    ensures Counted(s, PostReceipt(s, id).value, ReceiptResidue(s.receipts[id], s.sales) == 0.0)
  {
    var r := s.receipts[id];
    ReceiptRowAt(s, id);
    hide Inv, WithinPaisa, OutOfBalance, Net, StoredLines, ReceiptLines, ReceiptGain, Posting, Settle, ReceiptResidue,
      Carrying, PostedReceipts, Executed, ReceiptAmounts;
    StoredReceiptBalance(r, s.sales);
    OneMoreJournal(s.journals, Posting(ReceiptLines(r, s.sales)).value);
    PostedUpdate(s.receipts, id);
  }

  /** The call does not settle anything, or what storing leaves of the settlement cancels out. */
  predicate Even(s: Store, op: Op) {
    match op
    case ExecutePaymentOp(id) => ExecutePayment(s, id).Success? ==> PaymentEven(s.payments[id], s.bills)
    case PostReceiptOp(id) => PostReceipt(s, id).Success? ==> ReceiptResidue(s.receipts[id], s.sales) == 0.0
    case _ => true
  }

  lemma StepCounted(s: Store, op: Op)
    requires Inv(s)
    ensures Counted(s, Step(s, op), Even(s, op))
  {
    hide Inv, Counted, PaymentEven, ReceiptResidue;
    if Apply(s, op).Failure? {
      NothingCounted(s);
    } else {
      match op
      case ExecutePaymentOp(id) => PaymentCounted(s, id);
      case PostReceiptOp(id) => ReceiptCounted(s, id);
      case PostBillOp(_) => DocumentCounted(s, op);
      case PostSaleOp(_) => DocumentCounted(s, op);
      case PostNoteOp(_) => DocumentCounted(s, op);
      case _ => CreationCounted(s, op);
    }
  }

  lemma NothingCounted(s: Store)
    ensures Counted(s, s, true)
  {
  }

  /** The settlements of a run of which storing leaves something. */
  function Uneven(s: Store, ops: seq<Op>): nat
    decreases |ops|
  {
    if ops == [] then 0 else (if Even(s, ops[0]) then 0 else 1) + Uneven(Step(s, ops[0]), ops[1..])
  }

  lemma {:induction false} RunCounted(s: Store, ops: seq<Op>)
    requires Inv(s) && WithinPaisa(s.journals)
    ensures var t := Run(s, ops);
      && WithinPaisa(t.journals)
      && OutOfBalance(t.journals) == OutOfBalance(s.journals) + Uneven(s, ops)
      && Settled(t) >= Settled(s) + Uneven(s, ops)
    decreases |ops|
  {
    hide Inv, Step, Even, WithinPaisa, OutOfBalance, Settled;
    if ops != [] {
      StepKeeps(s, ops[0]);
      StepCountedSo(s, ops[0]);
      RunCounted(Step(s, ops[0]), ops[1..]);
    }
  }

  lemma StepCountedSo(s: Store, op: Op)
    requires Inv(s) && WithinPaisa(s.journals)
    ensures var t, n := Step(s, op), if Even(s, op) then 0 else 1;
      && WithinPaisa(t.journals)
      && OutOfBalance(t.journals) == OutOfBalance(s.journals) + n
      && Settled(t) >= Settled(s) + n
  {
    hide Inv, Step, Even, WithinPaisa, OutOfBalance, Settled;
    StepCounted(s, op);
  }

  lemma {:induction false} TotalWithin(journals: seq<Journal>)
    requires WithinPaisa(journals)
    ensures Near(StoredTotal(journals), 0.0, OutOfBalance(journals) as real * 0.01)
  {
    hide Net, StoredLines;
    if journals != [] {
      TotalWithin(journals[..|journals| - 1]);
    }
  }

  lemma {:induction false} AllInBalance(journals: seq<Journal>)
    ensures OutOfBalance(journals) == 0 <==>
              forall j :: 0 <= j < |journals| ==> Net(StoredLines(journals[j]), None) == 0.0
  {
    hide Net, StoredLines;
    if journals != [] {
      AllInBalance(journals[..|journals| - 1]);
    }
  }

  lemma EmptyCounted(fxConfigured: bool)
    ensures var e := Empty(fxConfigured);
      Inv(e) && WithinPaisa(e.journals) && OutOfBalance(e.journals) == 0 && Settled(e) == 0
  {
    InvEmpty(fxConfigured);
    hide Inv;
  }

  /**
   In every run, whatever was entered, each journal is in balance as stored to within a paisa, no
   more of them are out than there are settlements posted, and in all the books are out by at most
   a paisa for each of those.
   */
  lemma EveryRunStoredNearly(fxConfigured: bool, ops: seq<Op>)
    ensures var s := Run(Empty(fxConfigured), ops);
      && (forall j :: 0 <= j < |s.journals| ==> Near(Net(StoredLines(s.journals[j]), None), 0.0, 0.01))
      && OutOfBalance(s.journals) <= Executed(s.payments) + PostedReceipts(s.receipts)
      && Near(StoredTotal(s.journals), 0.0, OutOfBalance(s.journals) as real * 0.01)
  {
    var e := Empty(fxConfigured);
    EmptyCounted(fxConfigured);
    hide Run, Inv, Net, StoredLines, OutOfBalance, StoredTotal, Uneven, Executed, PostedReceipts;
    RunCounted(e, ops);
    TotalWithin(Run(e, ops).journals);
  }

  /** And all are in balance as stored exactly when no settlement is posted of which storing leaves something. */
  lemma EveryRunStoredExactlyIff(fxConfigured: bool, ops: seq<Op>)
    ensures (forall j :: 0 <= j < |Run(Empty(fxConfigured), ops).journals| ==>
               Net(StoredLines(Run(Empty(fxConfigured), ops).journals[j]), None) == 0.0)
            <==> Uneven(Empty(fxConfigured), ops) == 0
  {
    var e := Empty(fxConfigured);
    EmptyCounted(fxConfigured);
    hide Run, Inv, Net, StoredLines, OutOfBalance, Uneven, WithinPaisa, Settled;
    RunCounted(e, ops);
    AllInBalance(Run(e, ops).journals);
  }

  // ---------------------------------------------------------------- at par

  /** Bills, sales invoices and receipts are at rate 1. */
  ghost predicate RatesOne(s: Store) {
    AllAtPar(s.bills) && AllAtPar(s.sales) && forall i :: 0 <= i < |s.receipts| ==> s.receipts[i].rate == 1.0
  }

  ghost predicate MoneyReceipt(r: Receipt) {
    IsMoney(r.bankCharges) && IsMoney(r.tdsDeducted) && IsMoney(r.unapplied)
  }

  ghost predicate MoneyReceipts(receipts: seq<Receipt>) {
    forall i :: 0 <= i < |receipts| ==> MoneyReceipt(receipts[i])
  }

  lemma NewReceiptIsMoney(q: ReceiptRequest)
    ensures MoneyReceipt(NewReceipt(q))
  {
    Round2Nearest(q.bankCharges);
    Round2Nearest(q.tdsDeducted);
    Round2Nearest(q.amount + q.tdsDeducted - Allocated(q.allocations));
    hide Round2, IsMoney;
  }

  lemma ReceiptsStep(s: Store, op: Op)
    requires MoneyReceipts(s.receipts)
    ensures var t := Step(s, op);
      && MoneyReceipts(t.receipts)
      && |t.receipts| >= |s.receipts|
      && forall i :: 0 <= i < |s.receipts| ==> t.receipts[i].rate == s.receipts[i].rate
  {
    hide NewReceipt, MoneyReceipt, BillLines, SalesLines, PaymentLines, ReceiptLines, NoteLines, PaymentGain,
      ReceiptGain, Posting, Settle, Noted, Stored, Bill, Sale, StoredAllocations, Round2, StoredTaxes, TdsOn, Allocated;
    if op.CreateReceiptOp? {
      NewReceiptIsMoney(op.receipt);
    }
    if op.PostReceiptOp? && op.id < |s.receipts| {
      PostedIsMoney(s.receipts[op.id]);
    }
  }

  lemma PostedIsMoney(r: Receipt)
    ensures MoneyReceipt(r) <==> MoneyReceipt(r.(posted := true))
  {
  }

  lemma ParBefore(s: Store, op: Op, side: Side)
    requires Inv(s)
    ensures AllAtPar(Invoices(Step(s, op), side)) ==> AllAtPar(Invoices(s, side))
  {
    hide Inv, AllAtPar, BillLines, SalesLines, NoteLines, Posting, Noted, Bill, Stored, Sale, StoredAllocations, Round2,
      StoredTaxes, TdsOn, ExecutePayment, PostReceipt, CheckAllocations, Allocated, ValidBillLines, ValidSalesLines;
    if Apply(s, op).Success? {
      match op
      case ExecutePaymentOp(id) => InvRows(s); PaymentRows(s, id);
      case PostReceiptOp(id) => InvRows(s); ReceiptRows(s, id);
      case SetTdsOp(id, base, percent) => SameRates(s.bills, id, s.bills[id].(tds := TdsOn(base, percent)));
      case PostBillOp(id) => SameRates(s.bills, id, s.bills[id].(status := Open));
      case PostSaleOp(id) => SameRates(s.sales, id, s.sales[id].(status := Open));
      case PostNoteOp(id) =>
        var n := s.notes[id];
        NotedRate(Invoices(s, n.side)[n.invoice], n);
        SameRates(Invoices(s, n.side), n.invoice, Noted(Invoices(s, n.side)[n.invoice], n));
      case CreateBillOp(q) => AtParPrefix(s.bills, Stored(Bill(q)));
      case CreateSaleOp(q) => AtParPrefix(s.sales, Stored(Sale(q)));
      case _ =>
    }
  }

  lemma InvRows(s: Store)
    requires Inv(s)
    ensures RowsOk(s)
  {
  }

  lemma {:induction false} RatesBefore(s: Store, ops: seq<Op>)
    requires Inv(s) && MoneyReceipts(s.receipts)
    ensures RatesOne(Run(s, ops)) ==> RatesOne(s)
    decreases |ops|
  {
    if ops != [] {
      StepKeeps(s, ops[0]);
      ReceiptsStep(s, ops[0]);
      ParBefore(s, ops[0], Payable);
      ParBefore(s, ops[0], Receivable);
      hide Inv, Step, AllAtPar, MoneyReceipts;
      RatesBefore(Step(s, ops[0]), ops[1..]);
    }
  }

  lemma ParPaymentEven(p: Payment, bills: seq<Invoice>)
    requires PaymentAmounts(p, bills) && AllAtPar(bills)
    requires forall i :: 0 <= i < |p.allocations| ==> IsMoney(p.allocations[i].amount)
    ensures PaymentEven(p, bills)
  {
    CarryingAtPar(bills, p.allocations);
    NoResidue(Carrying(bills, p.allocations));
    AdvanceSigns(p);
    ResidueRange(Advance(p));
    hide Residue, Advance, Carrying, IsMoney;
  }

  lemma ParReceiptEven(r: Receipt, sales: seq<Invoice>)
    requires ReceiptAmounts(r, sales) && AllAtPar(sales) && r.rate == 1.0 && MoneyReceipt(r)
    requires forall i :: 0 <= i < |r.allocations| ==> IsMoney(r.allocations[i].amount)
    ensures ReceiptResidue(r, sales) == 0.0
  {
    CarryingAtPar(sales, r.allocations);
    NoResidue(Carrying(sales, r.allocations));
    ParResidue(r.unapplied, r.rate);
    ParResidue(r.bankCharges, r.rate);
    ParResidue(r.tdsDeducted, r.rate);
    hide Residue, Carrying, IsMoney, InRupees;
  }

  lemma ParResidue(x: real, rate: real)
    requires IsMoney(x) && rate == 1.0
    ensures Residue(InRupees(x, rate)) == 0.0
  {
    assert InRupees(x, rate) == x;
    NoResidue(x);
    hide Residue;
  }

  lemma StepEven(s: Store, op: Op)
    requires Inv(s) && RatesOne(s) && MoneyReceipts(s.receipts)
    ensures Even(s, op)
  {
    if op.ExecutePaymentOp? && ExecutePayment(s, op.id).Success? {
      PaymentRowAt(s, op.id);
      assert PaymentOk(s.bills, s.payments[op.id]);
      hide PaymentEven, PaymentAmounts, ExecutePayment, Reconciled, InvoicesOk, IsMoney;
      ParPaymentEven(s.payments[op.id], s.bills);
    }
    if op.PostReceiptOp? && PostReceipt(s, op.id).Success? {
      ReceiptRowAt(s, op.id);
      assert ReceiptOk(s.sales, s.receipts[op.id]);
      hide ReceiptResidue, ReceiptAmounts, PostReceipt, Reconciled, InvoicesOk, IsMoney, MoneyReceipt;
      ParReceiptEven(s.receipts[op.id], s.sales);
    }
  }

  lemma {:induction false} RunEven(s: Store, ops: seq<Op>)
    requires Inv(s) && MoneyReceipts(s.receipts) && RatesOne(Run(s, ops))
    ensures Uneven(s, ops) == 0
    decreases |ops|
  {
    if ops != [] {
      RatesBefore(s, ops);
      StepEven(s, ops[0]);
      StepKeeps(s, ops[0]);
      ReceiptsStep(s, ops[0]);
      hide Inv, Step, Even, MoneyReceipts, RatesOne;
      RunEven(Step(s, ops[0]), ops[1..]);
    }
  }

  lemma EmptyReceipts(fxConfigured: bool)
    ensures MoneyReceipts(Empty(fxConfigured).receipts)
  {
  }

  /** When bills, sales invoices and receipts are all at rate 1, every journal is in balance as stored. */
  lemma EveryRunStoredAtPar(fxConfigured: bool, ops: seq<Op>)
    requires RatesOne(Run(Empty(fxConfigured), ops))
    ensures var s := Run(Empty(fxConfigured), ops);
      && (forall j :: 0 <= j < |s.journals| ==> Net(StoredLines(s.journals[j]), None) == 0.0)
      && StoredTotal(s.journals) == 0.0
  {
    var e := Empty(fxConfigured);
    hide Run, Inv, Net, StoredLines, OutOfBalance, StoredTotal, Uneven, RatesOne, WithinPaisa, Settled, MoneyReceipts;
    EmptyCounted(fxConfigured);
    EmptyReceipts(fxConfigured);
    RunEven(e, ops);
    RunCounted(e, ops);
    AllInBalance(Run(e, ops).journals);
    TotalWithin(Run(e, ops).journals);
  }
}
