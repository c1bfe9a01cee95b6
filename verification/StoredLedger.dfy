/** The control accounts as the journal lines are stored: each amount rounded to two decimals. */
module StoredLedger {
  import opened Wrappers
  import opened Decimals
  import opened FinancePosting
  import opened FinancePostingLaws
  import opened PostingGate
  import opened ControlAccounts

  function StoredEntry(e: Entry): Entry {
    Entry(e.account, Round2(e.debit), Round2(e.credit))
  }

  function StoredLines(lines: Journal): Journal {
    if lines == [] then [] else StoredLines(lines[..|lines| - 1]) + [StoredEntry(lines[|lines| - 1])]
  }

  function StoredNet(journals: seq<Journal>, account: Account): real {
    if journals == [] then 0.0
    else StoredNet(journals[..|journals| - 1], account) + Net(StoredLines(journals[|journals| - 1]), Some(account))
  }

  function StoredBalance(s: Store, side: Side): real {
    if side.Receivable? then StoredNet(s.journals, Receivables) else -StoredNet(s.journals, Payables)
  }

  function Executed(payments: seq<Payment>): nat {
    if payments == [] then 0
    else Executed(payments[..|payments| - 1]) + if payments[|payments| - 1].executed then 1 else 0
  }

  function PostedReceipts(receipts: seq<Receipt>): nat {
    if receipts == [] then 0
    else PostedReceipts(receipts[..|receipts| - 1]) + if receipts[|receipts| - 1].posted then 1 else 0
  }

  function Settlements(s: Store, side: Side): nat {
    if side.Receivable? then PostedReceipts(s.receipts) else Executed(s.payments)
  }

  // ---------------------------------------------------------------- sums

  lemma {:induction false} StoredConcat(a: Journal, b: Journal)
    ensures StoredLines(a + b) == StoredLines(a) + StoredLines(b)
  {
    if b == [] {
      assert a + b == a;
    } else {
      StoredConcat(a, b[..|b| - 1]);
      assert (a + b)[..|a + b| - 1] == a + b[..|b| - 1];
    }
    hide StoredEntry;
  }

  lemma StoredOfOne(e: Entry)
    ensures StoredLines([e]) == [StoredEntry(e)]
  {
    hide StoredEntry;
    assert [e][..0] == [];
    assert StoredLines([]) == [];
  }

  lemma StoredWhen(condition: bool, e: Entry, account: Option<Account>)
    ensures Net(StoredLines(When(condition, e)), account) == if condition then Worth(StoredEntry(e), account) else 0.0
  {
    hide StoredEntry;
    StoredOfOne(e);
    NetOfOne(StoredEntry(e), account);
  }

  lemma StoredNothing(e: Entry)
    requires e.debit == 0.0 && e.credit == 0.0
    ensures StoredEntry(e) == e
  {
    ZeroIsMoney();
    Round2OfMoney(0.0);
  }

  /** Lines without an amount leave nothing behind in the stored books either. */
  lemma {:induction false} StoredDrop(lines: Journal, account: Option<Account>)
    requires AllProper(lines)
    ensures Net(StoredLines(WithAmounts(lines)), account) == Net(StoredLines(lines), account)
  {
    if lines != [] {
      var init, last := lines[..|lines| - 1], lines[|lines| - 1];
      StoredDrop(init, account);
      hide CarriesAmount, StoredEntry;
      StoredConcat(WithAmounts(init), When(CarriesAmount(last), last));
      NetConcat(StoredLines(WithAmounts(init)), StoredLines(When(CarriesAmount(last), last)), account);
      StoredWhen(CarriesAmount(last), last, account);
      NetConcat(StoredLines(init), [StoredEntry(last)], account);
      NetOfOne(StoredEntry(last), account);
      if !CarriesAmount(last) {
        DroppedIsNothing(last);
        StoredNothing(last);
      }
    }
  }

  lemma {:induction false} StoredAppend(journals: seq<Journal>, j: Journal, account: Account)
    ensures StoredNet(journals + [j], account) == StoredNet(journals, account) + Net(StoredLines(j), Some(account))
  {
    assert (journals + [j])[..|journals|] == journals;
  }

  lemma {:induction false} ExecutedUpdate(payments: seq<Payment>, i: nat)
    requires i < |payments| && !payments[i].executed
    ensures Executed(payments[i := payments[i].(executed := true)]) == Executed(payments) + 1
  {
    var n, p := |payments| - 1, payments[i].(executed := true);
    if i == n {
      assert payments[i := p][..n] == payments[..n];
    } else {
      assert payments[i := p][..n] == payments[..n][i := p];
      ExecutedUpdate(payments[..n], i);
    }
  }

  lemma {:induction false} PostedUpdate(receipts: seq<Receipt>, i: nat)
    requires i < |receipts| && !receipts[i].posted
    ensures PostedReceipts(receipts[i := receipts[i].(posted := true)]) == PostedReceipts(receipts) + 1
  {
    var n, r := |receipts| - 1, receipts[i].(posted := true);
    if i == n {
      assert receipts[i := r][..n] == receipts[..n];
    } else {
      assert receipts[i := r][..n] == receipts[..n][i := r];
      PostedUpdate(receipts[..n], i);
    }
  }

  // ---------------------------------------------------------------- each kind of journal

  ghost predicate MoneyLines(lines: Journal) {
    forall i :: 0 <= i < |lines| ==> IsMoney(lines[i].debit) && IsMoney(lines[i].credit)
  }

  lemma {:induction false} MoneyIsStoredExactly(lines: Journal)
    requires MoneyLines(lines)
    ensures StoredLines(WithAmounts(lines)) == WithAmounts(lines)
  {
    if lines != [] {
      var init, last := lines[..|lines| - 1], lines[|lines| - 1];
      MoneyIsStoredExactly(init);
      Round2OfMoney(last.debit);
      Round2OfMoney(last.credit);
      assert StoredEntry(last) == last;
      hide StoredEntry, CarriesAmount;
      StoredConcat(WithAmounts(init), When(CarriesAmount(last), last));
      StoredOfOne(last);
    }
  }

  lemma BookedIsMoney(x: real, rate: real)
    ensures IsMoney(Booked(x, rate))
  {
    Round2Nearest(InRupees(x, rate));
    hide Round2, IsMoney;
  }

  /** The journals of bills, sales invoices and notes are stored as they are handed over. */
  lemma BillStoredAsPosted(x: Invoice)
    ensures StoredLines(WithAmounts(BillLines(x))) == WithAmounts(BillLines(x))
  {
    ZeroIsMoney();
    BookedIsMoney(x.taxable + x.other, x.rate);
    BookedIsMoney(Tax(x.taxes), x.rate);
    BookedIsMoney(x.outstanding, x.rate);
    BookedIsMoney(x.tds, x.rate);
    hide Booked, IsMoney, Tax, StoredLines, WithAmounts;
    MoneyIsStoredExactly(BillLines(x));
  }

  lemma SaleStoredAsPosted(x: Invoice, total: real)
    ensures StoredLines(WithAmounts(SalesLines(x, total))) == WithAmounts(SalesLines(x, total))
  {
    ZeroIsMoney();
    BookedIsMoney(total, x.rate);
    BookedIsMoney(Tax(x.taxes), x.rate);
    MoneyClosed(Booked(total, x.rate), Booked(Tax(x.taxes), x.rate));
    hide Booked, IsMoney, Tax, StoredLines, WithAmounts;
    MoneyIsStoredExactly(SalesLines(x, total));
  }

  lemma NoteStoredAsPosted(n: Note, x: Invoice)
    ensures StoredLines(WithAmounts(NoteLines(n, x))) == WithAmounts(NoteLines(n, x))
  {
    ZeroIsMoney();
    BookedIsMoney(n.total, x.rate);
    BookedIsMoney(n.taxable, x.rate);
    BookedIsMoney(Tax(n.taxes), x.rate);
    hide Booked, IsMoney, Tax, StoredLines, WithAmounts;
    MoneyIsStoredExactly(NoteLines(n, x));
  }

  lemma StoredFx(gain: real, side: Side)
    ensures Net(StoredLines(FxLine(gain)), Some(Control(side))) == 0.0
  {
    hide Round2;
    StoredOfOne(Credit(FxGain, gain));
    StoredOfOne(Debit(FxLoss, -gain));
    NetOfOne(StoredEntry(Credit(FxGain, gain)), Some(Control(side)));
    NetOfOne(StoredEntry(Debit(FxLoss, -gain)), Some(Control(side)));
    assert Net(StoredLines([]), Some(Control(side))) == 0.0;
  }

  lemma StoredOfFour(a: Journal, b: Journal, c: Journal, d: Journal, account: Option<Account>)
    ensures Net(StoredLines(a + b + c + d), account) ==
            Net(StoredLines(a), account) + Net(StoredLines(b), account) + Net(StoredLines(c), account)
                + Net(StoredLines(d), account)
  {
    hide Net, StoredLines;
    StoredConcat(a + b + c, d);
    StoredConcat(a + b, c);
    StoredConcat(a, b);
    NetOfFour(StoredLines(a), StoredLines(b), StoredLines(c), StoredLines(d), account);
  }

  /** The stored lines of a payment, one by one. */
  lemma StoredPaymentSum(p: Payment, bills: seq<Invoice>, account: Option<Account>)
    requires PaymentAmounts(p, bills)
    ensures var settled, carrying := Allocated(p.allocations), Carrying(bills, p.allocations);
      var unapplied := p.amount - settled;
      Net(StoredLines(WithAmounts(PaymentLines(p, bills))), account) ==
        (if settled > 0.0 then Worth(StoredEntry(Debit(Payables, carrying)), account) else 0.0)
        + (if unapplied > 0.0 then Worth(StoredEntry(Debit(VendorAdvance, InRupees(unapplied, p.rate))), account)
           else 0.0)
        + Worth(StoredEntry(Credit(Bank, InRupees(p.amount, p.rate))), account)
        + Net(StoredLines(FxLine(PaymentGain(p, bills))), account)
  {
    hide InRupees, Net, Carrying, Allocated, PaymentGain, FxLine, StoredEntry, Worth, StoredLines, WithAmounts;
    PaymentProper(p, bills);
    StoredDrop(PaymentLines(p, bills), account);
    var settled, carrying := Allocated(p.allocations), Carrying(bills, p.allocations);
    var owed, advance := Debit(Payables, carrying), Debit(VendorAdvance, InRupees(p.amount - settled, p.rate));
    var bank, fx := Credit(Bank, InRupees(p.amount, p.rate)), FxLine(PaymentGain(p, bills));
    StoredOfFour(When(settled > 0.0, owed), When(p.amount - settled > 0.0, advance), [bank], fx, account);
    StoredWhen(settled > 0.0, owed, account);
    StoredWhen(p.amount - settled > 0.0, advance, account);
    StoredOfOne(bank);
    NetOfOne(StoredEntry(bank), account);
  }

  /** The stored lines of a receipt. */
  lemma StoredReceiptSum(r: Receipt, sales: seq<Invoice>, account: Option<Account>)
    requires ReceiptAmounts(r, sales)
    ensures var bankNet, carrying := Booked(r.amount - r.bankCharges, r.rate), Carrying(sales, r.allocations);
      var charges, tds := InRupees(r.bankCharges, r.rate), InRupees(r.tdsDeducted, r.rate);
      var advance := InRupees(r.unapplied, r.rate);
      Net(StoredLines(WithAmounts(ReceiptLines(r, sales))), account) ==
        (if bankNet > 0.0 then Worth(StoredEntry(Debit(Bank, bankNet)), account) else 0.0)
        + (if r.bankCharges > 0.0 then Worth(StoredEntry(Debit(Expense, charges)), account) else 0.0)
        + (if r.tdsDeducted > 0.0 then Worth(StoredEntry(Debit(TdsReceivable, tds)), account) else 0.0)
        + (if Allocated(r.allocations) > 0.0 then Worth(StoredEntry(Credit(Receivables, carrying)), account) else 0.0)
        + (if r.unapplied > 0.0 then Worth(StoredEntry(Credit(CustomerAdvance, advance)), account) else 0.0)
        + Net(StoredLines(FxLine(ReceiptGain(r, sales))), account)
  {
    hide InRupees, Booked, Net, Carrying, Allocated, ReceiptGain, FxLine, StoredEntry, Worth, StoredLines,
      WithAmounts;
    ReceiptProper(r, sales);
    StoredDrop(ReceiptLines(r, sales), account);
    var a := Booked(r.amount - r.bankCharges, r.rate);
    var bank, charges := Debit(Bank, a), Debit(Expense, InRupees(r.bankCharges, r.rate));
    var tds := Debit(TdsReceivable, InRupees(r.tdsDeducted, r.rate));
    var owed := Credit(Receivables, Carrying(sales, r.allocations));
    var advance, fx := Credit(CustomerAdvance, InRupees(r.unapplied, r.rate)), FxLine(ReceiptGain(r, sales));
    var first := When(a > 0.0, bank) + When(r.bankCharges > 0.0, charges) + When(r.tdsDeducted > 0.0, tds);
    StoredOfFour(first, When(Allocated(r.allocations) > 0.0, owed), When(r.unapplied > 0.0, advance), fx, account);
    StoredOfFour(When(a > 0.0, bank), When(r.bankCharges > 0.0, charges), When(r.tdsDeducted > 0.0, tds), [], account);
    assert first + [] == first;
    StoredNone(account);
    StoredWhen(a > 0.0, bank, account);
    StoredWhen(r.bankCharges > 0.0, charges, account);
    StoredWhen(r.tdsDeducted > 0.0, tds, account);
    StoredWhen(Allocated(r.allocations) > 0.0, owed, account);
    StoredWhen(r.unapplied > 0.0, advance, account);
  }

  /** A payment moves the stored payables account by its carrying amount, rounded. */
  lemma StoredPaymentControl(p: Payment, bills: seq<Invoice>, side: Side)
    requires PaymentAmounts(p, bills)
    ensures Net(StoredLines(WithAmounts(PaymentLines(p, bills))), Some(Control(side))) ==
            if side.Payable? then Round2(Carrying(bills, p.allocations)) else 0.0
  {
    hide InRupees, Net, Carrying, Allocated, PaymentGain, PaymentLines, FxLine, Round2, StoredLines, WithAmounts;
    StoredPaymentSum(p, bills, Some(Control(side)));
    StoredFx(PaymentGain(p, bills), side);
    ZeroIsMoney();
    Round2OfMoney(0.0);
    CarryingSign(bills, p.allocations);
  }

  /** And a receipt the stored receivables account. */
  lemma StoredReceiptControl(r: Receipt, sales: seq<Invoice>, side: Side)
    requires ReceiptAmounts(r, sales)
    ensures Net(StoredLines(WithAmounts(ReceiptLines(r, sales))), Some(Control(side))) ==
            if side.Receivable? then -Round2(Carrying(sales, r.allocations)) else 0.0
  {
    hide InRupees, Booked, Net, Carrying, Allocated, ReceiptGain, ReceiptLines, FxLine, Round2, StoredLines,
      WithAmounts;
    StoredReceiptSum(r, sales, Some(Control(side)));
    StoredFx(ReceiptGain(r, sales), side);
    ZeroIsMoney();
    Round2OfMoney(0.0);
    CarryingSign(sales, r.allocations);
  }

  lemma StoredNone(account: Option<Account>)
    ensures Net(StoredLines([]), account) == 0.0
  {
  }

  // ---------------------------------------------------------------- runs

  /** Half a cent for each settlement; nothing when every rate is 1. */
  ghost predicate StoredOk(s: Store, side: Side) {
    && Near(StoredBalance(s, side), Balance(s, side), HalfCents(Settlements(s, side)))
    && (AllAtPar(Invoices(s, side)) ==> StoredBalance(s, side) == Balance(s, side))
  }

  /** The side of the store is as before, but for one more journal and `n` settlements. */
  lemma OneJournal(s: Store, t: Store, j: Journal, side: Side, n: nat)
    requires StoredOk(s, side) && t.journals == s.journals + [j] && Settlements(t, side) == Settlements(s, side) + n
    requires Near(Net(StoredLines(j), Some(Control(side))), Net(j, Some(Control(side))), HalfCents(n))
    requires AllAtPar(Invoices(t, side)) ==>
               AllAtPar(Invoices(s, side)) && Net(StoredLines(j), Some(Control(side))) == Net(j, Some(Control(side)))
    ensures StoredOk(t, side)
  {
    hide Net, StoredLines, StoredNet, LedgerNet, HalfCents, Settlements, AllAtPar;
    StoredAppend(s.journals, j, Control(side));
    LedgerAppend(s.journals, j, Control(side));
    HalfCentsAdd(Settlements(s, side), n);
  }

  lemma NoJournal(s: Store, t: Store, side: Side)
    requires StoredOk(s, side) && t.journals == s.journals && Settlements(t, side) == Settlements(s, side)
    requires AllAtPar(Invoices(t, side)) ==> AllAtPar(Invoices(s, side))
    ensures StoredOk(t, side)
  {
  }

  lemma {:induction false} CarryingAtPar(invoices: seq<Invoice>, allocations: seq<Allocation>)
    requires Refer(allocations, |invoices|) && AllAtPar(invoices)
    requires forall i :: 0 <= i < |allocations| ==> IsMoney(allocations[i].amount)
    ensures IsMoney(Carrying(invoices, allocations))
  {
    if allocations == [] {
      ZeroIsMoney();
    } else {
      var init, last := allocations[..|allocations| - 1], allocations[|allocations| - 1];
      hide IsMoney;
      CarryingAtPar(invoices, init);
      assert InRupees(last.amount, invoices[last.invoice].rate) == last.amount;
      MoneyClosed(Carrying(invoices, init), last.amount);
    }
  }

  /** What storing the journal of a payment does to a control account. */
  lemma PaymentDelta(p: Payment, bills: seq<Invoice>, side: Side)
    requires InvoicesOk(bills) && PaymentOk(bills, p) && Posting(PaymentLines(p, bills)).Success?
    ensures var j, c := Posting(PaymentLines(p, bills)).value, Control(side);
      && Near(Net(StoredLines(j), Some(c)), Net(j, Some(c)), if side.Payable? then 0.005 else 0.0)
      && (AllAtPar(bills) ==> Net(StoredLines(j), Some(c)) == Net(j, Some(c)))
  {
    hide IsMoney, PaymentLines, Carrying, Round2, AllAtPar, Net, StoredLines, Balanced;
    AllocationsHaveTerms(bills, p.allocations);
    PaymentControl(p, bills);
    PaymentProper(p, bills);
    PostedNet(PaymentLines(p, bills), Control(side));
    StoredPaymentControl(p, bills, side);
    Round2Nearest(Carrying(bills, p.allocations));
    Round2OfMoney(Carrying(bills, p.allocations));
    if AllAtPar(bills) {
      CarryingAtPar(bills, p.allocations);
    }
  }

  lemma PaymentStored(s: Store, id: nat, side: Side)
    requires Inv(s) && StoredOk(s, side) && ExecutePayment(s, id).Success?
    ensures StoredOk(ExecutePayment(s, id).value, side)
  {
    hide StoredOk, Reconciled, PaymentLines, PaymentGain, Posting, Settle, AllAtPar, Net, StoredLines, HalfCents;
    var t, p := ExecutePayment(s, id).value, s.payments[id];
    assert PaymentOk(s.bills, p);
    PaymentDelta(p, s.bills, side);
    PaymentRows(s, id);
    ExecutedUpdate(s.payments, id);
    HalfCentsAdd(0, 0);
    hide Inv, PaymentOk, InvoicesOk;
    OneJournal(s, t, Posting(PaymentLines(p, s.bills)).value, side, if side.Payable? then 1 else 0);
  }

  /** What storing the journal of a receipt does to a control account. */
  lemma ReceiptDelta(r: Receipt, sales: seq<Invoice>, side: Side)
    requires InvoicesOk(sales) && ReceiptOk(sales, r) && Posting(ReceiptLines(r, sales)).Success?
    ensures var j, c := Posting(ReceiptLines(r, sales)).value, Control(side);
      && Near(Net(StoredLines(j), Some(c)), Net(j, Some(c)), if side.Receivable? then 0.005 else 0.0)
      && (AllAtPar(sales) ==> Net(StoredLines(j), Some(c)) == Net(j, Some(c)))
  {
    hide IsMoney, ReceiptLines, Carrying, Round2, AllAtPar, Net, StoredLines, Balanced;
    AllocationsHaveTerms(sales, r.allocations);
    ReceiptControl(r, sales);
    ReceiptProper(r, sales);
    PostedNet(ReceiptLines(r, sales), Control(side));
    StoredReceiptControl(r, sales, side);
    Round2Nearest(Carrying(sales, r.allocations));
    Round2OfMoney(Carrying(sales, r.allocations));
    if AllAtPar(sales) {
      CarryingAtPar(sales, r.allocations);
    }
  }

  lemma ReceiptStored(s: Store, id: nat, side: Side)
    requires Inv(s) && StoredOk(s, side) && PostReceipt(s, id).Success?
    ensures StoredOk(PostReceipt(s, id).value, side)
  {
    hide StoredOk, Reconciled, ReceiptLines, ReceiptGain, Posting, Settle, AllAtPar, Net, StoredLines, HalfCents;
    var t, r := PostReceipt(s, id).value, s.receipts[id];
    assert ReceiptOk(s.sales, r);
    ReceiptDelta(r, s.sales, side);
    ReceiptRows(s, id);
    PostedUpdate(s.receipts, id);
    HalfCentsAdd(0, 0);
    hide Inv, ReceiptOk, InvoicesOk;
    OneJournal(s, t, Posting(ReceiptLines(r, s.sales)).value, side, if side.Receivable? then 1 else 0);
  }

  /** The journal of a bill, sales invoice or note is stored as it is. */
  lemma DocumentStored(s: Store, op: Op, side: Side)
    requires Inv(s) && StoredOk(s, side) && Apply(s, op).Success?
    requires op.PostBillOp? || op.PostSaleOp? || op.PostNoteOp?
    ensures StoredOk(Apply(s, op).value, side)
  {
    hide StoredOk, IsMoney, Reconciled, BillLines, SalesLines, NoteLines, AllAtPar, Net, StoredLines, Balanced,
      HalfCents, Noted, Booked, WithAmounts;
    var t := Apply(s, op).value;
    HalfCentsAdd(0, 0);
    match op
    case PostBillOp(id) =>
      SameRates(s.bills, id, s.bills[id].(status := Open));
      BillStoredAsPosted(s.bills[id]);
      OneJournal(s, t, Posting(BillLines(s.bills[id])).value, side, 0);
    case PostSaleOp(id) =>
      SameRates(s.sales, id, s.sales[id].(status := Open));
      SaleStoredAsPosted(s.sales[id], s.sales[id].outstanding);
      OneJournal(s, t, Posting(SalesLines(s.sales[id], s.sales[id].outstanding)).value, side, 0);
    case PostNoteOp(id) =>
      var n := s.notes[id];
      var x := Invoices(s, n.side)[n.invoice];
      NotedRate(x, n);
      SameRates(Invoices(s, n.side), n.invoice, Noted(x, n));
      NoteStoredAsPosted(n, x);
      OneJournal(s, t, Posting(NoteLines(n, x)).value, side, 0);
  }

  lemma NotedRate(x: Invoice, n: Note)
    ensures Noted(x, n).rate == x.rate
  {
  }

  lemma CreationStored(s: Store, op: Op, side: Side)
    requires StoredOk(s, side) && Apply(s, op).Success?
    requires op.CreateBillOp? || op.CreateSaleOp? || op.CreatePaymentOp? || op.CreateReceiptOp? || op.CreateNoteOp?
    ensures StoredOk(Apply(s, op).value, side)
  {
    var t := Apply(s, op).value;
    hide StoredOk, Bill, Stored, Sale, StoredAllocations, Round2, StoredTaxes, CheckAllocations, Allocated, Positive,
      Once, ValidBillLines, ValidSalesLines;
    if Invoices(t, side) != Invoices(s, side) {
      AtParPrefix(Invoices(s, side), Invoices(t, side)[|Invoices(s, side)|]);
    }
    hide AllAtPar;
    assert t.payments[..|s.payments|] == s.payments && t.receipts[..|s.receipts|] == s.receipts;
    NoJournal(s, t, side);
  }

  lemma TdsStored(s: Store, id: nat, base: real, percent: real, side: Side)
    requires Inv(s) && StoredOk(s, side) && SetTds(s, id, base, percent).Success?
    ensures StoredOk(SetTds(s, id, base, percent).value, side)
  {
    SetTdsKeeps(s, id, base, percent);
    hide Inv, StoredOk, AllAtPar, TdsOn;
    NoJournal(s, SetTds(s, id, base, percent).value, side);
  }

  lemma StepStored(s: Store, op: Op, side: Side)
    requires Inv(s) && StoredOk(s, side)
    ensures StoredOk(Step(s, op), side)
  {
    hide Inv, StoredOk, ExecutePayment, PostReceipt, CreateBill, CreateSale, CreatePayment, CreateReceipt,
      CreateNote, SetTds, PostBill, PostSale, PostNote;
    if Apply(s, op).Success? {
      match op
      case ExecutePaymentOp(id) => PaymentStored(s, id, side);
      case PostReceiptOp(id) => ReceiptStored(s, id, side);
      case SetTdsOp(id, base, percent) => TdsStored(s, id, base, percent, side);
      case PostBillOp(_) => DocumentStored(s, op, side);
      case PostSaleOp(_) => DocumentStored(s, op, side);
      case PostNoteOp(_) => DocumentStored(s, op, side);
      case _ => CreationStored(s, op, side);
    }
  }

  lemma {:induction false} RunStored(s: Store, ops: seq<Op>, side: Side)
    requires Inv(s) && StoredOk(s, side)
    ensures StoredOk(Run(s, ops), side)
    decreases |ops|
  {
    hide Inv, StoredOk, Step;
    if ops != [] {
      StepKeeps(s, ops[0]);
      StepStored(s, ops[0], side);
      RunStored(Step(s, ops[0]), ops[1..], side);
    }
  }

  /**
   In every run each control account, summed over the journal lines as they are stored, is what
   the posted invoices have outstanding at booking rates, to within half a cent for each posted
   invoice, posted note and settlement, and exactly when all rates are 1.
   */
  lemma EveryRunReconcilesStored(fxConfigured: bool, ops: seq<Op>, side: Side)
    ensures var s := Run(Empty(fxConfigured), ops);
      var rounded := PostedInvoices(Invoices(s, side)) + PostedNotes(s.notes, side) + Settlements(s, side);
      && Near(StoredBalance(s, side), Subledger(Invoices(s, side)), rounded as real * 0.005)
      && ((forall i :: 0 <= i < |Invoices(s, side)| ==> Invoices(s, side)[i].rate == 1.0) ==>
            StoredBalance(s, side) == Subledger(Invoices(s, side)))
  {
    var e := Empty(fxConfigured);
    hide Run, Inv, StoredOk, StoredBalance, Subledger, PostedInvoices, PostedNotes, Settlements;
    InvEmpty(fxConfigured);
    EmptyStored(fxConfigured, side);
    RunKeeps(e, ops);
    RunStored(e, ops, side);
    ReachableReconciled(Run(e, ops), side);
    StoredReconciles(Run(e, ops), side);
  }

  lemma EmptyStored(fxConfigured: bool, side: Side)
    ensures StoredOk(Empty(fxConfigured), side)
  {
  }

  lemma ReachableReconciled(s: Store, side: Side)
    ensures Inv(s) ==> Reconciled(s, side)
  {
  }

  lemma StoredReconciles(s: Store, side: Side)
    requires Reconciled(s, side) && StoredOk(s, side)
    ensures var rounded := PostedInvoices(Invoices(s, side)) + PostedNotes(s.notes, side) + Settlements(s, side);
      && Near(StoredBalance(s, side), Subledger(Invoices(s, side)), rounded as real * 0.005)
      && (AllAtPar(Invoices(s, side)) ==> StoredBalance(s, side) == Subledger(Invoices(s, side)))
  {
    hide Balance, StoredBalance, Subledger, PostedInvoices, PostedNotes, Settlements, AllAtPar;
    HalfCentsAdd(Roundings(s, side), Settlements(s, side));
  }
}
