/** The control accounts, receivables (1100) and payables (2000), against the invoices they stand for. */
module ControlAccounts {
  import opened Wrappers
  import opened Decimals
  import opened FinancePosting
  import opened FinancePostingLaws
  import opened PostingGate

  // ---------------------------------------------------------------- both sides of the comparison

  function Control(side: Side): Account {
    if side.Receivable? then Receivables else Payables
  }

  function Other(side: Side): Side {
    if side.Receivable? then Payable else Receivable
  }

  /** Debits minus credits of an account over all journals. */
  function LedgerNet(journals: seq<Journal>, account: Account): real {
    if journals == [] then 0.0
    else LedgerNet(journals[..|journals| - 1], account) + Net(journals[|journals| - 1], Some(account))
  }

  /** The balance on the side's normal side: debit for receivables, credit for payables. */
  function Balance(s: Store, side: Side): real {
    if side.Receivable? then LedgerNet(s.journals, Receivables) else -LedgerNet(s.journals, Payables)
  }

  function Standing(x: Invoice): real {
    if x.status.Unposted? then 0.0 else InRupees(x.outstanding, x.rate)
  }

  /** What the posted invoices have outstanding, each at its booking rate. */
  function Subledger(invoices: seq<Invoice>): real {
    if invoices == [] then 0.0 else Subledger(invoices[..|invoices| - 1]) + Standing(invoices[|invoices| - 1])
  }

  function PostedInvoices(invoices: seq<Invoice>): nat {
    if invoices == [] then 0
    else PostedInvoices(invoices[..|invoices| - 1]) + if invoices[|invoices| - 1].status.Unposted? then 0 else 1
  }

  function PostedNotes(notes: seq<Note>, side: Side): nat {
    if notes == [] then 0
    else
      var last := notes[|notes| - 1];
      PostedNotes(notes[..|notes| - 1], side) + if last.posted && last.side == side then 1 else 0
  }

  // ---------------------------------------------------------------- sums

  lemma {:induction false} SubledgerUpdate(invoices: seq<Invoice>, i: nat, x: Invoice)
    requires i < |invoices|
    ensures Subledger(invoices[i := x]) == Subledger(invoices) - Standing(invoices[i]) + Standing(x)
    ensures PostedInvoices(invoices[i := x]) ==
            PostedInvoices(invoices) - (if invoices[i].status.Unposted? then 0 else 1)
                + if x.status.Unposted? then 0 else 1
  {
    hide Standing;
    var n := |invoices| - 1;
    if i == n {
      assert invoices[i := x][..n] == invoices[..n];
    } else {
      assert invoices[i := x][..n] == invoices[..n][i := x];
      SubledgerUpdate(invoices[..n], i, x);
    }
  }

  lemma SubledgerAppend(invoices: seq<Invoice>, x: Invoice)
    requires x.status.Unposted?
    ensures Subledger(invoices + [x]) == Subledger(invoices)
    ensures PostedInvoices(invoices + [x]) == PostedInvoices(invoices)
  {
    assert (invoices + [x])[..|invoices|] == invoices;
  }

  lemma LedgerAppend(journals: seq<Journal>, j: Journal, account: Account)
    ensures LedgerNet(journals + [j], account) == LedgerNet(journals, account) + Net(j, Some(account))
  {
    assert (journals + [j])[..|journals|] == journals;
  }

  lemma NotesAppend(notes: seq<Note>, n: Note, side: Side)
    requires !n.posted
    ensures PostedNotes(notes + [n], side) == PostedNotes(notes, side)
  {
    assert (notes + [n])[..|notes|] == notes;
  }

  lemma {:induction false} NotesUpdate(notes: seq<Note>, i: nat, side: Side)
    requires i < |notes| && !notes[i].posted
    ensures PostedNotes(notes[i := notes[i].(posted := true)], side) ==
            PostedNotes(notes, side) + if notes[i].side == side then 1 else 0
  {
    var n, x := |notes| - 1, notes[i].(posted := true);
    if i == n {
      assert notes[i := x][..n] == notes[..n];
    } else {
      assert notes[i := x][..n] == notes[..n][i := x];
      NotesUpdate(notes[..n], i, side);
    }
  }

  // ---------------------------------------------------------------- settlement

  predicate Named(allocations: seq<Allocation>, i: nat) {
    exists k :: 0 <= k < |allocations| && allocations[k].invoice == i
  }

  /** The amount of the last allocation to the invoice. */
  function LastAmount(allocations: seq<Allocation>, i: nat): real
    requires Named(allocations, i)
  {
    var last := allocations[|allocations| - 1];
    if last.invoice == i then last.amount else LastAmount(allocations[..|allocations| - 1], i)
  }

  /** The amounts, at booking rates, of allocations that a later one to the same invoice overwrites. */
  function Overwritten(invoices: seq<Invoice>, allocations: seq<Allocation>): real
    requires Refer(allocations, |invoices|)
  {
    if allocations == [] then 0.0
    else
      var init, last := allocations[..|allocations| - 1], allocations[|allocations| - 1];
      Overwritten(invoices, init) +
      if Named(init, last.invoice) then InRupees(LastAmount(init, last.invoice), invoices[last.invoice].rate) else 0.0
  }

  ghost predicate AllPosted(invoices: seq<Invoice>, allocations: seq<Allocation>)
    requires Refer(allocations, |invoices|)
  {
    forall k :: 0 <= k < |allocations| ==> !invoices[allocations[k].invoice].status.Unposted?
  }

  /** Each invoice named is left with its outstanding amount less the last amount allocated to it. */
  lemma {:induction false} SettleAt(loaded: seq<Invoice>, allocations: seq<Allocation>, i: nat)
    requires Refer(allocations, |loaded|) && i < |loaded|
    ensures var x := Settle(loaded, allocations)[i];
      if Named(allocations, i) then
        x == loaded[i].(outstanding := loaded[i].outstanding - LastAmount(allocations, i), paid := x.paid,
                        status := x.status)
        && !x.status.Unposted?
      else x == loaded[i]
  {
    if allocations != [] {
      var init, last := allocations[..|allocations| - 1], allocations[|allocations| - 1];
      SettleAt(loaded, init, i);
      assert allocations == init + [last];
      if last.invoice != i && Named(allocations, i) {
        var k :| 0 <= k < |allocations| && allocations[k].invoice == i;
        assert init[k].invoice == i;
      }
      if Named(init, i) {
        var k :| 0 <= k < |init| && init[k].invoice == i;
        assert allocations[k].invoice == i;
      }
    }
  }

  /** The invoice named next, before it is paid. */
  lemma BeforePay(loaded: seq<Invoice>, init: seq<Allocation>, i: nat)
    requires Refer(init, |loaded|) && i < |loaded| && !loaded[i].status.Unposted?
    ensures !Settle(loaded, init)[i].status.Unposted? && Settle(loaded, init)[i].rate == loaded[i].rate
    ensures Standing(Settle(loaded, init)[i]) == InRupees(loaded[i].outstanding, loaded[i].rate)
              - if Named(init, i) then InRupees(LastAmount(init, i), loaded[i].rate) else 0.0
  {
    hide InRupees, Settle, LastAmount, Named, Refer;
    SettleAt(loaded, init, i);
    if Named(init, i) {
      ConvertsSum(loaded[i].outstanding, LastAmount(init, i), loaded[i].rate);
    }
  }

  /** And after. */
  lemma AfterPay(loaded: seq<Invoice>, invoices: seq<Invoice>, a: Allocation)
    requires a.invoice < |loaded| == |invoices| && invoices[a.invoice].rate == loaded[a.invoice].rate
    ensures var x := loaded[a.invoice];
      && !Pay(loaded, invoices, a)[a.invoice].status.Unposted?
      && Standing(Pay(loaded, invoices, a)[a.invoice]) == InRupees(x.outstanding, x.rate) - InRupees(a.amount, x.rate)
  {
    hide InRupees;
    ConvertsSum(loaded[a.invoice].outstanding, a.amount, loaded[a.invoice].rate);
  }

  /** What one more allocation changes. */
  lemma PayMoves(loaded: seq<Invoice>, init: seq<Allocation>, last: Allocation)
    requires Refer(init, |loaded|) && last.invoice < |loaded| && !loaded[last.invoice].status.Unposted?
    ensures var before, x := Settle(loaded, init), loaded[last.invoice];
      var after := Pay(loaded, before, last);
      && PostedInvoices(after) == PostedInvoices(before)
      && Subledger(after) == Subledger(before) - InRupees(last.amount, x.rate)
                             + if Named(init, last.invoice) then InRupees(LastAmount(init, last.invoice), x.rate)
                                 else 0.0
  {
    hide Subledger, PostedInvoices, InRupees, Settle, LastAmount, Named, Refer, Standing;
    BeforePay(loaded, init, last.invoice);
    AfterPay(loaded, Settle(loaded, init), last);
    SubledgerUpdate(Settle(loaded, init), last.invoice, Pay(loaded, Settle(loaded, init), last)[last.invoice]);
  }

  /**
   A settlement takes its carrying amount off the subledger, except for what a second
   allocation to the same invoice overwrites.
   */
  lemma {:induction false} SettleMoves(loaded: seq<Invoice>, allocations: seq<Allocation>)
    requires Refer(allocations, |loaded|) && AllPosted(loaded, allocations)
    ensures Subledger(Settle(loaded, allocations)) ==
            Subledger(loaded) - Carrying(loaded, allocations) + Overwritten(loaded, allocations)
    ensures PostedInvoices(Settle(loaded, allocations)) == PostedInvoices(loaded)
  {
    hide Subledger, PostedInvoices, InRupees, LastAmount, Named;
    if allocations != [] {
      var init, last := allocations[..|allocations| - 1], allocations[|allocations| - 1];
      SettleMoves(loaded, init);
      PayMoves(loaded, init, last);
    }
  }

  ghost predicate PositiveTerms(invoices: seq<Invoice>, allocations: seq<Allocation>)
    requires Refer(allocations, |invoices|)
  {
    forall k :: 0 <= k < |allocations| ==> allocations[k].amount > 0.0 && invoices[allocations[k].invoice].rate > 0.0
  }

  lemma {:induction false} LastAmountPositive(allocations: seq<Allocation>, i: nat)
    requires Named(allocations, i) && forall k :: 0 <= k < |allocations| ==> allocations[k].amount > 0.0
    ensures LastAmount(allocations, i) > 0.0
  {
    if allocations[|allocations| - 1].invoice != i {
      LastAmountPositive(allocations[..|allocations| - 1], i);
    }
  }

  lemma {:induction false} NothingOverwritten(invoices: seq<Invoice>, allocations: seq<Allocation>)
    requires Refer(allocations, |invoices|)
    requires Once(allocations)
    ensures Overwritten(invoices, allocations) == 0.0
  {
    if allocations != [] {
      NothingOverwritten(invoices, allocations[..|allocations| - 1]);
    }
  }

  lemma {:induction false} SomethingOverwritten(invoices: seq<Invoice>, allocations: seq<Allocation>)
    requires Refer(allocations, |invoices|) && PositiveTerms(invoices, allocations)
    ensures Overwritten(invoices, allocations) >= 0.0
    ensures !Once(allocations) ==> Overwritten(invoices, allocations) > 0.0
  {
    if allocations != [] {
      var init, last := allocations[..|allocations| - 1], allocations[|allocations| - 1];
      assert allocations == init + [last];
      SomethingOverwritten(invoices, init);
      if Named(init, last.invoice) {
        LastAmountPositive(init, last.invoice);
        ProductPositive(LastAmount(init, last.invoice), invoices[last.invoice].rate);
      } else if Once(init) {
        assert Once(allocations) by {
          forall i, j | 0 <= i < j < |allocations|
            ensures allocations[i].invoice != allocations[j].invoice
          {
            assert init[i] == allocations[i];
          }
        }
      }
      hide InRupees;
    }
  }

  lemma ProductPositive(x: real, rate: real)
    requires x > 0.0 && rate > 0.0
    ensures InRupees(x, rate) > 0.0
  {
  }

  /** So a settlement keeps subledger and control account together exactly when it names no invoice twice. */
  lemma SettlementConservesIff(loaded: seq<Invoice>, allocations: seq<Allocation>)
    requires Refer(allocations, |loaded|) && AllPosted(loaded, allocations) && PositiveTerms(loaded, allocations)
    ensures Subledger(Settle(loaded, allocations)) == Subledger(loaded) - Carrying(loaded, allocations) <==>
              Once(allocations)
  {
    SettleMoves(loaded, allocations);
    SomethingOverwritten(loaded, allocations);
    if Once(allocations) {
      NothingOverwritten(loaded, allocations);
    }
  }

  // ---------------------------------------------------------------- the invariant

  ghost predicate InvoiceOk(x: Invoice) {
    IsMoney(x.outstanding) && x.rate > 0.0
  }

  ghost predicate InvoicesOk(invoices: seq<Invoice>) {
    forall i :: 0 <= i < |invoices| ==> InvoiceOk(invoices[i])
  }

  /** The allocations of a stored settlement. */
  ghost predicate AllocationsOk(invoices: seq<Invoice>, allocations: seq<Allocation>) {
    && Refer(allocations, |invoices|) && Once(allocations) && AllPosted(invoices, allocations)
    && forall k :: 0 <= k < |allocations| ==> allocations[k].amount > 0.0 && IsMoney(allocations[k].amount)
  }

  lemma AllocationsHaveTerms(invoices: seq<Invoice>, allocations: seq<Allocation>)
    requires InvoicesOk(invoices) && AllocationsOk(invoices, allocations)
    ensures AllocationTerms(invoices, allocations) && NonNegative(allocations)
  {
    hide IsMoney;
  }

  /** A bill not yet posted has amounts it can be accepted with. */
  ghost predicate PendingOk(bills: seq<Invoice>) {
    forall i :: 0 <= i < |bills| && bills[i].status.Unposted? ==> BillAmounts(bills[i]) && IsMoney(bills[i].tds)
  }

  ghost predicate PaymentOk(bills: seq<Invoice>, p: Payment) {
    AllocationsOk(bills, p.allocations) && p.rate > 0.0 && p.amount > 0.0
  }

  ghost predicate ReceiptOk(sales: seq<Invoice>, r: Receipt) {
    && AllocationsOk(sales, r.allocations)
    && r.rate > 0.0 && r.bankCharges >= 0.0 && r.tdsDeducted >= 0.0 && r.unapplied >= 0.0
    && (r.allocations != [] || r.unapplied > 0.0)
  }

  ghost predicate NoteOk(s: Store, n: Note) {
    && IsMoney(n.total) && n.total > 0.0 && n.taxable >= 0.0 && Tax(n.taxes) >= 0.0
    && n.invoice < |Invoices(s, n.side)| && !Invoices(s, n.side)[n.invoice].status.Unposted?
  }

  ghost predicate RowsOk(s: Store) {
    && InvoicesOk(s.bills) && InvoicesOk(s.sales) && PendingOk(s.bills)
    && (forall i :: 0 <= i < |s.payments| ==> PaymentOk(s.bills, s.payments[i]))
    && (forall i :: 0 <= i < |s.receipts| ==> ReceiptOk(s.sales, s.receipts[i]))
    && (forall i :: 0 <= i < |s.notes| ==> NoteOk(s, s.notes[i]))
  }

  ghost predicate AllAtPar(invoices: seq<Invoice>) {
    forall i :: 0 <= i < |invoices| ==> invoices[i].rate == 1.0
  }

  function Drift(s: Store, side: Side): real {
    Balance(s, side) - Subledger(Invoices(s, side))
  }

  function Roundings(s: Store, side: Side): nat {
    PostedInvoices(Invoices(s, side)) + PostedNotes(s.notes, side)
  }

  function HalfCents(n: nat): real {
    n as real * 0.005
  }

  /** Half a cent for each rounding; nothing when every rate is 1. */
  ghost predicate Reconciled(s: Store, side: Side) {
    && -HalfCents(Roundings(s, side)) <= Drift(s, side) <= HalfCents(Roundings(s, side))
    && (AllAtPar(Invoices(s, side)) ==> Drift(s, side) == 0.0)
  }

  ghost predicate Inv(s: Store) {
    RowsOk(s) && Reconciled(s, Receivable) && Reconciled(s, Payable)
  }

  /** A step adds `n` roundings, of at most half a cent each, and rounds nothing at par. */
  ghost predicate DriftsBy(s: Store, t: Store, side: Side, n: nat) {
    && Roundings(t, side) == Roundings(s, side) + n
    && -HalfCents(n) <= Drift(t, side) - Drift(s, side) <= HalfCents(n)
    && (AllAtPar(Invoices(t, side)) ==> AllAtPar(Invoices(s, side)) && Drift(t, side) == Drift(s, side))
  }

  lemma HalfCentsAdd(m: nat, n: nat)
    ensures HalfCents(m + n) == HalfCents(m) + HalfCents(n)
    ensures HalfCents(0) == 0.0 && HalfCents(1) == 0.005
  {
  }

  /** From one store to a later one: with n more roundings the drift moves by at most n half cents. */
  ghost predicate Drifts(s: Store, t: Store, side: Side) {
    Roundings(t, side) >= Roundings(s, side) && DriftsBy(s, t, side, Roundings(t, side) - Roundings(s, side))
  }

  lemma DriftsOf(s: Store, t: Store, side: Side, n: nat)
    requires DriftsBy(s, t, side, n)
    ensures Drifts(s, t, side)
  {
    hide Drift, Roundings, AllAtPar, HalfCents;
  }

  lemma DriftsKeepInv(s: Store, t: Store)
    requires Inv(s) && RowsOk(t) && Drifts(s, t, Receivable) && Drifts(s, t, Payable)
    ensures Inv(t)
  {
    hide RowsOk, Drift, Roundings, AllAtPar;
    HalfCentsAdd(Roundings(s, Receivable), Roundings(t, Receivable) - Roundings(s, Receivable));
    HalfCentsAdd(Roundings(s, Payable), Roundings(t, Payable) - Roundings(s, Payable));
    hide HalfCents;
  }

  /** Nothing about this side's invoices, notes or control account changes. */
  lemma Undisturbed(s: Store, t: Store, side: Side)
    requires Drift(t, side) == Drift(s, side) && Roundings(t, side) == Roundings(s, side)
    requires AllAtPar(Invoices(t, side)) ==> AllAtPar(Invoices(s, side))
    ensures DriftsBy(s, t, side, 0) && Drifts(s, t, side)
  {
    hide Drift, Roundings, AllAtPar;
    HalfCentsAdd(0, 0);
  }

  // ---------------------------------------------------------------- control-account lines of each journal

  lemma BillControl(x: Invoice)
    ensures Net(BillLines(x), Some(Payables)) == -Booked(x.outstanding, x.rate)
    ensures Net(BillLines(x), Some(Receivables)) == 0.0
  {
    hide Booked, Tax, Net, BillLines;
    BillNet(x, Some(Payables));
    BillNet(x, Some(Receivables));
  }

  lemma SalesControl(x: Invoice, total: real)
    ensures Net(SalesLines(x, total), Some(Receivables)) == Booked(total, x.rate)
    ensures Net(SalesLines(x, total), Some(Payables)) == 0.0
  {
    hide Booked, Tax, Net, SalesLines;
    SalesNet(x, total, Some(Payables));
    SalesNet(x, total, Some(Receivables));
  }

  ghost predicate NonNegative(allocations: seq<Allocation>) {
    forall k :: 0 <= k < |allocations| ==> allocations[k].amount >= 0.0
  }

  lemma PaymentControl(p: Payment, bills: seq<Invoice>)
    requires Refer(p.allocations, |bills|) && NonNegative(p.allocations)
    ensures Net(PaymentLines(p, bills), Some(Payables)) == Carrying(bills, p.allocations)
    ensures Net(PaymentLines(p, bills), Some(Receivables)) == 0.0
  {
    hide Carrying, Allocated, InRupees, Net, PaymentLines, FxLine, PaymentGain, Refer;
    CarryingOfNothing(bills, p.allocations);
    NetFx(PaymentGain(p, bills), Some(Payables));
    NetFx(PaymentGain(p, bills), Some(Receivables));
    PaymentNet(p, bills, Some(Payables));
    PaymentNet(p, bills, Some(Receivables));
  }

  lemma ReceiptControl(r: Receipt, sales: seq<Invoice>)
    requires Refer(r.allocations, |sales|) && NonNegative(r.allocations)
    ensures Net(ReceiptLines(r, sales), Some(Receivables)) == -Carrying(sales, r.allocations)
    ensures Net(ReceiptLines(r, sales), Some(Payables)) == 0.0
  {
    hide Carrying, Allocated, InRupees, Net, ReceiptLines, FxLine, ReceiptGain, Booked, Refer;
    CarryingOfNothing(sales, r.allocations);
    NetFx(ReceiptGain(r, sales), Some(Payables));
    NetFx(ReceiptGain(r, sales), Some(Receivables));
    ReceiptNet(r, sales, Some(Payables));
    ReceiptNet(r, sales, Some(Receivables));
  }

  lemma NoteControl(n: Note, x: Invoice)
    ensures var booked := Booked(n.total, x.rate);
      Net(NoteLines(n, x), Some(Control(n.side))) == if n.side.Receivable? == n.increase then booked else -booked
    ensures Net(NoteLines(n, x), Some(Control(Other(n.side)))) == 0.0
  {
    hide Booked, Tax, Net, NoteLines;
    NoteNet(n, x, Some(Receivables));
    NoteNet(n, x, Some(Payables));
  }

  /** Booking an amount with two decimals rounds by at most half a cent, and not at par. */
  lemma BookedRounding(x: real, rate: real)
    requires IsMoney(x)
    ensures -0.005 <= Booked(x, rate) - InRupees(x, rate) <= 0.005
    ensures rate == 1.0 ==> Booked(x, rate) == InRupees(x, rate)
  {
    BookedNear(x, rate);
    Round2OfMoney(x);
    assert InRupees(x, 1.0) == x;
    hide Round2, IsMoney, InRupees;
  }

  // ---------------------------------------------------------------- rows

  /** Invoices are only added, and stay posted. */
  ghost predicate Extends(a: seq<Invoice>, b: seq<Invoice>) {
    |a| <= |b| && forall i :: 0 <= i < |a| && !a[i].status.Unposted? ==> !b[i].status.Unposted?
  }

  lemma RowsKept(s: Store, t: Store)
    requires RowsOk(s) && InvoicesOk(t.bills) && InvoicesOk(t.sales) && PendingOk(t.bills)
    requires Extends(s.bills, t.bills) && Extends(s.sales, t.sales)
    requires forall i :: 0 <= i < |t.payments| ==>
               || (i < |s.payments| && t.payments[i] == s.payments[i].(executed := t.payments[i].executed))
               || PaymentOk(t.bills, t.payments[i])
    requires forall i :: 0 <= i < |t.receipts| ==>
               || (i < |s.receipts| && t.receipts[i] == s.receipts[i].(posted := t.receipts[i].posted))
               || ReceiptOk(t.sales, t.receipts[i])
    requires forall i :: 0 <= i < |t.notes| ==>
               || (i < |s.notes| && t.notes[i] == s.notes[i].(posted := t.notes[i].posted))
               || NoteOk(t, t.notes[i])
    ensures RowsOk(t)
  {
    hide InvoiceOk, IsMoney;
  }

  /** An invoice is replaced by one in the same standing or a later one. */
  lemma OneInvoice(invoices: seq<Invoice>, i: nat, x: Invoice)
    requires InvoicesOk(invoices) && i < |invoices| && InvoiceOk(x) && x.rate == invoices[i].rate
    requires !invoices[i].status.Unposted? ==> !x.status.Unposted?
    ensures InvoicesOk(invoices[i := x]) && Extends(invoices, invoices[i := x])
    ensures AllAtPar(invoices[i := x]) <==> AllAtPar(invoices)
  {
    hide InvoiceOk;
    assert forall k :: 0 <= k < |invoices| ==> invoices[k].rate == invoices[i := x][k].rate;
  }

  // ---------------------------------------------------------------- posting

  lemma PostedBillControl(x: Invoice)
    requires BillAmounts(x) && Posting(BillLines(x)).Success?
    ensures Net(Posting(BillLines(x)).value, Some(Payables)) == -Booked(x.outstanding, x.rate)
    ensures Net(Posting(BillLines(x)).value, Some(Receivables)) == 0.0
  {
    BillProper(x);
    BillControl(x);
    hide BillLines, Posting, Net, Booked, Tax;
    PostedNet(BillLines(x), Payables);
    PostedNet(BillLines(x), Receivables);
  }

  /** Opening a bill and recording lines that credit what is outstanding, rounded, to the payables. */
  lemma OpenedBillDrift(s: Store, t: Store, id: nat, j: Journal, rounding: real)
    requires id < |s.bills| && s.bills[id].status.Unposted?
    requires t == s.(bills := s.bills[id := s.bills[id].(status := Open)], journals := s.journals + [j])
    requires Net(j, Some(Payables)) == -InRupees(s.bills[id].outstanding, s.bills[id].rate) - rounding
    requires Net(j, Some(Receivables)) == 0.0
    ensures Drift(t, Payable) == Drift(s, Payable) + rounding && Roundings(t, Payable) == Roundings(s, Payable) + 1
    ensures Drift(t, Receivable) == Drift(s, Receivable) && Roundings(t, Receivable) == Roundings(s, Receivable)
  {
    hide InRupees, Subledger, PostedInvoices, PostedNotes, LedgerNet, Net;
    SubledgerUpdate(s.bills, id, s.bills[id].(status := Open));
    LedgerAppend(s.journals, j, Payables);
    LedgerAppend(s.journals, j, Receivables);
  }

  lemma OneRounding(s: Store, t: Store, rounding: real, atPar: bool)
    requires Drift(t, Payable) == Drift(s, Payable) + rounding && Roundings(t, Payable) == Roundings(s, Payable) + 1
    requires Drift(t, Receivable) == Drift(s, Receivable) && Roundings(t, Receivable) == Roundings(s, Receivable)
    requires -0.005 <= rounding <= 0.005 && (atPar ==> rounding == 0.0) && (AllAtPar(t.bills) ==> atPar)
    requires (AllAtPar(t.bills) ==> AllAtPar(s.bills)) && t.sales == s.sales
    ensures DriftsBy(s, t, Payable, 1) && DriftsBy(s, t, Receivable, 0)
  {
    hide Drift, Roundings, AllAtPar, HalfCents;
    HalfCentsAdd(0, 1);
  }

  lemma PostBillDrift(s: Store, id: nat)
    requires RowsOk(s) && PostBill(s, id).Success?
    ensures DriftsBy(s, PostBill(s, id).value, Payable, 1) && DriftsBy(s, PostBill(s, id).value, Receivable, 0)
  {
    var x := s.bills[id];
    hide IsMoney, AllocationsOk, BillLines, Posting;
    assert InvoiceOk(x) && BillAmounts(x);
    PostedBillControl(x);
    BookedRounding(x.outstanding, x.rate);
    hide RowsOk, BillAmounts, Booked, InRupees, Net, DriftsBy, Drift, Roundings;
    var t, rounding := PostBill(s, id).value, Booked(x.outstanding, x.rate) - InRupees(x.outstanding, x.rate);
    OpenedBillDrift(s, t, id, Posting(BillLines(x)).value, rounding);
    SameRates(s.bills, id, x.(status := Open));
    AtParAt(s.bills, id);
    hide AllAtPar;
    OneRounding(s, t, rounding, x.rate == 1.0);
  }

  lemma SameRates(invoices: seq<Invoice>, i: nat, x: Invoice)
    requires i < |invoices| && x.rate == invoices[i].rate
    ensures AllAtPar(invoices[i := x]) <==> AllAtPar(invoices)
  {
    assert forall k :: 0 <= k < |invoices| ==> invoices[k].rate == invoices[i := x][k].rate;
  }

  lemma OnePosted(bills: seq<Invoice>, id: nat, x: Invoice)
    requires PendingOk(bills) && id < |bills| && !x.status.Unposted?
    ensures PendingOk(bills[id := x])
  {
    hide BillAmounts, IsMoney;
  }

  /** What posting a bill does to the rows and to the control accounts. */
  lemma PostBillMoves(s: Store, id: nat)
    requires RowsOk(s) && PostBill(s, id).Success?
    ensures var t := PostBill(s, id).value; RowsOk(t) && Drifts(s, t, Receivable) && Drifts(s, t, Payable)
  {
    var t, x := PostBill(s, id).value, s.bills[id];
    PostBillDrift(s, id);
    hide IsMoney, AllocationsOk, BillLines, Posting, BillAmounts, DriftsBy, Drifts, AllAtPar, PendingOk;
    assert InvoiceOk(x);
    OneInvoice(s.bills, id, x.(status := Open));
    OnePosted(s.bills, id, x.(status := Open));
    hide InvoiceOk, InvoicesOk, Extends;
    RowsKept(s, t);
    DriftsOf(s, t, Payable, 1);
    DriftsOf(s, t, Receivable, 0);
  }

  lemma PostBillKeeps(s: Store, id: nat)
    requires Inv(s) && PostBill(s, id).Success?
    ensures Inv(PostBill(s, id).value)
  {
    hide RowsOk, Reconciled, PostBill, Drifts;
    PostBillMoves(s, id);
    DriftsKeepInv(s, PostBill(s, id).value);
  }

  lemma AtParAt(invoices: seq<Invoice>, i: nat)
    requires i < |invoices|
    ensures AllAtPar(invoices) ==> invoices[i].rate == 1.0
  {
  }

  lemma PostedSaleControl(x: Invoice)
    requires Posting(SalesLines(x, x.outstanding)).Success?
    ensures Net(Posting(SalesLines(x, x.outstanding)).value, Some(Receivables)) == Booked(x.outstanding, x.rate)
    ensures Net(Posting(SalesLines(x, x.outstanding)).value, Some(Payables)) == 0.0
  {
    SalePostsIff(x, x.outstanding);
    SalesControl(x, x.outstanding);
    hide SalesLines, Posting, Net, Booked, Tax;
    PostedNet(SalesLines(x, x.outstanding), Payables);
    PostedNet(SalesLines(x, x.outstanding), Receivables);
  }

  lemma PostSaleDrift(s: Store, id: nat)
    requires RowsOk(s) && PostSale(s, id).Success?
    ensures DriftsBy(s, PostSale(s, id).value, Receivable, 1) && DriftsBy(s, PostSale(s, id).value, Payable, 0)
  {
    var t, x := PostSale(s, id).value, s.sales[id];
    hide IsMoney, AllocationsOk, SalesLines, Posting;
    assert InvoiceOk(x);
    PostedSaleControl(x);
    BookedRounding(x.outstanding, x.rate);
    hide RowsOk, Booked, InRupees, Subledger, PostedInvoices, LedgerNet, Net, HalfCents;
    SubledgerUpdate(s.sales, id, x.(status := Open));
    LedgerAppend(s.journals, Posting(SalesLines(x, x.outstanding)).value, Payables);
    LedgerAppend(s.journals, Posting(SalesLines(x, x.outstanding)).value, Receivables);
    HalfCentsAdd(0, 1);
    SameRates(s.sales, id, x.(status := Open));
    AtParAt(s.sales, id);
    hide AllAtPar;
    Undisturbed(s, t, Payable);
  }

  lemma PostSaleMoves(s: Store, id: nat)
    requires RowsOk(s) && PostSale(s, id).Success?
    ensures var t := PostSale(s, id).value; RowsOk(t) && Drifts(s, t, Receivable) && Drifts(s, t, Payable)
  {
    var t, x := PostSale(s, id).value, s.sales[id];
    PostSaleDrift(s, id);
    hide IsMoney, AllocationsOk, SalesLines, Posting, DriftsBy, Drifts, AllAtPar;
    assert InvoiceOk(x);
    OneInvoice(s.sales, id, x.(status := Open));
    hide InvoiceOk, InvoicesOk, Extends, PendingOk;
    RowsKept(s, t);
    DriftsOf(s, t, Receivable, 1);
    DriftsOf(s, t, Payable, 0);
  }

  lemma TdsOnIsMoney(base: real, percent: real)
    requires base >= 0.0 && percent >= 0.0
    ensures IsMoney(TdsOn(base, percent)) && TdsOn(base, percent) >= 0.0
  {
    ProductNonNegative(base, percent);
    Round2Nearest(base * percent / 100.0);
    hide Round2, IsMoney;
  }

  /** Setting a bill's TDS moves neither the control accounts nor what is outstanding. */
  lemma SetTdsMoves(s: Store, id: nat, base: real, percent: real)
    requires RowsOk(s) && SetTds(s, id, base, percent).Success?
    ensures var t := SetTds(s, id, base, percent).value; RowsOk(t) && Drifts(s, t, Receivable) && Drifts(s, t, Payable)
    ensures AllAtPar(SetTds(s, id, base, percent).value.bills) <==> AllAtPar(s.bills)
  {
    var t, x := SetTds(s, id, base, percent).value, s.bills[id];
    TdsOnIsMoney(base, percent);
    hide IsMoney, AllocationsOk, DriftsBy, Drifts, AllAtPar, TdsOn, Tax;
    assert InvoiceOk(x) && BillAmounts(x);
    OneInvoice(s.bills, id, x.(tds := TdsOn(base, percent)));
    assert PendingOk(t.bills);
    hide InvoiceOk, InvoicesOk, Extends, PendingOk, BillAmounts;
    RowsKept(s, t);
    hide RowsOk;
    SubledgerUpdate(s.bills, id, x.(tds := TdsOn(base, percent)));
    hide Subledger, PostedInvoices, LedgerNet, PostedNotes;
    Undisturbed(s, t, Payable);
    Undisturbed(s, t, Receivable);
  }

  lemma SetTdsKeeps(s: Store, id: nat, base: real, percent: real)
    requires Inv(s) && SetTds(s, id, base, percent).Success?
    ensures Inv(SetTds(s, id, base, percent).value)
    ensures AllAtPar(SetTds(s, id, base, percent).value.bills) <==> AllAtPar(s.bills)
  {
    hide RowsOk, Reconciled, SetTds, Drifts, AllAtPar;
    SetTdsMoves(s, id, base, percent);
    DriftsKeepInv(s, SetTds(s, id, base, percent).value);
  }

  /** A settlement leaves rates alone, posted invoices posted and amounts with two decimals. */
  lemma SettleRows(loaded: seq<Invoice>, allocations: seq<Allocation>)
    requires InvoicesOk(loaded) && AllocationsOk(loaded, allocations)
    ensures var t := Settle(loaded, allocations);
      && InvoicesOk(t) && Extends(loaded, t) && (AllAtPar(t) <==> AllAtPar(loaded))
  {
    var t := Settle(loaded, allocations);
    forall i | 0 <= i < |t|
      ensures InvoiceOk(t[i]) && t[i].rate == loaded[i].rate && (!loaded[i].status.Unposted? ==> !t[i].status.Unposted?)
    {
      hide Settle, IsMoney;
      SettleAt(loaded, allocations, i);
      assert InvoiceOk(loaded[i]);
      if Named(allocations, i) {
        LastAmountIsMoney(allocations, i);
        MoneyClosed(loaded[i].outstanding, LastAmount(allocations, i));
      }
    }
    hide InvoiceOk, Settle;
  }

  lemma SettlePending(loaded: seq<Invoice>, allocations: seq<Allocation>)
    requires Refer(allocations, |loaded|) && PendingOk(loaded)
    ensures PendingOk(Settle(loaded, allocations))
  {
    forall i | 0 <= i < |loaded| && Settle(loaded, allocations)[i].status.Unposted?
      ensures BillAmounts(Settle(loaded, allocations)[i]) && IsMoney(Settle(loaded, allocations)[i].tds)
    {
      SettleAt(loaded, allocations, i);
    }
  }

  lemma {:induction false} LastAmountIsMoney(allocations: seq<Allocation>, i: nat)
    requires Named(allocations, i) && forall k :: 0 <= k < |allocations| ==> IsMoney(allocations[k].amount)
    ensures IsMoney(LastAmount(allocations, i))
  {
    if allocations[|allocations| - 1].invoice != i {
      hide IsMoney;
      LastAmountIsMoney(allocations[..|allocations| - 1], i);
    }
  }

  lemma PaymentRows(s: Store, id: nat)
    requires RowsOk(s) && ExecutePayment(s, id).Success?
    ensures RowsOk(ExecutePayment(s, id).value)
    ensures forall side: Side :: AllAtPar(Invoices(ExecutePayment(s, id).value, side)) <==> AllAtPar(Invoices(s, side))
  {
    var t, p := ExecutePayment(s, id).value, s.payments[id];
    assert PaymentOk(s.bills, p);
    SettleRows(s.bills, p.allocations);
    SettlePending(s.bills, p.allocations);
    hide PendingOk, PaymentLines, PaymentGain, Settle, InvoiceOk, AllocationsOk, InvoicesOk, Extends, AllAtPar;
    RowsKept(s, t);
  }

  lemma PaymentDrift(s: Store, id: nat, side: Side)
    requires RowsOk(s) && ExecutePayment(s, id).Success?
    ensures Drift(ExecutePayment(s, id).value, side) == Drift(s, side)
    ensures Roundings(ExecutePayment(s, id).value, side) == Roundings(s, side)
  {
    var p := s.payments[id];
    assert PaymentOk(s.bills, p);
    hide InRupees, Subledger, PostedInvoices, LedgerNet, PaymentLines, PaymentGain, Net, Carrying, Settle, IsMoney,
      InvoicesOk;
    SettleMoves(s.bills, p.allocations);
    NothingOverwritten(s.bills, p.allocations);
    AllocationsHaveTerms(s.bills, p.allocations);
    PaymentControl(p, s.bills);
    PaymentProper(p, s.bills);
    hide AllocationsOk, Overwritten, Posting;
    PostedNet(PaymentLines(p, s.bills), Control(side));
    LedgerAppend(s.journals, Posting(PaymentLines(p, s.bills)).value, Control(side));
  }

  lemma PaymentMoves(s: Store, id: nat)
    requires RowsOk(s) && ExecutePayment(s, id).Success?
    ensures var t := ExecutePayment(s, id).value; RowsOk(t) && Drifts(s, t, Receivable) && Drifts(s, t, Payable)
  {
    hide RowsOk, ExecutePayment, DriftsBy, Drifts, AllAtPar, Drift, Roundings;
    PaymentRows(s, id);
    PaymentDrift(s, id, Payable);
    PaymentDrift(s, id, Receivable);
    Undisturbed(s, ExecutePayment(s, id).value, Payable);
    Undisturbed(s, ExecutePayment(s, id).value, Receivable);
  }

  lemma PaymentKeeps(s: Store, id: nat)
    requires Inv(s) && ExecutePayment(s, id).Success?
    ensures Inv(ExecutePayment(s, id).value)
  {
    hide RowsOk, Reconciled, ExecutePayment, Drifts;
    PaymentMoves(s, id);
    DriftsKeepInv(s, ExecutePayment(s, id).value);
  }

  lemma ReceiptRows(s: Store, id: nat)
    requires RowsOk(s) && PostReceipt(s, id).Success?
    ensures RowsOk(PostReceipt(s, id).value)
    ensures forall side: Side :: AllAtPar(Invoices(PostReceipt(s, id).value, side)) <==> AllAtPar(Invoices(s, side))
  {
    var t, r := PostReceipt(s, id).value, s.receipts[id];
    assert ReceiptOk(s.sales, r);
    SettleRows(s.sales, r.allocations);
    hide ReceiptLines, ReceiptGain, Settle, InvoiceOk, AllocationsOk, InvoicesOk, Extends, AllAtPar;
    RowsKept(s, t);
  }

  lemma ReceiptDrift(s: Store, id: nat, side: Side)
    requires RowsOk(s) && PostReceipt(s, id).Success?
    ensures Drift(PostReceipt(s, id).value, side) == Drift(s, side)
    ensures Roundings(PostReceipt(s, id).value, side) == Roundings(s, side)
  {
    var r := s.receipts[id];
    assert ReceiptOk(s.sales, r);
    hide InRupees, Subledger, PostedInvoices, LedgerNet, ReceiptLines, ReceiptGain, Net, Carrying, Settle, IsMoney,
      InvoicesOk;
    SettleMoves(s.sales, r.allocations);
    NothingOverwritten(s.sales, r.allocations);
    AllocationsHaveTerms(s.sales, r.allocations);
    ReceiptControl(r, s.sales);
    ReceiptProper(r, s.sales);
    hide AllocationsOk, Overwritten, Posting;
    PostedNet(ReceiptLines(r, s.sales), Control(side));
    LedgerAppend(s.journals, Posting(ReceiptLines(r, s.sales)).value, Control(side));
  }

  lemma ReceiptMoves(s: Store, id: nat)
    requires RowsOk(s) && PostReceipt(s, id).Success?
    ensures var t := PostReceipt(s, id).value; RowsOk(t) && Drifts(s, t, Receivable) && Drifts(s, t, Payable)
  {
    hide RowsOk, PostReceipt, DriftsBy, Drifts, AllAtPar, Drift, Roundings;
    ReceiptRows(s, id);
    ReceiptDrift(s, id, Payable);
    ReceiptDrift(s, id, Receivable);
    Undisturbed(s, PostReceipt(s, id).value, Payable);
    Undisturbed(s, PostReceipt(s, id).value, Receivable);
  }

  lemma ReceiptKeeps(s: Store, id: nat)
    requires Inv(s) && PostReceipt(s, id).Success?
    ensures Inv(PostReceipt(s, id).value)
  {
    hide RowsOk, Reconciled, PostReceipt, Drifts;
    ReceiptMoves(s, id);
    DriftsKeepInv(s, PostReceipt(s, id).value);
  }

  lemma NoteRowAt(s: Store, id: nat)
    requires RowsOk(s) && PostNote(s, id).Success?
    ensures var n := s.notes[id];
      var x := Invoices(s, n.side)[n.invoice];
      && IsMoney(n.total) && InvoiceOk(x) && !x.status.Unposted? && NoteAmounts(n, x)
  {
    hide Tax, IsMoney, AllocationsOk, Posting;
    assert NoteOk(s, s.notes[id]);
  }

  lemma NoteMoves(s: Store, id: nat)
    requires RowsOk(s) && PostNote(s, id).Success?
    ensures var t := PostNote(s, id).value; RowsOk(t) && Drifts(s, t, Receivable) && Drifts(s, t, Payable)
  {
    hide RowsOk, DriftsBy, Drifts, Noted, InvoiceOk, IsMoney, Standing, AllAtPar, NoteAmounts;
    NoteRowAt(s, id);
    NotedRow(Invoices(s, s.notes[id].side)[s.notes[id].invoice], s.notes[id]);
    hide PostNote;
    NoteRows(s, id);
    NoteDrift(s, id);
    DriftsOf(s, PostNote(s, id).value, s.notes[id].side, 1);
    DriftsOf(s, PostNote(s, id).value, Other(s.notes[id].side), 0);
  }

  lemma NoteKeeps(s: Store, id: nat)
    requires Inv(s) && PostNote(s, id).Success?
    ensures Inv(PostNote(s, id).value)
  {
    hide RowsOk, Reconciled, PostNote, Drifts;
    NoteMoves(s, id);
    DriftsKeepInv(s, PostNote(s, id).value);
  }

  lemma NoteDrift(s: Store, id: nat)
    requires PostNote(s, id).Success?
    requires var n := s.notes[id];
      var x := Invoices(s, n.side)[n.invoice];
      && IsMoney(n.total) && NoteAmounts(n, x) && !x.status.Unposted? && !Noted(x, n).status.Unposted?
      && Standing(Noted(x, n)) == Standing(x)
          + if n.increase then InRupees(n.total, x.rate) else -InRupees(n.total, x.rate)
    requires forall side: Side :: AllAtPar(Invoices(PostNote(s, id).value, side)) <==> AllAtPar(Invoices(s, side))
    ensures DriftsBy(s, PostNote(s, id).value, s.notes[id].side, 1)
    ensures DriftsBy(s, PostNote(s, id).value, Other(s.notes[id].side), 0)
  {
    var t, n := PostNote(s, id).value, s.notes[id];
    hide PostNote, Noted, NoteAmounts, InRupees, IsMoney, Standing, Subledger, PostedInvoices, HalfCents,
      PostedNotes, Balance, AllAtPar, Booked;
    NoteBalance(s, id);
    NoteSubledger(s, id);
    BookedRounding(n.total, Invoices(s, n.side)[n.invoice].rate);
    HalfCentsAdd(0, 1);
    AtParAt(Invoices(s, n.side), n.invoice);
    Undisturbed(s, t, Other(n.side));
  }

  lemma NoteBalance(s: Store, id: nat)
    requires PostNote(s, id).Success?
    requires NoteAmounts(s.notes[id], Invoices(s, s.notes[id].side)[s.notes[id].invoice])
    ensures var t, n := PostNote(s, id).value, s.notes[id];
      var booked := Booked(n.total, Invoices(s, n.side)[n.invoice].rate);
      && Balance(t, n.side) == Balance(s, n.side) + (if n.increase then booked else -booked)
      && Balance(t, Other(n.side)) == Balance(s, Other(n.side))
  {
    var n := s.notes[id];
    var x := Invoices(s, n.side)[n.invoice];
    hide Noted, NoteLines, NoteAmounts, Booked, LedgerNet, Net, Posting;
    PostedNoteControl(n, x);
    LedgerAppend(s.journals, Posting(NoteLines(n, x)).value, Payables);
    LedgerAppend(s.journals, Posting(NoteLines(n, x)).value, Receivables);
  }

  lemma PostedNoteControl(n: Note, x: Invoice)
    requires NoteAmounts(n, x) && Posting(NoteLines(n, x)).Success?
    ensures var booked, posted := Booked(n.total, x.rate), Posting(NoteLines(n, x)).value;
      && Net(posted, Some(Control(n.side))) == (if n.side.Receivable? == n.increase then booked else -booked)
      && Net(posted, Some(Control(Other(n.side)))) == 0.0
  {
    NoteProper(n, x);
    NoteControl(n, x);
    hide NoteLines, Posting, Net, Booked, Tax;
    PostedNet(NoteLines(n, x), Payables);
    PostedNet(NoteLines(n, x), Receivables);
  }

  lemma NoteSubledger(s: Store, id: nat)
    requires PostNote(s, id).Success?
    requires var n := s.notes[id];
      !Invoices(s, n.side)[n.invoice].status.Unposted? && !Noted(Invoices(s, n.side)[n.invoice], n).status.Unposted?
    ensures var t, n := PostNote(s, id).value, s.notes[id];
      var x := Invoices(s, n.side)[n.invoice];
      && Subledger(Invoices(t, n.side)) == Subledger(Invoices(s, n.side)) - Standing(x) + Standing(Noted(x, n))
      && Invoices(t, Other(n.side)) == Invoices(s, Other(n.side))
      && Roundings(t, n.side) == Roundings(s, n.side) + 1
      && Roundings(t, Other(n.side)) == Roundings(s, Other(n.side))
  {
    var n := s.notes[id];
    hide Noted, NoteLines, Standing, Subledger, PostedInvoices, PostedNotes;
    SubledgerUpdate(Invoices(s, n.side), n.invoice, Noted(Invoices(s, n.side)[n.invoice], n));
    NotesUpdate(s.notes, id, Receivable);
    NotesUpdate(s.notes, id, Payable);
  }

  lemma NotedRow(x: Invoice, n: Note)
    requires InvoiceOk(x) && IsMoney(n.total) && !x.status.Unposted?
    ensures InvoiceOk(Noted(x, n)) && Noted(x, n).rate == x.rate && !Noted(x, n).status.Unposted?
    ensures Standing(Noted(x, n)) == Standing(x)
              + if n.increase then InRupees(n.total, x.rate) else -InRupees(n.total, x.rate)
  {
    MoneyClosed(x.outstanding, n.total);
    ConvertsSum(x.outstanding, n.total, x.rate);
    hide IsMoney, InRupees;
    assert x.outstanding + -n.total == x.outstanding - n.total;
  }

  lemma NotePending(s: Store, id: nat)
    requires PendingOk(s.bills) && PostNote(s, id).Success?
    requires var n := s.notes[id];
      !Noted(Invoices(s, n.side)[n.invoice], n).status.Unposted?
    ensures PendingOk(PostNote(s, id).value.bills)
  {
    hide Noted, NoteLines, Posting, BillAmounts, IsMoney;
  }

  lemma NoteRows(s: Store, id: nat)
    requires RowsOk(s) && PostNote(s, id).Success?
    requires var n := s.notes[id];
      InvoiceOk(Noted(Invoices(s, n.side)[n.invoice], n))
      && Noted(Invoices(s, n.side)[n.invoice], n).rate == Invoices(s, n.side)[n.invoice].rate
      && !Noted(Invoices(s, n.side)[n.invoice], n).status.Unposted?
    ensures RowsOk(PostNote(s, id).value)
    ensures forall side: Side :: AllAtPar(Invoices(PostNote(s, id).value, side)) <==> AllAtPar(Invoices(s, side))
  {
    var t, n := PostNote(s, id).value, s.notes[id];
    hide InvoiceOk, Noted, AllocationsOk, NoteLines, Posting;
    NotePending(s, id);
    OneInvoice(Invoices(s, n.side), n.invoice, Noted(Invoices(s, n.side)[n.invoice], n));
    hide InvoicesOk, AllAtPar, PendingOk, Extends, IsMoney, Tax;
    RowsKept(s, t);
  }

  // ---------------------------------------------------------------- creating

  /** A new document, of any kind, moves nothing. */
  lemma CreationMoves(s: Store, t: Store, side: Side)
    requires t.journals == s.journals
    requires t.bills == s.bills || exists x :: t.bills == s.bills + [x] && x.status.Unposted?
    requires t.sales == s.sales || exists x :: t.sales == s.sales + [x] && x.status.Unposted?
    requires t.notes == s.notes || exists n :: t.notes == s.notes + [n] && !n.posted
    ensures Drifts(s, t, side)
  {
    hide LedgerNet;
    if Invoices(t, side) != Invoices(s, side) {
      var x :| Invoices(t, side) == Invoices(s, side) + [x] && x.status.Unposted?;
      SubledgerAppend(Invoices(s, side), x);
      AtParPrefix(Invoices(s, side), x);
    }
    if t.notes != s.notes {
      var n :| t.notes == s.notes + [n] && !n.posted;
      NotesAppend(s.notes, n, side);
    }
    hide Subledger, PostedInvoices, PostedNotes, AllAtPar;
    Undisturbed(s, t, side);
  }

  lemma AtParPrefix(invoices: seq<Invoice>, x: Invoice)
    ensures AllAtPar(invoices + [x]) ==> AllAtPar(invoices)
  {
    forall i | 0 <= i < |invoices|
      ensures AllAtPar(invoices + [x]) ==> invoices[i].rate == 1.0
    {
      assert (invoices + [x])[i] == invoices[i];
    }
  }

  lemma OneMore(invoices: seq<Invoice>, x: Invoice)
    requires InvoicesOk(invoices) && InvoiceOk(x)
    ensures InvoicesOk(invoices + [x]) && Extends(invoices, invoices + [x])
  {
    hide InvoiceOk;
  }

  lemma {:induction false} BillTaxableNonNegative(lines: seq<BillLine>)
    requires forall i :: 0 <= i < |lines| ==> ValidBillLine(lines[i])
    ensures BillTaxable(lines) >= 0.0
  {
    if lines != [] {
      var last := lines[|lines| - 1];
      BillTaxableNonNegative(lines[..|lines| - 1]);
      ProductNonNegative(last.quantity, last.unitPrice);
      Round2Nearest(ExtendedPrice(last));
    }
    hide Round2, IsMoney;
  }

  /** An accepted bill is stored with amounts that are not negative. */
  lemma AcceptedBillAmounts(q: BillRequest)
    requires ValidBillLines(q.lines) && q.rate > 0.0 && ValidTaxes(q.taxes) && q.other >= 0.0 && q.tds >= 0.0
    requires Bill(q).outstanding >= 0.0
    ensures BillAmounts(Stored(Bill(q))) && InvoiceOk(Stored(Bill(q))) && Stored(Bill(q)).status.Unposted?
    ensures IsMoney(Stored(Bill(q)).tds)
  {
    BillTaxableNonNegative(q.lines);
    Round2Nearest(Bill(q).taxable);
    Round2Nearest(q.other);
    Round2Nearest(q.tds);
    Round2Nearest(Bill(q).outstanding);
    Round2Nearest(q.taxes.central);
    Round2Nearest(q.taxes.state);
    Round2Nearest(q.taxes.integrated);
    hide Round2, BillTaxable, IsMoney;
  }

  lemma CreateBillMoves(s: Store, q: BillRequest)
    requires RowsOk(s) && CreateBill(s, q).Success?
    ensures var t := CreateBill(s, q).value; RowsOk(t) && Drifts(s, t, Receivable) && Drifts(s, t, Payable)
  {
    hide Drifts;
    var t := CreateBill(s, q).value;
    AcceptedBillAmounts(q);
    hide InvoiceOk, BillAmounts, AllocationsOk, ValidBillLines, Bill, Stored, IsMoney;
    OneMore(s.bills, Stored(Bill(q)));
    assert PendingOk(t.bills);
    hide InvoicesOk, Extends, PendingOk;
    RowsKept(s, t);
    CreationMoves(s, t, Payable);
    CreationMoves(s, t, Receivable);
  }

  lemma CreateSaleMoves(s: Store, q: SalesRequest)
    requires RowsOk(s) && CreateSale(s, q).Success?
    ensures var t := CreateSale(s, q).value; RowsOk(t) && Drifts(s, t, Receivable) && Drifts(s, t, Payable)
  {
    hide Drifts;
    var t := CreateSale(s, q).value;
    Round2Nearest(Sale(q).outstanding);
    hide Round2, AddUp, IsMoney, AllocationsOk;
    OneMore(s.sales, Stored(Sale(q)));
    hide InvoiceOk, InvoicesOk, Extends, StoredTaxes;
    RowsKept(s, t);
    CreationMoves(s, t, Payable);
    CreationMoves(s, t, Receivable);
  }

  lemma StoredAllocationsOk(invoices: seq<Invoice>, allocations: seq<Allocation>)
    requires Refer(allocations, |invoices|) && Once(allocations) && AllPosted(invoices, allocations) &&
              Positive(allocations)
    ensures AllocationsOk(invoices, StoredAllocations(allocations))
  {
  }

  lemma PaymentAllocations(s: Store, party: Party, rate: real, amount: real, allocations: seq<Allocation>)
    requires CreatePayment(s, party, rate, amount, allocations).Success?
    ensures AllocationsOk(s.bills, StoredAllocations(allocations))
  {
    hide Allocated, StoredAllocations, Round2;
    StoredAllocationsOk(s.bills, allocations);
  }

  lemma CreatePaymentMoves(s: Store, party: Party, rate: real, amount: real, allocations: seq<Allocation>)
    requires RowsOk(s) && CreatePayment(s, party, rate, amount, allocations).Success?
    ensures var t := CreatePayment(s, party, rate, amount, allocations).value;
      RowsOk(t) && Drifts(s, t, Receivable) && Drifts(s, t, Payable)
  {
    hide Drifts;
    var t := CreatePayment(s, party, rate, amount, allocations).value;
    hide AllocationsOk, InvoicesOk, Allocated, StoredAllocations, Round2, Once, Refer, Positive;
    PaymentAllocations(s, party, rate, amount, allocations);
    RowsKept(s, t);
    CreationMoves(s, t, Payable);
    CreationMoves(s, t, Receivable);
  }

  lemma ReceiptAllocations(s: Store, q: ReceiptRequest)
    requires CreateReceipt(s, q).Success?
    ensures AllocationsOk(s.sales, StoredAllocations(q.allocations))
  {
    hide Allocated, StoredAllocations, Round2;
    CheckedAllocationsRefer(s.sales, q.allocations);
    hide CheckAllocations;
    StoredAllocationsOk(s.sales, q.allocations);
  }

  lemma CreateReceiptMoves(s: Store, q: ReceiptRequest)
    requires RowsOk(s) && CreateReceipt(s, q).Success?
    ensures var t := CreateReceipt(s, q).value; RowsOk(t) && Drifts(s, t, Receivable) && Drifts(s, t, Payable)
  {
    hide Drifts;
    var t := CreateReceipt(s, q).value;
    hide AllocationsOk, InvoicesOk, Allocated, StoredAllocations, Round2, Once, Refer, Positive,
      CheckAllocations;
    ReceiptAllocations(s, q);
    RowsKept(s, t);
    CreationMoves(s, t, Payable);
    CreationMoves(s, t, Receivable);
  }

  lemma AcceptedNoteOk(s: Store, side: Side, increase: bool, invoice: nat, taxable: real, taxes: Taxes)
    requires CreateNote(s, side, increase, invoice, taxable, taxes).Success?
    ensures NoteOk(s, Note(side, increase, invoice, Round2(taxable), StoredTaxes(taxes), Round2(taxable + Tax(taxes)),
              false))
  {
    Round2Nearest(taxable + Tax(taxes));
    Round2Nearest(taxable);
    Round2Nearest(taxes.central);
    Round2Nearest(taxes.state);
    Round2Nearest(taxes.integrated);
    hide Round2, IsMoney;
  }

  lemma CreateNoteMoves(s: Store, side: Side, increase: bool, invoice: nat, taxable: real, taxes: Taxes)
    requires RowsOk(s) && CreateNote(s, side, increase, invoice, taxable, taxes).Success?
    ensures var t := CreateNote(s, side, increase, invoice, taxable, taxes).value;
      RowsOk(t) && Drifts(s, t, Receivable) && Drifts(s, t, Payable)
  {
    hide Drifts;
    var t := CreateNote(s, side, increase, invoice, taxable, taxes).value;
    AcceptedNoteOk(s, side, increase, invoice, taxable, taxes);
    hide AllocationsOk, InvoicesOk, PendingOk, Round2, IsMoney, Tax, StoredTaxes, ValidTaxes;
    RowsKept(s, t);
    CreationMoves(s, t, Payable);
    CreationMoves(s, t, Receivable);
  }

  // ---------------------------------------------------------------- runs

  datatype Op =
    | CreateBillOp(bill: BillRequest)
    | CreateSaleOp(sale: SalesRequest)
    | CreatePaymentOp(party: Party, rate: real, amount: real, allocations: seq<Allocation>)
    | CreateReceiptOp(receipt: ReceiptRequest)
    | CreateNoteOp(side: Side, increase: bool, invoice: nat, taxable: real, taxes: Taxes)
    | SetTdsOp(id: nat, base: real, percent: real)
    | PostBillOp(id: nat)
    | PostSaleOp(id: nat)
    | ExecutePaymentOp(id: nat)
    | PostReceiptOp(id: nat)
    | PostNoteOp(id: nat)

  function Apply(s: Store, op: Op): Result<Store, Error> {
    match op
    case CreateBillOp(bill) => CreateBill(s, bill)
    case CreateSaleOp(sale) => CreateSale(s, sale)
    case CreatePaymentOp(party, rate, amount, allocations) => CreatePayment(s, party, rate, amount, allocations)
    case CreateReceiptOp(receipt) => CreateReceipt(s, receipt)
    case CreateNoteOp(side, increase, invoice, taxable, taxes) => CreateNote(s, side, increase, invoice, taxable, taxes)
    case SetTdsOp(id, base, percent) => SetTds(s, id, base, percent)
    case PostBillOp(id) => PostBill(s, id)
    case PostSaleOp(id) => PostSale(s, id)
    case ExecutePaymentOp(id) => ExecutePayment(s, id)
    case PostReceiptOp(id) => PostReceipt(s, id)
    case PostNoteOp(id) => PostNote(s, id)
  }

  /** The store after one call, which changes nothing when it fails. */
  function Step(s: Store, op: Op): Store {
    var r := Apply(s, op);
    if r.Success? then r.value else s
  }

  function Run(s: Store, ops: seq<Op>): Store
    decreases |ops|
  {
    if ops == [] then s else Run(Step(s, ops[0]), ops[1..])
  }

  /** What any call does to the rows and to the control accounts. */
  lemma StepMoves(s: Store, op: Op)
    requires RowsOk(s)
    ensures var t := Step(s, op); RowsOk(t) && Drifts(s, t, Receivable) && Drifts(s, t, Payable)
  {
    hide RowsOk, Drifts, CreateBill, CreateSale, CreatePayment, CreateReceipt, CreateNote, SetTds, PostBill, PostSale,
      ExecutePayment, PostReceipt, PostNote;
    if Apply(s, op).Failure? {
      NothingMoves(s);
    } else {
      match op
      case CreateBillOp(bill) => CreateBillMoves(s, bill);
      case CreateSaleOp(sale) => CreateSaleMoves(s, sale);
      case CreatePaymentOp(party, rate, amount, allocations) => CreatePaymentMoves(s, party, rate, amount, allocations);
      case CreateReceiptOp(receipt) => CreateReceiptMoves(s, receipt);
      case CreateNoteOp(side, increase, invoice, taxable, taxes) =>
          CreateNoteMoves(s, side, increase, invoice, taxable, taxes);
      case SetTdsOp(id, base, percent) => SetTdsMoves(s, id, base, percent);
      case PostBillOp(id) => PostBillMoves(s, id);
      case PostSaleOp(id) => PostSaleMoves(s, id);
      case ExecutePaymentOp(id) => PaymentMoves(s, id);
      case PostReceiptOp(id) => ReceiptMoves(s, id);
      case PostNoteOp(id) => NoteMoves(s, id);
    }
  }

  lemma NothingMoves(s: Store)
    ensures Drifts(s, s, Receivable) && Drifts(s, s, Payable)
  {
  }

  lemma StepKeeps(s: Store, op: Op)
    requires Inv(s)
    ensures Inv(Step(s, op))
  {
    hide RowsOk, Reconciled, Step, Drifts;
    StepMoves(s, op);
    DriftsKeepInv(s, Step(s, op));
  }

  lemma {:induction false} RunKeeps(s: Store, ops: seq<Op>)
    requires Inv(s)
    ensures Inv(Run(s, ops))
    decreases |ops|
  {
    hide Inv, Step;
    if ops != [] {
      StepKeeps(s, ops[0]);
      RunKeeps(Step(s, ops[0]), ops[1..]);
    }
  }

  function Empty(fxConfigured: bool): Store {
    Store([], [], [], [], [], [], fxConfigured)
  }

  lemma InvEmpty(fxConfigured: bool)
    ensures Inv(Empty(fxConfigured))
  {
  }

  /**
   In every run each control account's balance is the sum over its posted invoices of the
   outstanding amount times the booking rate, to within half a cent for each posted invoice
   and note, and exactly when every invoice is booked at rate 1.
   */
  lemma EveryRunReconciles(fxConfigured: bool, ops: seq<Op>, side: Side)
    ensures var s := Run(Empty(fxConfigured), ops);
      var rounded := PostedInvoices(Invoices(s, side)) + PostedNotes(s.notes, side);
      && -(rounded as real * 0.005) <= Balance(s, side) - Subledger(Invoices(s, side)) <= rounded as real * 0.005
      && ((forall i :: 0 <= i < |Invoices(s, side)| ==> Invoices(s, side)[i].rate == 1.0) ==>
            Balance(s, side) == Subledger(Invoices(s, side)))
  {
    var e := Empty(fxConfigured);
    InvEmpty(fxConfigured);
    RunKeeps(e, ops);
    hide Run, Balance, Subledger, PostedInvoices, PostedNotes, RowsOk;
    assert Reconciled(Run(e, ops), side);
  }
}
