/** Which waiting payments, receipts and notes some run of calls can still post, and which wait for ever. */
module StuckSettlements {
  import opened Wrappers
  import opened Decimals
  import opened FinancePosting
  import opened FinancePostingLaws
  import opened PostingGate
  import opened PostingBounds
  import opened ControlAccounts
  import opened JournalBalance
  import opened StuckBills
  import opened StoredBalance
  import opened PlainBills

  // ---------------------------------------------------------------- what no call changes

  /** Invoices are only added, and keep their rates. */
  ghost predicate RatesStay(a: seq<Invoice>, b: seq<Invoice>) {
    |a| <= |b| && forall i :: 0 <= i < |a| ==> b[i].rate == a[i].rate
  }

  /** Settlements and notes are only added, and change only by being posted. */
  ghost predicate WaitingStays(s: Store, t: Store) {
    && t.fxConfigured == s.fxConfigured
    && |s.payments| <= |t.payments| && |s.receipts| <= |t.receipts| && |s.notes| <= |t.notes|
    && (forall i :: 0 <= i < |s.payments| ==> t.payments[i] == s.payments[i].(executed := t.payments[i].executed))
    && (forall i :: 0 <= i < |s.receipts| ==> t.receipts[i] == s.receipts[i].(posted := t.receipts[i].posted))
    && (forall i :: 0 <= i < |s.notes| ==> t.notes[i] == s.notes[i].(posted := t.notes[i].posted))
  }

  ghost predicate TermsStay(s: Store, t: Store) {
    RatesStay(s.bills, t.bills) && RatesStay(s.sales, t.sales) && WaitingStays(s, t)
  }

  lemma SettleKeepsRates(invoices: seq<Invoice>, allocations: seq<Allocation>)
    requires Refer(allocations, |invoices|)
    ensures RatesStay(invoices, Settle(invoices, allocations))
  {
    forall i | 0 <= i < |invoices|
      ensures Settle(invoices, allocations)[i].rate == invoices[i].rate
    {
      hide Settle, LastAmount;
      SettleAt(invoices, allocations, i);
    }
  }

  lemma StepKeepsTerms(s: Store, op: Op)
    ensures TermsStay(s, Step(s, op))
  {
    hide BillLines, SalesLines, PaymentLines, ReceiptLines, NoteLines, PaymentGain, ReceiptGain, Posting, Settle,
      Stored, Bill, Sale, NewReceipt, StoredAllocations, StoredTaxes, Round2, Tax, TdsOn, Allocated,
      CheckAllocations, ValidBillLines, ValidSalesLines, Once, Positive;
    if op.ExecutePaymentOp? && Apply(s, op).Success? {
      SettleKeepsRates(s.bills, s.payments[op.id].allocations);
    }
    if op.PostReceiptOp? && Apply(s, op).Success? {
      SettleKeepsRates(s.sales, s.receipts[op.id].allocations);
    }
  }

  lemma {:induction false} CarryingStays(a: seq<Invoice>, b: seq<Invoice>, allocations: seq<Allocation>)
    requires RatesStay(a, b) && Refer(allocations, |a|)
    ensures Carrying(b, allocations) == Carrying(a, allocations)
  {
    hide InRupees;
    if allocations != [] {
      CarryingStays(a, b, allocations[..|allocations| - 1]);
    }
  }

  // ---------------------------------------------------------------- payments

  /** What decides a payment stays the same, however much is posted in between. */
  lemma PaymentStays(s: Store, t: Store, id: nat)
    requires Inv(s) && Inv(t) && TermsStay(s, t)
    requires id < |s.payments| && !s.payments[id].executed && !t.payments[id].executed
    ensures ExecutePayment(t, id).Success? <==> ExecutePayment(s, id).Success?
  {
    hide Inv, Carrying, Allocated, InRupees, Round2, ExecutePayment, Excess, IsMoney;
    PaymentPosts(s, id);
    PaymentPosts(t, id);
    CarryingStays(s.bills, t.bills, s.payments[id].allocations);
    assert t.payments[id] == s.payments[id];
  }

  lemma StepLeavesPayment(s: Store, op: Op, id: nat)
    requires Inv(s) && id < |s.payments| && !s.payments[id].executed && ExecutePayment(s, id).Failure?
    ensures id < |Step(s, op).payments| && !Step(s, op).payments[id].executed
    ensures ExecutePayment(Step(s, op), id).Failure?
  {
    StepKeepsTerms(s, op);
    OnlyExecuting(s, op, id);
    StepKeeps(s, op);
    hide Inv, Step, ExecutePayment;
    PaymentStays(s, Step(s, op), id);
  }

  lemma OnlyExecuting(s: Store, op: Op, id: nat)
    requires id < |s.payments| && !s.payments[id].executed && ExecutePayment(s, id).Failure?
    ensures id < |Step(s, op).payments| && !Step(s, op).payments[id].executed
  {
    hide BillLines, SalesLines, PaymentLines, ReceiptLines, NoteLines, PaymentGain, ReceiptGain, Posting, Settle,
      Stored, Bill, Sale, NewReceipt, StoredAllocations, StoredTaxes, Round2, Tax, TdsOn, Allocated,
      CheckAllocations, ValidBillLines, ValidSalesLines, Once, Positive, Noted;
  }

  lemma {:induction false} RunLeavesPayment(s: Store, ops: seq<Op>, id: nat)
    requires Inv(s) && id < |s.payments| && !s.payments[id].executed && ExecutePayment(s, id).Failure?
    ensures id < |Run(s, ops).payments| && !Run(s, ops).payments[id].executed
    decreases |ops|
  {
    hide Inv, Step, ExecutePayment;
    if ops != [] {
      StepLeavesPayment(s, ops[0], id);
      StepKeeps(s, ops[0]);
      RunLeavesPayment(Step(s, ops[0]), ops[1..], id);
    }
  }

  ghost predicate ExecutedBy(s: Store, ops: seq<Op>, id: nat) {
    id < |Run(s, ops).payments| && Run(s, ops).payments[id].executed
  }

  /**
   A waiting payment is executed by some run of calls exactly when it can be executed at once: when
   its exchange difference, rounded, makes up for any excess and has its accounts. Otherwise it
   waits for ever, since its terms never change.
   */
  lemma EverExecutedIff(s: Store, id: nat)
    requires Inv(s) && id < |s.payments| && !s.payments[id].executed
    ensures var p := s.payments[id];
      && Refer(p.allocations, |s.bills|)
      && var d := RateDifference(s.bills, p.allocations, p.rate);
      (exists ops :: ExecutedBy(s, ops, id)) <==>
        (Round2(d) == 0.0 || s.fxConfigured) && InRupees(Excess(p), p.rate) + d == Round2(d)
  {
    hide Inv, Excess, Round2, RateDifference, InRupees, Allocated, IsMoney;
    PaymentPosts(s, id);
    if ExecutePayment(s, id).Success? {
      ExecutedAtOnce(s, id);
    } else {
      hide ExecutePayment, Run;
      forall ops
        ensures !ExecutedBy(s, ops, id)
      {
        RunLeavesPayment(s, ops, id);
      }
    }
  }

  lemma ExecutedAtOnce(s: Store, id: nat)
    requires id < |s.payments| && ExecutePayment(s, id).Success?
    ensures ExecutedBy(s, [ExecutePaymentOp(id)], id)
  {
    OneCall(s, ExecutePaymentOp(id));
    hide PaymentLines, Posting, Settle, PaymentGain, Run;
  }

  // ---------------------------------------------------------------- receipts

  lemma ReceiptStays(s: Store, t: Store, id: nat)
    requires Inv(s) && Inv(t) && TermsStay(s, t)
    requires id < |s.receipts| && !s.receipts[id].posted && !t.receipts[id].posted
    ensures PostReceipt(t, id).Success? <==> PostReceipt(s, id).Success?
  {
    hide Inv, Carrying, Allocated, InRupees, Round2, PostReceipt, ReceiptGap, Overcharge, BankRounding;
    ReceiptPosts(s, id);
    ReceiptPosts(t, id);
    CarryingStays(s.sales, t.sales, s.receipts[id].allocations);
    assert t.receipts[id] == s.receipts[id];
  }

  lemma StepLeavesReceipt(s: Store, op: Op, id: nat)
    requires Inv(s) && id < |s.receipts| && !s.receipts[id].posted && PostReceipt(s, id).Failure?
    ensures id < |Step(s, op).receipts| && !Step(s, op).receipts[id].posted
    ensures PostReceipt(Step(s, op), id).Failure?
  {
    StepKeepsTerms(s, op);
    OnlyPosting(s, op, id);
    StepKeeps(s, op);
    hide Inv, Step, PostReceipt;
    ReceiptStays(s, Step(s, op), id);
  }

  lemma OnlyPosting(s: Store, op: Op, id: nat)
    requires id < |s.receipts| && !s.receipts[id].posted && PostReceipt(s, id).Failure?
    ensures id < |Step(s, op).receipts| && !Step(s, op).receipts[id].posted
  {
    hide BillLines, SalesLines, PaymentLines, ReceiptLines, NoteLines, PaymentGain, ReceiptGain, Posting, Settle,
      Stored, Bill, Sale, StoredAllocations, StoredTaxes, Round2, Tax, TdsOn, Allocated, CheckAllocations,
      ValidBillLines, ValidSalesLines, Once, Positive, Noted;
  }

  lemma {:induction false} RunLeavesReceipt(s: Store, ops: seq<Op>, id: nat)
    requires Inv(s) && id < |s.receipts| && !s.receipts[id].posted && PostReceipt(s, id).Failure?
    ensures id < |Run(s, ops).receipts| && !Run(s, ops).receipts[id].posted
    decreases |ops|
  {
    hide Inv, Step, PostReceipt;
    if ops != [] {
      StepLeavesReceipt(s, ops[0], id);
      StepKeeps(s, ops[0]);
      RunLeavesReceipt(Step(s, ops[0]), ops[1..], id);
    }
  }

  ghost predicate ReceivedBy(s: Store, ops: seq<Op>, id: nat) {
    id < |Run(s, ops).receipts| && Run(s, ops).receipts[id].posted
  }

  /** A waiting receipt too is posted by some run of calls exactly when it can be posted at once. */
  lemma EverReceivedIff(s: Store, id: nat)
    requires Inv(s) && id < |s.receipts| && !s.receipts[id].posted
    ensures var r := s.receipts[id];
      && Refer(r.allocations, |s.sales|)
      && ((exists ops :: ReceivedBy(s, ops, id)) <==>
            && (ReceiptGain(r, s.sales) == 0.0 || s.fxConfigured)
            && InRupees(ReceiptGap(r) + Overcharge(r), r.rate) + BankRounding(r) == GainRounding(r, s.sales))
  {
    hide Inv, ReceiptGap, Overcharge, BankRounding, GainRounding, ReceiptGain, InRupees;
    ReceiptPosts(s, id);
    if PostReceipt(s, id).Success? {
      ReceivedAtOnce(s, id);
    } else {
      hide PostReceipt, Run;
      forall ops
        ensures !ReceivedBy(s, ops, id)
      {
        RunLeavesReceipt(s, ops, id);
      }
    }
  }

  lemma ReceivedAtOnce(s: Store, id: nat)
    requires id < |s.receipts| && PostReceipt(s, id).Success?
    ensures ReceivedBy(s, [PostReceiptOp(id)], id)
  {
    OneCall(s, PostReceiptOp(id));
    hide ReceiptLines, Posting, Settle, ReceiptGain, Run;
  }

  // ---------------------------------------------------------------- notes

  /** The converted total is the sum of the converted parts, and not nothing. */
  predicate PartsAddUp(n: Note, rate: real) {
    Booked(n.total, rate) == Booked(n.taxable, rate) + Booked(Tax(n.taxes), rate) && Booked(n.total, rate) > 0.0
  }

  function NotedInvoice(s: Store, id: nat): Invoice
    requires id < |s.notes| && s.notes[id].invoice < |Invoices(s, s.notes[id].side)|
  {
    Invoices(s, s.notes[id].side)[s.notes[id].invoice]
  }

  lemma StepLeavesNote(s: Store, op: Op, id: nat)
    requires Inv(s) && id < |s.notes| && !s.notes[id].posted
    requires s.notes[id].invoice < |Invoices(s, s.notes[id].side)|
    requires !PartsAddUp(s.notes[id], NotedInvoice(s, id).rate)
    ensures var t := Step(s, op);
      && id < |t.notes| && t.notes[id] == s.notes[id]
      && t.notes[id].invoice < |Invoices(t, t.notes[id].side)| && NotedInvoice(t, id).rate == NotedInvoice(s, id).rate
  {
    NotePosts(s, id);
    StepKeepsTerms(s, op);
    OnlyNoting(s, op, id);
    hide Inv, Step, PostNote, Booked, Tax;
  }

  lemma OnlyNoting(s: Store, op: Op, id: nat)
    requires id < |s.notes| && !s.notes[id].posted && PostNote(s, id).Failure?
    ensures id < |Step(s, op).notes| && !Step(s, op).notes[id].posted
  {
    hide BillLines, SalesLines, PaymentLines, ReceiptLines, NoteLines, PaymentGain, ReceiptGain, Posting, Settle,
      Stored, Bill, Sale, StoredAllocations, StoredTaxes, Round2, Tax, TdsOn, Allocated, CheckAllocations,
      ValidBillLines, ValidSalesLines, Once, Positive, Noted, NewReceipt;
  }

  lemma {:induction false} RunLeavesNote(s: Store, ops: seq<Op>, id: nat)
    requires Inv(s) && id < |s.notes| && !s.notes[id].posted
    requires s.notes[id].invoice < |Invoices(s, s.notes[id].side)|
    requires !PartsAddUp(s.notes[id], NotedInvoice(s, id).rate)
    ensures id < |Run(s, ops).notes| && !Run(s, ops).notes[id].posted
    decreases |ops|
  {
    hide Inv, Step, PartsAddUp;
    if ops != [] {
      StepLeavesNote(s, ops[0], id);
      StepKeeps(s, ops[0]);
      RunLeavesNote(Step(s, ops[0]), ops[1..], id);
    }
  }

  ghost predicate NotedBy(s: Store, ops: seq<Op>, id: nat) {
    id < |Run(s, ops).notes| && Run(s, ops).notes[id].posted
  }

  /** A debit note without taxes on an open invoice is entered as asked. */
  lemma DebitNoteEntered(s: Store, side: Side, invoice: nat, raise: real, none: Taxes)
    requires invoice < |Invoices(s, side)| && IsOpen(Invoices(s, side)[invoice]) && IsMoney(raise) && raise > 0.0
    requires none.central == 0.0 && none.state == 0.0 && none.integrated == 0.0
    ensures CreateNote(s, side, true, invoice, raise, none) ==
            Success(s.(notes := s.notes + [Note(side, true, invoice, raise, none, raise, false)]))
  {
    hide Round2, Tax, ValidTaxes, StoredTaxes, IsMoney;
    NoTaxes(none);
    NoTaxesStored(none);
    WithoutTaxes(raise, Tax(none));
  }

  lemma NoTaxesStored(none: Taxes)
    requires none.central == 0.0 && none.state == 0.0 && none.integrated == 0.0
    ensures StoredTaxes(none) == none
  {
    ZeroIsMoney();
    Round2OfMoney(none.central);
    hide Round2, IsMoney;
  }

  lemma WithoutTaxes(raise: real, tax: real)
    requires IsMoney(raise) && tax == 0.0
    ensures Round2(raise) == raise && Round2(raise + tax) == raise
  {
    Round2OfMoney(raise);
    hide Round2, IsMoney;
  }

  /** And can be posted when it converts to something. */
  lemma DebitNotePosted(s: Store, id: nat, raise: real, none: Taxes)
    requires Inv(s) && id < |s.notes| && !s.notes[id].posted && s.notes[id].increase
    requires s.notes[id].total == raise && s.notes[id].taxable == raise && s.notes[id].taxes == none
    requires Tax(none) == 0.0 && s.notes[id].invoice < |Invoices(s, s.notes[id].side)|
    requires Booked(raise, NotedInvoice(s, id).rate) > 0.0
    ensures PostNote(s, id).Success?
    ensures var t := PostNote(s, id).value;
      && t.notes == s.notes[id := s.notes[id].(posted := true)]
      && |Invoices(t, s.notes[id].side)| == |Invoices(s, s.notes[id].side)|
      && var x := Invoices(t, s.notes[id].side)[s.notes[id].invoice];
      && x.outstanding == NotedInvoice(s, id).outstanding + raise && x.rate == NotedInvoice(s, id).rate
  {
    NothingBooked(NotedInvoice(s, id).rate);
    hide Inv, Booked, Tax, NoteLines, Posting;
    NotePosts(s, id);
  }

  lemma MoreIsBooked(x: real, y: real, rate: real)
    requires x <= y && rate > 0.0
    ensures Booked(x, rate) <= Booked(y, rate)
  {
    ProductMonotone(x, y, rate);
    Round2Monotone(InRupees(x, rate), InRupees(y, rate));
    hide Round2;
  }

  lemma NotedPlaces(s: Store, id: nat)
    requires Inv(s) && id < |s.notes|
    ensures s.notes[id].invoice < |Invoices(s, s.notes[id].side)|
    ensures NotedInvoice(s, id).rate > 0.0 && IsMoney(NotedInvoice(s, id).outstanding)
    ensures IsMoney(s.notes[id].total) && s.notes[id].total > 0.0
  {
    hide Reconciled, IsMoney, AllocationsOk, Tax;
    assert NoteOk(s, s.notes[id]);
    assert InvoiceOk(NotedInvoice(s, id));
  }

  /** By how much to raise an invoice so that a credit note is covered. */
  function Raise(n: Note, outstanding: real): real {
    if outstanding >= 0.0 then n.total else n.total - outstanding
  }

  lemma RaiseCovers(n: Note, x: Invoice)
    requires IsMoney(n.total) && IsMoney(x.outstanding) && n.total > 0.0 && x.rate > 0.0
    ensures IsMoney(Raise(n, x.outstanding)) && Raise(n, x.outstanding) >= n.total
    ensures x.outstanding + Raise(n, x.outstanding) >= n.total
    ensures Booked(Raise(n, x.outstanding), x.rate) >= Booked(n.total, x.rate)
  {
    MoneyClosed(n.total, x.outstanding);
    hide IsMoney;
    MoreIsBooked(n.total, Raise(n, x.outstanding), x.rate);
    hide Booked;
  }

  /** The store in which a debit note for `raise` waits last, to the invoice of another note. */
  ghost predicate DebitWaits(s: Store, t: Store, id: nat, raise: real) {
    && id < |s.notes| && |t.notes| == |s.notes| + 1 && t.notes[..|s.notes|] == s.notes
    && t.bills == s.bills && t.sales == s.sales
    && var n := t.notes[|s.notes|];
    && n.side == s.notes[id].side && n.invoice == s.notes[id].invoice && n.increase && !n.posted
    && n.total == raise && n.taxable == raise && Tax(n.taxes) == 0.0
  }

  lemma DebitEntered(s: Store, id: nat, raise: real, none: Taxes)
    requires id < |s.notes| && s.notes[id].invoice < |Invoices(s, s.notes[id].side)| && IsOpen(NotedInvoice(s, id))
    requires IsMoney(raise) && raise > 0.0 && none.central == 0.0 && none.state == 0.0 && none.integrated == 0.0
    ensures DebitWaits(s, Step(s, CreateNoteOp(s.notes[id].side, true, s.notes[id].invoice, raise, none)), id, raise)
  {
    hide IsMoney, CreateNote, Tax;
    NoTaxes(none);
    DebitNoteEntered(s, s.notes[id].side, s.notes[id].invoice, raise, none);
  }

  lemma DebitPosted(s: Store, t: Store, id: nat, raise: real)
    requires Inv(t) && DebitWaits(s, t, id, raise) && s.notes[id].invoice < |Invoices(s, s.notes[id].side)|
    requires Booked(raise, NotedInvoice(s, id).rate) > 0.0
    ensures var u, n := Step(t, PostNoteOp(|s.notes|)), s.notes[id];
      && id < |u.notes| && u.notes[id] == n && n.invoice < |Invoices(u, n.side)|
      && NotedInvoice(u, id).rate == NotedInvoice(s, id).rate
      && NotedInvoice(u, id).outstanding == NotedInvoice(s, id).outstanding + raise
  {
    assert t.notes[id] == s.notes[id];
    hide Inv, Booked, PostNote, Tax;
    DebitNotePosted(t, |s.notes|, raise, t.notes[|s.notes|].taxes);
  }

  lemma DebitFirst(s: Store, id: nat, none: Taxes)
    requires Inv(s) && id < |s.notes| && !s.notes[id].posted
    requires s.notes[id].invoice < |Invoices(s, s.notes[id].side)| && IsOpen(NotedInvoice(s, id))
    requires Booked(s.notes[id].total, NotedInvoice(s, id).rate) > 0.0
    requires none.central == 0.0 && none.state == 0.0 && none.integrated == 0.0
    ensures var n, raise := s.notes[id], Raise(s.notes[id], NotedInvoice(s, id).outstanding);
      var t := Step(Step(s, CreateNoteOp(n.side, true, n.invoice, raise, none)), PostNoteOp(|s.notes|));
      && id < |t.notes| && t.notes[id] == n && n.invoice < |Invoices(t, n.side)|
      && NotedInvoice(t, id).rate == NotedInvoice(s, id).rate && n.total <= NotedInvoice(t, id).outstanding
  {
    var n, x := s.notes[id], NotedInvoice(s, id);
    var raise := Raise(n, x.outstanding);
    var create := CreateNoteOp(n.side, true, n.invoice, raise, none);
    hide IsMoney, Booked, Step, Raise, Inv, DebitWaits, NotedInvoice, IsOpen;
    NotedPlaces(s, id);
    RaiseCovers(n, x);
    DebitEntered(s, id, raise, none);
    StepKeeps(s, create);
    DebitPosted(s, Step(s, create), id, raise);
  }

  /** A debit note entered and posted first covers a credit note on an open invoice. */
  lemma CoveredByDebit(s: Store, id: nat, none: Taxes)
    requires Inv(s) && id < |s.notes| && !s.notes[id].posted
    requires s.notes[id].invoice < |Invoices(s, s.notes[id].side)| && IsOpen(NotedInvoice(s, id))
    requires PartsAddUp(s.notes[id], NotedInvoice(s, id).rate)
    requires none.central == 0.0 && none.state == 0.0 && none.integrated == 0.0
    ensures var n, raise := s.notes[id], Raise(s.notes[id], NotedInvoice(s, id).outstanding);
      NotedBy(s, [CreateNoteOp(n.side, true, n.invoice, raise, none), PostNoteOp(|s.notes|)] + [PostNoteOp(id)], id)
  {
    var n := s.notes[id];
    var create := CreateNoteOp(n.side, true, n.invoice, Raise(n, NotedInvoice(s, id).outstanding), none);
    var post := PostNoteOp(|s.notes|);
    AddsUpToSomething(n, NotedInvoice(s, id).rate);
    hide Inv, Booked, Step, Run, Raise, PartsAddUp, IsOpen;
    DebitFirst(s, id, none);
    StepKeeps(s, create);
    StepKeeps(Step(s, create), post);
    NoteIsPosted(Step(Step(s, create), post), id);
    RunConcat(s, [create, post], [PostNoteOp(id)]);
    RunTwo(s, create, post);
    OneCall(Step(Step(s, create), post), PostNoteOp(id));
  }

  lemma AddsUpToSomething(n: Note, rate: real)
    ensures PartsAddUp(n, rate) ==> Booked(n.total, rate) > 0.0
  {
  }

  lemma NoteIsPosted(s: Store, id: nat)
    requires Inv(s) && id < |s.notes| && !s.notes[id].posted
    requires s.notes[id].invoice < |Invoices(s, s.notes[id].side)|
    requires PartsAddUp(s.notes[id], NotedInvoice(s, id).rate)
    requires s.notes[id].increase || s.notes[id].total <= NotedInvoice(s, id).outstanding
    ensures id < |Step(s, PostNoteOp(id)).notes| && Step(s, PostNoteOp(id)).notes[id].posted
  {
    hide Inv, Booked, Tax, NoteLines, Posting;
    NotePosts(s, id);
  }

  /**
   A waiting note on an open invoice, or a waiting debit note, is posted by some run of calls exactly
   when its converted total is the sum of its converted parts and not nothing. A credit note beyond
   what is outstanding can be posted after a debit note.
   */
  lemma EverNotedIff(s: Store, id: nat)
    requires Inv(s) && id < |s.notes| && !s.notes[id].posted
    requires s.notes[id].invoice < |Invoices(s, s.notes[id].side)|
    requires s.notes[id].increase || IsOpen(NotedInvoice(s, id))
    ensures (exists ops :: NotedBy(s, ops, id)) <==> PartsAddUp(s.notes[id], NotedInvoice(s, id).rate)
  {
    hide Inv, PartsAddUp, Run, Raise;
    if !PartsAddUp(s.notes[id], NotedInvoice(s, id).rate) {
      forall ops
        ensures !NotedBy(s, ops, id)
      {
        RunLeavesNote(s, ops, id);
      }
    } else if s.notes[id].increase {
      NoteIsPosted(s, id);
      OneCall(s, PostNoteOp(id));
      assert NotedBy(s, [PostNoteOp(id)], id);
    } else {
      CoveredByDebit(s, id, Taxes(0.0, 0.0, 0.0));
    }
  }

  // ---------------------------------------------------------------- at par

  lemma {:induction false} CarryingIsAllocated(invoices: seq<Invoice>, allocations: seq<Allocation>)
    requires Refer(allocations, |invoices|) && AllAtPar(invoices)
    ensures Carrying(invoices, allocations) == Allocated(allocations)
  {
    if allocations != [] {
      var last := allocations[|allocations| - 1];
      CarryingIsAllocated(invoices, allocations[..|allocations| - 1]);
      AtOne(last.amount, invoices[last.invoice].rate);
      hide InRupees;
    }
  }

  lemma AtOne(x: real, rate: real)
    requires rate == 1.0
    ensures InRupees(x, rate) == x
  {
  }

  /** When every rate is 1 a payment is accepted unless its allocations exceed it. */
  lemma PaymentPostsAtPar(p: Payment, bills: seq<Invoice>)
    requires PaymentAmounts(p, bills) && p.rate == 1.0 && AllAtPar(bills)
    ensures Posting(PaymentLines(p, bills)).Success? <==> Allocated(p.allocations) <= p.amount
  {
    CarryingIsAllocated(bills, p.allocations);
    AtOne(Allocated(p.allocations), p.rate);
    AtOne(Excess(p), p.rate);
    ZeroIsMoney();
    Round2OfMoney(0.0);
    hide Carrying, Allocated, InRupees, Round2, IsMoney, PaymentLines, Posting, AllAtPar;
    PaymentPostsIff(p, bills);
  }

  /** A receipt of whole paise is accepted exactly when it has neither gap nor overcharge, or they cancel out. */
  lemma ReceiptPostsAtPar(r: Receipt, sales: seq<Invoice>)
    requires ReceiptAmounts(r, sales) && r.rate == 1.0 && AllAtPar(sales)
    requires IsMoney(r.amount) && IsMoney(r.bankCharges)
    ensures Posting(ReceiptLines(r, sales)).Success? <==> ReceiptGap(r) + Overcharge(r) == 0.0
  {
    MoneyClosed(r.amount, r.bankCharges);
    ParBank(r);
    ParGain(r, sales);
    AtOne(ReceiptGap(r) + Overcharge(r), r.rate);
    hide Carrying, Allocated, InRupees, Round2, IsMoney, ReceiptLines, Posting, AllAtPar, BankRounding, GainRounding,
      ReceiptGap, Overcharge, ReceiptGain;
    ReceiptPostsIff(r, sales);
  }

  lemma ParBank(r: Receipt)
    requires r.rate == 1.0 && IsMoney(r.amount - r.bankCharges)
    ensures BankRounding(r) == 0.0
  {
    AtOne(r.amount - r.bankCharges, r.rate);
    AtOne(r.amount - r.bankCharges + Overcharge(r), r.rate);
    Round2OfMoney(r.amount - r.bankCharges);
    hide Round2, IsMoney, InRupees;
  }

  lemma ParGain(r: Receipt, sales: seq<Invoice>)
    requires Refer(r.allocations, |sales|) && r.rate == 1.0 && AllAtPar(sales)
    ensures GainRounding(r, sales) == 0.0
  {
    CarryingIsAllocated(sales, r.allocations);
    AtOne(Allocated(r.allocations), r.rate);
    ZeroIsMoney();
    Round2OfMoney(0.0);
    hide Carrying, Allocated, InRupees, Round2, IsMoney, AllAtPar;
  }

  /** A note of whole paise is accepted exactly when it has no gap. */
  lemma NotePostsAtPar(n: Note, x: Invoice)
    requires NoteAmounts(n, x) && x.rate == 1.0
    requires IsMoney(n.total) && IsMoney(n.taxable) && IsMoney(Tax(n.taxes))
    ensures Posting(NoteLines(n, x)).Success? <==> NoteGap(n) == 0.0
  {
    BookedAtPar(n.total);
    BookedAtPar(n.taxable);
    BookedAtPar(Tax(n.taxes));
    hide Booked, Tax, NoteLines, Posting, IsMoney;
    NotePostsIff(n, x);
  }
}
