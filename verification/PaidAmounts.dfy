/** What is outstanding and paid on every invoice of a run, from what was entered and posted. */
module PaidAmounts {
  import opened Wrappers
  import opened Decimals
  import opened FinancePosting
  import opened FinancePostingLaws
  import opened ControlAccounts
  import opened JournalBalance
  import opened Outstanding
  import opened AsEntered

  // ---------------------------------------------------------------- one settlement

  /** The allocations to the invoice. */
  function AmountTo(allocations: seq<Allocation>, i: nat): real {
    if allocations == [] then 0.0
    else
      var last := allocations[|allocations| - 1];
      AmountTo(allocations[..|allocations| - 1], i) + if last.invoice == i then last.amount else 0.0
  }

  predicate IsNamed(allocations: seq<Allocation>, i: nat) {
    exists k :: 0 <= k < |allocations| && allocations[k].invoice == i
  }

  lemma {:induction false} NotNamed(allocations: seq<Allocation>, i: nat)
    requires !IsNamed(allocations, i)
    ensures AmountTo(allocations, i) == 0.0
  {
    if allocations != [] {
      NotNamed(allocations[..|allocations| - 1], i);
    }
  }

  /** What a settlement of different invoices leaves of each. */
  lemma {:induction false} SettledRow(invoices: seq<Invoice>, allocations: seq<Allocation>, i: nat)
    requires Refer(allocations, |invoices|) && Once(allocations) && i < |invoices|
    ensures var x, y, amount := invoices[i], Settle(invoices, allocations)[i], AmountTo(allocations, i);
      if IsNamed(allocations, i) then
        y == x.(outstanding := x.outstanding - amount, paid := x.paid + amount,
                status := if x.outstanding - amount <= 0.0 then Paid else PartiallyPaid)
      else y == x && amount == 0.0
  {
    if allocations != [] {
      var init, last := allocations[..|allocations| - 1], allocations[|allocations| - 1];
      SettledRow(invoices, init, i);
      assert IsNamed(allocations, i) <==> last.invoice == i || IsNamed(init, i);
      if last.invoice == i {
        assert !IsNamed(init, i);
        NotNamed(init, i);
      }
    }
  }

  // ---------------------------------------------------------------- what a run has posted

  function PaidOn(payments: seq<Payment>, i: nat): real {
    if payments == [] then 0.0
    else
      var last := payments[|payments| - 1];
      PaidOn(payments[..|payments| - 1], i) + if last.executed then AmountTo(last.allocations, i) else 0.0
  }

  function ReceivedOn(receipts: seq<FinancePosting.Receipt>, i: nat): real {
    if receipts == [] then 0.0
    else
      var last := receipts[|receipts| - 1];
      ReceivedOn(receipts[..|receipts| - 1], i) + if last.posted then AmountTo(last.allocations, i) else 0.0
  }

  /** Debit notes less credit notes posted on the invoice. */
  function NotedOn(notes: seq<Note>, side: Side, i: nat): real {
    if notes == [] then 0.0
    else
      var last := notes[|notes| - 1];
      NotedOn(notes[..|notes| - 1], side, i)
      + if last.posted && last.side == side && last.invoice == i then
          (if last.increase then last.total else -last.total)
        else 0.0
  }

  function SettledOn(s: Store, side: Side, i: nat): real {
    if side.Receivable? then ReceivedOn(s.receipts, i) else PaidOn(s.payments, i)
  }

  lemma {:induction false} PaidUpdate(payments: seq<Payment>, k: nat, i: nat)
    requires k < |payments| && !payments[k].executed
    ensures PaidOn(payments[k := payments[k].(executed := true)], i) ==
            PaidOn(payments, i) + AmountTo(payments[k].allocations, i)
  {
    var n, p := |payments| - 1, payments[k].(executed := true);
    if k == n {
      assert payments[k := p][..n] == payments[..n];
    } else {
      assert payments[k := p][..n] == payments[..n][k := p];
      PaidUpdate(payments[..n], k, i);
    }
  }

  lemma {:induction false} ReceivedUpdate(receipts: seq<FinancePosting.Receipt>, k: nat, i: nat)
    requires k < |receipts| && !receipts[k].posted
    ensures ReceivedOn(receipts[k := receipts[k].(posted := true)], i) ==
            ReceivedOn(receipts, i) + AmountTo(receipts[k].allocations, i)
  {
    var n, r := |receipts| - 1, receipts[k].(posted := true);
    if k == n {
      assert receipts[k := r][..n] == receipts[..n];
    } else {
      assert receipts[k := r][..n] == receipts[..n][k := r];
      ReceivedUpdate(receipts[..n], k, i);
    }
  }

  lemma {:induction false} NotedUpdate(notes: seq<Note>, k: nat, side: Side, i: nat)
    requires k < |notes| && !notes[k].posted
    ensures NotedOn(notes[k := notes[k].(posted := true)], side, i) ==
            NotedOn(notes, side, i) +
            if notes[k].side == side && notes[k].invoice == i then
              (if notes[k].increase then notes[k].total else -notes[k].total)
            else 0.0
  {
    var m, n := |notes| - 1, notes[k].(posted := true);
    if k == m {
      assert notes[k := n][..m] == notes[..m];
    } else {
      assert notes[k := n][..m] == notes[..m][k := n];
      NotedUpdate(notes[..m], k, side, i);
    }
  }

  /** Nothing has been posted on an invoice that is not there yet. */
  lemma {:induction false} NothingPaid(payments: seq<Payment>, count: nat, i: nat)
    requires count <= i && forall k :: 0 <= k < |payments| ==> Refer(payments[k].allocations, count)
    ensures PaidOn(payments, i) == 0.0
  {
    if payments != [] {
      var last := payments[|payments| - 1];
      NothingPaid(payments[..|payments| - 1], count, i);
      NotNamed(last.allocations, i);
    }
  }

  lemma {:induction false} NothingReceived(receipts: seq<FinancePosting.Receipt>, count: nat, i: nat)
    requires count <= i && forall k :: 0 <= k < |receipts| ==> Refer(receipts[k].allocations, count)
    ensures ReceivedOn(receipts, i) == 0.0
  {
    if receipts != [] {
      var last := receipts[|receipts| - 1];
      NothingReceived(receipts[..|receipts| - 1], count, i);
      NotNamed(last.allocations, i);
    }
  }

  lemma {:induction false} NothingNoted(notes: seq<Note>, side: Side, count: nat, i: nat)
    requires count <= i && forall k :: 0 <= k < |notes| && notes[k].side == side ==> notes[k].invoice < count
    ensures NotedOn(notes, side, i) == 0.0
  {
    if notes != [] {
      NothingNoted(notes[..|notes| - 1], side, count, i);
    }
  }

  // ---------------------------------------------------------------- runs

  /** The invoice has its first amount outstanding, less what was settled, plus what was noted. */
  ghost predicate Owes(s: Store, side: Side, i: nat, first: real) {
    i < |Invoices(s, side)| &&
    var x := Invoices(s, side)[i];
    && x.paid == SettledOn(s, side, i)
    && x.outstanding == first - SettledOn(s, side, i) + NotedOn(s.notes, side, i)
  }

  /** Rows are only added, and none that is posted. */
  ghost predicate OnlyAdds(s: Store, t: Store) {
    && s.bills <= t.bills && s.sales <= t.sales
    && (t.payments == s.payments
        || (t.payments != [] && t.payments[..|t.payments| - 1] == s.payments
            && !t.payments[|t.payments| - 1].executed))
    && (t.receipts == s.receipts
        || (t.receipts != [] && t.receipts[..|t.receipts| - 1] == s.receipts
            && !t.receipts[|t.receipts| - 1].posted))
    && (t.notes == s.notes
        || (t.notes != [] && t.notes[..|t.notes| - 1] == s.notes && !t.notes[|t.notes| - 1].posted))
  }

  lemma EntryAdds(s: Store, op: Op)
    requires KindOf(op).Some?
    ensures OnlyAdds(s, Step(s, op))
  {
    hide Step, BillAs, SaleAs, BillValid, SaleValid, PaymentAs, ReceiptAs, NoteAs, AllSettleable, NoteValid, AmountSum,
      BillCharged, Charged, TaxSum, Round2;
    match op
    case CreateBillOp(q) => BillEnters(s, q);
    case CreateSaleOp(q) => SaleEnters(s, q);
    case CreatePaymentOp(party, rate, amount, allocations) => PaymentEnters(s, party, rate, amount, allocations);
    case CreateReceiptOp(q) => ReceiptEnters(s, q);
    case CreateNoteOp(on, increase, invoice, taxable, taxes) => NoteEnters(s, on, increase, invoice, taxable, taxes);
  }

  lemma SettledStays(s: Store, t: Store, side: Side, i: nat)
    requires OnlyAdds(s, t)
    ensures SettledOn(t, side, i) == SettledOn(s, side, i) && NotedOn(t.notes, side, i) == NotedOn(s.notes, side, i)
  {
    assert PaidOn(t.payments, i) == PaidOn(s.payments, i) && ReceivedOn(t.receipts, i) == ReceivedOn(s.receipts, i);
    hide PaidOn, ReceivedOn;
  }

  lemma NewOwes(s: Store, op: Op, side: Side)
    requires Inv(s) && |Invoices(Step(s, op), side)| > |Invoices(s, side)|
    ensures var t := Step(s, op);
      var i := |Invoices(s, side)|;
      && |Invoices(t, side)| == i + 1 && Owes(t, side, i, Invoices(t, side)[i].outstanding)
  {
    var t, i := Step(s, op), |Invoices(s, side)|;
    Referred(s, side, i);
    if KindOf(op).None? {
      PostingStays(s, op);
    }
    hide Inv, Step;
    EntryAdds(s, op);
    SettledStays(s, t, side, i);
    NewInvoice(s, op, side);
    hide OnlyAdds, SettledOn, NotedOn;
  }

  lemma NewInvoice(s: Store, op: Op, side: Side)
    requires KindOf(op).Some? && |Invoices(Step(s, op), side)| > |Invoices(s, side)|
    ensures var invoices, i := Invoices(Step(s, op), side), |Invoices(s, side)|;
      |invoices| == i + 1 && invoices[i].paid == 0.0
  {
    hide Step, BillAs, SaleAs, BillValid, SaleValid, PaymentAs, ReceiptAs, NoteAs, AllSettleable, NoteValid,
      AmountSum, BillCharged, Charged, TaxSum, Round2;
    match op
    case CreateBillOp(q) => BillEnters(s, q);
    case CreateSaleOp(q) => SaleEnters(s, q);
    case CreatePaymentOp(party, rate, amount, allocations) => PaymentEnters(s, party, rate, amount, allocations);
    case CreateReceiptOp(q) => ReceiptEnters(s, q);
    case CreateNoteOp(on, increase, invoice, taxable, taxes) => NoteEnters(s, on, increase, invoice, taxable, taxes);
  }

  lemma Referred(s: Store, side: Side, i: nat)
    requires Inv(s) && i >= |Invoices(s, side)|
    ensures SettledOn(s, side, i) == 0.0 && NotedOn(s.notes, side, i) == 0.0
  {
    forall k | 0 <= k < |s.payments|
      ensures Refer(s.payments[k].allocations, |s.bills|)
    {
      PaymentOf(s, k);
    }
    forall k | 0 <= k < |s.receipts|
      ensures Refer(s.receipts[k].allocations, |s.sales|)
    {
      ReceiptOf(s, k);
    }
    forall k | 0 <= k < |s.notes|
      ensures s.notes[k].invoice < |Invoices(s, s.notes[k].side)|
    {
      NoteOf(s, k);
    }
    hide Inv, Refer;
    NothingNoted(s.notes, side, |Invoices(s, side)|, i);
    if side.Receivable? {
      NothingReceived(s.receipts, |s.sales|, i);
    } else {
      NothingPaid(s.payments, |s.bills|, i);
    }
  }

  lemma PaymentTerms(s: Store, id: nat)
    requires Inv(s) && id < |s.payments|
    ensures Refer(s.payments[id].allocations, |s.bills|) && Once(s.payments[id].allocations)
  {
    PaymentOf(s, id);
    hide Inv;
  }

  lemma ReceiptTerms(s: Store, id: nat)
    requires Inv(s) && id < |s.receipts|
    ensures Refer(s.receipts[id].allocations, |s.sales|) && Once(s.receipts[id].allocations)
  {
    ReceiptOf(s, id);
    hide Inv;
  }

  lemma ExecuteIs(s: Store, id: nat)
    requires ExecutePayment(s, id).Success?
    ensures var t, p := ExecutePayment(s, id).value, s.payments[id];
      && !p.executed && Refer(p.allocations, |s.bills|) && t.bills == Settle(s.bills, p.allocations)
      && t.payments == s.payments[id := p.(executed := true)]
      && t.sales == s.sales && t.receipts == s.receipts && t.notes == s.notes
  {
    hide PaymentLines, PaymentGain, Posting, Settle;
  }

  lemma ReceiveIs(s: Store, id: nat)
    requires PostReceipt(s, id).Success?
    ensures var t, r := PostReceipt(s, id).value, s.receipts[id];
      && !r.posted && Refer(r.allocations, |s.sales|) && t.sales == Settle(s.sales, r.allocations)
      && t.receipts == s.receipts[id := r.(posted := true)]
      && t.bills == s.bills && t.payments == s.payments && t.notes == s.notes
  {
    hide ReceiptLines, ReceiptGain, Posting, Settle;
  }

  /** What is settled on the invoice moves its two amounts. */
  lemma OwesLess(s: Store, t: Store, side: Side, i: nat, first: real, amount: real)
    requires Owes(s, side, i, first) && i < |Invoices(t, side)| && t.notes == s.notes
    requires Invoices(t, side)[i].outstanding == Invoices(s, side)[i].outstanding - amount
    requires Invoices(t, side)[i].paid == Invoices(s, side)[i].paid + amount
    requires SettledOn(t, side, i) == SettledOn(s, side, i) + amount
    ensures Owes(t, side, i, first)
  {
    hide SettledOn, NotedOn;
  }

  lemma ExecuteOwes(s: Store, id: nat, side: Side, i: nat, first: real)
    requires Inv(s) && ExecutePayment(s, id).Success? && Owes(s, side, i, first)
    ensures Owes(ExecutePayment(s, id).value, side, i, first)
  {
    var t, p := ExecutePayment(s, id).value, s.payments[id];
    assert i < |Invoices(s, side)|;
    ExecuteIs(s, id);
    PaymentTerms(s, id);
    hide Inv, Owes, ExecutePayment, Settle, PaidOn, ReceivedOn, AmountTo, Once, IsNamed, Refer;
    if side.Payable? {
      PaidUpdate(s.payments, id, i);
      SettledRow(s.bills, p.allocations, i);
      OwesLess(s, t, side, i, first, AmountTo(p.allocations, i));
    } else {
      OwesLess(s, t, side, i, first, 0.0);
    }
  }

  lemma ReceiveOwes(s: Store, id: nat, side: Side, i: nat, first: real)
    requires Inv(s) && PostReceipt(s, id).Success? && Owes(s, side, i, first)
    ensures Owes(PostReceipt(s, id).value, side, i, first)
  {
    var t, r := PostReceipt(s, id).value, s.receipts[id];
    assert i < |Invoices(s, side)|;
    ReceiveIs(s, id);
    ReceiptTerms(s, id);
    hide Inv, Owes, PostReceipt, Settle, PaidOn, ReceivedOn, AmountTo, Once, IsNamed, Refer;
    if side.Receivable? {
      ReceivedUpdate(s.receipts, id, i);
      SettledRow(s.sales, r.allocations, i);
      OwesLess(s, t, side, i, first, AmountTo(r.allocations, i));
    } else {
      OwesLess(s, t, side, i, first, 0.0);
    }
  }

  lemma NoteOwes(s: Store, id: nat, side: Side, i: nat, first: real)
    requires PostNote(s, id).Success? && Owes(s, side, i, first)
    ensures Owes(PostNote(s, id).value, side, i, first)
  {
    hide NoteLines, Posting, PaidOn, ReceivedOn, NotedOn;
    NotedUpdate(s.notes, id, side, i);
  }

  lemma OpenOwes(s: Store, op: Op, side: Side, i: nat, first: real)
    requires Owes(s, side, i, first) && (op.PostBillOp? || op.PostSaleOp? || op.SetTdsOp?)
    ensures Owes(Step(s, op), side, i, first)
  {
    hide BillLines, SalesLines, Posting, TdsOn, PaidOn, ReceivedOn, NotedOn;
  }

  lemma EntryOwes(s: Store, op: Op, side: Side, i: nat, first: real)
    requires Owes(s, side, i, first) && KindOf(op).Some?
    ensures Owes(Step(s, op), side, i, first)
  {
    EntryAdds(s, op);
    SettledStays(s, Step(s, op), side, i);
    hide Step, SettledOn, NotedOn;
  }

  lemma StepOwes(s: Store, op: Op, side: Side, i: nat, first: real)
    requires Inv(s) && Owes(s, side, i, first)
    ensures Owes(Step(s, op), side, i, first)
  {
    hide Inv, Owes, ExecutePayment, PostReceipt, PostNote;
    if KindOf(op).Some? {
      EntryOwes(s, op, side, i, first);
    } else if Apply(s, op).Success? {
      match op
      case ExecutePaymentOp(id) => ExecuteOwes(s, id, side, i, first);
      case PostReceiptOp(id) => ReceiveOwes(s, id, side, i, first);
      case PostNoteOp(id) => NoteOwes(s, id, side, i, first);
      case _ => OpenOwes(s, op, side, i, first);
    }
  }

  /** What was first outstanding on the i-th invoice entered. */
  function First(e: Op): real {
    match e
    case CreateBillOp(q) => Round2(BillCharged(q.lines) + TaxSum(q.taxes) + q.other - q.tds)
    case CreateSaleOp(q) =>
      Round2(Charged(q.lines) + Levied(q.lines, Central) + Levied(q.lines, State) + Levied(q.lines, Integrated)
             + q.other + q.roundOff)
    case _ => 0.0
  }

  function KindOn(side: Side): Kind {
    if side.Receivable? then Sales else Bills
  }

  ghost predicate AllOwe(s: Store, side: Side, entries: seq<Op>) {
    |entries| == |Invoices(s, side)| && forall i :: 0 <= i < |entries| ==> Owes(s, side, i, First(entries[i]))
  }

  lemma FirstIs(s: Store, op: Op, side: Side)
    requires KindOf(op) == Some(KindOn(side)) && Step(s, op) != s
    ensures |Invoices(Step(s, op), side)| == |Invoices(s, side)| + 1
    ensures Invoices(Step(s, op), side)[|Invoices(s, side)|].outstanding == First(op)
  {
    hide Step, BillValid, SaleValid, BillCharged, Charged, Levied, Round2;
    match op
    case CreateBillOp(q) => BillEnters(s, q);
    case CreateSaleOp(q) =>
      SaleEnters(s, q);
      FirstOfSale(q, Step(s, op));
  }

  lemma FirstOfSale(q: SalesRequest, t: Store)
    requires t.sales != [] && SaleAs(t.sales[|t.sales| - 1], q)
    ensures Round2(Charged(q.lines) + TaxSum(t.sales[|t.sales| - 1].taxes) + q.other + q.roundOff) ==
            First(CreateSaleOp(q))
  {
    hide Round2, Charged, Levied;
    var a, b, c := Levied(q.lines, Central), Levied(q.lines, State), Levied(q.lines, Integrated);
    assert Charged(q.lines) + (a + b + c) + q.other + q.roundOff == Charged(q.lines) + a + b + c + q.other + q.roundOff;
  }

  lemma StepAllOwe(s: Store, op: Op, side: Side, entries: seq<Op>)
    requires Inv(s) && AllOwe(s, side, entries)
    ensures AllOwe(Step(s, op), side,
                   entries + if KindOf(op) == Some(KindOn(side)) && Step(s, op) != s then [op] else [])
  {
    var t := Step(s, op);
    hide Step, Owes, First, Inv, KindOf;
    forall i | 0 <= i < |entries|
      ensures Owes(t, side, i, First(entries[i]))
    {
      StepOwes(s, op, side, i, First(entries[i]));
    }
    if KindOf(op) == Some(KindOn(side)) && t != s {
      FirstIs(s, op, side);
      NewOwes(s, op, side);
    } else {
      NoInvoiceAdded(s, op, side);
    }
  }

  lemma NoInvoiceAdded(s: Store, op: Op, side: Side)
    requires KindOf(op) != Some(KindOn(side)) || Step(s, op) == s
    ensures |Invoices(Step(s, op), side)| == |Invoices(s, side)|
  {
    if KindOf(op).None? {
      PostingStays(s, op);
    }
    hide Step, BillAs, SaleAs, BillValid, SaleValid, PaymentAs, ReceiptAs, NoteAs, AllSettleable, NoteValid, AmountSum,
      BillCharged, Charged, TaxSum, Round2;
    match op
    case CreateBillOp(q) => BillEnters(s, q);
    case CreateSaleOp(q) => SaleEnters(s, q);
    case CreatePaymentOp(party, rate, amount, allocations) => PaymentEnters(s, party, rate, amount, allocations);
    case CreateReceiptOp(q) => ReceiptEnters(s, q);
    case CreateNoteOp(on, increase, invoice, taxable, taxes) => NoteEnters(s, on, increase, invoice, taxable, taxes);
    case _ =>
  }

  lemma {:induction false} RunAllOwe(s: Store, ops: seq<Op>, side: Side, entries: seq<Op>)
    requires Inv(s) && AllOwe(s, side, entries)
    ensures AllOwe(Run(s, ops), side, entries + Entries(s, ops, KindOn(side)))
    decreases |ops|
  {
    hide Inv, AllOwe, Step, KindOf;
    if ops == [] {
      assert entries + [] == entries;
    } else {
      var t := Step(s, ops[0]);
      var more := if KindOf(ops[0]) == Some(KindOn(side)) && t != s then [ops[0]] else [];
      StepAllOwe(s, ops[0], side, entries);
      StepKeeps(s, ops[0]);
      RunAllOwe(t, ops[1..], side, entries + more);
      var rest := Entries(t, ops[1..], KindOn(side));
      assert entries + more + rest == entries + (more + rest);
    }
  }

  /**
   In every run what is paid on each invoice is what posted settlements allocated to it, and what is
   outstanding is what it first came to less that, plus posted debit notes and less credit notes.
   */
  lemma EveryRunOwes(fxConfigured: bool, ops: seq<Op>, side: Side, i: nat)
    requires i < |Invoices(Run(Empty(fxConfigured), ops), side)|
    ensures var s, entries := Run(Empty(fxConfigured), ops), Entries(Empty(fxConfigured), ops, KindOn(side));
      var x := Invoices(s, side)[i];
      && |entries| == |Invoices(s, side)|
      && x.paid == SettledOn(s, side, i)
      && x.outstanding == First(entries[i]) - SettledOn(s, side, i) + NotedOn(s.notes, side, i)
  {
    var e := Empty(fxConfigured);
    InvEmpty(fxConfigured);
    assert AllOwe(e, side, []);
    hide Inv, Run, First, SettledOn, NotedOn, Empty;
    RunAllOwe(e, ops, side, []);
    assert [] + Entries(e, ops, KindOn(side)) == Entries(e, ops, KindOn(side));
    assert Owes(Run(e, ops), side, i, First(Entries(e, ops, KindOn(side))[i]));
  }

  // ---------------------------------------------------------------- refusals

  /** The k-th allocation is the first that names no invoice or goes beyond what is outstanding: it names none. */
  predicate NamesNobodyFirst(sales: seq<Invoice>, allocations: seq<Allocation>, k: nat) {
    && k < |allocations| && allocations[k].invoice >= |sales|
    && forall j :: 0 <= j < k ==>
         allocations[j].invoice < |sales| && allocations[j].amount <= sales[allocations[j].invoice].outstanding
  }

  lemma {:induction false} CheckError(sales: seq<Invoice>, allocations: seq<Allocation>)
    requires CheckAllocations(sales, allocations).Fail?
    ensures var error := CheckAllocations(sales, allocations).error;
      && (error == Internal || error == BadRequest)
      && (error == Internal <==> exists k: nat :: NamesNobodyFirst(sales, allocations, k))
  {
    var a := allocations[0];
    if a.invoice >= |sales| {
      assert NamesNobodyFirst(sales, allocations, 0);
    } else if a.amount <= sales[a.invoice].outstanding {
      CheckError(sales, allocations[1..]);
      forall k: nat
        ensures NamesNobodyFirst(sales, allocations, k) <==> k > 0 && NamesNobodyFirst(sales, allocations[1..], k - 1)
      {
        if k > 0 {
          assert forall j :: 0 < j < |allocations| ==> allocations[j] == allocations[1..][j - 1];
        }
      }
      if k: nat :| NamesNobodyFirst(sales, allocations[1..], k) {
        assert NamesNobodyFirst(sales, allocations, k + 1);
      }
    } else {
      forall k: nat
        ensures !NamesNobodyFirst(sales, allocations, k)
      {
      }
    }
  }

  /** The request is fine but for its allocations, and each that names an invoice names an open one of the party. */
  predicate ReceiptSound(s: Store, q: ReceiptRequest) {
    && q.rate > 0.0 && q.amount >= 0.01 && q.tdsDeducted >= 0.0 && q.bankCharges >= 0.0
    && (forall k :: 0 <= k < |q.allocations| ==> q.allocations[k].amount >= 0.01)
    && forall k :: 0 <= k < |q.allocations| && q.allocations[k].invoice < |s.sales| ==>
         var x := s.sales[q.allocations[k].invoice];
         x.party == q.party && (x.status.Open? || x.status.PartiallyPaid?)
  }

  /** A refused receipt: an unknown invoice met first is an internal error, one named twice a conflict. */
  lemma ReceiptRefusedWith(s: Store, q: ReceiptRequest)
    requires CreateReceipt(s, q).Failure?
    ensures CreateReceipt(s, q).error ==
            if ReceiptSound(s, q) && exists k: nat :: NamesNobodyFirst(s.sales, q.allocations, k) then Internal
            else if ReceiptSound(s, q) && CheckAllocations(s.sales, q.allocations).Pass?
                    && AmountSum(q.allocations) <= q.amount + q.tdsDeducted then Conflict
            else BadRequest
  {
    AllocatedIs(q.allocations);
    if CheckAllocations(s.sales, q.allocations).Fail? {
      CheckError(s.sales, q.allocations);
    } else {
      CheckedIff(s.sales, q.allocations);
    }
    hide CheckAllocations, Allocated, AmountSum, Once;
  }

  /** Every other refused call: not found for a document that is not there, else a bad request. */
  lemma RefusedWith(s: Store, op: Op)
    requires Inv(s) && Apply(s, op).Failure? && !op.CreateReceiptOp?
    ensures Apply(s, op).error ==
            match op
            case CreateNoteOp(side, _, invoice, taxable, taxes) =>
              if taxable >= 0.0 && taxes.central >= 0.0 && taxes.state >= 0.0 && taxes.integrated >= 0.0
                 && Round2(taxable + TaxSum(taxes)) > 0.0 && invoice >= |Invoices(s, side)| then NotFound
              else BadRequest
            case SetTdsOp(id, base, percent) =>
              if base >= 0.0 && percent >= 0.0 && id >= |s.bills| then NotFound else BadRequest
            case PostBillOp(id) => if id >= |s.bills| then NotFound else BadRequest
            case PostSaleOp(id) => if id >= |s.sales| then NotFound else BadRequest
            case ExecutePaymentOp(id) => if id >= |s.payments| then NotFound else BadRequest
            case PostReceiptOp(id) => if id >= |s.receipts| then NotFound else BadRequest
            case PostNoteOp(id) => if id >= |s.notes| then NotFound else BadRequest
            case _ => BadRequest
  {
    match op
    case ExecutePaymentOp(id) => PaymentRefusedWith(s, id);
    case PostReceiptOp(id) => ReceivingRefusedWith(s, id);
    case PostNoteOp(id) => NotingRefusedWith(s, id);
    case _ => hide Inv, Round2, BillLines, SalesLines, Bill, Sale, Stored, StoredAllocations, Allocated, ExecutePayment,
                PostReceipt, PostNote,
                ValidBillLines, ValidSalesLines, WithAmounts, Balanced;
  }

  lemma PaymentRefusedWith(s: Store, id: nat)
    requires Inv(s) && ExecutePayment(s, id).Failure?
    ensures ExecutePayment(s, id).error == if id >= |s.payments| then NotFound else BadRequest
  {
    if id < |s.payments| {
      PaymentTerms(s, id);
    }
    hide Inv, Settle, PaymentLines, PaymentGain, WithAmounts, Balanced;
  }

  lemma ReceivingRefusedWith(s: Store, id: nat)
    requires Inv(s) && PostReceipt(s, id).Failure?
    ensures PostReceipt(s, id).error == if id >= |s.receipts| then NotFound else BadRequest
  {
    if id < |s.receipts| {
      ReceiptTerms(s, id);
    }
    hide Inv, Settle, ReceiptLines, ReceiptGain, WithAmounts, Balanced;
  }

  lemma NotingRefusedWith(s: Store, id: nat)
    requires Inv(s) && PostNote(s, id).Failure?
    ensures PostNote(s, id).error == if id >= |s.notes| then NotFound else BadRequest
  {
    if id < |s.notes| {
      NoteOf(s, id);
    }
    hide Inv, NoteLines, WithAmounts, Balanced;
  }
}
