/** The finance services as they run: each call against the tables, proved equal to its specification. */
module FinanceServices {
  import opened Wrappers
  import opened Decimals
  import opened FinancePosting

  class FinanceService {
    var bills: seq<Invoice>
    var sales: seq<Invoice>
    var payments: seq<Payment>
    var receipts: seq<Receipt>
    var notes: seq<Note>
    var journals: seq<Journal>
    var fxConfigured: bool

    constructor (fxConfigured: bool)
      ensures State() == Store([], [], [], [], [], [], fxConfigured)
    {
      bills, sales, payments, receipts, notes, journals := [], [], [], [], [], [];
      this.fxConfigured := fxConfigured;
    }

    function State(): Store
      reads this
    {
      Store(bills, sales, payments, receipts, notes, journals, fxConfigured)
    }

    // -------------------------------------------------------------- the posting helper

    /** Drops the lines without an amount, then checks the rest: the loop of `validateLines`. */
    static method PostJournal(lines: Journal) returns (posted: Result<Journal, Error>)
      ensures posted == Posting(lines)
    {
      var kept: Journal := [];
      for i := 0 to |lines|
        invariant kept == WithAmounts(lines[..i])
      {
        assert lines[..i + 1][..i] == lines[..i];
        if CarriesAmount(lines[i]) {
          kept := kept + [lines[i]];
        }
      }
      assert lines[..|lines|] == lines;
      var debits, credits := 0.0, 0.0;
      for i := 0 to |kept|
        invariant debits == Debits(kept[..i]) && credits == Credits(kept[..i])
        invariant forall k :: 0 <= k < i ==> OneSided(kept[k])
      {
        assert kept[..i + 1][..i] == kept[..i];
        if !OneSided(kept[i]) {
          return Failure(BadRequest);
        }
        debits, credits := debits + kept[i].debit, credits + kept[i].credit;
      }
      assert kept[..|kept|] == kept;
      if debits <= 0.0 || debits != credits {
        return Failure(BadRequest);
      }
      return Success(kept);
    }

    // -------------------------------------------------------------- bills and payments

    method CreateApInvoice(q: BillRequest) returns (outcome: Outcome<Error>)
      modifies this
      ensures Follows(old(State()), State(), outcome, CreateBill(old(State()), q))
    {
      hide Round2, LineTaxable, Stored;
      if !ValidBillLines(q.lines) {
        return Fail(BadRequest);
      }
      if q.rate <= 0.0 || !ValidTaxes(q.taxes) || q.other < 0.0 || q.tds < 0.0 {
        return Fail(BadRequest);
      }
      var taxable, lineTax := 0.0, 0.0;
      for i := 0 to |q.lines|
        invariant taxable == BillTaxable(q.lines[..i]) && lineTax == BillTax(q.lines[..i])
        invariant State() == old(State())
      {
        assert q.lines[..i + 1][..i] == q.lines[..i];
        taxable := taxable + LineTaxable(q.lines[i]);
        lineTax := lineTax + q.lines[i].tax;
      }
      assert q.lines[..|q.lines|] == q.lines;
      var tax := Tax(q.taxes);
      var total := taxable + tax + q.other;
      var outstanding := total - q.tds;
      if tax != lineTax {
        return Fail(BadRequest);
      }
      if outstanding < 0.0 {
        return Fail(BadRequest);
      }
      bills := bills + [Stored(Invoice(q.party, q.ordered, q.rate, taxable, q.taxes, q.other, q.tds, outstanding, 0.0,
          Unposted))];
      return Pass;
    }

    method SetInvoiceTds(id: nat, base: real, percent: real) returns (outcome: Outcome<Error>)
      modifies this
      ensures Follows(old(State()), State(), outcome, SetTds(old(State()), id, base, percent))
    {
      hide Round2;
      if base < 0.0 || percent < 0.0 {
        return Fail(BadRequest);
      }
      if id >= |bills| {
        return Fail(NotFound);
      }
      if !bills[id].status.Unposted? {
        return Fail(BadRequest);
      }
      var amount := Round2(base * percent / 100.0);
      bills := bills[id := bills[id].(tds := amount)];
      return Pass;
    }

    method PostApInvoice(id: nat) returns (outcome: Outcome<Error>)
      modifies this
      ensures Follows(old(State()), State(), outcome, PostBill(old(State()), id))
    {
      hide Booked, Posting;
      if id >= |bills| {
        return Fail(NotFound);
      }
      var x := bills[id];
      if !x.status.Unposted? {
        return Fail(BadRequest);
      }
      var tax, payable, tds := Booked(Tax(x.taxes), x.rate), Booked(x.outstanding, x.rate), Booked(x.tds, x.rate);
      var lines := [Debit(if x.ordered then Inventory else Expense, Booked(x.taxable + x.other, x.rate))];
      if tax > 0.0 {
        lines := lines + [Debit(InputTax, tax)];
      }
      lines := lines + [Credit(Payables, payable)];
      if tds > 0.0 {
        lines := lines + [Credit(TdsPayable, tds)];
      }
      assert lines == BillLines(x);
      var posted := PostJournal(lines);
      if posted.Failure? {
        return Fail(posted.error);
      }
      journals := journals + [posted.value];
      bills := bills[id := x.(status := Open)];
      return Pass;
    }

    method CreateApPayment(party: Party, rate: real, amount: real, allocations: seq<Allocation>)
        returns (outcome: Outcome<Error>)
      modifies this
      ensures Follows(old(State()), State(), outcome, CreatePayment(old(State()), party, rate, amount, allocations))
    {
      if rate <= 0.0 || amount < 0.01 || !Positive(allocations) {
        return Fail(BadRequest);
      }
      if !Once(allocations) {
        return Fail(BadRequest);
      }
      if !Refer(allocations, |bills|) {
        return Fail(BadRequest);
      }
      if exists i :: 0 <= i < |allocations| && !Allocatable(bills, party, allocations[i]) {
        return Fail(BadRequest);
      }
      for i := 0 to |allocations|
        invariant State() == old(State())
        invariant forall k :: 0 <= k < i ==> allocations[k].amount <= bills[allocations[k].invoice].outstanding
      {
        if allocations[i].amount > bills[allocations[i].invoice].outstanding {
          return Fail(BadRequest);
        }
      }
      if Allocated(allocations) > amount {
        return Fail(BadRequest);
      }
      payments := payments + [Payment(party, rate, Round2(amount), StoredAllocations(allocations), false)];
      return Pass;
    }

    method ExecuteApPayment(id: nat) returns (outcome: Outcome<Error>)
      modifies this
      ensures Follows(old(State()), State(), outcome, ExecutePayment(old(State()), id))
    {
      hide PaymentGain, PaymentLines, ReceiptGain, ReceiptLines, Posting;
      if id >= |payments| {
        return Fail(NotFound);
      }
      var p := payments[id];
      if p.executed {
        return Fail(BadRequest);
      }
      if !Refer(p.allocations, |bills|) {
        return Fail(Internal);
      }
      var lines := BuildPaymentLines(p, bills, fxConfigured);
      if lines.None? {
        return Fail(BadRequest);
      }
      var posted := PostJournal(lines.value);
      if posted.Failure? {
        return Fail(posted.error);
      }
      journals := journals + [posted.value];
      bills := SettleInvoices(bills, p.allocations);
      payments := payments[id := p.(executed := true)];
      return Pass;
    }

    /** The journal of a payment; none when it has an exchange difference and no account to post it to. */
    static method BuildPaymentLines(p: Payment, bills: seq<Invoice>, fxConfigured: bool)
        returns (built: Option<Journal>)
      requires Refer(p.allocations, |bills|)
      ensures built == if PaymentGain(p, bills) != 0.0 && !fxConfigured then None else Some(PaymentLines(p, bills))
    {
      hide Carrying, Allocated, Round2, InRupees;
      var settled, carrying := Allocated(p.allocations), Carrying(bills, p.allocations);
      var unapplied := p.amount - settled;
      var lines: Journal := [];
      if settled > 0.0 {
        lines := lines + [Debit(Payables, carrying)];
      }
      if unapplied > 0.0 {
        lines := lines + [Debit(VendorAdvance, InRupees(unapplied, p.rate))];
      }
      lines := lines + [Credit(Bank, InRupees(p.amount, p.rate))];
      var realizedFx := Round2(carrying - InRupees(settled, p.rate));
      if realizedFx != 0.0 {
        if !fxConfigured {
          return None;
        }
        lines := lines + FxLine(realizedFx);
      }
      assert lines == PaymentLines(p, bills);
      return Some(lines);
    }

    /** The loop over the allocations, each reading its invoice as it was before the loop. */
    static method SettleInvoices(loaded: seq<Invoice>, allocations: seq<Allocation>) returns (invoices: seq<Invoice>)
      requires Refer(allocations, |loaded|)
      ensures invoices == Settle(loaded, allocations)
    {
      invoices := loaded;
      for i := 0 to |allocations|
        invariant invoices == Settle(loaded, allocations[..i])
      {
        var a := allocations[i];
        assert allocations[..i + 1][..i] == allocations[..i];
        var left := loaded[a.invoice].outstanding - a.amount;
        var x := invoices[a.invoice];
        invoices := invoices[a.invoice := x.(outstanding := left, paid := x.paid + a.amount,
                                             status := if left <= 0.0 then Paid else PartiallyPaid)];
      }
      assert allocations[..|allocations|] == allocations;
    }

    // -------------------------------------------------------------- sales and receipts

    method CreateSalesInvoice(q: SalesRequest) returns (outcome: Outcome<Error>)
      modifies this
      ensures Follows(old(State()), State(), outcome, CreateSale(old(State()), q))
    {
      hide Round2, Stored, AddUp;
      if q.rate <= 0.0 || q.other < 0.0 || !ValidSalesLines(q.lines) {
        return Fail(BadRequest);
      }
      if exists i :: 0 <= i < |q.lines| && !RatesAgree(q.lines[i]) {
        return Fail(BadRequest);
      }
      var sum := AddUp(q.lines);
      var total := Round2(sum.taxable + Tax(sum.taxes) + q.other + q.roundOff);
      sales := sales + [Stored(Invoice(q.party, false, q.rate, sum.taxable, sum.taxes, q.other, 0.0, total, 0.0,
          Unposted))];
      return Pass;
    }

    method IssueAndPost(id: nat) returns (outcome: Outcome<Error>)
      modifies this
      ensures Follows(old(State()), State(), outcome, PostSale(old(State()), id))
    {
      hide Booked, Posting;
      if id >= |sales| {
        return Fail(NotFound);
      }
      var x := sales[id];
      if !x.status.Unposted? {
        return Fail(BadRequest);
      }
      var total, tax := Booked(x.outstanding, x.rate), Booked(Tax(x.taxes), x.rate);
      var posted := PostJournal([Debit(Receivables, total), Credit(Revenue, total - tax), Credit(OutputTax, tax)]);
      if posted.Failure? {
        return Fail(posted.error);
      }
      journals := journals + [posted.value];
      sales := sales[id := x.(status := Open)];
      return Pass;
    }

    method CreateCustomerReceipt(q: ReceiptRequest) returns (outcome: Outcome<Error>)
      modifies this
      ensures Follows(old(State()), State(), outcome, CreateReceipt(old(State()), q))
    {
      hide Round2, Allocated, StoredAllocations, Allocatable, Positive;
      if q.rate <= 0.0 || q.amount < 0.01 || q.tdsDeducted < 0.0 || q.bankCharges < 0.0 || !Positive(q.allocations) {
        return Fail(BadRequest);
      }
      if exists i :: 0 <= i < |q.allocations| && q.allocations[i].invoice < |sales| &&
          !Allocatable(sales, q.party, q.allocations[i]) {
        return Fail(BadRequest);
      }
      for i := 0 to |q.allocations|
        invariant State() == old(State())
        invariant CheckAllocations(sales, q.allocations[i..]) == CheckAllocations(sales, q.allocations)
      {
        assert q.allocations[i..][1..] == q.allocations[i + 1..];
        var a := q.allocations[i];
        if a.invoice >= |sales| {
          return Fail(Internal);
        }
        if a.amount > sales[a.invoice].outstanding {
          return Fail(BadRequest);
        }
      }
      var settled := q.amount + q.tdsDeducted;
      if Allocated(q.allocations) > settled {
        return Fail(BadRequest);
      }
      if !Once(q.allocations) {
        return Fail(Conflict);
      }
      receipts := receipts + [NewReceipt(q)];
      return Pass;
    }

    method PostCustomerReceipt(id: nat) returns (outcome: Outcome<Error>)
      modifies this
      ensures Follows(old(State()), State(), outcome, PostReceipt(old(State()), id))
    {
      hide PaymentGain, PaymentLines, ReceiptGain, ReceiptLines, Posting;
      if id >= |receipts| {
        return Fail(NotFound);
      }
      var r := receipts[id];
      if r.posted {
        return Fail(BadRequest);
      }
      if !Refer(r.allocations, |sales|) {
        return Fail(Internal);
      }
      var lines := BuildReceiptLines(r, sales, fxConfigured);
      if lines.None? {
        return Fail(BadRequest);
      }
      var posted := PostJournal(lines.value);
      if posted.Failure? {
        return Fail(posted.error);
      }
      journals := journals + [posted.value];
      sales := SettleInvoices(sales, r.allocations);
      receipts := receipts[id := r.(posted := true)];
      return Pass;
    }

    /** The journal of a receipt; none when it has an exchange difference and no account to post it to. */
    static method BuildReceiptLines(r: Receipt, sales: seq<Invoice>, fxConfigured: bool)
        returns (built: Option<Journal>)
      requires Refer(r.allocations, |sales|)
      ensures built == if ReceiptGain(r, sales) != 0.0 && !fxConfigured then None else Some(ReceiptLines(r, sales))
    {
      hide Carrying, Allocated, Booked, Round2, InRupees, When, FxLine;
      var bankNet := Booked(r.amount - r.bankCharges, r.rate);
      var lines := When(bankNet > 0.0, Debit(Bank, bankNet));
      lines := lines + When(r.bankCharges > 0.0, Debit(Expense, InRupees(r.bankCharges, r.rate)));
      lines := lines + When(r.tdsDeducted > 0.0, Debit(TdsReceivable, InRupees(r.tdsDeducted, r.rate)));
      var settled, carrying := Allocated(r.allocations), Carrying(sales, r.allocations);
      lines := lines + When(settled > 0.0, Credit(Receivables, carrying));
      lines := lines + When(r.unapplied > 0.0, Credit(CustomerAdvance, InRupees(r.unapplied, r.rate)));
      var realizedFx := Round2(InRupees(settled, r.rate) - carrying);
      if realizedFx != 0.0 {
        if !fxConfigured {
          return None;
        }
      }
      return Some(lines + FxLine(realizedFx));
    }

    // -------------------------------------------------------------- notes

    method CreateAdjustmentNote(side: Side, increase: bool, invoice: nat, taxable: real, taxes: Taxes)
      returns (outcome: Outcome<Error>)
      modifies this
      ensures Follows(old(State()), State(), outcome, CreateNote(old(State()), side, increase, invoice, taxable, taxes))
    {
      hide Round2;
      var total := Round2(taxable + Tax(taxes));
      if taxable < 0.0 || !ValidTaxes(taxes) || total <= 0.0 {
        return Fail(BadRequest);
      }
      var invoices := Invoices(State(), side);
      if invoice >= |invoices| {
        return Fail(NotFound);
      }
      if !IsOpen(invoices[invoice]) {
        return Fail(BadRequest);
      }
      if !increase && total > invoices[invoice].outstanding {
        return Fail(BadRequest);
      }
      notes := notes + [Note(side, increase, invoice, Round2(taxable), StoredTaxes(taxes), total, false)];
      return Pass;
    }

    method PostAdjustmentNote(id: nat) returns (outcome: Outcome<Error>)
      modifies this
      ensures Follows(old(State()), State(), outcome, PostNote(old(State()), id))
    {
      hide Booked, Posting;
      if id >= |notes| {
        return Fail(NotFound);
      }
      var n := notes[id];
      var invoices := Invoices(State(), n.side);
      if n.posted {
        return Fail(BadRequest);
      }
      if n.invoice >= |invoices| {
        return Fail(Internal);
      }
      var x := invoices[n.invoice];
      if !n.increase && n.total > x.outstanding {
        return Fail(BadRequest);
      }
      var tax := Booked(Tax(n.taxes), x.rate);
      var controlDebit := n.side.Receivable? == n.increase;
      var control := if n.side.Receivable? then Receivables else Payables;
      var base := if n.side.Receivable? then Revenue else if x.ordered then Inventory else Expense;
      var lines := [Sided(control, controlDebit, Booked(n.total, x.rate)),
          Sided(base, !controlDebit, Booked(n.taxable, x.rate))];
      if tax > 0.0 {
        lines := lines + [Sided(if n.side.Receivable? then OutputTax else InputTax, !controlDebit, tax)];
      }
      assert lines == NoteLines(n, x);
      var posted := PostJournal(lines);
      if posted.Failure? {
        return Fail(posted.error);
      }
      journals := journals + [posted.value];
      var delta := if n.increase then n.total else -n.total;
      var next := x.outstanding + delta;
      var noted := x.(outstanding := next);
      if next == 0.0 {
        noted := noted.(status := Paid);
      }
      if n.side.Receivable? {
        sales := sales[n.invoice := noted];
      } else {
        bills := bills[n.invoice := noted];
      }
      notes := notes[id := n.(posted := true)];
      return Pass;
    }
  }
}
