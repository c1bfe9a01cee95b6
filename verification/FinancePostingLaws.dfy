/** How far the journals posted for each kind of document can be out of balance. */
module FinancePostingLaws {
  import opened Wrappers
  import opened Decimals
  import opened FinancePosting

  // ---------------------------------------------------------------- sums of entries

  predicate Kept(e: Entry, account: Option<Account>) {
    account.None? || e.account == account.value
  }

  /** Debits minus credits, of one account or of all. */
  function Net(lines: Journal, account: Option<Account>): real {
    if lines == [] then 0.0
    else
      var last := lines[|lines| - 1];
      Net(lines[..|lines| - 1], account) + if Kept(last, account) then last.debit - last.credit else 0.0
  }

  lemma {:induction false} NetConcat(a: Journal, b: Journal, account: Option<Account>)
    ensures Net(a + b, account) == Net(a, account) + Net(b, account)
  {
    if b == [] {
      assert a + b == a;
    } else {
      NetConcat(a, b[..|b| - 1], account);
      assert (a + b)[..|a + b| - 1] == a + b[..|b| - 1];
    }
  }

  lemma NetOfFour(a: Journal, b: Journal, c: Journal, d: Journal, account: Option<Account>)
    ensures Net(a + b + c + d, account) == Net(a, account) + Net(b, account) + Net(c, account) + Net(d, account)
  {
    hide Net;
    NetConcat(a, b, account);
    NetConcat(a + b, c, account);
    NetConcat(a + b + c, d, account);
  }

  lemma NetOfSix(a: Journal, b: Journal, c: Journal, d: Journal, e: Journal, f: Journal, account: Option<Account>)
    ensures Net(a + b + c + d + e + f, account) ==
            Net(a, account) + Net(b, account) + Net(c, account) + Net(d, account) + Net(e, account) + Net(f, account)
  {
    hide Net;
    NetConcat(a, b, account);
    NetConcat(a + b, c, account);
    NetConcat(a + b + c, d, account);
    NetConcat(a + b + c + d, e, account);
    NetConcat(a + b + c + d + e, f, account);
  }

  /** What a single line adds. */
  function Worth(e: Entry, account: Option<Account>): real {
    if Kept(e, account) then e.debit - e.credit else 0.0
  }

  lemma NetOfOne(e: Entry, account: Option<Account>)
    ensures Net([e], account) == Worth(e, account)
  {
    assert [e][..0] == [];
    assert Net([], account) == 0.0;
  }

  lemma NetWhen(condition: bool, e: Entry, account: Option<Account>)
    ensures Net(When(condition, e), account) == if condition then Worth(e, account) else 0.0
  {
    NetOfOne(e, account);
  }

  lemma NetFx(gain: real, account: Option<Account>)
    ensures account.None? ==> Net(FxLine(gain), account) == -gain
    ensures account == Some(Receivables) || account == Some(Payables) ==> Net(FxLine(gain), account) == 0.0
  {
    NetOfOne(Credit(FxGain, gain), account);
    NetOfOne(Debit(FxLoss, -gain), account);
  }

  // ---------------------------------------------------------------- conversion

  lemma ConvertsSum(x: real, y: real, rate: real)
    ensures InRupees(x + y, rate) == InRupees(x, rate) + InRupees(y, rate)
    ensures InRupees(x - y, rate) == InRupees(x, rate) - InRupees(y, rate)
  {
  }

  lemma ConvertsSign(x: real, rate: real)
    requires rate > 0.0
    ensures x >= 0.0 ==> InRupees(x, rate) >= 0.0
    ensures x <= 0.0 ==> InRupees(x, rate) <= 0.0
    ensures InRupees(0.0, rate) == 0.0
  {
  }

  lemma BookedNear(x: real, rate: real)
    ensures -0.005 <= Booked(x, rate) - InRupees(x, rate) <= 0.005
    ensures rate > 0.0 && x >= 0.0 ==> Booked(x, rate) >= 0.0
    ensures rate > 0.0 && x <= 0.0 ==> Booked(x, rate) <= 0.0
  {
  }

  // ---------------------------------------------------------------- imbalance

  function BillGap(x: Invoice): real {
    x.taxable + x.other + Tax(x.taxes) - x.outstanding - x.tds
  }

  lemma BillNet(x: Invoice, account: Option<Account>)
    ensures var tax, tds := Booked(Tax(x.taxes), x.rate), Booked(x.tds, x.rate);
      Net(BillLines(x), account) ==
        Worth(Debit(if x.ordered then Inventory else Expense, Booked(x.taxable + x.other, x.rate)), account)
        + (if tax > 0.0 then Worth(Debit(InputTax, tax), account) else 0.0)
        + Worth(Credit(Payables, Booked(x.outstanding, x.rate)), account)
        + (if tds > 0.0 then Worth(Credit(TdsPayable, tds), account) else 0.0)
  {
    hide Booked, Tax, Worth, Net;
    var tax, tds := Booked(Tax(x.taxes), x.rate), Booked(x.tds, x.rate);
    var cost := Debit(if x.ordered then Inventory else Expense, Booked(x.taxable + x.other, x.rate));
    var owed := Credit(Payables, Booked(x.outstanding, x.rate));
    NetOfFour([cost], When(tax > 0.0, Debit(InputTax, tax)), [owed], When(tds > 0.0, Credit(TdsPayable, tds)), account);
    NetOfOne(cost, account);
    NetOfOne(owed, account);
    NetWhen(tax > 0.0, Debit(InputTax, tax), account);
    NetWhen(tds > 0.0, Credit(TdsPayable, tds), account);
  }

  /** A bill's journal is out by what its stored amounts are out, converted, to within two cents. */
  lemma BillImbalance(x: Invoice)
    requires x.rate > 0.0 && Tax(x.taxes) >= 0.0 && x.tds >= 0.0
    ensures Near(Net(BillLines(x), None), InRupees(BillGap(x), x.rate), 0.02)
  {
    hide Tax, BillLines, Net, InRupees, Booked;
    BillNet(x, None);
    BookedNear(x.taxable + x.other, x.rate);
    BookedNear(Tax(x.taxes), x.rate);
    BookedNear(x.outstanding, x.rate);
    BookedNear(x.tds, x.rate);
    ConvertsSum(x.taxable + x.other, Tax(x.taxes), x.rate);
    ConvertsSum(x.taxable + x.other + Tax(x.taxes), x.outstanding, x.rate);
    ConvertsSum(x.taxable + x.other + Tax(x.taxes) - x.outstanding, x.tds, x.rate);
  }

  lemma SalesNet(x: Invoice, total: real, account: Option<Account>)
    ensures Net(SalesLines(x, total), account) ==
              Worth(Debit(Receivables, Booked(total, x.rate)), account)
              + Worth(Credit(Revenue, Booked(total, x.rate) - Booked(Tax(x.taxes), x.rate)), account)
              + Worth(Credit(OutputTax, Booked(Tax(x.taxes), x.rate)), account)
  {
    hide Booked, Tax, Worth, Net;
    var owed := Debit(Receivables, Booked(total, x.rate));
    var revenue := Credit(Revenue, Booked(total, x.rate) - Booked(Tax(x.taxes), x.rate));
    var tax := Credit(OutputTax, Booked(Tax(x.taxes), x.rate));
    assert SalesLines(x, total) == [owed] + [revenue] + [tax];
    NetConcat([owed], [revenue], account);
    NetConcat([owed] + [revenue], [tax], account);
    NetOfOne(owed, account);
    NetOfOne(revenue, account);
    NetOfOne(tax, account);
  }

  /** A sales invoice's journal balances exactly. */
  lemma SalesBalance(x: Invoice, total: real)
    ensures Net(SalesLines(x, total), None) == 0.0
  {
    hide Booked, Tax, SalesLines, Net;
    SalesNet(x, total, None);
  }

  lemma PaymentNet(p: Payment, bills: seq<Invoice>, account: Option<Account>)
    requires Refer(p.allocations, |bills|)
    ensures var settled, carrying := Allocated(p.allocations), Carrying(bills, p.allocations);
      Net(PaymentLines(p, bills), account) ==
        (if settled > 0.0 then Worth(Debit(Payables, carrying), account) else 0.0)
        + (if p.amount - settled > 0.0 then Worth(Debit(VendorAdvance, InRupees(p.amount - settled, p.rate)), account)
            else 0.0)
        + Worth(Credit(Bank, InRupees(p.amount, p.rate)), account)
        + Net(FxLine(PaymentGain(p, bills)), account)
  {
    var settled, carrying := Allocated(p.allocations), Carrying(bills, p.allocations);
    hide InRupees, Worth, Net, Carrying, Allocated, PaymentGain, FxLine;
    var owed := When(settled > 0.0, Debit(Payables, carrying));
    var advance := When(p.amount - settled > 0.0, Debit(VendorAdvance, InRupees(p.amount - settled, p.rate)));
    var bank := Credit(Bank, InRupees(p.amount, p.rate));
    NetOfFour(owed, advance, [bank], FxLine(PaymentGain(p, bills)), account);
    NetWhen(settled > 0.0, Debit(Payables, carrying), account);
    NetWhen(p.amount - settled > 0.0, Debit(VendorAdvance, InRupees(p.amount - settled, p.rate)), account);
    NetOfOne(bank, account);
  }

  /** Positive allocations add up to something exactly when there are any. */
  lemma {:induction false} CarryingOfNothing(invoices: seq<Invoice>, allocations: seq<Allocation>)
    requires Refer(allocations, |invoices|)
    requires forall i :: 0 <= i < |allocations| ==> allocations[i].amount >= 0.0
    ensures Allocated(allocations) >= 0.0
    ensures Allocated(allocations) == 0.0 ==> Carrying(invoices, allocations) == 0.0
  {
    if allocations != [] {
      var last := allocations[|allocations| - 1];
      CarryingOfNothing(invoices, allocations[..|allocations| - 1]);
      assert 0.0 * invoices[last.invoice].rate == 0.0;
    }
  }

  /**
   A payment's journal balances to within half a cent, unless its allocations come to more
   than it pays: then it is out by the converted excess.
   */
  lemma PaymentImbalance(p: Payment, bills: seq<Invoice>)
    requires p.rate > 0.0 && Refer(p.allocations, |bills|)
    requires forall i :: 0 <= i < |p.allocations| ==> p.allocations[i].amount >= 0.0
    ensures var excess := Allocated(p.allocations) - p.amount;
      Near(Net(PaymentLines(p, bills), None), if excess > 0.0 then InRupees(excess, p.rate) else 0.0, 0.005)
  {
    CarryingOfNothing(bills, p.allocations);
    PaymentNet(p, bills, None);
    NetFx(PaymentGain(p, bills), None);
    Round2Nearest(Carrying(bills, p.allocations) - InRupees(Allocated(p.allocations), p.rate));
    hide Carrying, Allocated, Round2, InRupees, Net, PaymentLines, FxLine, IsMoney, Refer;
    ConvertsSum(p.amount, Allocated(p.allocations), p.rate);
    ConvertsSum(Allocated(p.allocations), p.amount, p.rate);
  }

  lemma ReceiptNet(r: Receipt, sales: seq<Invoice>, account: Option<Account>)
    requires Refer(r.allocations, |sales|)
    ensures var bankNet, carrying := Booked(r.amount - r.bankCharges, r.rate), Carrying(sales, r.allocations);
      Net(ReceiptLines(r, sales), account) ==
        (if bankNet > 0.0 then Worth(Debit(Bank, bankNet), account) else 0.0)
        + (if r.bankCharges > 0.0 then Worth(Debit(Expense, InRupees(r.bankCharges, r.rate)), account) else 0.0)
        + (if r.tdsDeducted > 0.0 then Worth(Debit(TdsReceivable, InRupees(r.tdsDeducted, r.rate)), account) else 0.0)
        + (if Allocated(r.allocations) > 0.0 then Worth(Credit(Receivables, carrying), account) else 0.0)
        + (if r.unapplied > 0.0 then Worth(Credit(CustomerAdvance, InRupees(r.unapplied, r.rate)), account) else 0.0)
        + Net(FxLine(ReceiptGain(r, sales)), account)
  {
    var bankNet, carrying := Booked(r.amount - r.bankCharges, r.rate), Carrying(sales, r.allocations);
    hide InRupees, Booked, Worth, Net, Carrying, Allocated, ReceiptGain, FxLine;
    var a := When(bankNet > 0.0, Debit(Bank, bankNet));
    var b := When(r.bankCharges > 0.0, Debit(Expense, InRupees(r.bankCharges, r.rate)));
    var c := When(r.tdsDeducted > 0.0, Debit(TdsReceivable, InRupees(r.tdsDeducted, r.rate)));
    var d := When(Allocated(r.allocations) > 0.0, Credit(Receivables, carrying));
    var e := When(r.unapplied > 0.0, Credit(CustomerAdvance, InRupees(r.unapplied, r.rate)));
    NetOfSix(a, b, c, d, e, FxLine(ReceiptGain(r, sales)), account);
    NetWhen(bankNet > 0.0, Debit(Bank, bankNet), account);
    NetWhen(r.bankCharges > 0.0, Debit(Expense, InRupees(r.bankCharges, r.rate)), account);
    NetWhen(r.tdsDeducted > 0.0, Debit(TdsReceivable, InRupees(r.tdsDeducted, r.rate)), account);
    NetWhen(Allocated(r.allocations) > 0.0, Credit(Receivables, carrying), account);
    NetWhen(r.unapplied > 0.0, Credit(CustomerAdvance, InRupees(r.unapplied, r.rate)), account);
  }

  function ReceiptGap(r: Receipt): real {
    r.amount + r.tdsDeducted - Allocated(r.allocations) - r.unapplied
  }

  /** Charges beyond the amount received: the bank line is then dropped. */
  function Overcharge(r: Receipt): real {
    if r.bankCharges > r.amount then r.bankCharges - r.amount else 0.0
  }

  /**
   A receipt's journal is out, to within one cent, by what its stored amounts are out plus the
   bank charges beyond the amount received, both converted.
   */
  lemma ReceiptImbalance(r: Receipt, sales: seq<Invoice>)
    requires r.rate > 0.0 && Refer(r.allocations, |sales|)
    requires forall i :: 0 <= i < |r.allocations| ==> r.allocations[i].amount >= 0.0
    requires r.bankCharges >= 0.0 && r.tdsDeducted >= 0.0 && r.unapplied >= 0.0
    ensures Near(Net(ReceiptLines(r, sales), None), InRupees(ReceiptGap(r) + Overcharge(r), r.rate), 0.01)
  {
    hide Carrying, Allocated, InRupees, Net, ReceiptLines, FxLine, Refer, Booked, Overcharge, ReceiptGap,
      ReceiptGain;
    CarryingOfNothing(sales, r.allocations);
    ReceiptGainNear(r, sales);
    ReceiptNet(r, sales, None);
    NetFx(ReceiptGain(r, sales), None);
    ConvertsSign(r.bankCharges, r.rate);
    ConvertsSign(r.tdsDeducted, r.rate);
    ConvertsSign(r.unapplied, r.rate);
    BankLine(r);
    ReceiptConverted(r);
  }

  lemma ReceiptGainNear(r: Receipt, sales: seq<Invoice>)
    requires Refer(r.allocations, |sales|)
    ensures Near(ReceiptGain(r, sales), InRupees(Allocated(r.allocations), r.rate) - Carrying(sales, r.allocations),
              0.005)
  {
    Round2Nearest(InRupees(Allocated(r.allocations), r.rate) - Carrying(sales, r.allocations));
    hide Round2, IsMoney;
  }

  /** What the bank line carries, pushed or not. */
  lemma BankLine(r: Receipt)
    requires r.rate > 0.0
    ensures var bankNet := Booked(r.amount - r.bankCharges, r.rate);
      Near(if bankNet > 0.0 then bankNet else 0.0, InRupees(r.amount - r.bankCharges + Overcharge(r), r.rate), 0.005)
  {
    BookedNear(r.amount - r.bankCharges, r.rate);
    ConvertsSign(0.0, r.rate);
    hide Booked, InRupees;
  }

  lemma ReceiptConverted(r: Receipt)
    ensures InRupees(ReceiptGap(r) + Overcharge(r), r.rate) ==
              InRupees(r.amount - r.bankCharges + Overcharge(r), r.rate) + InRupees(r.bankCharges, r.rate)
              + InRupees(r.tdsDeducted, r.rate) - InRupees(Allocated(r.allocations), r.rate) - InRupees(r.unapplied,
                  r.rate)
  {
    hide Allocated, InRupees, Overcharge;
    var settled := Allocated(r.allocations);
    ConvertsSum(r.amount - r.bankCharges + Overcharge(r), r.bankCharges, r.rate);
    ConvertsSum(r.amount + Overcharge(r), r.tdsDeducted, r.rate);
    ConvertsSum(r.amount + Overcharge(r) + r.tdsDeducted, settled, r.rate);
    ConvertsSum(r.amount + Overcharge(r) + r.tdsDeducted - settled, r.unapplied, r.rate);
    assert r.amount - r.bankCharges + Overcharge(r) + r.bankCharges == r.amount + Overcharge(r);
    assert ReceiptGap(r) + Overcharge(r) == r.amount + Overcharge(r) + r.tdsDeducted - settled - r.unapplied;
  }

  function NoteGap(n: Note): real {
    n.total - n.taxable - Tax(n.taxes)
  }

  lemma NoteNet(n: Note, x: Invoice, account: Option<Account>)
    ensures var tax := Booked(Tax(n.taxes), x.rate);
      var controlDebit := n.side.Receivable? == n.increase;
      Net(NoteLines(n, x), account) ==
        Worth(Sided(if n.side.Receivable? then Receivables else Payables, controlDebit, Booked(n.total, x.rate)),
            account)
        + Worth(Sided(if n.side.Receivable? then Revenue else if x.ordered then Inventory else Expense, !controlDebit,
                      Booked(n.taxable, x.rate)), account)
        + (if tax > 0.0 then Worth(Sided(if n.side.Receivable? then OutputTax else InputTax, !controlDebit, tax),
            account) else 0.0)
  {
    hide Booked, Tax, Worth, Net, Sided;
    var tax, controlDebit := Booked(Tax(n.taxes), x.rate), n.side.Receivable? == n.increase;
    var owed := Sided(if n.side.Receivable? then Receivables else Payables, controlDebit, Booked(n.total, x.rate));
    var base := Sided(if n.side.Receivable? then Revenue else if x.ordered then Inventory else Expense, !controlDebit,
                      Booked(n.taxable, x.rate));
    var taxed := Sided(if n.side.Receivable? then OutputTax else InputTax, !controlDebit, tax);
    assert [owed, base] == [owed] + [base];
    NetConcat([owed], [base], account);
    NetConcat([owed, base], When(tax > 0.0, taxed), account);
    NetOfOne(owed, account);
    NetOfOne(base, account);
    NetWhen(tax > 0.0, taxed, account);
  }

  /** A note's journal is out by what its stored amounts are out, converted, to within 0.015. */
  lemma NoteImbalance(n: Note, x: Invoice)
    requires x.rate > 0.0 && Tax(n.taxes) >= 0.0
    ensures var sign := if n.side.Receivable? == n.increase then 1.0 else -1.0;
      Near(Net(NoteLines(n, x), None), InRupees(sign * NoteGap(n), x.rate), 0.015)
  {
    hide Booked, Tax, Net, NoteLines, InRupees;
    NoteNet(n, x, None);
    BookedNear(n.total, x.rate);
    BookedNear(n.taxable, x.rate);
    BookedNear(Tax(n.taxes), x.rate);
    ConvertsSum(n.total, n.taxable, x.rate);
    ConvertsSum(n.total - n.taxable, Tax(n.taxes), x.rate);
    ConvertsSum(0.0, NoteGap(n), x.rate);
    ConvertsSign(0.0, x.rate);
  }

  // ---------------------------------------------------------------- when there is no gap

  lemma LineTaxableIsMoney(l: BillLine)
    ensures IsMoney(LineTaxable(l))
  {
    Round2Nearest(ExtendedPrice(l));
    hide Round2, ExtendedPrice;
  }

  lemma {:induction false} BillTaxableIsMoney(lines: seq<BillLine>)
    ensures IsMoney(BillTaxable(lines))
  {
    if lines == [] {
      ZeroIsMoney();
    } else {
      var init, last := lines[..|lines| - 1], lines[|lines| - 1];
      BillTaxableIsMoney(init);
      LineTaxableIsMoney(last);
      hide LineTaxable, IsMoney;
      MoneyClosed(BillTaxable(init), LineTaxable(last));
    }
  }

  ghost predicate MoneyTaxes(t: Taxes) {
    IsMoney(t.central) && IsMoney(t.state) && IsMoney(t.integrated)
  }

  lemma TaxIsMoney(t: Taxes)
    requires MoneyTaxes(t)
    ensures IsMoney(Tax(t)) && StoredTaxes(t) == t
  {
    Round2OfMoney(t.central);
    Round2OfMoney(t.state);
    Round2OfMoney(t.integrated);
    hide IsMoney, Round2;
    MoneyClosed(t.central, t.state);
    MoneyClosed(t.central + t.state, t.integrated);
  }

  /** A bill entered with two-decimal taxes, charges and TDS is stored without a gap. */
  lemma BillStoredExactly(q: BillRequest)
    requires MoneyTaxes(q.taxes) && IsMoney(q.other) && IsMoney(q.tds)
    ensures Stored(Bill(q)) == Bill(q) && BillGap(Stored(Bill(q))) == 0.0
  {
    BillTaxableIsMoney(q.lines);
    TaxIsMoney(q.taxes);
    hide IsMoney, Round2, BillTaxable, MoneyTaxes, Tax;
    var taxable := BillTaxable(q.lines);
    MoneyClosed(taxable, Tax(q.taxes));
    MoneyClosed(taxable + Tax(q.taxes), q.other);
    MoneyClosed(taxable + Tax(q.taxes) + q.other, q.tds);
    Round2OfMoney(taxable);
    Round2OfMoney(q.other);
    Round2OfMoney(q.tds);
    Round2OfMoney(taxable + Tax(q.taxes) + q.other - q.tds);
  }

  lemma {:induction false} StoredAllocationsExact(allocations: seq<Allocation>)
    requires forall i :: 0 <= i < |allocations| ==> IsMoney(allocations[i].amount)
    ensures StoredAllocations(allocations) == allocations
    ensures IsMoney(Allocated(allocations))
  {
    forall i | 0 <= i < |allocations|
      ensures StoredAllocations(allocations)[i] == allocations[i]
    {
      Round2OfMoney(allocations[i].amount);
    }
    if allocations == [] {
      ZeroIsMoney();
    } else {
      var init := allocations[..|allocations| - 1];
      hide IsMoney, Round2, StoredAllocations;
      StoredAllocationsExact(init);
      MoneyClosed(Allocated(init), allocations[|allocations| - 1].amount);
    }
  }

  lemma {:induction false} CheckedAllocationsRefer(sales: seq<Invoice>, allocations: seq<Allocation>)
    requires CheckAllocations(sales, allocations).Pass?
    ensures Refer(allocations, |sales|)
  {
    if allocations != [] {
      CheckedAllocationsRefer(sales, allocations[1..]);
      forall i | 0 <= i < |allocations|
        ensures allocations[i].invoice < |sales|
      {
        if i > 0 {
          assert allocations[1..][i - 1] == allocations[i];
        }
      }
    }
  }

  lemma ReceiptStoredExactly(q: ReceiptRequest)
    requires IsMoney(q.amount) && IsMoney(q.tdsDeducted) && IsMoney(q.bankCharges)
    requires forall i :: 0 <= i < |q.allocations| ==> IsMoney(q.allocations[i].amount)
    ensures ReceiptGap(NewReceipt(q)) == 0.0
    ensures Overcharge(NewReceipt(q)) > 0.0 <==> q.bankCharges > q.amount
  {
    StoredAllocationsExact(q.allocations);
    Round2OfMoney(q.amount);
    Round2OfMoney(q.tdsDeducted);
    Round2OfMoney(q.bankCharges);
    hide IsMoney, Round2, Allocated, StoredAllocations;
    MoneyClosed(q.amount, q.tdsDeducted);
    MoneyClosed(q.amount + q.tdsDeducted, Allocated(q.allocations));
    Round2OfMoney(q.amount + q.tdsDeducted - Allocated(q.allocations));
  }

  lemma NoteStoredExactly(taxable: real, taxes: Taxes)
    requires IsMoney(taxable) && MoneyTaxes(taxes)
    ensures Round2(taxable) == taxable && StoredTaxes(taxes) == taxes
    ensures Round2(taxable + Tax(taxes)) == taxable + Tax(taxes)
  {
    TaxIsMoney(taxes);
    hide IsMoney, Round2, Tax, MoneyTaxes;
    MoneyClosed(taxable, Tax(taxes));
    Round2OfMoney(taxable);
    Round2OfMoney(taxable + Tax(taxes));
  }

  lemma {:induction false} AddUpAgrees(lines: seq<SalesLine>)
    requires forall i :: 0 <= i < |lines| ==> RatesAgree(lines[i])
    ensures AddUp(lines).taxes.central == AddUp(lines).taxes.state
    ensures IsMoney(AddUp(lines).taxable) && MoneyTaxes(AddUp(lines).taxes)
  {
    if lines == [] {
      ZeroIsMoney();
    } else {
      var init, last := lines[..|lines| - 1], lines[|lines| - 1];
      AddUpAgrees(init);
      CalculatedIsMoney(last);
      hide CalculateLine, IsMoney;
      MoneyClosed(AddUp(init).taxable, CalculateLine(last).taxable);
      MoneyClosed(AddUp(init).taxes.central, CalculateLine(last).taxes.central);
      MoneyClosed(AddUp(init).taxes.state, CalculateLine(last).taxes.state);
      MoneyClosed(AddUp(init).taxes.integrated, CalculateLine(last).taxes.integrated);
    }
  }

  lemma CalculatedIsMoney(l: SalesLine)
    requires RatesAgree(l)
    ensures var c := CalculateLine(l);
      IsMoney(c.taxable) && MoneyTaxes(c.taxes) && c.taxes.central == c.taxes.state
  {
  }

  /**
   An accepted sales invoice is stored without a gap when its charges and round-off have two
   decimals: the total is taxable amount, taxes, charges and round-off, and the two state taxes are equal.
   */
  lemma SaleStoredExactly(q: SalesRequest)
    requires forall i :: 0 <= i < |q.lines| ==> RatesAgree(q.lines[i])
    requires IsMoney(q.other) && IsMoney(q.roundOff)
    ensures var x := Stored(Sale(q));
      && x.outstanding == x.taxable + Tax(x.taxes) + x.other + q.roundOff
      && x.taxes.central == x.taxes.state
  {
    AddUpAgrees(q.lines);
    var sum := AddUp(q.lines);
    TaxIsMoney(sum.taxes);
    hide IsMoney, Round2, AddUp, MoneyTaxes, Tax, StoredTaxes;
    MoneyClosed(sum.taxable, Tax(sum.taxes));
    MoneyClosed(sum.taxable + Tax(sum.taxes), q.other);
    MoneyClosed(sum.taxable + Tax(sum.taxes) + q.other, q.roundOff);
    Round2OfMoney(sum.taxable);
    Round2OfMoney(q.other);
    Round2OfMoney(sum.taxable + Tax(sum.taxes) + q.other + q.roundOff);
  }
}
