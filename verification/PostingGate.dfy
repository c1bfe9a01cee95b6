/** When the posting helper takes the lines of a document, and what it records then. */
module PostingGate {
  import opened Wrappers
  import opened Decimals
  import opened FinancePosting
  import opened FinancePostingLaws

  // ---------------------------------------------------------------- the helper

  /** A debit or a credit of an amount that is not negative. */
  predicate Proper(e: Entry) {
    (e.debit == 0.0 && e.credit >= 0.0) || (e.credit == 0.0 && e.debit >= 0.0)
  }

  predicate AllProper(lines: Journal) {
    forall i :: 0 <= i < |lines| ==> Proper(lines[i])
  }

  lemma {:induction false} NetIsDifference(lines: Journal)
    ensures Net(lines, None) == Debits(lines) - Credits(lines)
  {
    if lines != [] {
      NetIsDifference(lines[..|lines| - 1]);
    }
  }

  /** The lines kept have a positive amount on one side only. */
  lemma {:induction false} KeptCarry(lines: Journal)
    requires AllProper(lines)
    ensures forall i :: 0 <= i < |WithAmounts(lines)| ==> OneSided(WithAmounts(lines)[i])
  {
    if lines != [] {
      KeptCarry(lines[..|lines| - 1]);
    }
  }

  /** Dropping lines without an amount moves no account. */
  lemma {:induction false} DropKeepsNet(lines: Journal, account: Option<Account>)
    requires AllProper(lines)
    ensures Net(WithAmounts(lines), account) == Net(lines, account)
    ensures Debits(WithAmounts(lines)) == Debits(lines) && Credits(WithAmounts(lines)) == Credits(lines)
  {
    if lines != [] {
      var init, last := lines[..|lines| - 1], lines[|lines| - 1];
      DropKeepsNet(init, account);
      hide CarriesAmount;
      NetConcat(WithAmounts(init), When(CarriesAmount(last), last), account);
      NetWhen(CarriesAmount(last), last, account);
      SidesConcat(WithAmounts(init), When(CarriesAmount(last), last));
      SidesOfWhen(CarriesAmount(last), last);
      if !CarriesAmount(last) {
        DroppedIsNothing(last);
      }
    }
  }

  lemma DroppedIsNothing(e: Entry)
    requires Proper(e) && !CarriesAmount(e)
    ensures e.debit == 0.0 && e.credit == 0.0
  {
  }

  /** The helper takes lines that are debits and credits exactly when they balance and are not all zero. */
  lemma PostingIff(lines: Journal)
    requires AllProper(lines)
    ensures Posting(lines).Success? <==> Net(lines, None) == 0.0 && Debits(lines) > 0.0
  {
    KeptCarry(lines);
    DropKeepsNet(lines, None);
    NetIsDifference(lines);
    hide WithAmounts, Debits, Credits, Net;
  }

  /** The debits of the lines with a positive amount, and their credits. */
  function CarriedDebits(lines: Journal): real {
    if lines == [] then 0.0
    else (if lines[0].debit > 0.0 || lines[0].credit > 0.0 then lines[0].debit else 0.0) + CarriedDebits(lines[1..])
  }

  function CarriedCredits(lines: Journal): real {
    if lines == [] then 0.0
    else (if lines[0].debit > 0.0 || lines[0].credit > 0.0 then lines[0].credit else 0.0) + CarriedCredits(lines[1..])
  }

  lemma {:induction false} CarriedAppend(lines: Journal, e: Entry)
    ensures CarriedDebits(lines + [e]) ==
            CarriedDebits(lines) + if e.debit > 0.0 || e.credit > 0.0 then e.debit else 0.0
    ensures CarriedCredits(lines + [e]) ==
            CarriedCredits(lines) + if e.debit > 0.0 || e.credit > 0.0 then e.credit else 0.0
  {
    if lines == [] {
      assert [e][1..] == [];
    } else {
      assert (lines + [e])[1..] == lines[1..] + [e];
      CarriedAppend(lines[1..], e);
    }
  }

  /** The lines kept are those with a positive amount. */
  lemma KeptAre(lines: Journal, e: Entry)
    ensures e in WithAmounts(lines) <==> e in lines && (e.debit > 0.0 || e.credit > 0.0)
  {
    if lines != [] {
      var init, last := lines[..|lines| - 1], lines[|lines| - 1];
      KeptAre(init, e);
      assert lines == init + [last];
      assert e in lines <==> e in init || e == last;
    }
  }

  lemma {:induction false} KeptSides(lines: Journal)
    ensures Debits(WithAmounts(lines)) == CarriedDebits(lines)
    ensures Credits(WithAmounts(lines)) == CarriedCredits(lines)
  {
    if lines != [] {
      var init, last := lines[..|lines| - 1], lines[|lines| - 1];
      KeptSides(init);
      CarriedAppend(init, last);
      assert lines == init + [last];
      KeptSums(WithAmounts(init), When(CarriesAmount(last), last));
      hide Debits, Credits, CarriedDebits, CarriedCredits;
    }
  }

  lemma KeptSums(a: Journal, b: Journal)
    requires |b| <= 1
    ensures Debits(a + b) == Debits(a) + if b == [] then 0.0 else b[0].debit
    ensures Credits(a + b) == Credits(a) + if b == [] then 0.0 else b[0].credit
  {
    if b == [] {
      assert a + b == a;
    } else {
      assert (a + b)[..|a|] == a;
    }
  }

  /**
   The helper takes any lines exactly when each with a positive amount is a debit or a credit and not
   both, and these debits and credits add up to the same positive sum; it records them.
   */
  lemma GateIs(lines: Journal)
    ensures var posted := Posting(lines);
      && (posted.Success? <==>
            && (forall i :: 0 <= i < |lines| ==> !(lines[i].debit > 0.0 && lines[i].credit > 0.0))
            && CarriedDebits(lines) == CarriedCredits(lines) > 0.0)
      && (posted.Success? ==> posted.value == WithAmounts(lines))
      && (posted.Failure? ==> posted.error == BadRequest)
  {
    KeptSides(lines);
    var kept := WithAmounts(lines);
    hide WithAmounts, Debits, Credits, CarriedDebits, CarriedCredits;
    forall e
      ensures e in kept <==> e in lines && (e.debit > 0.0 || e.credit > 0.0)
    {
      KeptAre(lines, e);
    }
    if forall i :: 0 <= i < |kept| ==> OneSided(kept[i]) {
      forall i | 0 <= i < |lines|
        ensures !(lines[i].debit > 0.0 && lines[i].credit > 0.0)
      {
        if lines[i].debit > 0.0 {
          assert lines[i] in kept;
        }
      }
    } else {
      var i :| 0 <= i < |kept| && !OneSided(kept[i]);
      assert kept[i] in kept;
    }
  }

  /** And then each account moves as the lines say. */
  lemma PostedNet(lines: Journal, account: Account)
    requires AllProper(lines) && Posting(lines).Success?
    ensures Net(Posting(lines).value, Some(account)) == Net(lines, Some(account))
  {
    DropKeepsNet(lines, Some(account));
  }

  lemma {:induction false} SidesConcat(a: Journal, b: Journal)
    ensures Debits(a + b) == Debits(a) + Debits(b) && Credits(a + b) == Credits(a) + Credits(b)
  {
    if b == [] {
      assert a + b == a;
    } else {
      SidesConcat(a, b[..|b| - 1]);
      assert (a + b)[..|a + b| - 1] == a + b[..|b| - 1];
    }
  }

  lemma {:induction false} SidesNonNegative(lines: Journal)
    requires AllProper(lines)
    ensures Debits(lines) >= 0.0 && Credits(lines) >= 0.0
  {
    if lines != [] {
      SidesNonNegative(lines[..|lines| - 1]);
    }
  }

  lemma SidesOfOne(e: Entry)
    ensures Debits([e]) == e.debit && Credits([e]) == e.credit
  {
    assert [e][..0] == [];
    assert Debits([]) == 0.0 && Credits([]) == 0.0;
  }

  /** A positive credit among lines that balance makes both sides positive. */
  lemma CreditIsPositive(a: Journal, e: Entry, b: Journal)
    requires AllProper(a) && AllProper([e]) && AllProper(b) && e.credit > 0.0
    ensures AllProper(a + [e] + b) && Credits(a + [e] + b) > 0.0
  {
    SidesConcat(a, [e]);
    SidesConcat(a + [e], b);
    SidesOfOne(e);
    SidesNonNegative(a);
    SidesNonNegative(b);
    hide Debits, Credits;
  }

  // ---------------------------------------------------------------- bills

  /** The amounts an accepted bill has until it is posted. */
  predicate BillAmounts(x: Invoice) {
    x.rate > 0.0 && x.taxable + x.other >= 0.0 && Tax(x.taxes) >= 0.0 && x.tds >= 0.0 && x.outstanding >= 0.0
  }

  lemma BillProper(x: Invoice)
    requires BillAmounts(x)
    ensures AllProper(BillLines(x))
  {
    hide Tax, Booked;
    BookedNear(x.taxable + x.other, x.rate);
    BookedNear(x.outstanding, x.rate);
  }

  lemma BillSides(x: Invoice)
    requires BillAmounts(x)
    ensures Debits(BillLines(x)) == Booked(x.taxable + x.other, x.rate) + Booked(Tax(x.taxes), x.rate)
    ensures Credits(BillLines(x)) == Booked(x.outstanding, x.rate) + Booked(x.tds, x.rate)
  {
    hide Tax, Booked, Debits, Credits;
    BookedNear(Tax(x.taxes), x.rate);
    BookedNear(x.tds, x.rate);
    var tax, tds := Booked(Tax(x.taxes), x.rate), Booked(x.tds, x.rate);
    var cost := Debit(if x.ordered then Inventory else Expense, Booked(x.taxable + x.other, x.rate));
    var owed := Credit(Payables, Booked(x.outstanding, x.rate));
    var a, b := When(tax > 0.0, Debit(InputTax, tax)), When(tds > 0.0, Credit(TdsPayable, tds));
    SidesConcat([cost], a);
    SidesConcat([cost] + a, [owed]);
    SidesConcat([cost] + a + [owed], b);
    SidesOfOne(cost);
    SidesOfOne(owed);
    SidesOfWhen(tax > 0.0, Debit(InputTax, tax));
    SidesOfWhen(tds > 0.0, Credit(TdsPayable, tds));
  }

  lemma SidesOfWhen(condition: bool, e: Entry)
    ensures Debits(When(condition, e)) == (if condition then e.debit else 0.0)
    ensures Credits(When(condition, e)) == (if condition then e.credit else 0.0)
  {
    SidesOfOne(e);
  }

  /** A bill is posted exactly when its four amounts, each converted and rounded, still add up to something. */
  lemma BillPostsIff(x: Invoice)
    requires BillAmounts(x)
    ensures Posting(BillLines(x)).Success? <==>
            && Booked(x.taxable + x.other, x.rate) + Booked(Tax(x.taxes), x.rate)
               == Booked(x.outstanding, x.rate) + Booked(x.tds, x.rate)
            && Booked(x.outstanding, x.rate) + Booked(x.tds, x.rate) > 0.0
  {
    BillProper(x);
    BillSides(x);
    PostingIff(BillLines(x));
    NetIsDifference(BillLines(x));
    hide BillLines, Booked, Tax, Posting, AllProper, Net, Debits, Credits;
  }

  // ---------------------------------------------------------------- sales

  lemma SalesSides(x: Invoice, total: real)
    ensures var lines, booked, tax := SalesLines(x, total), Booked(total, x.rate), Booked(Tax(x.taxes), x.rate);
      && WithAmounts(lines) == When(booked > 0.0, lines[0]) + When(booked - tax > 0.0, lines[1])
          + When(tax > 0.0, lines[2])
      && Debits(WithAmounts(lines)) == (if booked > 0.0 then booked else 0.0)
      && Credits(WithAmounts(lines)) == (if booked - tax > 0.0 then booked - tax else 0.0)
          + (if tax > 0.0 then tax else 0.0)
  {
    hide Booked, Tax;
    var lines, booked, tax := SalesLines(x, total), Booked(total, x.rate), Booked(Tax(x.taxes), x.rate);
    assert lines[..2][..1] == lines[..1] && lines[..1][..0] == [];
    assert WithAmounts([]) == [];
    assert WithAmounts(lines[..1]) == When(booked > 0.0, lines[0]);
    assert WithAmounts(lines[..2]) == When(booked > 0.0, lines[0]) + When(booked - tax > 0.0, lines[1]);
    SidesConcat(When(booked > 0.0, lines[0]), When(booked - tax > 0.0, lines[1]));
    SidesConcat(When(booked > 0.0, lines[0]) + When(booked - tax > 0.0, lines[1]), When(tax > 0.0, lines[2]));
    SidesOfWhen(booked > 0.0, lines[0]);
    SidesOfWhen(booked - tax > 0.0, lines[1]);
    SidesOfWhen(tax > 0.0, lines[2]);
  }

  /** A sales invoice is posted exactly when its converted total is positive and covers its tax. */
  lemma SalePostsIff(x: Invoice, total: real)
    ensures Posting(SalesLines(x, total)).Success? <==>
            Booked(total, x.rate) > 0.0 && 0.0 <= Booked(Tax(x.taxes), x.rate) <= Booked(total, x.rate)
    ensures Posting(SalesLines(x, total)).Success? ==> AllProper(SalesLines(x, total))
  {
    SalesSides(x, total);
    var lines, booked, tax := SalesLines(x, total), Booked(total, x.rate), Booked(Tax(x.taxes), x.rate);
    hide Booked, Tax, Debits, Credits;
    if booked > 0.0 && 0.0 <= tax <= booked {
      KeptCarry(lines);
    }
    hide WithAmounts;
  }

  // ---------------------------------------------------------------- settlements

  /** Positive allocations to invoices with positive rates. */
  ghost predicate AllocationTerms(invoices: seq<Invoice>, allocations: seq<Allocation>) {
    && Refer(allocations, |invoices|)
    && forall i :: 0 <= i < |allocations| ==> allocations[i].amount > 0.0 && invoices[allocations[i].invoice].rate > 0.0
  }

  lemma {:induction false} CarryingSign(invoices: seq<Invoice>, allocations: seq<Allocation>)
    requires AllocationTerms(invoices, allocations)
    ensures Allocated(allocations) >= 0.0 && Carrying(invoices, allocations) >= 0.0
    ensures Allocated(allocations) > 0.0 <==> allocations != []
    ensures Carrying(invoices, allocations) > 0.0 <==> allocations != []
  {
    if allocations != [] {
      var last := allocations[|allocations| - 1];
      CarryingSign(invoices, allocations[..|allocations| - 1]);
      ConvertsPositive(last.amount, invoices[last.invoice].rate);
      hide InRupees;
    }
  }

  lemma ConvertsPositive(x: real, rate: real)
    requires x > 0.0 && rate > 0.0
    ensures InRupees(x, rate) > 0.0
  {
  }

  /** By how much the booking rates and the settlement's rate value the allocations differently. */
  function RateDifference(invoices: seq<Invoice>, allocations: seq<Allocation>, rate: real): real
    requires Refer(allocations, |invoices|)
  {
    Carrying(invoices, allocations) - InRupees(Allocated(allocations), rate)
  }

  /** What the allocations come to beyond the amount paid. */
  function Excess(p: Payment): real {
    if Allocated(p.allocations) > p.amount then Allocated(p.allocations) - p.amount else 0.0
  }

  ghost predicate PaymentAmounts(p: Payment, bills: seq<Invoice>) {
    p.rate > 0.0 && p.amount > 0.0 && AllocationTerms(bills, p.allocations)
  }

  lemma FxProper(gain: real)
    ensures AllProper(FxLine(gain))
  {
  }

  lemma PaymentProper(p: Payment, bills: seq<Invoice>)
    requires PaymentAmounts(p, bills)
    ensures AllProper(PaymentLines(p, bills)) && Credits(PaymentLines(p, bills)) > 0.0
  {
    hide Carrying, Allocated, InRupees, PaymentGain, Refer, Credits, FxLine;
    CarryingSign(bills, p.allocations);
    ConvertsPositive(p.amount, p.rate);
    FxProper(PaymentGain(p, bills));
    var settled, unapplied := Allocated(p.allocations), p.amount - Allocated(p.allocations);
    if unapplied > 0.0 {
      ConvertsPositive(unapplied, p.rate);
    }
    var owed := When(settled > 0.0, Debit(Payables, Carrying(bills, p.allocations)));
    var advance := When(unapplied > 0.0, Debit(VendorAdvance, InRupees(unapplied, p.rate)));
    CreditIsPositive(owed + advance, Credit(Bank, InRupees(p.amount, p.rate)), FxLine(PaymentGain(p, bills)));
  }

  lemma PaymentNetExact(p: Payment, bills: seq<Invoice>)
    requires PaymentAmounts(p, bills)
    ensures var d := RateDifference(bills, p.allocations, p.rate);
      Net(PaymentLines(p, bills), None) == InRupees(Excess(p), p.rate) + d - Round2(d)
  {
    hide Carrying, Allocated, Round2, InRupees, Net, PaymentLines, FxLine, Refer;
    CarryingSign(bills, p.allocations);
    PaymentNet(p, bills, None);
    NetFx(PaymentGain(p, bills), None);
    ConvertsSum(p.amount, Allocated(p.allocations), p.rate);
    ConvertsSum(Allocated(p.allocations), p.amount, p.rate);
    ConvertsSign(0.0, p.rate);
  }

  /**
   A payment is posted exactly when rounding the exchange difference makes up for what its
   allocations exceed it by; within its amount, exactly when that difference has two decimals.
   */
  lemma PaymentPostsIff(p: Payment, bills: seq<Invoice>)
    requires PaymentAmounts(p, bills)
    ensures var d := RateDifference(bills, p.allocations, p.rate);
      && (Posting(PaymentLines(p, bills)).Success? <==> InRupees(Excess(p), p.rate) + d == Round2(d))
      && (Allocated(p.allocations) <= p.amount ==> (Posting(PaymentLines(p, bills)).Success? <==> IsMoney(d)))
  {
    hide PaymentLines, Posting, AllProper, Net, Debits, Credits, Round2, IsMoney, RateDifference, InRupees,
      Allocated;
    PaymentProper(p, bills);
    PaymentNetExact(p, bills);
    PostingIff(PaymentLines(p, bills));
    NetIsDifference(PaymentLines(p, bills));
    Round2OfMoney(RateDifference(bills, p.allocations, p.rate));
    ConvertsNothing(p.rate);
  }

  lemma ConvertsNothing(rate: real)
    ensures InRupees(0.0, rate) == 0.0
  {
  }

  ghost predicate ReceiptAmounts(r: Receipt, sales: seq<Invoice>) {
    && r.rate > 0.0 && r.bankCharges >= 0.0 && r.tdsDeducted >= 0.0 && r.unapplied >= 0.0
    && AllocationTerms(sales, r.allocations)
    && (r.allocations != [] || r.unapplied > 0.0)
  }

  /** The bank line, when there is one, less the exact amount it stands for. */
  function BankRounding(r: Receipt): real {
    var bankNet := Booked(r.amount - r.bankCharges, r.rate);
    (if bankNet > 0.0 then bankNet else 0.0) - InRupees(r.amount - r.bankCharges + Overcharge(r), r.rate)
  }

  /** The exchange gain, less its exact amount. */
  function GainRounding(r: Receipt, sales: seq<Invoice>): real
    requires Refer(r.allocations, |sales|)
  {
    ReceiptGain(r, sales) + RateDifference(sales, r.allocations, r.rate)
  }

  lemma ReceiptProper(r: Receipt, sales: seq<Invoice>)
    requires ReceiptAmounts(r, sales)
    ensures AllProper(ReceiptLines(r, sales)) && Credits(ReceiptLines(r, sales)) > 0.0
  {
    hide Carrying, Allocated, InRupees, Booked, ReceiptGain, Refer, Credits, FxLine;
    CarryingSign(sales, r.allocations);
    ConvertsSign(r.bankCharges, r.rate);
    ConvertsSign(r.tdsDeducted, r.rate);
    ConvertsSign(r.unapplied, r.rate);
    FxProper(ReceiptGain(r, sales));
    var bankNet, carrying := Booked(r.amount - r.bankCharges, r.rate), Carrying(sales, r.allocations);
    var before := When(bankNet > 0.0, Debit(Bank, bankNet))
                  + When(r.bankCharges > 0.0, Debit(Expense, InRupees(r.bankCharges, r.rate)))
                  + When(r.tdsDeducted > 0.0, Debit(TdsReceivable, InRupees(r.tdsDeducted, r.rate)));
    var settled := When(Allocated(r.allocations) > 0.0, Credit(Receivables, carrying));
    var advance := When(r.unapplied > 0.0, Credit(CustomerAdvance, InRupees(r.unapplied, r.rate)));
    var fx := FxLine(ReceiptGain(r, sales));
    assert ReceiptLines(r, sales) == before + settled + advance + fx;
    assert AllProper(before);
    if r.unapplied > 0.0 {
      ConvertsPositive(r.unapplied, r.rate);
      CreditIsPositive(before + settled, Credit(CustomerAdvance, InRupees(r.unapplied, r.rate)), fx);
    } else {
      CreditIsPositive(before, Credit(Receivables, carrying), fx);
      assert advance == [];
      assert before + settled + advance == before + settled;
    }
  }

  lemma ReceiptNetExact(r: Receipt, sales: seq<Invoice>)
    requires ReceiptAmounts(r, sales)
    ensures Net(ReceiptLines(r, sales), None) ==
            InRupees(ReceiptGap(r) + Overcharge(r), r.rate) + BankRounding(r) - GainRounding(r, sales)
  {
    hide Carrying, Allocated, InRupees, Net, ReceiptLines, FxLine, Refer, Booked, Overcharge, ReceiptGap,
      ReceiptGain;
    CarryingSign(sales, r.allocations);
    ReceiptNet(r, sales, None);
    NetFx(ReceiptGain(r, sales), None);
    ConvertsSign(r.bankCharges, r.rate);
    ConvertsSign(r.tdsDeducted, r.rate);
    ConvertsSign(r.unapplied, r.rate);
    ReceiptConverted(r);
  }

  /**
   A receipt is posted exactly when the roundings of its bank line and of its exchange gain
   differ by what its stored amounts are out, overcharge included, converted.
   */
  lemma ReceiptPostsIff(r: Receipt, sales: seq<Invoice>)
    requires ReceiptAmounts(r, sales)
    ensures Posting(ReceiptLines(r, sales)).Success? <==>
            InRupees(ReceiptGap(r) + Overcharge(r), r.rate) + BankRounding(r) == GainRounding(r, sales)
  {
    hide ReceiptLines, Posting, AllProper, Net, Debits, Credits, BankRounding, GainRounding, InRupees, ReceiptGap,
      Overcharge;
    ReceiptProper(r, sales);
    ReceiptNetExact(r, sales);
    PostingIff(ReceiptLines(r, sales));
    NetIsDifference(ReceiptLines(r, sales));
  }

  // ---------------------------------------------------------------- notes

  predicate NoteAmounts(n: Note, x: Invoice) {
    x.rate > 0.0 && n.total > 0.0 && n.taxable >= 0.0 && Tax(n.taxes) >= 0.0
  }

  lemma NoteProper(n: Note, x: Invoice)
    requires NoteAmounts(n, x)
    ensures AllProper(NoteLines(n, x))
  {
    hide Tax, Booked;
    BookedNear(n.total, x.rate);
    BookedNear(n.taxable, x.rate);
  }

  lemma NoteSides(n: Note, x: Invoice)
    requires NoteAmounts(n, x)
    ensures var total, rest := Booked(n.total, x.rate), Booked(n.taxable, x.rate) + Booked(Tax(n.taxes), x.rate);
      if n.side.Receivable? == n.increase then Debits(NoteLines(n, x)) == total && Credits(NoteLines(n, x)) == rest
      else Credits(NoteLines(n, x)) == total && Debits(NoteLines(n, x)) == rest
  {
    hide Tax, Booked, Debits, Credits;
    BookedNear(Tax(n.taxes), x.rate);
    var tax, controlDebit := Booked(Tax(n.taxes), x.rate), n.side.Receivable? == n.increase;
    var owed := Sided(if n.side.Receivable? then Receivables else Payables, controlDebit, Booked(n.total, x.rate));
    var base := Sided(if n.side.Receivable? then Revenue else if x.ordered then Inventory else Expense, !controlDebit,
                      Booked(n.taxable, x.rate));
    var taxed := Sided(if n.side.Receivable? then OutputTax else InputTax, !controlDebit, tax);
    assert [owed, base] == [owed] + [base];
    SidesConcat([owed], [base]);
    SidesConcat([owed, base], When(tax > 0.0, taxed));
    SidesOfOne(owed);
    SidesOfOne(base);
    SidesOfWhen(tax > 0.0, taxed);
  }

  /** A note is posted exactly when its converted total is positive and the sum of its converted parts. */
  lemma NotePostsIff(n: Note, x: Invoice)
    requires NoteAmounts(n, x)
    ensures Posting(NoteLines(n, x)).Success? <==>
            && Booked(n.total, x.rate) == Booked(n.taxable, x.rate) + Booked(Tax(n.taxes), x.rate)
            && Booked(n.total, x.rate) > 0.0
  {
    NoteProper(n, x);
    NoteSides(n, x);
    PostingIff(NoteLines(n, x));
    NetIsDifference(NoteLines(n, x));
    hide NoteLines, Booked, Tax, Posting, AllProper, Net, Debits, Credits;
  }
}
