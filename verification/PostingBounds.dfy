/** When the lines of a document are nearly balanced at every rate, in terms of what was entered. */
module PostingBounds {
  import opened Wrappers
  import opened Decimals
  import opened FinancePosting
  import opened FinancePostingLaws
  import opened PostingGate

  /** A gap becomes as large as five cents at some rate. */
  lemma GapShows(gap: real) returns (rate: real)
    requires gap != 0.0
    ensures rate > 0.0 && (InRupees(gap, rate) == 0.05 || InRupees(gap, rate) == -0.05)
  {
    rate := if gap > 0.0 then 0.05 / gap else 0.05 / -gap;
    assert gap * (0.05 / gap) == 0.05;
    if gap < 0.0 {
      assert -gap * (0.05 / -gap) == 0.05;
    }
  }

  // ---------------------------------------------------------------- bills

  ghost predicate BillWithin(x: Invoice, rate: real) {
    Near(Net(BillLines(x.(rate := rate)), None), 0.0, 0.02)
  }

  lemma BillAtRate(x: Invoice, rate: real)
    requires rate > 0.0 && Tax(x.taxes) >= 0.0 && x.tds >= 0.0
    ensures Near(Net(BillLines(x.(rate := rate)), None), InRupees(BillGap(x), rate), 0.02)
  {
    BillImbalance(x.(rate := rate));
    hide Net, BillLines, Tax, InRupees;
  }

  /** A bill's lines are within two cents at every rate exactly when its stored amounts have no gap. */
  lemma BillWithinIff(x: Invoice)
    requires Tax(x.taxes) >= 0.0 && x.tds >= 0.0
    ensures (forall rate :: rate > 0.0 ==> BillWithin(x, rate)) <==> BillGap(x) == 0.0
  {
    hide Net, BillLines, Tax, InRupees, BillGap;
    if BillGap(x) == 0.0 {
      forall rate | rate > 0.0
        ensures BillWithin(x, rate)
      {
        BillAtRate(x, rate);
        ConvertsNothing(rate);
      }
    } else {
      var rate := GapShows(BillGap(x));
      BillAtRate(x, rate);
      assert !BillWithin(x, rate);
    }
  }

  /** The gap in terms of the request: the parts rounded one by one, less the rounded total. */
  function BillEntryGap(q: BillRequest): real {
    var taxable := BillTaxable(q.lines);
    taxable + Round2(q.other) + Tax(StoredTaxes(q.taxes)) - Round2(taxable + Tax(q.taxes)
        + q.other - q.tds) - Round2(q.tds)
  }

  /** So a bill as entered is within two cents at every rate exactly when its parts round to its total. */
  lemma BillEnteredIff(q: BillRequest)
    requires ValidTaxes(q.taxes) && q.tds >= 0.0
    ensures BillGap(Stored(Bill(q))) == BillEntryGap(q)
    ensures (forall rate :: rate > 0.0 ==> BillWithin(Stored(Bill(q)), rate)) <==> BillEntryGap(q) == 0.0
  {
    BillTaxableIsMoney(q.lines);
    Round2OfMoney(BillTaxable(q.lines));
    Round2Nearest(q.tds);
    Round2Nearest(q.taxes.central);
    Round2Nearest(q.taxes.state);
    Round2Nearest(q.taxes.integrated);
    hide Round2, IsMoney, BillTaxable, BillWithin;
    BillWithinIff(Stored(Bill(q)));
  }

  /** One unit at 1.00 with two taxes of 0.004 each, at a rate of 1000. */
  ghost predicate IsSubCentBill(q: BillRequest) {
    && q.rate == 1000.0 && q.other == 0.0 && q.tds == 0.0
    && q.taxes.central == 0.004 && q.taxes.state == 0.004 && q.taxes.integrated == 0.0
    && |q.lines| == 1 && q.lines[0].quantity == 1.0 && q.lines[0].unitPrice == 1.0 && q.lines[0].tax == 0.008
  }

  lemma OneLineBill(lines: seq<BillLine>)
    requires |lines| == 1
    ensures BillTaxable(lines) == LineTaxable(lines[0]) && BillTax(lines) == lines[0].tax
  {
    hide LineTaxable;
    assert lines[..0] == [];
    assert BillTaxable(lines[..0]) == 0.0 && BillTax(lines[..0]) == 0.0;
  }

  /** One unit of a two-decimal price. */
  lemma OneUnit(l: BillLine, price: real)
    requires l.quantity == 1.0 && l.unitPrice == price && IsMoney(price)
    ensures price >= 0.0 && l.tax >= 0.0 ==> ValidBillLine(l)
    ensures LineTaxable(l) == price
  {
    OneUnitPrice(l);
    hide ExtendedPrice, Round2, IsMoney;
    Round2OfMoney(ExtendedPrice(l));
  }

  lemma OneUnitPrice(l: BillLine)
    requires l.quantity == 1.0
    ensures ExtendedPrice(l) == l.unitPrice
  {
  }

  lemma SubCentAmounts(q: BillRequest)
    requires IsSubCentBill(q)
    ensures ValidBillLines(q.lines) && Tax(q.taxes) == BillTax(q.lines) && ValidTaxes(q.taxes)
    ensures Bill(q).taxable == 1.0 && Bill(q).outstanding == 1.008
  {
    hide BillTaxable, BillTax, LineTaxable, ValidBillLine;
    OneLineBill(q.lines);
    assert 1.0 == Hundredths(100);
    OneUnit(q.lines[0], 1.0);
  }

  lemma SubCentStored(x: Invoice)
    requires x.rate == 1000.0 && x.taxable == 1.0 && x.other == 0.0 && x.tds == 0.0 && x.outstanding == 1.008
    requires x.taxes.central == 0.004 && x.taxes.state == 0.004 && x.taxes.integrated == 0.0
    ensures var y := Stored(x);
      y.taxable == 1.0 && y.other == 0.0 && y.tds == 0.0 && y.outstanding == 1.01 && Tax(y.taxes) == 0.0
  {
    Round2Is(x.taxable, 100);
    Round2Is(x.other, 0);
    Round2Is(x.tds, 0);
    Round2Is(x.outstanding, 101);
    Round2Is(x.taxes.central, 0);
    Round2Is(x.taxes.state, 0);
    Round2Is(x.taxes.integrated, 0);
    hide Round2;
  }

  /**
   Taxes entered with more than two decimals can leave a gap: two halves of 0.8 paise vanish
   when stored, the total keeps them, and at a rate of 1000 the lines are out by ten rupees, so
   that the bill, though accepted, is refused when it is to be posted.
   */
  lemma SubCentTaxesUnbalance(s: Store, q: BillRequest)
    requires IsSubCentBill(q)
    ensures CreateBill(s, q).Success?
    ensures Net(BillLines(Stored(Bill(q))), None) == -10.0 && Posting(BillLines(Stored(Bill(q)))).Failure?
  {
    hide Stored, Tax, BillTaxable, BillTax, ValidBillLines, ValidTaxes, Net, BillLines, Posting;
    SubCentAmounts(q);
    SubCentStored(Bill(q));
    StoredKeepsRate(Bill(q));
    UnbalancedBill(Stored(Bill(q)));
  }

  lemma StoredKeepsRate(x: Invoice)
    ensures Stored(x).rate == x.rate && Stored(x).status == x.status
  {
  }

  lemma UnbalancedBill(x: Invoice)
    requires x.rate == 1000.0 && x.taxable == 1.0 && x.other == 0.0 && x.tds == 0.0 && x.outstanding == 1.01
    requires Tax(x.taxes) == 0.0
    ensures Net(BillLines(x), None) == -10.0 && Posting(BillLines(x)).Failure?
  {
    hide BillLines, Net, Posting, Tax, Booked;
    BookedIs(x.taxable + x.other, x.rate, 100000);
    BookedIs(x.outstanding, x.rate, 101000);
    BookedIs(x.tds, x.rate, 0);
    BookedIs(Tax(x.taxes), x.rate, 0);
    BillOutBy(x);
  }

  /** What a bill's lines are out by, and that it is refused when they are. */
  lemma BillOutBy(x: Invoice)
    requires BillAmounts(x)
    ensures var out := Booked(x.taxable + x.other, x.rate) + Booked(Tax(x.taxes), x.rate)
                       - Booked(x.outstanding, x.rate) - Booked(x.tds, x.rate);
      Net(BillLines(x), None) == out && (out != 0.0 ==> Posting(BillLines(x)).Failure?)
  {
    hide BillLines, Net, Posting, Tax, Booked, Debits, Credits;
    BillSides(x);
    NetIsDifference(BillLines(x));
    BillPostsIff(x);
  }

  lemma BookedIs(x: real, rate: real, n: int)
    requires -0.005 < x * rate - Hundredths(n) < 0.005
    ensures Booked(x, rate) == Hundredths(n)
  {
    Round2Is(InRupees(x, rate), n);
    hide Round2;
  }

  // ---------------------------------------------------------------- payments

  ghost predicate PaymentWithin(p: Payment, bills: seq<Invoice>, rate: real)
    requires Refer(p.allocations, |bills|)
  {
    Near(Net(PaymentLines(p.(rate := rate), bills), None), 0.0, 0.005)
  }

  lemma PaymentAtRate(p: Payment, bills: seq<Invoice>, rate: real)
    requires rate > 0.0 && Refer(p.allocations, |bills|)
    requires forall i :: 0 <= i < |p.allocations| ==> p.allocations[i].amount >= 0.0
    ensures Near(Net(PaymentLines(p.(rate := rate), bills), None), InRupees(Excess(p), rate), 0.005)
  {
    PaymentImbalance(p.(rate := rate), bills);
    hide Net, PaymentLines, Allocated, Refer, InRupees;
    ConvertsNothing(rate);
  }

  /** A payment's lines are within half a cent at every rate exactly when its allocations stay within its amount. */
  lemma PaymentWithinIff(p: Payment, bills: seq<Invoice>)
    requires Refer(p.allocations, |bills|)
    requires forall i :: 0 <= i < |p.allocations| ==> p.allocations[i].amount >= 0.0
    ensures (forall rate :: rate > 0.0 ==> PaymentWithin(p, bills, rate)) <==> Allocated(p.allocations) <= p.amount
  {
    hide Net, PaymentLines, Allocated, InRupees;
    if Allocated(p.allocations) <= p.amount {
      forall rate | rate > 0.0
        ensures PaymentWithin(p, bills, rate)
      {
        PaymentAtRate(p, bills, rate);
        ConvertsNothing(rate);
      }
    } else {
      var rate := GapShows(Excess(p));
      PaymentAtRate(p, bills, rate);
      assert !PaymentWithin(p, bills, rate);
    }
  }

  /** As entered: when the allocations, rounded one by one, stay within the rounded amount. */
  lemma PaymentEnteredIff(s: Store, party: Party, rate: real, amount: real, allocations: seq<Allocation>)
    requires CreatePayment(s, party, rate, amount, allocations).Success?
    ensures Refer(StoredAllocations(allocations), |s.bills|)
    ensures var p := Payment(party, rate, Round2(amount), StoredAllocations(allocations), false);
      (forall r :: r > 0.0 ==> PaymentWithin(p, s.bills, r)) <==>
          Allocated(StoredAllocations(allocations)) <= Round2(amount)
  {
    var p := Payment(party, rate, Round2(amount), StoredAllocations(allocations), false);
    forall i | 0 <= i < |allocations|
      ensures p.allocations[i].amount >= 0.0 && p.allocations[i].invoice == allocations[i].invoice
    {
      Round2Nearest(allocations[i].amount);
      hide Round2;
    }
    hide Round2, StoredAllocations, Allocated, PaymentWithin, Once;
    PaymentWithinIff(p, s.bills);
  }

  // ---------------------------------------------------------------- receipts

  ghost predicate ReceiptWithin(r: Receipt, sales: seq<Invoice>, rate: real)
    requires Refer(r.allocations, |sales|)
  {
    Near(Net(ReceiptLines(r.(rate := rate), sales), None), 0.0, 0.01)
  }

  lemma ReceiptAtRate(r: Receipt, sales: seq<Invoice>, rate: real)
    requires rate > 0.0 && Refer(r.allocations, |sales|)
    requires forall i :: 0 <= i < |r.allocations| ==> r.allocations[i].amount >= 0.0
    requires r.bankCharges >= 0.0 && r.tdsDeducted >= 0.0 && r.unapplied >= 0.0
    ensures Near(Net(ReceiptLines(r.(rate := rate), sales), None), InRupees(ReceiptGap(r) + Overcharge(r), rate), 0.01)
  {
    ReceiptImbalance(r.(rate := rate), sales);
    hide Net, ReceiptLines, Allocated, Refer, InRupees;
  }

  /** A receipt's lines are within one cent at every rate exactly when its gap and its overcharge cancel out. */
  lemma ReceiptWithinIff(r: Receipt, sales: seq<Invoice>)
    requires Refer(r.allocations, |sales|)
    requires forall i :: 0 <= i < |r.allocations| ==> r.allocations[i].amount >= 0.0
    requires r.bankCharges >= 0.0 && r.tdsDeducted >= 0.0 && r.unapplied >= 0.0
    ensures (forall rate :: rate > 0.0 ==> ReceiptWithin(r, sales, rate)) <==> ReceiptGap(r) + Overcharge(r) == 0.0
  {
    hide Net, ReceiptLines, InRupees, ReceiptGap, Overcharge;
    if ReceiptGap(r) + Overcharge(r) == 0.0 {
      forall rate | rate > 0.0
        ensures ReceiptWithin(r, sales, rate)
      {
        ReceiptAtRate(r, sales, rate);
        ConvertsNothing(rate);
      }
    } else {
      var rate := GapShows(ReceiptGap(r) + Overcharge(r));
      ReceiptAtRate(r, sales, rate);
      assert !ReceiptWithin(r, sales, rate);
    }
  }

  /** Amount and TDS rounded one by one, less allocations and remainder rounded one by one, plus the overcharge. */
  function ReceiptEntryGap(q: ReceiptRequest): real {
    Round2(q.amount) + Round2(q.tdsDeducted) - Allocated(StoredAllocations(q.allocations))
    - Round2(q.amount + q.tdsDeducted - Allocated(q.allocations))
    + if Round2(q.bankCharges) > Round2(q.amount) then Round2(q.bankCharges) - Round2(q.amount) else 0.0
  }

  lemma ReceiptEnteredIff(s: Store, q: ReceiptRequest)
    requires CreateReceipt(s, q).Success?
    ensures Refer(q.allocations, |s.sales|)
    ensures ReceiptGap(NewReceipt(q)) + Overcharge(NewReceipt(q)) == ReceiptEntryGap(q)
    ensures Refer(NewReceipt(q).allocations, |s.sales|)
    ensures (forall rate :: rate > 0.0 ==> ReceiptWithin(NewReceipt(q), s.sales, rate)) <==> ReceiptEntryGap(q) == 0.0
  {
    var r := NewReceipt(q);
    CheckedAllocationsRefer(s.sales, q.allocations);
    forall i | 0 <= i < |q.allocations|
      ensures r.allocations[i].amount >= 0.0 && r.allocations[i].invoice == q.allocations[i].invoice
    {
      Round2Nearest(q.allocations[i].amount);
      hide Round2;
    }
    Round2Nearest(q.bankCharges);
    Round2Nearest(q.tdsDeducted);
    Round2Nearest(q.amount + q.tdsDeducted - Allocated(q.allocations));
    hide Round2, IsMoney, StoredAllocations, Allocated, ReceiptWithin, Once, CheckAllocations, Positive;
    ReceiptWithinIff(r, s.sales);
  }

  /** A receipt without a gap whose overcharge is more than half a cent in rupees is refused. */
  lemma OverchargedIsRefused(r: Receipt, sales: seq<Invoice>)
    requires ReceiptAmounts(r, sales) && ReceiptGap(r) == 0.0 && InRupees(Overcharge(r), r.rate) > 0.005
    ensures Posting(ReceiptLines(r, sales)).Failure?
  {
    hide ReceiptLines, Posting, ReceiptGap, Carrying, Allocated, Round2, IsMoney;
    ReceiptPostsIff(r, sales);
    Round2Nearest(InRupees(Allocated(r.allocations), r.rate) - Carrying(sales, r.allocations));
    ConvertsNothing(r.rate);
    BookedNear(r.amount - r.bankCharges, r.rate);
    hide Booked, InRupees;
  }

  /** Ten received, thirty charged: accepted, but its lines are out by the twenty, and it cannot be posted. */
  lemma OverchargedReceiptRefused(s: Store, q: ReceiptRequest)
    requires q.rate == 1.0 && q.amount == 10.0 && q.tdsDeducted == 0.0 && q.bankCharges == 30.0 && q.allocations == []
    ensures CreateReceipt(s, q) == Success(s.(receipts := s.receipts + [NewReceipt(q)]))
    ensures Refer([], |s.sales|) && Net(ReceiptLines(NewReceipt(q), s.sales), None) == 20.0
    ensures Posting(ReceiptLines(NewReceipt(q), s.sales)).Failure?
  {
    OverchargedAmounts(q);
    var r := NewReceipt(q);
    assert r.allocations == [];
    hide NewReceipt;
    OverchargedNet(r, s.sales);
    assert InRupees(Overcharge(r), r.rate) == 20.0;
    hide InRupees, Overcharge, ReceiptGap, Net, ReceiptLines, Posting;
    OverchargedIsRefused(r, s.sales);
  }

  lemma OverchargedAmounts(q: ReceiptRequest)
    requires q.rate == 1.0 && q.amount == 10.0 && q.tdsDeducted == 0.0 && q.bankCharges == 30.0 && q.allocations == []
    ensures var r := NewReceipt(q);
      && r.rate == 1.0 && r.amount == 10.0 && r.tdsDeducted == 0.0 && r.bankCharges == 30.0 && r.unapplied == 10.0
      && ReceiptGap(r) == 0.0 && Overcharge(r) == 20.0
  {
    assert Allocated([]) == 0.0;
    assert q.amount == Hundredths(1000) && q.tdsDeducted == Hundredths(0) && q.bankCharges == Hundredths(3000);
    Round2OfMoney(q.amount);
    Round2OfMoney(q.tdsDeducted);
    Round2OfMoney(q.bankCharges);
    hide Round2;
  }

  lemma OverchargedNet(r: Receipt, sales: seq<Invoice>)
    requires r.rate == 1.0 && r.allocations == [] && r.unapplied > 0.0 && r.bankCharges >= 0.0 && r.tdsDeducted >= 0.0
    requires ReceiptGap(r) == 0.0 && r.bankCharges > r.amount
    ensures ReceiptAmounts(r, sales) && Net(ReceiptLines(r, sales), None) == Overcharge(r)
  {
    hide Net, ReceiptLines, ReceiptGap;
    assert Carrying(sales, r.allocations) == 0.0 && Allocated(r.allocations) == 0.0;
    ReceiptNetExact(r, sales);
    ZeroIsMoney();
    Round2OfMoney(0.0);
    BookedNear(r.amount - r.bankCharges, r.rate);
    hide Round2, IsMoney, Booked, Carrying, Allocated;
  }

  // ---------------------------------------------------------------- notes

  ghost predicate NoteWithin(n: Note, x: Invoice, rate: real) {
    Near(Net(NoteLines(n, x.(rate := rate)), None), 0.0, 0.015)
  }

  lemma NoteAtRate(n: Note, x: Invoice, rate: real)
    requires rate > 0.0 && Tax(n.taxes) >= 0.0
    ensures var gap := InRupees(NoteGap(n), rate);
      Near(Net(NoteLines(n, x.(rate := rate)), None), if n.side.Receivable? == n.increase then gap else -gap, 0.015)
  {
    NoteImbalance(n, x.(rate := rate));
    hide Net, NoteLines, Tax, InRupees, NoteGap;
    ConvertsSum(0.0, NoteGap(n), rate);
    ConvertsNothing(rate);
    assert 1.0 * NoteGap(n) == NoteGap(n) && -1.0 * NoteGap(n) == 0.0 - NoteGap(n);
  }

  /** A note's lines are within a cent and a half at every rate exactly when its stored amounts have no gap. */
  lemma NoteWithinIff(n: Note, x: Invoice)
    requires Tax(n.taxes) >= 0.0
    ensures (forall rate :: rate > 0.0 ==> NoteWithin(n, x, rate)) <==> NoteGap(n) == 0.0
  {
    hide Net, NoteLines, Tax, InRupees, NoteGap;
    if NoteGap(n) == 0.0 {
      forall rate | rate > 0.0
        ensures NoteWithin(n, x, rate)
      {
        NoteAtRate(n, x, rate);
        ConvertsNothing(rate);
      }
    } else {
      var rate := GapShows(NoteGap(n));
      NoteAtRate(n, x, rate);
      assert !NoteWithin(n, x, rate);
    }
  }

  /** The rounded total less the parts rounded one by one. */
  function NoteEntryGap(taxable: real, taxes: Taxes): real {
    Round2(taxable + Tax(taxes)) - Round2(taxable) - Tax(StoredTaxes(taxes))
  }

  lemma NoteEnteredIff(side: Side, increase: bool, invoice: nat, taxable: real, taxes: Taxes, x: Invoice)
    requires ValidTaxes(taxes)
    ensures var n := Note(side, increase, invoice, Round2(taxable), StoredTaxes(taxes), Round2(taxable + Tax(taxes)),
              false);
      (forall rate :: rate > 0.0 ==> NoteWithin(n, x, rate)) <==> NoteEntryGap(taxable, taxes) == 0.0
  {
    Round2Nearest(taxes.central);
    Round2Nearest(taxes.state);
    Round2Nearest(taxes.integrated);
    hide Round2, IsMoney, NoteWithin;
    NoteWithinIff(Note(side, increase, invoice, Round2(taxable), StoredTaxes(taxes), Round2(taxable + Tax(taxes)),
        false), x);
  }

  // ---------------------------------------------------------------- at par

  /** In whole cents and at a rate of 1 a bill is posted unless it is for nothing. */
  lemma BillPostsAtPar(x: Invoice)
    requires BillAmounts(x) && x.rate == 1.0 && BillGap(x) == 0.0
    requires IsMoney(x.taxable + x.other) && IsMoney(Tax(x.taxes)) && IsMoney(x.outstanding) && IsMoney(x.tds)
    ensures Posting(BillLines(x)).Success? <==> x.outstanding + x.tds > 0.0
  {
    BookedAtPar(x.taxable + x.other);
    BookedAtPar(Tax(x.taxes));
    BookedAtPar(x.outstanding);
    BookedAtPar(x.tds);
    BillPostsIff(x);
    hide Posting, BillLines, Booked, Tax, IsMoney;
  }

  lemma BookedAtPar(x: real)
    requires IsMoney(x)
    ensures Booked(x, 1.0) == x
  {
    Round2OfMoney(x);
    assert InRupees(x, 1.0) == x;
    hide Round2, IsMoney;
  }
}
