/** What finance documents hold, in terms of the requests that entered them. */
module AsEntered {
  import opened Wrappers
  import opened Decimals
  import opened FinancePosting
  import opened FinancePostingLaws
  import opened ControlAccounts

  function TaxSum(t: Taxes): real {
    t.central + t.state + t.integrated
  }

  // ---------------------------------------------------------------- bills

  function BillPrice(l: BillLine): real {
    l.quantity * l.unitPrice
  }

  function BillPrices(lines: seq<BillLine>): real {
    if lines == [] then 0.0 else BillPrices(lines[..|lines| - 1]) + BillPrice(lines[|lines| - 1])
  }

  /** The prices of the lines, each rounded. */
  function BillCharged(lines: seq<BillLine>): real {
    if lines == [] then 0.0 else BillCharged(lines[..|lines| - 1]) + Round2(BillPrice(lines[|lines| - 1]))
  }

  /** The line taxes as entered. */
  function LineTaxes(lines: seq<BillLine>): real {
    if lines == [] then 0.0 else LineTaxes(lines[..|lines| - 1]) + lines[|lines| - 1].tax
  }

  lemma {:induction false} BillSums(lines: seq<BillLine>)
    ensures BillTaxable(lines) == BillCharged(lines) && BillTax(lines) == LineTaxes(lines)
  {
    if lines != [] {
      BillSums(lines[..|lines| - 1]);
      assert LineTaxable(lines[|lines| - 1]) == Round2(BillPrice(lines[|lines| - 1]));
      hide Round2, LineTaxable, BillPrice;
    }
  }

  /** Rounded line by line, the taxable amount is off by at most half a paisa for each line. */
  lemma {:induction false} BillChargedNear(lines: seq<BillLine>)
    ensures Near(BillCharged(lines), BillPrices(lines), |lines| as real * 0.005) && IsMoney(BillCharged(lines))
  {
    if lines == [] {
      ZeroIsMoney();
    } else {
      var init, last := lines[..|lines| - 1], lines[|lines| - 1];
      Round2Nearest(BillPrice(last));
      hide Round2, IsMoney, BillPrice;
      BillChargedNear(init);
      MoneyClosed(BillCharged(init), Round2(BillPrice(last)));
    }
  }

  /** What a stored bill keeps of its request for good. */
  ghost predicate BillAs(x: Invoice, q: BillRequest) {
    && x.party == q.party && x.ordered == q.ordered && x.rate == q.rate
    && x.taxable == BillCharged(q.lines) && x.other == Round2(q.other)
    && x.taxes.central == Round2(q.taxes.central) && x.taxes.state == Round2(q.taxes.state)
    && x.taxes.integrated == Round2(q.taxes.integrated)
  }

  /** When a bill is accepted. */
  predicate BillValid(q: BillRequest) {
    && q.lines != [] && q.rate > 0.0 && q.other >= 0.0 && q.tds >= 0.0
    && (forall i :: 0 <= i < |q.lines| ==>
          q.lines[i].quantity >= 0.0001 && q.lines[i].unitPrice >= 0.0 && q.lines[i].tax >= 0.0)
    && q.taxes.central >= 0.0 && q.taxes.state >= 0.0 && q.taxes.integrated >= 0.0
    && TaxSum(q.taxes) == LineTaxes(q.lines)
    && q.tds <= BillCharged(q.lines) + TaxSum(q.taxes) + q.other
  }

  /** A bill is accepted by its request alone; and what is entered waits to be posted. */
  lemma BillEnters(s: Store, q: BillRequest)
    ensures var t := Step(s, CreateBillOp(q));
      if BillValid(q) then
        && |t.bills| == |s.bills| + 1 && t == s.(bills := s.bills + [t.bills[|s.bills|]])
        && var x := t.bills[|s.bills|];
        && BillAs(x, q) && x.status.Unposted? && x.paid == 0.0 && x.tds == Round2(q.tds)
        && x.outstanding == Round2(BillCharged(q.lines) + TaxSum(q.taxes) + q.other - q.tds)
      else t == s
  {
    BillSums(q.lines);
    BillChargedNear(q.lines);
    Round2OfMoney(BillCharged(q.lines));
    hide Round2, BillTaxable, BillTax, BillCharged, BillPrices, LineTaxes, IsMoney;
  }

  // ---------------------------------------------------------------- sales invoices

  /** What a line comes to after its discount. */
  function NetPrice(l: SalesLine): real {
    l.quantity * l.unitPrice * (100.0 - l.discountPercent) / 100.0
  }

  function NetPrices(lines: seq<SalesLine>): real {
    if lines == [] then 0.0 else NetPrices(lines[..|lines| - 1]) + NetPrice(lines[|lines| - 1])
  }

  function Charged(lines: seq<SalesLine>): real {
    if lines == [] then 0.0 else Charged(lines[..|lines| - 1]) + Round2(NetPrice(lines[|lines| - 1]))
  }

  datatype Levy = Central | State | Integrated

  function RateOf(l: SalesLine, levy: Levy): real {
    match levy case Central => l.centralRate case State => l.stateRate case Integrated => l.integratedRate
  }

  /** A tax at its rate on what is charged for the line. */
  function LevyOn(l: SalesLine, levy: Levy): real {
    Round2(NetPrice(l)) * RateOf(l, levy) / 100.0
  }

  function Levies(lines: seq<SalesLine>, levy: Levy): real {
    if lines == [] then 0.0 else Levies(lines[..|lines| - 1], levy) + LevyOn(lines[|lines| - 1], levy)
  }

  function Levied(lines: seq<SalesLine>, levy: Levy): real {
    if lines == [] then 0.0 else Levied(lines[..|lines| - 1], levy) + Round2(LevyOn(lines[|lines| - 1], levy))
  }

  lemma DiscountIs(l: SalesLine)
    ensures Discounted(l) == NetPrice(l)
  {
    var price, d := l.quantity * l.unitPrice, l.discountPercent;
    assert price * (1.0 - d / 100.0) == price * ((100.0 - d) / 100.0);
  }

  lemma LevyIs(l: SalesLine, levy: Levy)
    ensures LevyOn(l, levy) == Percent(Round2(NetPrice(l)), RateOf(l, levy))
  {
    hide Round2, NetPrice;
  }

  lemma LineCharged(l: SalesLine)
    ensures var c := CalculateLine(l);
      && c.taxable == Round2(NetPrice(l))
      && c.taxes.central == Round2(LevyOn(l, Central)) && c.taxes.state == Round2(LevyOn(l, State))
      && c.taxes.integrated == Round2(LevyOn(l, Integrated))
  {
    DiscountIs(l);
    LevyIs(l, Central);
    LevyIs(l, State);
    LevyIs(l, Integrated);
    hide Round2, NetPrice, Discounted, Percent, LevyOn;
  }

  lemma {:induction false} SaleSums(lines: seq<SalesLine>)
    ensures var sum := AddUp(lines);
      && sum.taxable == Charged(lines)
      && sum.taxes.central == Levied(lines, Central) && sum.taxes.state == Levied(lines, State)
      && sum.taxes.integrated == Levied(lines, Integrated)
  {
    if lines != [] {
      SaleSums(lines[..|lines| - 1]);
      LineCharged(lines[|lines| - 1]);
      hide Round2, CalculateLine, NetPrice, LevyOn;
    }
  }

  /** What is charged, and each tax, is off by at most half a paisa for each line. */
  lemma {:induction false} ChargedNear(lines: seq<SalesLine>, levy: Levy)
    ensures Near(Charged(lines), NetPrices(lines), |lines| as real * 0.005) && IsMoney(Charged(lines))
    ensures Near(Levied(lines, levy), Levies(lines, levy), |lines| as real * 0.005) && IsMoney(Levied(lines, levy))
  {
    if lines == [] {
      ZeroIsMoney();
    } else {
      var init, last := lines[..|lines| - 1], lines[|lines| - 1];
      Round2Nearest(NetPrice(last));
      Round2Nearest(LevyOn(last, levy));
      hide Round2, IsMoney, NetPrice, LevyOn;
      ChargedNear(init, levy);
      MoneyClosed(Charged(init), Round2(NetPrice(last)));
      MoneyClosed(Levied(init, levy), Round2(LevyOn(last, levy)));
    }
  }

  /** A line given away adds nothing; a line without discount adds its price, rounded. */
  lemma DiscountEnds(l: SalesLine)
    ensures l.discountPercent == 100.0 ==> Round2(NetPrice(l)) == 0.0
    ensures l.discountPercent == 0.0 ==> Round2(NetPrice(l)) == Round2(l.quantity * l.unitPrice)
  {
    var price := l.quantity * l.unitPrice;
    if l.discountPercent == 100.0 {
      assert NetPrice(l) == price * 0.0 / 100.0;
    } else if l.discountPercent == 0.0 {
      assert NetPrice(l) == price * 100.0 / 100.0;
      hide Round2;
    }
  }

  /** What a stored sales invoice keeps of its request for good. */
  ghost predicate SaleAs(x: Invoice, q: SalesRequest) {
    && x.party == q.party && !x.ordered && x.rate == q.rate && x.other == Round2(q.other) && x.tds == 0.0
    && x.taxable == Charged(q.lines) && x.taxes.central == Levied(q.lines, Central)
    && x.taxes.state == Levied(q.lines, State) && x.taxes.integrated == Levied(q.lines, Integrated)
  }

  /** When a sales invoice is accepted. */
  predicate SaleValid(q: SalesRequest) {
    && q.lines != [] && q.rate > 0.0 && q.other >= 0.0
    && forall i :: 0 <= i < |q.lines| ==> var l := q.lines[i];
         && l.quantity >= 0.0001 && l.unitPrice >= 0.0 && 0.0 <= l.discountPercent <= 100.0
         && l.centralRate == l.stateRate >= 0.0 && l.integratedRate >= 0.0
         && (l.centralRate == 0.0 || l.integratedRate == 0.0)
  }

  lemma SaleValidIff(q: SalesRequest)
    ensures SaleValid(q) <==>
            && q.rate > 0.0 && q.other >= 0.0 && ValidSalesLines(q.lines)
            && forall i :: 0 <= i < |q.lines| ==> RatesAgree(q.lines[i])
  {
  }

  lemma SaleEnters(s: Store, q: SalesRequest)
    ensures var t := Step(s, CreateSaleOp(q));
      if SaleValid(q) then
        && |t.sales| == |s.sales| + 1 && t == s.(sales := s.sales + [t.sales[|s.sales|]])
        && var x := t.sales[|s.sales|];
        && SaleAs(x, q) && x.status.Unposted? && x.paid == 0.0
        && x.outstanding == Round2(Charged(q.lines) + TaxSum(x.taxes) + q.other + q.roundOff)
      else t == s
  {
    SaleValidIff(q);
    SaleStored(q);
    hide Round2, Charged, SaleAs, SaleValid, ValidSalesLines, RatesAgree, Stored, Sale, TaxSum, CreateBill, SetTds,
      PostBill, CreatePayment, ExecutePayment, PostSale, CreateReceipt, PostReceipt, CreateNote, PostNote;
  }

  lemma SaleStored(q: SalesRequest)
    ensures var x := Stored(Sale(q));
      && SaleAs(x, q) && x.status.Unposted? && x.paid == 0.0
      && x.outstanding == Round2(Charged(q.lines) + TaxSum(x.taxes) + q.other + q.roundOff)
  {
    var sum := AddUp(q.lines);
    SaleSums(q.lines);
    SaleRounds(q.lines, Central);
    SaleRounds(q.lines, State);
    SaleRounds(q.lines, Integrated);
    hide Round2, AddUp, Charged, Levied, Sale, Stored;
    SaleIs(q);
    assert Tax(sum.taxes) == TaxSum(sum.taxes);
  }

  lemma SaleIs(q: SalesRequest)
    ensures var sum, x := AddUp(q.lines), Stored(Sale(q));
      && x.party == q.party && !x.ordered && x.rate == q.rate && x.other == Round2(q.other) && x.tds == 0.0
      && x.taxable == Round2(sum.taxable) && x.taxes.central == Round2(sum.taxes.central)
      && x.taxes.state == Round2(sum.taxes.state) && x.taxes.integrated == Round2(sum.taxes.integrated)
      && x.outstanding == Round2(sum.taxable + Tax(sum.taxes) + q.other + q.roundOff)
      && x.status.Unposted? && x.paid == 0.0
  {
    Round2Twice(AddUp(q.lines).taxable + Tax(AddUp(q.lines).taxes) + q.other + q.roundOff);
    NothingRounds();
    hide Round2, AddUp, Tax;
  }

  lemma NothingRounds()
    ensures Round2(0.0) == 0.0
  {
  }

  lemma SaleRounds(lines: seq<SalesLine>, levy: Levy)
    ensures Round2(Charged(lines)) == Charged(lines) && Round2(Levied(lines, levy)) == Levied(lines, levy)
  {
    ChargedNear(lines, levy);
    Round2OfMoney(Charged(lines));
    Round2OfMoney(Levied(lines, levy));
    hide Round2, IsMoney;
  }

  lemma Round2Twice(x: real)
    ensures Round2(Round2(x)) == Round2(x)
  {
    Round2Nearest(x);
    Round2OfMoney(Round2(x));
    hide Round2, IsMoney;
  }

  // ---------------------------------------------------------------- settlements and notes

  function AmountSum(allocations: seq<Allocation>): real {
    if allocations == [] then 0.0
    else AmountSum(allocations[..|allocations| - 1]) + allocations[|allocations| - 1].amount
  }

  lemma {:induction false} AllocatedIs(allocations: seq<Allocation>)
    ensures Allocated(allocations) == AmountSum(allocations)
  {
    if allocations != [] {
      AllocatedIs(allocations[..|allocations| - 1]);
    }
  }

  /** Of the party, open, and not beyond what is outstanding. */
  predicate Settleable(invoices: seq<Invoice>, party: Party, a: Allocation) {
    && a.invoice < |invoices| && a.amount >= 0.01
    && invoices[a.invoice].party == party
    && (invoices[a.invoice].status.Open? || invoices[a.invoice].status.PartiallyPaid?)
    && a.amount <= invoices[a.invoice].outstanding
  }

  predicate AllSettleable(invoices: seq<Invoice>, party: Party, allocations: seq<Allocation>) {
    && (forall k :: 0 <= k < |allocations| ==> Settleable(invoices, party, allocations[k]))
    && forall j, k :: 0 <= j < k < |allocations| ==> allocations[j].invoice != allocations[k].invoice
  }

  ghost predicate RoundedAllocations(stored: seq<Allocation>, entered: seq<Allocation>) {
    && |stored| == |entered|
    && forall k :: 0 <= k < |stored| ==>
         stored[k].invoice == entered[k].invoice && stored[k].amount == Round2(entered[k].amount)
  }

  ghost predicate PaymentAs(p: Payment, party: Party, rate: real, amount: real, allocations: seq<Allocation>) {
    && p.party == party && p.rate == rate && p.amount == Round2(amount)
    && RoundedAllocations(p.allocations, allocations)
  }

  lemma PaymentEnters(s: Store, party: Party, rate: real, amount: real, allocations: seq<Allocation>)
    ensures var t := Step(s, CreatePaymentOp(party, rate, amount, allocations));
      if rate > 0.0 && amount >= 0.01 && AllSettleable(s.bills, party, allocations)
         && AmountSum(allocations) <= amount then
        && |t.payments| == |s.payments| + 1 && t == s.(payments := s.payments + [t.payments[|s.payments|]])
        && PaymentAs(t.payments[|s.payments|], party, rate, amount, allocations)
        && !t.payments[|s.payments|].executed
      else t == s
  {
    AllocatedIs(allocations);
    hide Round2, Allocated, AmountSum;
  }

  ghost predicate ReceiptAs(r: Receipt, q: ReceiptRequest) {
    && r.party == q.party && r.rate == q.rate && r.amount == Round2(q.amount)
    && r.tdsDeducted == Round2(q.tdsDeducted) && r.bankCharges == Round2(q.bankCharges)
    && r.unapplied == Round2(q.amount + q.tdsDeducted - AmountSum(q.allocations))
    && RoundedAllocations(r.allocations, q.allocations)
  }

  lemma {:induction false} CheckedIff(sales: seq<Invoice>, allocations: seq<Allocation>)
    ensures CheckAllocations(sales, allocations).Pass? <==>
            forall k :: 0 <= k < |allocations| ==>
              allocations[k].invoice < |sales| && allocations[k].amount <= sales[allocations[k].invoice].outstanding
  {
    if allocations != [] {
      CheckedIff(sales, allocations[1..]);
      assert forall k :: 0 < k < |allocations| ==> allocations[k] == allocations[1..][k - 1];
    }
  }

  lemma ReceiptEnters(s: Store, q: ReceiptRequest)
    ensures var t := Step(s, CreateReceiptOp(q));
      if q.rate > 0.0 && q.amount >= 0.01 && q.tdsDeducted >= 0.0 && q.bankCharges >= 0.0
         && AllSettleable(s.sales, q.party, q.allocations) && AmountSum(q.allocations) <= q.amount + q.tdsDeducted then
        && |t.receipts| == |s.receipts| + 1 && t == s.(receipts := s.receipts + [t.receipts[|s.receipts|]])
        && ReceiptAs(t.receipts[|s.receipts|], q) && !t.receipts[|s.receipts|].posted
      else t == s
  {
    AllocatedIs(q.allocations);
    CheckedIff(s.sales, q.allocations);
    hide Round2, Allocated, AmountSum, CheckAllocations;
  }

  ghost predicate NoteAs(n: Note, side: Side, increase: bool, invoice: nat, taxable: real, taxes: Taxes) {
    && n.side == side && n.increase == increase && n.invoice == invoice && n.taxable == Round2(taxable)
    && n.taxes.central == Round2(taxes.central) && n.taxes.state == Round2(taxes.state)
    && n.taxes.integrated == Round2(taxes.integrated) && n.total == Round2(taxable + TaxSum(taxes))
  }

  /** On an open invoice and for something; a credit note only within what is outstanding. */
  predicate NoteValid(s: Store, side: Side, increase: bool, invoice: nat, taxable: real, taxes: Taxes) {
    var invoices := if side.Receivable? then s.sales else s.bills;
    && taxable >= 0.0 && taxes.central >= 0.0 && taxes.state >= 0.0 && taxes.integrated >= 0.0
    && Round2(taxable + TaxSum(taxes)) > 0.0
    && invoice < |invoices| && (invoices[invoice].status.Open? || invoices[invoice].status.PartiallyPaid?)
    && (increase || Round2(taxable + TaxSum(taxes)) <= invoices[invoice].outstanding)
  }

  lemma NoteEnters(s: Store, side: Side, increase: bool, invoice: nat, taxable: real, taxes: Taxes)
    ensures var t := Step(s, CreateNoteOp(side, increase, invoice, taxable, taxes));
      if NoteValid(s, side, increase, invoice, taxable, taxes) then
        && |t.notes| == |s.notes| + 1 && t == s.(notes := s.notes + [t.notes[|s.notes|]])
        && NoteAs(t.notes[|s.notes|], side, increase, invoice, taxable, taxes) && !t.notes[|s.notes|].posted
      else t == s
  {
    hide Round2;
  }

  /** Only a bill that waits to be posted gets another TDS, a percentage of its base. */
  lemma TdsIsSet(s: Store, id: nat, base: real, percent: real)
    ensures var t := Step(s, SetTdsOp(id, base, percent));
      if base >= 0.0 && percent >= 0.0 && id < |s.bills| && s.bills[id].status.Unposted? then
        && t == s.(bills := s.bills[id := s.bills[id].(tds := t.bills[id].tds)])
        && t.bills[id].tds == Round2(base * percent / 100.0)
      else t == s
  {
    hide Round2;
  }

  // ---------------------------------------------------------------- runs

  datatype Kind = Bills | Sales | Payments | Receipts | Notes

  function KindOf(op: Op): Option<Kind> {
    match op
    case CreateBillOp(_) => Some(Bills)
    case CreateSaleOp(_) => Some(Sales)
    case CreatePaymentOp(_, _, _, _) => Some(Payments)
    case CreateReceiptOp(_) => Some(Receipts)
    case CreateNoteOp(_, _, _, _, _) => Some(Notes)
    case _ => None
  }

  /** The calls of a run that enter a document of the kind. */
  function Entries(s: Store, ops: seq<Op>, kind: Kind): seq<Op>
    decreases |ops|
  {
    if ops == [] then []
    else
      (if KindOf(ops[0]) == Some(kind) && Step(s, ops[0]) != s then [ops[0]] else [])
      + Entries(Step(s, ops[0]), ops[1..], kind)
  }

  /** The documents of the kind are those that were entered, in order. */
  ghost predicate HoldsAs(s: Store, kind: Kind, entries: seq<Op>) {
    && (forall i :: 0 <= i < |entries| ==> KindOf(entries[i]) == Some(kind))
    && match kind
       case Bills => |s.bills| == |entries| && forall i :: 0 <= i < |entries| ==> BillAs(s.bills[i], entries[i].bill)
       case Sales => |s.sales| == |entries| && forall i :: 0 <= i < |entries| ==> SaleAs(s.sales[i], entries[i].sale)
       case Payments =>
         |s.payments| == |entries| && forall i :: 0 <= i < |entries| ==> var e := entries[i];
           PaymentAs(s.payments[i], e.party, e.rate, e.amount, e.allocations)
       case Receipts =>
         |s.receipts| == |entries| && forall i :: 0 <= i < |entries| ==> ReceiptAs(s.receipts[i], entries[i].receipt)
       case Notes =>
         |s.notes| == |entries| && forall i :: 0 <= i < |entries| ==> var e := entries[i];
           NoteAs(s.notes[i], e.side, e.increase, e.invoice, e.taxable, e.taxes)
  }

  /** An invoice changes only in what is outstanding and paid, its status and its TDS. */
  ghost predicate InvoicesStay(a: seq<Invoice>, b: seq<Invoice>, tdsToo: bool) {
    && |a| <= |b|
    && forall i :: 0 <= i < |a| ==>
         && b[i] == a[i].(outstanding := b[i].outstanding, paid := b[i].paid, status := b[i].status, tds := b[i].tds)
         && (tdsToo ==> b[i].tds == a[i].tds)
  }

  /** Documents are only added, and keep what they were entered with. */
  ghost predicate DocumentsStay(s: Store, t: Store) {
    && InvoicesStay(s.bills, t.bills, false) && InvoicesStay(s.sales, t.sales, true)
    && |s.payments| <= |t.payments| && |s.receipts| <= |t.receipts| && |s.notes| <= |t.notes|
    && (forall i :: 0 <= i < |s.payments| ==> t.payments[i] == s.payments[i].(executed := t.payments[i].executed))
    && (forall i :: 0 <= i < |s.receipts| ==> t.receipts[i] == s.receipts[i].(posted := t.receipts[i].posted))
    && (forall i :: 0 <= i < |s.notes| ==> t.notes[i] == s.notes[i].(posted := t.notes[i].posted))
  }

  lemma SettleStays(invoices: seq<Invoice>, allocations: seq<Allocation>)
    requires Refer(allocations, |invoices|)
    ensures InvoicesStay(invoices, Settle(invoices, allocations), true)
    ensures |Settle(invoices, allocations)| == |invoices|
  {
    var t := Settle(invoices, allocations);
    forall i | 0 <= i < |invoices|
      ensures t[i] == invoices[i].(outstanding := t[i].outstanding, paid := t[i].paid, status := t[i].status)
    {
      hide Settle, LastAmount;
      SettleAt(invoices, allocations, i);
    }
  }

  /** No document is added. */
  ghost predicate NoneAdded(s: Store, t: Store) {
    && |t.bills| == |s.bills| && |t.sales| == |s.sales| && |t.payments| == |s.payments|
    && |t.receipts| == |s.receipts| && |t.notes| == |s.notes|
  }

  lemma ExecuteStays(s: Store, id: nat)
    requires ExecutePayment(s, id).Success?
    ensures DocumentsStay(s, ExecutePayment(s, id).value) && NoneAdded(s, ExecutePayment(s, id).value)
  {
    hide PaymentLines, PaymentGain, Posting, Settle;
    SettleStays(s.bills, s.payments[id].allocations);
  }

  lemma ReceiveStays(s: Store, id: nat)
    requires PostReceipt(s, id).Success?
    ensures DocumentsStay(s, PostReceipt(s, id).value) && NoneAdded(s, PostReceipt(s, id).value)
  {
    hide ReceiptLines, ReceiptGain, Posting, Settle;
    SettleStays(s.sales, s.receipts[id].allocations);
  }

  lemma NotingStays(s: Store, id: nat)
    requires PostNote(s, id).Success?
    ensures DocumentsStay(s, PostNote(s, id).value) && NoneAdded(s, PostNote(s, id).value)
  {
    hide NoteLines, Posting;
  }

  lemma OpeningStays(s: Store, op: Op)
    requires op.PostBillOp? || op.PostSaleOp? || op.SetTdsOp?
    ensures DocumentsStay(s, Step(s, op)) && NoneAdded(s, Step(s, op))
  {
    hide BillLines, SalesLines, Posting, TdsOn;
  }

  lemma PostingStays(s: Store, op: Op)
    requires KindOf(op).None?
    ensures DocumentsStay(s, Step(s, op)) && NoneAdded(s, Step(s, op))
  {
    if Apply(s, op).Failure? {
      NothingChanges(s);
    } else {
      hide DocumentsStay, NoneAdded, ExecutePayment, PostReceipt, PostNote, PostBill, PostSale, SetTds;
      match op
      case ExecutePaymentOp(id) => ExecuteStays(s, id);
      case PostReceiptOp(id) => ReceiveStays(s, id);
      case PostNoteOp(id) => NotingStays(s, id);
      case _ => OpeningStays(s, op);
    }
  }

  lemma NothingChanges(s: Store)
    ensures DocumentsStay(s, s) && NoneAdded(s, s)
  {
  }

  /** Staying documents of the kind, none added, still hold what was entered. */
  lemma StaysAs(s: Store, t: Store, kind: Kind, entries: seq<Op>)
    requires DocumentsStay(s, t) && HoldsAs(s, kind, entries)
    requires match kind
             case Bills => |t.bills| == |s.bills|
             case Sales => |t.sales| == |s.sales|
             case Payments => |t.payments| == |s.payments|
             case Receipts => |t.receipts| == |s.receipts|
             case Notes => |t.notes| == |s.notes|
    ensures HoldsAs(t, kind, entries)
  {
    hide BillCharged, Charged, Levied, Round2, RoundedAllocations, AmountSum, TaxSum;
  }

  lemma EnteredAs(s: Store, op: Op, kind: Kind, entries: seq<Op>)
    requires HoldsAs(s, kind, entries) && KindOf(op) == Some(kind)
    ensures Step(s, op) == s || HoldsAs(Step(s, op), kind, entries + [op])
  {
    hide Step, Round2, BillCharged, Charged, Levied, RoundedAllocations, AmountSum, TaxSum, BillValid, SaleValid,
      AllSettleable, NoteValid;
    match op
    case CreateBillOp(q) => BillEnters(s, q);
    case CreateSaleOp(q) => SaleEnters(s, q);
    case CreatePaymentOp(party, rate, amount, allocations) => PaymentEnters(s, party, rate, amount, allocations);
    case CreateReceiptOp(q) => ReceiptEnters(s, q);
    case CreateNoteOp(side, increase, invoice, taxable, taxes) =>
      NoteEnters(s, side, increase, invoice, taxable, taxes);
    case _ =>
  }

  /** A call that enters a document of another kind adds none of this one. */
  lemma OtherKind(s: Store, op: Op, kind: Kind, entries: seq<Op>)
    requires HoldsAs(s, kind, entries) && KindOf(op) != Some(kind)
    ensures HoldsAs(Step(s, op), kind, entries)
  {
    hide Step, Round2, BillCharged, Charged, Levied, RoundedAllocations, AmountSum, TaxSum, BillValid, SaleValid,
      AllSettleable, NoteValid;
    match op {
      case CreateBillOp(q) => BillEnters(s, q);
      case CreateSaleOp(q) => SaleEnters(s, q);
      case CreatePaymentOp(party, rate, amount, allocations) => PaymentEnters(s, party, rate, amount, allocations);
      case CreateReceiptOp(q) => ReceiptEnters(s, q);
      case CreateNoteOp(side, increase, invoice, taxable, taxes) =>
        NoteEnters(s, side, increase, invoice, taxable, taxes);
      case _ =>
        PostingStays(s, op);
        hide HoldsAs, DocumentsStay;
        StaysAs(s, Step(s, op), kind, entries);
    }
  }

  lemma {:induction false} RunHoldsAs(s: Store, ops: seq<Op>, kind: Kind, entries: seq<Op>)
    requires HoldsAs(s, kind, entries)
    ensures HoldsAs(Run(s, ops), kind, entries + Entries(s, ops, kind))
    decreases |ops|
  {
    hide HoldsAs, Step;
    if ops == [] {
      assert entries + [] == entries;
    } else {
      var t := Step(s, ops[0]);
      if KindOf(ops[0]) == Some(kind) {
        EnteredAs(s, ops[0], kind, entries);
        var more := if t != s then [ops[0]] else [];
        assert t == s ==> entries + more == entries;
        RunHoldsAs(t, ops[1..], kind, entries + more);
        assert entries + more + Entries(t, ops[1..], kind) == entries + (more + Entries(t, ops[1..], kind));
      } else {
        OtherKind(s, ops[0], kind, entries);
        RunHoldsAs(t, ops[1..], kind, entries);
        assert [] + Entries(t, ops[1..], kind) == Entries(t, ops[1..], kind);
      }
    }
  }

  lemma NothingEntered(fxConfigured: bool, kind: Kind)
    ensures HoldsAs(Empty(fxConfigured), kind, [])
  {
    hide BillAs, SaleAs, PaymentAs, ReceiptAs, NoteAs;
  }

  /**
   In every run the documents of each kind are those entered, in order, and hold to the last what
   their requests said: parties, rates, what is charged and every tax on it, allocations and amounts,
   each rounded to two places.
   */
  lemma EveryRunAsEntered(fxConfigured: bool, ops: seq<Op>, kind: Kind)
    ensures HoldsAs(Run(Empty(fxConfigured), ops), kind, Entries(Empty(fxConfigured), ops, kind))
  {
    hide HoldsAs, Run, Empty;
    NothingEntered(fxConfigured, kind);
    RunHoldsAs(Empty(fxConfigured), ops, kind, []);
    assert [] + Entries(Empty(fxConfigured), ops, kind) == Entries(Empty(fxConfigured), ops, kind);
  }

  function TaxOf(t: Taxes, levy: Levy): real {
    match levy case Central => t.central case State => t.state case Integrated => t.integrated
  }

  /** In every run what an invoice charges, and each tax on it, is near the prices and rates it was entered with. */
  lemma EveryRunChargesNear(fxConfigured: bool, ops: seq<Op>, i: nat, levy: Levy)
    requires i < |Run(Empty(fxConfigured), ops).sales|
    ensures var entries, x := Entries(Empty(fxConfigured), ops, Sales), Run(Empty(fxConfigured), ops).sales[i];
      && i < |entries| && entries[i].CreateSaleOp?
      && var lines := entries[i].sale.lines;
      && Near(x.taxable, NetPrices(lines), |lines| as real * 0.005)
      && Near(TaxOf(x.taxes, levy), Levies(lines, levy), |lines| as real * 0.005)
  {
    EveryRunAsEntered(fxConfigured, ops, Sales);
    var entries := Entries(Empty(fxConfigured), ops, Sales);
    ChargedNear(entries[i].sale.lines, levy);
    hide Run, Empty, Entries, NetPrices, Levies, Charged, Levied, Near;
  }

  lemma EveryRunBillsNear(fxConfigured: bool, ops: seq<Op>, i: nat)
    requires i < |Run(Empty(fxConfigured), ops).bills|
    ensures var entries, x := Entries(Empty(fxConfigured), ops, Bills), Run(Empty(fxConfigured), ops).bills[i];
      && i < |entries| && entries[i].CreateBillOp?
      && var lines := entries[i].bill.lines;
      && Near(x.taxable, BillPrices(lines), |lines| as real * 0.005)
  {
    EveryRunAsEntered(fxConfigured, ops, Bills);
    var entries := Entries(Empty(fxConfigured), ops, Bills);
    BillChargedNear(entries[i].bill.lines);
    hide Run, Empty, Entries, BillPrices, BillCharged, Near;
  }
}
