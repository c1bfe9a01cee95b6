/**
 Posting of invoices, settlements and adjustment notes: src/modules/finance-ap/ap.service.ts,
 src/modules/finance-ar/ar.service.ts and src/modules/finance-compliance/compliance.service.ts, all
 through the posting helper of src/modules/finance/finance.service.ts.

 Amounts are in the document's currency, with the exchange rate to rupees beside them. Columns
 hold two decimals, so every amount a document keeps is rounded as it is stored. Documents are
 kept in order of creation; a document's id is its position in its table. The steps of the
 approval ladder that move no amount are folded into `posted`.
 */
module FinancePosting {
  import opened Wrappers
  import opened Decimals

  type Party = string

  /** The mapped ledger accounts, each a different one. */
  datatype Account =
    | Bank | Receivables | Inventory | InputTax | TdsReceivable | VendorAdvance
    | Payables | OutputTax | TdsPayable | CustomerAdvance | Revenue | Expense | FxGain | FxLoss

  datatype Entry = Entry(account: Account, debit: real, credit: real)

  type Journal = seq<Entry>

  /** Receivable: invoices sent to customers. Payable: bills from suppliers and vendors. */
  datatype Side = Receivable | Payable

  datatype Status = Unposted | Open | PartiallyPaid | Paid | Disputed

  datatype Taxes = Taxes(central: real, state: real, integrated: real)

  datatype Invoice = Invoice(
    party: Party, ordered: bool, rate: real, taxable: real, taxes: Taxes, other: real, tds: real,
    outstanding: real, paid: real, status: Status)

  datatype Allocation = Allocation(invoice: nat, amount: real)

  datatype Payment = Payment(party: Party, rate: real, amount: real, allocations: seq<Allocation>, executed: bool)

  datatype Receipt = Receipt(
    party: Party, rate: real, amount: real, tdsDeducted: real, bankCharges: real, unapplied: real,
    allocations: seq<Allocation>, posted: bool)

  datatype Note = Note(side: Side, increase: bool, invoice: nat, taxable: real, taxes: Taxes, total: real, posted: bool)

  datatype Store = Store(
    bills: seq<Invoice>, sales: seq<Invoice>, payments: seq<Payment>, receipts: seq<Receipt>, notes: seq<Note>,
    journals: seq<Journal>, fxConfigured: bool)

  /** Internal: an unchecked reference the caller supplied does not exist. */
  datatype Error = NotFound | BadRequest | Conflict | Internal

  // ---------------------------------------------------------------- amounts

  function InRupees(x: real, rate: real): real {
    x * rate
  }

  /** An amount converted and rounded to two places. */
  function Booked(x: real, rate: real): real {
    Round2(InRupees(x, rate))
  }

  function Tax(t: Taxes): real {
    t.central + t.state + t.integrated
  }

  function StoredTaxes(t: Taxes): Taxes {
    Taxes(Round2(t.central), Round2(t.state), Round2(t.integrated))
  }

  function Allocated(allocations: seq<Allocation>): real {
    if allocations == [] then 0.0
    else Allocated(allocations[..|allocations| - 1]) + allocations[|allocations| - 1].amount
  }

  /** The allocations at the rates their invoices were booked at. */
  function Carrying(invoices: seq<Invoice>, allocations: seq<Allocation>): real
    requires Refer(allocations, |invoices|)
  {
    if allocations == [] then 0.0
    else
      var last := allocations[|allocations| - 1];
      Carrying(invoices, allocations[..|allocations| - 1]) + InRupees(last.amount, invoices[last.invoice].rate)
  }

  function StoredAllocations(allocations: seq<Allocation>): seq<Allocation> {
    seq(|allocations|, i requires 0 <= i < |allocations| => allocations[i].(amount := Round2(allocations[i].amount)))
  }

  /** Every allocation names an existing invoice. */
  predicate Refer(allocations: seq<Allocation>, count: nat) {
    forall i :: 0 <= i < |allocations| ==> allocations[i].invoice < count
  }

  /** No invoice is named twice. */
  predicate Once(allocations: seq<Allocation>) {
    forall i, j :: 0 <= i < j < |allocations| ==> allocations[i].invoice != allocations[j].invoice
  }

  predicate IsOpen(x: Invoice) {
    x.status.Open? || x.status.PartiallyPaid?
  }

  // ---------------------------------------------------------------- journals

  function When(condition: bool, e: Entry): Journal {
    if condition then [e] else []
  }

  function Debit(account: Account, amount: real): Entry {
    Entry(account, amount, 0.0)
  }

  function Credit(account: Account, amount: real): Entry {
    Entry(account, 0.0, amount)
  }

  /** The lines of an approved bill. */
  function BillLines(x: Invoice): Journal {
    var tax, tds := Booked(Tax(x.taxes), x.rate), Booked(x.tds, x.rate);
    [Debit(if x.ordered then Inventory else Expense, Booked(x.taxable + x.other, x.rate))]
    + When(tax > 0.0, Debit(InputTax, tax))
    + [Credit(Payables, Booked(x.outstanding, x.rate))]
    + When(tds > 0.0, Credit(TdsPayable, tds))
  }

  /** The lines of an issued sales invoice, whose outstanding amount is still its total. */
  function SalesLines(x: Invoice, total: real): Journal {
    var booked, tax := Booked(total, x.rate), Booked(Tax(x.taxes), x.rate);
    [Debit(Receivables, booked), Credit(Revenue, booked - tax), Credit(OutputTax, tax)]
  }

  /** The exchange difference, as a gain or as a loss. */
  function FxLine(gain: real): Journal {
    if gain == 0.0 then [] else if gain > 0.0 then [Credit(FxGain, gain)] else [Debit(FxLoss, -gain)]
  }

  function PaymentGain(p: Payment, bills: seq<Invoice>): real
    requires Refer(p.allocations, |bills|)
  {
    Round2(Carrying(bills, p.allocations) - InRupees(Allocated(p.allocations), p.rate))
  }

  function PaymentLines(p: Payment, bills: seq<Invoice>): Journal
    requires Refer(p.allocations, |bills|)
  {
    var settled := Allocated(p.allocations);
    var unapplied := p.amount - settled;
    When(settled > 0.0, Debit(Payables, Carrying(bills, p.allocations)))
    + When(unapplied > 0.0, Debit(VendorAdvance, InRupees(unapplied, p.rate)))
    + [Credit(Bank, InRupees(p.amount, p.rate))]
    + FxLine(PaymentGain(p, bills))
  }

  function ReceiptGain(r: Receipt, sales: seq<Invoice>): real
    requires Refer(r.allocations, |sales|)
  {
    Round2(InRupees(Allocated(r.allocations), r.rate) - Carrying(sales, r.allocations))
  }

  function ReceiptLines(r: Receipt, sales: seq<Invoice>): Journal
    requires Refer(r.allocations, |sales|)
  {
    var bankNet := Booked(r.amount - r.bankCharges, r.rate);
    When(bankNet > 0.0, Debit(Bank, bankNet))
    + When(r.bankCharges > 0.0, Debit(Expense, InRupees(r.bankCharges, r.rate)))
    + When(r.tdsDeducted > 0.0, Debit(TdsReceivable, InRupees(r.tdsDeducted, r.rate)))
    + When(Allocated(r.allocations) > 0.0, Credit(Receivables, Carrying(sales, r.allocations)))
    + When(r.unapplied > 0.0, Credit(CustomerAdvance, InRupees(r.unapplied, r.rate)))
    + FxLine(ReceiptGain(r, sales))
  }

  function Sided(account: Account, debit: bool, amount: real): Entry {
    if debit then Debit(account, amount) else Credit(account, amount)
  }

  /** The lines of a note: the control account on one side, base and tax on the other. */
  function NoteLines(n: Note, x: Invoice): Journal {
    var controlDebit := n.side.Receivable? == n.increase;
    var tax := Booked(Tax(n.taxes), x.rate);
    var base := if n.side.Receivable? then Revenue else if x.ordered then Inventory else Expense;
    [Sided(if n.side.Receivable? then Receivables else Payables, controlDebit, Booked(n.total, x.rate)),
     Sided(base, !controlDebit, Booked(n.taxable, x.rate))]
    + When(tax > 0.0, Sided(if n.side.Receivable? then OutputTax else InputTax, !controlDebit, tax))
  }

  // ---------------------------------------------------------------- the posting helper

  predicate CarriesAmount(e: Entry) {
    e.debit > 0.0 || e.credit > 0.0
  }

  /** The lines that carry an amount. */
  function WithAmounts(lines: Journal): Journal {
    if lines == [] then []
    else
      var last := lines[|lines| - 1];
      WithAmounts(lines[..|lines| - 1]) + When(CarriesAmount(last), last)
  }

  function Debits(lines: Journal): real {
    if lines == [] then 0.0 else Debits(lines[..|lines| - 1]) + lines[|lines| - 1].debit
  }

  function Credits(lines: Journal): real {
    if lines == [] then 0.0 else Credits(lines[..|lines| - 1]) + lines[|lines| - 1].credit
  }

  predicate OneSided(e: Entry) {
    (e.debit > 0.0) != (e.credit > 0.0)
  }

  /** What the helper demands: one-sided lines, whose debits and credits are equal and positive. */
  predicate Balanced(lines: Journal) {
    && (forall i :: 0 <= i < |lines| ==> OneSided(lines[i]))
    && Debits(lines) > 0.0
    && Debits(lines) == Credits(lines)
  }

  /** The journal recorded for the lines handed over, or the refusal that undoes the whole call. */
  function Posting(lines: Journal): Result<Journal, Error> {
    var kept := WithAmounts(lines);
    if Balanced(kept) then Success(kept) else Failure(BadRequest)
  }

  // ---------------------------------------------------------------- settlement

  /** One allocation paid: what is outstanding is computed from the invoice as it was loaded. */
  function Pay(loaded: seq<Invoice>, invoices: seq<Invoice>, a: Allocation): (paid: seq<Invoice>)
    requires a.invoice < |invoices| == |loaded|
    ensures |paid| == |invoices|
  {
    var left := loaded[a.invoice].outstanding - a.amount;
    var x := invoices[a.invoice];
    invoices[a.invoice := x.(outstanding := left, paid := x.paid + a.amount,
                             status := if left <= 0.0 then Paid else PartiallyPaid)]
  }

  /** The loop over a settlement's allocations. */
  function Settle(loaded: seq<Invoice>, allocations: seq<Allocation>): (settled: seq<Invoice>)
    requires Refer(allocations, |loaded|)
    ensures |settled| == |loaded|
  {
    if allocations == [] then loaded
    else Pay(loaded, Settle(loaded, allocations[..|allocations| - 1]), allocations[|allocations| - 1])
  }

  /** A note moves what is outstanding; an invoice it clears is paid. */
  function Noted(x: Invoice, n: Note): Invoice {
    var next := x.outstanding + if n.increase then n.total else -n.total;
    x.(outstanding := next, status := if next == 0.0 then Paid else x.status)
  }

  // ---------------------------------------------------------------- creating documents

  datatype BillLine = BillLine(quantity: real, unitPrice: real, tax: real)

  datatype BillRequest = BillRequest(
    party: Party, ordered: bool, rate: real, lines: seq<BillLine>, taxes: Taxes, other: real, tds: real)

  function ExtendedPrice(l: BillLine): real {
    l.quantity * l.unitPrice
  }

  function LineTaxable(l: BillLine): real {
    Round2(ExtendedPrice(l))
  }

  function BillTaxable(lines: seq<BillLine>): real {
    if lines == [] then 0.0 else BillTaxable(lines[..|lines| - 1]) + LineTaxable(lines[|lines| - 1])
  }

  function BillTax(lines: seq<BillLine>): real {
    if lines == [] then 0.0 else BillTax(lines[..|lines| - 1]) + lines[|lines| - 1].tax
  }

  predicate ValidTaxes(t: Taxes) {
    t.central >= 0.0 && t.state >= 0.0 && t.integrated >= 0.0
  }

  /** The bill's amounts before the columns round them. */
  function Bill(q: BillRequest): Invoice {
    var taxable := BillTaxable(q.lines);
    Invoice(q.party, q.ordered, q.rate, taxable, q.taxes, q.other, q.tds,
            taxable + Tax(q.taxes) + q.other - q.tds, 0.0, Unposted)
  }

  function Stored(x: Invoice): Invoice {
    x.(taxable := Round2(x.taxable), taxes := StoredTaxes(x.taxes), other := Round2(x.other), tds := Round2(x.tds),
       outstanding := Round2(x.outstanding))
  }

  predicate ValidBillLine(l: BillLine) {
    l.quantity >= 0.0001 && l.unitPrice >= 0.0 && l.tax >= 0.0
  }

  predicate ValidBillLines(lines: seq<BillLine>) {
    lines != [] && forall i :: 0 <= i < |lines| ==> ValidBillLine(lines[i])
  }

  function CreateBill(s: Store, q: BillRequest): Result<Store, Error> {
    if !ValidBillLines(q.lines) then Failure(BadRequest)
    else if q.rate <= 0.0 || !ValidTaxes(q.taxes) || q.other < 0.0 || q.tds < 0.0 then Failure(BadRequest)
    else if Tax(q.taxes) != BillTax(q.lines) then Failure(BadRequest)
    else if Bill(q).outstanding < 0.0 then Failure(BadRequest)
    else Success(s.(bills := s.bills + [Stored(Bill(q))]))
  }

  /** The TDS on a base at a percentage. */
  function TdsOn(base: real, percent: real): real {
    Round2(base * percent / 100.0)
  }

  /** Another TDS for a bill that waits to be posted; what is outstanding on it is not computed again. */
  function SetTds(s: Store, id: nat, base: real, percent: real): Result<Store, Error> {
    if base < 0.0 || percent < 0.0 then Failure(BadRequest)
    else if id >= |s.bills| then Failure(NotFound)
    else if !s.bills[id].status.Unposted? then Failure(BadRequest)
    else Success(s.(bills := s.bills[id := s.bills[id].(tds := TdsOn(base, percent))]))
  }

  datatype SalesLine = SalesLine(
    quantity: real, unitPrice: real, discountPercent: real, centralRate: real, stateRate: real, integratedRate: real)

  datatype SalesRequest = SalesRequest(party: Party, rate: real, lines: seq<SalesLine>, other: real, roundOff: real)

  datatype Calculated = Calculated(taxable: real, taxes: Taxes)

  predicate RatesAgree(l: SalesLine) {
    && (l.integratedRate > 0.0 ==> l.centralRate <= 0.0 && l.stateRate <= 0.0)
    && l.centralRate == l.stateRate
  }

  function Percent(x: real, percent: real): real {
    x * percent / 100.0
  }

  function Share(taxable: real, percent: real): real {
    Round2(Percent(taxable, percent))
  }

  /** The price of a line less its discount. */
  function Discounted(l: SalesLine): real {
    l.quantity * l.unitPrice * (1.0 - l.discountPercent / 100.0)
  }

  function CalculateLine(l: SalesLine): Calculated {
    var taxable := Round2(Discounted(l));
    Calculated(taxable, Taxes(Share(taxable, l.centralRate), Share(taxable, l.stateRate),
        Share(taxable, l.integratedRate)))
  }

  function AddUp(lines: seq<SalesLine>): Calculated {
    if lines == [] then Calculated(0.0, Taxes(0.0, 0.0, 0.0))
    else
      var sum, last := AddUp(lines[..|lines| - 1]), CalculateLine(lines[|lines| - 1]);
      Calculated(sum.taxable + last.taxable,
                 Taxes(sum.taxes.central + last.taxes.central, sum.taxes.state + last.taxes.state,
                       sum.taxes.integrated + last.taxes.integrated))
  }

  function Sale(q: SalesRequest): Invoice {
    var sum := AddUp(q.lines);
    Invoice(q.party, false, q.rate, sum.taxable, sum.taxes, q.other, 0.0,
            Round2(sum.taxable + Tax(sum.taxes) + q.other + q.roundOff), 0.0, Unposted)
  }

  predicate ValidSalesLine(l: SalesLine) {
    && l.quantity >= 0.0001 && l.unitPrice >= 0.0 && 0.0 <= l.discountPercent <= 100.0
    && l.centralRate >= 0.0 && l.stateRate >= 0.0 && l.integratedRate >= 0.0
  }

  predicate ValidSalesLines(lines: seq<SalesLine>) {
    lines != [] && forall i :: 0 <= i < |lines| ==> ValidSalesLine(lines[i])
  }

  function CreateSale(s: Store, q: SalesRequest): Result<Store, Error> {
    if q.rate <= 0.0 || q.other < 0.0 || !ValidSalesLines(q.lines) then Failure(BadRequest)
    else if exists i :: 0 <= i < |q.lines| && !RatesAgree(q.lines[i]) then Failure(BadRequest)
    else Success(s.(sales := s.sales + [Stored(Sale(q))]))
  }

  /** Each allocation is to an open invoice of the party, within what is outstanding on it. */
  predicate Allocatable(invoices: seq<Invoice>, party: Party, a: Allocation)
    requires a.invoice < |invoices|
  {
    invoices[a.invoice].party == party && IsOpen(invoices[a.invoice])
  }

  predicate Positive(allocations: seq<Allocation>) {
    forall i :: 0 <= i < |allocations| ==> allocations[i].amount >= 0.01
  }

  function CreatePayment(s: Store, party: Party, rate: real, amount: real, allocations: seq<Allocation>)
      : Result<Store, Error> {
    if rate <= 0.0 || amount < 0.01 || !Positive(allocations) then Failure(BadRequest)
    else if !Once(allocations) || !Refer(allocations, |s.bills|) then Failure(BadRequest)
    else if exists i :: 0 <= i < |allocations| && !Allocatable(s.bills, party, allocations[i]) then Failure(BadRequest)
    else if
      exists i :: 0 <= i < |allocations| && allocations[i].amount > s.bills[allocations[i].invoice].outstanding
    then Failure(BadRequest)
    else if Allocated(allocations) > amount then Failure(BadRequest)
    else Success(s.(payments := s.payments + [Payment(party, rate, Round2(amount), StoredAllocations(allocations),
        false)]))
  }

  /** The loop that compares each allocation with its invoice, which may not have been found. */
  function CheckAllocations(sales: seq<Invoice>, allocations: seq<Allocation>): Outcome<Error> {
    if allocations == [] then Pass
    else if allocations[0].invoice >= |sales| then Fail(Internal)
    else if allocations[0].amount > sales[allocations[0].invoice].outstanding then Fail(BadRequest)
    else CheckAllocations(sales, allocations[1..])
  }

  datatype ReceiptRequest = ReceiptRequest(
    party: Party, rate: real, amount: real, tdsDeducted: real, bankCharges: real, allocations: seq<Allocation>)

  function NewReceipt(q: ReceiptRequest): Receipt {
    Receipt(q.party, q.rate, Round2(q.amount), Round2(q.tdsDeducted), Round2(q.bankCharges),
            Round2(q.amount + q.tdsDeducted - Allocated(q.allocations)), StoredAllocations(q.allocations), false)
  }

  /** The table's unique key refuses an invoice allocated twice, which the code does not check. */
  function CreateReceipt(s: Store, q: ReceiptRequest): Result<Store, Error> {
    if q.rate <= 0.0 || q.amount < 0.01 || q.tdsDeducted < 0.0 || q.bankCharges < 0.0 || !Positive(q.allocations) then
      Failure(BadRequest)
    else if exists i :: 0 <= i < |q.allocations| && q.allocations[i].invoice < |s.sales|
                        && !Allocatable(s.sales, q.party, q.allocations[i]) then Failure(BadRequest)
    else
      var checked := CheckAllocations(s.sales, q.allocations);
      if checked.Fail? then Failure(checked.error)
      else if Allocated(q.allocations) > q.amount + q.tdsDeducted then Failure(BadRequest)
      else if !Once(q.allocations) then Failure(Conflict)
      else Success(s.(receipts := s.receipts + [NewReceipt(q)]))
  }

  function Invoices(s: Store, side: Side): seq<Invoice> {
    if side.Receivable? then s.sales else s.bills
  }

  function PutInvoices(s: Store, side: Side, invoices: seq<Invoice>): Store {
    if side.Receivable? then s.(sales := invoices) else s.(bills := invoices)
  }

  function CreateNote(s: Store, side: Side, increase: bool, invoice: nat, taxable: real, taxes: Taxes)
      : Result<Store, Error> {
    var total := Round2(taxable + Tax(taxes));
    if taxable < 0.0 || !ValidTaxes(taxes) || total <= 0.0 then Failure(BadRequest)
    else if invoice >= |Invoices(s, side)| then Failure(NotFound)
    else if !IsOpen(Invoices(s, side)[invoice]) then Failure(BadRequest)
    else if !increase && total > Invoices(s, side)[invoice].outstanding then Failure(BadRequest)
    else Success(s.(notes := s.notes + [Note(side, increase, invoice, Round2(taxable), StoredTaxes(taxes), total,
        false)]))
  }

  // ---------------------------------------------------------------- posting documents

  function PostBill(s: Store, id: nat): Result<Store, Error> {
    if id >= |s.bills| then Failure(NotFound)
    else if !s.bills[id].status.Unposted? then Failure(BadRequest)
    else
      var posted := Posting(BillLines(s.bills[id]));
      if posted.Failure? then Failure(posted.error)
      else Success(s.(bills := s.bills[id := s.bills[id].(status := Open)], journals := s.journals + [posted.value]))
  }

  function PostSale(s: Store, id: nat): Result<Store, Error> {
    if id >= |s.sales| then Failure(NotFound)
    else if !s.sales[id].status.Unposted? then Failure(BadRequest)
    else
      var posted := Posting(SalesLines(s.sales[id], s.sales[id].outstanding));
      if posted.Failure? then Failure(posted.error)
      else Success(s.(sales := s.sales[id := s.sales[id].(status := Open)], journals := s.journals + [posted.value]))
  }

  function ExecutePayment(s: Store, id: nat): Result<Store, Error> {
    if id >= |s.payments| then Failure(NotFound)
    else
      var p := s.payments[id];
      if p.executed then Failure(BadRequest)
      else if !Refer(p.allocations, |s.bills|) then Failure(Internal)
      else if PaymentGain(p, s.bills) != 0.0 && !s.fxConfigured then Failure(BadRequest)
      else
        var posted := Posting(PaymentLines(p, s.bills));
        if posted.Failure? then Failure(posted.error)
        else Success(s.(bills := Settle(s.bills, p.allocations),
                        payments := s.payments[id := p.(executed := true)],
                        journals := s.journals + [posted.value]))
  }

  function PostReceipt(s: Store, id: nat): Result<Store, Error> {
    if id >= |s.receipts| then Failure(NotFound)
    else
      var r := s.receipts[id];
      if r.posted then Failure(BadRequest)
      else if !Refer(r.allocations, |s.sales|) then Failure(Internal)
      else if ReceiptGain(r, s.sales) != 0.0 && !s.fxConfigured then Failure(BadRequest)
      else
        var posted := Posting(ReceiptLines(r, s.sales));
        if posted.Failure? then Failure(posted.error)
        else Success(s.(sales := Settle(s.sales, r.allocations),
                        receipts := s.receipts[id := r.(posted := true)],
                        journals := s.journals + [posted.value]))
  }

  function PostNote(s: Store, id: nat): Result<Store, Error> {
    if id >= |s.notes| then Failure(NotFound)
    else
      var n := s.notes[id];
      var invoices := Invoices(s, n.side);
      if n.posted then Failure(BadRequest)
      else if n.invoice >= |invoices| then Failure(Internal)
      else if !n.increase && n.total > invoices[n.invoice].outstanding then Failure(BadRequest)
      else
        var posted := Posting(NoteLines(n, invoices[n.invoice]));
        if posted.Failure? then Failure(posted.error)
        else
          var noted := invoices[n.invoice := Noted(invoices[n.invoice], n)];
          Success(PutInvoices(s, n.side, noted)
                  .(notes := s.notes[id := n.(posted := true)], journals := s.journals + [posted.value]))
  }
}
