/**
 Calls that change posted documents without going through their posting: payment holds
 (src/modules/finance-compliance/compliance.service.ts) and advances applied to invoices
 (src/modules/finance-treasury/treasury.service.ts). Neither looks at the invoice's status.
 */
module Treasury {
  import opened Wrappers
  import opened Decimals
  import opened FinancePosting

  /** An advance applied: a receipt's to a sales invoice, or a payment's to a bill. */
  datatype Application = Application(side: Side, source: nat, target: nat, amount: real)

  datatype Books = Books(store: Store, applications: seq<Application>)

  // ---------------------------------------------------------------- holds

  /** The status a bill gets back when its hold is released. */
  function Released(x: Invoice): Status {
    if x.outstanding <= 0.0 then Paid else if x.paid > 0.0 then PartiallyPaid else Open
  }

  /** Puts a bill on hold, for a reason, or releases it. */
  function SetHold(s: Store, id: nat, hold: bool, reasoned: bool): Result<Store, Error> {
    if hold && !reasoned then Failure(BadRequest)
    else if id >= |s.bills| then Failure(NotFound)
    else
      var x := s.bills[id];
      Success(s.(bills := s.bills[id := x.(status := if hold then Disputed else Released(x))]))
  }

  // ---------------------------------------------------------------- advances

  /** What has been applied so far of the source's advance. */
  function Used(applications: seq<Application>, side: Side, source: nat): real {
    if applications == [] then 0.0
    else
      var last := applications[|applications| - 1];
      Used(applications[..|applications| - 1], side, source)
      + if last.side == side && last.source == source then last.amount else 0.0
  }

  /** A posted receipt or executed payment that may be applied. */
  predicate HasAdvance(s: Store, side: Side, source: nat) {
    if side.Receivable? then source < |s.receipts| && s.receipts[source].posted
    else source < |s.payments| && s.payments[source].executed
  }

  function SourceRate(s: Store, side: Side, source: nat): real
    requires HasAdvance(s, side, source)
  {
    if side.Receivable? then s.receipts[source].rate else s.payments[source].rate
  }

  function SourceParty(s: Store, side: Side, source: nat): Party
    requires HasAdvance(s, side, source)
  {
    if side.Receivable? then s.receipts[source].party else s.payments[source].party
  }

  /** What the source left over when it was settled. */
  function Leftover(s: Store, side: Side, source: nat): real
    requires HasAdvance(s, side, source)
  {
    if side.Receivable? then s.receipts[source].unapplied
    else s.payments[source].amount - Allocated(s.payments[source].allocations)
  }

  /** The two lines of an application: advance against control account, at the source's rate. */
  function AdvanceLines(side: Side, amount: real, rate: real): Journal {
    var value := Booked(amount, rate);
    if side.Receivable? then [Debit(CustomerAdvance, value), Credit(Receivables, value)]
    else [Debit(Payables, value), Credit(VendorAdvance, value)]
  }

  /** The invoice an advance is applied to, whether it has been posted or not. */
  function Reduced(x: Invoice, amount: real): Invoice {
    x.(outstanding := Round2(x.outstanding - amount), paid := Round2(x.paid + amount),
       status := if amount == x.outstanding then Paid else PartiallyPaid)
  }

  function ApplyAdvance(b: Books, side: Side, source: nat, target: nat, amount: real): Result<Books, Error> {
    var invoices := Invoices(b.store, side);
    if amount < 0.01 then Failure(BadRequest)
    else if !HasAdvance(b.store, side, source) || target >= |invoices| then Failure(BadRequest)
    else if SourceParty(b.store, side, source) != invoices[target].party then Failure(BadRequest)
    else if amount > Leftover(b.store, side, source) - Used(b.applications, side, source) then Failure(BadRequest)
    else if amount > invoices[target].outstanding then Failure(BadRequest)
    else
      var posted := Posting(AdvanceLines(side, amount, SourceRate(b.store, side, source)));
      if posted.Failure? then Failure(posted.error)
      else
        var next := PutInvoices(b.store, side, invoices[target := Reduced(invoices[target], amount)]);
        Success(Books(next.(journals := next.journals + [posted.value]),
                      b.applications + [Application(side, source, target, Round2(amount))]))
  }
}
