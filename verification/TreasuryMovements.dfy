/** What a payment hold and an applied advance change, and when they may. */
module TreasuryMovements {
  import opened Wrappers
  import opened Decimals
  import opened FinancePosting
  import opened FinancePostingLaws
  import opened PostingGate
  import opened ControlAccounts
  import opened StoredBalance
  import opened AsEntered
  import opened AccountMovements
  import opened Treasury
  import opened TreasuryLaws

  /** A hold disputes the bill; a release gives it the status its amounts say. */
  lemma HoldIs(s: Store, id: nat, hold: bool, reasoned: bool)
    ensures var r := SetHold(s, id, hold, reasoned);
      && (r.Success? <==> id < |s.bills| && (hold ==> reasoned))
      && (r.Success? ==>
            var x, y := s.bills[id], r.value.bills[id];
            && r.value == s.(bills := s.bills[id := x.(status := y.status)])
            && (hold ==> y.status.Disputed?)
            && (!hold ==> (y.status.Paid? <==> x.outstanding <= 0.0)
                          && (y.status.PartiallyPaid? <==> x.outstanding > 0.0 && x.paid > 0.0)
                          && (y.status.Open? <==> x.outstanding > 0.0 && x.paid <= 0.0)))
  {
  }

  /** What has been applied of one advance. */
  function AppliedOf(applications: seq<Application>, side: Side, source: nat): real {
    if applications == [] then 0.0
    else (if applications[0].side == side && applications[0].source == source then applications[0].amount else 0.0)
         + AppliedOf(applications[1..], side, source)
  }

  lemma {:induction false} AppliedAppend(applications: seq<Application>, a: Application, side: Side, source: nat)
    ensures AppliedOf(applications + [a], side, source) ==
            AppliedOf(applications, side, source) + if a.side == side && a.source == source then a.amount else 0.0
  {
    if applications == [] {
      assert [a][1..] == [];
    } else {
      assert (applications + [a])[1..] == applications[1..] + [a];
      AppliedAppend(applications[1..], a, side, source);
    }
  }

  lemma {:induction false} UsedIs(applications: seq<Application>, side: Side, source: nat)
    ensures Used(applications, side, source) == AppliedOf(applications, side, source)
  {
    if applications != [] {
      var init, last := applications[..|applications| - 1], applications[|applications| - 1];
      UsedIs(init, side, source);
      AppliedAppend(init, last, side, source);
      assert applications == init + [last];
    }
  }

  /** A posted receipt's or executed payment's party, rate and what it has left over. */
  ghost predicate IsSource(s: Store, side: Side, source: nat, party: Party, rate: real, over: real) {
    if side.Receivable? then
      && source < |s.receipts| && s.receipts[source].posted && s.receipts[source].party == party
      && s.receipts[source].rate == rate && s.receipts[source].unapplied == over
    else
      && source < |s.payments| && s.payments[source].executed && s.payments[source].party == party
      && s.payments[source].rate == rate
      && s.payments[source].amount - AmountSum(s.payments[source].allocations) == over
  }

  /** An advance may be applied to an invoice of its party, within what is left of it and outstanding there. */
  ghost predicate CanApply(b: Books, side: Side, source: nat, target: nat, amount: real, rate: real) {
    var invoices := Invoices(b.store, side);
    && amount >= 0.01 && target < |invoices| && amount <= invoices[target].outstanding && Value(amount, rate) > 0.0
    && exists over :: IsSource(b.store, side, source, invoices[target].party, rate, over)
                      && amount <= over - AppliedOf(b.applications, side, source)
  }

  /** The advance against the control account, at the rate of the advance. */
  function AdvanceMove(side: Side, amount: real, rate: real, a: Account): real {
    match a
    case CustomerAdvance => if side.Receivable? then Value(amount, rate) else 0.0
    case Receivables => if side.Receivable? then -Value(amount, rate) else 0.0
    case Payables => if side.Receivable? then 0.0 else Value(amount, rate)
    case VendorAdvance => if side.Receivable? then 0.0 else -Value(amount, rate)
    case _ => 0.0
  }

  lemma AdvanceLinesMove(side: Side, amount: real, rate: real, a: Account)
    ensures Net(AdvanceLines(side, amount, rate), Some(a)) == AdvanceMove(side, amount, rate, a)
  {
    BookedIsValue(amount, rate);
    hide Booked, Value, Net;
    var lines := AdvanceLines(side, amount, rate);
    assert lines == [lines[0]] + [lines[1]];
    NetConcat([lines[0]], [lines[1]], Some(a));
    NetOfOne(lines[0], Some(a));
    NetOfOne(lines[1], Some(a));
  }

  lemma AdvanceAccepted(side: Side, amount: real, rate: real)
    requires Value(amount, rate) >= 0.0
    ensures AllProper(AdvanceLines(side, amount, rate))
    ensures Posting(AdvanceLines(side, amount, rate)).Success? <==> Value(amount, rate) > 0.0
  {
    BookedIsValue(amount, rate);
    hide Booked, Value;
    var lines := AdvanceLines(side, amount, rate);
    assert lines == [lines[0]] + [lines[1]];
    NetConcat([lines[0]], [lines[1]], None);
    NetOfOne(lines[0], None);
    NetOfOne(lines[1], None);
    SidesConcat([lines[0]], [lines[1]]);
    SidesOfOne(lines[0]);
    SidesOfOne(lines[1]);
    hide Net, Debits, Credits;
    PostingIff(lines);
  }

  lemma SourceIs(s: Store, side: Side, source: nat)
    requires HasAdvance(s, side, source)
    ensures IsSource(s, side, source, SourceParty(s, side, source), SourceRate(s, side, source),
                     Leftover(s, side, source))
    ensures forall party, rate, over :: IsSource(s, side, source, party, rate, over) ==>
              && party == SourceParty(s, side, source) && rate == SourceRate(s, side, source)
              && over == Leftover(s, side, source)
  {
    if side.Payable? {
      AllocatedIs(s.payments[source].allocations);
    }
  }

  /** When an advance is applied, in every state reached; what it needs is in `CanApply`. */
  lemma AppliesIff(b: Books, side: Side, source: nat, target: nat, amount: real)
    requires RowsOk(b.store)
    ensures ApplyAdvance(b, side, source, target, amount).Success? <==>
            exists rate :: CanApply(b, side, source, target, amount, rate)
  {
    UsedIs(b.applications, side, source);
    if HasAdvance(b.store, side, source) {
      var rate := SourceRate(b.store, side, source);
      SourcePositive(b.store, side, source);
      SourceIs(b.store, side, source);
      BookedIsValue(amount, rate);
      BookedNear(amount, rate);
      hide RowsOk, IsSource, Posting, AdvanceLines, Reduced, Round2, Used, AppliedOf, Booked, Value, SourceParty,
        SourceRate, Leftover, HasAdvance;
      if amount >= 0.01 {
        AdvanceAccepted(side, amount, rate);
      }
      if ApplyAdvance(b, side, source, target, amount).Success? {
        assert IsSource(b.store, side, source, Invoices(b.store, side)[target].party, rate,
                        Leftover(b.store, side, source));
        assert CanApply(b, side, source, target, amount, rate);
      }
    } else {
      forall party, rate, over
        ensures !IsSource(b.store, side, source, party, rate, over)
      {
      }
    }
  }

  /** What it does: the invoice owes less, the application is kept, and two accounts move at the source's rate. */
  lemma AdvanceMoves(b: Books, side: Side, source: nat, target: nat, amount: real, a: Account)
    requires RowsOk(b.store) && ApplyAdvance(b, side, source, target, amount).Success?
    ensures var c := ApplyAdvance(b, side, source, target, amount).value;
      var before := if side.Receivable? then b.store.sales else b.store.bills;
      var after := if side.Receivable? then c.store.sales else c.store.bills;
      && HasAdvance(b.store, side, source) && target < |before|
      && c.applications == b.applications + [Application(side, source, target, Round2(amount))]
      && (if side.Receivable? then c.store.bills == b.store.bills else c.store.sales == b.store.sales)
      && c.store.payments == b.store.payments && c.store.receipts == b.store.receipts && c.store.notes == b.store.notes
      && var x := before[target];
      && after == before[target := x.(outstanding := Round2(x.outstanding - amount), paid := Round2(x.paid + amount),
                                      status := if amount == x.outstanding then Paid else PartiallyPaid)]
      && Moves(b.store, c.store, a, AdvanceMove(side, amount, SourceRate(b.store, side, source), a))
  {
    var c := ApplyAdvance(b, side, source, target, amount).value;
    var rate := SourceRate(b.store, side, source);
    SourcePositive(b.store, side, source);
    BookedIsValue(amount, rate);
    BookedNear(amount, rate);
    hide RowsOk, Posting, AdvanceLines, Round2, Booked, Value, Net, LedgerNet, Used, Leftover, AllProper;
    AdvanceAccepted(side, amount, rate);
    AdvanceLinesMove(side, amount, rate, a);
    JournalMoves(b.store, c.store, AdvanceLines(side, amount, rate), a);
  }

  /** Which error a refused call gives. */
  lemma RefusedWith(b: Books, call: Call)
    requires Answer(b, call).Failure? && !call.Plain?
    ensures Answer(b, call).error ==
            if call.HoldCall? && call.id >= |b.store.bills| && (call.hold ==> call.reasoned) then NotFound
            else BadRequest
  {
    hide AdvanceLines, Reduced, Round2, Used, WithAmounts, Balanced;
  }
}
