/** Holds and advances as they run: each call against the tables, proved equal to its specification. */
module TreasuryService {
  import opened Wrappers
  import opened Decimals
  import opened FinancePosting
  import opened Treasury
  import FinanceServices

  class TreasuryService {
    var store: Store
    var applications: seq<Application>

    constructor (store: Store)
      ensures State() == Books(store, [])
    {
      this.store := store;
      applications := [];
    }

    function State(): Books
      reads this
    {
      Books(store, applications)
    }

    method SetPaymentHold(id: nat, hold: bool, reasoned: bool) returns (outcome: Outcome<Error>)
      modifies this
      ensures Follows(old(store), store, outcome, SetHold(old(store), id, hold, reasoned))
      ensures applications == old(applications)
    {
      if hold && !reasoned {
        return Fail(BadRequest);
      }
      if id >= |store.bills| {
        return Fail(NotFound);
      }
      var x := store.bills[id];
      var status := Disputed;
      if !hold {
        if x.outstanding > 0.0 {
          status := if x.paid > 0.0 then PartiallyPaid else Open;
        } else {
          status := Paid;
        }
      }
      store := store.(bills := store.bills[id := x.(status := status)]);
      return Pass;
    }

    /** The sum over the applications of the source. */
    method UsedAdvance(side: Side, source: nat) returns (used: real)
      ensures used == Used(applications, side, source)
    {
      used := 0.0;
      for i := 0 to |applications|
        invariant used == Used(applications[..i], side, source)
      {
        assert applications[..i + 1][..i] == applications[..i];
        if applications[i].side == side && applications[i].source == source {
          used := used + applications[i].amount;
        }
      }
      assert applications[..|applications|] == applications;
    }

    method ApplyAdvance(side: Side, source: nat, target: nat, amount: real) returns (outcome: Outcome<Error>)
      modifies this
      ensures Follows(old(State()), State(), outcome,
                Treasury.ApplyAdvance(old(State()), side, source, target, amount))
    {
      hide Round2, Booked, Posting, Allocated;
      if amount < 0.01 {
        return Fail(BadRequest);
      }
      var used := UsedAdvance(side, source);
      var invoices := if side.Receivable? then store.sales else store.bills;
      if !HasAdvance(store, side, source) || target >= |invoices| {
        return Fail(BadRequest);
      }
      var x := invoices[target];
      if SourceParty(store, side, source) != x.party {
        return Fail(BadRequest);
      }
      if amount > Leftover(store, side, source) - used || amount > x.outstanding {
        return Fail(BadRequest);
      }
      var value := Booked(amount, SourceRate(store, side, source));
      var lines: Journal;
      if side.Receivable? {
        lines := [Debit(CustomerAdvance, value), Credit(Receivables, value)];
      } else {
        lines := [Debit(Payables, value), Credit(VendorAdvance, value)];
      }
      var posted := FinanceServices.FinanceService.PostJournal(lines);
      if posted.Failure? {
        return Fail(posted.error);
      }
      var status := if amount == x.outstanding then Paid else PartiallyPaid;
      var reduced := x.(outstanding := Round2(x.outstanding - amount), paid := Round2(x.paid + amount),
                        status := status);
      if side.Receivable? {
        store := store.(sales := store.sales[target := reduced]);
      } else {
        store := store.(bills := store.bills[target := reduced]);
      }
      store := store.(journals := store.journals + [posted.value]);
      applications := applications + [Application(side, source, target, Round2(amount))];
      return Pass;
    }
  }
}
