/**
 Stock balances, reservations and stock-out: src/modules/bom/inventory.service.ts, the
 reservations of src/modules/bom/stock-report.service.ts and the goods receipt that mirrors
 `adjust` in src/modules/scm-purchasing/goods-receipt-note.service.ts.

 Reservations are kept in order of creation; a reservation's id is its position.
 */
module Inventory {
  import opened Wrappers
  import opened Decimals

  type Kickoff = string

  /** One item at one store location. */
  datatype Place = Place(item: string, location: string)

  datatype Bucket = OnHand | Blocked

  datatype Balance = Balance(onHand: real, reserved: real, blocked: real)

  datatype Reservation = Reservation(kickoff: Kickoff, place: Place, quantity: real, active: bool)

  datatype Adjustment = Adjustment(place: Place, bucket: Bucket, change: real)

  datatype Store = Store(balances: map<Place, Balance>, reservations: seq<Reservation>, adjustments: seq<Adjustment>)

  datatype Error = NotFound | BadRequest

  function NoStock(): Balance {
    Balance(0.0, 0.0, 0.0)
  }

  /** The balance row, created empty when there is none. */
  function BalanceAt(balances: map<Place, Balance>, place: Place): Balance {
    if place in balances then balances[place] else NoStock()
  }

  function Available(b: Balance): real {
    b.onHand - b.reserved - b.blocked
  }

  /** An active reservation at the place, of the given kickoff or of any. */
  predicate Holds(r: Reservation, kickoff: Option<Kickoff>, place: Place) {
    r.active && r.place == place && (kickoff.None? || r.kickoff == kickoff.value)
  }

  /** The kickoff's drawable reservations. */
  predicate Own(r: Reservation, kickoff: Kickoff, place: Place) {
    Holds(r, Some(kickoff), place)
  }

  function SumReserved(rs: seq<Reservation>, kickoff: Option<Kickoff>, place: Place): real {
    if rs == [] then 0.0
    else
      var last := rs[|rs| - 1];
      SumReserved(rs[..|rs| - 1], kickoff, place) + if Holds(last, kickoff, place) then last.quantity else 0.0
  }

  /** What this kickoff may draw beyond the unreserved stock. */
  function DrawableReserve(rs: seq<Reservation>, kickoff: Option<Kickoff>, place: Place): real {
    if kickoff.Some? then SumReserved(rs, kickoff, place) else 0.0
  }

  /** The signed changes recorded for a bucket at a place. */
  function SumChanges(adjustments: seq<Adjustment>, bucket: Bucket, place: Place): real {
    if adjustments == [] then 0.0
    else
      var last := adjustments[|adjustments| - 1];
      SumChanges(adjustments[..|adjustments| - 1], bucket, place)
      + if last.bucket == bucket && last.place == place then last.change else 0.0
  }

  // ---------------------------------------------------------------- the operations

  function Adjust(s: Store, place: Place, bucket: Bucket, delta: real): Result<Store, Error> {
    var b := BalanceAt(s.balances, place);
    var next := if bucket.OnHand? then b.(onHand := b.onHand + delta) else b.(blocked := b.blocked + delta);
    if next.onHand < 0.0 || next.blocked < 0.0 || Available(next) < 0.0 then Failure(BadRequest)
    else Success(s.(balances := s.balances[place := next],
                    adjustments := s.adjustments + [Adjustment(place, bucket, delta)]))
  }

  /** A quality-checked receipt: on-hand goes up by the accepted quantity, unchecked. */
  function Receive(s: Store, place: Place, accepted: real): Store {
    if accepted <= 0.0 then s
    else
      var b := BalanceAt(s.balances, place);
      s.(balances := s.balances[place := b.(onHand := b.onHand + accepted)],
         adjustments := s.adjustments + [Adjustment(place, OnHand, accepted)])
  }

  function Reserve(s: Store, kickoff: Kickoff, place: Place, quantity: real, allowOverride: bool)
      : Result<Store, Error> {
    var b := BalanceAt(s.balances, place);
    if quantity <= 0.0 then Failure(BadRequest)
    else if quantity > Available(b) && !allowOverride then Failure(BadRequest)
    else Success(s.(balances := s.balances[place := b.(reserved := b.reserved + quantity)],
                    reservations := s.reservations + [Reservation(kickoff, place, quantity, true)]))
  }

  function Cancel(s: Store, kickoff: Kickoff, id: nat): Result<Store, Error> {
    if id >= |s.reservations| || s.reservations[id].kickoff != kickoff then Failure(NotFound)
    else if !s.reservations[id].active then Failure(BadRequest)
    else
      var r := s.reservations[id];
      var balances :=
        if r.place !in s.balances then s.balances
        else
          var b := s.balances[r.place];
          var next := b.reserved - r.quantity;
          s.balances[r.place := b.(reserved := if next < 0.0 then 0.0 else next)];
      Success(s.(balances := balances, reservations := s.reservations[id := r.(active := false)]))
  }

  /** Draws `amount` from the kickoff's reservations, oldest first. */
  function Consume(rs: seq<Reservation>, kickoff: Kickoff, place: Place, amount: real): (out: seq<Reservation>)
    ensures |out| == |rs|
  {
    if rs == [] then []
    else if Own(rs[0], kickoff, place) && amount > 0.0 then
      var take := Min(amount, rs[0].quantity);
      [Drawn(rs[0], take)] + Consume(rs[1..], kickoff, place, amount - take)
    else [rs[0]] + Consume(rs[1..], kickoff, place, amount)
  }

  function Drawn(r: Reservation, take: real): Reservation {
    r.(quantity := r.quantity - take, active := r.active && r.quantity - take > 0.0)
  }

  function Issue(s: Store, place: Place, quantity: real, kickoff: Option<Kickoff>): Result<Store, Error> {
    var drawable := DrawableReserve(s.reservations, kickoff, place);
    if quantity <= 0.0 || quantity > Available(BalanceAt(s.balances, place)) + drawable then Failure(BadRequest)
    else Success(Issued(s, place, quantity, kickoff))
  }

  function Issued(s: Store, place: Place, quantity: real, kickoff: Option<Kickoff>): Store {
    var b := BalanceAt(s.balances, place);
    var fromReservation := FromReservation(b, quantity);
    Store(
      s.balances[place := b.(onHand := b.onHand - quantity, reserved := b.reserved - fromReservation)],
      if kickoff.Some? then Consume(s.reservations, kickoff.value, place, fromReservation) else s.reservations,
      s.adjustments + [Adjustment(place, OnHand, -quantity)])
  }

  /** The part of an issue that has to come out of the kickoff's own reservations. */
  function FromReservation(b: Balance, quantity: real): real {
    if quantity > Available(b) then quantity - Available(b) else 0.0
  }

  // ---------------------------------------------------------------- the service

  class InventoryService {
    var balances: map<Place, Balance>
    var reservations: seq<Reservation>
    var adjustments: seq<Adjustment>

    constructor ()
      ensures State() == Store(map[], [], [])
    {
      balances, reservations, adjustments := map[], [], [];
    }

    function State(): Store
      reads this
    {
      Store(balances, reservations, adjustments)
    }

    method AdjustStock(place: Place, bucket: Bucket, delta: real) returns (outcome: Outcome<Error>)
      modifies this
      ensures Follows(old(State()), State(), outcome, Adjust(old(State()), place, bucket, delta))
    {
      hide NoStock;
      var balance := BalanceAt(balances, place);
      var nextOnHand := if bucket.OnHand? then balance.onHand + delta else balance.onHand;
      var nextBlocked := if bucket.Blocked? then balance.blocked + delta else balance.blocked;
      if nextOnHand < 0.0 {
        return Fail(BadRequest);
      }
      if nextBlocked < 0.0 {
        return Fail(BadRequest);
      }
      var nextAvailable := nextOnHand - balance.reserved - nextBlocked;
      if nextAvailable < 0.0 {
        return Fail(BadRequest);
      }
      balances := balances[place := balance.(onHand := nextOnHand, blocked := nextBlocked)];
      adjustments := adjustments + [Adjustment(place, bucket, delta)];
      return Pass;
    }

    method ReceiveGoods(place: Place, accepted: real)
      modifies this
      ensures State() == Receive(old(State()), place, accepted)
    {
      hide NoStock;
      if accepted > 0.0 {
        var balance := BalanceAt(balances, place);
        balances := balances[place := balance.(onHand := balance.onHand + accepted)];
        adjustments := adjustments + [Adjustment(place, OnHand, accepted)];
      }
    }

    method CreateReservation(kickoff: Kickoff, place: Place, quantity: real, allowOverride: bool)
      returns (outcome: Outcome<Error>)
      modifies this
      ensures Follows(old(State()), State(), outcome, Reserve(old(State()), kickoff, place, quantity, allowOverride))
    {
      hide NoStock;
      if quantity <= 0.0 {
        return Fail(BadRequest);
      }
      var balance := BalanceAt(balances, place);
      var available := Available(balance);
      if quantity > available && !allowOverride {
        return Fail(BadRequest);
      }
      balances := balances[place := balance.(reserved := balance.reserved + quantity)];
      reservations := reservations + [Reservation(kickoff, place, quantity, true)];
      return Pass;
    }

    method CancelReservation(kickoff: Kickoff, id: nat) returns (outcome: Outcome<Error>)
      modifies this
      ensures Follows(old(State()), State(), outcome, Cancel(old(State()), kickoff, id))
    {
      hide NoStock;
      if id >= |reservations| || reservations[id].kickoff != kickoff {
        return Fail(NotFound);
      }
      var reservation := reservations[id];
      if !reservation.active {
        return Fail(BadRequest);
      }
      if reservation.place in balances {
        var balance := balances[reservation.place];
        var nextReserved := balance.reserved - reservation.quantity;
        balances := balances[reservation.place :=
            balance.(reserved := if nextReserved < 0.0 then 0.0 else nextReserved)];
      }
      reservations := reservations[id := reservation.(active := false)];
      return Pass;
    }

    /** The total of the kickoff's reservations at the place. */
    method ReservedFor(kickoff: Kickoff, place: Place) returns (sum: real)
      ensures sum == SumReserved(reservations, Some(kickoff), place)
    {
      sum := 0.0;
      for i := 0 to |reservations|
        invariant sum == SumReserved(reservations[..i], Some(kickoff), place)
      {
        assert reservations[..i + 1][..i] == reservations[..i];
        if Own(reservations[i], kickoff, place) {
          sum := sum + reservations[i].quantity;
        }
      }
      assert reservations[..|reservations|] == reservations;
    }

    /** The loop that uses up the kickoff's reservations in order of creation. */
    method ConsumeReservations(kickoff: Kickoff, place: Place, amount: real)
      modifies this`reservations
      ensures reservations == Consume(old(reservations), kickoff, place, amount)
    {
      var remaining := amount;
      var i := 0;
      ghost var done, todo := [], reservations;
      hide Consume, Min, Drawn, Own;
      while i < |reservations| && remaining > 0.0
        invariant reservations == done + todo && |done| == i
        invariant done + Consume(todo, kickoff, place, remaining) == Consume(old(reservations), kickoff, place, amount)
      {
        ConsumeFirst(done, todo, kickoff, place, remaining);
        var r := reservations[i];
        var next := r;
        if Own(r, kickoff, place) {
          var take := Min(remaining, r.quantity);
          next := Drawn(r, take);
          remaining := remaining - take;
        }
        UpdateFirst(done, todo, next);
        reservations := reservations[i := next];
        done, todo, i := done + [next], todo[1..], i + 1;
      }
      ConsumeNothing(todo, kickoff, place, remaining);
    }

    method IssueStockOut(place: Place, quantity: real, kickoff: Option<Kickoff>) returns (outcome: Outcome<Error>)
      modifies this
      ensures Follows(old(State()), State(), outcome, Issue(old(State()), place, quantity, kickoff))
    {
      hide SumReserved, Issued, BalanceAt, Available, NoStock;
      if quantity <= 0.0 {
        return Fail(BadRequest);
      }
      var balance := BalanceAt(balances, place);
      var available := Available(balance);
      var reservedForThisKickoff := 0.0;
      if kickoff.Some? {
        reservedForThisKickoff := ReservedFor(kickoff.value, place);
      }
      var effectiveAvailable := available + reservedForThisKickoff;
      if quantity > effectiveAvailable {
        return Fail(BadRequest);
      }
      MoveStock(place, quantity, kickoff);
      return Pass;
    }

    /** The writes of an issue that has passed its guard. */
    method MoveStock(place: Place, quantity: real, kickoff: Option<Kickoff>)
      modifies this
      ensures State() == Issued(old(State()), place, quantity, kickoff)
    {
      var balance := BalanceAt(balances, place);
      var fromReservation := FromReservation(balance, quantity);
      hide Consume, BalanceAt, FromReservation, NoStock;
      balances := balances[place := balance.(onHand := balance.onHand - quantity,
                                             reserved := balance.reserved - fromReservation)];
      if kickoff.Some? {
        if fromReservation > 0.0 {
          ConsumeReservations(kickoff.value, place, fromReservation);
        } else {
          ConsumeNothing(reservations, kickoff.value, place, fromReservation);
        }
      }
      adjustments := adjustments + [Adjustment(place, OnHand, -quantity)];
    }
  }

  lemma UpdateFirst(done: seq<Reservation>, rest: seq<Reservation>, next: Reservation)
    requires rest != []
    ensures (done + rest)[|done| := next] == done + [next] + rest[1..]
  {
  }

  /** Drawing from the first of the remaining reservations. */
  lemma ConsumeFirst(done: seq<Reservation>, rest: seq<Reservation>, kickoff: Kickoff, place: Place, amount: real)
    requires rest != [] && amount > 0.0
    ensures done + Consume(rest, kickoff, place, amount) ==
      if Own(rest[0], kickoff, place) then
        var take := Min(amount, rest[0].quantity);
        done + [Drawn(rest[0], take)] + Consume(rest[1..], kickoff, place, amount - take)
      else done + [rest[0]] + Consume(rest[1..], kickoff, place, amount)
  {
    hide Min, Drawn;
    assert forall x, tail: seq<Reservation> :: done + ([x] + tail) == done + [x] + tail;
  }

  /** Once nothing remains to be drawn, the reservations stay as they are. */
  lemma {:induction false} ConsumeNothing(rs: seq<Reservation>, kickoff: Kickoff, place: Place, amount: real)
    requires amount <= 0.0 || rs == []
    ensures Consume(rs, kickoff, place, amount) == rs
  {
    if rs != [] {
      ConsumeNothing(rs[1..], kickoff, place, amount);
    }
  }

  function QuantityAt(quantities: map<Place, real>, place: Place): real {
    if place in quantities then quantities[place] else 0.0
  }

  /** The quantities `inventoryValuation` groups from the ON_HAND movements (src/modules/finance-management). */
  method ValuationQuantities(adjustments: seq<Adjustment>) returns (quantities: map<Place, real>)
    ensures forall place :: place in quantities <==>
      exists i :: 0 <= i < |adjustments| && adjustments[i].bucket.OnHand? && adjustments[i].place == place
    ensures forall place :: place in quantities ==> quantities[place] == SumChanges(adjustments, OnHand, place)
  {
    quantities := map[];
    for n := 0 to |adjustments|
      invariant forall place :: place in quantities <==>
        exists i :: 0 <= i < n && adjustments[i].bucket.OnHand? && adjustments[i].place == place
      invariant forall place :: SumChanges(adjustments[..n], OnHand, place) == QuantityAt(quantities, place)
    {
      var m := adjustments[n];
      assert adjustments[..n + 1][..n] == adjustments[..n];
      if m.bucket.OnHand? {
        quantities := quantities[m.place := QuantityAt(quantities, m.place) + m.change];
      }
    }
    assert adjustments[..|adjustments|] == adjustments;
  }
}
