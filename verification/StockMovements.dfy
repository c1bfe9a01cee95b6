/** What each call does to the stock at every place, to the reservations and to the ledger. */
module StockMovements {
  import opened Wrappers
  import opened Decimals
  import opened Inventory
  import opened InventoryLaws

  function OnHandAt(s: Store, p: Place): real {
    if p in s.balances then s.balances[p].onHand else 0.0
  }

  function ReservedAt(s: Store, p: Place): real {
    if p in s.balances then s.balances[p].reserved else 0.0
  }

  function BlockedAt(s: Store, p: Place): real {
    if p in s.balances then s.balances[p].blocked else 0.0
  }

  function FreeAt(s: Store, p: Place): real {
    OnHandAt(s, p) - ReservedAt(s, p) - BlockedAt(s, p)
  }

  /** The stock at one place moves by these amounts, and at no other. */
  ghost predicate Moves(s: Store, t: Store, place: Place, onHand: real, reserved: real, blocked: real) {
    forall p ::
      && OnHandAt(t, p) == OnHandAt(s, p) + (if p == place then onHand else 0.0)
      && ReservedAt(t, p) == ReservedAt(s, p) + (if p == place then reserved else 0.0)
      && BlockedAt(t, p) == BlockedAt(s, p) + (if p == place then blocked else 0.0)
  }

  lemma OneBalance(s: Store, t: Store, place: Place, next: Balance)
    requires t.balances == s.balances[place := next]
    ensures Moves(s, t, place, next.onHand - OnHandAt(s, place), next.reserved - ReservedAt(s, place),
                  next.blocked - BlockedAt(s, place))
  {
  }

  /** An adjustment goes through exactly when it leaves neither bucket, nor what is free, negative. */
  lemma AdjustMoves(s: Store, place: Place, bucket: Bucket, delta: real)
    ensures var t := Step(s, AdjustOp(place, bucket, delta));
      var onHand, blocked := if bucket.OnHand? then delta else 0.0, if bucket.Blocked? then delta else 0.0;
      if OnHandAt(s, place) + onHand >= 0.0 && BlockedAt(s, place) + blocked >= 0.0
         && FreeAt(s, place) + onHand - blocked >= 0.0 then
        && Moves(s, t, place, onHand, 0.0, blocked) && t.reservations == s.reservations
        && t.adjustments == s.adjustments + [Adjustment(place, bucket, delta)]
      else t == s
  {
    var t := Step(s, AdjustOp(place, bucket, delta));
    if t != s && place in t.balances {
      OneBalance(s, t, place, t.balances[place]);
    }
    hide Moves;
  }

  /** What is accepted comes in, and is recorded. */
  lemma ReceiveMoves(s: Store, place: Place, accepted: real)
    ensures var t := Step(s, ReceiveOp(place, accepted));
      if accepted > 0.0 then
        && Moves(s, t, place, accepted, 0.0, 0.0) && t.reservations == s.reservations
        && t.adjustments == s.adjustments + [Adjustment(place, OnHand, accepted)]
      else t == s
  {
  }

  /** Free stock is reserved, or with the override any; nothing is recorded in the ledger. */
  lemma ReserveMoves(s: Store, kickoff: Kickoff, place: Place, quantity: real, allowOverride: bool)
    ensures var t := Step(s, ReserveOp(kickoff, place, quantity, allowOverride));
      if quantity > 0.0 && (allowOverride || quantity <= FreeAt(s, place)) then
        && Moves(s, t, place, 0.0, quantity, 0.0) && t.adjustments == s.adjustments
        && t.reservations == s.reservations + [Reservation(kickoff, place, quantity, true)]
      else t == s
  {
  }

  /** In every reachable state a cancelled reservation gives back what it still reserves. */
  lemma CancelMoves(s: Store, kickoff: Kickoff, id: nat)
    requires Inv(s)
    ensures var t := Step(s, CancelOp(kickoff, id));
      if id < |s.reservations| && s.reservations[id].kickoff == kickoff && s.reservations[id].active then
        var r := s.reservations[id];
        && Moves(s, t, r.place, 0.0, -r.quantity, 0.0) && t.adjustments == s.adjustments
        && t.reservations == s.reservations[id := r.(active := false)]
      else t == s
  {
    if id < |s.reservations| && s.reservations[id].kickoff == kickoff && s.reservations[id].active {
      CancelNeverClamps(s, kickoff, id);
    }
    hide Inv;
  }

  /** The kickoff's active reservations at the place. */
  function OwnReserve(rs: seq<Reservation>, kickoff: Kickoff, place: Place): real {
    if rs == [] then 0.0
    else (if rs[0].active && rs[0].place == place && rs[0].kickoff == kickoff then rs[0].quantity else 0.0)
         + OwnReserve(rs[1..], kickoff, place)
  }

  lemma {:induction false} OwnReserveIs(rs: seq<Reservation>, kickoff: Kickoff, place: Place)
    ensures SumReserved(rs, Some(kickoff), place) == OwnReserve(rs, kickoff, place)
  {
    if rs != [] {
      OwnReserveIs(rs[1..], kickoff, place);
      SumReservedCons(rs[0], rs[1..], Some(kickoff), place);
      assert rs == [rs[0]] + rs[1..];
    }
  }

  /** Stock goes out within what is free and, for a kickoff, its own reserve, which covers what is not free. */
  lemma IssueMoves(s: Store, place: Place, quantity: real, kickoff: Option<Kickoff>)
    ensures var t := Step(s, IssueOp(place, quantity, kickoff));
      var own := if kickoff.Some? then OwnReserve(s.reservations, kickoff.value, place) else 0.0;
      var drawn := if quantity > FreeAt(s, place) then quantity - FreeAt(s, place) else 0.0;
      if 0.0 < quantity <= FreeAt(s, place) + own then
        && Moves(s, t, place, -quantity, -drawn, 0.0)
        && t.adjustments == s.adjustments + [Adjustment(place, OnHand, -quantity)]
        && (kickoff.None? ==> t.reservations == s.reservations)
        && (kickoff.Some? ==> t.reservations == Consume(s.reservations, kickoff.value, place, drawn))
      else t == s
  {
    if kickoff.Some? {
      OwnReserveIs(s.reservations, kickoff.value, place);
    }
    hide Consume, SumReserved, OwnReserve;
  }

  /** Which error a refused call gives. */
  lemma RefusedWith(s: Store, op: Op)
    requires Apply(s, op).Failure?
    ensures Apply(s, op).error ==
            if op.CancelOp? && (op.id >= |s.reservations| || s.reservations[op.id].kickoff != op.kickoff) then NotFound
            else BadRequest
  {
    hide Consume, SumReserved, BalanceAt, Available;
  }
}
