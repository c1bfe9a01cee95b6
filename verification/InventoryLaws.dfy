/** What stock operations keep over every run, and how an issue draws on reservations. */
module InventoryLaws {
  import opened Wrappers
  import opened Decimals
  import opened Inventory

  // ---------------------------------------------------------------- sums

  lemma {:induction false} SumReservedConcat(a: seq<Reservation>, b: seq<Reservation>, kickoff: Option<Kickoff>,
      place: Place)
    ensures SumReserved(a + b, kickoff, place) == SumReserved(a, kickoff, place) + SumReserved(b, kickoff, place)
  {
    if b == [] {
      assert a + b == a;
    } else {
      assert (a + b)[..|a + b| - 1] == a + b[..|b| - 1];
      SumReservedConcat(a, b[..|b| - 1], kickoff, place);
    }
  }

  function Held(r: Reservation, kickoff: Option<Kickoff>, place: Place): real {
    if Holds(r, kickoff, place) then r.quantity else 0.0
  }

  lemma SumReservedCons(r: Reservation, rs: seq<Reservation>, kickoff: Option<Kickoff>, place: Place)
    ensures SumReserved([r] + rs, kickoff, place) == Held(r, kickoff, place) + SumReserved(rs, kickoff, place)
  {
    assert [r][..0] == [];
    SumReservedConcat([r], rs, kickoff, place);
  }

  lemma SumReservedAppend(rs: seq<Reservation>, r: Reservation, kickoff: Option<Kickoff>, place: Place)
    ensures SumReserved(rs + [r], kickoff, place) == SumReserved(rs, kickoff, place) + Held(r, kickoff, place)
  {
    assert (rs + [r])[..|rs|] == rs;
  }

  lemma SumReservedUpdate(rs: seq<Reservation>, i: nat, r: Reservation, kickoff: Option<Kickoff>, place: Place)
    requires i < |rs|
    ensures SumReserved(rs[i := r], kickoff, place) ==
            SumReserved(rs, kickoff, place) - Held(rs[i], kickoff, place) + Held(r, kickoff, place)
  {
    var before, after := rs[..i], rs[i + 1..];
    assert rs == before + ([rs[i]] + after) && rs[i := r] == before + ([r] + after);
    SumReservedConcat(before, [rs[i]] + after, kickoff, place);
    SumReservedConcat(before, [r] + after, kickoff, place);
    SumReservedCons(rs[i], after, kickoff, place);
    SumReservedCons(r, after, kickoff, place);
  }

  ghost predicate PositiveReservations(rs: seq<Reservation>) {
    forall i :: 0 <= i < |rs| && rs[i].active ==> rs[i].quantity > 0.0
  }

  lemma {:induction false} SumReservedNonNegative(rs: seq<Reservation>, kickoff: Option<Kickoff>, place: Place)
    requires PositiveReservations(rs)
    ensures SumReserved(rs, kickoff, place) >= 0.0
    ensures SumReserved(rs, kickoff, place) <= SumReserved(rs, None, place)
  {
    if rs != [] {
      SumReservedNonNegative(rs[..|rs| - 1], kickoff, place);
    }
  }

  lemma SumReservedAtLeast(rs: seq<Reservation>, i: nat)
    requires PositiveReservations(rs) && i < |rs| && rs[i].active
    ensures SumReserved(rs, None, rs[i].place) >= rs[i].quantity
  {
    var r := rs[i].(active := false);
    SumReservedUpdate(rs, i, r, None, rs[i].place);
    SumReservedNonNegative(rs[i := r], None, rs[i].place);
  }

  lemma SumChangesAppend(adjustments: seq<Adjustment>, a: Adjustment, bucket: Bucket, place: Place)
    ensures SumChanges(adjustments + [a], bucket, place) ==
            SumChanges(adjustments, bucket, place) + if a.bucket == bucket && a.place == place then a.change else 0.0
  {
    assert (adjustments + [a])[..|adjustments|] == adjustments;
  }

  // ---------------------------------------------------------------- drawing on reservations

  /**
   The kickoff's reservations before `split` are used up, those after it are untouched, and the
   one at `split` may be partly used; nobody else's reservation changes.
   */
  ghost predicate OldestFirst(before: seq<Reservation>, after: seq<Reservation>, kickoff: Kickoff, place: Place,
      split: nat) {
    && |after| == |before|
    && forall i :: 0 <= i < |before| ==>
      if !Own(before[i], kickoff, place) || i > split then after[i] == before[i]
      else if i < split then after[i] == before[i].(quantity := 0.0, active := false)
      else after[i] == before[i].(quantity := after[i].quantity) && 0.0 < after[i].quantity <= before[i].quantity
  }

  lemma {:induction false} ConsumeOldestFirst(rs: seq<Reservation>, kickoff: Kickoff, place: Place, amount: real)
    returns (split: nat)
    requires PositiveReservations(rs)
    ensures OldestFirst(rs, Consume(rs, kickoff, place, amount), kickoff, place, split)
    ensures PositiveReservations(Consume(rs, kickoff, place, amount))
  {
    split := 0;
    hide SumReserved;
    if amount <= 0.0 || rs == [] {
      ConsumeNothing(rs, kickoff, place, amount);
    } else {
      var tail := rs[1..];
      assert rs == [rs[0]] + tail;
      if !Own(rs[0], kickoff, place) {
        var s := ConsumeOldestFirst(tail, kickoff, place, amount);
        split := s + 1;
      } else if rs[0].quantity <= amount {
        var s := ConsumeOldestFirst(tail, kickoff, place, amount - rs[0].quantity);
        split := s + 1;
      } else {
        ConsumeNothing(tail, kickoff, place, 0.0);
      }
    }
  }

  /** Drawing at most what the kickoff holds removes exactly that, and only at that place. */
  lemma {:induction false} ConsumeTotal(rs: seq<Reservation>, kickoff: Kickoff, place: Place, amount: real)
    requires PositiveReservations(rs) && 0.0 <= amount <= SumReserved(rs, Some(kickoff), place)
    ensures var out := Consume(rs, kickoff, place, amount);
      && SumReserved(out, Some(kickoff), place) == SumReserved(rs, Some(kickoff), place) - amount
      && SumReserved(out, None, place) == SumReserved(rs, None, place) - amount
      && forall other :: other != place ==> SumReserved(out, None, other) == SumReserved(rs, None, other)
  {
    var out := Consume(rs, kickoff, place, amount);
    if amount == 0.0 || rs == [] {
      ConsumeNothing(rs, kickoff, place, amount);
    } else {
      var r, tail := rs[0], rs[1..];
      assert rs == [r] + tail;
      var take := if Own(r, kickoff, place) then Min(amount, r.quantity) else 0.0;
      forall k, p
        ensures SumReserved(rs, k, p) == Held(r, k, p) + SumReserved(tail, k, p)
        ensures SumReserved(out, k, p) == Held(out[0], k, p) + SumReserved(out[1..], k, p)
      {
        SumReservedCons(r, tail, k, p);
        assert out == [out[0]] + out[1..];
        SumReservedCons(out[0], out[1..], k, p);
      }
      SumReservedNonNegative(tail, Some(kickoff), place);
      ConsumeTotal(tail, kickoff, place, amount - take);
      assert out[1..] == Consume(tail, kickoff, place, amount - take);
    }
  }

  // ---------------------------------------------------------------- the invariant

  /** The balance row agrees with the reservations and with the ledger of adjustments. */
  ghost predicate PlaceOk(s: Store, place: Place) {
    var b := BalanceAt(s.balances, place);
    && b.reserved == SumReserved(s.reservations, None, place)
    && b.onHand == SumChanges(s.adjustments, OnHand, place) >= 0.0
    && b.blocked == SumChanges(s.adjustments, Blocked, place) >= 0.0
  }

  ghost predicate Inv(s: Store) {
    && PositiveReservations(s.reservations)
    && (forall i :: 0 <= i < |s.reservations| ==> s.reservations[i].place in s.balances)
    && forall place :: PlaceOk(s, place)
  }

  /** No more is reserved and blocked than is on hand. */
  ghost predicate PlaceCovered(s: Store, place: Place) {
    Available(BalanceAt(s.balances, place)) >= 0.0
  }

  ghost predicate Covered(s: Store) {
    forall place :: PlaceCovered(s, place)
  }

  /** What one step has to show at each place; `covering` says that it reserves nothing it lacks. */
  ghost predicate KeptAt(s: Store, t: Store, covering: bool, place: Place) {
    PlaceOk(s, place) ==> PlaceOk(t, place) && (covering && PlaceCovered(s, place) ==> PlaceCovered(t, place))
  }

  ghost predicate Kept(s: Store, t: Store, covering: bool) {
    Inv(s) ==> Inv(t) && (covering && Covered(s) ==> Covered(t))
  }

  lemma KeptEverywhere(s: Store, t: Store, covering: bool)
    requires forall place :: KeptAt(s, t, covering, place)
    requires PositiveReservations(t.reservations)
    requires forall i :: 0 <= i < |t.reservations| ==> t.reservations[i].place in t.balances
    ensures Kept(s, t, covering)
  {
    hide NoStock, PlaceOk, PlaceCovered, PositiveReservations;
    if Inv(s) {
      forall place
        ensures PlaceOk(t, place) && (covering && Covered(s) ==> PlaceCovered(t, place))
      {
        assert KeptAt(s, t, covering, place) && PlaceOk(s, place);
      }
    }
  }

  lemma AdjustKeptAt(s: Store, place: Place, bucket: Bucket, delta: real, p: Place)
    requires Adjust(s, place, bucket, delta).Success?
    ensures KeptAt(s, Adjust(s, place, bucket, delta).value, true, p)
  {
    hide NoStock;
    SumChangesAppend(s.adjustments, Adjustment(place, bucket, delta), OnHand, p);
    SumChangesAppend(s.adjustments, Adjustment(place, bucket, delta), Blocked, p);
    hide SumReserved, SumChanges;
  }

  lemma AdjustKeeps(s: Store, place: Place, bucket: Bucket, delta: real)
    requires Inv(s) && Adjust(s, place, bucket, delta).Success?
    ensures Kept(s, Adjust(s, place, bucket, delta).value, true)
  {
    hide NoStock, KeptAt, PositiveReservations, PlaceOk, Available;
    var t := Adjust(s, place, bucket, delta).value;
    forall p
      ensures KeptAt(s, t, true, p)
    {
      AdjustKeptAt(s, place, bucket, delta, p);
    }
    KeptEverywhere(s, t, true);
  }

  lemma ReceiveKeptAt(s: Store, place: Place, accepted: real, p: Place)
    requires PlaceOk(s, place) && accepted > 0.0
    ensures KeptAt(s, Receive(s, place, accepted), true, p)
  {
    hide NoStock;
    SumChangesAppend(s.adjustments, Adjustment(place, OnHand, accepted), OnHand, p);
    SumChangesAppend(s.adjustments, Adjustment(place, OnHand, accepted), Blocked, p);
    hide SumReserved, SumChanges;
  }

  lemma ReceiveKeeps(s: Store, place: Place, accepted: real)
    requires Inv(s) && accepted > 0.0
    ensures Kept(s, Receive(s, place, accepted), true)
  {
    hide NoStock, KeptAt, PositiveReservations, PlaceOk;
    var t := Receive(s, place, accepted);
    forall p
      ensures KeptAt(s, t, true, p)
    {
      ReceiveKeptAt(s, place, accepted, p);
    }
    KeptEverywhere(s, t, true);
  }

  lemma ReserveKeptAt(s: Store, kickoff: Kickoff, place: Place, quantity: real, allowOverride: bool, p: Place)
    requires PlaceOk(s, place) && Reserve(s, kickoff, place, quantity, allowOverride).Success?
    ensures KeptAt(s, Reserve(s, kickoff, place, quantity, allowOverride).value, !allowOverride, p)
  {
    hide NoStock;
    SumReservedAppend(s.reservations, Reservation(kickoff, place, quantity, true), None, p);
    hide SumReserved, SumChanges;
  }

  lemma ReserveKeeps(s: Store, kickoff: Kickoff, place: Place, quantity: real, allowOverride: bool)
    requires Inv(s) && Reserve(s, kickoff, place, quantity, allowOverride).Success?
    ensures Kept(s, Reserve(s, kickoff, place, quantity, allowOverride).value, !allowOverride)
  {
    hide NoStock, KeptAt, PlaceOk, Available;
    var t, covering := Reserve(s, kickoff, place, quantity, allowOverride).value, !allowOverride;
    forall p
      ensures KeptAt(s, t, covering, p)
    {
      ReserveKeptAt(s, kickoff, place, quantity, allowOverride, p);
    }
    KeptEverywhere(s, t, covering);
  }

  /** A cancelled reservation is covered by the balance, so the clamp at zero never applies. */
  lemma CancelNeverClamps(s: Store, kickoff: Kickoff, id: nat)
    requires Inv(s) && Cancel(s, kickoff, id).Success?
    ensures var r := s.reservations[id];
      && r.place in s.balances
      && s.balances[r.place].reserved >= r.quantity
      && Cancel(s, kickoff, id).value.balances ==
         s.balances[r.place := s.balances[r.place].(reserved := s.balances[r.place].reserved - r.quantity)]
  {
    hide NoStock;
    var r := s.reservations[id];
    assert PlaceOk(s, r.place);
    SumReservedAtLeast(s.reservations, id);
  }

  lemma CancelKeeps(s: Store, kickoff: Kickoff, id: nat)
    requires Inv(s) && Cancel(s, kickoff, id).Success?
    ensures Kept(s, Cancel(s, kickoff, id).value, true)
  {
    hide NoStock;
    var t, r := Cancel(s, kickoff, id).value, s.reservations[id];
    CancelNeverClamps(s, kickoff, id);
    assert PlaceOk(s, r.place);
    forall p
      ensures KeptAt(s, t, true, p)
    {
      SumReservedUpdate(s.reservations, id, r.(active := false), None, p);
    }
    hide KeptAt;
    KeptEverywhere(s, t, true);
  }

  /** How much of an issue comes out of reservations, and that the kickoff holds that much. */
  lemma IssueWithinReserve(s: Store, place: Place, quantity: real, kickoff: Option<Kickoff>)
    requires Inv(s) && Issue(s, place, quantity, kickoff).Success?
    ensures var from := FromReservation(BalanceAt(s.balances, place), quantity);
      && 0.0 <= from <= DrawableReserve(s.reservations, kickoff, place)
      && quantity <= BalanceAt(s.balances, place).onHand
  {
    hide NoStock;
    assert PlaceOk(s, place);
    SumReservedNonNegative(s.reservations, kickoff, place);
  }

  lemma IssueReservations(s: Store, place: Place, quantity: real, kickoff: Option<Kickoff>)
    requires Inv(s) && Issue(s, place, quantity, kickoff).Success?
    ensures var from, after := FromReservation(BalanceAt(s.balances, place), quantity),
              Issued(s, place, quantity, kickoff).reservations;
      && PositiveReservations(after)
      && |after| == |s.reservations|
      && (forall i :: 0 <= i < |after| ==> after[i].place == s.reservations[i].place)
      && forall p :: SumReserved(after, None, p) == SumReserved(s.reservations, None, p)
          - if p == place then from else 0.0
  {
    hide NoStock;
    var from := FromReservation(BalanceAt(s.balances, place), quantity);
    IssueWithinReserve(s, place, quantity, kickoff);
    if kickoff.Some? {
      var _ := ConsumeOldestFirst(s.reservations, kickoff.value, place, from);
      ConsumeTotal(s.reservations, kickoff.value, place, from);
    }
    hide SumReserved, Consume, Inv, PositiveReservations;
  }

  lemma IssueKeptAt(s: Store, place: Place, quantity: real, kickoff: Option<Kickoff>, p: Place)
    requires Inv(s) && Issue(s, place, quantity, kickoff).Success?
    ensures KeptAt(s, Issued(s, place, quantity, kickoff), true, p)
  {
    hide NoStock;
    var t, from := Issued(s, place, quantity, kickoff), FromReservation(BalanceAt(s.balances, place), quantity);
    assert PlaceOk(s, place);
    IssueWithinReserve(s, place, quantity, kickoff);
    IssueReservations(s, place, quantity, kickoff);
    SumChangesAppend(s.adjustments, Adjustment(place, OnHand, -quantity), OnHand, p);
    SumChangesAppend(s.adjustments, Adjustment(place, OnHand, -quantity), Blocked, p);
    hide SumReserved, SumChanges, Consume, PositiveReservations, Inv;
  }

  lemma IssueKeeps(s: Store, place: Place, quantity: real, kickoff: Option<Kickoff>)
    requires Inv(s) && Issue(s, place, quantity, kickoff).Success?
    ensures Kept(s, Issue(s, place, quantity, kickoff).value, true)
  {
    hide NoStock;
    var t := Issued(s, place, quantity, kickoff);
    IssueReservations(s, place, quantity, kickoff);
    hide KeptAt, PositiveReservations, PlaceOk, DrawableReserve, FromReservation, SumReserved;
    forall p
      ensures KeptAt(s, t, true, p)
    {
      IssueKeptAt(s, place, quantity, kickoff, p);
    }
    KeptEverywhere(s, t, true);
  }

  /**
   An issue for a kickoff draws only its own reservations, oldest first, by exactly what the
   unreserved stock did not cover; and whatever was allowed before, it leaves on hand at least
   what is blocked plus everything the other projects have reserved.
   */
  lemma IssueDrawsOldestFirst(s: Store, place: Place, quantity: real, kickoff: Kickoff) returns (split: nat)
    requires Inv(s) && Issue(s, place, quantity, Some(kickoff)).Success?
    ensures var t := Issue(s, place, quantity, Some(kickoff)).value;
      var from := FromReservation(BalanceAt(s.balances, place), quantity);
      var b := BalanceAt(t.balances, place);
      && OldestFirst(s.reservations, t.reservations, kickoff, place, split)
      && SumReserved(t.reservations, Some(kickoff), place) == SumReserved(s.reservations, Some(kickoff), place) - from
      && b.onHand == BalanceAt(s.balances, place).onHand - quantity
      && b.onHand >= b.blocked + (SumReserved(t.reservations, None, place) - SumReserved(t.reservations,
          Some(kickoff), place))
  {
    hide NoStock;
    var from := FromReservation(BalanceAt(s.balances, place), quantity);
    IssueWithinReserve(s, place, quantity, Some(kickoff));
    split := ConsumeOldestFirst(s.reservations, kickoff, place, from);
    ConsumeTotal(s.reservations, kickoff, place, from);
    assert PlaceOk(s, place);
  }

  /** Without a kickoff no reservation is touched, and all of them stay covered. */
  lemma IssueWithoutKickoff(s: Store, place: Place, quantity: real)
    requires Inv(s) && Issue(s, place, quantity, None).Success?
    ensures var t := Issue(s, place, quantity, None).value;
      && t.reservations == s.reservations
      && Available(BalanceAt(t.balances, place)) == Available(BalanceAt(s.balances, place)) - quantity >= 0.0
  {
    hide NoStock, SumReserved, SumChanges;
  }

  /**
   What an issue takes out of reservations is no more than it issues exactly when stock is not
   already promised beyond what there is; only overrides can make it so.
   */
  lemma FromReservationIff(b: Balance, quantity: real)
    requires quantity > 0.0
    ensures FromReservation(b, quantity) <= quantity <==> Available(b) >= 0.0
  {
  }

  // ---------------------------------------------------------------- runs

  datatype Op =
    | AdjustOp(place: Place, bucket: Bucket, delta: real)
    | ReceiveOp(place: Place, accepted: real)
    | ReserveOp(kickoff: Kickoff, place: Place, quantity: real, allowOverride: bool)
    | CancelOp(kickoff: Kickoff, id: nat)
    | IssueOp(place: Place, quantity: real, issuedTo: Option<Kickoff>)

  function Apply(s: Store, op: Op): Result<Store, Error> {
    match op
    case AdjustOp(place, bucket, delta) => Adjust(s, place, bucket, delta)
    case ReceiveOp(place, accepted) => Success(Receive(s, place, accepted))
    case ReserveOp(kickoff, place, quantity, allowOverride) => Reserve(s, kickoff, place, quantity, allowOverride)
    case CancelOp(kickoff, id) => Cancel(s, kickoff, id)
    case IssueOp(place, quantity, issuedTo) => Issue(s, place, quantity, issuedTo)
  }

  /** The store after one call, which changes nothing when it fails. */
  function Step(s: Store, op: Op): Store {
    var r := Apply(s, op);
    if r.Success? then r.value else s
  }

  function Run(s: Store, ops: seq<Op>): Store
    decreases |ops|
  {
    if ops == [] then s else Run(Step(s, ops[0]), ops[1..])
  }

  predicate Overrides(op: Op) {
    op.ReserveOp? && op.allowOverride
  }

  lemma StepKeeps(s: Store, op: Op)
    requires Inv(s)
    ensures Kept(s, Step(s, op), !Overrides(op))
  {
    if Apply(s, op).Success? {
      hide Inv, Covered, Adjust, Reserve, Cancel, Issue;
      match op
      case AdjustOp(place, bucket, delta) => AdjustKeeps(s, place, bucket, delta);
      case ReceiveOp(place, accepted) => if accepted > 0.0 { ReceiveKeeps(s, place, accepted); }
      case ReserveOp(kickoff, place, quantity, allowOverride) =>
          ReserveKeeps(s, kickoff, place, quantity, allowOverride);
      case CancelOp(kickoff, id) => CancelKeeps(s, kickoff, id);
      case IssueOp(place, quantity, issuedTo) => IssueKeeps(s, place, quantity, issuedTo);
    }
  }

  lemma {:induction false} RunKeeps(s: Store, ops: seq<Op>)
    requires Inv(s)
    ensures Kept(s, Run(s, ops), forall i :: 0 <= i < |ops| ==> !Overrides(ops[i]))
    decreases |ops|
  {
    hide Inv, Covered, Step;
    if ops != [] {
      StepKeeps(s, ops[0]);
      RunKeeps(Step(s, ops[0]), ops[1..]);
    }
  }

  const EMPTY := Store(map[], [], [])

  /**
   Every run from empty stock: at every place reserved is the sum of the active reservations,
   on-hand and blocked are the sums of their adjustments and never negative; and if no
   reservation used the override, on-hand covers blocked plus reserved.
   */
  lemma EveryRunBalances(ops: seq<Op>, place: Place)
    ensures var s := Run(EMPTY, ops);
      var b := BalanceAt(s.balances, place);
      && b.reserved == SumReserved(s.reservations, None, place)
      && b.onHand == SumChanges(s.adjustments, OnHand, place) >= 0.0
      && b.blocked == SumChanges(s.adjustments, Blocked, place) >= 0.0
      && ((forall i :: 0 <= i < |ops| ==> !Overrides(ops[i])) ==> b.onHand >= b.blocked + b.reserved)
  {
    assert Inv(EMPTY) && Covered(EMPTY);
    RunKeeps(EMPTY, ops);
    var s := Run(EMPTY, ops);
    hide Run, SumReserved, SumChanges, PositiveReservations;
    assert PlaceOk(s, place);
    if forall i :: 0 <= i < |ops| ==> !Overrides(ops[i]) {
      assert PlaceCovered(s, place);
    }
  }

  /** Ten on hand, fifteen reserved with the override: issuing three releases eight of the reservation. */
  lemma OverrideReleasesTooMuch(kickoff: Kickoff, place: Place, onHand: real, reserved: real, issued: real)
    requires onHand == 10.0 && reserved == 15.0 && issued == 3.0
    ensures var ops := [AdjustOp(place, OnHand, onHand), ReserveOp(kickoff, place, reserved, true),
              IssueOp(place, issued, Some(kickoff))];
      var s, t := Run(EMPTY, ops[..2]), Run(EMPTY, ops);
      && SumReserved(s.reservations, Some(kickoff), place) == 15.0
      && SumReserved(t.reservations, Some(kickoff), place) == 7.0
      && BalanceAt(t.balances, place).onHand == 7.0
  {
    var a, r, i := AdjustOp(place, OnHand, onHand), ReserveOp(kickoff, place, reserved, true),
        IssueOp(place, issued, Some(kickoff));
    var s1 := AfterAdjust(place, onHand);
    var s2 := AfterReserve(s1, kickoff, place, onHand, reserved);
    assert [a, r, i][..2] == [a, r] && [a, r][1..] == [r] && [r][1..] == [];
    assert [a, r, i][1..] == [r, i] && [r, i][1..] == [i] && [i][1..] == [];
    assert Run(s2, []) == s2 && Run(s1, [r]) == s2 && Run(EMPTY, [a, r]) == s2;
    AfterIssue(s2, kickoff, place, onHand, reserved, issued);
    assert Run(s2, [i]) == Run(Step(s2, i), []) == Step(s2, i);
    assert Run(s1, [r, i]) == Step(s2, i) && Run(EMPTY, [a, r, i]) == Step(s2, i);
  }

  lemma AfterAdjust(place: Place, onHand: real) returns (s: Store)
    requires onHand > 0.0
    ensures s == Step(EMPTY, AdjustOp(place, OnHand, onHand))
    ensures s.reservations == [] && BalanceAt(s.balances, place) == NoStock().(onHand := onHand)
  {
    s := Step(EMPTY, AdjustOp(place, OnHand, onHand));
  }

  lemma AfterReserve(s: Store, kickoff: Kickoff, place: Place, onHand: real, reserved: real) returns (t: Store)
    requires s.reservations == [] && BalanceAt(s.balances, place) == NoStock().(onHand := onHand) && reserved > 0.0
    ensures t == Step(s, ReserveOp(kickoff, place, reserved, true))
    ensures t.reservations == [Reservation(kickoff, place, reserved, true)]
    ensures BalanceAt(t.balances, place) == NoStock().(onHand := onHand, reserved := reserved)
    ensures SumReserved(t.reservations, Some(kickoff), place) == reserved
  {
    t := Step(s, ReserveOp(kickoff, place, reserved, true));
    assert t.reservations[..0] == [] && SumReserved([], Some(kickoff), place) == 0.0;
  }

  lemma AfterIssue(s: Store, kickoff: Kickoff, place: Place, onHand: real, reserved: real, issued: real)
    requires s.reservations == [Reservation(kickoff, place, reserved, true)]
    requires BalanceAt(s.balances, place) == NoStock().(onHand := onHand, reserved := reserved)
    requires SumReserved(s.reservations, Some(kickoff), place) == reserved
    requires onHand == 10.0 && reserved == 15.0 && issued == 3.0
    ensures var t := Step(s, IssueOp(place, issued, Some(kickoff)));
      SumReserved(t.reservations, Some(kickoff), place) == 7.0 && BalanceAt(t.balances, place).onHand == 7.0
  {
    var from := FromReservation(BalanceAt(s.balances, place), issued);
    assert from == 8.0;
    assert PositiveReservations(s.reservations);
    ConsumeTotal(s.reservations, kickoff, place, from);
    hide SumReserved, Consume;
  }
}
