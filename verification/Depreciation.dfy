/**
 Straight-line depreciation: `createAsset` and `runDepreciation` of
 src/modules/finance-management/management.service.ts. An asset's id is its position; the
 steps of approval are folded into `ActivateAsset`.
 */
module Depreciation {
  import opened Wrappers
  import opened Decimals
  import opened Calendar

  datatype Entry = Entry(period: nat, amount: real)

  datatype Asset = Asset(
    cost: real, residual: real, lifeMonths: nat, capitalized: Date, accumulated: real, entries: seq<Entry>,
        active: bool)

  datatype Error = NotFound | BadRequest

  /** What is to be written off over the asset's life. */
  function Depreciable(a: Asset): real {
    a.cost - a.residual
  }

  function PerMonth(depreciable: real, lifeMonths: nat): real
    requires lifeMonths > 0
  {
    depreciable / lifeMonths as real
  }

  function Monthly(a: Asset): real
    requires a.lifeMonths > 0
  {
    Round2(PerMonth(Depreciable(a), a.lifeMonths))
  }

  predicate HasEntry(a: Asset, period: nat) {
    exists i :: 0 <= i < |a.entries| && a.entries[i].period == period
  }

  /** The asset is in use and was by the end of the period. */
  predicate Eligible(a: Asset, p: Period) {
    a.active && AtMost(a.capitalized, p.endsOn)
  }

  /** One asset's turn: a month's share, or what is left when that is less. */
  function Depreciate(a: Asset, p: Period): Asset
    requires a.lifeMonths > 0
  {
    var amount := Min(Monthly(a), Depreciable(a) - a.accumulated);
    if !Eligible(a, p) || HasEntry(a, p.id) || amount <= 0.0 then a
    else a.(accumulated := a.accumulated + amount, entries := a.entries + [Entry(p.id, amount)])
  }

  ghost predicate LivesOk(assets: seq<Asset>) {
    forall i :: 0 <= i < |assets| ==> assets[i].lifeMonths > 0
  }

  // ---------------------------------------------------------------- the operations

  function Create(assets: seq<Asset>, cost: real, residual: real, lifeMonths: nat, capitalized: Date)
      : Result<seq<Asset>, Error> {
    if lifeMonths < 1 || residual < 0.0 || residual >= cost then Failure(BadRequest)
    else Success(assets + [Asset(Round2(cost), Round2(residual), lifeMonths, capitalized, 0.0, [], false)])
  }

  function Activate(assets: seq<Asset>, id: nat): Result<seq<Asset>, Error> {
    if id >= |assets| then Failure(NotFound)
    else if assets[id].active then Failure(BadRequest)
    else Success(assets[id := assets[id].(active := true)])
  }

  function DepreciateAll(assets: seq<Asset>, periods: seq<Period>, asOf: Date): Result<seq<Asset>, Error>
    requires LivesOk(assets)
  {
    if !IsOpen(periods, asOf) then Failure(BadRequest)
    else Success(seq(|assets|, i requires 0 <= i < |assets| => Depreciate(assets[i], PeriodOf(periods, asOf).value)))
  }

  class ManagementService {
    var assets: seq<Asset>

    ghost predicate Valid()
      reads this
    {
      LivesOk(assets)
    }

    constructor ()
      ensures Valid() && assets == []
    {
      assets := [];
    }

    method CreateAsset(cost: real, residual: real, lifeMonths: nat, capitalized: Date) returns (outcome: Outcome<Error>)
      requires Valid()
      modifies this
      ensures Valid()
      ensures Follows(old(assets), assets, outcome, Create(old(assets), cost, residual, lifeMonths, capitalized))
    {
      hide Round2;
      if lifeMonths < 1 || residual < 0.0 || residual >= cost {
        return Fail(BadRequest);
      }
      assets := assets + [Asset(Round2(cost), Round2(residual), lifeMonths, capitalized, 0.0, [], false)];
      return Pass;
    }

    method ActivateAsset(id: nat) returns (outcome: Outcome<Error>)
      requires Valid()
      modifies this
      ensures Valid()
      ensures Follows(old(assets), assets, outcome, Activate(old(assets), id))
    {
      if id >= |assets| {
        return Fail(NotFound);
      }
      if assets[id].active {
        return Fail(BadRequest);
      }
      assets := assets[id := assets[id].(active := true)];
      return Pass;
    }

    method RunDepreciation(periods: seq<Period>, asOf: Date) returns (outcome: Outcome<Error>)
      requires Valid()
      modifies this
      ensures Valid()
      ensures Follows(old(assets), assets, outcome, DepreciateAll(old(assets), periods, asOf))
    {
      hide Round2, Monthly, Min;
      var found := PeriodOf(periods, asOf);
      if found.None? || !found.value.open {
        return Fail(BadRequest);
      }
      var period := found.value;
      for k := 0 to |assets|
        invariant Valid() && |assets| == |old(assets)|
        invariant forall i :: 0 <= i < k ==> assets[i] == Depreciate(old(assets)[i], period)
        invariant forall i :: k <= i < |assets| ==> assets[i] == old(assets)[i]
      {
        var a := assets[k];
        if Eligible(a, period) && !HasEntry(a, period.id) {
          var depreciable := a.cost - a.residual;
          var remaining := depreciable - a.accumulated;
          var amount := Min(Monthly(a), remaining);
          if amount > 0.0 {
            assets := assets[k := a.(accumulated := a.accumulated + amount,
                                     entries := a.entries + [Entry(period.id, amount)])];
          }
        }
      }
      assert assets == DepreciateAll(old(assets), periods, asOf).value;
      return Pass;
    }
  }

  // ---------------------------------------------------------------- over any sequence of periods

  /** The asset after depreciation has been run in each of these periods, in this order. */
  function AfterPeriods(a: Asset, periods: seq<Period>): (t: Asset)
    requires a.lifeMonths > 0
    ensures t.lifeMonths == a.lifeMonths
  {
    if periods == [] then a else Depreciate(AfterPeriods(a, periods[..|periods| - 1]), periods[|periods| - 1])
  }

  /** The periods of the run the asset is eligible for, each once. */
  function Counted(a: Asset, periods: seq<Period>): set<nat> {
    set i | 0 <= i < |periods| && Eligible(a, periods[i]) :: periods[i].id
  }

  function ForMonths(n: nat, x: real): real {
    n as real * x
  }

  lemma ForMonthsNext(n: nat, x: real)
    ensures ForMonths(0, x) == 0.0
    ensures ForMonths(n + 1, x) == ForMonths(n, x) + x
    ensures x >= 0.0 ==> ForMonths(n, x) >= 0.0
  {
  }

  lemma ForMonthsMonotone(m: nat, n: nat, x: real)
    requires m <= n && x >= 0.0
    ensures ForMonths(m, x) <= ForMonths(n, x)
  {
    ProductMonotone(m as real, n as real, x);
  }

  /** An asset of which nothing is written off yet. */
  ghost predicate Fresh(a: Asset) {
    a.lifeMonths > 0 && a.accumulated == 0.0 && a.entries == [] && Depreciable(a) >= 0.0
  }

  /** The entries so far: all counted periods, unless there is nothing to depreciate any more. */
  ghost predicate Progress(a: Asset, t: Asset, counted: set<nat>)
    requires a.lifeMonths > 0
  {
    && t == a.(accumulated := t.accumulated, entries := t.entries)
    && t.accumulated == Min(ForMonths(|counted|, Monthly(a)), Depreciable(a))
    && (forall p :: HasEntry(t, p) ==> p in counted)
    && (t.accumulated < Depreciable(a) && Monthly(a) > 0.0 ==> forall p :: p in counted ==> HasEntry(t, p))
  }

  lemma MonthlyNonNegative(a: Asset)
    requires a.lifeMonths > 0 && Depreciable(a) >= 0.0
    ensures Monthly(a) >= 0.0
  {
  }

  lemma CountedNext(a: Asset, init: seq<Period>, last: Period)
    ensures Counted(a, init + [last]) == Counted(a, init) + if Eligible(a, last) then {last.id} else {}
  {
    var all := init + [last];
    forall p | p in Counted(a, init) + if Eligible(a, last) then {last.id} else {}
      ensures p in Counted(a, all)
    {
      if p in Counted(a, init) {
        var i :| 0 <= i < |init| && Eligible(a, init[i]) && p == init[i].id;
        assert all[i] == init[i];
      } else {
        assert all[|init|] == last;
      }
    }
  }

  lemma EntryNext(t: Asset, e: Entry, p: nat)
    ensures HasEntry(t.(accumulated := t.accumulated + e.amount, entries := t.entries + [e]), p) <==>
              HasEntry(t, p) || p == e.period
  {
    var u := t.(accumulated := t.accumulated + e.amount, entries := t.entries + [e]);
    if HasEntry(t, p) {
      var i :| 0 <= i < |t.entries| && t.entries[i].period == p;
      assert u.entries[i].period == p;
    }
    assert u.entries[|t.entries|] == e;
  }

  lemma DepreciateProgress(a: Asset, t: Asset, counted: set<nat>, p: Period)
    requires Fresh(a) && Progress(a, t, counted)
    ensures Progress(a, Depreciate(t, p), counted + if Eligible(a, p) then {p.id} else {})
  {
    MonthlyNonNegative(a);
    ForMonthsNext(|counted|, Monthly(a));
    assert Monthly(t) == Monthly(a);
    hide Monthly, ForMonths, HasEntry;
    assert Eligible(t, p) == Eligible(a, p);
    if Eligible(a, p) && p.id !in counted {
      var amount := Min(Monthly(t), Depreciable(t) - t.accumulated);
      assert |counted + {p.id}| == |counted| + 1;
      forall q
        ensures HasEntry(t.(accumulated := t.accumulated + amount, entries := t.entries + [Entry(p.id, amount)]),
                  q) <==>
                HasEntry(t, q) || q == p.id
      {
        EntryNext(t, Entry(p.id, amount), q);
      }
    } else {
      assert counted + (if Eligible(a, p) then {p.id} else {}) == counted;
    }
  }

  lemma {:induction false} PeriodsProgress(a: Asset, periods: seq<Period>)
    requires Fresh(a)
    ensures Progress(a, AfterPeriods(a, periods), Counted(a, periods))
  {
    if periods == [] {
      MonthlyNonNegative(a);
      ForMonthsNext(0, Monthly(a));
      assert |Counted(a, periods)| == 0;
      hide Monthly, ForMonths;
    } else {
      var init, last := periods[..|periods| - 1], periods[|periods| - 1];
      assert periods == init + [last];
      hide Progress, Depreciate, Counted, Eligible;
      PeriodsProgress(a, init);
      CountedNext(a, init, last);
      DepreciateProgress(a, AfterPeriods(a, init), Counted(a, init), last);
    }
  }

  /**
   However depreciation is run, in any order of periods and with repeats, what has been written
   off is a month's share for each different period in which the asset was in use, up to the
   depreciable amount. So the book value never falls below the residual value.
   */
  lemma AccumulatedExactly(a: Asset, periods: seq<Period>)
    requires Fresh(a)
    ensures var t := AfterPeriods(a, periods);
      && t.accumulated == Min(ForMonths(|Counted(a, periods)|, Monthly(a)), Depreciable(a))
      && t.cost - t.accumulated >= t.residual
  {
    PeriodsProgress(a, periods);
    hide Monthly, ForMonths, Counted, AfterPeriods;
  }

  lemma LifeShare(depreciable: real, n: nat, monthly: real)
    requires n > 0 && monthly - PerMonth(depreciable, n) >= -0.005
    ensures depreciable - ForMonths(n, monthly) <= n as real * 0.005
  {
    assert PerMonth(depreciable, n) * n as real == depreciable;
    ProductMonotone(PerMonth(depreciable, n) - 0.005, monthly, n as real);
  }

  /** After as many different periods as the asset's life has months, at most half a cent for each is left. */
  lemma ShortfallAfterLife(a: Asset, periods: seq<Period>)
    requires Fresh(a) && |Counted(a, periods)| >= a.lifeMonths
    ensures 0.0 <= Depreciable(a) - AfterPeriods(a, periods).accumulated <= a.lifeMonths as real * 0.005
  {
    AccumulatedExactly(a, periods);
    Round2Nearest(PerMonth(Depreciable(a), a.lifeMonths));
    LifeShare(Depreciable(a), a.lifeMonths, Monthly(a));
    MonthlyNonNegative(a);
    ForMonthsMonotone(a.lifeMonths, |Counted(a, periods)|, Monthly(a));
    hide Monthly, PerMonth, Round2, Counted, AfterPeriods, ForMonths;
  }

  // ---------------------------------------------------------------- runs

  datatype Op =
    | CreateOp(cost: real, residual: real, lifeMonths: nat, capitalized: Date)
    | ActivateOp(id: nat)
    | DepreciateOp(periods: seq<Period>, asOf: Date)

  function Apply(assets: seq<Asset>, op: Op): Result<seq<Asset>, Error>
    requires LivesOk(assets)
  {
    match op
    case CreateOp(cost, residual, lifeMonths, capitalized) => Create(assets, cost, residual, lifeMonths, capitalized)
    case ActivateOp(id) => Activate(assets, id)
    case DepreciateOp(periods, asOf) => DepreciateAll(assets, periods, asOf)
  }

  /** The assets after one call, which changes nothing when it fails. */
  function Step(assets: seq<Asset>, op: Op): (next: seq<Asset>)
    requires LivesOk(assets)
    ensures LivesOk(next) && |assets| <= |next|
  {
    var r := Apply(assets, op);
    if r.Success? then r.value else assets
  }

  function Run(assets: seq<Asset>, ops: seq<Op>): seq<Asset>
    requires LivesOk(assets)
    decreases |ops|
  {
    if ops == [] then assets else Run(Step(assets, ops[0]), ops[1..])
  }

  /** The period of a call that depreciates, if the asset is then in use. */
  function Turn(assets: seq<Asset>, op: Op, id: nat): set<nat>
    requires LivesOk(assets)
  {
    if op.DepreciateOp? && IsOpen(op.periods, op.asOf) && id < |assets| &&
        Eligible(assets[id], PeriodOf(op.periods, op.asOf).value)
    then {PeriodOf(op.periods, op.asOf).value.id} else {}
  }

  /** The different periods in which depreciation was run while the asset was in use. */
  function Turns(assets: seq<Asset>, ops: seq<Op>, id: nat): set<nat>
    requires LivesOk(assets)
    decreases |ops|
  {
    if ops == [] then {} else Turn(assets, ops[0], id) + Turns(Step(assets, ops[0]), ops[1..], id)
  }

  function Unused(t: Asset): Asset {
    t.(accumulated := 0.0, entries := [])
  }

  ghost predicate AssetOk(t: Asset, counted: set<nat>) {
    Fresh(Unused(t)) && Progress(Unused(t), t, counted)
  }

  lemma NewAssetOk(cost: real, residual: real, lifeMonths: nat, capitalized: Date)
    requires lifeMonths >= 1 && 0.0 <= residual < cost
    ensures AssetOk(Asset(Round2(cost), Round2(residual), lifeMonths, capitalized, 0.0, [], false), {})
  {
    Round2Monotone(residual, cost);
    hide Round2, Monthly, ForMonths;
    var t := Asset(Round2(cost), Round2(residual), lifeMonths, capitalized, 0.0, [], false);
    MonthlyNonNegative(t);
    ForMonthsNext(0, Monthly(t));
    assert Monthly(Unused(t)) == Monthly(t);
  }

  lemma ActivatedOk(t: Asset, counted: set<nat>)
    requires AssetOk(t, counted)
    ensures AssetOk(t.(active := true), counted)
  {
    var u := t.(active := true);
    assert Monthly(Unused(u)) == Monthly(Unused(t));
    hide Monthly, ForMonths;
  }

  lemma DepreciatedOk(t: Asset, p: Period, counted: set<nat>)
    requires AssetOk(t, counted)
    ensures AssetOk(Depreciate(t, p), counted + if Eligible(t, p) then {p.id} else {})
  {
    DepreciateProgress(Unused(t), t, counted, p);
    hide Progress;
    assert Unused(Depreciate(t, p)) == Unused(t);
  }

  lemma StepOk(assets: seq<Asset>, op: Op, id: nat, counted: set<nat>)
    requires LivesOk(assets)
    requires if id < |assets| then AssetOk(assets[id], counted) else counted == {}
    ensures id < |Step(assets, op)| ==> AssetOk(Step(assets, op)[id], counted + Turn(assets, op, id))
    ensures id >= |Step(assets, op)| ==> counted + Turn(assets, op, id) == {}
  {
    hide AssetOk, Depreciate, Eligible, Round2;
    assert counted + {} == counted;
    match op
    case CreateOp(cost, residual, lifeMonths, capitalized) =>
      if id == |assets| && Apply(assets, op).Success? {
        NewAssetOk(cost, residual, lifeMonths, capitalized);
      }
    case ActivateOp(_) =>
      if id < |assets| {
        ActivatedOk(assets[id], counted);
      }
    case DepreciateOp(periods, asOf) =>
      if id < |assets| && IsOpen(periods, asOf) {
        DepreciatedOk(assets[id], PeriodOf(periods, asOf).value, counted);
      }
  }

  lemma {:induction false} RunOk(assets: seq<Asset>, ops: seq<Op>, id: nat, counted: set<nat>)
    requires LivesOk(assets)
    requires if id < |assets| then AssetOk(assets[id], counted) else counted == {}
    ensures id < |Run(assets, ops)| ==> AssetOk(Run(assets, ops)[id], counted + Turns(assets, ops, id))
    decreases |ops|
  {
    hide AssetOk, Turn, Step;
    if ops == [] {
      assert counted + {} == counted;
    } else {
      StepOk(assets, ops[0], id, counted);
      RunOk(Step(assets, ops[0]), ops[1..], id, counted + Turn(assets, ops[0], id));
      assert counted + Turns(assets, ops, id) ==
             counted + Turn(assets, ops[0], id) + Turns(Step(assets, ops[0]), ops[1..], id);
    }
  }

  /**
   In every run of creating, activating and depreciating, in any order of dates and with
   repeats, what an asset has written off is a month's share for each different period in which
   it was in use, up to its depreciable amount; its book value is never below its residual value.
   */
  lemma EveryRunDepreciates(ops: seq<Op>, id: nat)
    requires id < |Run([], ops)|
    ensures var t := Run([], ops)[id];
      && t.lifeMonths > 0
      && t.accumulated == Min(ForMonths(|Turns([], ops, id)|, Monthly(t)), Depreciable(t))
      && t.cost - t.accumulated >= t.residual
  {
    hide Run, Turns, Monthly, ForMonths, AssetOk;
    RunOk([], ops, id, {});
    assert {} + Turns([], ops, id) == Turns([], ops, id);
    WrittenOff(Run([], ops)[id], Turns([], ops, id));
  }

  lemma WrittenOff(t: Asset, counted: set<nat>)
    requires AssetOk(t, counted)
    ensures t.lifeMonths > 0
    ensures t.accumulated == Min(ForMonths(|counted|, Monthly(t)), Depreciable(t)) &&
              t.cost - t.accumulated >= t.residual
  {
    assert Monthly(Unused(t)) == Monthly(t);
    hide Monthly, ForMonths, HasEntry;
  }
}
