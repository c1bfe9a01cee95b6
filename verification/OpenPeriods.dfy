/** Recurring schedules run, and depreciation is booked, in open periods only; which dates and which periods. */
module OpenPeriods {
  import opened Wrappers
  import opened Decimals
  import opened Calendar
  import opened Schedules
  import opened SchedulesLaws
  import Depreciation

  predicate NotAfter(a: Date, b: Date) {
    a.month < b.month || (a.month == b.month && a.day <= b.day)
  }

  predicate Within(p: Period, d: Date) {
    NotAfter(p.startsOn, d) && NotAfter(d, p.endsOn)
  }

  /** The i-th period is the first the day falls in. */
  predicate FirstWithin(periods: seq<Period>, d: Date, i: nat) {
    i < |periods| && Within(periods[i], d) && forall j :: 0 <= j < i ==> !Within(periods[j], d)
  }

  /** The day's period is open. */
  ghost predicate OpenOn(periods: seq<Period>, d: Date) {
    exists i: nat :: FirstWithin(periods, d, i) && periods[i].open
  }

  lemma {:induction false} PeriodIs(periods: seq<Period>, d: Date)
    ensures PeriodOf(periods, d).None? <==> forall i: nat :: !FirstWithin(periods, d, i)
    ensures forall i: nat :: FirstWithin(periods, d, i) ==> PeriodOf(periods, d) == Some(periods[i])
  {
    if periods != [] {
      assert Covers(periods[0], d) <==> Within(periods[0], d);
      PeriodIs(periods[1..], d);
      hide Covers, Within;
      if Covers(periods[0], d) {
        assert FirstWithin(periods, d, 0);
      } else {
        forall i: nat
          ensures FirstWithin(periods, d, i) <==> i > 0 && FirstWithin(periods[1..], d, i - 1)
        {
          if i > 0 && FirstWithin(periods[1..], d, i - 1) {
            assert forall j :: 0 < j < i ==> periods[j] == periods[1..][j - 1];
          }
          if FirstWithin(periods, d, i) {
            assert forall j :: 0 <= j < i - 1 ==> periods[1..][j] == periods[j + 1];
          }
        }
        if i: nat :| FirstWithin(periods[1..], d, i) {
          assert FirstWithin(periods, d, i + 1);
        }
      }
    }
  }

  lemma IsOpenIff(periods: seq<Period>, d: Date)
    ensures IsOpen(periods, d) <==> OpenOn(periods, d)
  {
    PeriodIs(periods, d);
    hide PeriodOf, FirstWithin;
    if PeriodOf(periods, d).Some? {
      var i: nat :| FirstWithin(periods, d, i);
    }
  }

  // ---------------------------------------------------------------- schedules

  /** The i-th date of an active schedule from its next one on has come, within its end and its runs. */
  predicate Comes(x: Schedule, asOf: Date, i: nat) {
    && x.status.Active?
    && (x.remainingRuns.Some? ==> i < x.remainingRuns.value)
    && forall j: nat :: j <= i ==>
         NotAfter(Nth(x.nextRunDate, j), asOf) && (x.endDate.Some? ==> NotAfter(Nth(x.nextRunDate, j), x.endDate.value))
  }

  /** The dates of one schedule in a run: those that have come, from the next one on. */
  lemma PlanIs(x: Schedule, asOf: Date)
    ensures var plan := Plan(x, asOf);
      && (forall i :: 0 <= i < |plan| ==> plan[i] == Nth(x.nextRunDate, i))
      && (forall i: nat :: i < |plan| <==> Comes(x, asOf, i))
  {
    var dates := DatesOf(x, asOf);
    DatesAreFirst(x.nextRunDate, x.endDate, AsInt(x.remainingRuns), asOf);
    DatesWithinRemaining(x.nextRunDate, x.endDate, AsInt(x.remainingRuns), asOf);
    hide DatesFrom;
    assert Nth(x.nextRunDate, 0) == x.nextRunDate;
    forall i: nat
      ensures x.status.Active? ==> (i < |dates| <==> Comes(x, asOf, i))
    {
      if x.status.Active? && i < |dates| {
        forall j: nat | j <= i
          ensures NotAfter(Nth(x.nextRunDate, j), asOf)
          ensures x.endDate.Some? ==> NotAfter(Nth(x.nextRunDate, j), x.endDate.value)
        {
          assert Due(Nth(x.nextRunDate, j), x.endDate, Fewer(AsInt(x.remainingRuns), j), asOf);
        }
        assert Due(Nth(x.nextRunDate, i), x.endDate, Fewer(AsInt(x.remainingRuns), i), asOf);
      }
      if x.status.Active? && i >= |dates| {
        assert !Due(Nth(x.nextRunDate, |dates|), x.endDate, Fewer(AsInt(x.remainingRuns), |dates|), asOf);
      }
    }
    assert x.status.Active? && !IsDue(x, asOf) ==> dates == [];
  }

  lemma PlanOpenIff(periods: seq<Period>, x: Schedule, asOf: Date)
    ensures PlanOpen(periods, x, asOf) <==>
            forall i: nat :: Comes(x, asOf, i) ==> OpenOn(periods, Nth(x.nextRunDate, i))
  {
    PlanIs(x, asOf);
    var plan := Plan(x, asOf);
    hide OpenOn, IsOpen, Comes, Plan, Nth;
    if PlanOpen(periods, x, asOf) {
      forall i: nat | Comes(x, asOf, i)
        ensures OpenOn(periods, Nth(x.nextRunDate, i))
      {
        assert IsOpen(periods, plan[i]);
        IsOpenIff(periods, plan[i]);
      }
    }
    if forall i: nat :: Comes(x, asOf, i) ==> OpenOn(periods, Nth(x.nextRunDate, i)) {
      forall i | 0 <= i < |plan|
        ensures IsOpen(periods, plan[i])
      {
        assert Comes(x, asOf, i);
        IsOpenIff(periods, plan[i]);
      }
    }
  }

  /** A run goes through exactly when every date that has come lies in an open period. */
  lemma RunsIff(s: Store, periods: seq<Period>, asOf: Date)
    ensures RunSchedules(s, periods, asOf).Success? <==>
            forall k: nat, i: nat :: k < |s.schedules| && Comes(s.schedules[k], asOf, i) ==>
              OpenOn(periods, Nth(s.schedules[k].nextRunDate, i))
  {
    forall k: nat | k < |s.schedules|
      ensures PlanOpen(periods, s.schedules[k], asOf) <==>
              forall i: nat :: Comes(s.schedules[k], asOf, i) ==> OpenOn(periods, Nth(s.schedules[k].nextRunDate, i))
    {
      PlanOpenIff(periods, s.schedules[k], asOf);
    }
    hide PlanOpen, RanAll, ExecutionsOf, OpenOn, Comes, Nth;
  }

  lemma {:induction false} ExecutedAre(schedules: seq<Schedule>, asOf: Date, e: Execution)
    ensures e in ExecutionsOf(schedules, asOf) <==>
            e.schedule < |schedules| && e.runDate in Plan(schedules[e.schedule], asOf)
  {
    if schedules != [] {
      var k := |schedules| - 1;
      ExecutedAre(schedules[..k], asOf, e);
      hide Plan;
      var plan := Plan(schedules[k], asOf);
      assert e in Executions(k, plan) <==> e.schedule == k && e.runDate in plan by {
        if e.schedule == k && e.runDate in plan {
          var i :| 0 <= i < |plan| && plan[i] == e.runDate;
          assert Executions(k, plan)[i] == e;
        }
      }
    }
  }

  /** A run executes, for every schedule, exactly the dates that have come; and these lie in open periods. */
  lemma RunExecutes(s: Store, periods: seq<Period>, asOf: Date, e: Execution)
    requires RunSchedules(s, periods, asOf).Success?
    ensures var t, n := RunSchedules(s, periods, asOf).value, |s.executions|;
      && n <= |t.executions| && t.executions[..n] == s.executions
      && (e in t.executions[n..] <==>
            e.schedule < |s.schedules| && exists i: nat ::
              Comes(s.schedules[e.schedule], asOf, i) && e.runDate == Nth(s.schedules[e.schedule].nextRunDate, i))
      && (e in t.executions[n..] ==> OpenOn(periods, e.runDate))
  {
    ExecutedAre(s.schedules, asOf, e);
    RunsIff(s, periods, asOf);
    if e.schedule < |s.schedules| {
      PlanIs(s.schedules[e.schedule], asOf);
    }
    hide RanAll, ExecutionsOf, AllOpen, OpenOn, Comes, Nth, Plan;
    assert RunSchedules(s, periods, asOf).value.executions[|s.executions|..] == ExecutionsOf(s.schedules, asOf);
  }

  /** What becomes of a schedule in a run. */
  lemma RunMoves(s: Store, periods: seq<Period>, asOf: Date, k: nat, n: nat)
    requires RunSchedules(s, periods, asOf).Success? && k < |s.schedules|
    requires forall i: nat :: i < n <==> Comes(s.schedules[k], asOf, i)
    ensures var x := s.schedules[k];
      && |RunSchedules(s, periods, asOf).value.schedules| == |s.schedules|
      && var y := RunSchedules(s, periods, asOf).value.schedules[k];
      if x.status.Active? && NotAfter(x.nextRunDate, asOf) then
        && y.nextRunDate == Nth(x.nextRunDate, n) && y.endDate == x.endDate
        && (x.remainingRuns.None? ==> y.remainingRuns.None?)
        && (x.remainingRuns.Some? ==>
              (n <= x.remainingRuns.value && y.remainingRuns == Some(x.remainingRuns.value - n)))
        && y.status == (if (x.endDate.Some? && !NotAfter(y.nextRunDate, x.endDate.value)) || y.remainingRuns == Some(0)
                        then Completed else Active)
      else y == x
  {
    var x := s.schedules[k];
    PlanIs(x, asOf);
    if IsDue(x, asOf) {
      AfterDates(x, asOf);
      assert Comes(x, asOf, n) <==> n < |DatesOf(x, asOf)|;
      assert n > 0 ==> (Comes(x, asOf, n - 1) <==> n - 1 < |DatesOf(x, asOf)|);
    }
    hide DatesOf, AllOpen, ExecutionsOf, Comes, Nth;
  }

  /** Creating and activating, date by date. */
  lemma EntersAndStarts(s: Store, start: Date, end: Option<Date>, runs: Option<nat>, id: nat)
    ensures SchedulesLaws.Step(s, CreateOp(start, end, runs)) ==
            if (runs.Some? ==> runs.value > 0) && (end.Some? ==> NotAfter(start, end.value)) then
              s.(schedules := s.schedules + [Schedule(Schedules.Status.Draft, start, end, runs)])
            else s
    ensures SchedulesLaws.Step(s, ActivateOp(id)) ==
            if id < |s.schedules| && s.schedules[id].status.Draft? then
              s.(schedules := s.schedules[id := s.schedules[id].(status := Active)])
            else s
  {
  }

  /** Some run of the history executed it: by then it had come, and its period was open. */
  ghost predicate RunOpen(ops: seq<Op>, e: Execution) {
    exists j :: 0 <= j < |ops| && ops[j].RunOp? && NotAfter(e.runDate, ops[j].asOf) && OpenOn(ops[j].periods, e.runDate)
  }

  lemma StepRunsOpen(s: Store, op: Op, e: Execution)
    requires e in SchedulesLaws.Step(s, op).executions && e !in s.executions
    ensures RunOpen([op], e)
  {
    assert op.RunOp?;
    RunExecutes(s, op.periods, op.asOf, e);
    var t, n := RunSchedules(s, op.periods, op.asOf).value, |s.executions|;
    assert t.executions == t.executions[..n] + t.executions[n..];
    hide RunSchedules, OpenOn;
    var x := s.schedules[e.schedule];
    var i: nat :| Comes(x, op.asOf, i) && e.runDate == Nth(x.nextRunDate, i);
    assert [op][0] == op;
  }

  /** In any history every date executed had come, and lies in a period open in the run that executed it. */
  lemma {:induction false} EveryHistoryRunsOpen(s: Store, ops: seq<Op>, e: Execution)
    requires e in History(s, ops).executions && e !in s.executions
    ensures RunOpen(ops, e)
    decreases |ops|
  {
    var t := SchedulesLaws.Step(s, ops[0]);
    hide SchedulesLaws.Step, OpenOn;
    if e in t.executions {
      StepRunsOpen(s, ops[0], e);
      assert [ops[0]][0] == ops[0];
    } else {
      EveryHistoryRunsOpen(t, ops[1..], e);
      var j :| 0 <= j < |ops[1..]| && ops[1..][j].RunOp? && NotAfter(e.runDate, ops[1..][j].asOf)
               && OpenOn(ops[1..][j].periods, e.runDate);
      assert ops[1..][j] == ops[j + 1];
    }
  }

  // ---------------------------------------------------------------- depreciation

  /** A month's share of what is to be written off, rounded, or what is left when that is less. */
  function MonthsShare(a: Depreciation.Asset): real
    requires a.lifeMonths > 0
  {
    var share, left := Round2((a.cost - a.residual) / a.lifeMonths as real), a.cost - a.residual - a.accumulated;
    if share <= left then share else left
  }

  /** The asset is in use, has no entry for the period yet, and something is left to write off. */
  predicate TakesTurn(a: Depreciation.Asset, p: Period)
    requires a.lifeMonths > 0
  {
    && a.active && NotAfter(a.capitalized, p.endsOn) && MonthsShare(a) > 0.0
    && forall i :: 0 <= i < |a.entries| ==> a.entries[i].period != p.id
  }

  /** The asset before and after its turn. */
  predicate AfterTurn(a: Depreciation.Asset, b: Depreciation.Asset, p: Period)
    requires a.lifeMonths > 0
  {
    b == if TakesTurn(a, p) then
           a.(accumulated := a.accumulated + MonthsShare(a),
              entries := a.entries + [Depreciation.Entry(p.id, MonthsShare(a))])
         else a
  }

  /** Depreciation is booked exactly when the day's first period is open, once for every asset whose turn it is. */
  lemma DepreciatesIff(assets: seq<Depreciation.Asset>, periods: seq<Period>, asOf: Date, i: nat)
    requires Depreciation.LivesOk(assets)
    ensures Depreciation.DepreciateAll(assets, periods, asOf).Success? <==> OpenOn(periods, asOf)
    ensures OpenOn(periods, asOf) && FirstWithin(periods, asOf, i) ==>
              var t, p := Depreciation.DepreciateAll(assets, periods, asOf).value, periods[i];
              |t| == |assets| && forall k :: 0 <= k < |t| ==> AfterTurn(assets[k], t[k], p)
  {
    IsOpenIff(periods, asOf);
    PeriodIs(periods, asOf);
    hide Round2, OpenOn, PeriodOf;
  }

  /** Every entry of every asset was booked by a call whose day's first period is that of the entry, and open. */
  ghost predicate BookedOpen(ops: seq<Depreciation.Op>, e: Depreciation.Entry) {
    exists j, i: nat :: 0 <= j < |ops| && ops[j].DepreciateOp? && FirstWithin(ops[j].periods, ops[j].asOf, i)
                        && ops[j].periods[i].open && ops[j].periods[i].id == e.period
  }

  ghost predicate HasEntry(assets: seq<Depreciation.Asset>, id: nat, e: Depreciation.Entry) {
    id < |assets| && e in assets[id].entries
  }

  lemma StepBooksOpen(assets: seq<Depreciation.Asset>, op: Depreciation.Op, id: nat, e: Depreciation.Entry)
    requires Depreciation.LivesOk(assets)
    requires HasEntry(Depreciation.Step(assets, op), id, e) && !HasEntry(assets, id, e)
    ensures BookedOpen([op], e)
  {
    hide Round2;
    assert op.DepreciateOp?;
    DepreciatesIff(assets, op.periods, op.asOf, 0);
    var i: nat :| FirstWithin(op.periods, op.asOf, i) && op.periods[i].open;
    DepreciatesIff(assets, op.periods, op.asOf, i);
    assert [op][0] == op;
  }

  lemma {:induction false} EveryRunBooksOpen(
    assets: seq<Depreciation.Asset>, ops: seq<Depreciation.Op>, id: nat, e: Depreciation.Entry)
    requires Depreciation.LivesOk(assets)
    requires HasEntry(Depreciation.Run(assets, ops), id, e) && !HasEntry(assets, id, e)
    ensures BookedOpen(ops, e)
    decreases |ops|
  {
    var t := Depreciation.Step(assets, ops[0]);
    hide Depreciation.Step, HasEntry, FirstWithin;
    if HasEntry(t, id, e) {
      StepBooksOpen(assets, ops[0], id, e);
      assert [ops[0]][0] == ops[0];
    } else {
      EveryRunBooksOpen(t, ops[1..], id, e);
      var j, i: nat :| 0 <= j < |ops[1..]| && ops[1..][j].DepreciateOp?
        && FirstWithin(ops[1..][j].periods, ops[1..][j].asOf, i)
        && ops[1..][j].periods[i].open && ops[1..][j].periods[i].id == e.period;
      assert ops[1..][j] == ops[j + 1];
    }
  }

  /** An asset enters with nothing written off, and is put to use once. */
  lemma AssetEntersAndStarts(assets: seq<Depreciation.Asset>, cost: real, residual: real, lifeMonths: nat,
      capitalized: Date, id: nat)
    requires Depreciation.LivesOk(assets)
    ensures Depreciation.Step(assets, Depreciation.CreateOp(cost, residual, lifeMonths, capitalized)) ==
            if lifeMonths > 0 && 0.0 <= residual < cost then
              assets + [Depreciation.Asset(Round2(cost), Round2(residual), lifeMonths, capitalized, 0.0, [], false)]
            else assets
    ensures Depreciation.Step(assets, Depreciation.ActivateOp(id)) ==
            if id < |assets| && !assets[id].active then assets[id := assets[id].(active := true)] else assets
  {
    hide Round2;
  }

  /** Refusals: not found for a schedule or an asset that is not there, else a bad request. */
  lemma RefusedWith(s: Store, op: Op)
    requires SchedulesLaws.Apply(s, op).Failure?
    ensures SchedulesLaws.Apply(s, op).error ==
            if op.ActivateOp? && op.id >= |s.schedules| then NotFound else BadRequest
  {
  }

  lemma AssetRefusedWith(assets: seq<Depreciation.Asset>, op: Depreciation.Op)
    requires Depreciation.LivesOk(assets) && Depreciation.Apply(assets, op).Failure?
    ensures Depreciation.Apply(assets, op).error ==
            if op.ActivateOp? && op.id >= |assets| then Depreciation.NotFound else Depreciation.BadRequest
  {
  }
}
