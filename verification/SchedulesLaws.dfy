/** Running schedules in steps is running them at once, and no date is ever run twice. */
module SchedulesLaws {
  import opened Wrappers
  import opened Calendar
  import opened Schedules

  // ---------------------------------------------------------------- dates

  /** The k-th monthly date from `start`. */
  function Nth(start: Date, k: nat): Date {
    if k == 0 then start else AddMonth(Nth(start, k - 1))
  }

  function FirstDates(start: Date, n: nat): seq<Date> {
    seq(n, k requires 0 <= k < n => Nth(start, k))
  }

  lemma {:induction false} NthFromNext(start: Date, k: nat)
    ensures Nth(AddMonth(start), k) == Nth(start, k + 1)
  {
    if k > 0 {
      NthFromNext(start, k - 1);
    }
  }

  /** The dates fall in consecutive months, on the same day or, from the second on, on the 28th at the latest. */
  lemma {:induction false} NthMonth(start: Date, k: nat)
    ensures Nth(start, k).month == start.month + k
    ensures k > 0 ==> Nth(start, k).day == if start.day <= 28 then start.day else 28
  {
    if k > 0 {
      NthMonth(start, k - 1);
    }
  }

  lemma {:induction false} DateAt(run: Date, end: Option<Date>, remaining: Option<int>, asOf: Date, i: nat)
    requires i < |DatesFrom(run, end, remaining, asOf)|
    ensures DatesFrom(run, end, remaining, asOf)[i] == Nth(run, i)
    ensures Due(Nth(run, i), end, Fewer(remaining, i), asOf)
    decreases i
  {
    if i == 0 {
      assert Fewer(remaining, 0) == remaining;
    } else {
      DateAt(AddMonth(run), end, Fewer(remaining, 1), asOf, i - 1);
      NthFromNext(run, i - 1);
      assert Fewer(Fewer(remaining, 1), i - 1) == Fewer(remaining, i);
    }
  }

  lemma {:induction false} DatesStop(run: Date, end: Option<Date>, remaining: Option<int>, asOf: Date)
    ensures var n := |DatesFrom(run, end, remaining, asOf)|;
      !Due(Nth(run, n), end, Fewer(remaining, n), asOf)
    decreases asOf.month - run.month + 1
  {
    var n := |DatesFrom(run, end, remaining, asOf)|;
    if n == 0 {
      assert Fewer(remaining, 0) == remaining;
    } else {
      DatesStop(AddMonth(run), end, Fewer(remaining, 1), asOf);
      NthFromNext(run, n - 1);
      assert Fewer(Fewer(remaining, 1), n - 1) == Fewer(remaining, n);
    }
  }

  /** The due dates are the first monthly dates; all are due and the next one is not. */
  lemma DatesAreFirst(run: Date, end: Option<Date>, remaining: Option<int>, asOf: Date)
    ensures var dates := DatesFrom(run, end, remaining, asOf);
      && dates == FirstDates(run, |dates|)
      && (forall i :: 0 <= i < |dates| ==> Due(Nth(run, i), end, Fewer(remaining, i), asOf))
      && !Due(Nth(run, |dates|), end, Fewer(remaining, |dates|), asOf)
  {
    hide Due, DatesFrom;
    DatesStop(run, end, remaining, asOf);
    forall i | 0 <= i < |DatesFrom(run, end, remaining, asOf)|
      ensures DatesFrom(run, end, remaining, asOf)[i] == Nth(run, i)
      ensures Due(Nth(run, i), end, Fewer(remaining, i), asOf)
    {
      DateAt(run, end, remaining, asOf, i);
    }
  }

  /** Dates due up to A, then those due from there up to B, are the dates due up to B. */
  lemma {:induction false} DatesSplit(run: Date, end: Option<Date>, remaining: Option<int>, a: Date, b: Date)
    requires AtMost(a, b)
    ensures var first := DatesFrom(run, end, remaining, a);
      DatesFrom(run, end, remaining, b) == first + DatesFrom(Nth(run, |first|), end, Fewer(remaining, |first|), b)
    decreases a.month - run.month + 1
  {
    if Due(run, end, remaining, a) {
      var rest := DatesFrom(AddMonth(run), end, Fewer(remaining, 1), a);
      DatesSplit(AddMonth(run), end, Fewer(remaining, 1), a, b);
      NthFromNext(run, |rest|);
      assert Fewer(Fewer(remaining, 1), |rest|) == Fewer(remaining, |rest| + 1);
    } else {
      assert Fewer(remaining, 0) == remaining;
    }
  }

  // ---------------------------------------------------------------- one schedule

  lemma AfterDates(s: Schedule, asOf: Date)
    requires IsDue(s, asOf)
    ensures var dates, t := DatesOf(s, asOf), Ran(s, asOf);
      && (s.remainingRuns.Some? ==> |dates| <= s.remainingRuns.value)
      && t.nextRunDate == Nth(s.nextRunDate, |dates|)
      && AsInt(t.remainingRuns) == Fewer(AsInt(s.remainingRuns), |dates|)
      && t.endDate == s.endDate
      && (t.status.Completed? <==>
          ((s.endDate.Some? && Before(s.endDate.value, t.nextRunDate)) || t.remainingRuns == Some(0)))
      && (t.status.Active? || t.status.Completed?)
  {
    DatesWithinRemaining(s.nextRunDate, s.endDate, AsInt(s.remainingRuns), asOf);
    DatesAreFirst(s.nextRunDate, s.endDate, AsInt(s.remainingRuns), asOf);
    var dates := DatesOf(s, asOf);
    hide DatesFrom;
    if dates != [] {
      assert dates[|dates| - 1] == FirstDates(s.nextRunDate, |dates|)[|dates| - 1];
    }
  }

  /** A schedule run up to A and then up to B ends as one run up to B, having run the same dates. */
  lemma ScheduleSplit(s: Schedule, a: Date, b: Date)
    requires AtMost(a, b)
    ensures Ran(Ran(s, a), b) == Ran(s, b)
    ensures Plan(s, b) == Plan(s, a) + Plan(Ran(s, a), b)
  {
    if IsDue(s, a) {
      var t := Ran(s, a);
      AfterDates(s, a);
      AfterDates(s, b);
      DatesSplit(s.nextRunDate, s.endDate, AsInt(s.remainingRuns), a, b);
      if IsDue(t, b) {
        AfterDates(t, b);
        NthPlus(s.nextRunDate, |DatesOf(s, a)|, |DatesOf(t, b)|);
      } else {
        assert DatesOf(t, b) == [];
      }
      hide DatesFrom;
    }
  }

  lemma {:induction false} NthPlus(start: Date, m: nat, n: nat)
    ensures Nth(Nth(start, m), n) == Nth(start, m + n)
  {
    if n > 0 {
      NthPlus(start, m, n - 1);
    }
  }

  // ---------------------------------------------------------------- all schedules

  /** The dates run for one schedule, in order. */
  function DatesRun(executions: seq<Execution>, id: nat): seq<Date> {
    if executions == [] then []
    else
      var last := executions[|executions| - 1];
      DatesRun(executions[..|executions| - 1], id) + if last.schedule == id then [last.runDate] else []
  }

  lemma {:induction false} DatesRunConcat(a: seq<Execution>, b: seq<Execution>, id: nat)
    ensures DatesRun(a + b, id) == DatesRun(a, id) + DatesRun(b, id)
  {
    if b == [] {
      assert a + b == a;
    } else {
      DatesRunConcat(a, b[..|b| - 1], id);
      assert (a + b)[..|a + b| - 1] == a + b[..|b| - 1];
    }
  }

  lemma {:induction false} DatesRunOfOne(k: nat, dates: seq<Date>, id: nat)
    ensures DatesRun(Executions(k, dates), id) == if k == id then dates else []
  {
    if dates != [] {
      var init := dates[..|dates| - 1];
      DatesRunOfOne(k, init, id);
      assert Executions(k, dates)[..|dates| - 1] == Executions(k, init);
    }
  }

  lemma {:induction false} DatesRunOfAll(schedules: seq<Schedule>, asOf: Date, id: nat)
    ensures DatesRun(ExecutionsOf(schedules, asOf), id) == if id < |schedules| then Plan(schedules[id], asOf) else []
  {
    if schedules != [] {
      var k := |schedules| - 1;
      DatesRunOfAll(schedules[..k], asOf, id);
      DatesRunConcat(ExecutionsOf(schedules[..k], asOf), Executions(k, Plan(schedules[k], asOf)), id);
      DatesRunOfOne(k, Plan(schedules[k], asOf), id);
    }
    hide Plan, Executions;
  }

  lemma RunDates(s: Store, periods: seq<Period>, asOf: Date, id: nat)
    requires RunSchedules(s, periods, asOf).Success?
    ensures DatesRun(RunSchedules(s, periods, asOf).value.executions, id) ==
            DatesRun(s.executions, id) + if id < |s.schedules| then Plan(s.schedules[id], asOf) else []
  {
    DatesRunConcat(s.executions, ExecutionsOf(s.schedules, asOf), id);
    DatesRunOfAll(s.schedules, asOf, id);
  }

  /**
   Running up to A and later up to B goes through exactly when running up to B at once does,
   leaves every schedule the same and executes the same dates for each, in the same order.
   */
  lemma RunInSteps(s: Store, periods: seq<Period>, a: Date, b: Date)
    requires AtMost(a, b)
    ensures var atOnce, first := RunSchedules(s, periods, b), RunSchedules(s, periods, a);
      && (atOnce.Success? <==> first.Success? && RunSchedules(first.value, periods, b).Success?)
      && (atOnce.Success? ==>
            var second := RunSchedules(first.value, periods, b).value;
            && second.schedules == atOnce.value.schedules
            && forall id: nat :: DatesRun(second.executions, id) == DatesRun(atOnce.value.executions, id))
  {
    hide RunSchedules, DatesRun;
    RunInStepsSucceeds(s, periods, a, b);
    if RunSchedules(s, periods, b).Success? {
      RunInStepsSchedules(s, periods, a, b);
      forall id: nat
        ensures DatesRun(RunSchedules(RunSchedules(s, periods, a).value, periods, b).value.executions, id)
             == DatesRun(RunSchedules(s, periods, b).value.executions, id)
      {
        RunInStepsDates(s, RunSchedules(s, periods, a).value, periods, a, b, id);
      }
    }
  }

  lemma RunInStepsSucceeds(s: Store, periods: seq<Period>, a: Date, b: Date)
    requires AtMost(a, b)
    ensures var first := RunSchedules(s, periods, a);
      RunSchedules(s, periods, b).Success? <==> first.Success? && RunSchedules(first.value, periods, b).Success?
  {
    hide Ran, PlanOpen, ExecutionsOf, Plan;
    forall k | 0 <= k < |s.schedules|
      ensures PlanOpen(periods, s.schedules[k], b) <==>
              PlanOpen(periods, s.schedules[k], a) && PlanOpen(periods, Ran(s.schedules[k], a), b)
    {
      ScheduleSplit(s.schedules[k], a, b);
      PlansOpen(periods, s.schedules[k], a, b);
    }
    if RunSchedules(s, periods, a).Success? {
      assert forall k :: 0 <= k < |s.schedules| ==>
          RunSchedules(s, periods, a).value.schedules[k] == Ran(s.schedules[k], a);
    }
  }

  lemma RunInStepsSchedules(s: Store, periods: seq<Period>, a: Date, b: Date)
    requires AtMost(a, b)
    requires RunSchedules(s, periods, b).Success? && RunSchedules(s, periods, a).Success?
    requires RunSchedules(RunSchedules(s, periods, a).value, periods, b).Success?
    ensures RunSchedules(RunSchedules(s, periods, a).value, periods, b).value.schedules ==
            RunSchedules(s, periods, b).value.schedules
  {
    hide Ran, AllOpen, ExecutionsOf;
    forall k | 0 <= k < |s.schedules|
      ensures Ran(Ran(s.schedules[k], a), b) == Ran(s.schedules[k], b)
    {
      ScheduleSplit(s.schedules[k], a, b);
    }
  }

  lemma RunInStepsDates(s: Store, mid: Store, periods: seq<Period>, a: Date, b: Date, id: nat)
    requires AtMost(a, b)
    requires RunSchedules(s, periods, a) == Success(mid)
    requires RunSchedules(s, periods, b).Success? && RunSchedules(mid, periods, b).Success?
    ensures DatesRun(RunSchedules(mid, periods, b).value.executions, id) ==
            DatesRun(RunSchedules(s, periods, b).value.executions, id)
  {
    hide Ran, AllOpen, ExecutionsOf, DatesRun, Plan;
    assert |mid.schedules| == |s.schedules|;
    if id < |s.schedules| {
      assert mid.schedules[id] == Ran(s.schedules[id], a);
      ScheduleSplit(s.schedules[id], a, b);
    }
    hide RunSchedules;
    RunDates(s, periods, a, id);
    RunDates(s, periods, b, id);
    RunDates(mid, periods, b, id);
  }

  lemma PlansOpen(periods: seq<Period>, s: Schedule, a: Date, b: Date)
    requires Plan(s, b) == Plan(s, a) + Plan(Ran(s, a), b)
    ensures PlanOpen(periods, s, b) <==> PlanOpen(periods, s, a) && PlanOpen(periods, Ran(s, a), b)
  {
    hide Ran, Plan, IsOpen;
    var p, q := Plan(s, a), Plan(Ran(s, a), b);
    assert forall i :: 0 <= i < |p| ==> (p + q)[i] == p[i];
    assert forall i :: 0 <= i < |q| ==> (p + q)[|p| + i] == q[i];
  }

  // ---------------------------------------------------------------- any history

  datatype Op =
    | CreateOp(start: Date, end: Option<Date>, runs: Option<nat>)
    | ActivateOp(id: nat)
    | RunOp(periods: seq<Period>, asOf: Date)

  function Apply(s: Store, op: Op): Result<Store, Error> {
    match op
    case CreateOp(start, end, runs) => Create(s, start, end, runs)
    case ActivateOp(id) => Activate(s, id)
    case RunOp(periods, asOf) => RunSchedules(s, periods, asOf)
  }

  /** The store after one call, which changes nothing when it fails. */
  function Step(s: Store, op: Op): Store {
    var r := Apply(s, op);
    if r.Success? then r.value else s
  }

  function History(s: Store, ops: seq<Op>): Store
    decreases |ops|
  {
    if ops == [] then s else History(Step(s, ops[0]), ops[1..])
  }

  /**
   Between `s` and `t` the schedule has run its next `n` monthly dates, one after the other:
   no more than its remaining runs and none after its end date.
   */
  ghost predicate Advanced(s: Store, t: Store, id: nat, n: nat)
    requires id < |s.schedules|
  {
    id < |t.schedules| &&
    var x, y := s.schedules[id], t.schedules[id];
    && DatesRun(t.executions, id) == DatesRun(s.executions, id) + FirstDates(x.nextRunDate, n)
    && y.nextRunDate == Nth(x.nextRunDate, n)
    && y.endDate == x.endDate
    && AsInt(y.remainingRuns) == Fewer(AsInt(x.remainingRuns), n)
    && (x.endDate.Some? ==> forall i :: 0 <= i < n ==> AtMost(Nth(x.nextRunDate, i), x.endDate.value))
  }

  lemma StepAdvances(s: Store, op: Op, id: nat) returns (n: nat)
    requires id < |s.schedules|
    ensures Advanced(s, Step(s, op), id, n)
  {
    n := 0;
    assert Fewer(AsInt(s.schedules[id].remainingRuns), 0) == AsInt(s.schedules[id].remainingRuns);
    if op.RunOp? && Apply(s, op).Success? {
      var x, asOf := s.schedules[id], op.asOf;
      RunDates(s, op.periods, asOf, id);
      if IsDue(x, asOf) {
        AfterDates(x, asOf);
        DatesAreFirst(x.nextRunDate, x.endDate, AsInt(x.remainingRuns), asOf);
        n := |DatesOf(x, asOf)|;
      }
      hide DatesFrom, Ran, ExecutionsOf, AllOpen, DatesRun;
    }
  }

  lemma AdvancedTransitive(s: Store, t: Store, u: Store, id: nat, m: nat, n: nat)
    requires id < |s.schedules| && Advanced(s, t, id, m) && Advanced(t, u, id, n)
    ensures Advanced(s, u, id, m + n)
  {
    var start := s.schedules[id].nextRunDate;
    forall k: nat
      ensures Nth(Nth(start, m), k) == Nth(start, m + k)
    {
      NthPlus(start, m, k);
    }
    hide Nth, DatesRun;
    assert FirstDates(start, m) + FirstDates(Nth(start, m), n) == FirstDates(start, m + n);
    if s.schedules[id].endDate.Some? {
      forall i | 0 <= i < m + n
        ensures AtMost(Nth(start, i), s.schedules[id].endDate.value)
      {
        if i >= m {
          assert Nth(Nth(start, m), i - m) == Nth(start, i);
        }
      }
    }
  }

  /** In any history a schedule only ever advances. */
  lemma {:induction false} HistoryAdvances(s: Store, ops: seq<Op>, id: nat) returns (n: nat)
    requires id < |s.schedules|
    ensures Advanced(s, History(s, ops), id, n)
    decreases |ops|
  {
    if ops == [] {
      n := 0;
      assert Fewer(AsInt(s.schedules[id].remainingRuns), 0) == AsInt(s.schedules[id].remainingRuns);
    } else {
      var m := StepAdvances(s, ops[0], id);
      hide Step, DatesRun;
      var k := HistoryAdvances(Step(s, ops[0]), ops[1..], id);
      AdvancedTransitive(s, Step(s, ops[0]), History(s, ops), id, m, k);
      n := m + k;
    }
  }

  /** The dates run so far are consecutive monthly dates, and the next one is next. */
  ghost predicate Consecutive(s: Store, id: nat, start: Date, n: nat) {
    if id < |s.schedules| then
      DatesRun(s.executions, id) == FirstDates(start, n) && s.schedules[id].nextRunDate == Nth(start, n)
    else DatesRun(s.executions, id) == []
  }

  lemma StepConsecutive(s: Store, op: Op, id: nat, start: Date, n: nat) returns (start': Date, n': nat)
    requires Consecutive(s, id, start, n)
    ensures Consecutive(Step(s, op), id, start', n')
  {
    start', n' := start, n;
    if id < |s.schedules| {
      var m := StepAdvances(s, op, id);
      n' := n + m;
      forall k: nat
        ensures Nth(Nth(start, n), k) == Nth(start, n + k)
      {
        NthPlus(start, n, k);
      }
      hide Step, DatesRun, Nth;
      assert FirstDates(start, n) + FirstDates(Nth(start, n), m) == FirstDates(start, n + m);
    } else {
      if op.RunOp? && Apply(s, op).Success? {
        RunDates(s, op.periods, op.asOf, id);
      }
      if op.CreateOp? && id == |s.schedules| {
        start', n' := op.start, 0;
      }
      hide DatesRun, ExecutionsOf, AllOpen;
    }
  }

  lemma {:induction false} HistoryConsecutive(s: Store, ops: seq<Op>, id: nat, start: Date, n: nat)
    returns (start': Date, n': nat)
    requires Consecutive(s, id, start, n)
    ensures Consecutive(History(s, ops), id, start', n')
    decreases |ops|
  {
    hide Step, Consecutive;
    start', n' := start, n;
    if ops != [] {
      start', n' := StepConsecutive(s, ops[0], id, start, n);
      start', n' := HistoryConsecutive(Step(s, ops[0]), ops[1..], id, start', n');
    }
  }

  /**
   In every history, runs in any order of dates included, the dates executed for a schedule
   fall in consecutive months; so none is executed twice.
   */
  lemma EveryHistoryConsecutive(ops: seq<Op>, id: nat, i: nat, j: nat)
    requires i < j < |DatesRun(History(Store([], []), ops).executions, id)|
    ensures var dates := DatesRun(History(Store([], []), ops).executions, id);
      dates[j].month - dates[i].month == j - i && dates[i] != dates[j]
  {
    var e := Store([], []);
    assert Consecutive(e, id, Date(0, 1), 0);
    var start, n := HistoryConsecutive(e, ops, id, Date(0, 1), 0);
    hide History, DatesRun;
    NthMonth(start, i);
    NthMonth(start, j);
  }
}
