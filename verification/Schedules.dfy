/**
 Recurring schedules: `dueDates`, `createSchedule` and `runSchedules` of
 src/modules/finance-management/management.service.ts. A schedule's id is its position; the
 steps of approval are folded into `ActivateSchedule`.
 */
module Schedules {
  import opened Wrappers
  import opened Calendar

  datatype Status = Draft | Active | Completed

  datatype Schedule = Schedule(status: Status, nextRunDate: Date, endDate: Option<Date>, remainingRuns: Option<nat>)

  /** One journal posted for a schedule. */
  datatype Execution = Execution(schedule: nat, runDate: Date)

  datatype Store = Store(schedules: seq<Schedule>, executions: seq<Execution>)

  datatype Error = NotFound | BadRequest

  // ---------------------------------------------------------------- due dates

  /** The date may be run: not after `asOf` nor the end date, with runs remaining. */
  predicate Due(run: Date, end: Option<Date>, remaining: Option<int>, asOf: Date) {
    && AtMost(run, asOf)
    && (end.Some? ==> AtMost(run, end.value))
    && (remaining.Some? ==> remaining.value > 0)
  }

  function Fewer(remaining: Option<int>, n: nat): Option<int> {
    if remaining.Some? then Some(remaining.value - n) else None
  }

  function DatesFrom(run: Date, end: Option<Date>, remaining: Option<int>, asOf: Date): seq<Date>
    decreases asOf.month - run.month + 1
  {
    if Due(run, end, remaining, asOf) then [run] + DatesFrom(AddMonth(run), end, Fewer(remaining, 1), asOf) else []
  }

  function AsInt(remaining: Option<nat>): Option<int> {
    if remaining.Some? then Some(remaining.value) else None
  }

  function DatesOf(s: Schedule, asOf: Date): seq<Date> {
    DatesFrom(s.nextRunDate, s.endDate, AsInt(s.remainingRuns), asOf)
  }

  lemma {:induction false} DatesWithinRemaining(run: Date, end: Option<Date>, remaining: Option<int>, asOf: Date)
    ensures remaining.Some? && remaining.value >= 0 ==> |DatesFrom(run, end, remaining, asOf)| <= remaining.value
    decreases asOf.month - run.month + 1
  {
    if Due(run, end, remaining, asOf) {
      DatesWithinRemaining(AddMonth(run), end, Fewer(remaining, 1), asOf);
    }
  }

  lemma DatesStep(done: seq<Date>, run: Date, end: Option<Date>, remaining: Option<int>, asOf: Date)
    ensures done + DatesFrom(run, end, remaining, asOf) ==
            if Due(run, end, remaining, asOf)
                then done + [run] + DatesFrom(AddMonth(run), end, Fewer(remaining, 1), asOf) else done
  {
  }

  method DueDates(s: Schedule, asOf: Date) returns (dates: seq<Date>)
    ensures dates == DatesOf(s, asOf)
  {
    dates := [];
    var run := s.nextRunDate;
    ghost var remaining := AsInt(s.remainingRuns);
    assert [] + DatesFrom(run, s.endDate, remaining, asOf) == DatesOf(s, asOf);
    hide DatesFrom, DatesOf;
    while && AtMost(run, asOf)
          && (s.endDate.Some? ==> AtMost(run, s.endDate.value))
          && (s.remainingRuns.Some? ==> |dates| < s.remainingRuns.value)
      invariant remaining == Fewer(AsInt(s.remainingRuns), |dates|)
      invariant dates + DatesFrom(run, s.endDate, remaining, asOf) == DatesOf(s, asOf)
      decreases asOf.month - run.month + 1
    {
      DatesStep(dates, run, s.endDate, remaining, asOf);
      dates := dates + [run];
      run := AddMonth(run);
      remaining := Fewer(remaining, 1);
    }
    DatesStep(dates, run, s.endDate, remaining, asOf);
  }

  // ---------------------------------------------------------------- running

  predicate IsDue(s: Schedule, asOf: Date) {
    s.status.Active? && AtMost(s.nextRunDate, asOf)
  }

  /** The schedule after its dates have been executed. */
  function After(s: Schedule, dates: seq<Date>): Schedule
    requires s.remainingRuns.Some? ==> |dates| <= s.remainingRuns.value
  {
    var run := if |dates| > 0 then AddMonth(dates[|dates| - 1]) else s.nextRunDate;
    var remaining := if s.remainingRuns.Some? then Some(s.remainingRuns.value - |dates|) else None;
    var complete := (s.endDate.Some? && Before(s.endDate.value, run)) || remaining == Some(0);
    s.(nextRunDate := run, remainingRuns := remaining, status := if complete then Completed else Active)
  }

  function Ran(s: Schedule, asOf: Date): Schedule {
    DatesWithinRemaining(s.nextRunDate, s.endDate, AsInt(s.remainingRuns), asOf);
    if IsDue(s, asOf) then After(s, DatesOf(s, asOf)) else s
  }

  function RanAll(schedules: seq<Schedule>, asOf: Date): seq<Schedule> {
    seq(|schedules|, k requires 0 <= k < |schedules| => Ran(schedules[k], asOf))
  }

  function Executions(id: nat, dates: seq<Date>): seq<Execution> {
    seq(|dates|, i requires 0 <= i < |dates| => Execution(id, dates[i]))
  }

  /** The dates of one schedule in this run. */
  function Plan(s: Schedule, asOf: Date): seq<Date> {
    if IsDue(s, asOf) then DatesOf(s, asOf) else []
  }

  function ExecutionsOf(schedules: seq<Schedule>, asOf: Date): seq<Execution> {
    if schedules == [] then []
    else
      var k := |schedules| - 1;
      ExecutionsOf(schedules[..k], asOf) + Executions(k, Plan(schedules[k], asOf))
  }

  predicate AllOpen(periods: seq<Period>, schedules: seq<Schedule>, asOf: Date) {
    forall k :: 0 <= k < |schedules| ==> PlanOpen(periods, schedules[k], asOf)
  }

  predicate PlanOpen(periods: seq<Period>, s: Schedule, asOf: Date) {
    forall i :: 0 <= i < |Plan(s, asOf)| ==> IsOpen(periods, Plan(s, asOf)[i])
  }

  /** Nothing is posted unless every date of every plan falls in an open period. */
  function RunSchedules(s: Store, periods: seq<Period>, asOf: Date): Result<Store, Error> {
    if !AllOpen(periods, s.schedules, asOf) then Failure(BadRequest)
    else Success(Store(RanAll(s.schedules, asOf), s.executions + ExecutionsOf(s.schedules, asOf)))
  }

  function Create(s: Store, start: Date, end: Option<Date>, runs: Option<nat>): Result<Store, Error> {
    if runs == Some(0) || (end.Some? && Before(end.value, start)) then Failure(BadRequest)
    else Success(s.(schedules := s.schedules + [Schedule(Draft, start, end, runs)]))
  }

  function Activate(s: Store, id: nat): Result<Store, Error> {
    if id >= |s.schedules| then Failure(NotFound)
    else if !s.schedules[id].status.Draft? then Failure(BadRequest)
    else Success(s.(schedules := s.schedules[id := s.schedules[id].(status := Active)]))
  }

  class ManagementService {
    var schedules: seq<Schedule>
    var executions: seq<Execution>

    constructor ()
      ensures State() == Store([], [])
    {
      schedules, executions := [], [];
    }

    function State(): Store
      reads this
    {
      Store(schedules, executions)
    }

    method CreateSchedule(start: Date, end: Option<Date>, runs: Option<nat>) returns (outcome: Outcome<Error>)
      modifies this
      ensures Follows(old(State()), State(), outcome, Create(old(State()), start, end, runs))
    {
      if runs == Some(0) || (end.Some? && Before(end.value, start)) {
        return Fail(BadRequest);
      }
      schedules := schedules + [Schedule(Draft, start, end, runs)];
      return Pass;
    }

    method ActivateSchedule(id: nat) returns (outcome: Outcome<Error>)
      modifies this
      ensures Follows(old(State()), State(), outcome, Activate(old(State()), id))
    {
      if id >= |schedules| {
        return Fail(NotFound);
      }
      if !schedules[id].status.Draft? {
        return Fail(BadRequest);
      }
      schedules := schedules[id := schedules[id].(status := Active)];
      return Pass;
    }

    /** The plans of all schedules, refused when one of their dates is not in an open period. */
    method CheckedPlans(periods: seq<Period>, asOf: Date) returns (plans: seq<seq<Date>>, open: bool)
      ensures |plans| == |schedules|
      ensures forall k :: 0 <= k < |plans| ==> plans[k] == Plan(schedules[k], asOf)
      ensures open <==> AllOpen(periods, schedules, asOf)
    {
      plans := [];
      for k := 0 to |schedules|
        invariant |plans| == k
        invariant forall j :: 0 <= j < k ==> plans[j] == Plan(schedules[j], asOf)
      {
        var dates: seq<Date> := [];
        if IsDue(schedules[k], asOf) {
          dates := DueDates(schedules[k], asOf);
        }
        plans := plans + [dates];
      }
      open := true;
      for k := 0 to |plans|
        invariant open <==> forall j :: 0 <= j < k ==> PlanOpen(periods, schedules[j], asOf)
      {
        for i := 0 to |plans[k]|
          invariant open <==> && (forall j :: 0 <= j < k ==> PlanOpen(periods, schedules[j], asOf))
                              && forall j :: 0 <= j < i ==> IsOpen(periods, plans[k][j])
        {
          open := open && IsOpen(periods, plans[k][i]);
        }
        assert open <==> ((forall j :: 0 <= j < k ==> PlanOpen(periods, schedules[j], asOf))
                          && PlanOpen(periods, schedules[k], asOf));
      }
    }

    /** One execution per date, in order. */
    method PostDates(id: nat, dates: seq<Date>)
      modifies this`executions
      ensures executions == old(executions) + Executions(id, dates)
    {
      for i := 0 to |dates|
        invariant executions == old(executions) + Executions(id, dates[..i])
      {
        assert Executions(id, dates[..i + 1]) == Executions(id, dates[..i]) + [Execution(id, dates[i])];
        executions := executions + [Execution(id, dates[i])];
      }
      assert dates[..|dates|] == dates;
    }

    /** One plan: its executions, then its schedule. */
    method RunPlan(k: nat, dates: seq<Date>, ghost asOf: Date)
      requires k < |schedules| && dates == Plan(schedules[k], asOf) && IsDue(schedules[k], asOf)
      modifies this
      ensures schedules == old(schedules)[k := Ran(old(schedules)[k], asOf)]
      ensures executions == old(executions) + Executions(k, Plan(old(schedules)[k], asOf))
    {
      PostDates(k, dates);
      DatesWithinRemaining(schedules[k].nextRunDate, schedules[k].endDate, AsInt(schedules[k].remainingRuns), asOf);
      schedules := schedules[k := After(schedules[k], dates)];
    }

    method Run(periods: seq<Period>, asOf: Date) returns (outcome: Outcome<Error>)
      modifies this
      ensures Follows(old(State()), State(), outcome, RunSchedules(old(State()), periods, asOf))
    {
      hide AllOpen, Ran, Executions, IsDue, Plan;
      var plans, open := CheckedPlans(periods, asOf);
      if !open {
        return Fail(BadRequest);
      }
      ghost var before := schedules;
      for k := 0 to |plans|
        invariant |schedules| == |before| == |plans|
        invariant forall j :: 0 <= j < k ==> schedules[j] == Ran(before[j], asOf)
        invariant forall j :: k <= j < |before| ==> schedules[j] == before[j]
        invariant executions == old(executions) + ExecutionsOf(before[..k], asOf)
      {
        assert before[..k + 1][..k] == before[..k];
        NotDue(k, schedules[k], asOf);
        if IsDue(schedules[k], asOf) {
          RunPlan(k, plans[k], asOf);
        }
      }
      assert before[..|before|] == before;
      assert schedules == RanAll(before, asOf);
      return Pass;
    }
  }

  lemma NotDue(k: nat, s: Schedule, asOf: Date)
    ensures !IsDue(s, asOf) ==> Ran(s, asOf) == s && Executions(k, Plan(s, asOf)) == []
  {
  }
}
