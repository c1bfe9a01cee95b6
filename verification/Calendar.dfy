/** Days and accounting periods of src/modules/finance-management/management.service.ts. */
module Calendar {
  import opened Wrappers

  /** A day: months counted from year zero, and the day of the month. */
  datatype Date = Date(month: int, day: int)

  predicate Before(a: Date, b: Date) {
    a.month < b.month || (a.month == b.month && a.day < b.day)
  }

  predicate AtMost(a: Date, b: Date) {
    a.month < b.month || (a.month == b.month && a.day <= b.day)
  }

  /** The same day of the next month, or the 28th when it is later. */
  function AddMonth(d: Date): Date {
    Date(d.month + 1, if d.day <= 28 then d.day else 28)
  }

  datatype Period = Period(id: nat, startsOn: Date, endsOn: Date, open: bool)

  predicate Covers(p: Period, d: Date) {
    AtMost(p.startsOn, d) && AtMost(d, p.endsOn)
  }

  /** The first period the day falls in. */
  function PeriodOf(periods: seq<Period>, d: Date): Option<Period> {
    if periods == [] then None
    else if Covers(periods[0], d) then Some(periods[0])
    else PeriodOf(periods[1..], d)
  }

  predicate IsOpen(periods: seq<Period>, d: Date) {
    PeriodOf(periods, d).Some? && PeriodOf(periods, d).value.open
  }
}
