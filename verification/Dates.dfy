/** Service dates. The source compares `YYYY-MM-DD` strings; here a date is the pair of its
    month (counted from January of year 0) and its day, compared lexicographically. A
    malformed day, such as 00 or 45, is kept as a value that is not `ValidDate`. */
module Dates {
  import opened Wrappers

  datatype DateKey = DateKey(month: int, day: int)

  predicate Le(a: DateKey, b: DateKey) {
    a.month < b.month || (a.month == b.month && a.day <= b.day)
  }

  predicate Lt(a: DateKey, b: DateKey) {
    Le(a, b) && a != b
  }

  predicate Within(d: DateKey, start: DateKey, end: DateKey) {
    Le(start, d) && Le(d, end)
  }

  /** The query `start_date <= end && end_date >= start`. */
  predicate Overlaps(start0: DateKey, end0: DateKey, start1: DateKey, end1: DateKey) {
    Le(start0, end1) && Le(start1, end0)
  }

  predicate LeapYear(year: int) {
    year % 4 == 0 && (year % 100 != 0 || year % 400 == 0)
  }

  function LastDay(month: int): (day: int)
    ensures 28 <= day <= 31
  {
    var m := month % 12;
    if m == 1 then (if LeapYear(month / 12) then 29 else 28)
    else if m == 3 || m == 5 || m == 8 || m == 10 then 30
    else 31
  }

  predicate ValidDate(d: DateKey) {
    1 <= d.day <= LastDay(d.month)
  }

  function MonthStart(d: DateKey): DateKey {
    DateKey(d.month, 1)
  }

  function MonthEnd(d: DateKey): DateKey {
    DateKey(d.month, LastDay(d.month))
  }

  /** `1970-01-01` */
  const EPOCH := DateKey(1970 * 12, 1)

  /** Whole months around a date range; malformed bounds are an error. */
  function CoveringMonths(start: DateKey, end: DateKey): (r: Option<(DateKey, DateKey)>)
    ensures r.Some? <==> ValidDate(start) && ValidDate(end)
    ensures r.Some? ==>
              forall d :: ValidDate(d) && start.month <= d.month <= end.month <==>
                          ValidDate(d) && Within(d, r.value.0, r.value.1)
  {
    if ValidDate(start) && ValidDate(end) then Some((MonthStart(start), MonthEnd(end))) else None
  }
}
