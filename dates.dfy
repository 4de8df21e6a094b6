/**
 * Calendar days. A JavaScript `Date` becomes a millisecond count and a calendar
 * day becomes an integer day number counted from 1 January 1970 (a Thursday).
 */
module Dates {
  import opened Wrappers
  import Decimal

  type Day = int

  const MsPerDay: int := 24 * 60 * 60 * 1000

  /** The day a millisecond timestamp falls on (`new Date(ms).toDateString()`). */
  function DayOf(ms: int): Day {
    ms / MsPerDay
  }

  /** The first millisecond of a day (`new Date(dateString)` parses to midnight). */
  function MidnightOf(d: Day): int {
    d * MsPerDay
  }

  /** `getDay()`: 0 for Sunday up to 6 for Saturday. */
  function Weekday(d: Day): (w: int)
    ensures 0 <= w < 7
  {
    (d + 4) % 7
  }

  /** `getWeekStart` (src/store/appStore.ts): the Sunday at most six days back. */
  function WeekStart(d: Day): (w: Day)
    ensures w <= d < w + 7
    ensures Weekday(w) == 0
  {
    d - Weekday(d)
  }

  /** `toDateString()` as a key: one string per day. */
  function DateString(d: Day): string {
    Decimal.IntToString(d)
  }

  /** `new Date(s)` read back as a day; `None` stands for an invalid date. */
  function ParseDate(s: string): Option<Day> {
    Decimal.ParseInt(s)
  }

  lemma DayOfBounds(ms: int)
    ensures MidnightOf(DayOf(ms)) <= ms < MidnightOf(DayOf(ms)) + MsPerDay
  {
  }

  /** Every day of a week has the same week start. */
  lemma SameWeek(d: Day, e: Day)
    requires WeekStart(d) <= e < WeekStart(d) + 7
    ensures WeekStart(e) == WeekStart(d)
  {
    var w := WeekStart(d);
    var k := e - w;
    assert (w + 4) % 7 == 0;
    assert w + 4 == 7 * ((w + 4) / 7);
    assert e + 4 == 7 * ((w + 4) / 7) + k;
    assert (e + 4) % 7 == k;
  }

  lemma ParseDateString(d: Day)
    ensures ParseDate(DateString(d)) == Some(d)
  {
    Decimal.ParseIntToString(d);
  }

  lemma DateStringInjective(a: Day, b: Day)
    ensures DateString(a) == DateString(b) ==> a == b
  {
    Decimal.IntToStringInjective(a, b);
  }
}
