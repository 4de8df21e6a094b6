/**
 * `calculateStreak` (src/store/appStore.ts): the recorded days sorted newest
 * first are counted while the i-th of them lies exactly i days before today.
 */
module Streak {
  import opened Wrappers
  import opened Dates

  /** How many of the days d, d - 1, d - 2, ... are recorded before the first gap. */
  function RunBack(days: set<Day>, d: Day): (n: nat)
    ensures n <= |days|
    decreases |days|
  {
    if d in days then 1 + RunBack(days - {d}, d - 1) else 0
  }

  /**
   * The streak as a property of the set of recorded days: zero when a day
   * after today is recorded (it sorts first and is not 0 days back), otherwise
   * the run of consecutive recorded days ending today. The values recorded for
   * the days play no part: a day recorded with 0 seconds still counts.
   */
  function StreakOf(daily: map<Day, int>, today: Day): nat {
    if exists d :: d in daily && d > today then 0 else RunBack(daily.Keys, today)
  }

  predicate StrictlyDescending(s: seq<Day>) {
    forall i, j :: 0 <= i < j < |s| ==> s[i] > s[j]
  }

  function InsertDescending(x: Day, s: seq<Day>): (r: seq<Day>)
    requires StrictlyDescending(s) && x !in s
    ensures StrictlyDescending(r)
    ensures forall y :: y in r <==> y == x || y in s
  {
    if s == [] then [x]
    else if x > s[0] then [x] + s
    else
      var r := InsertDescending(x, s[1..]);
      assert forall k :: 1 <= k < |s| ==> s[k] < s[0];
      assert forall y :: y in s[1..] ==> y < s[0];
      assert forall j :: 0 <= j < |r| ==> r[j] in r;
      [s[0]] + r
  }

  /** `Object.keys(daily).sort(...)` newest first. */
  method SortDescending(days: set<Day>) returns (dates: seq<Day>)
    ensures StrictlyDescending(dates)
    ensures forall d :: d in dates <==> d in days
  {
    dates := [];
    var rest := days;
    while rest != {}
      invariant StrictlyDescending(dates)
      invariant forall d :: d in dates <==> d in days && d !in rest
      invariant rest <= days
      decreases rest
    {
      ghost var some := SomeElement(rest);
      var d :| d in rest;
      dates := InsertDescending(d, dates);
      rest := rest - {d};
    }
  }

  method CalculateStreak(daily: map<Day, int>, today: Day) returns (streak: nat)
    ensures streak == StreakOf(daily, today)
  {
    var dates := SortDescending(daily.Keys);
    streak := 0;
    var i := 0;
    while i < |dates|
      invariant 0 <= i <= |dates|
      invariant streak == i
      invariant forall j :: 0 <= j < i ==> dates[j] == today - j
    {
      if today - dates[i] == i {
        streak := streak + 1;
      } else {
        break;
      }
      i := i + 1;
    }
    StreakOfSorted(daily, today, dates, i);
  }

  /** A run of exactly `n` recorded days ending at `d`, with `d - n` missing, is what `RunBack` counts. */
  lemma {:induction false} RunBackUnique(days: set<Day>, d: Day, n: nat)
    requires forall e :: d - n < e <= d ==> e in days
    requires d - n !in days
    ensures RunBack(days, d) == n
    decreases n
  {
    if n > 0 {
      assert d in days;
      RunBackUnique(days - {d}, d - 1, n - 1);
    }
  }

  /** The counting loop computes `StreakOf` from the newest-first key list. */
  lemma StreakOfSorted(daily: map<Day, int>, today: Day, dates: seq<Day>, n: nat)
    requires StrictlyDescending(dates)
    requires forall d :: d in dates <==> d in daily
    requires n <= |dates|
    requires forall j :: 0 <= j < n ==> dates[j] == today - j
    requires n == |dates| || dates[n] != today - n
    ensures n == StreakOf(daily, today)
  {
    if exists d :: d in daily && d > today {
      var d :| d in daily && d > today;
      var k :| 0 <= k < |dates| && dates[k] == d;
      assert k == 0 || dates[0] > dates[k];
      assert n == 0;
    } else {
      forall e | today - n < e <= today ensures e in daily {
        assert dates[today - e] == e;
      }
      forall k | 0 <= k < |dates| ensures dates[k] != today - n {
        if n < k {
          assert dates[k] < dates[n];
          if n > 0 {
            assert dates[n] < dates[n - 1];
          } else {
            assert dates[0] in daily;
          }
        } else if k == n && n > 0 {
          assert dates[n] < dates[n - 1];
        }
      }
      RunBackUnique(daily.Keys, today, n);
    }
  }

  lemma {:induction false} RunBackMeaning(days: set<Day>, d: Day)
    ensures forall e :: d - RunBack(days, d) < e <= d ==> e in days
    ensures d - RunBack(days, d) !in days
    decreases |days|
  {
    if d in days {
      var r := RunBack(days - {d}, d - 1);
      RunBackMeaning(days - {d}, d - 1);
      forall e | d - 1 - r < e <= d ensures e in days {
        if e < d {
          assert e in days - {d};
        }
      }
    }
  }

  /**
   * What the streak means: the last `n` days up to today are all recorded and
   * the day before them is not, unless a future day is recorded, which makes it 0.
   */
  lemma StreakMeaning(daily: map<Day, int>, today: Day)
    ensures (exists d :: d in daily && d > today) ==> StreakOf(daily, today) == 0
    ensures (forall d :: d in daily ==> d <= today) ==>
      (forall e :: today - StreakOf(daily, today) < e <= today ==> e in daily) &&
      today - StreakOf(daily, today) !in daily
  {
    RunBackMeaning(daily.Keys, today);
  }

  /** A streak never exceeds the number of recorded days, and it is 0 whenever today is not recorded. */
  lemma StreakBounds(daily: map<Day, int>, today: Day)
    ensures StreakOf(daily, today) <= |daily|
    ensures today !in daily ==> StreakOf(daily, today) == 0
  {
    assert |daily.Keys| == |daily|;
  }

  /** Only which days are recorded matters, not the seconds recorded for them. */
  lemma StreakKeysOnly(daily: map<Day, int>, daily': map<Day, int>, today: Day)
    requires daily.Keys == daily'.Keys
    ensures StreakOf(daily, today) == StreakOf(daily', today)
  {
    assert forall d :: d in daily <==> d in daily';
  }

  /** Recorded values are never looked at: two days recorded with 0 seconds still extend the streak. */
  lemma ZeroDaysCount(today: Day)
    ensures StreakOf(map[today := 60, today - 1 := 60, today - 2 := 0], today) == 3
    ensures StreakOf(map[today := 0, today - 1 := 60], today) == 2
  {
    StreakOfSorted(map[today := 60, today - 1 := 60, today - 2 := 0], today, [today, today - 1, today - 2], 3);
    StreakOfSorted(map[today := 0, today - 1 := 60], today, [today, today - 1], 2);
  }
}
