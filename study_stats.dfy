/**
 * The statistics panel (src/components/StudyStats.tsx): on every change of
 * the counters or the log it validates them, archives today, and prepares
 * the 7-day and 4-week series; it also shows totals, a per-member breakdown
 * and an average over the days studied. Hours are kept as whole tenths.
 */
module StudyStats {
  import opened Wrappers
  import opened Dates
  import opened Types
  import Decimal
  import Clock
  import Storage
  import DataValidation
  import Sums

  /** One bar of the daily chart: the day, its weekday (the label) and its hours in tenths. */
  datatype DayPoint = DayPoint(day: Day, weekday: int, tenths: int)

  /** One bar of the weekly chart: its number (week 1 to 4), its Sunday and its hours in tenths. */
  datatype WeekPoint = WeekPoint(week: int, weekStart: Day, tenths: int)

  /** The effect's archive step: today is archived only when its counter is positive. */
  method ArchiveToday(store: Storage.LocalStorage, daily: map<Day, int>, sessions: seq<StudySession>, now: int)
    modifies store
    ensures var today := DayOf(now);
      store.items ==
        if today in daily && daily[today] > 0
        then old(store.items)[DataValidation.ArchiveKey(DateString(today)) :=
                                ArchiveRecord(DataValidation.ArchiveOf(today, daily, sessions, now))]
        else old(store.items)
  {
    var today := DayOf(now);
    if today in daily && daily[today] > 0 {
      var todayArchive := DataValidation.CreateDailyArchive(today, daily, sessions, now);
      DataValidation.SaveDailyArchive(store, todayArchive);
    }
  }

  /** `archives.slice(0, 7)`: the first seven, or all when fewer. */
  function FirstSeven<T>(s: seq<T>): (r: seq<T>)
    ensures |r| == if |s| < 7 then |s| else 7
    ensures r == s[..|r|]
  {
    if |s| <= 7 then s else s[..7]
  }

  /**
   * The archive list the panel shows: the first seven of the newest-first
   * summary list `all` of every stored archive, so the seven newest (all of
   * them when fewer), and no archive left out is newer than one shown.
   */
  method RecentArchives(store: Storage.LocalStorage)
    returns (recent: seq<DataValidation.ArchiveSummary>, ghost all: seq<DataValidation.ArchiveSummary>, ghost visited: seq<string>)
    ensures |recent| <= 7
    ensures DataValidation.NewestFirst(recent)
    ensures forall x :: x in recent ==> exists k :: DataValidation.HoldsArchive(store.items, k) &&
                                           x == DataValidation.SummaryOf(store.items[k].archive)
    ensures forall i, j :: 0 <= i < j < |visited| ==> visited[i] != visited[j]
    ensures forall k :: k in visited <==> DataValidation.HoldsArchive(store.items, k)
    ensures multiset(all) == multiset(DataValidation.SummariesOf(store.items, visited))
    ensures DataValidation.NewestFirst(all)
    ensures recent == FirstSeven(all)
    ensures |recent| == if |visited| < 7 then |visited| else 7
    ensures forall x, y :: x in all && x !in recent && y in recent ==> x.date <= y.date
  {
    var summaries;
    summaries, visited := DataValidation.GetArchiveSummary(store);
    all := summaries;
    recent := FirstSeven(summaries);
    forall x | x in recent
      ensures exists k :: DataValidation.HoldsArchive(store.items, k) &&
                         x == DataValidation.SummaryOf(store.items[k].archive)
    {
      assert x in multiset(all);
      SummariesFromVisited(store.items, visited, x);
    }
    SummariesOfLength(store.items, visited);
    assert |all| == |multiset(all)|;
    forall x, y | x in all && x !in recent && y in recent ensures x.date <= y.date {
      var i :| 0 <= i < |all| && all[i] == x;
      var j :| 0 <= j < |recent| && recent[j] == y;
      assert all[j] == y;
      if i < |recent| {
        assert all[i] == recent[i];
      }
    }
  }

  lemma {:induction false} SummariesOfLength(items: map<string, Stored>, keys: seq<string>)
    requires forall k :: k in keys ==> DataValidation.HoldsArchive(items, k)
    ensures |DataValidation.SummariesOf(items, keys)| == |keys|
  {
    if keys != [] {
      SummariesOfLength(items, keys[..|keys| - 1]);
    }
  }

  lemma {:induction false} SummariesFromVisited(items: map<string, Stored>, keys: seq<string>, x: DataValidation.ArchiveSummary)
    requires forall k :: k in keys ==> DataValidation.HoldsArchive(items, k)
    requires x in DataValidation.SummariesOf(items, keys)
    ensures exists k :: DataValidation.HoldsArchive(items, k) && x == DataValidation.SummaryOf(items[k].archive)
  {
    var init, last := keys[..|keys| - 1], keys[|keys| - 1];
    assert last in keys;
    if x != DataValidation.SummaryOf(items[last].archive) {
      assert x in DataValidation.SummariesOf(items, init);
      SummariesFromVisited(items, init, x);
    }
  }

  /** The 7-day series: six days ago up to today, missing days as 0. */
  method LastSevenDays(daily: map<Day, int>, today: Day) returns (points: seq<DayPoint>)
    ensures |points| == 7
    ensures forall k :: 0 <= k < 7 ==> points[k].day == today - 6 + k
    ensures forall k :: 0 <= k < 7 ==> points[k].weekday == Weekday(points[k].day)
    ensures forall k :: 0 <= k < 7 ==> points[k].tenths == DataValidation.TenthsOfHour(Get0(daily, points[k].day))
  {
    points := [];
    var i := 6;
    while i >= 0
      invariant -1 <= i <= 6
      invariant |points| == 6 - i
      invariant forall k :: 0 <= k < |points| ==> points[k].day == today - 6 + k
      invariant forall k :: 0 <= k < |points| ==> points[k].weekday == Weekday(points[k].day)
      invariant forall k :: 0 <= k < |points| ==>
        points[k].tenths == DataValidation.TenthsOfHour(Get0(daily, points[k].day))
    {
      var date := today - i;
      var seconds := Get0(daily, date);
      points := points + [DayPoint(date, Weekday(date), DataValidation.TenthsOfHour(seconds))];
      i := i - 1;
    }
  }

  /** The 4-week series: the week three weeks back up to this week, by Sunday, missing weeks as 0. */
  method LastFourWeeks(weekly: map<Day, int>, today: Day) returns (points: seq<WeekPoint>)
    ensures |points| == 4
    ensures forall k :: 0 <= k < 4 ==> points[k].week == k + 1
    ensures forall k :: 0 <= k < 4 ==> points[k].weekStart == WeekStart(today) - 7 * (3 - k)
    ensures forall k :: 0 <= k < 4 ==>
      points[k].tenths == DataValidation.TenthsOfHour(Get0(weekly, points[k].weekStart))
  {
    points := [];
    var i := 3;
    while i >= 0
      invariant -1 <= i <= 3
      invariant |points| == 3 - i
      invariant forall k :: 0 <= k < |points| ==> points[k].week == k + 1
      invariant forall k :: 0 <= k < |points| ==> points[k].weekStart == WeekStart(today) - 7 * (3 - k)
      invariant forall k :: 0 <= k < |points| ==>
        points[k].tenths == DataValidation.TenthsOfHour(Get0(weekly, points[k].weekStart))
    {
      var weekStart := today - i * 7 - Weekday(today);
      var seconds := Get0(weekly, weekStart);
      points := points + [WeekPoint(4 - i, weekStart, DataValidation.TenthsOfHour(seconds))];
      i := i - 1;
    }
  }

  /** Each weekly bar sits on a Sunday, and the last one is the week that holds today. */
  lemma WeekBarsOnSundays(today: Day, k: int)
    requires 0 <= k < 4
    ensures Weekday(WeekStart(today) - 7 * (3 - k)) == 0
    ensures k == 3 ==> WeekStart(today) <= today < WeekStart(today) + 7
  {
    var w := WeekStart(today);
    var j := 3 - k;
    assert (w + 4) % 7 == 0;
    assert w - 7 * j + 4 == (w + 4) - 7 * j;
  }

  /** `formatTime`: whole hours and the minutes past them, or whole minutes under an hour. */
  function StudyTimeParts(seconds: int): (int, int) {
    var minutes := seconds / 60;
    var hours := minutes / 60;
    if hours > 0 then (hours, Clock.JsRem(minutes, 60)) else (0, minutes)
  }

  function FormatStudyTime(seconds: int): string {
    var (h, m) := StudyTimeParts(seconds);
    if h > 0 then Decimal.IntToString(h) + "小时" + Decimal.IntToString(m) + "分钟"
    else Decimal.IntToString(m) + "分钟"
  }

  /**
   * From one hour on, the text gives the whole hours and the minutes under
   * sixty past them; below an hour it gives the whole minutes. Either way the
   * parts cover the seconds to within the last started minute.
   */
  lemma StudyTimeMeaning(seconds: int)
    requires seconds >= 0
    ensures var (h, m) := StudyTimeParts(seconds);
      && 3600 * h + 60 * m <= seconds < 3600 * h + 60 * m + 60
      && 0 <= m < 60
      && (h > 0 <==> seconds >= 3600)
  {
  }

  /** The number of days with a positive counter. */
  function NonZeroDays(daily: map<Day, int>): nat {
    |set d | d in daily && daily[d] > 0|
  }

  /** The average in tenths of an hour per studied day, 0 with no studied day. */
  function AverageTenths(total: int, days: nat): int {
    if days > 0 then (2 * total + 360 * days) / (720 * days) else 0
  }

  lemma NonZeroDaysMeaning(daily: map<Day, int>)
    ensures NonZeroDays(daily) <= |daily|
    ensures NonZeroDays(daily) == 0 <==> forall d :: d in daily ==> daily[d] <= 0
  {
    var pos := set d | d in daily && daily[d] > 0;
    assert pos <= daily.Keys;
    SubsetCard(pos, daily.Keys);
    if exists d :: d in daily && daily[d] > 0 {
      var d :| d in daily && daily[d] > 0;
      assert d in pos;
    }
  }

  lemma SubsetCard<T>(a: set<T>, b: set<T>)
    requires a <= b
    ensures |a| <= |b|
  {
    assert b == a + (b - a);
  }

  /** With no studied day the average is 0, and otherwise it is the nearest tenth, halves rounded up. */
  lemma AverageMeaning(total: int, days: nat)
    ensures days == 0 ==> AverageTenths(total, days) == 0
    ensures days > 0 ==>
      360 * days * (2 * AverageTenths(total, days) - 1) <= 2 * total < 360 * days * (2 * AverageTenths(total, days) + 1)
  {
    if days > 0 {
      var q := AverageTenths(total, days);
      var n := 720 * days;
      assert n * q <= 2 * total + 360 * days < n * q + n;
      assert 360 * days * (2 * q - 1) == n * q - 360 * days;
      assert 360 * days * (2 * q + 1) == n * q + 360 * days;
    }
  }

  function MemberIdsOf(sessions: seq<StudySession>): set<string> {
    set x | x in sessions :: x.memberId
  }

  /**
   * The `memberStats` reduce is the member fold over the whole log: it has an
   * entry exactly for each member with a session, and the entries add up to
   * every logged second.
   */
  lemma MemberStatsMeaning(sessions: seq<StudySession>)
    ensures DataValidation.MemberTotals(sessions).Keys == MemberIdsOf(sessions)
    ensures Sums.SumValues(DataValidation.MemberTotals(sessions)) == DataValidation.DurationSum(sessions)
  {
    DataValidation.MemberTotalsSum(sessions);
    MemberTotalsKeys(sessions);
  }

  lemma {:induction false} MemberTotalsKeys(sessions: seq<StudySession>)
    ensures DataValidation.MemberTotals(sessions).Keys == MemberIdsOf(sessions)
  {
    if sessions != [] {
      var init, last := sessions[..|sessions| - 1], sessions[|sessions| - 1];
      MemberTotalsKeys(init);
      assert sessions == init + [last];
      assert MemberIdsOf(sessions) == MemberIdsOf(init) + {last.memberId};
    }
  }
}
