/**
 * Reconciliation and archiving of the study records (src/utils/dataValidation.ts):
 * checking the per-day counters against the session log, building one day's
 * archive, archiving the last 30 days, and saving, loading, expiring and
 * summarising archives in the browser's key-value store.
 *
 * A session belongs to the day its start time falls on; the counters are the
 * store's `daily` map. Error messages are kept as structured records.
 */
module DataValidation {
  import opened Wrappers
  import opened Dates
  import opened Types
  import Sums
  import Storage

  function StartDay(s: StudySession): Day {
    DayOf(s.startTime)
  }

  /** The sessions that started on day `d`, in log order. */
  function SessionsOn(ss: seq<StudySession>, d: Day): (r: seq<StudySession>)
    ensures |r| <= |ss|
  {
    if ss == [] then []
    else SessionsOn(ss[..|ss| - 1], d) + (if StartDay(ss[|ss| - 1]) == d then [ss[|ss| - 1]] else [])
  }

  /** The sum of the sessions' durations. */
  function DurationSum(ss: seq<StudySession>): int {
    if ss == [] then 0 else DurationSum(ss[..|ss| - 1]) + ss[|ss| - 1].duration
  }

  /** Seconds the log holds for day `d`. */
  function DayTotal(ss: seq<StudySession>, d: Day): int {
    DurationSum(SessionsOn(ss, d))
  }

  /** A recorded figure agrees with the log when they differ by at most one second. */
  predicate Agrees(recorded: int, actual: int) {
    -1 <= recorded - actual <= 1
  }

  /** The counter days whose figure does not agree with the log; days only in the log are not checked. */
  function MismatchDays(daily: map<Day, int>, ss: seq<StudySession>): set<Day> {
    set d | d in daily && !Agrees(daily[d], DayTotal(ss, d))
  }

  /** One error line: the day, the recorded seconds and the seconds found in the log. */
  datatype Mismatch = Mismatch(date: Day, recorded: int, actual: int)

  datatype Validation = Validation(isValid: bool, errors: seq<Mismatch>)

  function ErrorDates(errors: seq<Mismatch>): set<Day> {
    set e | e in errors :: e.date
  }

  /** The grouping `forEach`: each start day that occurs, with its sessions in log order. */
  method GroupByDay(sessions: seq<StudySession>) returns (byDate: map<Day, seq<StudySession>>)
    ensures forall d :: d in byDate ==> byDate[d] == SessionsOn(sessions, d) && byDate[d] != []
    ensures forall d :: d !in byDate ==> SessionsOn(sessions, d) == []
  {
    byDate := map[];
    var i := 0;
    while i < |sessions|
      invariant 0 <= i <= |sessions|
      invariant forall d :: d in byDate ==> byDate[d] == SessionsOn(sessions[..i], d) && byDate[d] != []
      invariant forall d :: d !in byDate ==> SessionsOn(sessions[..i], d) == []
    {
      var s := sessions[i];
      var day := DayOf(s.startTime);
      assert sessions[..i + 1][..i] == sessions[..i];
      if day !in byDate {
        byDate := byDate[day := []];
      }
      byDate := byDate[day := byDate[day] + [s]];
      i := i + 1;
    }
    assert sessions[..|sessions|] == sessions;
  }

  /**
   * The error lines for the counter days `keys`, in that order: one per day
   * whose counter disagrees with the log by more than one second.
   */
  function ErrorsIn(keys: seq<Day>, daily: map<Day, int>, ss: seq<StudySession>): seq<Mismatch>
    requires forall d :: d in keys ==> d in daily
  {
    if keys == [] then []
    else
      var d := keys[|keys| - 1];
      ErrorsIn(keys[..|keys| - 1], daily, ss)
        + (if !Agrees(daily[d], DayTotal(ss, d)) then [Mismatch(d, daily[d], DayTotal(ss, d))] else [])
  }

  /**
   * Each error line carries a listed day with its counter and its logged
   * seconds; the days with an error are exactly the listed days that
   * disagree; and with no day listed twice no day has two errors.
   */
  lemma {:induction false} ErrorsInMeaning(keys: seq<Day>, daily: map<Day, int>, ss: seq<StudySession>)
    requires forall d :: d in keys ==> d in daily
    ensures forall e :: e in ErrorsIn(keys, daily, ss) ==>
      e.date in keys && e.recorded == daily[e.date] && e.actual == DayTotal(ss, e.date)
    ensures forall d :: d in ErrorDates(ErrorsIn(keys, daily, ss)) <==> d in keys && !Agrees(daily[d], DayTotal(ss, d))
    ensures (forall i, j :: 0 <= i < j < |keys| ==> keys[i] != keys[j]) ==>
      forall i, j :: 0 <= i < j < |ErrorsIn(keys, daily, ss)| ==> ErrorsIn(keys, daily, ss)[i].date != ErrorsIn(keys, daily, ss)[j].date
  {
    if keys != [] {
      var init, d := keys[..|keys| - 1], keys[|keys| - 1];
      assert keys == init + [d];
      ErrorsInMeaning(init, daily, ss);
      var prev := ErrorsIn(init, daily, ss);
      if !Agrees(daily[d], DayTotal(ss, d)) {
        var m := Mismatch(d, daily[d], DayTotal(ss, d));
        AppendError(prev, m);
        if forall i, j :: 0 <= i < j < |keys| ==> keys[i] != keys[j] {
          forall k | 0 <= k < |init| ensures init[k] != d {
            assert init[k] == keys[k];
          }
        }
      } else {
        assert ErrorsIn(keys, daily, ss) == prev;
      }
    }
  }

  /**
   * `validateStudyData`, visiting the counter days in the order `keys` of
   * `Object.keys(dailyStats)`: the error lines are those of `ErrorsIn` in that
   * order, exactly one per counter day that disagrees with the log by more
   * than one second, and the result is valid exactly when there is none.
   */
  method ValidateStudyData(daily: map<Day, int>, keys: seq<Day>, sessions: seq<StudySession>) returns (result: Validation)
    requires forall d :: d in keys <==> d in daily
    requires forall i, j :: 0 <= i < j < |keys| ==> keys[i] != keys[j]
    ensures result.errors == ErrorsIn(keys, daily, sessions)
    ensures ErrorDates(result.errors) == MismatchDays(daily, sessions)
    ensures forall i, j :: 0 <= i < j < |result.errors| ==> result.errors[i].date != result.errors[j].date
    ensures forall e :: e in result.errors ==>
      e.date in daily && e.recorded == daily[e.date] && e.actual == DayTotal(sessions, e.date)
    ensures result.isValid <==> result.errors == []
  {
    var byDate := GroupByDay(sessions);
    var errors: seq<Mismatch> := [];
    for i := 0 to |keys|
      invariant errors == ErrorsIn(keys[..i], daily, sessions)
    {
      var d := keys[i];
      assert keys[..i + 1][..i] == keys[..i] && keys[..i + 1][i] == d;
      var recorded := daily[d];
      var actual := if d in byDate then DurationSum(byDate[d]) else 0;
      assert actual == DayTotal(sessions, d);
      if !Agrees(recorded, actual) {
        errors := errors + [Mismatch(d, recorded, actual)];
      }
    }
    assert keys[..|keys|] == keys;
    ErrorsInMeaning(keys, daily, sessions);
    assert ErrorDates(errors) == MismatchDays(daily, sessions);
    if errors != [] {
      assert errors[0].date in ErrorDates(errors);
    }
    result := Validation(errors == [], errors);
  }

  lemma AppendError(errors: seq<Mismatch>, m: Mismatch)
    ensures ErrorDates(errors + [m]) == ErrorDates(errors) + {m.date}
    ensures forall e :: e in errors + [m] <==> e in errors || e == m
    ensures m.date !in ErrorDates(errors) && (forall i, j :: 0 <= i < j < |errors| ==> errors[i].date != errors[j].date) ==>
      forall i, j :: 0 <= i < j < |errors + [m]| ==> (errors + [m])[i].date != (errors + [m])[j].date
  {
    if m.date !in ErrorDates(errors) {
      forall i | 0 <= i < |errors| ensures errors[i].date != m.date {
        assert errors[i] in errors;
      }
    }
  }

  /** The members `forEach`: seconds per member id, a missing id counting as 0. */
  function MemberTotals(ss: seq<StudySession>): map<string, int> {
    if ss == [] then map[]
    else
      var m := MemberTotals(ss[..|ss| - 1]);
      var x := ss[|ss| - 1];
      Sums.AddTo(m, x.memberId, x.duration)
  }

  /** `createDailyArchive` as a value: `now` is the creation time. */
  function ArchiveOf(date: Day, daily: map<Day, int>, ss: seq<StudySession>, now: int): DailyArchive {
    var day := SessionsOn(ss, date);
    DailyArchive(date, Get0(daily, date), |day|, MemberTotals(day), now, Agrees(Get0(daily, date), DurationSum(day)))
  }

  method CreateDailyArchive(date: Day, daily: map<Day, int>, sessions: seq<StudySession>, now: int)
    returns (archive: DailyArchive)
    ensures archive == ArchiveOf(date, daily, sessions, now)
  {
    var daySessions := SessionsOn(sessions, date);
    var members: map<string, int> := map[];
    var i := 0;
    while i < |daySessions|
      invariant 0 <= i <= |daySessions|
      invariant members == MemberTotals(daySessions[..i])
    {
      assert daySessions[..i + 1][..i] == daySessions[..i];
      var s := daySessions[i];
      members := members[s.memberId := Get0(members, s.memberId) + s.duration];
      i := i + 1;
    }
    assert daySessions[..|daySessions|] == daySessions;
    var totalSeconds := Get0(daily, date);
    var validation := ValidateStudyData(map[date := totalSeconds], [date], daySessions);
    SessionsOnIdempotent(sessions, date);
    if validation.errors != [] {
      assert validation.errors[0].date in ErrorDates(validation.errors);
    }
    assert validation.isValid <==> date !in MismatchDays(map[date := totalSeconds], daySessions);
    archive := DailyArchive(date, totalSeconds, |daySessions|, members, now, validation.isValid);
  }

  lemma {:induction false} SessionsOnIdempotent(ss: seq<StudySession>, d: Day)
    ensures SessionsOn(SessionsOn(ss, d), d) == SessionsOn(ss, d)
  {
    if ss != [] {
      var init, last := ss[..|ss| - 1], ss[|ss| - 1];
      SessionsOnIdempotent(init, d);
      var r := SessionsOn(init, d);
      if StartDay(last) == d {
        assert SessionsOn(ss, d) == r + [last];
        assert (r + [last])[..|r|] == r;
        assert SessionsOn(r + [last], d) == SessionsOn(r, d) + [last];
      } else {
        assert SessionsOn(ss, d) == r;
      }
    }
  }

  /** The member distribution accounts for every second of the sessions. */
  lemma {:induction false} MemberTotalsSum(ss: seq<StudySession>)
    ensures Sums.SumValues(MemberTotals(ss)) == DurationSum(ss)
  {
    if ss != [] {
      var init, x := ss[..|ss| - 1], ss[|ss| - 1];
      var m := MemberTotals(init);
      MemberTotalsSum(init);
      assert DurationSum(ss) == DurationSum(init) + x.duration;
      Sums.SumValuesAdd(m, x.memberId, x.duration);
    }
  }

  /**
   * A day's archive counts that day's sessions, its member figures add up to
   * that day's logged seconds, its total is the day's counter (0 when absent),
   * and it is valid exactly when that total agrees with the log, so a counter
   * day is valid exactly when it is not a mismatch, and a day without a
   * counter is valid exactly when it logged at most one second.
   */
  lemma ArchiveMeaning(date: Day, daily: map<Day, int>, ss: seq<StudySession>, now: int)
    ensures var a := ArchiveOf(date, daily, ss, now);
      && a.date == date
      && a.sessions == |SessionsOn(ss, date)|
      && Sums.SumValues(a.members) == DayTotal(ss, date)
      && a.totalSeconds == (if date in daily then daily[date] else 0)
      && (date in daily ==> (a.isValid <==> date !in MismatchDays(daily, ss)))
      && (a.isValid <==> Agrees(a.totalSeconds, DayTotal(ss, date)))
  {
    MemberTotalsSum(SessionsOn(ss, date));
  }

  /** The days among the `n` days up to `today` that have a counter, newest first. */
  function WindowDays(daily: map<Day, int>, today: Day, n: nat): (r: seq<Day>)
    ensures |r| <= n
  {
    if n == 0 then []
    else
      var prev := WindowDays(daily, today, n - 1);
      var d := today - (n - 1);
      if d in daily then prev + [d] else prev
  }

  /**
   * The window holds, newest first and once each, exactly the days with a
   * counter among the `n` days up to `today`.
   */
  lemma WindowDaysMeaning(daily: map<Day, int>, today: Day, n: nat)
    ensures forall k :: 0 <= k < |WindowDays(daily, today, n)| ==>
      WindowDays(daily, today, n)[k] in daily && today - n < WindowDays(daily, today, n)[k] <= today
    ensures forall i, j :: 0 <= i < j < |WindowDays(daily, today, n)| ==>
      WindowDays(daily, today, n)[i] > WindowDays(daily, today, n)[j]
    ensures forall d :: d in daily && today - n < d <= today ==> d in WindowDays(daily, today, n)
  {
    WindowDaysInRange(daily, today, n);
    WindowDaysComplete(daily, today, n);
  }

  lemma {:induction false} WindowDaysInRange(daily: map<Day, int>, today: Day, n: nat)
    ensures forall k :: 0 <= k < |WindowDays(daily, today, n)| ==>
      WindowDays(daily, today, n)[k] in daily && today - n < WindowDays(daily, today, n)[k] <= today
    ensures forall i, j :: 0 <= i < j < |WindowDays(daily, today, n)| ==>
      WindowDays(daily, today, n)[i] > WindowDays(daily, today, n)[j]
  {
    if n > 0 {
      WindowDaysInRange(daily, today, n - 1);
      var prev := WindowDays(daily, today, n - 1);
      var d := today - (n - 1);
      if d in daily {
        var r := prev + [d];
        assert WindowDays(daily, today, n) == r;
        assert forall k :: 0 <= k < |prev| ==> r[k] == prev[k] && r[k] > d;
      }
    }
  }

  lemma {:induction false} WindowDaysComplete(daily: map<Day, int>, today: Day, n: nat)
    ensures forall d :: d in daily && today - n < d <= today ==> d in WindowDays(daily, today, n)
  {
    if n > 0 {
      WindowDaysComplete(daily, today, n - 1);
      var prev := WindowDays(daily, today, n - 1);
      var d := today - (n - 1);
      if d in daily {
        var r := prev + [d];
        assert WindowDays(daily, today, n) == r;
        forall e | e in daily && today - n < e <= today ensures e in r {
          if e != d {
            assert e in prev;
          } else {
            assert r[|prev|] == e;
          }
        }
      }
    }
  }

  /** The archives of the given days, in the same order. */
  function ArchivesFor(days: seq<Day>, daily: map<Day, int>, ss: seq<StudySession>, now: int): seq<DailyArchive> {
    if days == [] then []
    else ArchivesFor(days[..|days| - 1], daily, ss, now) + [ArchiveOf(days[|days| - 1], daily, ss, now)]
  }

  lemma {:induction false} ArchivesForMeaning(days: seq<Day>, daily: map<Day, int>, ss: seq<StudySession>, now: int)
    ensures |ArchivesFor(days, daily, ss, now)| == |days|
    ensures forall k :: 0 <= k < |days| ==> ArchivesFor(days, daily, ss, now)[k] == ArchiveOf(days[k], daily, ss, now)
  {
    if days != [] {
      var init := days[..|days| - 1];
      ArchivesForMeaning(init, daily, ss, now);
      var prev := ArchivesFor(init, daily, ss, now);
      var r := prev + [ArchiveOf(days[|days| - 1], daily, ss, now)];
      forall k | 0 <= k < |days| ensures r[k] == ArchiveOf(days[k], daily, ss, now) {
        if k < |init| {
          assert r[k] == prev[k] && days[k] == init[k];
        }
      }
    }
  }

  lemma ArchivesStep(daily: map<Day, int>, ss: seq<StudySession>, today: Day, now: int, i: nat)
    ensures ArchivesFor(WindowDays(daily, today, i + 1), daily, ss, now) ==
      if today - i in daily
      then ArchivesFor(WindowDays(daily, today, i), daily, ss, now) + [ArchiveOf(today - i, daily, ss, now)]
      else ArchivesFor(WindowDays(daily, today, i), daily, ss, now)
  {
    var days := WindowDays(daily, today, i);
    if today - i in daily {
      assert WindowDays(daily, today, i + 1) == days + [today - i];
      assert (days + [today - i])[..|days|] == days;
    }
  }

  /**
   * What `archiveHistoricalData` returns: at most 30 archives, newest first,
   * one for each of the last 30 days (today included) that has a counter, and
   * each is that day's archive.
   */
  lemma HistoricalArchivesShape(daily: map<Day, int>, ss: seq<StudySession>, today: Day, now: int)
    ensures var r := ArchivesFor(WindowDays(daily, today, 30), daily, ss, now);
      && |r| <= 30
      && (forall k :: 0 <= k < |r| ==> r[k].date in daily && today - 30 < r[k].date <= today)
      && (forall k :: 0 <= k < |r| ==> r[k] == ArchiveOf(r[k].date, daily, ss, now))
      && (forall i, j :: 0 <= i < j < |r| ==> r[i].date > r[j].date)
  {
    WindowDaysMeaning(daily, today, 30);
    ArchivesForMeaning(WindowDays(daily, today, 30), daily, ss, now);
  }

  /** `archiveHistoricalData`: today and the 29 days before it. */
  method ArchiveHistoricalData(daily: map<Day, int>, sessions: seq<StudySession>, today: Day, now: int)
    returns (archives: seq<DailyArchive>)
    ensures archives == ArchivesFor(WindowDays(daily, today, 30), daily, sessions, now)
  {
    archives := [];
    var i := 0;
    while i < 30
      invariant 0 <= i <= 30
      invariant archives == ArchivesFor(WindowDays(daily, today, i), daily, sessions, now)
    {
      var archiveDate := today - i;
      ArchivesStep(daily, sessions, today, now, i);
      if archiveDate in daily {
        var archive := CreateDailyArchive(archiveDate, daily, sessions, now);
        archives := archives + [archive];
      }
      i := i + 1;
    }
  }

  const ArchivePrefix: string := "wayv_daily_archive_"

  /** The storage key of the archive for a date text. */
  function ArchiveKey(dateText: string): string {
    ArchivePrefix + dateText
  }

  predicate IsArchiveKey(k: string) {
    |k| >= |ArchivePrefix| && k[..|ArchivePrefix|] == ArchivePrefix
  }

  /** What `loadDailyArchive(dateText)` reads: `None` when the key is absent or holds no archive. */
  function LoadAt(items: map<string, Stored>, dateText: string): Option<DailyArchive> {
    var key := ArchiveKey(dateText);
    if key in items && items[key].ArchiveRecord? then Some(items[key].archive) else None
  }

  method SaveDailyArchive(store: Storage.LocalStorage, archive: DailyArchive)
    modifies store
    ensures store.items == old(store.items)[ArchiveKey(DateString(archive.date)) := ArchiveRecord(archive)]
  {
    store.SetItem(ArchiveKey(DateString(archive.date)), ArchiveRecord(archive));
  }

  method LoadDailyArchive(store: Storage.LocalStorage, dateText: string) returns (archive: Option<DailyArchive>)
    ensures archive == LoadAt(store.items, dateText)
    ensures archive.Some? ==> ArchiveKey(dateText) in store.items
  {
    var data := store.GetItem(ArchiveKey(dateText));
    archive := if data.Some? && data.value.ArchiveRecord? then Some(data.value.archive) else None;
  }

  lemma ArchiveKeyInjective(a: string, b: string)
    ensures ArchiveKey(a) == ArchiveKey(b) ==> a == b
  {
    if ArchiveKey(a) == ArchiveKey(b) {
      assert a == ArchiveKey(a)[|ArchivePrefix|..];
    }
  }

  /**
   * Saving and loading: after saving, loading the same date gives the archive
   * back, and every other date loads what it loaded before.
   */
  lemma SaveThenLoad(items: map<string, Stored>, archive: DailyArchive, date: Day)
    ensures var items' := items[ArchiveKey(DateString(archive.date)) := ArchiveRecord(archive)];
      LoadAt(items', DateString(date)) == if date == archive.date then Some(archive) else LoadAt(items, DateString(date))
  {
    ArchiveKeyInjective(DateString(archive.date), DateString(date));
    DateStringInjective(archive.date, date);
  }

  /** The archive a day text maps to, read back from an archive key (`key.replace(prefix, '')`). */
  function KeyDate(k: string): Option<Day>
    requires IsArchiveKey(k)
  {
    ParseDate(k[|ArchivePrefix|..])
  }

  /** The cleanup cut-off: the same instant 90 days earlier. */
  function Cutoff(now: int): int {
    now - 90 * MsPerDay
  }

  /**
   * A key `cleanupOldArchives` removes: an archive key whose date reads back
   * and whose midnight lies strictly before the cut-off. An unreadable date
   * compares false and is kept.
   */
  predicate Expired(k: string, now: int) {
    IsArchiveKey(k) && KeyDate(k).Some? && MidnightOf(KeyDate(k).value) < Cutoff(now)
  }

  method CleanupOldArchives(store: Storage.LocalStorage, now: int)
    modifies store
    ensures forall k :: k in store.items <==> k in old(store.items) && !Expired(k, now)
    ensures forall k :: k in store.items ==> store.items[k] == old(store.items)[k]
  {
    var rest := store.items.Keys;
    while rest != {}
      invariant rest <= old(store.items).Keys
      invariant forall k :: k in store.items <==> k in old(store.items) && !(k !in rest && Expired(k, now))
      invariant forall k :: k in store.items ==> store.items[k] == old(store.items)[k]
      decreases rest
    {
      ghost var some := SomeElement(rest);
      var key :| key in rest;
      if |key| >= |ArchivePrefix| && key[..|ArchivePrefix|] == ArchivePrefix {
        var archiveDate := ParseDate(key[|ArchivePrefix|..]);
        if archiveDate.Some? && MidnightOf(archiveDate.value) < now - 90 * MsPerDay {
          store.RemoveItem(key);
        }
      }
      rest := rest - {key};
    }
  }

  /**
   * Which archives the cleanup removes, by their day relative to today: 91 or
   * more days back always, 89 or fewer never, and exactly 90 days back unless
   * the clock reads exactly midnight.
   */
  lemma CleanupBoundary(now: int, d: Day)
    ensures var k := ArchiveKey(DateString(d));
      && IsArchiveKey(k)
      && (d <= DayOf(now) - 91 ==> Expired(k, now))
      && (d >= DayOf(now) - 89 ==> !Expired(k, now))
      && (d == DayOf(now) - 90 ==> (Expired(k, now) <==> now % MsPerDay != 0))
  {
    var k := ArchiveKey(DateString(d));
    assert k[..|ArchivePrefix|] == ArchivePrefix;
    assert k[|ArchivePrefix|..] == DateString(d);
    ParseDateString(d);
    DayOfBounds(now);
  }

  /** An entry of `getArchiveSummary`; hours are kept as whole tenths of an hour. */
  datatype ArchiveSummary = ArchiveSummary(date: Day, totalTenths: int, sessions: int, isValid: bool)

  /** `Math.round(seconds / 3600 * 10)`: the nearest tenth of an hour, halves rounded up. */
  function TenthsOfHour(seconds: int): int {
    (seconds + 180) / 360
  }

  lemma TenthsOfHourNearest(seconds: int)
    ensures 360 * TenthsOfHour(seconds) - 180 <= seconds < 360 * TenthsOfHour(seconds) + 180
  {
  }

  function SummaryOf(a: DailyArchive): ArchiveSummary {
    ArchiveSummary(a.date, TenthsOfHour(a.totalSeconds), a.sessions, a.isValid)
  }

  /** A key the summary picks up: an archive key holding an archive. */
  predicate HoldsArchive(items: map<string, Stored>, k: string) {
    k in items && IsArchiveKey(k) && items[k].ArchiveRecord?
  }

  function SummariesOf(items: map<string, Stored>, keys: seq<string>): seq<ArchiveSummary>
    requires forall k :: k in keys ==> HoldsArchive(items, k)
  {
    if keys == [] then []
    else
      var last := keys[|keys| - 1];
      assert last in keys && HoldsArchive(items, last);
      SummariesOf(items, keys[..|keys| - 1]) + [SummaryOf(items[last].archive)]
  }

  lemma SummariesAppend(items: map<string, Stored>, keys: seq<string>, key: string)
    requires forall k :: k in keys ==> HoldsArchive(items, k)
    requires HoldsArchive(items, key)
    ensures SummariesOf(items, keys + [key]) == SummariesOf(items, keys) + [SummaryOf(items[key].archive)]
  {
    assert (keys + [key])[..|keys|] == keys;
  }

  predicate NewestFirst(s: seq<ArchiveSummary>) {
    forall i, j :: 0 <= i < j < |s| ==> s[i].date >= s[j].date
  }

  /** Inserts after every entry at least as new, as a stable sort does. */
  function InsertNewestFirst(x: ArchiveSummary, s: seq<ArchiveSummary>): (r: seq<ArchiveSummary>)
    requires NewestFirst(s)
    ensures NewestFirst(r)
    ensures multiset(r) == multiset(s) + multiset{x}
  {
    if s == [] then [x]
    else if s[0].date < x.date then
      NewestFirstHead(s);
      assert s == [s[0]] + s[1..];
      ConsNewest(x, s);
      [x] + s
    else
      var rest := InsertNewestFirst(x, s[1..]);
      assert s == [s[0]] + s[1..];
      NewestFirstHead(s);
      assert forall y :: y in rest ==> y in multiset(rest);
      ConsNewest(s[0], rest);
      assert multiset([s[0]] + rest) == multiset{s[0]} + multiset(rest);
      [s[0]] + rest
  }

  /** A head at least as new as everything after it keeps a newest-first list newest first. */
  lemma ConsNewest(h: ArchiveSummary, t: seq<ArchiveSummary>)
    requires NewestFirst(t) && forall y :: y in t ==> y.date <= h.date
    ensures NewestFirst([h] + t)
  {
    forall i, j | 0 <= i < j < |[h] + t| ensures ([h] + t)[i].date >= ([h] + t)[j].date {
      if i == 0 {
        assert ([h] + t)[j] == t[j - 1];
      }
    }
  }

  lemma NewestFirstHead(s: seq<ArchiveSummary>)
    requires NewestFirst(s) && s != []
    ensures forall y :: y in s[1..] ==> y.date <= s[0].date
  {
    forall y | y in s[1..] ensures y.date <= s[0].date {
      var k :| 0 <= k < |s| - 1 && s[1..][k] == y;
      assert s[k + 1] == y;
    }
  }

  /** `archives.sort(...)` newest first. */
  method SortNewestFirst(s: seq<ArchiveSummary>) returns (r: seq<ArchiveSummary>)
    ensures NewestFirst(r)
    ensures multiset(r) == multiset(s)
  {
    r := [];
    var i := 0;
    while i < |s|
      invariant 0 <= i <= |s|
      invariant NewestFirst(r)
      invariant multiset(r) == multiset(s[..i])
    {
      assert s[..i + 1] == s[..i] + [s[i]];
      r := InsertNewestFirst(s[i], r);
      i := i + 1;
    }
    assert s[..|s|] == s;
  }

  /**
   * `getArchiveSummary`: one entry per stored archive, newest first. The key
   * order of the store is unspecified; `visited` is the order in which this
   * run read the keys.
   */
  method GetArchiveSummary(store: Storage.LocalStorage)
    returns (summaries: seq<ArchiveSummary>, ghost visited: seq<string>)
    ensures forall i, j :: 0 <= i < j < |visited| ==> visited[i] != visited[j]
    ensures forall k :: k in visited <==> HoldsArchive(store.items, k)
    ensures multiset(summaries) == multiset(SummariesOf(store.items, visited))
    ensures NewestFirst(summaries)
  {
    var collected: seq<ArchiveSummary> := [];
    visited := [];
    var rest := store.items.Keys;
    while rest != {}
      invariant rest <= store.items.Keys
      invariant forall i, j :: 0 <= i < j < |visited| ==> visited[i] != visited[j]
      invariant forall k :: k in visited <==> HoldsArchive(store.items, k) && k !in rest
      invariant collected == SummariesOf(store.items, visited)
      decreases rest
    {
      ghost var some := SomeElement(rest);
      var key :| key in rest;
      if |key| >= |ArchivePrefix| && key[..|ArchivePrefix|] == ArchivePrefix {
        var dateText := key[|ArchivePrefix|..];
        assert ArchiveKey(dateText) == key;
        var archive := LoadDailyArchive(store, dateText);
        if archive.Some? {
          assert HoldsArchive(store.items, key) && key !in visited;
          SummariesAppend(store.items, visited, key);
          collected := collected + [SummaryOf(archive.value)];
          visited := visited + [key];
        } else {
          assert !HoldsArchive(store.items, key);
        }
      } else {
        assert !IsArchiveKey(key);
      }
      rest := rest - {key};
    }
    summaries := SortNewestFirst(collected);
  }
}
