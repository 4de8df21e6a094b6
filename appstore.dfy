/**
 * The single application store (src/store/appStore.ts): preferences, the
 * shared Pomodoro timer, the session log, the statistics and the music
 * player's current track. Every view reads and writes this one object.
 *
 * `StoreState` is the store as a value; each method of `Store` is specified
 * by a transition on that value, and the properties of the transitions are
 * proved as lemmas about the values.
 */
module AppStore {
  import opened Wrappers
  import opened Dates
  import opened Types
  import Streak
  import Sums

  /** The timer's part of the store. Durations are minutes, `timeLeft` is seconds. */
  datatype TimerFields = TimerFields(
    isTimerRunning: bool,
    timeLeft: int,
    isBreakTime: bool,
    studyDuration: int,
    breakDuration: int,
    timerMemberId: Option<string>,
    currentSessionStartTime: Option<int>)

  /** The argument of `setTimerState`: the timer fields a caller names. */
  datatype TimerPatch = TimerPatch(
    isTimerRunning: Option<bool> := None,
    timeLeft: Option<int> := None,
    isBreakTime: Option<bool> := None,
    studyDuration: Option<int> := None,
    breakDuration: Option<int> := None,
    timerMemberId: Option<Option<string>> := None)

  datatype PreferencesPatch = PreferencesPatch(
    theme: Option<Theme> := None,
    selectedMemberId: Option<Option<string>> := None,
    soundEnabled: Option<bool> := None,
    notificationsEnabled: Option<bool> := None)

  datatype StoreState = StoreState(
    preferences: UserPreferences,
    currentMemberId: Option<string>,
    timer: TimerFields,
    sessions: seq<StudySession>,
    stats: StudyStats,
    currentTrack: Option<MusicTrack>,
    isPlaying: bool,
    volume: real)

  const DefaultFocusSeconds: int := 25 * 60

  const InitialTimer: TimerFields :=
    TimerFields(false, DefaultFocusSeconds, false, 25, 5, None, None)

  const InitialState: StoreState :=
    StoreState(
      UserPreferences(Dark, None, true, true),
      None,
      InitialTimer,
      [],
      StudyStats(map[], map[], 0, 0),
      None,
      false,
      0.7)

  /** `{ ...prev, ...patch }` on the timer fields. */
  function ApplyTimerPatch(t: TimerFields, p: TimerPatch): TimerFields {
    TimerFields(
      p.isTimerRunning.GetOr(t.isTimerRunning),
      p.timeLeft.GetOr(t.timeLeft),
      p.isBreakTime.GetOr(t.isBreakTime),
      p.studyDuration.GetOr(t.studyDuration),
      p.breakDuration.GetOr(t.breakDuration),
      p.timerMemberId.GetOr(t.timerMemberId),
      t.currentSessionStartTime)
  }

  function MergePreferences(u: UserPreferences, p: PreferencesPatch): UserPreferences {
    UserPreferences(
      p.theme.GetOr(u.theme),
      p.selectedMemberId.GetOr(u.selectedMemberId),
      p.soundEnabled.GetOr(u.soundEnabled),
      p.notificationsEnabled.GetOr(u.notificationsEnabled))
  }

  /**
   * `updateStats` at time `now`: the session's seconds go to today's and this
   * week's counters (keyed by the current date, not by the session's start)
   * and to the total; the streak is computed from the daily map as it was
   * before this addition.
   */
  function RecordStats(stats: StudyStats, session: StudySession, now: int): StudyStats {
    var today := DayOf(now);
    var weekStart := WeekStart(today);
    StudyStats(
      Sums.AddTo(stats.daily, today, session.duration),
      Sums.AddTo(stats.weekly, weekStart, session.duration),
      stats.total + session.duration,
      Streak.StreakOf(stats.daily, today))
  }

  class Store {
    var preferences: UserPreferences
    var currentMemberId: Option<string>
    var isTimerRunning: bool
    var timeLeft: int
    var isBreakTime: bool
    var studyDuration: int
    var breakDuration: int
    var timerMemberId: Option<string>
    var currentSessionStartTime: Option<int>
    var sessions: seq<StudySession>
    var stats: StudyStats
    var currentTrack: Option<MusicTrack>
    var isPlaying: bool
    var volume: real

    function Timer(): TimerFields
      reads this
    {
      TimerFields(isTimerRunning, timeLeft, isBreakTime, studyDuration, breakDuration,
                  timerMemberId, currentSessionStartTime)
    }

    function State(): StoreState
      reads this
    {
      StoreState(preferences, currentMemberId, Timer(), sessions, stats, currentTrack, isPlaying, volume)
    }

    /** The store's initial contents. */
    constructor ()
      ensures State() == InitialState
    {
      preferences := UserPreferences(Dark, None, true, true);
      currentMemberId := None;
      isTimerRunning := false;
      timeLeft := DefaultFocusSeconds;
      isBreakTime := false;
      studyDuration := 25;
      breakDuration := 5;
      timerMemberId := None;
      currentSessionStartTime := None;
      sessions := [];
      stats := StudyStats(map[], map[], 0, 0);
      currentTrack := None;
      isPlaying := false;
      volume := 0.7;
    }

    /** Shallow merge of the named preferences. */
    method SetPreferences(p: PreferencesPatch)
      modifies this
      ensures State() == old(State()).(preferences := MergePreferences(old(preferences), p))
    {
      preferences := MergePreferences(preferences, p);
    }

    method SetCurrentMemberId(id: Option<string>)
      modifies this
      ensures State() == old(State()).(currentMemberId := id)
    {
      currentMemberId := id;
    }

    /**
     * Shallow merge of the named timer fields: each field the patch names takes
     * the patch's value, every other field of the store keeps its value.
     */
    method SetTimerState(p: TimerPatch)
      modifies this
      ensures State() == old(State()).(timer := ApplyTimerPatch(old(Timer()), p))
    {
      var t := ApplyTimerPatch(Timer(), p);
      isTimerRunning := t.isTimerRunning;
      timeLeft := t.timeLeft;
      isBreakTime := t.isBreakTime;
      studyDuration := t.studyDuration;
      breakDuration := t.breakDuration;
      timerMemberId := t.timerMemberId;
    }

    method SetCurrentSessionStartTime(t: Option<int>)
      modifies this
      ensures State() == old(State()).(timer := old(Timer()).(currentSessionStartTime := t))
    {
      currentSessionStartTime := t;
    }

    /** Appends to the session log; earlier entries are untouched. */
    method AddSession(session: StudySession)
      modifies this
      ensures State() == old(State()).(sessions := old(sessions) + [session])
      ensures |sessions| == |old(sessions)| + 1 && sessions[..|old(sessions)|] == old(sessions)
    {
      sessions := sessions + [session];
    }

    method UpdateStats(session: StudySession, now: int)
      modifies this
      ensures State() == old(State()).(stats := RecordStats(old(stats), session, now))
    {
      var today := DayOf(now);
      var weekStart := WeekStart(today);
      var newDaily := stats.daily;
      var newWeekly := stats.weekly;
      newDaily := newDaily[today := Get0(newDaily, today) + session.duration];
      newWeekly := newWeekly[weekStart := Get0(newWeekly, weekStart) + session.duration];
      var streak := Streak.CalculateStreak(stats.daily, today);
      assert newDaily == Sums.AddTo(stats.daily, today, session.duration);
      assert newWeekly == Sums.AddTo(stats.weekly, weekStart, session.duration);
      stats := StudyStats(newDaily, newWeekly, stats.total + session.duration, streak);
    }

    method SetCurrentTrack(track: Option<MusicTrack>)
      modifies this
      ensures State() == old(State()).(currentTrack := track)
    {
      currentTrack := track;
    }

    method SetIsPlaying(playing: bool)
      modifies this
      ensures State() == old(State()).(isPlaying := playing)
    {
      isPlaying := playing;
    }

    method SetVolume(v: real)
      modifies this
      ensures State() == old(State()).(volume := v)
    {
      volume := v;
    }
  }

  /**
   * `setTimerState` is a shallow merge: a named field takes the patch's value,
   * an unnamed one keeps its value, the start time is never touched, an empty
   * patch changes nothing and applying the same patch twice is applying it once.
   */
  lemma TimerPatchMeaning(t: TimerFields, p: TimerPatch)
    ensures var r := ApplyTimerPatch(t, p);
      && r.isTimerRunning == (if p.isTimerRunning.Some? then p.isTimerRunning.value else t.isTimerRunning)
      && r.timeLeft == (if p.timeLeft.Some? then p.timeLeft.value else t.timeLeft)
      && r.isBreakTime == (if p.isBreakTime.Some? then p.isBreakTime.value else t.isBreakTime)
      && r.studyDuration == (if p.studyDuration.Some? then p.studyDuration.value else t.studyDuration)
      && r.breakDuration == (if p.breakDuration.Some? then p.breakDuration.value else t.breakDuration)
      && r.timerMemberId == (if p.timerMemberId.Some? then p.timerMemberId.value else t.timerMemberId)
      && r.currentSessionStartTime == t.currentSessionStartTime
    ensures ApplyTimerPatch(t, TimerPatch()) == t
    ensures ApplyTimerPatch(ApplyTimerPatch(t, p), p) == ApplyTimerPatch(t, p)
  {
  }

  /**
   * `updateStats` is exact accounting: the total and the sums of the daily and
   * weekly counters all grow by the session's duration.
   */
  lemma RecordStatsAccounting(stats: StudyStats, session: StudySession, now: int)
    ensures RecordStats(stats, session, now).total == stats.total + session.duration
    ensures Sums.SumValues(RecordStats(stats, session, now).daily) == Sums.SumValues(stats.daily) + session.duration
    ensures Sums.SumValues(RecordStats(stats, session, now).weekly) == Sums.SumValues(stats.weekly) + session.duration
  {
    DailySumGrows(stats, session, now);
    WeeklySumGrows(stats, session, now);
  }

  lemma DailySumGrows(stats: StudyStats, session: StudySession, now: int)
    ensures Sums.SumValues(RecordStats(stats, session, now).daily) == Sums.SumValues(stats.daily) + session.duration
  {
    Sums.SumValuesAdd(stats.daily, DayOf(now), session.duration);
  }

  lemma WeeklySumGrows(stats: StudyStats, session: StudySession, now: int)
    ensures Sums.SumValues(RecordStats(stats, session, now).weekly) == Sums.SumValues(stats.weekly) + session.duration
  {
    Sums.SumValuesAdd(stats.weekly, WeekStart(DayOf(now)), session.duration);
  }

  /**
   * Only today's daily key and this week's weekly key change; a missing key
   * counts as 0 and is created.
   */
  lemma RecordStatsTouchesOnlyCurrentKeys(stats: StudyStats, session: StudySession, now: int)
    ensures var r := RecordStats(stats, session, now);
      && DayOf(now) in r.daily
      && r.daily[DayOf(now)] == Get0(stats.daily, DayOf(now)) + session.duration
      && r.daily.Keys == stats.daily.Keys + {DayOf(now)}
      && (forall d :: d in stats.daily && d != DayOf(now) ==> r.daily[d] == stats.daily[d])
      && WeekStart(DayOf(now)) in r.weekly
      && r.weekly[WeekStart(DayOf(now))] == Get0(stats.weekly, WeekStart(DayOf(now))) + session.duration
      && r.weekly.Keys == stats.weekly.Keys + {WeekStart(DayOf(now))}
      && (forall w :: w in stats.weekly && w != WeekStart(DayOf(now)) ==> r.weekly[w] == stats.weekly[w])
  {
    var r := RecordStats(stats, session, now);
    Sums.AddToMeaning(stats.daily, DayOf(now), session.duration);
    Sums.AddToMeaning(stats.weekly, WeekStart(DayOf(now)), session.duration);
  }

  /**
   * The streak is taken from the daily map before today's addition, so the
   * first session of a day (today not yet recorded) sets it to 0.
   */
  lemma FirstSessionOfDayResetsStreak(stats: StudyStats, session: StudySession, now: int)
    requires DayOf(now) !in stats.daily
    ensures RecordStats(stats, session, now).streak == 0
  {
    Streak.StreakBounds(stats.daily, DayOf(now));
  }
}
