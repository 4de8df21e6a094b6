/**
 * The global timer driver (src/components/TimerManager.tsx): one discrete
 * step of its effect either counts a second down or, at zero, completes the
 * current phase. A focus phase that completes records a session and starts
 * the break; a break that completes stops the timer at the start of focus.
 * The clock (`Date.now()`) is the parameter `now`, in milliseconds.
 */
module TimerManager {
  import opened Wrappers
  import opened Types
  import opened AppStore
  import Members
  import Decimal

  /** `setTimerState({ timeLeft: timeLeft - 1 })`, the interval's body. */
  function Tick(s: StoreState): StoreState {
    s.(timer := ApplyTimerPatch(s.timer, TimerPatch(timeLeft := Some(s.timer.timeLeft - 1))))
  }

  /** The owner, when it is a member of the catalogue (`wayvMembers.find`). */
  predicate HasKnownOwner(t: TimerFields) {
    t.timerMemberId.Some? && Members.IsMember(t.timerMemberId.value)
  }

  /**
   * The session a completed focus phase records: its id is the clock's
   * decimal string, its end is now and its start is the focus length before now.
   */
  function CompletedSession(memberId: string, studyDuration: int, now: int): StudySession {
    StudySession(Decimal.IntToString(now), memberId, now - studyDuration * 60 * 1000, now, studyDuration * 60)
  }

  /** `handleTimerComplete` */
  function Complete(s: StoreState, now: int): StoreState {
    if !HasKnownOwner(s.timer) then s
    else if !s.timer.isBreakTime then
      var session := CompletedSession(s.timer.timerMemberId.value, s.timer.studyDuration, now);
      s.(sessions := s.sessions + [session],
         stats := RecordStats(s.stats, session, now),
         timer := ApplyTimerPatch(s.timer, TimerPatch(isTimerRunning := Some(true),
                                                      timeLeft := Some(s.timer.breakDuration * 60),
                                                      isBreakTime := Some(true))))
    else
      s.(timer := ApplyTimerPatch(s.timer, TimerPatch(isTimerRunning := Some(false),
                                                      timeLeft := Some(s.timer.studyDuration * 60),
                                                      isBreakTime := Some(false))))
  }

  /** One run of the effect: tick while running above zero, complete at zero while running. */
  function Step(s: StoreState, now: int): StoreState {
    if s.timer.isTimerRunning && s.timer.timeLeft > 0 then Tick(s)
    else if s.timer.timeLeft == 0 && s.timer.isTimerRunning then Complete(s, now)
    else s
  }

  method TickTimer(store: Store)
    modifies store
    ensures store.State() == Tick(old(store.State()))
  {
    store.SetTimerState(TimerPatch(timeLeft := Some(store.timeLeft - 1)));
  }

  method HandleTimerComplete(store: Store, now: int)
    modifies store
    ensures store.State() == Complete(old(store.State()), now)
  {
    var owner := store.timerMemberId;
    if owner.None? || !Members.IsMember(owner.value) {
      return;
    }
    if !store.isBreakTime {
      var session := StudySession(Decimal.IntToString(now), owner.value,
                                  now - store.studyDuration * 60 * 1000, now, store.studyDuration * 60);
      store.AddSession(session);
      store.UpdateStats(session, now);
      store.SetTimerState(TimerPatch(isTimerRunning := Some(true),
                                     timeLeft := Some(store.breakDuration * 60),
                                     isBreakTime := Some(true)));
    } else {
      store.SetTimerState(TimerPatch(isTimerRunning := Some(false),
                                     timeLeft := Some(store.studyDuration * 60),
                                     isBreakTime := Some(false)));
    }
  }

  method RunEffect(store: Store, now: int)
    modifies store
    ensures store.State() == Step(old(store.State()), now)
  {
    if store.isTimerRunning && store.timeLeft > 0 {
      TickTimer(store);
    } else if store.timeLeft == 0 && store.isTimerRunning {
      HandleTimerComplete(store, now);
    }
  }

  /** Time left is never negative and the configured lengths are not negative. */
  predicate TimerInvariant(t: TimerFields) {
    t.timeLeft >= 0 && t.studyDuration >= 0 && t.breakDuration >= 0
  }

  /** A step while running above zero takes exactly one second off and changes nothing else. */
  lemma StepWhileCounting(s: StoreState, now: int)
    requires s.timer.isTimerRunning && s.timer.timeLeft > 0
    ensures Step(s, now) == s.(timer := s.timer.(timeLeft := s.timer.timeLeft - 1))
    ensures Step(s, now).timer.timeLeft >= 0
  {
  }

  /** Every step keeps the time left at zero or above (given non-negative lengths). */
  lemma StepPreservesInvariant(s: StoreState, now: int)
    requires TimerInvariant(s.timer)
    ensures TimerInvariant(Step(s, now).timer)
    ensures Step(s, now).timer.studyDuration == s.timer.studyDuration
    ensures Step(s, now).timer.breakDuration == s.timer.breakDuration
  {
  }

  /** A stopped timer is left exactly as it is. */
  lemma StepWhileStopped(s: StoreState, now: int)
    requires !s.timer.isTimerRunning
    ensures Step(s, now) == s
  {
  }

  /**
   * Completion happens only at zero while running: any step that records a
   * session, changes the statistics or changes the phase started there.
   */
  lemma CompletionOnlyAtZero(s: StoreState, now: int)
    requires Step(s, now).sessions != s.sessions
          || Step(s, now).stats != s.stats
          || Step(s, now).timer.isBreakTime != s.timer.isBreakTime
    ensures s.timer.isTimerRunning && s.timer.timeLeft == 0 && HasKnownOwner(s.timer)
  {
  }

  /**
   * A focus phase that completes records exactly one session for the owner,
   * lasting the focus length, whose end lies the focus length after its start;
   * the statistics take it once; the break then runs at full length.
   */
  lemma FocusCompletion(s: StoreState, now: int)
    requires s.timer.isTimerRunning && s.timer.timeLeft == 0 && !s.timer.isBreakTime
    requires HasKnownOwner(s.timer)
    ensures var r := Step(s, now);
      && |r.sessions| == |s.sessions| + 1
      && r.sessions[..|s.sessions|] == s.sessions
      && var x := r.sessions[|s.sessions|];
      && x.memberId == s.timer.timerMemberId.value
      && x.duration == s.timer.studyDuration * 60
      && x.endTime == now
      && x.endTime - x.startTime == s.timer.studyDuration * 60 * 1000
      && r.stats == RecordStats(s.stats, x, now)
      && r.stats.total == s.stats.total + s.timer.studyDuration * 60
      && r.timer == s.timer.(isTimerRunning := true, timeLeft := s.timer.breakDuration * 60, isBreakTime := true)
      && r.preferences == s.preferences && r.currentMemberId == s.currentMemberId
  {
    var x := CompletedSession(s.timer.timerMemberId.value, s.timer.studyDuration, now);
    RecordStatsAccounting(s.stats, x, now);
  }

  /** A break that completes records nothing and stops at the start of a full focus phase. */
  lemma BreakCompletion(s: StoreState, now: int)
    requires s.timer.isTimerRunning && s.timer.timeLeft == 0 && s.timer.isBreakTime
    requires HasKnownOwner(s.timer)
    ensures var r := Step(s, now);
      && r.sessions == s.sessions
      && r.stats == s.stats
      && r.timer == s.timer.(isTimerRunning := false, timeLeft := s.timer.studyDuration * 60, isBreakTime := false)
  {
  }

  /** An owner outside the catalogue makes completion return without any change. */
  lemma CompletionWithUnknownOwner(s: StoreState, now: int)
    requires !HasKnownOwner(s.timer)
    ensures Complete(s, now) == s
    ensures s.timer.timeLeft == 0 ==> Step(s, now) == s
  {
  }
}
