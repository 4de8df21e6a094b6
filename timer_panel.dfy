/**
 * The focus timer panel of a companion's study room (src/components/Timer.tsx):
 * start/pause, reset, custom lengths and the first-mount initialisation, all
 * written through the shared store, plus the start button's enable rule.
 */
module TimerPanel {
  import opened Wrappers
  import opened AppStore
  import TimerManager

  /** First mount: a stopped timer at zero is set up as a fresh focus phase for this member. */
  function MountTimer(s: StoreState, memberId: string): StoreState {
    if !s.timer.isTimerRunning && s.timer.timeLeft == 0 then
      s.(timer := ApplyTimerPatch(s.timer, TimerPatch(
           timeLeft := Some(s.timer.studyDuration * 60),
           isTimerRunning := Some(false),
           isBreakTime := Some(false),
           studyDuration := Some(s.timer.studyDuration),
           breakDuration := Some(s.timer.breakDuration),
           timerMemberId := Some(Some(memberId)))))
    else s
  }

  /** `toggleTimer`: start for this member (stamping the start time in focus), or pause. */
  function Toggle(s: StoreState, memberId: string, now: int): StoreState {
    if !s.timer.isTimerRunning then
      var started := ApplyTimerPatch(s.timer, TimerPatch(isTimerRunning := Some(true), timerMemberId := Some(Some(memberId))));
      s.(timer := if !s.timer.isBreakTime then started.(currentSessionStartTime := Some(now)) else started)
    else
      s.(timer := ApplyTimerPatch(s.timer, TimerPatch(isTimerRunning := Some(false))))
  }

  /**
   * The `resetTimer` button: stopped, focus phase, owned by this member, start
   * time cleared; the time left is the length of the phase that was current,
   * so a reset during a break yields the break length.
   */
  function Reset(s: StoreState, memberId: string): StoreState {
    ResetFor(s, memberId, s.timer.isBreakTime)
  }

  /**
   * The reset with the phase flag `wasBreak` the handler sees. The window
   * `resetTimer` listener uses the flag of the render it was registered in.
   */
  function ResetFor(s: StoreState, memberId: string, wasBreak: bool): StoreState {
    var cleared := s.timer.(currentSessionStartTime := None);
    s.(timer := ApplyTimerPatch(cleared, TimerPatch(
         isTimerRunning := Some(false),
         timeLeft := Some(if wasBreak then s.timer.breakDuration * 60 else s.timer.studyDuration * 60),
         isBreakTime := Some(false),
         timerMemberId := Some(Some(memberId)))))
  }

  /** `saveCustomSettings`: new lengths and a stopped, full focus phase; no check on the values. */
  function SaveCustom(s: StoreState, study: int, brk: int): StoreState {
    s.(timer := ApplyTimerPatch(s.timer, TimerPatch(
         studyDuration := Some(study),
         breakDuration := Some(brk),
         timeLeft := Some(study * 60),
         isTimerRunning := Some(false),
         isBreakTime := Some(false))))
  }

  /** The start button's `disabled` expression. */
  predicate StartDisabled(t: TimerFields, isBreakCompleted: bool) {
    t.isBreakTime && !isBreakCompleted && !t.isTimerRunning
  }

  class Panel {
    const store: Store
    const memberId: string
    var isBreakCompleted: bool

    /** The panel never sets `isBreakCompleted` to true. */
    predicate Valid()
      reads this
    {
      !isBreakCompleted
    }

    constructor (store: Store, memberId: string)
      ensures this.store == store && this.memberId == memberId
      ensures Valid()
    {
      this.store := store;
      this.memberId := memberId;
      isBreakCompleted := false;
    }

    method Mount()
      modifies store
      ensures store.State() == MountTimer(old(store.State()), memberId)
    {
      if !store.isTimerRunning && store.timeLeft == 0 {
        store.SetTimerState(TimerPatch(
          timeLeft := Some(store.studyDuration * 60),
          isTimerRunning := Some(false),
          isBreakTime := Some(false),
          studyDuration := Some(store.studyDuration),
          breakDuration := Some(store.breakDuration),
          timerMemberId := Some(Some(memberId))));
      }
    }

    method ToggleTimer(now: int)
      modifies store
      ensures store.State() == Toggle(old(store.State()), memberId, now)
    {
      if !store.isTimerRunning {
        var wasBreak := store.isBreakTime;
        store.SetTimerState(TimerPatch(isTimerRunning := Some(true), timerMemberId := Some(Some(memberId))));
        if !wasBreak {
          store.SetCurrentSessionStartTime(Some(now));
        }
      } else {
        store.SetTimerState(TimerPatch(isTimerRunning := Some(false)));
      }
    }

    method ResetTimer()
      modifies this, store
      ensures store.State() == Reset(old(store.State()), memberId)
      ensures Valid()
    {
      var wasBreak := store.isBreakTime;
      var length := if wasBreak then store.breakDuration * 60 else store.studyDuration * 60;
      store.SetCurrentSessionStartTime(None);
      isBreakCompleted := false;
      store.SetTimerState(TimerPatch(
        isTimerRunning := Some(false),
        timeLeft := Some(length),
        isBreakTime := Some(false),
        timerMemberId := Some(Some(memberId))));
    }

    method SaveCustomSettings(study: int, brk: int)
      modifies store
      ensures store.State() == SaveCustom(old(store.State()), study, brk)
    {
      store.SetTimerState(TimerPatch(
        studyDuration := Some(study),
        breakDuration := Some(brk),
        timeLeft := Some(study * 60),
        isTimerRunning := Some(false),
        isBreakTime := Some(false)));
    }

    /** Since `isBreakCompleted` stays false, the button is disabled exactly in a paused break. */
    method IsStartDisabled() returns (disabled: bool)
      requires Valid()
      ensures disabled <==> store.isBreakTime && !store.isTimerRunning
    {
      disabled := StartDisabled(store.Timer(), isBreakCompleted);
    }
  }

  /** Starting makes the timer run for this member and keeps the phase and the time left. */
  lemma ToggleWhilePaused(s: StoreState, memberId: string, now: int)
    requires !s.timer.isTimerRunning
    ensures var t := Toggle(s, memberId, now).timer;
      && t.isTimerRunning && t.timerMemberId == Some(memberId)
      && t.isBreakTime == s.timer.isBreakTime && t.timeLeft == s.timer.timeLeft
      && t.currentSessionStartTime == (if s.timer.isBreakTime then s.timer.currentSessionStartTime else Some(now))
    ensures Toggle(s, memberId, now).sessions == s.sessions && Toggle(s, memberId, now).stats == s.stats
  {
  }

  /** Pausing clears only the running flag. */
  lemma ToggleWhileRunning(s: StoreState, memberId: string, now: int)
    requires s.timer.isTimerRunning
    ensures Toggle(s, memberId, now) == s.(timer := s.timer.(isTimerRunning := false))
  {
  }

  /**
   * In a break, pausing then starting by the owner restores the store; but
   * once paused the panel's start button is disabled, so from the panel only
   * the floating widget can resume the break.
   */
  lemma PauseThenStart(s: StoreState, memberId: string, now: int)
    requires s.timer.isTimerRunning && s.timer.timerMemberId == Some(memberId) && s.timer.isBreakTime
    ensures Toggle(Toggle(s, memberId, now), memberId, now) == s
    ensures StartDisabled(Toggle(s, memberId, now).timer, false)
  {
  }

  /** In focus, pausing then starting by the owner restores the timer but stamps a new session start time. */
  lemma PauseThenStartInFocus(s: StoreState, memberId: string, now: int)
    requires s.timer.isTimerRunning && s.timer.timerMemberId == Some(memberId) && !s.timer.isBreakTime
    ensures Toggle(Toggle(s, memberId, now), memberId, now) == s.(timer := s.timer.(currentSessionStartTime := Some(now)))
    ensures !StartDisabled(Toggle(s, memberId, now).timer, false)
  {
  }

  lemma ResetResult(s: StoreState, memberId: string)
    ensures Reset(s, memberId).timer == TimerFields(
      false,
      if s.timer.isBreakTime then s.timer.breakDuration * 60 else s.timer.studyDuration * 60,
      false,
      s.timer.studyDuration, s.timer.breakDuration,
      Some(memberId), None)
    ensures Reset(s, memberId).sessions == s.sessions && Reset(s, memberId).stats == s.stats
  {
  }

  /** Reset keeps the timer invariant, and a reset timer is idle: the next step leaves it alone. */
  lemma ResetIsIdle(s: StoreState, memberId: string, now: int)
    requires TimerManager.TimerInvariant(s.timer)
    ensures TimerManager.TimerInvariant(Reset(s, memberId).timer)
    ensures TimerManager.Step(Reset(s, memberId), now) == Reset(s, memberId)
  {
  }

  lemma SaveCustomResult(s: StoreState, study: int, brk: int)
    ensures SaveCustom(s, study, brk).timer == s.timer.(
      isTimerRunning := false, timeLeft := study * 60, isBreakTime := false,
      studyDuration := study, breakDuration := brk)
    ensures study >= 0 && brk >= 0 ==> TimerManager.TimerInvariant(SaveCustom(s, study, brk).timer)
    ensures study < 0 ==> SaveCustom(s, study, brk).timer.timeLeft < 0
  {
  }

  /** Mounting only ever writes a stopped timer at zero, and leaves it stopped at the full focus length. */
  lemma MountResult(s: StoreState, memberId: string)
    ensures !(!s.timer.isTimerRunning && s.timer.timeLeft == 0) ==> MountTimer(s, memberId) == s
    ensures !s.timer.isTimerRunning && s.timer.timeLeft == 0 ==>
      MountTimer(s, memberId).timer == s.timer.(timeLeft := s.timer.studyDuration * 60,
                                               isBreakTime := false, timerMemberId := Some(memberId))
  {
  }
}
