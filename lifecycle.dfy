/**
 * The store over a whole run of the app: every command any view issues,
 * applied one after another from the initial store. The session log and the
 * statistics only change when a focus phase completes, and then together, so
 * the total, the daily counters and the weekly counters always equal the
 * seconds in the log.
 */
module Lifecycle {
  import opened Types
  import AppStore
  import Members
  import Sums
  import DataValidation
  import TimerManager
  import TimerPanel
  import StudyRoom
  import FloatingTimer
  import MusicPlayer

  /** The store-changing commands of the timer views and the player's play/pause button. */
  datatype Command =
    | EffectRun(now: int)
    | PanelMount(memberId: string)
    | PanelToggle(memberId: string, now: int)
    | PanelReset(memberId: string)
    | PanelSave(study: int, brk: int)
    | RoomEnter(memberId: string, timerShown: bool)
    | WidgetToggle
    | WidgetClose(confirmed: bool)
    | PlayerPlayPause

  function Apply(s: AppStore.StoreState, c: Command): AppStore.StoreState {
    match c
    case EffectRun(now) => TimerManager.Step(s, now)
    case PanelMount(id) => TimerPanel.MountTimer(s, id)
    case PanelToggle(id, now) => TimerPanel.Toggle(s, id, now)
    case PanelReset(id) => TimerPanel.Reset(s, id)
    case PanelSave(study, brk) => TimerPanel.SaveCustom(s, study, brk)
    case RoomEnter(id, shown) => StudyRoom.EnterRoom(s, id, shown)
    case WidgetToggle => FloatingTimer.FlipRunning(s)
    case WidgetClose(confirmed) => FloatingTimer.Close(s, confirmed)
    case PlayerPlayPause => MusicPlayer.PlayPause(s)
  }

  /** The store after the commands, first to last. */
  function Run(s: AppStore.StoreState, cs: seq<Command>): AppStore.StoreState {
    if cs == [] then s else Apply(Run(s, cs[..|cs| - 1]), cs[|cs| - 1])
  }

  /** The statistics account for exactly the seconds in the session log. */
  ghost predicate Accounted(s: AppStore.StoreState) {
    && s.stats.total == DataValidation.DurationSum(s.sessions)
    && Sums.SumValues(s.stats.daily) == s.stats.total
    && Sums.SumValues(s.stats.weekly) == s.stats.total
  }

  /** Every logged session belongs to a catalogue member and spans exactly its duration. */
  predicate LogWellFormed(sessions: seq<StudySession>) {
    forall x :: x in sessions ==> Members.IsMember(x.memberId) && x.endTime - x.startTime == x.duration * 1000
  }

  lemma DurationSumAppend(ss: seq<StudySession>, x: StudySession)
    ensures DataValidation.DurationSum(ss + [x]) == DataValidation.DurationSum(ss) + x.duration
  {
    assert (ss + [x])[..|ss|] == ss;
  }

  lemma LogAppend(ss: seq<StudySession>, x: StudySession)
    requires LogWellFormed(ss)
    requires Members.IsMember(x.memberId) && x.endTime - x.startTime == x.duration * 1000
    ensures LogWellFormed(ss + [x])
  {
  }

  /** Apart from the effect, no command touches the log or the statistics. */
  lemma OtherCommandsKeepLog(s: AppStore.StoreState, c: Command)
    requires !c.EffectRun?
    ensures Apply(s, c).sessions == s.sessions && Apply(s, c).stats == s.stats
  {
    match c {
      case PanelMount(id) =>
      case PanelToggle(id, now) =>
      case PanelReset(id) =>
      case PanelSave(study, brk) =>
      case RoomEnter(id, shown) =>
      case WidgetToggle =>
      case WidgetClose(confirmed) =>
      case PlayerPlayPause =>
    }
  }

  /** Appending a session of the catalogue and recording it keeps the accounts and the log well formed. */
  lemma RecordKeepsAccounts(s: AppStore.StoreState, r: AppStore.StoreState, x: StudySession, now: int)
    requires Accounted(s) && LogWellFormed(s.sessions)
    requires r.sessions == s.sessions + [x] && r.stats == AppStore.RecordStats(s.stats, x, now)
    requires Members.IsMember(x.memberId) && x.endTime - x.startTime == x.duration * 1000
    ensures Accounted(r) && LogWellFormed(r.sessions)
  {
    DurationSumAppend(s.sessions, x);
    AppStore.RecordStatsAccounting(s.stats, x, now);
    LogAppend(s.sessions, x);
  }

  /** Outside a focus completion the effect leaves the log and the statistics alone. */
  lemma StepOutsideFocusCompletion(s: AppStore.StoreState, now: int)
    requires !(s.timer.isTimerRunning && s.timer.timeLeft == 0 && !s.timer.isBreakTime && TimerManager.HasKnownOwner(s.timer))
    ensures TimerManager.Step(s, now).sessions == s.sessions && TimerManager.Step(s, now).stats == s.stats
  {
  }

  /** The effect either leaves the log and the statistics alone or, on a focus completion, appends and records one session. */
  lemma StepKeepsAccounts(s: AppStore.StoreState, now: int)
    requires Accounted(s) && LogWellFormed(s.sessions)
    ensures var r := TimerManager.Step(s, now);
      && Accounted(r) && LogWellFormed(r.sessions)
      && |s.sessions| <= |r.sessions| <= |s.sessions| + 1
      && r.sessions[..|s.sessions|] == s.sessions
  {
    if s.timer.isTimerRunning && s.timer.timeLeft == 0 && !s.timer.isBreakTime && TimerManager.HasKnownOwner(s.timer) {
      var r := TimerManager.Step(s, now);
      TimerManager.FocusCompletion(s, now);
      var x := r.sessions[|s.sessions|];
      assert r.sessions == s.sessions + [x];
      assert x.duration * 1000 == s.timer.studyDuration * 60 * 1000;
      RecordKeepsAccounts(s, r, x, now);
    } else {
      StepOutsideFocusCompletion(s, now);
    }
  }

  /**
   * One command either leaves the log and the statistics alone or, on a focus
   * completion, appends one session of a catalogue member and records it.
   */
  lemma ApplyKeepsAccounts(s: AppStore.StoreState, c: Command)
    requires Accounted(s) && LogWellFormed(s.sessions)
    ensures var r := Apply(s, c);
      && Accounted(r) && LogWellFormed(r.sessions)
      && |s.sessions| <= |r.sessions| <= |s.sessions| + 1
      && r.sessions[..|s.sessions|] == s.sessions
  {
    if c.EffectRun? {
      StepKeepsAccounts(s, c.now);
    } else {
      OtherCommandsKeepLog(s, c);
    }
  }

  /** The initial store has an empty log and empty statistics. */
  lemma InitialAccounted()
    ensures Accounted(AppStore.InitialState) && LogWellFormed(AppStore.InitialState.sessions)
  {
    assert Sums.SumValues(AppStore.InitialState.stats.daily) == 0;
    assert Sums.SumValues(AppStore.InitialState.stats.weekly) == 0;
  }

  /** Any run of commands keeps the statistics in step with a well-formed log. */
  lemma {:induction false} RunPreservesAccounts(s: AppStore.StoreState, cs: seq<Command>)
    requires Accounted(s) && LogWellFormed(s.sessions)
    ensures Accounted(Run(s, cs)) && LogWellFormed(Run(s, cs).sessions)
  {
    if cs != [] {
      RunPreservesAccounts(s, cs[..|cs| - 1]);
      ApplyKeepsAccounts(Run(s, cs[..|cs| - 1]), cs[|cs| - 1]);
    }
  }

  /**
   * From the initial store, after any commands, the total, the sum of the
   * daily counters and the sum of the weekly counters all equal the seconds of
   * the logged sessions, and every logged session is a catalogue member's.
   */
  lemma RunKeepsAccounts(cs: seq<Command>)
    ensures Accounted(Run(AppStore.InitialState, cs))
    ensures LogWellFormed(Run(AppStore.InitialState, cs).sessions)
  {
    InitialAccounted();
    RunPreservesAccounts(AppStore.InitialState, cs);
  }

  /** The log only grows, by at most one session per command: a later log starts with an earlier one. */
  lemma {:induction false} RunExtendsLog(s: AppStore.StoreState, cs: seq<Command>)
    requires Accounted(s) && LogWellFormed(s.sessions)
    ensures |s.sessions| <= |Run(s, cs).sessions| <= |s.sessions| + |cs|
    ensures Run(s, cs).sessions[..|s.sessions|] == s.sessions
  {
    if cs != [] {
      var before := Run(s, cs[..|cs| - 1]);
      RunExtendsLog(s, cs[..|cs| - 1]);
      RunPreservesAccounts(s, cs[..|cs| - 1]);
      ApplyKeepsAccounts(before, cs[|cs| - 1]);
      var after := Run(s, cs);
      assert after.sessions[..|before.sessions|] == before.sessions;
      assert after.sessions[..|s.sessions|] == after.sessions[..|before.sessions|][..|s.sessions|];
    }
  }
}
