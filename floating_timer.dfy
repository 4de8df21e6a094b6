/**
 * The floating timer widget (src/components/FloatingTimer.tsx): when it is
 * shown, and its pause/resume and close buttons, which write the shared store.
 */
module FloatingTimer {
  import opened Wrappers
  import opened AppStore
  import StudyRoom
  import TimerPanel
  import TimerManager

  /** `path.split('/').pop()`: the text after the last '/', or all of it when there is none. */
  function LastSegment(path: string): (r: string)
    ensures |r| <= |path| && r == path[|path| - |r|..]
    ensures '/' !in r
    ensures |r| < |path| ==> path[|path| - |r| - 1] == '/'
  {
    if path == [] then []
    else if path[|path| - 1] == '/' then []
    else
      var r := LastSegment(path[..|path| - 1]);
      assert path[..|path| - 1][|path| - 1 - |r|..] == path[|path| - 1 - |r|..|path| - 1];
      r + [path[|path| - 1]]
  }

  const StudyPrefix: string := "/study/"

  predicate OnStudyPage(path: string) {
    |path| >= |StudyPrefix| && path[..|StudyPrefix|] == StudyPrefix
  }

  /** The visibility effect. */
  predicate Visible(path: string, t: TimerFields) {
    var pathMember: Option<string> := if OnStudyPage(path) then Some(LastSegment(path)) else None;
    if StudyRoom.OwnerTruthy(t) && pathMember == t.timerMemberId then false
    else t.isTimerRunning || (0 < t.timeLeft < 25 * 60)
  }

  /** Something is drawn only for an owner from the catalogue and while visible. */
  predicate Renders(path: string, t: TimerFields) {
    TimerManager.HasKnownOwner(t) && Visible(path, t)
  }

  /** `toggleTimer`: flips the running flag only. */
  function FlipRunning(s: StoreState): StoreState {
    s.(timer := ApplyTimerPatch(s.timer, TimerPatch(isTimerRunning := Some(!s.timer.isTimerRunning))))
  }

  /**
   * `closeTimer`; `confirmed` is the answer to the confirmation dialog, which
   * is asked only while running.
   */
  function Close(s: StoreState, confirmed: bool): StoreState {
    if s.timer.isTimerRunning then
      if !confirmed then s
      else s.(timer := ApplyTimerPatch(s.timer, TimerPatch(
                isTimerRunning := Some(false), timeLeft := Some(25 * 60),
                isBreakTime := Some(false), timerMemberId := Some(None))))
    else
      s.(timer := ApplyTimerPatch(s.timer, TimerPatch(isTimerRunning := Some(false), timerMemberId := Some(None))))
  }

  method ToggleTimer(store: Store)
    modifies store
    ensures store.State() == FlipRunning(old(store.State()))
  {
    store.SetTimerState(TimerPatch(isTimerRunning := Some(!store.isTimerRunning)));
  }

  method CloseTimer(store: Store, confirmed: bool)
    modifies store
    ensures store.State() == Close(old(store.State()), confirmed)
  {
    if store.isTimerRunning {
      if !confirmed {
        return;
      }
      store.SetTimerState(TimerPatch(
        isTimerRunning := Some(false), timeLeft := Some(25 * 60),
        isBreakTime := Some(false), timerMemberId := Some(None)));
    } else {
      store.SetTimerState(TimerPatch(isTimerRunning := Some(false), timerMemberId := Some(None)));
    }
  }

  /** On the study page of the companion who owns the timer, the widget is hidden. */
  lemma HiddenOnOwnersPage(id: string, t: TimerFields)
    requires id != "" && '/' !in id
    requires t.timerMemberId == Some(id)
    ensures !Visible(StudyPrefix + id, t)
  {
    var path := StudyPrefix + id;
    assert path[..|StudyPrefix|] == StudyPrefix;
    LastSegmentAfterSlash(StudyPrefix, id);
  }

  /** Whatever follows a '/' and holds none is the last segment. */
  lemma {:induction false} LastSegmentAfterSlash(a: string, b: string)
    requires |a| > 0 && a[|a| - 1] == '/' && '/' !in b
    ensures LastSegment(a + b) == b
  {
    if b == [] {
      assert a + b == a;
    } else {
      var b' := b[..|b| - 1];
      assert (a + b)[..|a + b| - 1] == a + b';
      assert b[|b| - 1] in b;
      LastSegmentAfterSlash(a, b');
      assert b' + [b[|b| - 1]] == b;
    }
  }

  /** Everywhere else, the widget shows exactly when running or part-way through a phase. */
  lemma VisibleElsewhere(path: string, t: TimerFields)
    requires !OnStudyPage(path) || !StudyRoom.OwnerTruthy(t) || t.timerMemberId != Some(LastSegment(path))
    ensures Visible(path, t) <==> t.isTimerRunning || (0 < t.timeLeft < DefaultFocusSeconds)
  {
  }

  /** An owner outside the catalogue, or no owner, means nothing is drawn. */
  lemma NothingWithoutKnownOwner(path: string, t: TimerFields)
    requires !TimerManager.HasKnownOwner(t)
    ensures !Renders(path, t)
  {
  }

  /** Toggling changes only the running flag, and toggling twice undoes it. */
  lemma FlipRunningInvolution(s: StoreState)
    ensures FlipRunning(s) == s.(timer := s.timer.(isTimerRunning := !s.timer.isTimerRunning))
    ensures FlipRunning(FlipRunning(s)) == s
  {
  }

  /** A break paused on the timer panel and resumed on the widget is as before: the widget keeps owner and start time. */
  lemma PanelPauseWidgetResume(s: StoreState, memberId: string, now: int)
    requires s.timer.isTimerRunning && s.timer.isBreakTime
    ensures FlipRunning(TimerPanel.Toggle(s, memberId, now)) == s
  {
  }

  /** Closing while running: confirmed resets to a stopped full focus phase without owner, declined changes nothing. */
  lemma CloseWhileRunning(s: StoreState, confirmed: bool)
    requires s.timer.isTimerRunning
    ensures confirmed ==> (Close(s, confirmed).timer ==
      s.timer.(isTimerRunning := false, timeLeft := DefaultFocusSeconds, isBreakTime := false, timerMemberId := None))
    ensures !confirmed ==> Close(s, confirmed) == s
  {
  }

  /** Closing while paused drops the owner but keeps the phase and the time left. */
  lemma CloseWhilePaused(s: StoreState, confirmed: bool)
    requires !s.timer.isTimerRunning
    ensures Close(s, confirmed).timer == s.timer.(timerMemberId := None)
  {
  }

  /** After a close that goes through, the widget draws nothing on any page and the timer stays put. */
  lemma ClosedDrawsNothing(s: StoreState, path: string, now: int)
    ensures var r := Close(s, true);
      && !Renders(path, r.timer)
      && TimerManager.Step(r, now) == r
  {
  }
}
