/**
 * Entering a companion's study room (src/pages/StudyRoom.tsx): an unknown
 * companion is turned away; otherwise the room becomes the current one and a
 * timer that is running for another companion is cancelled and handed over,
 * and the timer panel's `resetTimer` listener, when the panel is on screen,
 * resets it once more.
 */
module StudyRoom {
  import opened Wrappers
  import opened AppStore
  import Members
  import TimerPanel

  /** `timerMemberId && ...`: a missing owner and the empty string are both falsy. */
  predicate OwnerTruthy(t: TimerFields) {
    t.timerMemberId.Some? && t.timerMemberId.value != ""
  }

  /**
   * The room effect for companion `memberId`. When it cancels another
   * companion's timer it also fires the window `resetTimer` event; the timer
   * panel's listener hears it only while the panel is on screen (`timerShown`,
   * the timer tab, which a freshly mounted room opens on). The listener was
   * registered in the same commit, before this effect ran, so the phase flag
   * it holds is the one the store had when the room was entered.
   */
  function EnterRoom(s: StoreState, memberId: string, timerShown: bool): StoreState {
    if !Members.IsMember(memberId) then s
    else
      var s1 := if s.currentMemberId != Some(memberId) then s.(currentMemberId := Some(memberId)) else s;
      if s1.timer.isTimerRunning && OwnerTruthy(s1.timer) && s1.timer.timerMemberId.value != memberId then
        var s2 := s1.(timer := ApplyTimerPatch(s1.timer, TimerPatch(
              isTimerRunning := Some(false),
              timeLeft := Some(25 * 60),
              isBreakTime := Some(false),
              timerMemberId := Some(Some(memberId)))));
        if timerShown then TimerPanel.ResetFor(s2, memberId, s.timer.isBreakTime) else s2
      else s1
  }

  method EnterStudyRoom(store: Store, memberId: string, timerShown: bool)
    modifies store
    ensures store.State() == EnterRoom(old(store.State()), memberId, timerShown)
  {
    if !Members.IsMember(memberId) {
      return;
    }
    var heardBreak := store.isBreakTime;
    if store.currentMemberId != Some(memberId) {
      store.SetCurrentMemberId(Some(memberId));
    }
    var owner := store.timerMemberId;
    if store.isTimerRunning && owner.Some? && owner.value != "" && owner.value != memberId {
      store.SetTimerState(TimerPatch(
        isTimerRunning := Some(false),
        timeLeft := Some(25 * 60),
        isBreakTime := Some(false),
        timerMemberId := Some(Some(memberId))));
      if timerShown {
        var length := if heardBreak then store.breakDuration * 60 else store.studyDuration * 60;
        store.SetCurrentSessionStartTime(None);
        store.SetTimerState(TimerPatch(
          isTimerRunning := Some(false),
          timeLeft := Some(length),
          isBreakTime := Some(false),
          timerMemberId := Some(Some(memberId))));
      }
    }
  }

  /**
   * Switching to another companion cancels a timer running for someone else:
   * stopped, in focus, owned by the new companion. Without the timer panel on
   * screen it is left at 1500 seconds whatever the configured focus length is;
   * with it, the panel's reset listener then sets the length of the phase that
   * was running (the break length when a break was cut short) and clears the
   * session start time. No session is recorded for the lost time.
   */
  lemma SwitchCancelsOtherTimer(s: StoreState, memberId: string, timerShown: bool)
    requires Members.IsMember(memberId)
    requires s.timer.isTimerRunning && OwnerTruthy(s.timer) && s.timer.timerMemberId.value != memberId
    ensures var r := EnterRoom(s, memberId, timerShown);
      && (!timerShown ==> r.timer == s.timer.(isTimerRunning := false, timeLeft := DefaultFocusSeconds,
                                              isBreakTime := false, timerMemberId := Some(memberId)))
      && (timerShown ==> r.timer == s.timer.(isTimerRunning := false,
                                             timeLeft := if s.timer.isBreakTime then s.timer.breakDuration * 60
                                                         else s.timer.studyDuration * 60,
                                             isBreakTime := false, timerMemberId := Some(memberId),
                                             currentSessionStartTime := None))
      && r.currentMemberId == Some(memberId)
      && r.sessions == s.sessions && r.stats == s.stats
  {
  }

  /** The timer is untouched when it is stopped, or owned by this companion or by nobody. */
  lemma TimerKept(s: StoreState, memberId: string, timerShown: bool)
    requires !s.timer.isTimerRunning || !OwnerTruthy(s.timer) || s.timer.timerMemberId == Some(memberId)
    ensures EnterRoom(s, memberId, timerShown).timer == s.timer
    ensures Members.IsMember(memberId) ==> EnterRoom(s, memberId, timerShown).currentMemberId == Some(memberId)
  {
  }

  /** An unknown companion changes nothing. */
  lemma UnknownCompanion(s: StoreState, memberId: string, timerShown: bool)
    requires !Members.IsMember(memberId)
    ensures EnterRoom(s, memberId, timerShown) == s
  {
  }

  /** Entering the same room again changes nothing more. */
  lemma EnterRoomIdempotent(s: StoreState, memberId: string, timerShown: bool)
    ensures EnterRoom(EnterRoom(s, memberId, timerShown), memberId, timerShown) == EnterRoom(s, memberId, timerShown)
  {
  }
}
