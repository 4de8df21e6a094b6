/**
 * The player panel (src/components/MusicPlayer.tsx): it loads the day's picks,
 * steps forward and back through them cyclically, toggles play and pause in
 * the shared store, and prints track lengths as `m:ss`.
 */
module MusicPlayer {
  import opened Wrappers
  import opened Types
  import opened Dates
  import opened Decimal
  import Clock
  import AppStore
  import Music

  /** `(currentIndex + 1) % recommendations.length` */
  function NextIndex(i: nat, n: nat): (j: nat)
    requires n > 0
    ensures j < n
  {
    (i + 1) % n
  }

  /** `currentIndex === 0 ? recommendations.length - 1 : currentIndex - 1` */
  function PreviousIndex(i: nat, n: nat): nat
    requires n > 0
  {
    if i == 0 then n - 1 else i - 1
  }

  /** The index after `k` presses of "next". */
  function Advance(i: nat, n: nat, k: nat): (j: nat)
    requires n > 0
    ensures j < n || (k == 0 && j == i)
  {
    if k == 0 then i else NextIndex(Advance(i, n, k - 1), n)
  }

  /** The mount effect: the first pick becomes the current track unless one is already set. */
  function Mounted(s: AppStore.StoreState, recs: seq<MusicTrack>): AppStore.StoreState {
    if |recs| > 0 && s.currentTrack.None? then s.(currentTrack := Some(recs[0])) else s
  }

  /** `handlePlayPause`: nothing without a current track, otherwise playing flips. */
  function PlayPause(s: AppStore.StoreState): AppStore.StoreState {
    if s.currentTrack.None? then s else s.(isPlaying := !s.isPlaying)
  }

  /** `formatDuration`: whole minutes unpadded, seconds padded to two characters when they print as one. */
  function FormatDuration(seconds: int): string {
    IntToString(seconds / 60) + ":" + Pad2(Clock.JsRem(seconds, 60))
  }

  /** Reads an `m:ss` text back: digits, a colon, then two digits. */
  function ReadDuration(r: string): Option<int> {
    if |r| >= 4 && r[|r| - 3] == ':' && AllDigits(r[..|r| - 3]) && AllDigits(r[|r| - 2..])
    then Some(DigitsValue(r[..|r| - 3]) * 60 + DigitsValue(r[|r| - 2..]))
    else None
  }

  class Player {
    const store: AppStore.Store
    var recommendations: seq<MusicTrack>
    var currentIndex: nat

    /** The index points into the picks once there are any. */
    predicate Valid()
      reads this
    {
      currentIndex == 0 || currentIndex < |recommendations|
    }

    constructor (store: AppStore.Store)
      ensures this.store == store && recommendations == [] && currentIndex == 0 && Valid()
    {
      this.store := store;
      recommendations := [];
      currentIndex := 0;
    }

    /** The mount effect on day `today`; it runs once, before any pick is loaded. */
    method Mount(today: Day)
      modifies this, store
      requires Valid() && recommendations == []
      ensures recommendations == Music.DailyTracks(today) && currentIndex == 0
      ensures store.State() == Mounted(old(store.State()), recommendations)
      ensures Valid()
    {
      var dailyRecs := Music.DailyTracks(today);
      if |dailyRecs| > 0 && store.currentTrack.None? {
        store.SetCurrentTrack(Some(dailyRecs[0]));
      }
      recommendations := dailyRecs;
    }

    method HandlePlayPause()
      modifies store
      ensures store.State() == PlayPause(old(store.State()))
    {
      if store.currentTrack.None? {
        return;
      }
      store.SetIsPlaying(!store.isPlaying);
    }

    method HandleNext()
      modifies this, store
      requires Valid()
      ensures recommendations == old(recommendations) && Valid()
      ensures old(recommendations) == [] ==> currentIndex == old(currentIndex) && store.State() == old(store.State())
      ensures old(recommendations) != [] ==>
        currentIndex == NextIndex(old(currentIndex), |recommendations|) &&
        store.State() == old(store.State()).(currentTrack := Some(recommendations[currentIndex]))
    {
      if |recommendations| == 0 {
        return;
      }
      var nextIndex := NextIndex(currentIndex, |recommendations|);
      currentIndex := nextIndex;
      store.SetCurrentTrack(Some(recommendations[nextIndex]));
    }

    method HandlePrevious()
      modifies this, store
      requires Valid()
      ensures recommendations == old(recommendations) && Valid()
      ensures old(recommendations) == [] ==> currentIndex == old(currentIndex) && store.State() == old(store.State())
      ensures old(recommendations) != [] ==>
        currentIndex == PreviousIndex(old(currentIndex), |recommendations|) &&
        store.State() == old(store.State()).(currentTrack := Some(recommendations[currentIndex]))
    {
      if |recommendations| == 0 {
        return;
      }
      var prevIndex := PreviousIndex(currentIndex, |recommendations|);
      currentIndex := prevIndex;
      store.SetCurrentTrack(Some(recommendations[prevIndex]));
    }
  }

  /** Previous stays in range and undoes next, and next undoes previous. */
  lemma NextPreviousInverse(i: nat, n: nat)
    requires n > 0 && i < n
    ensures PreviousIndex(i, n) < n
    ensures PreviousIndex(NextIndex(i, n), n) == i
    ensures NextIndex(PreviousIndex(i, n), n) == i
  {
  }

  /** One press of "next" from an index in range: up by one, or back to 0 from the last. */
  lemma NextIndexStep(a: nat, n: nat)
    requires a < n
    ensures NextIndex(a, n) == if a + 1 < n then a + 1 else 0
  {
  }

  /** Within one round, `k` presses move `k` places forward, wrapping past the end once. */
  lemma {:induction false} AdvanceWithinRound(i: nat, n: nat, k: nat)
    requires i < n && k <= n
    ensures Advance(i, n, k) == if i + k < n then i + k else i + k - n
  {
    if k > 0 {
      AdvanceWithinRound(i, n, k - 1);
      NextIndexStep(Advance(i, n, k - 1), n);
    }
  }

  /** Pressing "next" as many times as there are picks comes back to the same track, and not sooner. */
  lemma NextCycles(i: nat, n: nat)
    requires i < n
    ensures Advance(i, n, n) == i
    ensures forall k :: 0 < k < n ==> Advance(i, n, k) != i
  {
    AdvanceWithinRound(i, n, n);
    forall k | 0 < k < n ensures Advance(i, n, k) != i {
      AdvanceWithinRound(i, n, k);
    }
  }

  /** Play/pause needs a current track, and pressing it twice restores the state. */
  lemma PlayPauseMeaning(s: AppStore.StoreState)
    ensures s.currentTrack.None? ==> PlayPause(s) == s
    ensures s.currentTrack.Some? ==> PlayPause(s).isPlaying == !s.isPlaying && PlayPause(s).(isPlaying := s.isPlaying) == s
    ensures PlayPause(PlayPause(s)) == s
  {
  }

  /** Opening the player with no track set selects the day's first pick; a set track is kept. */
  lemma MountMeaning(s: AppStore.StoreState, today: Day)
    ensures s.currentTrack.None? ==> Mounted(s, Music.DailyTracks(today)).currentTrack == Some(Music.DailyTracks(today)[0])
    ensures s.currentTrack.Some? ==> Mounted(s, Music.DailyTracks(today)) == s
    ensures Mounted(s, Music.DailyTracks(today)).(currentTrack := s.currentTrack) == s
  {
    var recs := Music.DailyTracks(today);
    Music.DailyTracksMeaning(today);
    assert |recs| == 3;
  }

  /** For a non-negative length the text is the minutes, a colon and two second digits, and it reads back. */
  lemma FormatDurationRoundTrip(seconds: int)
    requires seconds >= 0
    ensures |FormatDuration(seconds)| >= 4
    ensures FormatDuration(seconds)[|FormatDuration(seconds)| - 3] == ':'
    ensures ReadDuration(FormatDuration(seconds)) == Some(seconds)
  {
    var m, s := seconds / 60, seconds % 60;
    Pad2Digits(s);
    DigitsValueOfNatToString(m);
    var r := FormatDuration(seconds);
    assert r == NatToString(m) + ":" + Pad2(s);
    var k := |NatToString(m)|;
    assert r[..|r| - 3] == NatToString(m);
    assert r[|r| - 2..] == Pad2(s);
  }

  /** Below ten minutes the player's text is the timer's `mm:ss` text without its leading zero. */
  lemma DurationMatchesClock(seconds: int)
    requires 0 <= seconds < 600
    ensures Clock.FormatClock(seconds) == "0" + FormatDuration(seconds)
  {
    Pad2Digits(seconds / 60);
  }
}
