# study-with-wayv: the Pomodoro timer and its bookkeeping, in Dafny

This project models the core of the study-with-wayv app:

- **Timer state machine.** A shared Pomodoro timer lives in one application store, and every view reads and writes it:
  - the one-second tick and the focus/break completion;
  - the timer panel's start/pause, reset, custom lengths and first-mount set-up;
  - the study room's "another companion's running timer is cancelled" rule;
  - the floating widget's visibility rule and its toggle and close buttons.
- **Session log and statistics.** A focus phase that completes appends a session to the log. It also adds its seconds to the daily, weekly and total counters and recomputes the day streak.
- **Archives.** The statistics panel reconciles the counters with the log and builds per-day archives with a per-member breakdown. It saves, loads, cleans up and summarises those archives in the browser's key-value store. It also draws 7-day and 4-week series.
- **Music.** A date-seeded "sort then take k" picks the day's tracks, from the built-in catalogue and from the configurable song library. The library has update, reset, add and remove commands. The player steps cyclically through the picks.
- **Member images.** Member picture paths merge saved overrides over a default table, with a fallback for unknown members.

### How the model is built

- **Mutable objects are classes.** The things the source updates in place are classes whose methods change their fields:
  - the store is `AppStore.Store`;
  - the key-value store is `Storage.LocalStorage`;
  - the playlist and image modules' mutable default tables are `MusicPlaylist.PlaylistConfig` and `MemberImageConfig.ImageConfig`;
  - the timer panel and the player are `TimerPanel.Panel` and `MusicPlayer.Player`.
- **Methods are specified by pure transitions.** Each method's postcondition gives the new state as a pure transition on the value `AppStore.StoreState`, or on a `map`. The lemmas prove the source's promises about those transitions.
- **Loops stay loops.** The source's loops are methods with loop invariants: the streak count, the group-by-day and validation passes, the archive builders, the cleanup and the chart series.
- **Days are integer day numbers.** Day 0 is 1 January 1970, a Thursday. A day's date text is its decimal rendering, and reading it back is proved to give the day.

## Model

| member | source | states |
|---|---|---|
| AppStore.Store.constructor | src/store/appStore.ts:46-87 | The initial store: 1500 seconds left, 25/5-minute lengths, stopped, in focus, no owner, empty log and statistics. |
| AppStore.Store.SetPreferences | src/store/appStore.ts:54-57 | Only the preferences change, merged field by field with the named fields. |
| AppStore.Store.SetCurrentMemberId | src/store/appStore.ts:61 | Only the current member changes. |
| AppStore.Store.SetTimerState | src/store/appStore.ts:71 | The timer becomes the shallow merge of the patch. No other store field changes. |
| AppStore.TimerPatchMeaning | src/store/appStore.ts:71 | A named field takes the patch value, and an unnamed one keeps its value. The session start time is untouched. The empty patch is the identity, and a patch is idempotent. |
| AppStore.Store.SetCurrentSessionStartTime | src/store/appStore.ts:72 | Only the session start time changes. |
| AppStore.Store.AddSession | src/store/appStore.ts:76-79 | The log grows by exactly one entry at the end, and earlier entries are unchanged. |
| AppStore.Store.UpdateStats | src/store/appStore.ts:88-107 | The counting loop makes the stored statistics equal the specified update, streak included. Nothing else changes. |
| AppStore.RecordStatsAccounting | src/store/appStore.ts:88-107 | The total grows by the session's seconds, and so do the sums of the daily and of the weekly counters. |
| AppStore.RecordStatsTouchesOnlyCurrentKeys | src/store/appStore.ts:90-97 | Only today's key and this week's key change. A missing key counts as 0 and is created. Every other key keeps its value. |
| AppStore.FirstSessionOfDayResetsStreak | src/store/appStore.ts:104 | The streak is taken before today's addition, so when today has no key yet it becomes 0. |
| AppStore.Store.SetCurrentTrack | src/store/appStore.ts:113 | Only the current track changes. |
| AppStore.Store.SetIsPlaying | src/store/appStore.ts:114 | Only the playing flag changes. |
| AppStore.Store.SetVolume | src/store/appStore.ts:115 | Only the volume changes. |
| Dates.WeekStart | src/store/appStore.ts:136-141 | The week start is a Sunday, at most six days back. |
| Dates.SameWeek | src/store/appStore.ts:136-141 | All days of one week share the same week start. |
| Streak.SortDescending | src/store/appStore.ts:144 | The recorded days, strictly newest first, each exactly once. |
| Streak.CalculateStreak | src/store/appStore.ts:143-160 | The counting loop returns `StreakOf`: the run of consecutive recorded days ending today, or 0 when a future day is recorded. |
| Streak.StreakMeaning | src/store/appStore.ts:143-160 | The last `streak` days up to today are all recorded, and the day before them is not. A recorded future day gives 0. |
| Streak.StreakBounds | src/store/appStore.ts:143-160 | The streak is at most the number of keys, and it is 0 when today is not a key. |
| Streak.ZeroDaysCount | src/store/appStore.ts:144 | Days recorded with 0 seconds still extend the streak. |
| Streak.StreakKeysOnly | src/store/appStore.ts:144 | Two counter maps with the same days give the same streak, whatever seconds they hold. |
| TimerManager.TickTimer | src/components/TimerManager.tsx:115-118 | The store after one tick: time left goes down by one. |
| TimerManager.HandleTimerComplete | src/components/TimerManager.tsx:28-112 | The store after completion, as the three cases of `Complete`. |
| TimerManager.RunEffect | src/components/TimerManager.tsx:114-122 | One run of the effect: it ticks while running above zero, completes at zero while running, and otherwise does nothing. |
| TimerManager.Step | src/components/TimerManager.tsx:114-122 | One pass of the effect as a value: tick while running above 0, complete at 0 while running, otherwise the store unchanged. Its properties are the lemmas below. |
| TimerManager.StepWhileCounting | src/components/TimerManager.tsx:115-118 | A running tick lowers only the time left, by one, and it never goes below 0. |
| TimerManager.StepPreservesInvariant | src/components/TimerManager.tsx:114-122 | Non-negative time left and non-negative lengths are kept, and the lengths never change. |
| TimerManager.StepWhileStopped | src/components/TimerManager.tsx:114-122 | A stopped timer is never changed by the effect. |
| TimerManager.CompletionOnlyAtZero | src/components/TimerManager.tsx:119-121 | The log, the statistics or the phase change only when the timer is running at 0 with a catalogue owner. |
| TimerManager.FocusCompletion | src/components/TimerManager.tsx:32-82 | Exactly one session is appended: the owner's, `studyDuration*60` seconds long, ending now, spanning `studyDuration*60*1000` ms. It is recorded in the statistics. The timer is then running a break of `breakDuration*60`. |
| TimerManager.BreakCompletion | src/components/TimerManager.tsx:83-111 | No session is recorded. The timer is stopped, in focus, at `studyDuration*60`. |
| TimerManager.CompletionWithUnknownOwner | src/components/TimerManager.tsx:29-30 | With no catalogue owner, completion changes nothing. |
| TimerPanel.Panel.constructor | src/components/Timer.tsx:35 | The break-completed flag starts false. |
| TimerPanel.Panel.Mount | src/components/Timer.tsx:54-63 | The store after the first-mount effect. |
| TimerPanel.MountResult | src/components/Timer.tsx:54-63 | Only a stopped timer at 0 is set up: a full focus phase owned by this member. Otherwise nothing changes. |
| TimerPanel.Panel.ToggleTimer | src/components/Timer.tsx:111-127 | The store after start/pause. |
| TimerPanel.ToggleWhilePaused | src/components/Timer.tsx:112-123 | Starting sets running and the owner. It stamps the start time only in focus. Phase, time left, log and statistics are kept. |
| TimerPanel.ToggleWhileRunning | src/components/Timer.tsx:124-126 | Pausing clears only the running flag. |
| TimerPanel.PauseThenStart | src/components/Timer.tsx:111-127 | In a break, pause then start by the owner restores the store exactly. But after the pause the panel's start button is disabled. |
| TimerPanel.PauseThenStartInFocus | src/components/Timer.tsx:111-127 | In focus, pause then start by the owner restores the timer, except that the session start time is stamped anew. The start button stays enabled. |
| TimerPanel.Panel.ResetTimer | src/components/Timer.tsx:129-142 | The store after a reset. The break-completed flag stays false. |
| TimerPanel.ResetResult | src/components/Timer.tsx:129-142 | Stopped, in focus, owned by this member, start time cleared. Time left is the break length if the reset came in a break, else the focus length. |
| TimerPanel.ResetIsIdle | src/components/Timer.tsx:129-142 | A reset timer keeps the invariant, and the effect leaves it alone. |
| TimerPanel.Panel.SaveCustomSettings | src/components/Timer.tsx:144-154 | The store after saving custom lengths. |
| TimerPanel.SaveCustomResult | src/components/Timer.tsx:144-151 | New lengths, a full focus phase, stopped. There is no positivity check, so a negative length gives negative time left. |
| TimerPanel.Panel.IsStartDisabled | src/components/Timer.tsx:276 | Disabled exactly when in a break and not running, because the flag is never set. |
| Clock.FormatClock | src/components/Timer.tsx:156-160 | The `mm:ss` text: floored minutes, ':', then the remainder in JavaScript's sign convention, each padded to two characters. Its properties are the two lemmas below. |
| Clock.FormatClockRoundTrip | src/components/Timer.tsx:156-160 | Below 6000 s the text is five characters with ':' at index 2, and it reads back to the same seconds. |
| Clock.FormatClockLong | src/components/FloatingTimer.tsx:43-47 | From 100 minutes on, the minutes print in full and the text is longer than five characters. |
| StudyRoom.EnterStudyRoom | src/pages/StudyRoom.tsx:61-80 | The store after the room effect for a companion, including the timer panel's `resetTimer` listener when the panel is on screen. |
| StudyRoom.SwitchCancelsOtherTimer | src/pages/StudyRoom.tsx:67-80 | A running timer of another truthy owner becomes stopped, in focus, owned by the new companion. Without the timer panel on screen it is at the fixed 1500 s. With it, the panel's listener then sets the length of the phase that was running and clears the start time. The log and statistics are kept. |
| StudyRoom.TimerKept | src/pages/StudyRoom.tsx:68 | A stopped timer, a null or empty owner, or the same owner: the timer is unchanged. |
| StudyRoom.UnknownCompanion | src/pages/StudyRoom.tsx:24-29 | An id outside the catalogue changes nothing. |
| StudyRoom.EnterRoomIdempotent | src/pages/StudyRoom.tsx:61-80 | Entering the same room twice is entering it once. |
| FloatingTimer.LastSegment | src/components/FloatingTimer.tsx:29-30 | The result is the path's suffix after its last '/'. |
| FloatingTimer.Visible | src/components/FloatingTimer.tsx:27-36 | The widget's visibility: hidden on the truthy owner's own study page, otherwise shown while running or with 0 < time left < 1500. Proved in the two lemmas below. |
| FloatingTimer.Renders | src/components/FloatingTimer.tsx:39-41 | Something is drawn only for a catalogue owner and while visible. |
| FloatingTimer.HiddenOnOwnersPage | src/components/FloatingTimer.tsx:27-32 | On the owner's own study page the widget is hidden. |
| FloatingTimer.VisibleElsewhere | src/components/FloatingTimer.tsx:33-36 | Elsewhere it is visible iff running or 0 < time left < 1500. |
| FloatingTimer.NothingWithoutKnownOwner | src/components/FloatingTimer.tsx:39-41 | Nothing renders without a catalogue owner. |
| FloatingTimer.ToggleTimer | src/components/FloatingTimer.tsx:49-52 | The store after the widget's toggle. |
| FloatingTimer.FlipRunningInvolution | src/components/FloatingTimer.tsx:49-52 | Toggle flips only the running flag, and toggling twice restores the store. |
| FloatingTimer.PanelPauseWidgetResume | src/components/FloatingTimer.tsx:49-52 | A break paused on the panel and resumed on the widget is exactly as before. |
| FloatingTimer.CloseTimer | src/components/FloatingTimer.tsx:54-66 | The store after closing, given the confirmation answer. |
| FloatingTimer.CloseWhileRunning | src/components/FloatingTimer.tsx:58-61 | Confirmed: stopped, 1500 s, focus, no owner. Declined: no change. |
| FloatingTimer.CloseWhilePaused | src/components/FloatingTimer.tsx:62-65 | Only the owner is cleared. Time left and phase are kept. |
| FloatingTimer.ClosedDrawsNothing | src/components/FloatingTimer.tsx:54-66 | After a confirmed close nothing renders and the effect is idle. |
| DataValidation.GroupByDay | src/utils/dataValidation.ts:23-29 | Each start day that occurs maps to its sessions in log order. Days without sessions are absent. |
| DataValidation.ValidateStudyData | src/utils/dataValidation.ts:15-47 | The errors are `ErrorsIn` for the counter days in `Object.keys` order. So there is exactly one error per counter day that differs from the log by more than 1 s, carrying both figures. Log-only days are not checked. Valid iff no error. |
| DataValidation.ErrorsInMeaning | src/utils/dataValidation.ts:31-41 | Each error carries a listed day with its counter and logged seconds. The error days are exactly the listed days that disagree, and distinct keys give distinct error days. |
| DataValidation.CreateDailyArchive | src/utils/dataValidation.ts:52-79 | The member loop and the one-day validation produce the specified archive. |
| DataValidation.ArchiveMeaning | src/utils/dataValidation.ts:52-79 | An archive holds the count of the day's sessions. Its member figures sum to the day's logged seconds, and its total is the counter (0 if absent). It is valid iff that total agrees with the log, so a counter day is valid iff it is no mismatch. |
| DataValidation.MemberTotalsSum | src/utils/dataValidation.ts:63-66 | The per-member figures add up to the sessions' seconds. |
| DataValidation.ArchiveHistoricalData | src/utils/dataValidation.ts:84-104 | The loop returns one archive per counter day of the last 30, newest first. |
| DataValidation.HistoricalArchivesShape | src/utils/dataValidation.ts:91-101 | At most 30 archives, only for counter days in the window, strictly newest first, each that day's archive. |
| DataValidation.WindowDaysMeaning | src/utils/dataValidation.ts:91-101 | The window lists every counter day of the last n days and nothing else, newest first. |
| DataValidation.SaveDailyArchive | src/utils/dataValidation.ts:109-116 | Only the key `wayv_daily_archive_<date>` changes, and it holds the archive. |
| DataValidation.LoadDailyArchive | src/utils/dataValidation.ts:121-130 | The archive under the date's key, or nothing when the key is absent or holds something else. |
| DataValidation.SaveThenLoad | src/utils/dataValidation.ts:109-130 | Loading the saved date gives the archive back. Other dates load as before. |
| DataValidation.ArchiveKeyInjective | src/utils/dataValidation.ts:111 | Distinct date texts give distinct keys. |
| DataValidation.CleanupOldArchives | src/utils/dataValidation.ts:135-151 | Exactly the expired archive keys are removed. The remaining values are unchanged. |
| DataValidation.CleanupBoundary | src/utils/dataValidation.ts:135-151 | Archives 91 or more days old go, those 89 or fewer stay. Day 90 goes unless the clock is exactly at midnight. |
| DataValidation.TenthsOfHourNearest | src/utils/dataValidation.ts:166 | The tenths are the nearest tenth of an hour, halves up. |
| DataValidation.SortNewestFirst | src/utils/dataValidation.ts:174 | The output is newest first and a permutation of the input. |
| DataValidation.GetArchiveSummary | src/utils/dataValidation.ts:156-175 | One summary per stored archive key, each key visited once, newest first. |
| StudyStats.ArchiveToday | src/components/StudyStats.tsx:22-27 | Today's archive is saved only when today's counter is positive. Otherwise storage is unchanged. |
| StudyStats.RecentArchives | src/components/StudyStats.tsx:30-31 | The first seven of the newest-first summaries of all stored archives, each archive once: min(7, number of archives) entries, each of a stored archive. No archive left out is newer than one shown. |
| StudyStats.FirstSeven | src/components/StudyStats.tsx:31 | The first min(7, n) elements. |
| StudyStats.LastSevenDays | src/components/StudyStats.tsx:34-47 | Exactly seven points, oldest to today, with weekday labels. A missing day counts as 0. |
| StudyStats.LastFourWeeks | src/components/StudyStats.tsx:50-64 | Exactly four points, weeks 1 to 4, on the week starts three, two, one and zero weeks back. A missing week counts as 0. |
| StudyStats.WeekBarsOnSundays | src/components/StudyStats.tsx:50-64 | Every weekly bar starts on a Sunday, and the last one holds today. |
| StudyStats.FormatStudyTime | src/components/StudyStats.tsx:67-75 | `<h>小时<m>分钟` from one hour on, else `<m>分钟`, with the parts of `StudyTimeParts`. Their meaning is the lemma below. |
| StudyStats.StudyTimeMeaning | src/components/StudyStats.tsx:67-75 | Hours and minutes cover the seconds to within a minute, minutes are below 60, and hours show iff at least one hour. |
| StudyStats.NonZeroDays | src/components/StudyStats.tsx:78 | The number of days with a positive counter. |
| StudyStats.AverageTenths | src/components/StudyStats.tsx:79 | The average hours per studied day in tenths, halves rounded up, and 0 with no studied day. |
| StudyStats.NonZeroDaysMeaning | src/components/StudyStats.tsx:78 | At most the number of keys, and 0 iff no day is positive. |
| StudyStats.AverageMeaning | src/components/StudyStats.tsx:79 | 0 with no studied day. Otherwise the nearest tenth of the hours per studied day. |
| StudyStats.MemberStatsMeaning | src/components/StudyStats.tsx:99-102 | One entry per member with a session, and the entries sum to all logged seconds. |
| Lifecycle.ApplyKeepsAccounts | src/components/TimerManager.tsx:32-44 | Any view command keeps the statistics equal to the log. It appends at most one session, of a catalogue member, and never rewrites earlier ones. |
| Lifecycle.InitialAccounted | src/store/appStore.ts:76-87 | The initial store's empty log and empty statistics agree. |
| Lifecycle.RunPreservesAccounts | src/components/TimerManager.tsx:28-122 | Any sequence of commands keeps the statistics equal to a well-formed log. |
| Lifecycle.RunKeepsAccounts | src/store/appStore.ts:103 | From the initial store, the total, the daily sum and the weekly sum all equal the logged seconds after any commands. |
| Lifecycle.RunExtendsLog | src/store/appStore.ts:76-79 | The log only grows, by at most one session per command, and keeps its earlier entries. |
| SeededOrder.SortByScore | src/config/musicPlaylist.ts:74-78 | The sorted copy is ascending by score and a permutation of the input. |
| SeededOrder.SortStable | src/config/musicPlaylist.ts:74-78 | The sort is stable: for each score, the items of that score keep their input order. |
| SeededOrder.InsertStable | src/config/musicPlaylist.ts:74-78 | Insertion puts the new item after every item of the same score. |
| SeededOrder.WithScoreMembers | src/config/musicPlaylist.ts:74-78 | The items of one score are exactly the input's items scoring it. |
| SeededOrder.WithScoreAppend | src/config/musicPlaylist.ts:74-78 | Taking the items of one score distributes over concatenation. |
| SeededOrder.SliceStable | src/config/musicPlaylist.ts:74-80 | For each score, a prefix of the sorted list keeps a prefix of the input's items of that score. |
| SeededOrder.SortDistinct | src/config/musicPlaylist.ts:74-78 | Sorting a list without repeats gives a list without repeats. |
| SeededOrder.SliceTo | src/config/musicPlaylist.ts:80 | A prefix of length min(end, n), with a negative end counting from the back. |
| SeededOrder.SortThenSlice | src/config/musicPlaylist.ts:74-80 | The picks come from the input with no extra copies, ascending by score. No left-out item scores lower. Among items of one score the picks are the first ones of the input, in input order. |
| Music.DailyTracks | src/data/music.ts:51-61 | The day's three tracks: the catalogue sorted by the date-seeded score, then the first three. Their properties are the lemma below. |
| Music.DailyTracksMeaning | src/data/music.ts:51-61 | Three distinct catalogue tracks, ascending by score. No track left out scores lower. |
| MusicPlaylist.PlaylistConfig.constructor | src/config/musicPlaylist.ts:17-42 | The runtime default song list starts as the twenty built-in songs. |
| MusicPlaylist.PlaylistConfig.LoadSavedMusicConfig | src/config/musicPlaylist.ts:45-56 | The specified merge of the saved configuration over the defaults. |
| MusicPlaylist.LoadMeaning | src/config/musicPlaylist.ts:45-56 | Saved fields override, and missing ones come from the defaults. Nothing saved or another shape gives the defaults. |
| MusicPlaylist.Library | src/config/musicPlaylist.ts:59-62 | One `title - artist` line per song, in order. |
| MusicPlaylist.PlaylistConfig.GetSongLibrary | src/config/musicPlaylist.ts:59-62 | The library of the loaded configuration. |
| MusicPlaylist.PlaylistConfig.GetDailyRecommendations | src/config/musicPlaylist.ts:65-81 | The seeded sort of the library, sliced to the configured count. |
| MusicPlaylist.RecommendationsMeaning | src/config/musicPlaylist.ts:65-81 | For a count ≥ 0, min(count, library size) picks. They come from the library, repeat nothing the library does not repeat, and are ascending by score. No left-out line scores lower. Among lines of one score the picks are the first ones of the library, in library order. |
| MusicPlaylist.PlaylistConfig.UpdateMusicPlaylistConfig | src/config/musicPlaylist.ts:84-93 | The whole merged configuration is saved under the playlist key. |
| MusicPlaylist.UpdateThenLoad | src/config/musicPlaylist.ts:84-88 | After an update, named fields load with the new values and the others as before. |
| MusicPlaylist.SaveThenLoad | src/config/musicPlaylist.ts:88 | A saved whole configuration loads back unchanged. |
| MusicPlaylist.PlaylistConfig.ResetMusicPlaylistToDefault | src/config/musicPlaylist.ts:96-98 | Only the playlist key is removed. |
| MusicPlaylist.ResetThenLoad | src/config/musicPlaylist.ts:96-98 | After a reset, the defaults load. |
| MusicPlaylist.PlaylistConfig.AddSongToPlaylist | src/config/musicPlaylist.ts:101-105 | The loaded list plus the song is saved. When that list was the default array, the default array grows too. |
| MusicPlaylist.AddThenLoad | src/config/musicPlaylist.ts:101-105 | Exactly one song is appended at the end. Count and random flag are kept. |
| MusicPlaylist.ResetAfterAddKeepsSong | src/config/musicPlaylist.ts:103 | With no saved song list, an added song survives a reset, because it was pushed onto the default array. |
| MusicPlaylist.RemoveMatching | src/config/musicPlaylist.ts:110-112 | Every song matching title and artist is gone, and every other song is kept. |
| MusicPlaylist.RemoveMatchingCounts | src/config/musicPlaylist.ts:110-112 | A matching song occurs 0 times afterwards. Every other song occurs exactly as often as before. |
| MusicPlaylist.RemoveMatchingAppend | src/config/musicPlaylist.ts:110-112 | The filter distributes over concatenation, so kept songs keep their order. |
| MusicPlaylist.RemoveMatchingOne | src/config/musicPlaylist.ts:110-112 | A single song is dropped if it matches and kept otherwise. |
| MusicPlaylist.PlaylistConfig.RemoveSongFromPlaylist | src/config/musicPlaylist.ts:108-113 | The list loaded before, filtered by `RemoveMatching`, is saved. |
| MemberImageConfig.ImageConfig.constructor | src/config/memberImages.ts:14-35 | The runtime default table starts as the built-in one. |
| MemberImageConfig.DefaultsCoverMembers | src/config/memberImages.ts:14-35 | Exactly the five members have defaults, at `images/<id>-avatar.jpg` and `images/<id>-banner.jpg`. |
| MemberImageConfig.ImageConfig.LoadSavedConfigurations | src/config/memberImages.ts:38-50 | The saved table merged over the defaults. |
| MemberImageConfig.ImageConfig.GetMemberImages | src/config/memberImages.ts:53-59 | The merged entry, or the fallback pictures. |
| MemberImageConfig.LookupMeaning | src/config/memberImages.ts:38-59 | A saved entry wins, and otherwise the default applies. An id known to neither gets `/images/default-avatar.jpg` and `/images/default-banner.jpg`. |
| MemberImageConfig.ImageConfig.UpdateMemberImages | src/config/memberImages.ts:62-75 | The merged table with the new entry is saved, and the runtime default gets the entry too. |
| MemberImageConfig.UpdateThenGet | src/config/memberImages.ts:62-71 | The member then gets the new pictures, and every other member keeps its pictures. |
| MemberImageConfig.ImageConfig.ResetToDefault | src/config/memberImages.ts:78-88 | With a non-empty id, that entry is dropped from the saved table. Otherwise the whole saved table is removed. |
| MemberImageConfig.ResetOneThenGet | src/config/memberImages.ts:79-83 | The member returns to its runtime default, and others are kept. |
| MemberImageConfig.ResetAllThenGet | src/config/memberImages.ts:84-86 | Every member returns to its runtime default. |
| MemberImageConfig.UpdateSurvivesReset | src/config/memberImages.ts:70 | An updated member keeps the new pictures through either reset, because the default was overwritten. |
| MusicPlayer.NextIndex | src/components/MusicPlayer.tsx:38 | The next index stays in range. |
| MusicPlayer.NextPreviousInverse | src/components/MusicPlayer.tsx:35-59 | Previous stays in range. Previous undoes next, and next undoes previous. |
| MusicPlayer.NextCycles | src/components/MusicPlayer.tsx:38 | n presses of next return to the same pick, and no fewer do. |
| MusicPlayer.Player.constructor | src/components/MusicPlayer.tsx:14-15 | No picks, index 0. |
| MusicPlayer.Player.Mount | src/components/MusicPlayer.tsx:17-23 | The picks are the day's tracks. The first becomes current only if none is. |
| MusicPlayer.MountMeaning | src/components/MusicPlayer.tsx:17-23 | Mounting with no current track selects the first daily pick. A set track is kept, and nothing else changes. |
| MusicPlayer.Player.HandlePlayPause | src/components/MusicPlayer.tsx:25-33 | The store after play/pause. |
| MusicPlayer.PlayPauseMeaning | src/components/MusicPlayer.tsx:25-28 | No track: no change. Otherwise only the playing flag flips, and twice restores the store. |
| MusicPlayer.Player.HandleNext | src/components/MusicPlayer.tsx:35-46 | No-op on no picks. Otherwise the index moves to `(i+1) % n` and that pick becomes current. |
| MusicPlayer.Player.HandlePrevious | src/components/MusicPlayer.tsx:48-59 | No-op on no picks. Otherwise the index moves back cyclically and that pick becomes current. |
| MusicPlayer.FormatDuration | src/components/MusicPlayer.tsx:61-65 | `m:ss`: the floored minutes unpadded, ':', then the seconds padded to two characters. Its properties are the two lemmas below. |
| MusicPlayer.FormatDurationRoundTrip | src/components/MusicPlayer.tsx:61-65 | For s ≥ 0: unpadded minutes, ':' and two second digits, which read back to s. |
| MusicPlayer.DurationMatchesClock | src/components/MusicPlayer.tsx:61-65 | Below ten minutes the text is the timer's `mm:ss` without its leading zero. |

## Left out

- Audio, desktop notifications, toasts, rendering, animation, routing and layout are not modelled. They are side effects with no state in the core.
- React scheduling is not modelled:
  - interval re-creation and effect dependency arrays;
  - the `timerCompleted` window event; the `resetTimer` event is modelled as a direct call of the panel's listener, present exactly when the timer panel is on screen;
  - zustand's `persist` serialisation.
  
  The tick is one discrete `RunEffect` call, and the clock reading `now` is a parameter.
- Calendar dates are integer day numbers in UTC. A date's text is its decimal rendering, so time zones, daylight saving and the real `toDateString` format are not modelled. The seeds of the daily picks are therefore the character-code sums of that rendering, not of the browser's date text.
- JSON is not modelled. A stored value is one of the shapes the readers expect, or other text. Text that fails to parse counts as other text.
- Writes to the key-value store are assumed to succeed; a quota failure is not modelled. The source has four such failure paths, one line each below.
- DataValidation.SaveDailyArchive: assumes the write succeeds. On a quota error `saveDailyArchive` logs it and the old value stays (src/utils/dataValidation.ts:109-115).
- MusicPlaylist.PlaylistConfig.UpdateMusicPlaylistConfig: assumes the write succeeds. On a quota error the source logs it and throws it on (src/config/musicPlaylist.ts:89-92).
- MemberImageConfig.ImageConfig.UpdateMemberImages: assumes the write succeeds. On a quota error the source throws before the runtime default changes, so neither table changes (src/config/memberImages.ts:67-74).
- MemberImageConfig.ImageConfig.ResetToDefault: assumes the write succeeds. On a quota error `resetToDefault(id)` lets it propagate (src/config/memberImages.ts:83).
- Fractional hours and pie-chart percentages are whole tenths of an hour. Floating point is not modelled.
- CleanupOldArchives: the source removes keys while walking the store by index, which can skip a key. The model states the intended filter result instead.
- The one-hour staleness rule of the timer persistence test script appears in no source file and is not modelled.
- In the timer functionality test script, the total is read as minutes; the store keeps seconds. The scripts only log, and they are not modelled.
- An empty library line would make the seeded comparison `NaN` in the source. Its score is taken as that of code 0, and library lines are never empty because they contain ` - `.
- The native sort is stable, so lines of equal score keep their order. The model's insertion sort puts a new item after equal scores and is proved stable (`SeededOrder.SortStable`). Equal scores do occur in the default library, for example between lines starting with the same letter.
- `charCodeAt` counts UTF-16 code units, while a Dafny character is a Unicode scalar value. `SeededOrder.CharCodeSum` and `SeededOrder.FirstCode` agree with the source for characters of the Basic Multilingual Plane. For a character outside it (an emoji, say) the source would use its high surrogate instead.
- MusicPlayer.Player.Mount: requires an empty pick list. The mount effect runs once, on a fresh panel.
- The catalogue of companions keeps only the member ids. Names, colours and descriptions play no part in the core.
