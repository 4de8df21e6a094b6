/**
 * The records the app passes around (src/types/index.ts) and the records it
 * persists (the archive of src/utils/dataValidation.ts, the playlist
 * configuration of src/config/musicPlaylist.ts and the image configuration of
 * src/config/memberImages.ts). Dates are day numbers, times are milliseconds.
 */
module Types {
  import opened Wrappers
  import opened Dates

  datatype Theme = Light | Dark

  datatype UserPreferences = UserPreferences(
    theme: Theme,
    selectedMemberId: Option<string>,
    soundEnabled: bool,
    notificationsEnabled: bool)

  /** A completed focus period; `duration` is in seconds, the times are in milliseconds. */
  datatype StudySession = StudySession(
    id: string,
    memberId: string,
    startTime: int,
    endTime: int,
    duration: int)

  /** Seconds studied per day, per week start, in total, and the day streak. */
  datatype StudyStats = StudyStats(
    daily: map<Day, int>,
    weekly: map<Day, int>,
    total: int,
    streak: int)

  datatype MusicTrack = MusicTrack(
    id: string,
    title: string,
    artist: string,
    album: string,
    duration: int,
    memberId: string)

  /** One day's snapshot: recorded seconds, session count, seconds per member, creation time, validity. */
  datatype DailyArchive = DailyArchive(
    date: Day,
    totalSeconds: int,
    sessions: int,
    members: map<string, int>,
    timestamp: int,
    isValid: bool)

  datatype SongConfig = SongConfig(title: string, artist: string, album: Option<string>)

  datatype MusicPlaylistConfig = MusicPlaylistConfig(
    songs: seq<SongConfig>,
    dailyRecommendationCount: int,
    enableRandomSelection: bool)

  /** A `Partial<MusicPlaylistConfig>`: the fields a saved or submitted configuration sets. */
  datatype PlaylistPatch = PlaylistPatch(
    songs: Option<seq<SongConfig>> := None,
    dailyRecommendationCount: Option<int> := None,
    enableRandomSelection: Option<bool> := None)

  datatype MemberImages = MemberImages(avatar: string, banner: string)

  /**
   * A value held by the browser's key-value store, by the shape its JSON text
   * parses to. `Text` stands for anything that does not parse to the shape a
   * reader expects.
   */
  datatype Stored =
    | ArchiveRecord(archive: DailyArchive)
    | PlaylistRecord(playlist: PlaylistPatch)
    | ImageConfigRecord(images: map<string, MemberImages>)
    | Text(text: string)
}

/** The companion catalog (src/data/members.ts), kept to the ids the core looks up. */
module Members {
  const MemberIds: seq<string> := ["kun", "ten", "xiaojun", "hendery", "yangyang"]

  /** `wayvMembers.find(m => m.id === id)` succeeds. */
  predicate IsMember(id: string) {
    id in MemberIds
  }

  lemma MemberIdsNonEmpty(id: string)
    requires IsMember(id)
    ensures id != ""
  {
  }
}
