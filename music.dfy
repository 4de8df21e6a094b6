/**
 * The built-in track catalogue and its daily pick (src/data/music.ts): the
 * five tracks sorted by a date-seeded score of their id's first character,
 * and the first three taken. The catalogue is sorted as a copy and is never
 * reordered itself.
 */
module Music {
  import opened Types
  import opened Dates
  import SeededOrder

  const WayvSongs: seq<MusicTrack> := [
    MusicTrack("1", "Kick Back", "WayV", "Kick Back", 210, "all"),
    MusicTrack("2", "Love Talk", "WayV", "Take Over The Moon", 195, "all"),
    MusicTrack("3", "Turn Back Time", "WayV", "Awaken The World", 220, "all"),
    MusicTrack("4", "Phantom", "WayV", "Phantom", 205, "all"),
    MusicTrack("5", "Nectar", "WayV", "Nectar", 198, "all")
  ]

  /** The seed of a day: the character-code sum of its date text. */
  function DaySeed(today: Day): nat {
    SeededOrder.CharCodeSum(DateString(today))
  }

  function TrackScore(seed: nat): MusicTrack -> int {
    (t: MusicTrack) => SeededOrder.Score(seed, SeededOrder.FirstCode(t.id))
  }

  /** `getDailyRecommendations` for the day `today`. */
  function DailyTracks(today: Day): seq<MusicTrack> {
    var shuffled := SeededOrder.SortByScore(WayvSongs, TrackScore(DaySeed(today)));
    SeededOrder.SliceTo(shuffled, 3)
  }

  /**
   * Three catalogue tracks, none twice, in ascending score order, and no
   * track left out scores lower than one picked.
   */
  lemma DailyTracksMeaning(today: Day)
    ensures |DailyTracks(today)| == 3
    ensures forall t :: t in DailyTracks(today) ==> t in WayvSongs
    ensures forall i, j :: 0 <= i < j < 3 ==> DailyTracks(today)[i] != DailyTracks(today)[j]
    ensures forall i, j :: 0 <= i < j < 3 ==>
      TrackScore(DaySeed(today))(DailyTracks(today)[i]) <= TrackScore(DaySeed(today))(DailyTracks(today)[j])
    ensures forall t :: t in WayvSongs && t !in DailyTracks(today) ==>
      forall i :: 0 <= i < 3 ==> TrackScore(DaySeed(today))(DailyTracks(today)[i]) <= TrackScore(DaySeed(today))(t)
  {
    CatalogueDistinct();
    PickThree(WayvSongs, TrackScore(DaySeed(today)));
  }

  /** The catalogue holds five tracks, no two alike. */
  lemma CatalogueDistinct()
    ensures |WayvSongs| == 5 && SeededOrder.Distinct(WayvSongs)
  {
  }

  /** The first three of a sorted list of five distinct items. */
  lemma PickThree(s: seq<MusicTrack>, score: MusicTrack -> int)
    requires |s| == 5 && SeededOrder.Distinct(s)
    ensures var r := SeededOrder.SliceTo(SeededOrder.SortByScore(s, score), 3);
      && |r| == 3
      && (forall t :: t in r ==> t in s)
      && (forall i, j :: 0 <= i < j < 3 ==> r[i] != r[j])
      && (forall i, j :: 0 <= i < j < 3 ==> score(r[i]) <= score(r[j]))
      && (forall t :: t in s && t !in r ==> forall i :: 0 <= i < 3 ==> score(r[i]) <= score(t))
  {
    SeededOrder.SortThenSlice(s, 3, score);
  }
}
