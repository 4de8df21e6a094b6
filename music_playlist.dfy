/**
 * The configurable song library (src/config/musicPlaylist.ts): a default
 * configuration, a saved override in the browser's key-value store, the
 * library text list, the date-seeded daily recommendations, and the update,
 * reset, add and remove commands.
 *
 * The default song list is a mutable array in the source: loading without a
 * saved song list returns that very array, and adding a song pushes onto it.
 * `PlaylistConfig.defaultSongs` is that array.
 */
module MusicPlaylist {
  import opened Wrappers
  import opened Dates
  import opened Types
  import Storage
  import SeededOrder

  const PlaylistKey: string := "wayvMusicPlaylistConfig"

  const DefaultSongs: seq<SongConfig> := [
    SongConfig("Kick Back", "WayV", None),
    SongConfig("Love Talk", "WayV", None),
    SongConfig("Turn Back Time", "WayV", None),
    SongConfig("Phantom", "WayV", None),
    SongConfig("Nectar", "WayV", None),
    SongConfig("Take Off", "WayV", None),
    SongConfig("Regular", "WayV", None),
    SongConfig("Come Back", "WayV", None),
    SongConfig("Action Figure", "WayV", None),
    SongConfig("Bad Alive", "WayV", None),
    SongConfig("Unbreakable", "WayV", None),
    SongConfig("After Midnight", "WayV", None),
    SongConfig("Miracle", "WayV", None),
    SongConfig("Go Higher", "WayV", None),
    SongConfig("Deep Ocean", "WayV", None),
    SongConfig("Moonwalk", "WayV", None),
    SongConfig("Your Song", "WayV", None),
    SongConfig("King of Hearts", "WayV", None),
    SongConfig("Face to Face", "WayV", None),
    SongConfig("Say It", "WayV", None)
  ]

  /** `defaultMusicPlaylist` with the given song list: five picks a day, random selection on. */
  function DefaultConfig(songs: seq<SongConfig>): MusicPlaylistConfig {
    MusicPlaylistConfig(songs, 5, true)
  }

  /** `{ ...config, ...patch }` */
  function MergeConfig(c: MusicPlaylistConfig, p: PlaylistPatch): MusicPlaylistConfig {
    MusicPlaylistConfig(
      p.songs.GetOr(c.songs),
      p.dailyRecommendationCount.GetOr(c.dailyRecommendationCount),
      p.enableRandomSelection.GetOr(c.enableRandomSelection))
  }

  /** A whole configuration as it is written back: every field set. */
  function AsPatch(c: MusicPlaylistConfig): PlaylistPatch {
    PlaylistPatch(Some(c.songs), Some(c.dailyRecommendationCount), Some(c.enableRandomSelection))
  }

  /** The saved override, when the key holds a configuration; anything else reads as nothing saved. */
  function SavedPatch(items: map<string, Stored>): Option<PlaylistPatch> {
    if PlaylistKey in items && items[PlaylistKey].PlaylistRecord? then Some(items[PlaylistKey].playlist) else None
  }

  /** `loadSavedMusicConfig` */
  function LoadConfig(defaults: seq<SongConfig>, items: map<string, Stored>): MusicPlaylistConfig {
    match SavedPatch(items)
    case Some(p) => MergeConfig(DefaultConfig(defaults), p)
    case None => DefaultConfig(defaults)
  }

  /** The loaded song list is the default array itself (no saved song list). */
  predicate SharesDefaultSongs(items: map<string, Stored>) {
    SavedPatch(items).None? || SavedPatch(items).value.songs.None?
  }

  /** One library line, `title - artist`. */
  function Entry(song: SongConfig): string {
    song.title + " - " + song.artist
  }

  /** `getSongLibrary`'s `map`: one line per song, in order. */
  function Library(songs: seq<SongConfig>): (lib: seq<string>)
    ensures |lib| == |songs|
    ensures forall k :: 0 <= k < |songs| ==> lib[k] == Entry(songs[k])
  {
    if songs == [] then [] else Library(songs[..|songs| - 1]) + [Entry(songs[|songs| - 1])]
  }

  function EntryScore(seed: nat): string -> int {
    (line: string) => SeededOrder.Score(seed, SeededOrder.FirstCode(line))
  }

  /** `getDailyRecommendations` for the configuration `c` on day `today`. */
  function Recommendations(c: MusicPlaylistConfig, today: Day): seq<string> {
    var seed := SeededOrder.CharCodeSum(DateString(today));
    SeededOrder.SliceTo(SeededOrder.SortByScore(Library(c.songs), EntryScore(seed)), c.dailyRecommendationCount)
  }

  /** `filter`: drops every song with this title and artist, keeps the others in order. */
  function RemoveMatching(songs: seq<SongConfig>, title: string, artist: string): (r: seq<SongConfig>)
    ensures |r| <= |songs|
    ensures forall x :: x in r ==> x in songs && !(x.title == title && x.artist == artist)
    ensures forall x :: x in songs && !(x.title == title && x.artist == artist) ==> x in r
  {
    if songs == [] then []
    else
      var init, last := songs[..|songs| - 1], songs[|songs| - 1];
      assert songs == init + [last];
      var r := RemoveMatching(init, title, artist);
      if last.title == title && last.artist == artist then r else r + [last]
  }

  /** Every song matching title and artist is gone; every other song keeps its number of copies. */
  lemma {:induction false} RemoveMatchingCounts(songs: seq<SongConfig>, title: string, artist: string)
    ensures forall x :: multiset(RemoveMatching(songs, title, artist))[x]
                     == if x.title == title && x.artist == artist then 0 else multiset(songs)[x]
  {
    if songs != [] {
      var init, last := songs[..|songs| - 1], songs[|songs| - 1];
      assert songs == init + [last];
      RemoveMatchingCounts(init, title, artist);
    }
  }

  /** A single song is dropped when it matches and kept otherwise. */
  lemma RemoveMatchingOne(song: SongConfig, title: string, artist: string)
    ensures RemoveMatching([song], title, artist) == if song.title == title && song.artist == artist then [] else [song]
  {
    assert [song][..0] == [];
  }

  /** The filter works song by song: it distributes over concatenation, so the kept songs keep their order. */
  lemma {:induction false} RemoveMatchingAppend(a: seq<SongConfig>, b: seq<SongConfig>, title: string, artist: string)
    ensures RemoveMatching(a + b, title, artist) == RemoveMatching(a, title, artist) + RemoveMatching(b, title, artist)
  {
    if b == [] {
      assert a + b == a;
    } else {
      var init, last := b[..|b| - 1], b[|b| - 1];
      var kept := if last.title == title && last.artist == artist then [] else [last];
      assert (a + b)[..|a + b| - 1] == a + init && (a + b)[|a + b| - 1] == last;
      assert RemoveMatching(a + b, title, artist) == RemoveMatching(a + init, title, artist) + kept;
      assert RemoveMatching(b, title, artist) == RemoveMatching(init, title, artist) + kept;
      RemoveMatchingAppend(a, init, title, artist);
    }
  }

  class PlaylistConfig {
    /** `defaultMusicPlaylist.songs` */
    var defaultSongs: seq<SongConfig>
    const storage: Storage.LocalStorage

    constructor (storage: Storage.LocalStorage)
      ensures this.storage == storage && defaultSongs == DefaultSongs
    {
      this.storage := storage;
      defaultSongs := DefaultSongs;
    }

    method LoadSavedMusicConfig() returns (config: MusicPlaylistConfig)
      ensures config == LoadConfig(defaultSongs, storage.items)
    {
      var saved := storage.GetItem(PlaylistKey);
      if saved.Some? && saved.value.PlaylistRecord? {
        config := MergeConfig(DefaultConfig(defaultSongs), saved.value.playlist);
      } else {
        config := DefaultConfig(defaultSongs);
      }
    }

    method GetSongLibrary() returns (library: seq<string>)
      ensures library == Library(LoadConfig(defaultSongs, storage.items).songs)
    {
      var config := LoadSavedMusicConfig();
      library := Library(config.songs);
    }

    method GetDailyRecommendations(today: Day) returns (picks: seq<string>)
      ensures picks == Recommendations(LoadConfig(defaultSongs, storage.items), today)
    {
      var config := LoadSavedMusicConfig();
      var songLibrary := GetSongLibrary();
      var seed := SeededOrder.CharCodeSum(DateString(today));
      var shuffled := SeededOrder.SortByScore(songLibrary, EntryScore(seed));
      picks := SeededOrder.SliceTo(shuffled, config.dailyRecommendationCount);
    }

    /** `updateMusicPlaylistConfig`: the merge of the patch over the loaded configuration is saved. */
    method UpdateMusicPlaylistConfig(patch: PlaylistPatch)
      modifies storage
      ensures storage.items ==
        old(storage.items)[PlaylistKey := PlaylistRecord(AsPatch(MergeConfig(LoadConfig(defaultSongs, old(storage.items)), patch)))]
    {
      var currentConfig := LoadSavedMusicConfig();
      var updatedConfig := MergeConfig(currentConfig, patch);
      storage.SetItem(PlaylistKey, PlaylistRecord(AsPatch(updatedConfig)));
    }

    method ResetMusicPlaylistToDefault()
      modifies storage
      ensures storage.items == old(storage.items) - {PlaylistKey}
    {
      storage.RemoveItem(PlaylistKey);
    }

    /**
     * `addSongToPlaylist`: the song goes at the end of the loaded list and the
     * list is saved; when that list was the default array, the push lands in
     * the default array too.
     */
    method AddSongToPlaylist(song: SongConfig)
      modifies this, storage
      ensures defaultSongs == if SharesDefaultSongs(old(storage.items)) then old(defaultSongs) + [song] else old(defaultSongs)
      ensures storage.items == old(storage.items)[PlaylistKey := PlaylistRecord(AsPatch(
        LoadConfig(old(defaultSongs), old(storage.items)).(songs := LoadConfig(old(defaultSongs), old(storage.items)).songs + [song])))]
    {
      var config := LoadSavedMusicConfig();
      var shared := SharesDefaultSongs(storage.items);
      var songs := config.songs + [song];
      if shared {
        defaultSongs := defaultSongs + [song];
      }
      UpdateMusicPlaylistConfig(PlaylistPatch(songs := Some(songs)));
    }

    method RemoveSongFromPlaylist(songTitle: string, artist: string)
      modifies storage
      ensures storage.items == old(storage.items)[PlaylistKey := PlaylistRecord(AsPatch(
        LoadConfig(defaultSongs, old(storage.items)).(songs := RemoveMatching(LoadConfig(defaultSongs, old(storage.items)).songs, songTitle, artist))))]
    {
      var config := LoadSavedMusicConfig();
      var songs := RemoveMatching(config.songs, songTitle, artist);
      UpdateMusicPlaylistConfig(PlaylistPatch(songs := Some(songs)));
    }
  }

  /** Saved fields override the defaults field by field; nothing saved, or another shape, gives the defaults. */
  lemma LoadMeaning(defaults: seq<SongConfig>, items: map<string, Stored>)
    ensures SavedPatch(items).None? ==> LoadConfig(defaults, items) == DefaultConfig(defaults)
    ensures SavedPatch(items).Some? && SavedPatch(items).value.dailyRecommendationCount.Some? ==>
      LoadConfig(defaults, items).dailyRecommendationCount == SavedPatch(items).value.dailyRecommendationCount.value
    ensures SavedPatch(items).Some? && SavedPatch(items).value.dailyRecommendationCount.None? ==>
      LoadConfig(defaults, items).dailyRecommendationCount == 5
    ensures LoadConfig(defaults, items).songs == if SharesDefaultSongs(items) then defaults else SavedPatch(items).value.songs.value
  {
  }

  /** Saving a whole configuration and loading it gives it back, whatever the defaults are. */
  lemma SaveThenLoad(defaults: seq<SongConfig>, items: map<string, Stored>, c: MusicPlaylistConfig)
    ensures LoadConfig(defaults, items[PlaylistKey := PlaylistRecord(AsPatch(c))]) == c
  {
  }

  /** After an update, every field the patch names has the patch's value and the others are as loaded before. */
  lemma UpdateThenLoad(defaults: seq<SongConfig>, items: map<string, Stored>, patch: PlaylistPatch)
    ensures var before := LoadConfig(defaults, items);
      var after := LoadConfig(defaults, items[PlaylistKey := PlaylistRecord(AsPatch(MergeConfig(before, patch)))]);
      && after.songs == (if patch.songs.Some? then patch.songs.value else before.songs)
      && after.dailyRecommendationCount ==
           (if patch.dailyRecommendationCount.Some? then patch.dailyRecommendationCount.value else before.dailyRecommendationCount)
      && after.enableRandomSelection ==
           (if patch.enableRandomSelection.Some? then patch.enableRandomSelection.value else before.enableRandomSelection)
  {
  }

  /** After a reset, loading gives the default configuration with the current default songs. */
  lemma ResetThenLoad(defaults: seq<SongConfig>, items: map<string, Stored>)
    ensures LoadConfig(defaults, items - {PlaylistKey}) == DefaultConfig(defaults)
  {
  }

  /** Adding puts exactly one song at the end of the loaded list and changes no other setting. */
  lemma AddThenLoad(defaults: seq<SongConfig>, items: map<string, Stored>, song: SongConfig, defaults': seq<SongConfig>)
    ensures var before := LoadConfig(defaults, items);
      var after := LoadConfig(defaults', items[PlaylistKey := PlaylistRecord(AsPatch(before.(songs := before.songs + [song])))]);
      && after.songs == before.songs + [song]
      && after.dailyRecommendationCount == before.dailyRecommendationCount
      && after.enableRandomSelection == before.enableRandomSelection
  {
  }

  /**
   * Because the push lands in the default array, adding a song with nothing
   * saved and then resetting still loads the added song: the reset does not
   * bring back the original twenty.
   */
  lemma ResetAfterAddKeepsSong(items: map<string, Stored>, song: SongConfig)
    requires SharesDefaultSongs(items)
    ensures var defaults' := DefaultSongs + [song];
      var before := LoadConfig(DefaultSongs, items);
      var saved := items[PlaylistKey := PlaylistRecord(AsPatch(before.(songs := before.songs + [song])))];
      && LoadConfig(defaults', saved - {PlaylistKey}).songs == DefaultSongs + [song]
      && LoadConfig(defaults', saved - {PlaylistKey}).songs != DefaultSongs
  {
    assert |DefaultSongs + [song]| == 21;
  }

  /**
   * For a non-negative count the picks number the smaller of the count and the
   * library size; they are library lines, never more often than in the
   * library, in ascending score, and no line left out scores lower.
   */
  lemma RecommendationsMeaning(c: MusicPlaylistConfig, today: Day)
    ensures var lib := Library(c.songs);
      var picks := Recommendations(c, today);
      var score := EntryScore(SeededOrder.CharCodeSum(DateString(today)));
      && (c.dailyRecommendationCount >= 0 ==>
            |picks| == if c.dailyRecommendationCount < |lib| then c.dailyRecommendationCount else |lib|)
      && multiset(picks) <= multiset(lib)
      && SeededOrder.SortedByScore(picks, score)
      && (SeededOrder.Distinct(lib) ==> SeededOrder.Distinct(picks))
      && (forall t, i :: t in lib && t !in picks && 0 <= i < |picks| ==> score(picks[i]) <= score(t))
      && (forall v :: SeededOrder.WithScore(picks, score, v) <= SeededOrder.WithScore(lib, score, v))
  {
    var lib := Library(c.songs);
    var score := EntryScore(SeededOrder.CharCodeSum(DateString(today)));
    SeededOrder.SortThenSlice(lib, c.dailyRecommendationCount, score);
  }
}
