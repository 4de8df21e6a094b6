/**
 * Member avatar and banner paths (src/config/memberImages.ts): a default table,
 * saved overrides in the browser's key-value store, a fixed fallback for
 * unknown members, and the update and reset commands. The default table is
 * mutable at run time: an update writes into it as well as into the store,
 * `MemberImageConfig.defaults` is that table.
 */
module MemberImageConfig {
  import opened Wrappers
  import opened Types
  import Members
  import Storage

  const ImagesKey: string := "wayvImageConfigs"

  /** The paths a member's pictures have by default. */
  function DefaultPaths(id: string): MemberImages {
    MemberImages("images/" + id + "-avatar.jpg", "images/" + id + "-banner.jpg")
  }

  const DefaultMemberImages: map<string, MemberImages> := map[
    "hendery" := DefaultPaths("hendery"),
    "kun" := DefaultPaths("kun"),
    "ten" := DefaultPaths("ten"),
    "xiaojun" := DefaultPaths("xiaojun"),
    "yangyang" := DefaultPaths("yangyang")
  ]

  /** What `getMemberImages` returns for an id no configuration knows. */
  const FallbackImages: MemberImages := MemberImages("/images/default-avatar.jpg", "/images/default-banner.jpg")

  /** The saved table, when the key holds one; anything else reads as nothing saved. */
  function SavedImages(items: map<string, Stored>): Option<map<string, MemberImages>> {
    if ImagesKey in items && items[ImagesKey].ImageConfigRecord? then Some(items[ImagesKey].images) else None
  }

  /** `loadSavedConfigurations`: `{ ...defaults, ...saved }`. */
  function LoadConfigurations(defaults: map<string, MemberImages>, items: map<string, Stored>): map<string, MemberImages> {
    match SavedImages(items)
    case Some(saved) => defaults + saved
    case None => defaults
  }

  /** `configs[memberId] || fallback` */
  function ImagesFor(configs: map<string, MemberImages>, id: string): MemberImages {
    if id in configs then configs[id] else FallbackImages
  }

  /** `if (memberId)`: an absent or empty id means every member. */
  predicate NamesOne(memberId: Option<string>) {
    memberId.Some? && memberId.value != ""
  }

  class ImageConfig {
    /** `defaultMemberImages` */
    var defaults: map<string, MemberImages>
    const storage: Storage.LocalStorage

    constructor (storage: Storage.LocalStorage)
      ensures this.storage == storage && defaults == DefaultMemberImages
    {
      this.storage := storage;
      defaults := DefaultMemberImages;
    }

    method LoadSavedConfigurations() returns (configs: map<string, MemberImages>)
      ensures configs == LoadConfigurations(defaults, storage.items)
    {
      var saved := storage.GetItem(ImagesKey);
      if saved.Some? && saved.value.ImageConfigRecord? {
        configs := defaults + saved.value.images;
      } else {
        configs := defaults;
      }
    }

    method GetMemberImages(memberId: string) returns (images: MemberImages)
      ensures images == ImagesFor(LoadConfigurations(defaults, storage.items), memberId)
    {
      var configs := LoadSavedConfigurations();
      images := if memberId in configs then configs[memberId] else FallbackImages;
    }

    /** `updateMemberImages`: the whole loaded table with the new entry is saved, and the default table takes the entry too. */
    method UpdateMemberImages(memberId: string, images: MemberImages)
      modifies this, storage
      ensures storage.items ==
        old(storage.items)[ImagesKey := ImageConfigRecord(LoadConfigurations(old(defaults), old(storage.items))[memberId := images])]
      ensures defaults == old(defaults)[memberId := images]
    {
      var savedConfigs := LoadSavedConfigurations();
      savedConfigs := savedConfigs[memberId := images];
      storage.SetItem(ImagesKey, ImageConfigRecord(savedConfigs));
      defaults := defaults[memberId := images];
    }

    /** `resetToDefault`: one member's saved entry is dropped, or, with no member named, the whole saved table. */
    method ResetToDefault(memberId: Option<string>)
      modifies storage
      ensures storage.items == if NamesOne(memberId)
        then old(storage.items)[ImagesKey := ImageConfigRecord(LoadConfigurations(defaults, old(storage.items)) - {memberId.value})]
        else old(storage.items) - {ImagesKey}
    {
      if memberId.Some? && memberId.value != "" {
        var savedConfigs := LoadSavedConfigurations();
        savedConfigs := savedConfigs - {memberId.value};
        storage.SetItem(ImagesKey, ImageConfigRecord(savedConfigs));
      } else {
        storage.RemoveItem(ImagesKey);
      }
    }
  }

  /** Every member has a default entry, and it is the path pattern `images/<id>-avatar.jpg`, `images/<id>-banner.jpg`. */
  lemma DefaultsCoverMembers(id: string)
    ensures id in DefaultMemberImages <==> Members.IsMember(id)
    ensures Members.IsMember(id) ==> DefaultMemberImages[id] == DefaultPaths(id)
  {
  }

  /** A saved entry wins over the default one; an id known to neither gets the fallback pictures. */
  lemma LookupMeaning(defaults: map<string, MemberImages>, items: map<string, Stored>, id: string)
    ensures SavedImages(items).Some? && id in SavedImages(items).value ==>
      ImagesFor(LoadConfigurations(defaults, items), id) == SavedImages(items).value[id]
    ensures (SavedImages(items).None? || id !in SavedImages(items).value) ==>
      ImagesFor(LoadConfigurations(defaults, items), id) == ImagesFor(defaults, id)
    ensures id !in defaults && (SavedImages(items).None? || id !in SavedImages(items).value) ==>
      ImagesFor(LoadConfigurations(defaults, items), id) == FallbackImages
  {
  }

  /** After an update the member gets the new pictures and every other member keeps what it had. */
  lemma UpdateThenGet(defaults: map<string, MemberImages>, items: map<string, Stored>, id: string, images: MemberImages, other: string)
    ensures var items' := items[ImagesKey := ImageConfigRecord(LoadConfigurations(defaults, items)[id := images])];
      && ImagesFor(LoadConfigurations(defaults[id := images], items'), id) == images
      && (other != id ==>
            ImagesFor(LoadConfigurations(defaults[id := images], items'), other) == ImagesFor(LoadConfigurations(defaults, items), other))
  {
  }

  /** Resetting one member gives it its current default pictures back and leaves the others as they were. */
  lemma ResetOneThenGet(defaults: map<string, MemberImages>, items: map<string, Stored>, id: string, other: string)
    ensures var items' := items[ImagesKey := ImageConfigRecord(LoadConfigurations(defaults, items) - {id})];
      && ImagesFor(LoadConfigurations(defaults, items'), id) == ImagesFor(defaults, id)
      && (other != id ==>
            ImagesFor(LoadConfigurations(defaults, items'), other) == ImagesFor(LoadConfigurations(defaults, items), other))
  {
  }

  /** Resetting everything leaves the current default table in force. */
  lemma ResetAllThenGet(defaults: map<string, MemberImages>, items: map<string, Stored>, id: string)
    ensures ImagesFor(LoadConfigurations(defaults, items - {ImagesKey}), id) == ImagesFor(defaults, id)
  {
  }

  /**
   * Because an update also rewrites the default table, no reset undoes it:
   * after updating a member and resetting that member, or everything, the
   * member still has the updated pictures until the page is reloaded.
   */
  lemma UpdateSurvivesReset(defaults: map<string, MemberImages>, items: map<string, Stored>, id: string, images: MemberImages)
    ensures var defaults' := defaults[id := images];
      var items' := items[ImagesKey := ImageConfigRecord(LoadConfigurations(defaults, items)[id := images])];
      var resetOne := items'[ImagesKey := ImageConfigRecord(LoadConfigurations(defaults', items') - {id})];
      && ImagesFor(LoadConfigurations(defaults', resetOne), id) == images
      && ImagesFor(LoadConfigurations(defaults', items' - {ImagesKey}), id) == images
  {
    ResetOneThenGet(defaults[id := images], items[ImagesKey := ImageConfigRecord(LoadConfigurations(defaults, items)[id := images])], id, id);
  }
}
