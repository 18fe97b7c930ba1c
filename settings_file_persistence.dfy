/** Loading, migrating and saving the settings file
    (SettingsFilePersistence.swift).

    The file store and the user defaults are each a table from a key to a value;
    the JSON encoder and decoders are a `Codec` passed in, about which only the
    lemmas that need it assume a round trip. */
module SettingsFilePersistence {
  import opened Wrappers
  import opened SettingsFileModel

  type URL = string
  type Data = seq<bv8>

  datatype SettingsFileStorageError = Missing

  // ---------------------------------------------------------------------------
  // In-memory file store
  // ---------------------------------------------------------------------------

  /** What loading `url` from a store holding `files` yields. */
  function Lookup(files: map<URL, Data>, url: URL): Result<Data, SettingsFileStorageError> {
    if url in files then Success(files[url]) else Failure(Missing)
  }

  /** After saving `data` at `url`, loading `url` returns exactly `data`, and
      loading any other URL returns what it returned before. */
  lemma LookupAfterSave(files: map<URL, Data>, url: URL, data: Data, other: URL)
    ensures Lookup(files[url := data], url) == Success(data)
    ensures other != url ==> Lookup(files[url := data], other) == Lookup(files, other)
  {
  }

  /** A never-saved URL is missing. */
  lemma LookupNeverSaved(files: map<URL, Data>, url: URL)
    requires url !in files
    ensures Lookup(files, url) == Failure(Missing)
  {
  }

  /** The settings file store used by tests and previews: a table from URL to
      data, filled only by `Save`. */
  class InMemorySettingsFileStorage {
    var dataByURL: map<URL, Data>

    constructor ()
      ensures dataByURL == map[]
    {
      dataByURL := map[];
    }

    /** Returns the data last saved at `url`, or fails with `Missing`. */
    method Load(url: URL) returns (r: Result<Data, SettingsFileStorageError>)
      ensures url in dataByURL ==> r == Success(dataByURL[url])
      ensures url !in dataByURL ==> r == Failure(Missing)
      ensures r == Lookup(dataByURL, url)
    {
      if url !in dataByURL {
        return Failure(Missing);
      }
      r := Success(dataByURL[url]);
    }

    /** Records `data` at `url`, replacing what was there; no other URL changes. */
    method Save(data: Data, url: URL)
      modifies this
      ensures dataByURL == old(dataByURL)[url := data]
    {
      dataByURL := dataByURL[url := data];
    }
  }

  // ---------------------------------------------------------------------------
  // User defaults and the legacy keys
  // ---------------------------------------------------------------------------

  /** A value held in the user defaults: a `Data` blob, or some other property
      list object, which `data(forKey:)` does not return. */
  datatype DefaultsValue = DataObject(bytes: Data) | OtherObject

  /** The keys under which earlier versions kept the repository roots and the
      pinned worktrees. */
  const RootsKey: string := "repositories.roots"
  const PinnedKey: string := "repositories.worktrees.pinned"

  /** The user defaults store, as a table from key to object. */
  class SettingsUserDefaults {
    var objects: map<string, DefaultsValue>

    constructor (objects: map<string, DefaultsValue>)
      ensures this.objects == objects
    {
      this.objects := objects;
    }

    /** `object(forKey:)`. */
    function Object(key: string): (r: Option<DefaultsValue>)
      reads this
      ensures r.Some? <==> key in objects
      ensures r.Some? ==> objects[key] == r.value
    {
      if key in objects then Some(objects[key]) else None
    }

    /** `data(forKey:)`: only a `Data` object is returned. */
    function DataForKey(key: string): (r: Option<Data>)
      reads this
      ensures r.Some? <==> Object(key).Some? && Object(key).value.DataObject?
      ensures r.Some? ==> Object(key) == Some(DataObject(r.value))
    {
      if key in objects && objects[key].DataObject? then Some(objects[key].bytes) else None
    }

    /** `removeObject(forKey:)`. */
    method RemoveObject(key: string)
      modifies this
      ensures objects == old(objects) - {key}
    {
      objects := objects - {key};
    }
  }

  // ---------------------------------------------------------------------------
  // JSON codec
  // ---------------------------------------------------------------------------

  /** The JSON encoder and decoders: the settings file codec, and the decoder of
      a list of strings used for the legacy keys. Decoding may fail. */
  datatype Codec = Codec(
    encode: SettingsFile -> Data,
    decode: Data -> Option<SettingsFile>,
    decodeStrings: Data -> Option<seq<string>>)

  /** Decoding what was encoded gives back the same settings. */
  ghost predicate RoundTrips(codec: Codec) {
    forall s: SettingsFile :: codec.decode(codec.encode(s)) == Some(s)
  }

  // ---------------------------------------------------------------------------
  // Migration from the legacy keys (SettingsFileMigration)
  // ---------------------------------------------------------------------------

  /** The list held under a legacy key: present only if the key holds data that
      decodes as a list of strings. */
  function LegacyList(objects: map<string, DefaultsValue>, key: string, codec: Codec): (r: Option<seq<string>>)
    ensures key !in objects || !objects[key].DataObject? ==> r == None
    ensures key in objects && objects[key].DataObject? ==> r == codec.decodeStrings(objects[key].bytes)
    ensures r.Some? ==> key in objects && objects[key].DataObject? && codec.decodeStrings(objects[key].bytes) == r
  {
    if key in objects && objects[key].DataObject? then codec.decodeStrings(objects[key].bytes) else None
  }

  /** The rule migration applies to each of the two lists: the current list is
      kept unless it is empty and the legacy list is present and non-empty. */
  function FillIfEmpty(current: seq<string>, legacy: Option<seq<string>>): (r: seq<string>)
    ensures current != [] ==> r == current
    ensures r != current ==> current == [] && legacy == Some(r) && r != []
    ensures current == [] && legacy.Some? && legacy.value != [] ==> r == legacy.value
  {
    if current == [] && legacy.Some? && legacy.value != [] then legacy.value else current
  }

  /** The user defaults once the legacy keys are removed. */
  function WithoutLegacyKeys(objects: map<string, DefaultsValue>): (r: map<string, DefaultsValue>)
    ensures RootsKey !in r && PinnedKey !in r
    ensures forall k :: k in objects && k != RootsKey && k != PinnedKey ==> k in r && r[k] == objects[k]
    ensures forall k :: k in r ==> k in objects
  {
    objects - {RootsKey, PinnedKey}
  }

  /** Removing the legacy keys twice is the same as removing them once, and with
      no legacy key present it changes nothing. */
  lemma WithoutLegacyKeysIdempotent(objects: map<string, DefaultsValue>)
    ensures WithoutLegacyKeys(WithoutLegacyKeys(objects)) == WithoutLegacyKeys(objects)
    ensures RootsKey !in objects && PinnedKey !in objects ==> WithoutLegacyKeys(objects) == objects
  {
  }

  /** What migration returns for the user defaults `objects` and the settings
      `initial`. */
  function MigrateResult(objects: map<string, DefaultsValue>, initial: SettingsFile, codec: Codec): (r: Option<SettingsFile>)
    ensures r.None? <==> RootsKey !in objects && PinnedKey !in objects
    ensures r.Some? ==> r.value.global == initial.global && r.value.repositories == initial.repositories
    ensures r.Some? ==> r.value.repositoryRoots == FillIfEmpty(initial.repositoryRoots, LegacyList(objects, RootsKey, codec))
    ensures r.Some? ==> r.value.pinnedWorktreeIDs == FillIfEmpty(initial.pinnedWorktreeIDs, LegacyList(objects, PinnedKey, codec))
  {
    if RootsKey !in objects && PinnedKey !in objects then None
    else
      Some(initial.(
        repositoryRoots := FillIfEmpty(initial.repositoryRoots, LegacyList(objects, RootsKey, codec)),
        pinnedWorktreeIDs := FillIfEmpty(initial.pinnedWorktreeIDs, LegacyList(objects, PinnedKey, codec))))
  }

  /** Migration never discards a non-empty list the settings already hold, and
      a list it changes comes from its legacy key. */
  lemma MigrateKeepsExistingLists(objects: map<string, DefaultsValue>, initial: SettingsFile, codec: Codec)
    requires MigrateResult(objects, initial, codec).Some?
    ensures var m := MigrateResult(objects, initial, codec).value;
      && (initial.repositoryRoots != [] ==> m.repositoryRoots == initial.repositoryRoots)
      && (initial.pinnedWorktreeIDs != [] ==> m.pinnedWorktreeIDs == initial.pinnedWorktreeIDs)
      && (m.repositoryRoots != initial.repositoryRoots ==> LegacyList(objects, RootsKey, codec) == Some(m.repositoryRoots))
      && (m.pinnedWorktreeIDs != initial.pinnedWorktreeIDs ==> LegacyList(objects, PinnedKey, codec) == Some(m.pinnedWorktreeIDs))
  {
  }

  /** Once the legacy keys are cleaned up there is nothing left to migrate. */
  lemma MigrateAfterCleanup(objects: map<string, DefaultsValue>, initial: SettingsFile, codec: Codec)
    ensures MigrateResult(WithoutLegacyKeys(objects), initial, codec) == None
  {
  }

  /** `SettingsFileMigration.cleanupLegacyKeys(in:)`. */
  method CleanupLegacyKeys(userDefaults: SettingsUserDefaults)
    modifies userDefaults
    ensures userDefaults.objects == WithoutLegacyKeys(old(userDefaults.objects))
  {
    if userDefaults.Object(RootsKey).Some? {
      userDefaults.RemoveObject(RootsKey);
    }
    if userDefaults.Object(PinnedKey).Some? {
      userDefaults.RemoveObject(PinnedKey);
    }
  }

  /** `SettingsFileMigration.migrate(from:initial:)`: with no legacy key present
      it returns nothing and leaves the user defaults alone; otherwise it fills
      the empty lists of `initial` from the legacy keys and removes them. */
  method Migrate(userDefaults: SettingsUserDefaults, initial: SettingsFile, codec: Codec) returns (r: Option<SettingsFile>)
    modifies userDefaults
    ensures r == MigrateResult(old(userDefaults.objects), initial, codec)
    ensures userDefaults.objects == if r.None? then old(userDefaults.objects) else WithoutLegacyKeys(old(userDefaults.objects))
  {
    var hasRoots := userDefaults.Object(RootsKey).Some?;
    var hasPinned := userDefaults.Object(PinnedKey).Some?;
    if !(hasRoots || hasPinned) {
      return None;
    }
    var settings := initial;
    if settings.repositoryRoots == [] {
      var data := userDefaults.DataForKey(RootsKey);
      if data.Some? {
        var roots := codec.decodeStrings(data.value);
        if roots.Some? && roots.value != [] {
          settings := settings.(repositoryRoots := roots.value);
        }
      }
    }
    if settings.pinnedWorktreeIDs == [] {
      var data := userDefaults.DataForKey(PinnedKey);
      if data.Some? {
        var ids := codec.decodeStrings(data.value);
        if ids.Some? && ids.value != [] {
          settings := settings.(pinnedWorktreeIDs := ids.value);
        }
      }
    }
    CleanupLegacyKeys(userDefaults);
    r := Some(settings);
  }

  // ---------------------------------------------------------------------------
  // Loading and saving through the shared key (SettingsFileKey)
  // ---------------------------------------------------------------------------

  /** The contents of both stores. */
  datatype Stores = Stores(files: map<URL, Data>, defaults: map<string, DefaultsValue>)

  /** The settings a load hands back, and the stores it leaves behind. */
  datatype LoadOutcome = LoadOutcome(settings: SettingsFile, stores: Stores)

  /** The settings stored at `url`, if there is data there and it decodes. */
  function StoredSettings(files: map<URL, Data>, url: URL, codec: Codec): Option<SettingsFile> {
    match Lookup(files, url)
    case Success(data) => codec.decode(data)
    case Failure(_) => None
  }

  /** The decision `SettingsFileKey.load` makes, starting from the stores `st`
      with the initial value `initial`:
      - the stored file decodes: return it, write no file, drop the legacy keys;
      - otherwise migration applies: store and return the migrated settings;
      - otherwise: store and return `initial`.
      Whatever the branch, the legacy keys are gone afterwards, the file at `url`
      is the encoding of the returned settings unless it was read from there,
      and no other file changes. */
  function LoadResult(st: Stores, url: URL, initial: SettingsFile, codec: Codec): (r: LoadOutcome)
    ensures r.stores.defaults == WithoutLegacyKeys(st.defaults)
    ensures StoredSettings(st.files, url, codec).Some? ==>
      r.settings == StoredSettings(st.files, url, codec).value && r.stores.files == st.files
    ensures StoredSettings(st.files, url, codec).None? ==>
      r.stores.files == st.files[url := codec.encode(r.settings)]
    ensures StoredSettings(st.files, url, codec).None? && MigrateResult(st.defaults, initial, codec).Some? ==>
      r.settings == MigrateResult(st.defaults, initial, codec).value
    ensures StoredSettings(st.files, url, codec).None? && MigrateResult(st.defaults, initial, codec).None? ==>
      r.settings == initial
  {
    match StoredSettings(st.files, url, codec)
    case Some(settings) => LoadOutcome(settings, Stores(st.files, WithoutLegacyKeys(st.defaults)))
    case None =>
      match MigrateResult(st.defaults, initial, codec)
      case Some(migrated) =>
        LoadOutcome(migrated, Stores(st.files[url := codec.encode(migrated)], WithoutLegacyKeys(st.defaults)))
      case None =>
        assert WithoutLegacyKeys(st.defaults) == st.defaults;
        LoadOutcome(initial, Stores(st.files[url := codec.encode(initial)], st.defaults))
  }

  /** With a round-tripping codec, the file a load leaves at `url` decodes to the
      settings it returned. */
  lemma LoadPersistsResult(st: Stores, url: URL, initial: SettingsFile, codec: Codec)
    requires RoundTrips(codec)
    ensures var r := LoadResult(st, url, initial, codec);
      StoredSettings(r.stores.files, url, codec) == Some(r.settings)
  {
    var r := LoadResult(st, url, initial, codec);
    if StoredSettings(st.files, url, codec).None? {
      assert Lookup(r.stores.files, url) == Success(codec.encode(r.settings));
    }
  }

  /** With a round-tripping codec, loading again returns the same settings and
      changes neither store, whatever initial value the second load is given. */
  lemma LoadIsIdempotent(st: Stores, url: URL, initial: SettingsFile, initial': SettingsFile, codec: Codec)
    requires RoundTrips(codec)
    ensures var r := LoadResult(st, url, initial, codec);
      LoadResult(r.stores, url, initial', codec) == r
  {
    var r := LoadResult(st, url, initial, codec);
    LoadPersistsResult(st, url, initial, codec);
    WithoutLegacyKeysIdempotent(st.defaults);
  }

  /** Save then load: with a round-tripping codec, a load after saving `value`
      returns `value` and writes no file. */
  lemma SaveThenLoad(files: map<URL, Data>, defaults: map<string, DefaultsValue>, url: URL, value: SettingsFile, initial: SettingsFile, codec: Codec)
    requires RoundTrips(codec)
    ensures var saved := files[url := codec.encode(value)];
      var r := LoadResult(Stores(saved, defaults), url, initial, codec);
      r.settings == value && r.stores.files == saved
  {
    var saved := files[url := codec.encode(value)];
    assert Lookup(saved, url) == Success(codec.encode(value));
  }

  /** A first launch after an upgrade: no settings file yet, the settings are the
      defaults, and both legacy keys hold non-empty lists. The load returns the
      legacy roots and pins, removes both keys, and stores what it returned. */
  lemma FirstLoadMigratesLegacyLists(
    defaults: map<string, DefaultsValue>, url: URL, codec: Codec,
    rootsData: Data, roots: seq<string>, pinnedData: Data, pinned: seq<WorktreeID>)
    requires RoundTrips(codec)
    requires roots != [] && pinned != []
    requires codec.decodeStrings(rootsData) == Some(roots) && codec.decodeStrings(pinnedData) == Some(pinned)
    ensures var before := defaults[RootsKey := DataObject(rootsData)][PinnedKey := DataObject(pinnedData)];
      var r := LoadResult(Stores(map[], before), url, DefaultSettingsFile, codec);
      && r.settings.repositoryRoots == roots
      && r.settings.pinnedWorktreeIDs == pinned
      && RootsKey !in r.stores.defaults && PinnedKey !in r.stores.defaults
      && StoredSettings(r.stores.files, url, codec) == Some(r.settings)
  {
    var before := defaults[RootsKey := DataObject(rootsData)][PinnedKey := DataObject(pinnedData)];
    assert LegacyList(before, RootsKey, codec) == Some(roots);
    assert LegacyList(before, PinnedKey, codec) == Some(pinned);
    LoadPersistsResult(Stores(map[], before), url, DefaultSettingsFile, codec);
  }

  /** The shared key for the settings file at `url`, with the JSON coding it uses. */
  class SettingsFileKey {
    const url: URL
    const codec: Codec

    constructor (url: URL, codec: Codec)
      ensures this.url == url && this.codec == codec
    {
      this.url := url;
      this.codec := codec;
    }

    /** `load(context:continuation:)`: `initialValue` is the context's initial
        value, `SettingsFile.default` standing in when there is none. Every
        attempt to save succeeds, the store being in memory. */
    method Load(storage: InMemorySettingsFileStorage, userDefaults: SettingsUserDefaults, initialValue: Option<SettingsFile>)
      returns (settings: SettingsFile)
      modifies storage, userDefaults
      ensures LoadOutcome(settings, Stores(storage.dataByURL, userDefaults.objects))
           == LoadResult(Stores(old(storage.dataByURL), old(userDefaults.objects)), url,
                         initialValue.GetOr(DefaultSettingsFile), codec)
    {
      var stored := storage.Load(url);
      if stored.Success? {
        var decoded := codec.decode(stored.value);
        if decoded.Some? {
          CleanupLegacyKeys(userDefaults);
          return decoded.value;
        }
      }
      var initial := initialValue.GetOr(DefaultSettingsFile);
      var migrated := Migrate(userDefaults, initial, codec);
      if migrated.Some? {
        Save(migrated.value, storage);
        return migrated.value;
      }
      Save(initial, storage);
      settings := initial;
    }

    /** `save(_:storage:)`: stores the encoding of `value` at `url`. */
    method Save(value: SettingsFile, storage: InMemorySettingsFileStorage)
      modifies storage
      ensures storage.dataByURL == old(storage.dataByURL)[url := codec.encode(value)]
    {
      var data := codec.encode(value);
      storage.Save(data, url);
    }
  }
}
