/** Per-repository settings kept in the `repositories` table of the shared
    settings file, keyed by the repository root's standardized path
    (RepositorySettingsStorage.swift). */
module RepositorySettingsStorage {
  import opened SettingsFileModel
  import opened Foundation

  /** The settings file value shared through `@Shared(.settingsFile)`; both
      operations update it in place under its lock. */
  class SharedSettingsFile {
    var value: SettingsFile

    constructor (value: SettingsFile)
      ensures this.value == value
    {
      this.value := value;
    }
  }

  /** `repositoryID(for:)`: the key of a repository root. */
  function RepositoryID(rootURL: FileURL): (id: string)
    ensures id != [] && id[0] == '/'
    ensures id == StandardizedPath(FileURL(Standardize(rootURL.pathComponents)))
  {
    StandardizeIdempotent(rootURL.pathComponents);
    StandardizedPath(rootURL)
  }

  /** Roots that standardize to the same components share one entry, so a root
      and its standardized form do. */
  lemma SameStandardFormSameID(a: FileURL, b: FileURL)
    requires Standardize(a.pathComponents) == Standardize(b.pathComponents)
    ensures RepositoryID(a) == RepositoryID(b)
    ensures RepositoryID(FileURL(Standardize(a.pathComponents))) == RepositoryID(a)
  {
  }

  /** For roots whose components hold no slash, sharing an entry means exactly
      standardizing to the same components. */
  lemma SameIDIffSameStandardForm(a: FileURL, b: FileURL)
    requires IsSlashFree(a.pathComponents) && IsSlashFree(b.pathComponents)
    ensures RepositoryID(a) == RepositoryID(b) <==> Standardize(a.pathComponents) == Standardize(b.pathComponents)
  {
    var ca, cb := Standardize(a.pathComponents), Standardize(b.pathComponents);
    if RepositoryID(a) == RepositoryID(b) {
      StandardizeIdempotent(a.pathComponents);
      StandardizeIdempotent(b.pathComponents);
      StandardizeFromKeepsSlashFree([], a.pathComponents);
      StandardizeFromKeepsSlashFree([], b.pathComponents);
      JoinPathShape(ca);
      JoinPathShape(cb);
      assert ca != [] ==> |JoinPath(ca)| >= 2 by { assert ca != [] ==> !IsDotOrEmpty(ca[0]); }
      assert cb != [] ==> |JoinPath(cb)| >= 2 by { assert cb != [] ==> !IsDotOrEmpty(cb[0]); }
      assert (ca == []) == (cb == []);
      if ca != [] {
        JoinPathInjective(ca, cb);
      }
    }
  }

  /** `/tmp/repo-b/../repo-b`, `/tmp/./repo-b` and `/tmp//repo-b` name the same
      entry as `/tmp/repo-b`. */
  lemma DotComponentsShareEntry()
    ensures RepositoryID(FileURL(["tmp", "repo-b", "..", "repo-b"])) == RepositoryID(FileURL(["tmp", "repo-b"]))
    ensures RepositoryID(FileURL(["tmp", ".", "repo-b"])) == RepositoryID(FileURL(["tmp", "repo-b"]))
    ensures RepositoryID(FileURL(["tmp", "", "repo-b"])) == RepositoryID(FileURL(["tmp", "repo-b"]))
  {
  }

  /** The entry a load returns and the table it leaves, for the key `id`. */
  function LoadEntry(repositories: map<string, RepositorySettings>, id: string): (r: (RepositorySettings, map<string, RepositorySettings>))
    ensures id in r.1 && r.0 == r.1[id]
    ensures id in repositories ==> r.1 == repositories
    ensures id !in repositories ==> r.0 == DefaultRepositorySettings && r.1 == repositories[id := DefaultRepositorySettings]
  {
    if id in repositories then (repositories[id], repositories)
    else (DefaultRepositorySettings, repositories[id := DefaultRepositorySettings])
  }

  /** A load changes no entry but its own, and only by creating it. */
  lemma LoadEntryKeepsOthers(repositories: map<string, RepositorySettings>, id: string, other: string)
    requires other in repositories
    ensures var after := LoadEntry(repositories, id).1;
      other in after && after[other] == repositories[other]
  {
  }

  /** Loading twice returns the same settings and leaves the table as the first
      load did. */
  lemma LoadEntryIdempotent(repositories: map<string, RepositorySettings>, id: string)
    ensures var first := LoadEntry(repositories, id);
      LoadEntry(first.1, id) == first
  {
  }

  /** A load after a save under the same key returns the saved settings and
      changes nothing. */
  lemma SaveThenLoadEntry(repositories: map<string, RepositorySettings>, id: string, settings: RepositorySettings)
    ensures LoadEntry(repositories[id := settings], id) == (settings, repositories[id := settings])
  {
  }

  /** `load(for:)`: the entry for `rootURL`, created with the default settings
      when absent. Nothing else in the settings file changes. */
  method Load(shared: SharedSettingsFile, rootURL: FileURL) returns (r: RepositorySettings)
    modifies shared
    ensures (r, shared.value.repositories) == LoadEntry(old(shared.value.repositories), RepositoryID(rootURL))
    ensures shared.value == old(shared.value).(repositories := shared.value.repositories)
  {
    var repositoryID := RepositoryID(rootURL);
    if repositoryID in shared.value.repositories {
      return shared.value.repositories[repositoryID];
    }
    var defaults := DefaultRepositorySettings;
    shared.value := shared.value.(repositories := shared.value.repositories[repositoryID := defaults]);
    r := defaults;
  }

  /** `save(_:for:)`: overwrites the entry for `rootURL`; nothing else in the
      settings file changes. */
  method Save(shared: SharedSettingsFile, settings: RepositorySettings, rootURL: FileURL)
    modifies shared
    ensures shared.value == old(shared.value).(repositories := old(shared.value.repositories)[RepositoryID(rootURL) := settings])
  {
    var repositoryID := RepositoryID(rootURL);
    shared.value := shared.value.(repositories := shared.value.repositories[repositoryID := settings]);
  }

  /** Saving under one root and loading under another that standardizes to the
      same components returns what was saved. */
  method SaveThenLoad(shared: SharedSettingsFile, settings: RepositorySettings, saveRoot: FileURL, loadRoot: FileURL)
    returns (loaded: RepositorySettings)
    requires Standardize(saveRoot.pathComponents) == Standardize(loadRoot.pathComponents)
    modifies shared
    ensures loaded == settings
    ensures shared.value == old(shared.value).(repositories := old(shared.value.repositories)[RepositoryID(saveRoot) := settings])
  {
    Save(shared, settings, saveRoot);
    SameStandardFormSameID(saveRoot, loadRoot);
    loaded := Load(shared, loadRoot);
  }
}
