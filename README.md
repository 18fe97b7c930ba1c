# supacode settings persistence and branch-name editor, in Dafny

This project models three small pieces of supacode, a macOS app for managing git worktrees with embedded terminals:

- **Settings file persistence** (`SettingsFilePersistence.swift`). `SettingsFileKey.load` decides which settings to use. If the stored settings file decodes, it uses that file and cleans up the legacy user-defaults keys. Otherwise it migrates the repository roots and pinned worktrees from those legacy keys, then saves. Otherwise it saves the initial value. Migration only fills a list that is empty, from a legacy list that decodes and is non-empty. The in-memory file store is a URL→data table. The user defaults are a key→object table.
- **Per-repository settings** (`RepositorySettingsStorage.swift`). This is a get-or-insert-default / overwrite pair on the `repositories` table of the shared settings file. The table is keyed by the standardized path of the repository root.
- **Branch-name editing** in the worktree detail title (`WorktreeDetailTitleView.swift`). This is a state machine over `isEditing`, `draftName` and `isFocused`. Beginning, cancelling, committing and losing focus update it. A commit trims the draft and submits it only when it is non-empty and differs from the current branch.

Files:

- `wrappers.dfy`: `Option` and `Result`.
- `foundation.dfy`: the two Foundation behaviours the code relies on:
  - `trimmingCharacters(in: .whitespacesAndNewlines)`;
  - the path of `standardizedFileURL`.
- `settings_file.dfy`: the settings file value and its defaults.
- `settings_file_persistence.dfy`: the file store, the user defaults, migration, and the settings key's load and save.
- `repository_settings_storage.dfy`: the per-repository table.
- `worktree_detail_title.dfy`: the title editor.

Stateful parts are classes whose methods say what the new state is:

- the in-memory store;
- the user defaults;
- the settings key;
- the shared settings value;
- the title editor.

Each is tied to a pure specification function (`LoadResult`, `MigrateResult`, `LoadEntry`, `CommitSubmission`), and the lemmas state properties about those functions. The JSON coder is a `Codec` value of three functions. The lemmas that need a round trip (`decode(encode(x)) == x`) require it through `RoundTrips(codec)`.

## Model

| member | source | states |
|---|---|---|
| `SettingsFilePersistence.InMemorySettingsFileStorage.Load` | supacode/Features/Settings/BusinessLogic/SettingsFilePersistence.swift:50-57 | returns the data stored at the URL, or fails with `Missing` when nothing was saved there |
| `SettingsFilePersistence.InMemorySettingsFileStorage.Save` | supacode/Features/Settings/BusinessLogic/SettingsFilePersistence.swift:59-63 | the table afterwards is the old table with only that URL set to the data |
| `SettingsFilePersistence.LookupAfterSave` | supacode/Features/Settings/BusinessLogic/SettingsFilePersistence.swift:50-63 | after a save, loading that URL gives exactly the saved data, and loading any other URL gives what it gave before |
| `SettingsFilePersistence.LookupNeverSaved` | supacode/Features/Settings/BusinessLogic/SettingsFilePersistence.swift:53-55 | loading a URL never saved fails with `Missing` |
| `SettingsFilePersistence.SettingsUserDefaults.Object` | supacode/Features/Settings/BusinessLogic/SettingsFilePersistence.swift:74-76 | an object is returned exactly when the key is present, and it is the one stored |
| `SettingsFilePersistence.SettingsUserDefaults.DataForKey` | supacode/Features/Settings/BusinessLogic/SettingsFilePersistence.swift:70-72 | data is returned exactly when the object under the key is data, and it is that data |
| `SettingsFilePersistence.SettingsUserDefaults.RemoveObject` | supacode/Features/Settings/BusinessLogic/SettingsFilePersistence.swift:78-80 | removes that one key and nothing else |
| `SettingsFilePersistence.LegacyList` | supacode/Features/Settings/BusinessLogic/SettingsFilePersistence.swift:111-120 | when the key holds data, the result is exactly what that data decodes to as a list of strings (none if it does not decode); with no data under the key there is no list |
| `SettingsFilePersistence.FillIfEmpty` | supacode/Features/Settings/BusinessLogic/SettingsFilePersistence.swift:111-124 | a non-empty current list is kept; a changed list was empty before and now equals a present, non-empty legacy list; an empty list with a non-empty legacy list takes that list |
| `SettingsFilePersistence.WithoutLegacyKeys` | supacode/Features/Settings/BusinessLogic/SettingsFilePersistence.swift:129-136 | neither legacy key remains, every other key keeps its value, and no key is added |
| `SettingsFilePersistence.WithoutLegacyKeysIdempotent` | supacode/Features/Settings/BusinessLogic/SettingsFilePersistence.swift:129-136 | cleaning up twice equals cleaning up once, and cleaning up with no legacy key present changes nothing |
| `SettingsFilePersistence.MigrateResult` | supacode/Features/Settings/BusinessLogic/SettingsFilePersistence.swift:104-127 | returns none exactly when neither legacy key is present; otherwise the global settings and repository table are those of `initial`, and each of the two lists follows the fill-only-if-empty rule from its own legacy key |
| `SettingsFilePersistence.MigrateKeepsExistingLists` | supacode/Features/Settings/BusinessLogic/SettingsFilePersistence.swift:111-124 | migration never replaces a non-empty roots or pinned list, and any list it changes comes from its legacy key |
| `SettingsFilePersistence.MigrateAfterCleanup` | supacode/Features/Settings/BusinessLogic/SettingsFilePersistence.swift:105-107 | once the legacy keys are removed, migration returns none |
| `SettingsFilePersistence.CleanupLegacyKeys` | supacode/Features/Settings/BusinessLogic/SettingsFilePersistence.swift:129-136 | the user defaults afterwards are the old ones without the two legacy keys |
| `SettingsFilePersistence.Migrate` | supacode/Features/Settings/BusinessLogic/SettingsFilePersistence.swift:104-127 | returns `MigrateResult` of the old user defaults; the defaults are untouched when it returns none and lose both legacy keys otherwise |
| `SettingsFilePersistence.LoadResult` | supacode/Features/Settings/BusinessLogic/SettingsFilePersistence.swift:154-175 | when the stored file decodes, returns it and writes no file; otherwise stores the encoding of the migrated value, or of `initial` when there is nothing to migrate, and returns it; in every branch the legacy keys are gone afterwards and no other file changes |
| `SettingsFilePersistence.LoadPersistsResult` | supacode/Features/Settings/BusinessLogic/SettingsFilePersistence.swift:158-174 | with a round-tripping codec, the file left at the URL decodes to the returned settings |
| `SettingsFilePersistence.LoadIsIdempotent` | supacode/Features/Settings/BusinessLogic/SettingsFilePersistence.swift:154-175 | with a round-tripping codec, a second load returns the same settings and changes neither store |
| `SettingsFilePersistence.SaveThenLoad` | supacode/Features/Settings/BusinessLogic/SettingsFilePersistence.swift:158-164 | with a round-tripping codec, a load after saving a value returns that value and writes nothing |
| `SettingsFilePersistence.FirstLoadMigratesLegacyLists` | supacodeTests/SettingsFilePersistenceTests.swift:109-138 | with no file and non-empty legacy lists, the load returns those lists, removes both keys, and stores what it returned |
| `SettingsFilePersistence.SettingsFileKey.Load` | supacode/Features/Settings/BusinessLogic/SettingsFilePersistence.swift:154-175 | the returned settings and both stores afterwards are exactly `LoadResult` of the stores before, with the context's initial value or the default |
| `SettingsFilePersistence.SettingsFileKey.Save` | supacode/Features/Settings/BusinessLogic/SettingsFilePersistence.swift:184-197 | stores the encoding of the value at the key's URL and changes no other URL |
| `RepositorySettingsStorage.RepositoryID` | supacode/Features/Settings/BusinessLogic/RepositorySettingsStorage.swift:26-28 | the key is an absolute path and depends only on the standardized components of the root |
| `RepositorySettingsStorage.SameStandardFormSameID` | supacode/Features/Settings/BusinessLogic/RepositorySettingsStorage.swift:6-19 | roots that standardize alike get the same key, and so does a root's standardized form |
| `RepositorySettingsStorage.SameIDIffSameStandardForm` | supacode/Features/Settings/BusinessLogic/RepositorySettingsStorage.swift:26-28 | for slash-free components, two roots share a key exactly when they standardize to the same components |
| `RepositorySettingsStorage.DotComponentsShareEntry` | supacode/Features/Settings/BusinessLogic/RepositorySettingsStorage.swift:26-28 | `/tmp/repo-b/../repo-b`, `/tmp/./repo-b` and `/tmp//repo-b` key the same entry as `/tmp/repo-b` |
| `RepositorySettingsStorage.LoadEntry` | supacode/Features/Settings/BusinessLogic/RepositorySettingsStorage.swift:8-15 | afterwards the key is present and the returned settings are its entry; a present key leaves the table unchanged; an absent key gets the default settings, which are returned |
| `RepositorySettingsStorage.LoadEntryKeepsOthers` | supacode/Features/Settings/BusinessLogic/RepositorySettingsStorage.swift:9-14 | a load leaves every other existing entry unchanged |
| `RepositorySettingsStorage.LoadEntryIdempotent` | supacode/Features/Settings/BusinessLogic/RepositorySettingsStorage.swift:9-15 | a second load returns the same settings and leaves the table as the first left it |
| `RepositorySettingsStorage.SaveThenLoadEntry` | supacode/Features/Settings/BusinessLogic/RepositorySettingsStorage.swift:13-22 | a load after a save under the same key returns the saved settings and changes nothing |
| `RepositorySettingsStorage.Load` | supacode/Features/Settings/BusinessLogic/RepositorySettingsStorage.swift:5-16 | result and new table are `LoadEntry` of the old table under the root's key; the rest of the settings file is unchanged |
| `RepositorySettingsStorage.Save` | supacode/Features/Settings/BusinessLogic/RepositorySettingsStorage.swift:18-24 | the table afterwards is the old one with the root's key set to the settings; the rest of the settings file is unchanged |
| `RepositorySettingsStorage.SaveThenLoad` | supacodeTests/RepositorySettingsStorageTests.swift:33-53 | saving under one root and loading under any root that standardizes alike returns what was saved |
| `Foundation.IsWhitespaceOrNewline` | supacode/Features/Repositories/Views/WorktreeDetailTitleView.swift:52 | within ASCII, the members of `.whitespacesAndNewlines` are exactly the space and tab to carriage return; every other member lies between U+0085 and U+3000 |
| `Foundation.TrimLeading` | supacode/Features/Repositories/Views/WorktreeDetailTitleView.swift:52 | the result is a suffix of the input that does not start with whitespace, and everything removed is whitespace |
| `Foundation.TrimTrailing` | supacode/Features/Repositories/Views/WorktreeDetailTitleView.swift:52 | the result is a prefix of the input that does not end with whitespace, and everything removed is whitespace |
| `Foundation.TrimmedPiece` | supacode/Features/Repositories/Views/WorktreeDetailTitleView.swift:52 | cutting leading then trailing whitespace leaves a piece of the input with only whitespace before and after it, empty exactly when the input is all whitespace |
| `Foundation.Trim` | supacode/Features/Repositories/Views/WorktreeDetailTitleView.swift:52 | the result is a contiguous piece of the input with only whitespace before and after it, starts and ends with non-whitespace, and is empty exactly when the input is all whitespace |
| `Foundation.TrimIdempotent` | supacode/Features/Repositories/Views/WorktreeDetailTitleView.swift:52 | trimming a trimmed string changes nothing |
| `Foundation.TrimOfTrimmed` | supacode/Features/Repositories/Views/WorktreeDetailTitleView.swift:52 | a string with no whitespace at either end is its own trimming |
| `Foundation.StandardizeFromIsStandard` | supacode/Features/Settings/BusinessLogic/RepositorySettingsStorage.swift:27 | standardization leaves no empty, `.` or `..` component |
| `Foundation.StandardizeFromStandard` | supacode/Features/Settings/BusinessLogic/RepositorySettingsStorage.swift:27 | standard components pass through standardization unchanged |
| `Foundation.StandardizeIdempotent` | supacode/Features/Settings/BusinessLogic/RepositorySettingsStorage.swift:27 | standardizing twice equals standardizing once |
| `Foundation.JoinPathInjective` | supacode/Features/Settings/BusinessLogic/RepositorySettingsStorage.swift:27 | different lists of slash-free components give different paths |
| `Foundation.StandardizedPath` | supacode/Features/Settings/BusinessLogic/RepositorySettingsStorage.swift:27 | the path of a standardized file URL is absolute; the standardization it uses (`Standardize`/`StandardizeFrom`) drops empty and `.` components and lets `..` remove the component before it |
| `WorktreeDetailTitle.CommitSubmission` | supacode/Features/Repositories/Views/WorktreeDetailTitleView.swift:51-58 | something is submitted exactly when the draft is not all whitespace and its trimming differs from the branch name; what is submitted is the trimmed draft, a non-empty piece of the draft with no whitespace at either end |
| `WorktreeDetailTitle.CommitIgnoresSurroundingWhitespace` | supacode/Features/Repositories/Views/WorktreeDetailTitleView.swift:52-56 | committing the trimmed draft submits what committing the draft does |
| `WorktreeDetailTitle.CommitOfBranchNameSubmitsNothing` | supacode/Features/Repositories/Views/WorktreeDetailTitleView.swift:56 | a draft that trims to the branch name submits nothing |
| `WorktreeDetailTitle.TitleEditor.BeginEditing` | supacode/Features/Repositories/Views/WorktreeDetailTitleView.swift:39-43 | sets the draft to the branch name, and editing and focus to true; submits nothing |
| `WorktreeDetailTitle.TitleEditor.EditDraft` | supacode/Features/Repositories/Views/WorktreeDetailTitleView.swift:14 | while editing, the draft becomes the typed text; nothing else changes |
| `WorktreeDetailTitle.TitleEditor.Cancel` | supacode/Features/Repositories/Views/WorktreeDetailTitleView.swift:45-49 | sets editing and focus to false, resets the draft to the branch name, and submits nothing |
| `WorktreeDetailTitle.TitleEditor.Commit` | supacode/Features/Repositories/Views/WorktreeDetailTitleView.swift:51-59 | sets editing and focus to false whatever the draft, and appends the trimmed draft to the submissions exactly once when `CommitSubmission` yields it, and nothing otherwise |
| `WorktreeDetailTitle.TitleEditor.FocusChanged` | supacode/Features/Repositories/Views/WorktreeDetailTitleView.swift:19-23 | losing focus while editing ends in the same state as `Cancel`; gaining focus while editing keeps the draft; with no text field shown nothing changes |
| `WorktreeDetailTitle.EditAndCommit` | supacode/Features/Repositories/Views/WorktreeDetailTitleView.swift:39-58 | begin, type, and press Return ends editing and submits what `CommitSubmission` gives for the typed text |

## Left out

- The worktree info watcher (its scheduler, timers, debouncing and event stream) is not part of this model. Its implementation is not among these sources; only a sleep-based test of it is.
- The live file store is not modelled: creating the directory and writing the file atomically. Its write can fail. The in-memory store modelled here never fails, so the `try?` that discards save errors in `load`, and the error path of `SettingsFileKey.save`, are not modelled.
- The user-defaults wrapper stands for the system `UserDefaults` as a table from key to object. Suite names and persistence across launches are not modelled.
- JSON encoding and decoding are parameters (`Codec`), not definitions. Pretty-printing and sorted keys are left out. The decoding of older files with missing fields happens in `SettingsFile`'s Codable conformance, and that is not part of this model.
- `SettingsFile.default` and `RepositorySettings.default` are not part of this model. Their definitions are not among these sources. Both are modelled with empty collections and fixed flags. Only `runScript` is modelled in `RepositorySettings`. No proved property depends on the default flag values.
- Locking (`NSLock`, `withLock`) is not modelled: each operation is one atomic method.
- The shared-key plumbing is not modelled: `@Shared`, the no-op `subscribe`, dependency keys, and the writing of the settings file when a shared value is mutated.
- Foundation.StandardizedPath: it works on a URL already split into path components, so percent-encoding and relative paths are not modelled. Neither are symbolic links. `..` at the root is dropped. A directory URL's trailing slash, which `path(percentEncoded: false)` keeps, has no representation: a final empty component is dropped like any other, so the model gives `/tmp/repo-b/` the key of `/tmp/repo-b` where the source keeps them apart.
- WorktreeDetailTitle.CommitSubmission: it compares the trimmed draft with the branch name scalar by scalar. Swift's `String` `!=` treats canonically equivalent strings as equal, so a draft `caf\u{E9}` on branch `cafe\u{301}` submits nothing in the source but is submitted here. Unicode normalisation is not modelled.
- WorktreeDetailTitle.TitleEditor.FocusChanged: it runs only while the text field is shown. `commit` clears the focus in the same update that hides the field, so the model does not run the handler then. If SwiftUI did deliver that change, the draft would reset to the branch name, and nothing submitted would differ. The focus change and the handler's `cancel()` are one step here, so the moment in which the field has lost focus but `isEditing` is still true is not modelled; that is why `TitleEditor.Valid` can require focus exactly while editing.
- The SwiftUI view body, the mapping of key events to `commit`/`cancel`, and the `onSubmit` callback are not modelled. The callback is kept as the list of submitted names.
- `RepositoryPersistenceClient`, `PullRequestStatusModel`, and the app, window, terminal and hardware code are not part of this model.
