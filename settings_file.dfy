/** The value stored in the settings file. Its Swift definition (`SettingsFile`,
    `GlobalSettings`, `RepositorySettings` and their defaults) is not part of this
    model; the fields below are the ones the persistence code and its tests
    touch. */
module SettingsFileModel {

  type WorktreeID = string

  datatype AppearanceMode = System | Light | Dark

  datatype GlobalSettings = GlobalSettings(
    appearanceMode: AppearanceMode,
    updatesAutomaticallyCheckForUpdates: bool,
    updatesAutomaticallyDownloadUpdates: bool,
    inAppNotificationsEnabled: bool)

  /** Per-repository settings; only the run script is modelled. */
  datatype RepositorySettings = RepositorySettings(runScript: string)

  datatype SettingsFile = SettingsFile(
    global: GlobalSettings,
    repositoryRoots: seq<string>,
    pinnedWorktreeIDs: seq<WorktreeID>,
    repositories: map<string, RepositorySettings>)

  /** `RepositorySettings.default`. */
  const DefaultRepositorySettings: RepositorySettings := RepositorySettings("")

  /** `SettingsFile.default`: no roots, no pins, no per-repository entries. */
  const DefaultSettingsFile: SettingsFile :=
    SettingsFile(GlobalSettings(System, true, false, true), [], [], map[])
}
