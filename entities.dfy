/** The records the my-addons page and the options section work on. */
module Entities {
  import opened Wrappers

  /** The fields of an addon that the modelled operations read or write. */
  datatype Addon = Addon(
    id: Option<string>,
    name: string,
    author: string,
    providerName: string,
    installedVersion: Option<string>,
    latestVersion: string,
    isIgnored: bool,
    autoUpdateEnabled: bool,
    autoUpdateNotificationsEnabled: bool,
    warningType: Option<string>,
    installationId: string)

  /** One row of the addon grid (an `AddonViewModel`): the wrapped addon, if
      any, and the names the grid sorts by. */
  datatype Row = Row(addon: Option<Addon>, name: string, canonicalName: string)

  /** A game installation (`label` is a Dafny keyword, hence `displayLabel`). */
  datatype Installation = Installation(id: string, displayLabel: string)

  datatype InstallState = Unknown | Pending | Downloading | BackingUp | Installing | Complete | Error

  /** An install/update progress notification. */
  datatype AddonUpdateEvent = AddonUpdateEvent(addon: Addon, installState: InstallState, progress: int)

  /** `r.addon?.id`. */
  function RowKey(r: Row): (k: Option<string>)
    ensures r.addon.None? ==> k.None?
    ensures r.addon.Some? ==> k == r.addon.value.id
  {
    if r.addon.Some? then r.addon.value.id else None
  }
}
