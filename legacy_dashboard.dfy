/** The earlier dashboard component of App.new.tsx. Its update panel, loaders
    and health score behave as in App.tsx; its startup list has no ids and a
    click toggles an entry by position, in place, without asking the main
    process. */
module LegacyDashboard {
  import opened Ipc
  import opened Health
  import opened UpdateLifecycle
  import opened Polling
  import opened Cleanup

  /** A startup entry object. The toggle copies the array but not the
      entries, so it writes through the same object the old array holds. */
  class StartupEntry {
    var name: string
    var enabled: bool
    var impact: string

    constructor (name: string, enabled: bool, impact: string)
      ensures this.name == name && this.enabled == enabled && this.impact == impact
    {
      this.name, this.enabled, this.impact := name, enabled, impact;
    }
  }

  /** The `enabled` flags of a list of entries, in order. */
  function Flags(es: seq<StartupEntry>): (fs: seq<bool>)
    reads es
    ensures |fs| == |es|
    ensures forall i :: 0 <= i < |es| ==> fs[i] == es[i].enabled
  {
    if es == [] then [] else [es[0].enabled] + Flags(es[1..])
  }

  /** The list holds each entry object once. */
  predicate Distinct(es: seq<StartupEntry>) {
    forall i, j :: 0 <= i < j < |es| ==> es[i] != es[j]
  }

  /** Flipping one flag of a list of flags. */
  function FlipAt(fs: seq<bool>, index: nat): (r: seq<bool>)
    requires index < |fs|
    ensures |r| == |fs| && r[index] == !fs[index]
    ensures forall j :: 0 <= j < |fs| && j != index ==> r[j] == fs[j]
  {
    fs[index := !fs[index]]
  }

  /** Two clicks on the same switch restore the flags. */
  lemma FlipAtTwice(fs: seq<bool>, index: nat)
    requires index < |fs|
    ensures FlipAt(FlipAt(fs, index), index) == fs
  {
  }

  class LegacyDashboard {
    var systemStats: Option<Stats>
    var systemInfo: Option<SystemInfo>
    var startupPrograms: seq<StartupEntry>
    var cleanupResult: CleanupState
    var loading: bool
    var error: Option<string>
    var lastUpdate: int
    var isOnline: bool
    var updateStatus: string
    var updateAvailable: bool
    var updateInfo: Option<UpdateInfo>
    var downloadProgress: Option<Progress>
    var appVersion: string

    /** Every handler stores one of the seven known statuses. */
    ghost predicate Valid()
      reads this`updateStatus
    {
      updateStatus in KnownStatuses
    }

    function Connection(): Link
      reads this`isOnline, this`error, this`loading
    {
      Link(isOnline, error, loading)
    }

    function Panel(): UpdatePanel
      reads this`updateStatus, this`updateAvailable, this`updateInfo, this`downloadProgress
    {
      UpdatePanel(updateStatus, updateAvailable, updateInfo, downloadProgress)
    }

    /** The 'Status:' line never reads 'Unknown' in a reachable state. */
    function StatusLine(percentText: string): (text: string)
      reads this`updateStatus
      requires Valid()
      ensures text != "Unknown"
    {
      StatusLabel(updateStatus, percentText)
    }

    /** The initial `useState` values; `now` is the clock reading of `new Date()`. */
    constructor (now: int)
      ensures Valid()
      ensures systemStats == None && systemInfo == None && startupPrograms == []
      ensures cleanupResult == NoCleanup && lastUpdate == now
      ensures Connection() == Link(true, None, true)
      ensures Panel() == UpdatePanel(Idle, false, None, None)
      ensures appVersion == "1.0.0"
    {
      systemStats, systemInfo, startupPrograms := None, None, [];
      cleanupResult := NoCleanup;
      loading, error, lastUpdate, isOnline := true, None, now, true;
      updateStatus, updateAvailable, updateInfo, downloadProgress := Idle, false, None, None;
      appVersion := "1.0.0";
    }

    /** `loadSystemData`, as in App.tsx. */
    method LoadSystemData(reply: Outcome<Snapshot<StartupEntry>>, now: int)
      modifies this`systemStats, this`systemInfo, this`startupPrograms, this`lastUpdate
      modifies this`loading, this`isOnline, this`error
      ensures Connection() == AfterDataLoad(old(Connection()), reply)
      ensures DataLoadSucceeds(reply) ==>
        && systemStats == reply.value.stats && systemInfo == reply.value.info
        && startupPrograms == (if reply.value.startup.Some? then reply.value.startup.value else [])
        && lastUpdate == now
      ensures !DataLoadSucceeds(reply) ==>
        && systemStats == old(systemStats) && systemInfo == old(systemInfo)
        && startupPrograms == old(startupPrograms) && lastUpdate == old(lastUpdate)
    {
      error := None;
      if reply.Threw? || reply.value.stats.None? || reply.value.info.None? {
        error := Some(LoadFailedMessage);
        loading := false;
        isOnline := false;
      } else {
        systemStats := reply.value.stats;
        systemInfo := reply.value.info;
        startupPrograms := if reply.value.startup.Some? then reply.value.startup.value else [];
        lastUpdate := now;
        loading := false;
        isOnline := true;
      }
    }

    /** `loadSystemStats`, as in App.tsx. */
    method LoadSystemStats(reply: Outcome<Option<Stats>>, now: int)
      modifies this`systemStats, this`lastUpdate, this`isOnline, this`error
      ensures Connection() == AfterStatsPoll(old(Connection()), reply)
      ensures reply.Resolved? && reply.value.Some? ==> systemStats == reply.value && lastUpdate == now
      ensures !(reply.Resolved? && reply.value.Some?) ==>
        systemStats == old(systemStats) && lastUpdate == old(lastUpdate)
    {
      if reply.Threw? {
        isOnline := false;
      } else if reply.value.Some? {
        systemStats := reply.value;
        lastUpdate := now;
        isOnline := true;
        error := None;
      }
    }

    /** `handleCleanup`. */
    method HandleCleanup(reply: Outcome<Option<CleanupReport>>)
      modifies this`cleanupResult
      ensures cleanupResult == AfterCleanup(reply)
    {
      cleanupResult := Cleaning;
      match reply {
        case Resolved(Some(report)) => cleanupResult := Finished(report);
        case Resolved(None) => cleanupResult := NoCleanup;
        case Threw => cleanupResult := CleanupThrew(CleanupFailedMessage);
      }
    }

    /** The listener registered by `setupUpdateListeners` for `e`. */
    method OnUpdateEvent(e: UpdateEvent)
      modifies this`updateStatus, this`updateAvailable, this`updateInfo, this`downloadProgress
      ensures Valid()
      ensures Panel() == OnEvent(old(Panel()), e)
    {
      match e {
        case CheckingForUpdate =>
          updateStatus := Checking;
        case UpdateAvailable(info) =>
          updateStatus := Available;
          updateInfo := Some(info);
          updateAvailable := true;
        case UpdateNotAvailable(_) =>
          updateStatus := NotAvailable;
          updateAvailable := false;
        case UpdateError(_) =>
          updateStatus := Errored;
        case DownloadProgress(progress) =>
          downloadProgress := Some(progress);
          updateStatus := Downloading;
        case UpdateDownloaded(_) =>
          updateStatus := Downloaded;
      }
    }

    /** `handleCheckForUpdates`; `reply` is the `success` field of the reply. */
    method CheckForUpdates(reply: Outcome<bool>)
      modifies this`updateStatus
      ensures Valid()
      ensures updateStatus == StatusAfterCheckRequest(reply)
    {
      updateStatus := Checking;
      if !Confirmed(reply) {
        updateStatus := Errored;
      }
    }

    /** `loadAppVersion`: a non-null reply replaces the version shown. */
    method LoadAppVersion(reply: Outcome<Option<string>>)
      modifies this`appVersion
      ensures appVersion == if reply.Resolved? && reply.value.Some? then reply.value.value else old(appVersion)
    {
      if reply.Resolved? && reply.value.Some? {
        appVersion := reply.value.value;
      }
    }

    /** The click handler of the switch rendered at `index`: copy the array,
        flip `enabled` of the entry at `index` in place, store the copy. The
        copy holds the same entry objects in the same order, so the old list
        sees the flip too; an entry object listed twice flips at both places. */
    method ToggleAt(index: nat)
      requires index < |startupPrograms|
      modifies this`startupPrograms, startupPrograms[index]
      ensures startupPrograms == old(startupPrograms)
      ensures startupPrograms[index].enabled == !old(startupPrograms[index].enabled)
      ensures startupPrograms[index].name == old(startupPrograms[index].name)
      ensures startupPrograms[index].impact == old(startupPrograms[index].impact)
      ensures forall j :: 0 <= j < |startupPrograms| && startupPrograms[j] != startupPrograms[index] ==>
        startupPrograms[j].enabled == old(startupPrograms[j].enabled)
      ensures Distinct(startupPrograms) ==> Flags(startupPrograms) == FlipAt(old(Flags(startupPrograms)), index)
    {
      var updated := startupPrograms;
      updated[index].enabled := !updated[index].enabled;
      startupPrograms := updated;
    }
  }
}
