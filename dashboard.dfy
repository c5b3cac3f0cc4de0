/** The dashboard component of App.tsx: its state fields and the handlers
    that update them. Each asynchronous handler runs as one step and receives
    the outcome of the IPC call it awaits; the startup toggle is split at its
    `await`, so that the in-flight guard of its click handler can be seen. */
module Dashboard {
  import opened Ipc
  import opened Health
  import opened UpdateLifecycle
  import opened Polling
  import opened Startup
  import opened Cleanup

  const StartWithWindowsKey: string := "startWithWindows"
  const ShowNotificationsKey: string := "showNotifications"

  datatype NoticeKind = Success | Failure

  /** `settingNotification` while visible. */
  datatype Notice = Notice(message: string, kind: NoticeKind)

  /** `startupUpdateStatus`: the program whose toggle is in flight. */
  datatype PendingToggle = PendingToggle(id: string, loading: bool)

  /** The reply of `runPerformanceOptimization`; an absent `error` is the
      empty string, both being falsy for `result.error || 'Unknown error'`. */
  datatype OptimizationReply = OptimizationReply(success: bool, error: string)

  /** The notice of `handleStartupProgramToggle`: success exactly when the
      main process confirmed, and its wording names the requested state. */
  function ToggleNotice(program: StartupProgram, reply: Outcome<bool>): (n: Notice)
    ensures n.kind == Success <==> Confirmed(reply)
    ensures Confirmed(reply) ==>
      n.message == program.name + " " + (if program.enabled then "disabled" else "enabled") + " on startup"
  {
    match reply
    case Resolved(true) =>
      Notice(program.name + " " + (if !program.enabled then "enabled" else "disabled") + " on startup", Success)
    case Resolved(false) => Notice("Failed to update " + program.name + " startup status", Failure)
    case Threw => Notice("Error updating " + program.name + " startup status", Failure)
  }

  /** The notice of `handleSettingChange`. `reply` is the `success` field of
      `setStartWithWindows` for the start-with-Windows key and the boolean
      reply of `saveSetting` for every other key. */
  function SettingNotice(key: string, value: bool, reply: Outcome<bool>): (n: Notice)
    ensures n.kind == Success <==> Confirmed(reply)
    ensures reply.Threw? ==> n.message == "Error changing setting " + key
  {
    match reply
    case Threw => Notice("Error changing setting " + key, Failure)
    case Resolved(ok) =>
      if key == StartWithWindowsKey then
        if ok then
          Notice(if value then "App will now start with Windows" else "App will no longer start with Windows", Success)
        else Notice("Failed to change startup setting", Failure)
      else if ok then Notice("Settings saved successfully", Success)
      else Notice("Failed to save settings", Failure)
  }

  /** The notice of `handlePerformanceOptimization`: a kind-specific success
      message, any other kind getting the generic one. */
  function OptimizationNotice(kind: string, reply: Outcome<OptimizationReply>): (n: Notice)
    ensures n.kind == Success <==> reply.Resolved? && reply.value.success
    ensures reply.Resolved? && !reply.value.success && reply.value.error == "" ==>
      n.message == "Failed to optimize " + kind + ": Unknown error"
  {
    match reply
    case Threw => Notice("Error optimizing " + kind, Failure)
    case Resolved(result) =>
      if result.success then
        Notice(
          if kind == "memory" then "Memory optimization completed successfully"
          else if kind == "network" then "Network optimization completed successfully"
          else if kind == "disk" then "Disk optimization completed successfully"
          else "System optimization completed successfully",
          Success)
      else
        Notice("Failed to optimize " + kind + ": " + (if result.error == "" then "Unknown error" else result.error), Failure)
  }

  class Dashboard {
    var systemStats: Option<Stats>
    var systemInfo: Option<SystemInfo>
    var startupPrograms: seq<StartupProgram>
    var cleanupResult: CleanupState
    var loading: bool
    var error: Option<string>
    var lastUpdate: int
    var isOnline: bool
    var performanceOptimizationResult: Option<OptimizationReply>
    var optimizationLoading: map<string, bool>
    var startupUpdateStatus: Option<PendingToggle>
    var settings: map<string, bool>
    var updateStatus: string
    var updateInfo: Option<UpdateInfo>
    var downloadProgress: Option<Progress>
    var appVersion: string
    var updateAvailable: bool
    var settingNotification: Option<Notice>

    /** Every handler stores one of the seven known statuses. */
    ghost predicate Valid()
      reads this`updateStatus
    {
      updateStatus in KnownStatuses
    }

    function Connection(): Link
      reads this`isOnline, this`error, this`loading
    {
      Link(isOnline, error, loading)
    }

    function Panel(): UpdatePanel
      reads this`updateStatus, this`updateAvailable, this`updateInfo, this`downloadProgress
    {
      UpdatePanel(updateStatus, updateAvailable, updateInfo, downloadProgress)
    }

    /** The 'Status:' line never reads 'Unknown' in a reachable state. */
    function StatusLine(percentText: string): (text: string)
      reads this`updateStatus
      requires Valid()
      ensures text != "Unknown"
    {
      StatusLabel(updateStatus, percentText)
    }

    /** The initial `useState` values; `now` is the clock reading of `new Date()`. */
    constructor (now: int)
      ensures Valid()
      ensures systemStats == None && systemInfo == None && startupPrograms == []
      ensures cleanupResult == NoCleanup && lastUpdate == now
      ensures Connection() == Link(true, None, true)
      ensures performanceOptimizationResult == None
      ensures optimizationLoading == map["memory" := false, "network" := false, "disk" := false]
      ensures startupUpdateStatus == None
      ensures settings == map[StartWithWindowsKey := false, ShowNotificationsKey := true]
      ensures Panel() == UpdatePanel(Idle, false, None, None)
      ensures appVersion == "1.1.0" && settingNotification == None
    {
      systemStats, systemInfo, startupPrograms := None, None, [];
      cleanupResult := NoCleanup;
      loading, error, lastUpdate, isOnline := true, None, now, true;
      performanceOptimizationResult := None;
      optimizationLoading := map["memory" := false, "network" := false, "disk" := false];
      startupUpdateStatus := None;
      settings := map[StartWithWindowsKey := false, ShowNotificationsKey := true];
      updateStatus, updateInfo, downloadProgress := Idle, None, None;
      appVersion, updateAvailable := "1.1.0", false;
      settingNotification := None;
    }

    /** `loadSettings`: a non-null reply replaces the settings object. */
    method LoadSettings(reply: Outcome<Option<map<string, bool>>>)
      modifies this`settings
      ensures settings == if reply.Resolved? && reply.value.Some? then reply.value.value else old(settings)
    {
      if reply.Resolved? && reply.value.Some? {
        settings := reply.value.value;
      }
    }

    /** `loadSystemData`: all three replies are taken only when stats and info
        are both non-null (a null startup list becomes empty); otherwise only
        the flags change. */
    method LoadSystemData(reply: Outcome<Snapshot<StartupProgram>>, now: int)
      modifies this`systemStats, this`systemInfo, this`startupPrograms, this`lastUpdate
      modifies this`loading, this`isOnline, this`error
      ensures Connection() == AfterDataLoad(old(Connection()), reply)
      ensures DataLoadSucceeds(reply) ==>
        && systemStats == reply.value.stats && systemInfo == reply.value.info
        && startupPrograms == (if reply.value.startup.Some? then reply.value.startup.value else [])
        && lastUpdate == now
      ensures !DataLoadSucceeds(reply) ==>
        && systemStats == old(systemStats) && systemInfo == old(systemInfo)
        && startupPrograms == old(startupPrograms) && lastUpdate == old(lastUpdate)
    {
      error := None;
      if reply.Threw? || reply.value.stats.None? || reply.value.info.None? {
        error := Some(LoadFailedMessage);
        loading := false;
        isOnline := false;
      } else {
        systemStats := reply.value.stats;
        systemInfo := reply.value.info;
        startupPrograms := if reply.value.startup.Some? then reply.value.startup.value else [];
        lastUpdate := now;
        loading := false;
        isOnline := true;
      }
    }

    /** `loadSystemStats`: stats are stored and the clock read only when the reply is non-null. */
    method LoadSystemStats(reply: Outcome<Option<Stats>>, now: int)
      modifies this`systemStats, this`lastUpdate, this`isOnline, this`error
      ensures Connection() == AfterStatsPoll(old(Connection()), reply)
      ensures reply.Resolved? && reply.value.Some? ==> systemStats == reply.value && lastUpdate == now
      ensures !(reply.Resolved? && reply.value.Some?) ==>
        systemStats == old(systemStats) && lastUpdate == old(lastUpdate)
    {
      if reply.Threw? {
        isOnline := false;
      } else if reply.value.Some? {
        systemStats := reply.value;
        lastUpdate := now;
        isOnline := true;
        error := None;
      }
    }

    /** `handleCleanup`. */
    method HandleCleanup(reply: Outcome<Option<CleanupReport>>)
      modifies this`cleanupResult
      ensures cleanupResult == AfterCleanup(reply)
    {
      cleanupResult := Cleaning;
      match reply {
        case Resolved(Some(report)) => cleanupResult := Finished(report);
        case Resolved(None) => cleanupResult := NoCleanup;
        case Threw => cleanupResult := CleanupThrew(CleanupFailedMessage);
      }
    }

    /** The listener registered by `setupUpdateListeners` for `e`. */
    method OnUpdateEvent(e: UpdateEvent)
      modifies this`updateStatus, this`updateAvailable, this`updateInfo, this`downloadProgress
      ensures Valid()
      ensures Panel() == OnEvent(old(Panel()), e)
    {
      match e {
        case CheckingForUpdate =>
          updateStatus := Checking;
        case UpdateAvailable(info) =>
          updateStatus := Available;
          updateInfo := Some(info);
          updateAvailable := true;
        case UpdateNotAvailable(_) =>
          updateStatus := NotAvailable;
          updateAvailable := false;
        case UpdateError(_) =>
          updateStatus := Errored;
        case DownloadProgress(progress) =>
          downloadProgress := Some(progress);
          updateStatus := Downloading;
        case UpdateDownloaded(_) =>
          updateStatus := Downloaded;
      }
    }

    /** `handleCheckForUpdates`; `reply` is the `success` field of the reply. */
    method CheckForUpdates(reply: Outcome<bool>)
      modifies this`updateStatus
      ensures Valid()
      ensures updateStatus == StatusAfterCheckRequest(reply)
    {
      updateStatus := Checking;
      if !Confirmed(reply) {
        updateStatus := Errored;
      }
    }

    /** `loadAppVersion`: a non-null reply replaces the version shown. */
    method LoadAppVersion(reply: Outcome<Option<string>>)
      modifies this`appVersion
      ensures appVersion == if reply.Resolved? && reply.value.Some? then reply.value.value else old(appVersion)
    {
      if reply.Resolved? && reply.value.Some? {
        appVersion := reply.value.value;
      }
    }

    /** A click on a toggle switch, up to the `await` of
        `handleStartupProgramToggle`: ignored while another toggle is in
        flight, otherwise it marks `program` as in flight. */
    method ClickStartupToggle(program: StartupProgram) returns (started: bool)
      modifies this`startupUpdateStatus
      ensures started <==> old(startupUpdateStatus) == None
      ensures startupUpdateStatus == if started then Some(PendingToggle(program.id, true)) else old(startupUpdateStatus)
    {
      started := startupUpdateStatus == None;
      if started {
        startupUpdateStatus := Some(PendingToggle(program.id, true));
      }
    }

    /** The rest of `handleStartupProgramToggle` once `updateStartupProgram`
        has answered: the list changes only on a confirmed reply, and the
        `finally` block always clears the in-flight mark. */
    method FinishStartupToggle(program: StartupProgram, reply: Outcome<bool>)
      requires startupUpdateStatus == Some(PendingToggle(program.id, true))
      modifies this`startupPrograms, this`startupUpdateStatus, this`settingNotification
      ensures startupPrograms == if Confirmed(reply) then ToggleById(old(startupPrograms), program.id) else old(startupPrograms)
      ensures startupUpdateStatus == None
      ensures settingNotification == Some(ToggleNotice(program, reply))
    {
      if Confirmed(reply) {
        startupPrograms := ToggleById(startupPrograms, program.id);
      }
      settingNotification := Some(ToggleNotice(program, reply));
      startupUpdateStatus := None;
    }

    /** `handleSettingChange`: `settings[key]` becomes `value` only when the
        main process confirms, and no other key changes. */
    method HandleSettingChange(key: string, value: bool, reply: Outcome<bool>)
      modifies this`settings, this`settingNotification
      ensures settings == if Confirmed(reply) then old(settings)[key := value] else old(settings)
      ensures Confirmed(reply) ==> key in settings && settings[key] == value
      ensures forall k :: k != key ==> (k in settings <==> k in old(settings))
      ensures forall k :: k != key && k in settings ==> settings[k] == old(settings)[k]
      ensures settingNotification == Some(SettingNotice(key, value, reply))
    {
      if Confirmed(reply) {
        settings := settings[key := value];
      }
      settingNotification := Some(SettingNotice(key, value, reply));
    }

    /** `handlePerformanceOptimization`: the result is kept only on success,
        and the `finally` block leaves the kind's button enabled (adding the
        key for a kind the map did not have). */
    method HandlePerformanceOptimization(kind: string, reply: Outcome<OptimizationReply>)
      modifies this`optimizationLoading, this`performanceOptimizationResult, this`settingNotification
      ensures optimizationLoading == old(optimizationLoading)[kind := false]
      ensures performanceOptimizationResult ==
        if reply.Resolved? && reply.value.success then Some(reply.value) else old(performanceOptimizationResult)
      ensures settingNotification == Some(OptimizationNotice(kind, reply))
    {
      optimizationLoading := optimizationLoading[kind := true];
      if reply.Resolved? && reply.value.success {
        performanceOptimizationResult := Some(reply.value);
      }
      settingNotification := Some(OptimizationNotice(kind, reply));
      optimizationLoading := optimizationLoading[kind := false];
    }

    /** The timer of `showSettingNotification` hides the notice. */
    method HideNotification()
      modifies this`settingNotification
      ensures settingNotification == None
    {
      settingNotification := None;
    }
  }
}
