/** The update panel of the settings page: the status string that the six
    update listeners and `handleCheckForUpdates` drive, the
    'UPDATE AVAILABLE' badge, the status label and the two buttons. */
module UpdateLifecycle {
  import opened Ipc

  const Idle: string := "idle"
  const Checking: string := "checking"
  const Available: string := "available"
  const NotAvailable: string := "not-available"
  const Downloading: string := "downloading"
  const Downloaded: string := "downloaded"
  const Errored: string := "error"

  /** The seven strings the renderer ever stores in `updateStatus`. */
  const KnownStatuses: set<string> :=
    {Idle, Checking, Available, NotAvailable, Downloading, Downloaded, Errored}

  datatype UpdateInfo = UpdateInfo(version: string)
  datatype Progress = Progress(percent: real)

  /** The six push events the main process sends on the update channels. */
  datatype UpdateEvent =
    | CheckingForUpdate
    | UpdateAvailable(info: UpdateInfo)
    | UpdateNotAvailable(info: UpdateInfo)
    | UpdateError(message: string)
    | DownloadProgress(progress: Progress)
    | UpdateDownloaded(info: UpdateInfo)

  /** The update-related state fields of the component. */
  datatype UpdatePanel = UpdatePanel(
    status: string,
    updateAvailable: bool,
    info: Option<UpdateInfo>,
    progress: Option<Progress>)

  /** The status each listener stores; no event leads back to 'idle'. */
  function StatusSetBy(e: UpdateEvent): (s: string)
    ensures s in KnownStatuses && s != Idle
    ensures s == Checking <==> e.CheckingForUpdate?
    ensures s == Available <==> e.UpdateAvailable?
    ensures s == NotAvailable <==> e.UpdateNotAvailable?
    ensures s == Errored <==> e.UpdateError?
    ensures s == Downloading <==> e.DownloadProgress?
    ensures s == Downloaded <==> e.UpdateDownloaded?
  {
    match e
    case CheckingForUpdate => Checking
    case UpdateAvailable(_) => Available
    case UpdateNotAvailable(_) => NotAvailable
    case UpdateError(_) => Errored
    case DownloadProgress(_) => Downloading
    case UpdateDownloaded(_) => Downloaded
  }

  /** What the listener for `e` does to the panel. The reducer is total: the
      new status depends on the event only, never on the current status. */
  function OnEvent(p: UpdatePanel, e: UpdateEvent): (r: UpdatePanel)
    ensures r.status == StatusSetBy(e)
    ensures r.updateAvailable != p.updateAvailable ==> e.UpdateAvailable? || e.UpdateNotAvailable?
    ensures e.UpdateAvailable? ==> r.updateAvailable && r.info == Some(e.info)
    ensures e.UpdateNotAvailable? ==> !r.updateAvailable
    ensures !e.UpdateAvailable? ==> r.info == p.info
    ensures e.DownloadProgress? ==> r.progress == Some(e.progress)
    ensures !e.DownloadProgress? ==> r.progress == p.progress
  {
    match e
    case CheckingForUpdate => p.(status := Checking)
    case UpdateAvailable(info) => p.(status := Available, info := Some(info), updateAvailable := true)
    case UpdateNotAvailable(_) => p.(status := NotAvailable, updateAvailable := false)
    case UpdateError(_) => p.(status := Errored)
    case DownloadProgress(progress) => p.(progress := Some(progress), status := Downloading)
    case UpdateDownloaded(_) => p.(status := Downloaded)
  }

  /** The panel after the listeners have handled `evs`, in order. */
  function Replay(p: UpdatePanel, evs: seq<UpdateEvent>): UpdatePanel
    decreases |evs|
  {
    if evs == [] then p else OnEvent(Replay(p, evs[..|evs| - 1]), evs[|evs| - 1])
  }

  /** Events that decide the badge: 'available' raises it, 'not-available' lowers it. */
  predicate DecidesBadge(e: UpdateEvent) {
    e.UpdateAvailable? || e.UpdateNotAvailable?
  }

  /** After any non-empty run of events the status is the one the last event set. */
  lemma ReplayStatusIsLastEvent(p: UpdatePanel, evs: seq<UpdateEvent>)
    requires evs != []
    ensures Replay(p, evs).status == StatusSetBy(evs[|evs| - 1])
    ensures Replay(p, evs).status in KnownStatuses
  {
  }

  /** The badge shows the verdict of the latest 'available' / 'not-available'
      event; 'error', 'downloaded' and the others leave it alone. */
  lemma {:induction false} ReplayBadgeIsLatestVerdict(p: UpdatePanel, evs: seq<UpdateEvent>, k: nat)
    requires k < |evs| && DecidesBadge(evs[k])
    requires forall j :: k < j < |evs| ==> !DecidesBadge(evs[j])
    ensures Replay(p, evs).updateAvailable == evs[k].UpdateAvailable?
    decreases |evs|
  {
    if k < |evs| - 1 {
      var front := evs[..|evs| - 1];
      assert forall j :: k < j < |front| ==> front[j] == evs[j];
      ReplayBadgeIsLatestVerdict(p, front, k);
    }
  }

  /** With no deciding event the badge keeps its initial value. */
  lemma {:induction false} ReplayBadgeUntouched(p: UpdatePanel, evs: seq<UpdateEvent>)
    requires forall j :: 0 <= j < |evs| ==> !DecidesBadge(evs[j])
    ensures Replay(p, evs).updateAvailable == p.updateAvailable
    decreases |evs|
  {
    if evs != [] {
      var front := evs[..|evs| - 1];
      assert forall j :: 0 <= j < |front| ==> front[j] == evs[j];
      ReplayBadgeUntouched(p, front);
    }
  }

  /** The renderer does not enforce the lifecycle order: a progress event
      arriving in 'idle' is shown as 'downloading' without any 'available'. */
  lemma ReducerIsPermissive(p: UpdatePanel, pr: Progress)
    requires p.status == Idle
    ensures Replay(p, [DownloadProgress(pr)]).status == Downloading
  {
    assert [DownloadProgress(pr)][..0] == [];
  }

  /** 'Check for Updates' is disabled while checking or downloading. */
  predicate CheckButtonDisabled(status: string)
    ensures CheckButtonDisabled(status) ==> status in KnownStatuses && status != Idle
  {
    status == Checking || status == Downloading
  }

  /** 'Restart & Install' is rendered only in 'downloaded'. */
  predicate InstallButtonShown(status: string)
    ensures InstallButtonShown(status) ==> status in KnownStatuses && !CheckButtonDisabled(status)
  {
    status == Downloaded
  }

  /** The caption of the check button. */
  function CheckButtonCaption(status: string): (caption: string)
    ensures caption == "\U{1F504} Checking..." <==> status == Checking
  {
    if status == Checking then "\U{1F504} Checking..." else "\U{1F50D} Check for Updates"
  }

  /** The buttons after a run of events follow the last event alone. */
  lemma ButtonsFollowLastEvent(p: UpdatePanel, evs: seq<UpdateEvent>)
    requires evs != []
    ensures var last := evs[|evs| - 1];
      CheckButtonDisabled(Replay(p, evs).status) <==> (last.CheckingForUpdate? || last.DownloadProgress?)
    ensures InstallButtonShown(Replay(p, evs).status) <==> evs[|evs| - 1].UpdateDownloaded?
  {
    ReplayStatusIsLastEvent(p, evs);
  }

  /** The status `handleCheckForUpdates` leaves: it stores 'checking' first and
      falls to 'error' unless the reply reports success. */
  function StatusAfterCheckRequest(reply: Outcome<bool>): (s: string)
    ensures s in KnownStatuses
    ensures s == Checking <==> Confirmed(reply)
    ensures s != Checking ==> s == Errored
    ensures CheckButtonDisabled(s) <==> Confirmed(reply)
    ensures !InstallButtonShown(s)
  {
    if Confirmed(reply) then Checking else Errored
  }

  /** The 'Status:' line. `percentText` is the progress already formatted by
      `toFixed(1)`. Any string outside the seven known ones reads 'Unknown'. */
  function StatusLabel(status: string, percentText: string): (text: string)
    ensures text == "Unknown" <==> status !in KnownStatuses
    ensures status == Downloading ==> text == "Downloading... " + percentText + "%"
  {
    if status == Idle then "Ready"
    else if status == Checking then "Checking for updates..."
    else if status == Available then "Update available!"
    else if status == Downloading then "Downloading... " + percentText + "%"
    else if status == Downloaded then "Ready to install"
    else if status == NotAvailable then "Up to date"
    else if status == Errored then "Error checking for updates"
    else "Unknown"
  }
}
