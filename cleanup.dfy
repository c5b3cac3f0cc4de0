/** The temporary-file cleanup card (`handleCleanup`), shared by both versions of the dashboard. */
module Cleanup {
  import opened Ipc

  const CleanupFailedMessage: string := "Failed to clean temporary files. Please try again."

  /** The reply of `cleanTempFiles`. An absent `error` is the empty string:
      both are falsy where the page tests it. */
  datatype CleanupReport = CleanupReport(success: bool, filesDeleted: nat, spaceFreed: string, error: string)

  /** `cleanupResult`: null (nothing shown), `{ loading: true }`, the reply
      as received, or the `{ success: false, error }` object of the catch block. */
  datatype CleanupState = NoCleanup | Cleaning | Finished(report: CleanupReport) | CleanupThrew(message: string)

  /** The state `handleCleanup` ends in: it shows the running state while
      waiting, then stores the reply as received (a null reply clears the
      card), or the failure message if the call threw. */
  function AfterCleanup(reply: Outcome<Option<CleanupReport>>): (s: CleanupState)
    ensures !CleanButtonDisabled(s)
    ensures s.Finished? <==> reply.Resolved? && reply.value.Some?
    ensures reply.Resolved? && reply.value.Some? ==> s.report == reply.value.value
    ensures s == NoCleanup <==> reply == Resolved(None)
    ensures s.CleanupThrew? <==> reply.Threw?
    ensures reply.Threw? ==> s == CleanupThrew(CleanupFailedMessage)
  {
    match reply
    case Resolved(Some(report)) => Finished(report)
    case Resolved(None) => NoCleanup
    case Threw => CleanupThrew(CleanupFailedMessage)
  }

  /** The clean button is disabled while `cleanupResult.loading` is set:
      only in the running state, never with nothing, a report or a failure shown. */
  predicate CleanButtonDisabled(s: CleanupState)
    ensures CleanButtonDisabled(s) ==> !s.NoCleanup? && !s.Finished? && !s.CleanupThrew?
  {
    s.Cleaning?
  }
}
