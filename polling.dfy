/** How the two data loaders, `loadSystemData` (the first load and the Retry
    button) and `loadSystemStats` (the 3-second poll and the refresh button),
    move the connectivity flags of the overview page. */
module Polling {
  import opened Ipc
  import opened Health

  const LoadFailedMessage: string :=
    "Failed to load system information. Please restart the application."

  /** The static part of the system description (`SystemInfo`); the page only
      renders it, so the model keeps the platform name. */
  datatype SystemInfo = SystemInfo(platform: string)

  /** The three replies `loadSystemData` awaits with `Promise.all`; a rejection
      of any of them is the `Threw` outcome of the whole bundle. */
  datatype Snapshot<P> = Snapshot(stats: Option<Stats>, info: Option<SystemInfo>, startup: Option<seq<P>>)

  /** `isOnline`, `error` and `loading`, as one value. */
  datatype Link = Link(isOnline: bool, error: Option<string>, loading: bool)

  /** `loadSystemData` takes its success branch only when both the stats and
      the info replies are non-null. */
  predicate DataLoadSucceeds<P>(reply: Outcome<Snapshot<P>>) {
    reply.Resolved? && reply.value.stats.Some? && reply.value.info.Some?
  }

  /** `loadSystemData`: success sets online and clears the error; any failure
      (a rejection or a null stats or info) sets offline and the message. Both
      paths clear `loading`. */
  function AfterDataLoad<P>(c: Link, reply: Outcome<Snapshot<P>>): (r: Link)
    ensures !r.loading
    ensures r.isOnline <==> DataLoadSucceeds(reply)
    ensures r.error == None <==> DataLoadSucceeds(reply)
    ensures r.error.Some? ==> r.error.value == LoadFailedMessage
  {
    if DataLoadSucceeds(reply) then Link(true, None, false)
    else Link(false, Some(LoadFailedMessage), false)
  }

  /** `loadSystemStats`: a stats object sets online and clears the error; a
      null reply changes nothing; a rejection sets only offline. */
  function AfterStatsPoll(c: Link, reply: Outcome<Option<Stats>>): (r: Link)
    ensures r.loading == c.loading
    ensures reply == Resolved(None) ==> r == c
    ensures r.error != c.error ==> reply.Resolved? && reply.value.Some? && r.error == None
    ensures r.isOnline != c.isOnline ==> (r.isOnline <==> reply.Resolved?)
    ensures reply.Threw? ==> !r.isOnline && r.error == c.error
    ensures reply.Resolved? && reply.value.Some? ==> r.isOnline && r.error == None
  {
    match reply
    case Resolved(Some(_)) => c.(isOnline := true, error := None)
    case Resolved(None) => c
    case Threw => c.(isOnline := false)
  }

  /** One completed load of either kind. */
  datatype Refresh<P> = StatsPoll(statsReply: Outcome<Option<Stats>>) | DataLoad(dataReply: Outcome<Snapshot<P>>)

  function AfterRefresh<P>(c: Link, ev: Refresh<P>): Link {
    match ev
    case StatsPoll(reply) => AfterStatsPoll(c, reply)
    case DataLoad(reply) => AfterDataLoad(c, reply)
  }

  /** The flags after the loads `evs` have completed, in order. */
  function RefreshAll<P>(c: Link, evs: seq<Refresh<P>>): Link
    decreases |evs|
  {
    if evs == [] then c else AfterRefresh(RefreshAll(c, evs[..|evs| - 1]), evs[|evs| - 1])
  }

  /** Loads that decide `isOnline`: every data load, and every poll that did
      not come back null. */
  predicate DecidesOnline<P>(ev: Refresh<P>) {
    ev.DataLoad? || ev.statsReply != Resolved(None)
  }

  /** The value a deciding load gives `isOnline`. */
  predicate OnlineVerdict<P>(ev: Refresh<P>) {
    match ev
    case DataLoad(reply) => DataLoadSucceeds(reply)
    case StatsPoll(reply) => reply.Resolved?
  }

  /** Loads that decide `error`: every data load, and every poll that returned stats. */
  predicate DecidesError<P>(ev: Refresh<P>) {
    ev.DataLoad? || (ev.statsReply.Resolved? && ev.statsReply.value.Some?)
  }

  /** `isOnline` is the verdict of the latest deciding load: a null poll
      reply does not count as a failure, a rejected one does. */
  lemma {:induction false} OnlineFollowsLatestDecidingLoad<P>(c: Link, evs: seq<Refresh<P>>, k: nat)
    requires k < |evs| && DecidesOnline(evs[k])
    requires forall j :: k < j < |evs| ==> !DecidesOnline(evs[j])
    ensures RefreshAll(c, evs).isOnline == OnlineVerdict(evs[k])
    decreases |evs|
  {
    if k < |evs| - 1 {
      var front := evs[..|evs| - 1];
      assert forall j :: k < j < |front| ==> front[j] == evs[j];
      OnlineFollowsLatestDecidingLoad(c, front, k);
    }
  }

  /** A run of null poll replies changes none of the three flags. */
  lemma {:induction false} NullPollsChangeNothing<P>(c: Link, evs: seq<Refresh<P>>)
    requires forall j :: 0 <= j < |evs| ==> !DecidesOnline(evs[j])
    ensures RefreshAll(c, evs) == c
    decreases |evs|
  {
    if evs != [] {
      var front := evs[..|evs| - 1];
      assert forall j :: 0 <= j < |front| ==> front[j] == evs[j];
      NullPollsChangeNothing(c, front);
    }
  }

  /** The error banner shows the message exactly when the latest deciding
      load was a failed data load; a rejected poll never clears or sets it. */
  lemma {:induction false} ErrorFollowsLatestDecidingLoad<P>(c: Link, evs: seq<Refresh<P>>, k: nat)
    requires k < |evs| && DecidesError(evs[k])
    requires forall j :: k < j < |evs| ==> !DecidesError(evs[j])
    ensures RefreshAll(c, evs).error ==
              if evs[k].DataLoad? && !DataLoadSucceeds(evs[k].dataReply) then Some(LoadFailedMessage) else None
    decreases |evs|
  {
    if k < |evs| - 1 {
      var front := evs[..|evs| - 1];
      assert forall j :: k < j < |front| ==> front[j] == evs[j];
      ErrorFollowsLatestDecidingLoad(c, front, k);
    }
  }

  /** `loading` is cleared by the first data load and by nothing else, and it
      is never set again. */
  lemma {:induction false} LoadingUntilFirstDataLoad<P>(c: Link, evs: seq<Refresh<P>>)
    ensures RefreshAll(c, evs).loading <==> c.loading && forall j :: 0 <= j < |evs| ==> !evs[j].DataLoad?
    decreases |evs|
  {
    if evs != [] {
      var front := evs[..|evs| - 1];
      assert forall j :: 0 <= j < |front| ==> front[j] == evs[j];
      LoadingUntilFirstDataLoad(c, front);
    }
  }
}
