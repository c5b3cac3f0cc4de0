# System Health Monitor dashboard — a Dafny model

This project models the renderer side of the System Health Monitor desktop
application: the React dashboard component of `src/renderer/App.tsx` and its
earlier variant `src/renderer/App.new.tsx`. The main process shown in the
repository only forwards telemetry queries; every decision the application
makes about what the user sees lives in the dashboard's event handlers and
helpers, and those are what is modelled:

- the update panel: the status string driven by the six update listeners and
  by `handleCheckForUpdates`, the 'UPDATE AVAILABLE' badge, the status line
  and the gating of the 'Check for Updates' and 'Restart & Install' buttons
  (`UpdateLifecycle`);
- the two loaders, `loadSystemData` and `loadSystemStats`, and what they do
  to `isOnline`, `error` and `loading` (`Polling`);
- the health score and its 80/60/40 buckets, over `real` numbers (`Health`);
- the startup-program list of App.tsx: the toggle by id, committed only when
  the main process confirms, and the 50-character location line (`Startup`);
- the cleanup card (`Cleanup`);
- the component state of App.tsx as the class `Dashboard.Dashboard`, and of
  App.new.tsx as `LegacyDashboard.LegacyDashboard`, one method per handler.

Each asynchronous handler is one step: it receives, as a parameter, how the
IPC call it awaits ended (`Ipc.Outcome`: `Resolved(value)` or `Threw`). A
reply that is null where the handler reads a property of it (`result.success`)
throws inside the handler's `try`, so it is the `Threw` case too. The clock
(`new Date()`) is a parameter `now`. The one handler split in two is the
startup toggle of App.tsx: `ClickStartupToggle` is the click guard and the
code up to the `await`, `FinishStartupToggle` the rest, so that the in-flight
guard can be stated. `FinishStartupToggle` requires the in-flight mark that
`ClickStartupToggle` set for the same program; that is the state the handler
itself established before its `await`, not a demand on its callers.

The pure specifications (`OnEvent`, `AfterStatsPoll`, `AfterDataLoad`,
`ToggleById`, `AfterCleanup`, `StatusAfterCheckRequest`) are what the class
methods are proved against; the lemmas beside them state what runs of events
lead to. App.new.tsx has the same listeners, loaders, health score and status
line as App.tsx (App.new.tsx:535-569, 87-127, 146-157, 476-485), so its class
reuses the same specifications. Its startup list differs: entries are objects
without ids, and a click flips `enabled` of the entry at its index in place,
after a shallow copy of the array, with no IPC call, no failure path and no
in-flight guard. The model keeps the entries as objects (`StartupEntry`), so
the aliasing is visible: the stored array holds the same objects as before.

Some behaviour of the code worth knowing, which the model keeps:

- The renderer enforces no order on the update lifecycle: every event sets
  its status whatever the current one, so 'downloading' can follow 'idle'
  with no 'available' in between (`UpdateLifecycle.ReducerIsPermissive`).
- The connectivity flag does not simply follow the most recent poll: a null
  stats reply is not a failure and changes nothing; only a rejected call
  goes offline.
- The startup toggle does not set a requested `enabled` value: it asks the
  main process for `!program.enabled` and then flips the current `enabled`
  of every entry whose id equals `program.id`.
- The start-with-login setting is stored under the key `startWithWindows`.
- `src/main/main.js` registers no handler for the update, settings,
  start-with-Windows, startup-update or optimization channels, and its
  startup list has no ids. Against that main process every such call
  rejects, which the model covers as `Threw`.

## Model

| member | source | states |
|---|---|---|
| Health.HealthScore | src/renderer/App.tsx:192-203 | no stats gives score 0, 'Unknown' and grey; otherwise the score is the mean of the two head-rooms clamped at 0, never negative, at most 100 when both usages are non-negative, and the status is 'Excellent' iff score ≥ 80, 'Good' iff 60 ≤ score < 80, 'Fair' iff 40 ≤ score < 60, 'Poor' iff score < 40 (same code at App.new.tsx:146-157) |
| Health.AtLeastZero | src/renderer/App.tsx:195-196 | `Math.max(0, x)` is at least 0 and at least x, and is one of the two |
| Health.HealthMonotone | src/renderer/App.tsx:195-202 | lower or equal CPU and memory usage never give a lower score or a worse status |
| UpdateLifecycle.StatusSetBy | src/renderer/App.tsx:739-773 | each update event stores one of the seven known statuses, never 'idle', and the status identifies the event: 'checking' exactly for checking, 'available' exactly for available, 'not-available' exactly for not-available, 'error' exactly for error, 'downloading' exactly for progress, 'downloaded' exactly for downloaded |
| UpdateLifecycle.OnEvent | src/renderer/App.tsx:739-773 | the new status depends on the event only; the badge changes only on 'available' (raised, info stored) or 'not-available' (lowered); progress is stored only by progress events; info only by 'available' |
| UpdateLifecycle.ReplayStatusIsLastEvent | src/renderer/App.tsx:739-773 | after any non-empty run of events the status is the one the last event sets, a known status |
| UpdateLifecycle.ReplayBadgeIsLatestVerdict | src/renderer/App.tsx:745-756 | the badge equals the verdict of the latest 'available'/'not-available' event; error, progress, checking and downloaded events after it leave it alone |
| UpdateLifecycle.ReplayBadgeUntouched | src/renderer/App.new.tsx:535-569 | a run without 'available'/'not-available' leaves the badge as it was |
| UpdateLifecycle.ReducerIsPermissive | src/renderer/App.tsx:763-767 | a progress event in 'idle' shows 'downloading' although no 'available' came first |
| UpdateLifecycle.ButtonsFollowLastEvent | src/renderer/App.tsx:703-720 | after a run of events the check button is disabled iff the last event was 'checking' or a progress event, and the install button exists iff it was 'downloaded' |
| UpdateLifecycle.StatusAfterCheckRequest | src/renderer/App.tsx:786-800 | the check handler leaves 'checking' iff the reply reports success and 'error' otherwise (failure or throw); the check button is then disabled iff the request was accepted; the install button never shows |
| UpdateLifecycle.CheckButtonDisabled | src/renderer/App.tsx:707 | the check button is disabled only in a known, non-idle status ('checking' or 'downloading'; same gating at App.new.tsx:503) |
| UpdateLifecycle.InstallButtonShown | src/renderer/App.tsx:712 | the install button appears only in a known status in which the check button is enabled ('downloaded'; same at App.new.tsx:508) |
| UpdateLifecycle.CheckButtonCaption | src/renderer/App.tsx:709 | the caption reads 'Checking...' exactly in 'checking' |
| UpdateLifecycle.StatusLabel | src/renderer/App.new.tsx:476-485 | the status line reads 'Unknown' iff the status is none of the seven known strings; 'downloading' shows the formatted percentage |
| Polling.AfterDataLoad | src/renderer/App.tsx:133-158 | loading always cleared; online and no error iff the call resolved with non-null stats and info; otherwise offline with the restart message |
| Polling.AfterStatsPoll | src/renderer/App.tsx:160-173 | loading never touched; a stats reply sets online and clears the error; a null reply changes nothing; the error changes only to cleared and only on a stats reply; a throw goes offline and keeps the error |
| Polling.OnlineFollowsLatestDecidingLoad | src/renderer/App.tsx:133-173 | after any run of loads `isOnline` is the verdict of the latest data load or non-null poll: a rejected poll is offline, a null poll does not count |
| Polling.NullPollsChangeNothing | src/renderer/App.tsx:162-168 | a run of null poll replies leaves all three flags as they were |
| Polling.ErrorFollowsLatestDecidingLoad | src/renderer/App.new.tsx:87-127 | the error banner shows the restart message iff the latest data load or stats-returning poll was a failed data load; rejected polls never set or clear it |
| Polling.LoadingUntilFirstDataLoad | src/renderer/App.tsx:150-155 | the spinner stays iff it was on and no data load has completed; polls never clear it |
| Startup.ToggleById | src/renderer/App.tsx:859-865 | the list keeps its length and order; each entry whose id matches has `enabled` flipped and nothing else changed; every other entry is unchanged |
| Startup.ToggleByIdFlipsExactlyOne | src/renderer/App.tsx:861-864 | with unique ids exactly the clicked entry changes, and only its `enabled` flag |
| Startup.ToggleByIdUnknownId | src/renderer/App.tsx:862-864 | an id no entry has leaves the list unchanged |
| Startup.ToggleByIdTwice | src/renderer/App.tsx:863 | toggling the same id twice restores the list |
| Startup.DisplayLocation | src/renderer/App.tsx:593 | the location shown is at most 50 characters; longer ones become their first 47 characters and '...', exactly 50; others are shown unchanged |
| Cleanup.AfterCleanup | src/renderer/App.tsx:175-190 | the cleanup ends out of the running state; it shows the report iff the call resolved with a non-null reply, clears the card iff the reply was null, and shows the failure message iff the call threw |
| Cleanup.CleanButtonDisabled | src/renderer/App.tsx:420 | the clean button is disabled only in the running state, never with nothing, a report or a failure shown (same at App.new.tsx:374) |
| Dashboard.ToggleNotice | src/renderer/App.tsx:867-884 | the toggle notice is a success iff the main process confirmed, naming the requested state |
| Dashboard.SettingNotice | src/renderer/App.tsx:823-849 | the settings notice is a success iff the relevant call confirmed; a throw names the setting |
| Dashboard.OptimizationNotice | src/renderer/App.tsx:899-932 | the optimization notice is a success iff the reply reports success; a failure without an error text reads 'Unknown error' |
| Dashboard.Dashboard.constructor | src/renderer/App.tsx:68-107 | the initial state: loading, online, no error, status 'idle', no badge, version 1.1.0, default settings, all optimization buttons enabled |
| Dashboard.Dashboard.StatusLine | src/renderer/App.tsx:680-689 | in every reachable state the status line is not 'Unknown' |
| Dashboard.Dashboard.LoadSettings | src/renderer/App.tsx:122-131 | a non-null reply replaces the settings; a null reply or a throw keeps them |
| Dashboard.Dashboard.LoadSystemData | src/renderer/App.tsx:133-158 | the flags follow `AfterDataLoad`; stats, info, startup list (null becomes empty) and clock are taken only on success, else kept |
| Dashboard.Dashboard.LoadSystemStats | src/renderer/App.tsx:160-173 | the flags follow `AfterStatsPoll`; stats and clock are taken only on a non-null reply |
| Dashboard.Dashboard.HandleCleanup | src/renderer/App.tsx:175-190 | the cleanup state becomes `AfterCleanup` of the reply; nothing else changes |
| Dashboard.Dashboard.OnUpdateEvent | src/renderer/App.tsx:739-773 | the update fields become `OnEvent` of the old ones; nothing else changes; the status stays a known one |
| Dashboard.Dashboard.CheckForUpdates | src/renderer/App.tsx:786-800 | only the status changes, to `StatusAfterCheckRequest` of the reply; the badge is left as it was |
| Dashboard.Dashboard.LoadAppVersion | src/renderer/App.tsx:775-784 | a non-null reply replaces the version; otherwise it is kept |
| Dashboard.Dashboard.ClickStartupToggle | src/renderer/App.tsx:598-606 | a click starts a toggle iff none is in flight, marking that program; while one is in flight the click changes nothing |
| Dashboard.Dashboard.FinishStartupToggle | src/renderer/App.tsx:851-889 | the list becomes `ToggleById` of the old list on a confirmed reply and is unchanged on failure or throw; the in-flight mark is cleared on every path; only the list, the mark and the notice change |
| Dashboard.Dashboard.HandleSettingChange | src/renderer/App.tsx:823-849 | on confirmation `settings[key]` becomes `value`, on failure or throw the settings are unchanged; no other key changes either way |
| Dashboard.Dashboard.HandlePerformanceOptimization | src/renderer/App.tsx:891-937 | the kind's loading flag ends false on every path; the result is stored only on success; the notice follows `OptimizationNotice` |
| Dashboard.Dashboard.HideNotification | src/renderer/App.tsx:817-820 | the auto-hide timer removes the notice |
| LegacyDashboard.FlipAt | src/renderer/App.new.tsx:418 | flipping one flag: same length, that flag negated, every other flag unchanged |
| LegacyDashboard.FlipAtTwice | src/renderer/App.new.tsx:416-419 | two clicks on the same switch restore the flags |
| LegacyDashboard.Flags | src/renderer/App.new.tsx:415 | the switch states of the list, one per entry in order |
| LegacyDashboard.StartupEntry.constructor | src/renderer/App.new.tsx:26-30 | an entry holds its name, flag and impact |
| LegacyDashboard.LegacyDashboard.constructor | src/renderer/App.new.tsx:58-73 | the initial state: loading, online, no error, status 'idle', no badge, version 1.0.0 |
| LegacyDashboard.LegacyDashboard.StatusLine | src/renderer/App.new.tsx:476-485 | in every reachable state the status line is not 'Unknown' |
| LegacyDashboard.LegacyDashboard.LoadSystemData | src/renderer/App.new.tsx:87-112 | as in App.tsx: flags follow `AfterDataLoad`, data taken only when stats and info are both non-null |
| LegacyDashboard.LegacyDashboard.LoadSystemStats | src/renderer/App.new.tsx:114-127 | as in App.tsx: a null reply changes nothing, a throw only goes offline |
| LegacyDashboard.LegacyDashboard.HandleCleanup | src/renderer/App.new.tsx:129-144 | the cleanup state becomes `AfterCleanup` of the reply |
| LegacyDashboard.LegacyDashboard.OnUpdateEvent | src/renderer/App.new.tsx:535-569 | the update fields become `OnEvent` of the old ones; the badge is raised only by 'available' and lowered only by 'not-available' |
| LegacyDashboard.LegacyDashboard.CheckForUpdates | src/renderer/App.new.tsx:582-596 | only the status changes: 'checking' on success, 'error' on failure or throw |
| LegacyDashboard.LegacyDashboard.LoadAppVersion | src/renderer/App.new.tsx:571-580 | a non-null reply replaces the version; otherwise it is kept |
| LegacyDashboard.LegacyDashboard.ToggleAt | src/renderer/App.new.tsx:414-420 | the stored array holds the same entry objects in the same order; the entry at the index has `enabled` flipped and its other fields kept; every entry that is a different object keeps its flag; with distinct objects the flags are `FlipAt` of the old flags |

## Left out

- `formatBytes` (App.tsx:205-210, App.new.tsx:159-164): it relies on floating-point `Math.log`, `Math.pow` and rounding.
- Rendering: JSX, CSS, `toFixed` formatting (the status line takes the formatted percentage as a parameter), the progress bar, tab navigation (`activeTab`), the top-10 process table and the disk list.
- Timers: the 3-second `setInterval` poll, the `setTimeout` refreshes after a cleanup or an optimization, and the 3-second notice timer are not scheduled; their callbacks are the methods `LoadSystemStats` and `HideNotification`, called by whoever drives the model.
- `handleInstallUpdate`: it changes no state; the restart happens in the main process.
- Interleavings of concurrent handlers: each handler is one atomic step, so the transient states during an `await` (`{ loading: true }` of the cleanup card, the optimization button's loading flag, 'checking' before the reply) are not observable, except for the startup toggle's in-flight mark.
- Console logging, and the `visible: true` flag of a notice (always true while a notice exists).
- Telemetry fields the handlers do not compute with: CPU cores, memory totals, disks, network, processes and the fields of the system info other than the platform name.
- Health.HealthScore: numbers are `real`; IEEE rounding and NaN (a NaN usage makes the source's score NaN and its status 'Poor') are not modelled.
- Startup.DisplayLocation: lengths are counted in Dafny characters, while JavaScript counts UTF-16 code units.
- `src/main/main.js`, `src/main/preload.js` and `scripts/afterSign.js`: window lifecycle, IPC forwarding to the `systeminformation` library, the simulated cleanup and startup list, and build-time signing are not part of this model.
