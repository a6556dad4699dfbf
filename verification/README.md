# A verified model of DSH Work's state machines

This project models, in Dafny, the parts of DSH Work whose correctness depends on many
steps taken together, and proves what those parts promise for every input and every run:

- **Data purge.** `data purge --yes` deletes directory trees around protected paths, in two
  passes with the lock file and the configuration file removed between them. Paths are
  sequences of cleaned, already case-folded components; the file system is a mutable
  prefix-closed tree (`FileSystem.Disk`) whose primitives may fail at any call, and which
  logs every single deletion.
- **Browser relay.** The route manager of the extension, the relay connection of one route
  with its attachments, the session table of the browser model, tab-group membership, titles
  and colours, and the queue of session-storage writes. Each file holds a state, one function
  per uninterrupted segment of the single-threaded source, a `Step` over events, and a `Run`
  over event sequences; Chrome, the native port and the timers are free to choose any event.
  Synchronous re-entry (a failing send that closes the relay in the middle of a segment) is
  part of the segments.
- **Click gate.** The epochs, the cancelled flag and the per-tab promise chain that decide
  whether a mouse press may reach the page; and, one level below, the single promises that
  such a chain is made of.
- **Smaller machines.** Artifact acquisition with mirror fallback, the "latest wins" size
  slider, the rate-limited frontend log, and the bounded transcript of an operation.

Two kinds of theorem are proved of each machine: what holds in every run, and what each event
does, stated of each tab, route, row or value by a condition on the event and the state before it
(`RelayFates`, `GateLaws`, and the members ending in `Iff`, `After` and `By`). The second kind says
that what should happen does happen, and nothing else.

Where the source mutates fields, a class mutates the same fields, and each method's contract
equates the new field values with the segment function applied to the old ones. Each such
class has a `Take` that takes one event as `Step` does, and a `Drive` that takes a whole
sequence of events and ends in the state of `Run`, so the theorems over runs hold of the
objects; the contracts of `Drive` state the main ones outright.

## Assumptions

- Chrome's replies and events about debuggers arrive in the order in which they happened, and
  detaching an attached tab succeeds.
- A native port that has thrown once keeps throwing.
- Paths are absolute, cleaned, and compared case-folded where the platform folds case; folding
  keeps the length of a path. No other process changes the file system during a purge, and no
  component is reached through a symbolic link or junction.
- Timers may fire at any later point, so no property depends on a timeout's length.

## Findings

Four promises do not hold as one would first state them. Each has a lemma with a concrete
input and a lemma with the exact condition.

- A purge deletes a node that lies above a registered user directory when that node is the
  configuration file or the held lock file, although validation accepts the plan
  (`PurgeTargets.ConfigurationAboveUserDirectory`); otherwise, and only otherwise, exactly the
  nodes at, below or properly above a user directory survive under the targets
  (`PurgeTargets.SurvivorsAreKeptIff`).
- If the announcement of a route's first tab exceeded the native message limit, the new route
  would be released while its group is being built, and the group would be registered afterwards
  without a route (`Routes.OversizedHandshakeLeaksGroup`, `Routes.EveryRunGroupsIff`). The tab
  has just been made with `about:blank` and the limit is 8 MiB, so Chrome is not expected to
  produce such a message; the source merely does not rule it out.
- Two overlapping attaches of one tab leave an announced session that no tab holds and that is
  never withdrawn (`Sessions.OverlapLeavesOrphan`); the client's view and the live sessions agree
  if and only if no attach finishes after another of its tab (`Sessions.BalancedIffNoOverlap`).
  It takes a Chrome that accepts the second attach.
- Dragging the only attached tab out of a group closes its route and then reports the group's
  tabs, which puts back a row for the closed route (`GroupReports.DragOutLeavesRow`). A row
  outlives its route if and only if a tab that left the group was attached and its notice was
  refused or nothing else was attached or pending, or a tab that entered it was announced to a
  socket that refused the notice (`GroupReports.RowOutlivesRouteIff`).

Failure is accounted for as well: every primitive that fails although the tree allows it is
counted, and a purge succeeds if and only if none did and nothing stood in the way
(`PurgeTargets.Obstructed`: something other than a directory where a protected path leads through,
or something below the configuration file or the lock file).

The crash property of the purge holds without assuming that configuration and lock are plain
files, and disjointness of group memberships without assuming distinct group ids.

## Model

| member | source | states |
|---|---|---|
| `PurgePaths.ContainsIsStrictPrefix` | cmd/dsh-work/data_purge.go:419-429 | the textual test on the relative path (not ".", not "..", no leading "../") holds exactly when the parent is a strict component prefix of the child |
| `PurgePaths.CommonLength` | cmd/dsh-work/data_purge.go:424 | the shared leading components of two paths, maximal; what the relative path climbs back to |
| `PurgePaths.AncestorsNest` | cmd/dsh-work/data_purge.go:335-360 | two ancestors of one path are nested, so a child is protected, leads to a protected path, or has no protected path in common |
| `FileSystem.Disk.Lstat` | cmd/dsh-work/data_purge.go:309-315 | found with its kind, absent, or unreadable at any call |
| `FileSystem.Disk.ReadDir` | cmd/dsh-work/data_purge.go:329-332 | every entry with its kind, or a failure |
| `FileSystem.Disk.Remove` | cmd/dsh-work/data_purge.go:327 | removes one node without children, or changes nothing |
| `FileSystem.Disk.RemoveAll` | cmd/dsh-work/data_purge.go:358-360 | deletes bottom-up, may stop part way, never touches a node outside the subtree, and on success leaves nothing of it |
| `Purge.IsPurgePathWithinAny` | cmd/dsh-work/data_purge.go:368-375 | true exactly when the path is at or below a protected path |
| `Purge.Contains` | cmd/dsh-work/data_purge.go:419-429 | containsPurgePath decides strict nesting |
| `Purge.ContainsAny` | cmd/dsh-work/data_purge.go:316-322 | true exactly when the path is properly above a protected path |
| `Purge.ClassifyChild` | cmd/dsh-work/data_purge.go:335-345 | the scan with its early exit decides "protected" exactly, and "leads to a protected path" exactly when not protected |
| `Purge.RemovePurgePath` | cmd/dsh-work/data_purge.go:303-366 | succeeds exactly if no operation failed that the tree allowed and nothing but directories stands where protected paths lead through; then the tree is the old one minus precisely the nodes at or below the path that are neither at, below nor properly above a protected path; on any outcome nothing outside and nothing kept is deleted |
| `Purge.RemoveUnlessProtected` | cmd/dsh-work/data_purge.go:303-366 | the same exact condition of success, a missing or protected path included; then only protected nodes and directories leading to them remain below the path |
| `Purge.RemoveEntries` | cmd/dsh-work/data_purge.go:333-361 | after the loop every listed entry is settled, and the directory itself is still there |
| `Purge.RemoveEntry` | cmd/dsh-work/data_purge.go:334-360 | one entry is kept, entered or removed, according to how it relates to the protected paths |
| `Purge.RemoveLast` | cmd/dsh-work/data_purge.go:365 | the emptied, unprotected path itself is removed, or the removal fails |
| `Purge.SettledIsSurvivors` | cmd/dsh-work/data_purge.go:303-366 | sparing what must be kept and leaving nothing else fixes the surviving tree uniquely |
| `Purge.RerunChangesNothing` | cmd/dsh-work/data_purge.go:303-366 | a second removal, however it ends, leaves the survivors of the first unchanged |
| `Purge.UnprotectedSubtree` | cmd/dsh-work/data_purge.go:358-360 | below a path that is unrelated to every protected path nothing can be protected, so removing the whole subtree is safe |
| `Purge.EntriesBlocked` | cmd/dsh-work/data_purge.go:333-361 | something stands in the way below a directory exactly if it does below one of its entries |
| `PurgeTargets.PurgeTarget` | cmd/dsh-work/data_purge.go:262-269 | one round of the loop settles its target, keeps the earlier ones settled and deletes nothing kept |
| `PurgeTargets.PurgePass` | cmd/dsh-work/data_purge.go:262-269 | one pass over nested or overlapping targets settles all of them except the configuration entry and deletes nothing kept |
| `PurgeTargets.RemoveGuard` | cmd/dsh-work/data_purge.go:278-288 | the lock or configuration file goes unless user-owned; a missing one is no failure |
| `PurgeTargets.RemoveGuards` | cmd/dsh-work/data_purge.go:274-288 | lock first, then configuration, at every deletion keeping "configuration present or nothing stray left" |
| `PurgeTargets.RemoveLock` | cmd/dsh-work/data_purge.go:274-283 | released and removed, or kept as user data, exactly if the release works and nothing is below the file |
| `PurgeTargets.RemoveConfig` | cmd/dsh-work/data_purge.go:284-288 | the same for the configuration file, after everything else under the targets is gone |
| `PurgeTargets.GuardsGone` | cmd/dsh-work/data_purge.go:255-291 | once the guards are gone after a settled first pass, no file or link outside user directories is left under a target |
| `PurgeTargets.FinalExact` | cmd/dsh-work/data_purge.go:289-300 | the settled second pass leaves exactly the specified tree |
| `PurgeTargets.SecondPassUnblocked` | cmd/dsh-work/data_purge.go:289-300 | what the first pass did not find in the way, the second does not find either |
| `PurgeTargets.PlainPlanUnobstructed` | cmd/dsh-work/data_purge.go:255-301 | with plain or absent guard files and only directories above protected paths nothing is in the way |
| `PurgeTargets.RemovePurgeTargets` | cmd/dsh-work/data_purge.go:255-301 | succeeds exactly if no operation failed and the plan was not obstructed; success leaves exactly the specified tree; on every outcome nothing preserved is deleted; at every prefix of the deletions, if an initially present configuration is gone then no file or link is left under a target outside user directories |
| `PurgeTargets.ValidateProtectedUserDirectories` | cmd/dsh-work/data_purge.go:377-389 | accepts exactly when no target is at or below a user directory |
| `PurgeTargets.ValidatedPurge` | cmd/dsh-work/data_purge.go:255-301 | after a validated purge the configuration is gone, and so is every target that contains no user directory |
| `PurgeTargets.SurvivorsAreKeptIff` | cmd/dsh-work/data_purge.go:255-301 | under the targets exactly the nodes at, below or properly above a user directory survive if and only if neither configuration nor held lock lies properly above one |
| `PurgeTargets.ConfigurationAboveUserDirectory` | cmd/dsh-work/data_purge.go:284-288 | a plan that lists its configuration and passes validation, for which a node above a registered user directory is deleted |
| `PurgeTargets.PurgeData` | cmd/dsh-work/data_purge.go:145-164 | refuses exactly the invalid plans without touching anything; succeeds exactly on valid, unobstructed plans without a failing operation; never deletes user data; on success the configuration and every target without user data are gone |
| `PurgePlan.DescendantIsLonger` | cmd/dsh-work/data_purge.go:250 | a descendant's path text is longer, so longest-first is children-first |
| `PurgePlan.StableSort` | cmd/dsh-work/data_purge.go:243-251 | a sorted rearrangement under the source's comparator |
| `PurgePlan.SortIsStable` | cmd/dsh-work/data_purge.go:243-251 | targets that rank the same keep their order |
| `PurgePlan.DropDuplicates` | cmd/dsh-work/data_purge.go:224-240 | every non-blank path once, under the first name listed for it |
| `PurgePlan.SortedOrder` | cmd/dsh-work/data_purge.go:243-251 | in a sorted list the configuration is last and no other target precedes its own descendant |
| `PurgePlan.DataPurgeTargets` | cmd/dsh-work/data_purge.go:216-253 | every listed location exactly once, configuration last, no other target before its own descendant |
| `Relay.EveryRunInv` | browser-extension/playwright/relayConnection.ts:112-246 | every reachable state is consistent and accounts for every physical attachment |
| `Relay.AttachmentsAccounted` | browser-extension/playwright/relayConnection.ts:339-350 | in every interleaving each physically attached debugger is in the attached set, has a scheduled detach, or has an undelivered attach reply |
| `Relay.LifecycleConsistent` | browser-extension/playwright/relayConnection.ts:161-246 | a relay that has ever attached and has neither attached nor pending tabs is closed; a closed relay has empty sets; onclose fires at most once |
| `Relay.SegmentTracks` | browser-extension/playwright/relayConnection.ts:112-182 | no segment, whether or not a send closes the relay in its middle, forgets an attachment |
| `Relay.HandleTracks` | browser-extension/playwright/relayConnection.ts:185-201 | delivering a reply or a detach event forgets only a tab reported detached |
| `Relay.ClosedRelayWindsDown` | browser-extension/playwright/relayConnection.ts:161-176 | after close every event does nothing or uses up outstanding work |
| `Relay.ClosedRunsAreShort` | browser-extension/playwright/relayConnection.ts:161-176 | after close only boundedly many effective events can follow, in any order |
| `Relay.NotDrainedCanStep` | browser-extension/playwright/relayConnection.ts:292-350 | while anything is on its way, that work itself can make progress |
| `Relay.QuietIffDrained` | browser-extension/playwright/relayConnection.ts:292-350 | nothing under way can have an effect exactly when no message, call, write or scheduled detach is outstanding |
| `Relay.DrainedIsReleased` | browser-extension/playwright/relayConnection.ts:161-176 | a closed relay with nothing on its way has no debugger attached |
| `Relay.CloseReleasesEverything` | browser-extension/playwright/relayConnection.ts:161-176 | from any reachable closed state, at most boundedly many effective events follow, and whenever nothing under way can have an effect any more, no debugger is attached; Chrome detaching on its own is not counted upon |
| `Relay.DrainCompletes` | browser-extension/playwright/relayConnection.ts:161-176 | from any closed state the work under way alone can be completed, and then no debugger is attached |
| `RelayFates.ClosesIff` | browser-extension/playwright/relayConnection.ts:112-246 | an open relay closes exactly on demand, by a refused message, or by losing the last tab that is attached or pending |
| `RelayFates.TabFate` | browser-extension/playwright/relayConnection.ts:112-246 | for every event and tab of an open relay: attached, pending, cooling down and owned afterwards, each by its own condition on the event |
| `RelayFates.DetachDecision` | browser-extension/playwright/relayConnection.ts:192-215 | after a delivered detach a closed target outside the cool-down is waited for, anything else is final, and the relay closes exactly if nothing is attached or waited for |
| `RelayFates.PendingHasReason` | browser-extension/playwright/relayConnection.ts:192-215 | in every run a tab is waited for only if its last detach said that its target was closed |
| `RelayFates.DetachesScheduled` | browser-extension/playwright/relayConnection.ts:123-176 | one detach call for each tab dropped by the user, detached on command, attached too late, or held when the relay closes; no others |
| `RelayFates.CommandsMove` | browser-extension/playwright/relayConnection.ts:302-307 | an owned tab's attach waits for its write and then goes to Chrome exactly while the relay is open |
| `RelayFates.CloseDisowns` | browser-extension/playwright/relayConnection.ts:161-176 | a relay that closes on demand gives up the tabs it held attached and no others |
| `Relay.RelayConnection.HandleClose` | browser-extension/playwright/relayConnection.ts:161-176 | first call closes, clears the timers' sets, schedules a detach per attached tab and notifies; later calls change nothing |
| `Relay.RelayConnection.ReleaseAll` | browser-extension/playwright/relayConnection.ts:171-174 | the loop schedules exactly one detach for each attached tab |
| `Relay.RelayConnection.SendMessage` | browser-extension/playwright/relayConnection.ts:363-366 | sends, or closes the relay on the spot when the port refuses |
| `Relay.RelayConnection.CheckLastTabDetached` | browser-extension/playwright/relayConnection.ts:178-181 | closes when the last tab is gone and none is pending |
| `Relay.RelayConnection.Attach` | browser-extension/playwright/relayConnection.ts:112-117 | an open relay owns and announces a tab it has not attached |
| `Relay.RelayConnection.Detach` | browser-extension/playwright/relayConnection.ts:123-135 | schedules the detach, drops the tab, reports it and checks for the last tab, in that order, with the report possibly closing the relay |
| `Relay.RelayConnection.NotifyTabAttached` | browser-extension/playwright/relayConnection.ts:137-142 | attached, and no longer pending |
| `Relay.RelayConnection.NotifyTabDetached` | browser-extension/playwright/relayConnection.ts:144-148 | neither attached nor owned |
| `Relay.RelayConnection.OnDebuggerDetach` | browser-extension/playwright/relayConnection.ts:185-201 | forwards the event, drops the tab, then schedules a re-attach or checks for the last tab |
| `Relay.RelayConnection.MaybeScheduleReattach` | browser-extension/playwright/relayConnection.ts:203-215 | schedules exactly when open and outside the cool-down |
| `Relay.RelayConnection.ReattachProbe` | browser-extension/playwright/relayConnection.ts:221-238 | a vanished tab leaves the pending set; a found one is announced again unless aborted or attached |
| `Relay.RelayConnection.VerifyReattach` | browser-extension/playwright/relayConnection.ts:239-245 | a re-attach that did not happen gives up, closing the relay if it was the last |
| `Relay.RelayConnection.AttachReplied` | browser-extension/playwright/relayConnection.ts:339-350 | an attach that completes after close is undone, otherwise recorded |
| `Relay.RelayConnection.PopupOpened` | browser-extension/playwright/relayConnection.ts:185-191 | a tab opened by an attached tab is owned and announced |
| `Relay.RelayConnection.TakeSegment` | browser-extension/playwright/relayConnection.ts:112-246 | takes any event of the relay as specified |
| `Relay.Extension.TakeCommand` | browser-extension/playwright/relayConnection.ts:302-306 | attach and detach commands are accepted only for owned tabs on an open relay |
| `Relay.Extension.ResumeAttach` | browser-extension/playwright/relayConnection.ts:306-307 | a failed write or a close refuses the attach, otherwise it is handed to Chrome |
| `Relay.Extension.Take` | browser-extension/playwright/relayConnection.ts:112-350 | the objects take any event as the state machine does |
| `Relay.Extension.Drive` | browser-extension/playwright/relayConnection.ts:112-350 | after any sequence of events the objects are in the state of the run, are consistent, account for every attachment, and hold none once closed and drained |
| `ActionIndicator.LifecycleAdvances` | browser-extension/src/actionIndicator.ts:150-155 | installing, detaching, closing or finding a context never brings a lost document state back and gives up a held one only by losing it |
| `ActionIndicator.SelectionAdvances` | browser-extension/src/actionIndicator.ts:201-219 | the same for navigation and for selecting a tab |
| `ActionIndicator.BeginAdvances` | browser-extension/src/actionIndicator.ts:220-225 | the same for the start of a wait |
| `ActionIndicator.EndAdvances` | browser-extension/src/actionIndicator.ts:236-240 | the same for the end of a wait, interrupted or not |
| `ActionIndicator.BeginHolds` | browser-extension/src/actionIndicator.ts:220-225 | a begun wait stands on the selected tab's present state and epoch |
| `ActionIndicator.SelectAges` | browser-extension/src/actionIndicator.ts:201-206 | selecting another tab ages exactly the one selected before, and cancels its wait |
| `ActionIndicator.BeginDecision` | browser-extension/src/actionIndicator.ts:220-225 | refused after a cancellation, unguarded without a page context, otherwise waiting |
| `ActionIndicator.EndMarks` | browser-extension/src/actionIndicator.ts:236-240 | the end of a wait touches its tab state alone, and cancels exactly if interrupted |
| `ActionIndicator.Indicator.AttachDone` | browser-extension/src/actionIndicator.ts:153-154 | a new state object with epoch 0, unless closed |
| `ActionIndicator.Indicator.InvalidateTab` | browser-extension/src/actionIndicator.ts:215-219 | the epoch advances and a waiting press is cancelled |
| `ActionIndicator.Indicator.SelectTab` | browser-extension/src/actionIndicator.ts:201-206 | selecting another tab invalidates the one selected before |
| `ActionIndicator.Indicator.RunningState` | browser-extension/src/actionIndicator.ts:207-211 | a running state clears the cancelled flag and decides the click mode |
| `ActionIndicator.Indicator.DetachTab` | browser-extension/src/actionIndicator.ts:252 | the tab's state object is dropped |
| `ActionIndicator.Indicator.CloseAll` | browser-extension/src/actionIndicator.ts:259 | closed, with every tab's state dropped |
| `ActionIndicator.Indicator.BeforeClick` | browser-extension/src/actionIndicator.ts:220-225 | refused, unguarded, or waiting on the tab's state and epoch |
| `ActionIndicator.Indicator.EndWait` | browser-extension/src/actionIndicator.ts:236-240 | an interrupted wait cancels; the state that waited stops waiting |
| `ClickGate.WindowHeld` | browser-extension/src/actionIndicator.ts:220-241 | a state and epoch held at one step and not lost at a later one were held at every step between |
| `ClickGate.EveryRunGrounded` | browser-extension/src/actionIndicator.ts:220-241 | in every run each waiting press and each handed-over press stands on such a window |
| `ClickGate.DisturbedLoses` | browser-extension/src/actionIndicator.ts:201-219 | navigation, re-attach, detach (also on command), close, and every selection of another tab, including those made by its own queued presses, take the held state away |
| `ClickGate.GatedPressIsJustified` | browser-extension/playwright/relayConnection.ts:315-329 | a gated press reaches Chrome only over an open relay and an attached tab; one that waited kept its tab state, epoch and selection from the start of the wait to the last check with no disturbing event between, whatever running states were announced |
| `GateLaws.ClickModeIsLastTool` | browser-extension/src/actionIndicator.ts:207-211 | in every run the click mode is on exactly if the last tool state announced before the close was running with a click |
| `GateLaws.GatedAsAnnounced` | browser-extension/playwright/relayConnection.ts:316-319 | every queued and every handed-over event is gated exactly if it was a press that arrived during an announced click |
| `GateLaws.CancelledIff` | browser-extension/src/actionIndicator.ts:207-241 | cancelled after a step exactly if a waiting tab navigated, was left or failed, or it was before and no running state was announced |
| `GateLaws.CurrentIs` | browser-extension/src/actionIndicator.ts:201-206 | the tab selected last stays current until another is |
| `GateLaws.AttachedIff` | browser-extension/playwright/relayConnection.ts:137-148 | attached from the report of the attach to that of the detach, unless the relay closes |
| `GateLaws.EveryTabAfter` | browser-extension/src/actionIndicator.ts:150-259 | for every event and tab: the state object, epoch, context and waiting mark afterwards |
| `GateLaws.ChainProceeds` | browser-extension/playwright/relayConnection.ts:319-328 | every queued event proceeds exactly as far as the route, the gate and Chrome let it |
| `GateLaws.ArrivalProceeds` | browser-extension/playwright/relayConnection.ts:316-333 | a new event queues behind its tab's chain, starts one if gated, and otherwise goes straight to Chrome |
| `GateLaws.PressGoesThrough` | browser-extension/playwright/relayConnection.ts:319-323 | a gated press on an attached, known and selected tab reaches Chrome if the page answers |
| `GateLaws.EveryPressEntered` | browser-extension/src/actionIndicator.ts:220-241 | in every run a gated press handed over had entered the gate uncancelled over the open route, skipped the wait only if the page was not known, and otherwise ended it uncancelled with the page's consent |
| `ClickGate.MouseInput.MouseEvent` | browser-extension/playwright/relayConnection.ts:312-333 | a press in click mode, or any mouse event behind a pending one, joins its tab's chain; others go straight to Chrome |
| `ClickGate.MouseInput.StartTask` | browser-extension/playwright/relayConnection.ts:319-321 | the head is checked against close and detach, and a gated press enters the gate |
| `ClickGate.MouseInput.SetupReplied` | browser-extension/src/actionIndicator.ts:229-233 | a failed preparation or a moved ground interrupts; an unavailable renderer lets the press through |
| `ClickGate.MouseInput.ArrivalReplied` | browser-extension/src/actionIndicator.ts:234-235 | only a ready arrival on unmoved ground lets the press through |
| `ClickGate.MouseInput.DispatchHead` | browser-extension/playwright/relayConnection.ts:322-323 | checked once more, then handed to Chrome |
| `ClickGate.MouseInput.ChromeReplied` | browser-extension/playwright/relayConnection.ts:323-328 | success lets the next event start, failure ends the chain, and the last one removes the tail |
| `ClickGate.MouseInput.Take` | browser-extension/playwright/relayConnection.ts:292-333 | the objects take any event as the state machine does, advancing the step counter |
| `ClickGate.MouseInput.Drive` | browser-extension/playwright/relayConnection.ts:292-333 | after any sequence of events every press in the log is justified |
| `InputOrder.EveryRunOrderly` | browser-extension/playwright/relayConnection.ts:312-333 | the order invariant over all tails, finished chains and hand-overs |
| `InputOrder.ArrivalOrderKept` | browser-extension/playwright/relayConnection.ts:312-333 | per tab, mouse events reach Chrome in arrival order |
| `InputOrder.ChainsHandOverPrefixes` | browser-extension/playwright/relayConnection.ts:315-329 | of every chain, running, finished or broken, exactly a prefix has been handed over |
| `InputOrder.BrokenChainsStayBroken` | browser-extension/playwright/relayConnection.ts:315-329 | once a chain has ended, no continuation of the run sends what was queued behind the refusal |
| `InputTails.EveryRunInv` | browser-extension/playwright/relayConnection.ts:316-329 | over single promises with rejections and removals delayed at will: a tail is its tab's newest task, and a task that got going has only settled ones before it |
| `InputTails.ArrivalOrderKept` | browser-extension/playwright/relayConnection.ts:316-329 | per tab, events reach Chrome in arrival order |
| `InputTails.NothingBehindARejection` | browser-extension/playwright/relayConnection.ts:316-329 | whatever was queued behind a refused or failed event, directly or not, is never handed over, however the run goes on |
| `InputTails.EveryRunHandsPrefixes` | browser-extension/playwright/relayConnection.ts:316-329 | an event that was handed over has everything it was queued behind handed over and answered |
| `InputTails.TailIffUnsettled` | browser-extension/playwright/relayConnection.ts:327-328 | with the identity test of the removal, a tab has a tail exactly while it has an unsettled task |
| `InputTails.RejectionTakesAll` | browser-extension/playwright/relayConnection.ts:319-328 | once rejections have passed on, everything behind a rejected task is rejected |
| `InputTails.EveryRunCollapses` | browser-extension/playwright/relayConnection.ts:316-329 | so between segments the unsettled tasks of a tab are one chain whose members all wait but the oldest, and a rejection leaves nothing of it |
| `InputTails.ArrivalProceeds` | browser-extension/playwright/relayConnection.ts:317-330 | an ungated event of a tab without a tail goes straight to Chrome, any other becomes the tail |
| `InputTails.TurnGoesThrough` | browser-extension/playwright/relayConnection.ts:319-326 | a task whose turn has come is handed over, and its outcome is Chrome's answer |
| `InputTails.TurnRefused` | browser-extension/playwright/relayConnection.ts:320-322 | a task refused in its turn is rejected, and Chrome never sees it |
| `InputTails.TurnComes` | browser-extension/playwright/relayConnection.ts:319 | a task's turn comes exactly when the one before it has succeeded, and it fails with it |
| `InputTails.CleanUpIff` | browser-extension/playwright/relayConnection.ts:328 | a finished task gives up the tail exactly if it still is the tail |
| `GroupStyle.CandidateInjective` | browser-extension/playwright/connectedTabGroup.ts:41-43 | numbered titles differ from one another and from the plain one |
| `GroupStyle.TakenIsBounded` | browser-extension/playwright/connectedTabGroup.ts:41-43 | if the first tries are all taken there are at least as many taken titles |
| `GroupStyle.FirstFree` | browser-extension/playwright/connectedTabGroup.ts:41-43 | the least free number, found within the number of taken titles plus one |
| `GroupStyle.UniqueStyle` | browser-extension/playwright/connectedTabGroup.ts:37-48 | a title no taken style has, and a colour no taken style has while fewer than nine are taken |
| `GroupStyle.PlainTitle` | browser-extension/playwright/connectedTabGroup.ts:39-41 | an untaken title is the client's name cut after thirty characters, or that of an unnamed client |
| `GroupStyle.UniqueGroupStyle` | browser-extension/playwright/connectedTabGroup.ts:37-48 | the search loops compute that style within one try more than there are taken styles |
| `Routes.EveryRunInv` | browser-extension/src/routes.ts:39-85 | in every interleaving tokens belong to openings, channels and openings are disjoint and together at most nine |
| `Routes.DisplacedNeverInstalls` | browser-extension/src/routes.ts:47-54 | a waiting open whose token was taken away never installs a channel, however its route is reused |
| `Routes.DisconnectIsFinal` | browser-extension/src/routes.ts:29-38 | after a disconnect no continuation of the run reconnects, holds a channel or installs one |
| `Routes.CloseAndReopenDisplace` | browser-extension/src/routes.ts:79-83 | closing a route and asking for it again both take the waiting open's token away |
| `Routes.CloseReleases` | browser-extension/src/routes.ts:79-81 | in every run a request to close a live route removes its channel, its group and its token |
| `Routes.ChannelsAfter` | browser-extension/src/routes.ts:29-62 | apart from openings, exactly a released route loses its channel and group, and exactly a refused notice loses the port and everything |
| `Routes.PortStaysBroken` | browser-extension/src/routes.ts:29-34 | a port that has refused a message is remembered to refuse them all |
| `Routes.PortLossDisconnects` | browser-extension/src/routes.ts:35-38 | losing the port loses every channel, and the groups of the live ones |
| `Routes.SlotsAfter` | browser-extension/src/routes.ts:43-83 | a request holds its slot from admission to its end, and its token until its route is closed or asked for again |
| `Routes.AdmittedIff` | browser-extension/src/routes.ts:44-47 | a request is admitted exactly for a free route while fewer than nine are open or opening |
| `Routes.ReplyKeeps` | browser-extension/src/routes.ts:51-83 | a waiting request wakes only for its own reply, and goes on or gives up slot and token |
| `Routes.FailedRequest` | browser-extension/src/routes.ts:82-83 | a failed request releases its route and is reported; one that lost its token ends in silence |
| `Routes.InstalledAs` | browser-extension/src/routes.ts:55-75 | an installed route has its channel and its group, if the handshake goes through |
| `Routes.HandshakeOutcome` | browser-extension/src/routes.ts:55-75 | a handshake ends with the channel installed, with the channel gone, or with the port lost |
| `Routes.InstallGroupsIff` | browser-extension/src/routes.ts:55-75 | installing keeps groups within channels and styles distinct if and only if the tab's announcement fits the size limit or the port is lost |
| `Routes.EveryRunGroupsIff` | browser-extension/src/routes.ts:46-75 | throughout a run, while connected, groups belong to channels and have pairwise distinct titles and colours, if and only if no installing step has an oversized announcement on a working port |
| `Routes.OversizedHandshakeLeaksGroup` | browser-extension/src/routes.ts:55-75 | a run that leaves a group without a channel |
| `Routes.RouteManager.DisconnectPort` | browser-extension/src/routes.ts:35-38 | the loop releases every channel and its group, once |
| `Routes.RouteManager.NotifyPort` | browser-extension/src/routes.ts:29 | a notice that the port refuses disconnects the manager |
| `Routes.RouteManager.CloseChannel` | browser-extension/src/routes.ts:61 | a live socket is released, then the other side is told |
| `Routes.RouteManager.RejectOpen` | browser-extension/src/routes.ts:82-83 | an error releases the route's channel, is reported, and clears the route's opening and token |
| `Routes.RouteManager.ReceiveOpen` | browser-extension/src/routes.ts:43-51 | unsupported, duplicate or tenth opens are rejected; others take a slot and a token |
| `Routes.RouteManager.ResumeAfterRecovery` | browser-extension/src/routes.ts:51-53 | goes on only while connected and still holding the token |
| `Routes.RouteManager.SendOverWire` | browser-extension/src/routes.ts:30-34 | an oversized or refused message releases the route and reports the error |
| `Routes.RouteManager.Greet` | browser-extension/src/routes.ts:55-70 | registers the channel; a lost message of the handshake closes it on the spot |
| `Routes.RouteManager.ResumeAfterCreate` | browser-extension/src/routes.ts:53-75 | installs channel and group, or finishes without |
| `Routes.RouteManager.InstallRoute` | browser-extension/src/routes.ts:55-75 | the style is chosen before the handshake and the group registered after it |
| `Routes.RouteManager.ReceiveClose` | browser-extension/src/routes.ts:79-81 | takes the token away and closes the channel |
| `Routes.RouteManager.Take` | browser-extension/src/routes.ts:39-85 | the manager takes any event as the state machine does |
| `Routes.RouteManager.Drive` | browser-extension/src/routes.ts:39-85 | after any sequence of events the tables satisfy the invariant, and a lost port has no channels |
| `Ownership.OneWriteAtATime` | browser-extension/src/routes.ts:16 | writes are chained to the tail and Chrome settles issued ones at will; still at most one is issued, all older ones have settled and all newer ones wait |
| `Ownership.SettledInRequestOrder` | browser-extension/src/routes.ts:16 | the order in which writes settle is the order in which they were requested |
| `Ownership.StorageIsNewestWrite` | browser-extension/src/routes.ts:16-28 | storage holds the rows of the newest request that succeeded, or what an earlier session left |
| `Ownership.QueueNeverStalls` | browser-extension/src/routes.ts:16-28 | the oldest unsettled write is with Chrome or can be issued, failed predecessors notwithstanding |
| `Ownership.DrainedStoresCurrentRows` | browser-extension/src/routes.ts:16-28 | a drained queue whose last write succeeded stores exactly the current rows |
| `Ownership.AttachHasItsWrite` | browser-extension/src/routes.ts:64-69 | every attach call has a write of its own, finished before it, that lists its tab under its route |
| `Ownership.AttachOnOpenRoute` | browser-extension/playwright/relayConnection.ts:306-307 | the call is made only while the socket that asked for it is open |
| `Ownership.RowIs` | browser-extension/src/routes.ts:57-74 | for every event and route: the row holds the last report with the tabs attached since, until the route is released |
| `Ownership.RequestsMade` | browser-extension/src/routes.ts:16-74 | a report and an attach request one write, a release two, each of the rows as they are then |
| `Ownership.StoredBy` | browser-extension/src/routes.ts:16 | storage changes exactly when an issued write succeeds, to the rows of that request |
| `Ownership.TicketsIff` | browser-extension/src/routes.ts:64-67 | an attach waits for the write made for it, and for no other |
| `Ownership.AttachesIff` | browser-extension/src/routes.ts:67-68 | once that write has succeeded the attach goes to Chrome exactly if the socket that asked is still open |
| `Ownership.ClosedSocketNeverAttaches` | browser-extension/src/routes.ts:67-68 | in every run an attach asked for over a closed socket is never made, even if the route is opened again |
| `Ownership.OwnershipStore.SaveOwnership` | browser-extension/src/routes.ts:16 | chains one write of the rows as they are now to the tail and makes it the tail |
| `Ownership.OwnershipStore.AskAttach` | browser-extension/src/routes.ts:64-67 | adds the tab to the route's row, keeping its group, and waits for that write |
| `Ownership.OwnershipStore.GroupChanged` | browser-extension/src/routes.ts:73 | replaces the row and queues a write |
| `Ownership.OwnershipStore.Release` | browser-extension/src/routes.ts:57-74 | removes the row; group and socket each queue a write |
| `Ownership.OwnershipStore.IssueWrite` | browser-extension/src/routes.ts:16 | a write is issued once the promise it was chained to has settled |
| `Ownership.OwnershipStore.SettleWrite` | browser-extension/src/routes.ts:16 | an issued write settles, and stores its rows if it succeeds |
| `Ownership.OwnershipStore.ResumeAttach` | browser-extension/src/routes.ts:67-68 | attaches only after its own write succeeded and with the same socket open |
| `Ownership.OwnershipStore.Take` | browser-extension/src/routes.ts:16-75 | the store takes any event as the state machine does |
| `Ownership.OwnershipStore.Drive` | browser-extension/src/routes.ts:16-75 | after any sequence of events the queue, storage, row and attach invariants hold of the object |
| `GroupReports.LeaveCloses` | browser-extension/playwright/relayConnection.ts:123-135 | detaching a tab closes the relay exactly if its notice is refused or it was the only attached tab with none pending |
| `GroupReports.StepExact` | browser-extension/playwright/connectedTabGroup.ts:124-150 | a step leaves a row of the closed route exactly if one was there or the step is such a late report |
| `GroupReports.RowOutlivesRouteIff` | browser-extension/playwright/connectedTabGroup.ts:124-145 | in every run a row outlives its route if and only if some change of membership closed the relay before its own report |
| `GroupReports.DragOutLeavesRow` | browser-extension/playwright/connectedTabGroup.ts:139-144 | a run that attaches one tab behind its write, groups it and drags it out, ending with a row for the closed route |
| `GroupReports.MembersIff` | browser-extension/playwright/connectedTabGroup.ts:124-173 | while the relay is open a tab is a member from entering the Chrome group to leaving it; once closed nothing is |
| `GroupReports.ReportIsCurrent` | browser-extension/playwright/connectedTabGroup.ts:144-149 | every change of membership puts the group and its present members into the route's row |
| `GroupReports.AcceptedIff` | browser-extension/playwright/relayConnection.ts:302-306 | an attach command is accepted exactly for an owned tab of an open relay, and then asks for a write that lists it |
| `GroupReports.HandedOverIff` | browser-extension/playwright/relayConnection.ts:306-307 | it goes to Chrome exactly if that write succeeded and the relay is open |
| `GroupReports.TabGroup.RelayTakes` | browser-extension/playwright/connectedTabGroup.ts:164-173 | the relay closing inside an event clears the group and releases the route before the event goes on |
| `GroupReports.TabGroup.OnTabGroupChanged` | browser-extension/playwright/connectedTabGroup.ts:124-145 | joins or leaves, lets the relay attach or detach, then reports, closed or not |
| `GroupReports.TabGroup.GroupTab` | browser-extension/playwright/connectedTabGroup.ts:196-214 | a grouped tab becomes a member and is reported while the relay is open |
| `GroupReports.TabGroup.Drive` | browser-extension/playwright/connectedTabGroup.ts:124-214 | after any sequence of events the object has a row of a closed route exactly if a report came late |
| `Sessions.EveryRunInv` | browser-extension/playwright/browserModel.ts:92-148 | in every run ids are never reused, the live map is injective, each id is announced once and withdrawn at most once afterwards, and live sessions stand announced |
| `Sessions.PendingCount` | browser-extension/playwright/browserModel.ts:92-148 | exactly one attach starts for a new tab while auto-attach is on, for each known tab when it is turned on, and for a target made by the client, if the tab has no session |
| `Sessions.KnownIff` | browser-extension/playwright/browserModel.ts:82-148 | known tabs and the two modes follow the events alone |
| `Sessions.HasIff` | browser-extension/playwright/browserModel.ts:202-238 | a tab has a session from an answered attach until it is removed or detached |
| `Sessions.ChildrenIff` | browser-extension/playwright/browserModel.ts:105-118 | child ids come and go with their tab's own events |
| `Sessions.BalancedIffNoOverlap` | browser-extension/playwright/browserModel.ts:202-238 | announced-minus-withdrawn equals live if and only if no attach finished after another of its tab; otherwise an orphaned announcement remains |
| `Sessions.OverlapLeavesOrphan` | browser-extension/playwright/browserModel.ts:202-224 | a run of two overlapping attaches of one tab that leaves an orphaned announcement |
| `Sessions.SeparateAttachesNeverOverlap` | browser-extension/playwright/browserModel.ts:202-238 | if at most one attach of each tab is ever under way, none finishes after another of its tab |
| `Sessions.SeparateAttachesStayBalanced` | browser-extension/playwright/browserModel.ts:202-238 | then announced-minus-withdrawn equals live in every such run |
| `Sessions.SendCommand` | browser-extension/playwright/browserModel.ts:180-198 | reaches a tab that owns the id, with the child id exactly when it is a child's; fails exactly when no tab owns it |
| `Sessions.OwnerIsUnique` | browser-extension/playwright/browserModel.ts:180-198 | with unique child ids at most one tab owns an id |
| `Sessions.NameInjective` | browser-extension/playwright/browserModel.ts:212 | different session numbers give different ids |
| `Sessions.BrowserModel.Say` | browser-extension/playwright/browserModel.ts:86-88 | emits when a client is connected |
| `Sessions.BrowserModel.StartAttach` | browser-extension/playwright/browserModel.ts:202-206 | starts an attach unless the tab has a session |
| `Sessions.BrowserModel.TurnOnAutoAttach` | browser-extension/playwright/browserModel.ts:135-139 | the loop starts one attach for each known tab without a session |
| `Sessions.BrowserModel.FinishAttach` | browser-extension/playwright/browserModel.ts:206-224 | a fresh id is stored for the tab and announced |
| `Sessions.BrowserModel.Detach` | browser-extension/playwright/browserModel.ts:226-238 | the tab's session, if any, is removed and withdrawn |
| `Sessions.BrowserModel.ChildChanged` | browser-extension/playwright/browserModel.ts:105-118 | child session ids are added to and removed from their tab's session |
| `Sessions.BrowserModel.Take` | browser-extension/playwright/browserModel.ts:92-148 | the model takes any event as the state machine does |
| `Sessions.BrowserModel.Drive` | browser-extension/playwright/browserModel.ts:92-238 | after any sequence of events the session invariant holds of the object, and client and object agree exactly without overlap |
| `Sessions.BrowserModel.Route` | browser-extension/playwright/browserModel.ts:180-198 | with unique child ids a command reaches exactly the one tab that owns its id, or fails |
| `Membership.DispatchKeepsDisjoint` | browser-extension/playwright/connectedTabGroup.ts:124-145 | one group-change event processed by all listeners in any order, with any of the relays closing meanwhile, keeps memberships pairwise disjoint |
| `Membership.ListenOutcome` | browser-extension/playwright/connectedTabGroup.ts:124-173 | a listener touches its own group alone: the tab joins, leaves or stays, and all leave if the relay closes over it |
| `Membership.DispatchOutcome` | browser-extension/playwright/connectedTabGroup.ts:124-145 | afterwards the tab is listed exactly by the group it moved into, and there only if it was listed already or every other holder was told earlier; all other members stay |
| `Membership.ConnectedTabGroup.OnTabGroupChanged` | browser-extension/playwright/connectedTabGroup.ts:124-145 | joins, leaves or ignores, depending on the new group, the old membership and other groups' claims |
| `Acquisition.FallbackShape` | internal/acquisition/acquisition.go:177-236 | attempts follow the candidates in order, all but the last fail to reach their source, all but the first are mirrors, and the end of the list is never reached |
| `Acquisition.OnlyTheWinnerStays` | internal/acquisition/acquisition.go:177-236 | with working removals exactly the returned staging directory remains on success and none on failure |
| `Acquisition.AcquisitionShape` | internal/acquisition/acquisition.go:177-283 | for every accepted request: official first, then consecutive mirrors only, local never tried, final error unreachable, stages as above |
| `Acquisition.TerminalFailureStops` | internal/acquisition/acquisition.go:225-233 | an attempt that ends in anything but a reachability failure is the last |
| `Acquisition.EndsIff` | internal/acquisition/acquisition.go:185-236 | the exact outcome: it ends in a given way if and only if at some source all before it were passed over, it and all others after the first are mirrors, and that is what happens there |
| `Acquisition.WinsIff` | internal/acquisition/acquisition.go:204-223 | a source wins if and only if it is reached, its attempt begins, and it yields the artifact asked for or an unnamed one |
| `Acquisition.AttemptsRecorded` | internal/acquisition/acquisition.go:209-226 | every source that was reached and began has its attempt recorded, with the failure that its outcome counts as, and no other has |
| `Acquisition.ValidateRequest` | internal/acquisition/acquisition.go:238-261 | accepts exactly the well-formed requests |
| `Acquisition.Staging.Acquire` | internal/acquisition/acquisition.go:177-236 | the loop ends at a reached source in the way its turn determines, leaves exactly the winner's stage or one that could not be removed, records the specified attempts, and used a fallback exactly on a later winner |
| `Acquisition.Staging.TryOnce` | internal/acquisition/acquisition.go:186-234 | one round either ends as specified or leaves no stage and a mirror next |
| `SizeCommit.CallsNeverOverlap` | frontend/src/pets.ts:517-568 | at most one call is unanswered, and a pending value has a timer or a call to drive it |
| `SizeCommit.SupersededNeverApplied` | frontend/src/pets.ts:528-545 | an answer is shown only if its value is still the one wanted |
| `SizeCommit.WantedIsLastMove` | frontend/src/pets.ts:548-563 | the value to deliver is that of the last move, unless the slider was disabled for it or it was cancelled since |
| `SizeCommit.SentBy` | frontend/src/pets.ts:517-568 | an immediate move, a due timer and an answer each send at once what they can, and nothing else sends |
| `SizeCommit.PendingAfter` | frontend/src/pets.ts:548-568 | the value left waiting by each event, and its timer |
| `SizeCommit.RefusedBy` | frontend/src/pets.ts:523-526 | a commit is refused exactly if its turn comes while the slider is disabled |
| `SizeCommit.DisabledBy` | frontend/src/pets.ts:528-545 | only a switch and an answer that is shown enable or disable the slider |
| `SizeCommit.AppliedIff` | frontend/src/pets.ts:530-545 | an answer is shown exactly if its value is still current |
| `SizeCommit.LatestWins` | frontend/src/pets.ts:517-568 | at rest the last value sent is that of the last uncancelled move, if and only if its commit did not find the slider disabled |
| `SizeCommit.EnabledSliderDelivers` | frontend/src/pets.ts:517-568 | on a slider that stays enabled the last move of the events, unless cancelled, is the last value sent whenever all is at rest |
| `SizeCommit.DeliveryCompletes` | frontend/src/pets.ts:528-568 | and one answer and the timer suffice to get there |
| `SizeCommit.SizeSlider.CancelSizeCommit` | frontend/src/pets.ts:194-201 | a new request number, nothing pending, no timer |
| `SizeCommit.SizeSlider.CommitSize` | frontend/src/pets.ts:517-527 | sends the pending value unless a call is out, it is superseded, or the slider is disabled |
| `SizeCommit.SizeSlider.ScheduleSizeCommit` | frontend/src/pets.ts:548-568 | supersedes everything earlier, then commits at once or sets the timer |
| `SizeCommit.SizeSlider.TimerFired` | frontend/src/pets.ts:564-567 | the timer ends and commits the pending value |
| `SizeCommit.SizeSlider.CallAnswered` | frontend/src/pets.ts:528-545 | shows a current answer and starts the pending value |
| `SizeCommit.SizeSlider.Take` | frontend/src/pets.ts:194-205 | the slider takes any event as the state machine does |
| `SizeCommit.SizeSlider.Drive` | frontend/src/pets.ts:517-568 | after any sequence of events calls have not overlapped and a pending value has something to drive it |
| `FrontendLog.BatchingKeepsEntries` | frontend/src/log.ts:36-91 | however flushes fall, the batches followed by the queue are the entries of the unbatched reference limiter in order, no batch is empty, and a timer runs exactly while entries wait |
| `FrontendLog.NothingGetsLost` | frontend/src/log.ts:58-91 | record calls equal accepted entries plus reported drops plus unreported drops |
| `FrontendLog.AtMostHundredPerMinute` | frontend/src/log.ts:58-80 | with a monotone clock any interval of 60 000 ms accepts at most 100 entries |
| `FrontendLog.EveryRunSpaced` | frontend/src/log.ts:58-80 | with a monotone clock each window holds at most fifty entries and entries a hundred apart are more than a minute apart |
| `FrontendLog.CallFlushes` | frontend/src/log.ts:80-91 | an accepted error hands over everything that waits at once, in one batch; other calls leave their entries waiting |
| `FrontendLog.DroppedIff` | frontend/src/log.ts:58-80 | a call is dropped exactly when fifty entries have been accepted and the window is not over; drops are counted and reported with the next window |
| `FrontendLog.FlushHandsOver` | frontend/src/log.ts:36-50 | a flush hands over exactly what waits |
| `FrontendLog.Log.FlushQueue` | frontend/src/log.ts:36-50 | hands the whole queue over as one batch and stops the timer |
| `FrontendLog.Log.RecordEntry` | frontend/src/log.ts:58-91 | rolls the window, reports drops, then accepts or drops; an error entry flushes |
| `FrontendLog.Log.Drive` | frontend/src/log.ts:36-91 | after any sequence of calls and flushes the batches and the queue are the reference entries, and every call is accounted for |
| `OperationLog.FitFirst` | frontend/src/operation-log.ts:61 | lines dropped early would have been dropped anyway: trimming before appending more changes nothing |
| `OperationLog.FitIsLongest` | frontend/src/operation-log.ts:61 | dropping from the front yields the longest tail within 300 lines and 64 KiB |
| `OperationLog.ShowsLongestTail` | frontend/src/operation-log.ts:41-76 | after every run the transcript is the longest fitting tail of everything the operation wrote, and the size counter is right |
| `OperationLog.EntriesAreNonBlankLines` | frontend/src/operation-log.ts:55-59 | exactly the lines that are not blank become entries, stamped, in their order |
| `OperationLog.Log.Push` | frontend/src/operation-log.ts:55-60 | stamps and appends the non-blank lines, keeping the counter right |
| `OperationLog.Log.Evict` | frontend/src/operation-log.ts:61 | the loop stops at the longest fitting tail |
| `OperationLog.Log.ClearAll` | frontend/src/operation-log.ts:69-76 | back to the initial state |
| `OperationLog.Log.AppendMessage` | frontend/src/operation-log.ts:41-61 | a new operation starts afresh, a repeated step writes nothing, otherwise append and trim |
| `OperationLog.Log.Drive` | frontend/src/operation-log.ts:41-76 | after any sequence of messages the lines are the longest fitting tail |

## Left out

- Flag parsing, the installer boundary, settings loading, printing and the internals of the process lock in `cmd/dsh-work/data_purge.go`: only "lock held" and the lock's path are kept.
- `validatePurgeTargets` and `registeredUserDSHDirectories`: simple predicates and lists over locations.
- Symbolic links and junctions above a target, concurrent writers and case folding that changes a path's length: see the assumptions.
- Stability of file-system errors: every primitive may fail or succeed afresh at each call.
- Contents of messages, commands other than those named, tab ownership checks of mouse commands, and the resolution of Chrome members by name in `relayConnection.ts`.
- Drawing in `actionIndicator.ts`: `mount`, favicon loading, `schedule`, `update` and `committedClick`; the page's answers to a prepared click are free choices of the environment.
- Timeout lengths: timers are events that may happen at any later point.
- The waits and retries inside `_groupTab`, badges and navigation of group tabs in `connectedTabGroup.ts`; titles are cut after 30 Dafny characters, which are code points.
- Detaching and ungrouping of tabs recovered from an earlier session in `routes.ts`; recovery is the first write of the queue.
- Reopening a closed route under the same id while its stale row is still there: `GroupReports` follows one life of a route.
- What a single queued mouse event waits for is left free in `InputTails`; the gate in front of it is `ClickGate`'s.
- Ownership.StorageIsNewestWrite: does not model several managers sharing one write queue, because each property is stated for one manager.
- Events forwarded for child sessions in `browserModel.ts`: only their effect on routing is modelled, and target info is not.
- Acquisition.Staging.Acquire: does not model the observer, summaries and error causes, because no branch depends on them; stages are named by attempt and only this acquisition's stages are tracked.
- The rest of `pets.ts`, the rendering half of `operation-log.ts`, and the splitting of a message into lines.
- Other views of the frontend, theme arithmetic, account callbacks, command-line and RPC plumbing, and the generated bundle `browser-extension/routes.js`.
