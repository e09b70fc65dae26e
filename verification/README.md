# tsctl: a verified model

tsctl is a control panel for the exit nodes of Tailscale routers. An operator, or a guest
confined to a zone, picks an exit node for a router; tsctl logs in over SSH, arms a timer on
the router that puts the old exit node back after 60 seconds, applies the change, reads the
router back, and writes a keep-marker that cancels the timer: at once, or when the operator
confirms. Meanwhile a poller re-reads all routers and an SSE hub streams snapshots to browsers.
Everything slow runs outside the poller's mutex, so what the snapshot says and what the router
does can drift apart in many ways. This project models that machinery in Dafny and proves what
it keeps.

## Layout

- `Types`, `Views`: the snapshot data, and how one router's view follows from a read.
- `RouterClient`: the router with its self-firing timers, and the client's command sequences.
- `Sections`: what each critical section of the poller does to one router's share of the state.
- `PollerState` (`Poller.dfy`): the poller's own maps and snapshot in a class, one method per
  critical section, each proved to do to that router's share exactly what `Sections` says and
  nothing to any other router's.
- `Protocol`: the state machine that interleaves those sections with the router commands, the
  timers and the clock. A run is any sequence of enabled steps, with any number of concurrent
  sets, Keeps and probes and at most one poll. Commands succeed, fail, or are lost with or
  without having run; reads may report anything; the selection may also be changed from outside.
- `ClientSteps`, `Records`: the machine's moves of one set are the client's method, its history
  fields record exactly the events they stand for, and Keeps and probes go on exactly when the
  source lets them.
- `Supersede`, `Gate`, `Timers`, `Accounts`, `Honesty`, `Agreement`: the inductive invariants and
  the results drawn from them. `Witnesses`: concrete runs that show why those results carry the
  hypotheses they do.
- `IdleLoop`, `ClientChannel` and `BroadcastChannel` (`Channels.dfy`): the hub's cap-1
  latest-wins channels and the poll loop that follows the client count.
- `Zones`, `GroupStore`, `GuestStore`, `AdminRuns`: zone policy, the guest's snapshot, and the
  two file-backed stores under arbitrary runs of overlapping handlers and save failures.
- `Machines`, `Keyed`: what a run of a state machine is, for all the machines here; lookup and
  removal in a list whose elements carry ids, for both stores.
- `Session`, `Output`: the signed session cookie, and the handling of a router's output.
- `Ordering`, `Text`: the few facts about sorting and strings of Go's library that are needed.

## Reading the results

Each instant is a nanosecond count on one clock, with 0 for Go's zero time. The machine follows
one router; routers share only the mutex, and `PollerState` shows that no section of one
router's operations touches another's share. That uses one assumption about the tailnet, the
ghost set `controlled`: an address that tsctl controls is the only such address of its node.
A configured list may still name an address twice.

Five things recorded in the machine's history are not state of the source:

- `gap`: a poll captured generations after a change that its already loaded snapshot does not
  contain (the snapshot is loaded at poller.go:822, the generations at 859-864). The gate and
  in-flight results hold on runs without such a capture, and again after one merge that mends
  what a capture broke (`Gate.GateRecovers`, `Honesty.InFlightRecovers`).
  `Witnesses.LoadGapRevivesTheGate` is a run with one, after which a router is shown as awaiting a
  keep that no Keep can confirm, `Witnesses.LoadGapUnsettlesOk` one after which it is shown as ok
  with an intent pending, and `Witnesses.LoadGapHidesTheIntent` one in which it is shown as ok
  without an intent while a set is in flight, which the comment at poller.go:342-348 means to
  rule out.
- `failedDisarms`: markers whose disarm write failed. The source logs that and moves on.
- `deadlines`: the deadline of each confirmed deferred change.
- `failed`: markers of changes that came back with an error. Their armed timers are on no list,
  and can fire over a later change (`Witnesses.FailedApplyTimerFiresOverKeptChange`); no other
  timer is unaccounted for (`Accounts.EveryTimerIsAccountedFor`).
- `sawTarget`, `gateElapsed`, `dropped` of a set in flight: since its first step, was its
  target read from the router, did an older gate run out, did the router leave the snapshot.

Where the source's comments and its code disagree, the model follows the code:

- The comment at poller.go:385-391 takes a `*CommandError` to mean that the change did not take.
  A confirm read or a keep-marker write that exits non-zero carries one too (router.go:380-405),
  with the router already moved. `RouterClient.CommandErrorMeansNotApplied` says exactly when
  the comment is right, `RouterClient.CommandErrorAfterApply` is an input where it is not.
- Publication follows the order in which sets start (poller.go:336-338), the router follows the
  order in which they get its lock (router.go:355). `Witnesses.OvertakenApplyMovesTheDevice` is a
  run in which every command succeeds and the snapshot ends on the wrong exit node.
- Keep re-checks only the sequence number after its marker is written (poller.go:669), not that
  the gate it validated is still there. `Witnesses.LateKeepShowsOkOnNothing` is a run in which
  the gate was dropped meanwhile.
- The comment at poller.go:905-908 says that a managed router's fresh dial has settled to ok and
  the actual selection by the time its gate is found to have run out. The dial can have read the
  target before the timer fired: no publish comes between, so no generation moves, and the merge
  confirms a change that has just been undone (`Witnesses.StaleDialConfirmsARevert`).
- The merge keeps the current view of a touched router, but publishes what it built when there is
  none (poller.go:886-889). `Witnesses.RelistedReadIsStale` is a run in which that is an old read.

"Ok" can be relied on, by `Agreement.OkAgreesWithTheDevice`, in every run in which reads are
truthful, sets pass the router in the order in which they began, no poll falls into the load gap,
and whatever else moves the selection or forgets it (a timer that reverts, a change from outside,
a gate that runs out, the router leaving the list) does so while nothing shown or pending rests
on it. For timers and outside changes that condition is exact
(`Agreement.DeviceKeepsAgreementExactly`). After a run that broke it, one poll or, for a router
that is never dialed, one probe makes "ok" reliable again (`Agreement.MergeRecovers`,
`Agreement.ProbeFinishRecovers`, `Agreement.OkRecovers`), if no older device read is left waiting
to be merged after it.

More where comments and code disagree:

- store/types.go:149-155 says that group names need not be unique; the store refuses a taken name
  (groups.go:163-165, 195-197), and the model with it.
- A set that fails keeps the entry of an older gate (poller.go:543-547) but has already taken the
  newest number, so the next poll shows a gate that no Keep can confirm (poller.go:648), and the
  router reverts. `Witnesses.FailedSetStrandsTheGate` is such a run;
  `Honesty.KeepProceedsExactly` says when a shown gate can be confirmed.
- The zone checks of the guest handlers and of the zone handlers read one store and change the
  other. `AdminRuns.GuestsKeepTheirZonesExactly` says when every guest keeps its zone,
  `AdminRuns.ConcurrentRequestsCanOrphanAGuest` is a run in which one does not.

Case-insensitive comparison folds each rune to a representative of its folding orbit. Which runes
share an orbit is Unicode's business; the stores are proved for every folding.

A Keep that lands at the very instant of the deadline is decided by whether the timer woke
first; `Timers.KeepBeforeDeadlineHolds` says so, and is unconditional before the deadline.

## Model

| member | source | states |
|---|---|---|
| Timers.NoOrphanedTimer | internal/poller/poller.go:511-559 | In every reachable interleaving, the marker of a confirmed deferred change that is unwritten and before its deadline is the active gate's, or held by a set still in flight, or its disarm write failed. |
| Timers.AtMostOneLiveTimer | internal/poller/poller.go:511-559 | With no set in flight and no failed disarm, at most one unexpired revert timer of a confirmed change exists, and it is the pending entry's; Keep proceeds with it exactly if no set has started since the one that armed it, and is refused as superseded otherwise. |
| Timers.DeadlineIsConservative | internal/poller/poller.go:377-382 | The deadline recorded for the active gate is never later than the moment the router's timer fires. |
| Timers.KeepBeforeDeadlineHolds | internal/poller/poller.go:614-663 | Once a Keep marker lands, the timer reverts in the rest of any run exactly if it had reverted before; a marker that lands before the recorded deadline cancels the revert for good. |
| Accounts.EveryTimerIsAccountedFor | internal/router/router.go:357-405 | In every reachable state, each timer whose marker is unwritten belongs to a set that holds the router lock, to a change that came back with an error, or to a tracked deferred change. |
| Accounts.KeptChangeNeverReverts | internal/router/router.go:398-405 | Once a change came back confirmed and kept, its timer reverts in the rest of any run exactly if it already had. |
| Timers.TimedStep | internal/poller/poller.go:425-559 | Every step of every operation keeps the invariant that ties each timer, marker, deadline and pending entry together. |
| Honesty.InFlightIsNotSuccess | internal/poller/poller.go:330-361 | While the newest set to a target is in flight, the router is shown with that target as intent and not ok, unless the target was read from the router, an older gate ran out or the router left the snapshot. |
| Honesty.AutoKeepShowsPendingUntilTheDeviceMoves | internal/poller/poller.go:330-361 | With require-keep off and a fixed router list, over every run without a load gap, only a read of the target can end the pending display before the set reconciles. |
| Honesty.InFlightRecovers | internal/poller/poller.go:879-935 | After such a merge with the newest set reconciled, in-flight honesty holds again in every gap-free run from there. |
| Honesty.ShownDeadlineIsConservative | internal/poller/poller.go:455-457 | The deadline in the snapshot of an awaiting router belongs to a real timer and is not later than its fire time. |
| Honesty.KeepProceedsExactly | internal/poller/poller.go:614-653 | In every reachable state without a load gap that shows an awaiting router before its deadline, Keep proceeds if and only if no set has started since the gate's own, and then with the marker of a timer that fires no earlier than shown; otherwise it is refused as superseded. |
| Agreement.OkAgreesWithTheDevice | internal/poller/poller.go:425-556 | Ok means ok: in every run with truthful reads, sets passing the router in the order they began and no load gap, in which timers revert, outside changes move the selection, gates run out and the router leaves the list only while nothing shown or pending rests on what is lost, a router shown as ok is on the exit node shown once the newest set has reconciled. |
| Agreement.DeviceKeepsAgreementExactly | internal/router/router.go:724-727 | From a state in agreement, a timer's wake or an outside change keeps it if and only if it leaves the selection as it is or nothing shown, pending or in flight rests on it. |
| Agreement.MergeRecovers | internal/poller/poller.go:879-935 | From any reachable state whose sets are past the router, the newest of them reconciled: merging under the generation guard a managed read the device still agrees with, with no disagreeing probe read still waiting at that generation, shows what the device is on and restores agreement. |
| Agreement.ProbeFinishRecovers | internal/poller/poller.go:758-791 | The same for publishing a probe's read, which is how a listed, never dialed router recovers; it outdates every other pending read. |
| Agreement.OkRecovers | internal/poller/poller.go:758-935 | From a recovered state, whatever happened before it, a router shown as ok is on the exit node shown after every orderly run, once the newest set has reconciled. |
| Agreement.AgreesStep | internal/poller/poller.go:269-925 | Every such step keeps views, pending reads and results in flight in agreement with the device. |
| Gate.SnapshotIsHonest | internal/poller/poller.go:881-923 | In every reachable state without a load gap, an awaiting router has the pending entry whose deadline is shown, and an ok router has no pending intent. |
| Gate.GateRecovers | internal/poller/poller.go:879-935 | From any reachable state, load gaps included: after one guarded merge of a managed dial that leaves no intent a Keep could bury, the shown gate is coherent and ok settled for as long as no poll falls into the gap again. |
| Gate.MergeLosesNoUpdate | internal/poller/poller.go:867-888 | Whatever a set, Keep or probe published between capture and merge survives the merge unchanged, entry included, load gap or not. |
| Sections.MergeKeepsGateExactly | internal/poller/poller.go:881-923 | The exact condition under which one merge keeps the shown gate coherent with the pending entry, for every input. |
| Sections.MergeKeepsOkSettledExactly | internal/poller/poller.go:881-923 | The exact condition under which one merge publishes no ok view with a pending intent, for every input. |
| Sections.MergeKeepsIntentExactly | internal/poller/poller.go:881-923 | The exact condition under which one merge keeps the intent of a set in flight shown, for every input. |
| Sections.KeepKeepsOkSettledExactly | internal/poller/poller.go:665-681 | A Keep's reconcile leaves ok settled exactly if the view it turns to ok has no intent. |
| Sections.SecondPassCanOrphanTheGate | internal/poller/poller.go:881-923 | An address listed twice, with the deadline passing between its two passes: the first shows the gate and the second drops its entry. |
| Sections.FinishHandsMarkersOver | internal/poller/poller.go:511-554 | Step 3 never loses a marker: its own and the one it found each end in the new entry or on the disarm list. |
| Supersede.SupersedeOrder | internal/poller/poller.go:429-437 | Per router, reconciles publish in strictly increasing sequence number, no pending entry is ahead of the counter, and a Keep that succeeds confirms the newest set ever started. |
| Supersede.OvertakenSetNeverPublishes | internal/poller/poller.go:425-437 | A set overtaken by a newer one changes neither view nor entry when it reconciles; the newest one publishes whenever the router is listed. |
| Supersede.OrderedStep | internal/poller/poller.go:330-692 | Every step keeps sequence numbers, publications and pending keeps in order. |
| Protocol.MovesAreLocal | internal/router/router.go:339-405 | What a set does between its two critical sections touches only the device, the router lock and its own record. |
| ClientSteps.MovesAreTheClient | internal/router/router.go:339-405 | For every script, timers waking in between included: a set's moves in the machine, one after the other, leave the device and the result of the client's own method, give the router lock back and touch nothing else. |
| Records.NewSetsAreUndisturbed | internal/poller/poller.go:330-361 | A set starts with its target, prev and keep mode as given, under the next number, with none of its recorded events, and leaves the other sets alone. |
| Records.FlagsRecordEvents | internal/poller/poller.go:893-923 | In every step, a set in flight is recorded as having met a read of its target, an elapsed gate or a drop from the list exactly when the step is one; its request never changes. |
| Records.HistoryRecordsEvents | internal/poller/poller.go:511-559 | Publishes, failed disarm writes and load gaps are recorded exactly when they happen, and no step other than a set's move records anything else. |
| Records.TouchIsRemembered | internal/poller/poller.go:859-891 | Whatever changes the shown view between a poll's capture and its merge is remembered, never without a generation having moved, and the captured generation and view stay. |
| Records.CaptureStartsUntouched | internal/poller/poller.go:822-864 | A capture directly after the load holds the current view and generation and records no gap. |
| Records.KeepGoesOn | internal/poller/poller.go:613-655 | A Keep goes on exactly if its check lets it, with the marker of the newest set. |
| Records.KeepGoesPastItsWrite | internal/poller/poller.go:657-663 | It goes past its write exactly if that exited 0; the marker is there exactly if the write took effect or it was there before. |
| Records.ProbeGoesOn | internal/poller/poller.go:757-772 | A probe begins exactly if no gate is pending, and goes on exactly if it read the router. |
| Witnesses.LoadGapRevivesTheGate | internal/poller/poller.go:820-864 | A run in which a Keep finishes between snapshot load and generation capture and the merge republishes the dead gate. |
| Witnesses.DeadGateOutlivesPolls | internal/poller/poller.go:1028-1053 | Such a gate is carried on by any number of listings up to the first that finds the node offline, which shows it unreachable; after that it is never shown again. |
| Witnesses.FailedApplyTimerFiresOverKeptChange | internal/router/router.go:357-387 | A run with no gap and no failed disarm in which the timer of a failed apply reverts a later, kept change that is shown as ok. |
| Witnesses.OvertakenApplyMovesTheDevice | internal/router/router.go:355-405 | A run of successes in which the older set reaches the router last: the snapshot is ok on one exit node and the device is on the other. |
| Witnesses.LateKeepShowsOkOnNothing | internal/poller/poller.go:620-680 | A run in which a gate runs out while a Keep that landed in time is under way: the router is shown as ok without an exit node while the device stays on the target. |
| Witnesses.FailedSetStrandsTheGate | internal/poller/poller.go:543-547 | A run in which a later set fails: the router is first shown as ok with the older gate's timer live, then as awaiting a keep that every Keep refuses. |
| Witnesses.LoadGapUnsettlesOk | internal/poller/poller.go:820-864 | A run in which a set confirms between snapshot load and generation capture, and a Keep then turns the pending view to ok with its intent still set. |
| Witnesses.LoadGapHidesTheIntent | internal/poller/poller.go:820-864 | A run in which a set begins between snapshot load and generation capture, and the merge shows the router as ok without an intent while the set is in flight. |
| Witnesses.StaleDialConfirmsARevert | internal/poller/poller.go:902-918 | A run without a gap or a failure in which a managed poll reads the target, the timer fires, and the merge drops the entry and publishes ok on the target with the device back on prev. |
| Witnesses.RelistedReadIsStale | internal/poller/poller.go:882-890 | A run in which the router is dropped and listed anew while a set is in flight: the merge finds a moved generation but no current view, and publishes its old read as ok with the device elsewhere. |
| PollerState.Poller.BeginSet | internal/poller/poller.go:330-361 | Step 1 changes one router's share as `Sections.BeginSet` says and no other router's, and reports whether the router was found. |
| PollerState.Poller.FinishSet | internal/poller/poller.go:425-555 | Step 3 changes one router's share and returns the disarm list as `Sections.FinishSet` says, and no other router's share. |
| PollerState.Poller.BeginKeep | internal/poller/poller.go:613-653 | Keep's validation gives the 409 the source gives, drops an elapsed gate, and touches no other router. |
| PollerState.Poller.FinishKeep | internal/poller/poller.go:665-691 | Keep's reconcile publishes ok and drops the entry exactly when no newer set started. |
| PollerState.Poller.FinishProbe | internal/poller/poller.go:773-791 | The read after a probe is merged exactly when nothing touched the router and no gate is active. |
| PollerState.Poller.Capture | internal/poller/poller.go:859-864 | Records each polled router's generation. |
| PollerState.Poller.Dial | internal/poller/poller.go:866-875 | Builds one view per address, dialed or only listed, from the first inventory node that carries the address (a placeholder only if none does) and, where the router answered, on the selection read; each view carries its own address and no other controlled one. |
| PollerState.Poller.PollMerge | internal/poller/poller.go:879-935 | For every number of routers and every position in the loop, repeated addresses included: a router listed once takes its merge step, one touched since the capture keeps its share as it is, one listed twice shows its first pass and loses its entry if any pass drops it, every other one leaves the snapshot. |
| PollerState.Poller.RefreshGroups | internal/poller/poller.go:1067-1086 | A zone edit changes the resolved groups and no router's share. |
| PollerState.Poller.WithRouter | internal/poller/poller.go:1171-1201 | The shared read-modify-write changes what is found at one address and nowhere else, and says whether it found it. |
| Views.IntentLastsUntilSettled | internal/poller/poller.go:1204-1228 | Over any sequence of managed polls a dated intent stays as issued until a poll settles it, and is then gone for good. |
| Views.UnconfirmedIsBounded | internal/poller/poller.go:939-991 | After a poll that reached the router the view shows the router's selection, unconfirmed exactly while the intent is unsettled and ok otherwise; the first read at or past the window is ok. |
| Views.PollsNeverReviveAnIntent | internal/poller/poller.go:939-991 | A router without an intent never gets one from polls and never turns unconfirmed. |
| Views.UndatedIntentWaitsForTheDevice | internal/poller/poller.go:1219-1227 | An intent without an issue time is held until the router reports it, however long that takes. |
| Sections.UnconfirmedChangeSettles | internal/poller/poller.go:490-509 | A change published as unconfirmed turns ok exactly at the first read that finds its target or comes at or past arm time plus the window, with the selection read. |
| Sections.PublishedFollowsTheLastAnswer | internal/poller/poller.go:438-509 | For every outcome of every command of a change: step 3 shows the router reachable exactly if it answered last (an unconfirmed answer counts only if the router is online), then on the selection and statistics of that answer, ok, awaiting a keep, or unconfirmed; otherwise unreachable on the selection shown before. The intent stays, dated by the arming, exactly after a failure that was not definitive. |
| Sections.SuccessShowsTheTarget | internal/poller/poller.go:440-459 | A change without an error is shown on the very exit node asked for. |
| Sections.FinishUpdatesExactly | internal/poller/poller.go:425-555 | Step 3 publishes only the newest set of a router still shown; what becomes of the entry in each case; and no marker it writes is still the entry's. |
| Sections.BegunSetIsOnlyPending | internal/poller/poller.go:330-361 | Step 1 announces the intent as pending, overtakes what came before, and leaves what is known of the router as it was. |
| Sections.KeepFindsExactly | internal/poller/poller.go:613-653 | When a Keep goes ahead, with which marker, and what each refusal leaves: only one that comes too late changes anything, and then the router's selection is no longer claimed to be known. |
| Sections.KeptIsOk | internal/poller/poller.go:665-681 | After the marker is written the router is ok on the selection shown before, without a deadline, unless a newer set took over. |
| Sections.ProbeShowsWhatItRead | internal/poller/poller.go:773-791 | A probe publishes its read only over an untouched, ungated router, unconfirmed exactly while an intent still waits. |
| Sections.UnreadDialKeepsTheLastKnown | internal/poller/poller.go:939-984 | A router the poll could not read, whatever it showed before, is published unreachable with the reason, on its last-known selection, statistics and intent; its entry stays unless it has elapsed. |
| Sections.UnreadNewcomerIsBlank | internal/poller/poller.go:939-984 | A router first seen unread or only listed shows no selection, intent or statistics. |
| Sections.ReadDialIsPublished | internal/poller/poller.go:879-923 | A router the poll read is published on the selection read, under its live gate if there is one, else unconfirmed exactly while an intent waits, else ok. |
| Sections.ListedIsCarried | internal/poller/poller.go:1006-1048 | A router only listed keeps its settled facts, and its state unless it was unreachable or unprobed. |
| Views.SameExitNodeExactly | internal/poller/poller.go:1239-1247 | Two selections are the same by id when both have one, otherwise by address; names never matter. |
| Views.UnreachedIsOnlyMarked | internal/poller/poller.go:1204-1208 | A view that was not reached is only marked unreachable; its intent waits. |
| RouterClient.Client.ApplyExitNode | internal/router/router.go:339-405 | The device and result after arm, apply, confirm and keep for every outcome: no error if and only if every command succeeded and the router was read back on the exit node asked for; every error return carries an empty marker; when an error has a `*CommandError` in its chain. |
| RouterClient.Client.KeepExitNode | internal/router/router.go:409-418 | Writes the marker, and succeeds exactly on exit 0. |
| RouterClient.ConfirmedExactly | internal/router/router.go:796-805 | A change is confirmed if and only if the read after a clean apply reports the selection asked for. |
| RouterClient.MarkerMeansOnTarget | internal/router/router.go:384-405 | The dead-man's switch is turned off inline only for a change read back on its target. |
| RouterClient.DeadMansSwitch | internal/router/router.go:339-418 | For every outcome of every command and every moment the timer can wake: unchanged if it was never armed, on target if kept in time, otherwise back on prev, save for an apply that lands after the timer woke. |
| RouterClient.PromptSwitch | internal/router/router.go:724-745 | If the apply lands before the timer wakes, kept means target and not kept means prev, without exception. |
| RouterClient.CommandErrorMeansNotApplied | internal/poller/poller.go:385-400 | What every change that failed with a `*CommandError` leaves on the device, for every moment its timer can wake; where prev is what the device was on and the target is not, it is left there if and only if arm or apply failed, or a wake put prev back before the router layer returned. |
| RouterClient.CommandErrorAfterApply | internal/router/router.go:389-394 | A confirm read that exits non-zero: reported as a definitive failure with the device moved. |
| Zones.AllowedExitNodeSet | internal/poller/poller.go:1253-1273 | Computes the union of the allowed exit nodes of every zone of the consumer, and whether there is one. |
| Zones.CheckSet | internal/poller/poller.go:269-329 | A change is refused exactly if something is wrong with it (no listed router or node of that id, no address, offline, not an exit node, itself, outside the union of its zones), and then for the first such thing in the source's order; otherwise it goes out with the first router and node of those ids. |
| Zones.FindRouter | internal/poller/poller.go:1430-1440 | Finds the first router of that id, and none only if no listed router has it. |
| Zones.FindNode | internal/poller/poller.go:1407-1414 | Finds the first node of that id, and none only if no node has it. |
| Zones.PrimaryIP | internal/poller/poller.go:1373-1385 | The first address with a dot if there is one, else the first address, else none. |
| Zones.AuthorizeRouterWrite | internal/api/api.go:790-815 | Admits a write exactly when the api's write policy does, over the live groups. |
| Zones.GuestWritesRefineZonePolicy | internal/api/api.go:790-830 | What the api lets a guest write lies in the guest's own zone and also passes the poller's union check. |
| Zones.ZonePolicyIsWider | internal/poller/poller.go:1253-1273 | The converse fails once two zones share a router. |
| Zones.BuildGroupViews | internal/poller/poller.go:1279-1319 | The loops compute the sorted, resolved views of the groups. |
| Zones.GroupViewsAreStable | internal/poller/poller.go:1279-1303 | With distinct ids the resolved views do not depend on the stored order. |
| Zones.GroupViewsAreSorted | internal/poller/poller.go:1279-1303 | One view per group, ascending by name and, among equal names, by id. |
| Zones.MemberShowsItsNode | internal/poller/poller.go:1306-1319 | A member is kept whatever the inventory says; it is present exactly if some node has its id, and shows the name, address and state of the last such node. |
| Zones.FilterSnapshotToZone | internal/authz/authz.go:81-127 | The loops compute the guest's snapshot of a zone. |
| Zones.ViewMatchesGroup | internal/poller/poller.go:1279-1303 | The resolved view found for a zone id is that of the group the live store returns for it. |
| Zones.FilterAgreesWithRawZones | internal/authz/authz.go:81-127 | The filtered snapshot holds exactly the routers and nodes the live zone admits, each as often as before and in order, of the groups only the resolved zone, and nothing if the zone is gone. |
| Zones.FilterIsIdempotent | internal/authz/authz.go:81-127 | Filtering twice is filtering once. |
| GroupStore.NormalMembersAreClean | internal/groups/groups.go:356-371 | A member list is refused exactly when a member is blank; otherwise the result is trimmed, free of duplicates and names the same members. |
| GroupStore.NormalMembersKeepOrder | internal/groups/groups.go:356-371 | Members stay in the order in which they first occur. |
| GroupStore.NormalizeMembers | internal/groups/groups.go:356-371 | The loop over the seen map computes that normal form. |
| GroupStore.Store.Create | internal/groups/groups.go:154-178 | Outcome and new set of a create, rolled back when the save fails, memory equal to disk. |
| GroupStore.Store.Update | internal/groups/groups.go:183-206 | Outcome and new set of an update, rolled back when the save fails, memory equal to disk. |
| GroupStore.Store.Delete | internal/groups/groups.go:210-228 | Outcome and new set of a delete, rolled back when the save fails, memory equal to disk. |
| GroupStore.CreateKeepsIntegrity | internal/groups/groups.go:154-178 | A create keeps ids unique, names unique up to case and members clean. |
| GroupStore.UpdateKeepsIntegrity | internal/groups/groups.go:183-206 | An update keeps ids unique, names unique up to case and members clean. |
| GroupStore.CreateAddsExactly | internal/groups/groups.go:154-178 | Seen through Get, a create adds the group it returns and nothing else; a refused or unsaved one changes nothing. |
| GroupStore.CreateAnswersExactly | internal/groups/groups.go:154-178 | A create is stored if and only if the submission is well formed, no group has its name up to case, and it is saved; when it is invalid and when unsaved; and what is stored stands for what was submitted. |
| GroupStore.DeleteUndoesCreate | internal/groups/groups.go:210-228 | Deleting a group just created restores the set exactly. |
| GroupStore.UpdateReplacesExactly | internal/groups/groups.go:183-206 | An update replaces the group it names, under the same id, and no other. |
| GroupStore.UpdateAnswersExactly | internal/groups/groups.go:183-206 | An update is stored if and only if the submission is well formed, the group exists, no other group has the name up to case, and it is saved; when it is invalid, a 404 or unsaved. |
| GroupStore.DeleteRemovesExactly | internal/groups/groups.go:210-228 | A delete removes the group it names and no other, and is a 404 exactly when there is none. |
| GuestStore.Store.Create | internal/guests/guests.go:229-277 | Outcome and new set of a create, rolled back when the save fails, memory equal to disk. |
| GuestStore.Store.SetDisabled | internal/guests/guests.go:284-299 | Outcome and new set of flipping the flag, rolled back when the save fails. |
| GuestStore.Store.Delete | internal/guests/guests.go:303-321 | Outcome and new set of a delete, rolled back when the save fails. |
| GuestStore.Store.Authenticate | internal/guests/guests.go:329-359 | Admits exactly an enabled guest whose label matches up to case and whose hash matches. |
| GuestStore.CreateKeepsIntegrity | internal/guests/guests.go:229-277 | A create keeps ids unique and labels unique up to case. |
| GuestStore.CreateAddsExactly | internal/guests/guests.go:229-277 | A create adds one enabled guest with the trimmed label and zone and touches no other. |
| GuestStore.CreateAnswersExactly | internal/guests/guests.go:229-277 | A create is stored if and only if label and zone are given, the password has 8 to 72 bytes and is hashed, no guest has the label up to case, and it is saved; when it is invalid and when unsaved; and what the answer says. |
| GuestStore.SetDisabledTouchesOneFlag | internal/guests/guests.go:284-299 | Flipping the flag changes that field of that guest only, and flipping it back restores the set. |
| GuestStore.DeleteRemovesExactly | internal/guests/guests.go:303-321 | A delete removes the guest it names and no other. |
| AdminRuns.StoresAreAlwaysSound | internal/api/api.go:862-1040 | From empty files, whatever requests come, overlap, fail to save or are cut off by a restart: memory equals disk, ids are unique, names and labels unique up to case, members clean. |
| AdminRuns.UnsavedChangesNothing | internal/api/api.go:862-1040 | A request whose save fails changes neither store, in memory or on disk. |
| AdminRuns.RestartLosesOnlyHandlers | internal/groups/groups.go:103-135 | A restart of sound stores loses the requests under way and nothing stored. |
| AdminRuns.StepHousesExactly | internal/api/api.go:906-1005 | From a sound state with every guest housed, one step keeps every guest's zone existing if and only if it is not the second half of a handler that comes too late: a saved delete of a zone a guest is in, or a stored guest whose zone has gone. |
| AdminRuns.GuestsKeepTheirZonesExactly | internal/api/api.go:906-1005 | Over every run of overlapping handlers from empty files, every guest's zone exists at every moment if and only if no second half comes too late. |
| AdminRuns.SoundFromEmpty | internal/api/api.go:978-1005 | If no zone is ever being deleted while a guest is being created in it, both stores are sound and every guest's zone exists, at the end of every run from empty files. |
| AdminRuns.SoundOneAtATime | internal/api/api.go:906-1005 | In particular when requests are handled one at a time. |
| AdminRuns.ConcurrentRequestsCanOrphanAGuest | internal/api/api.go:906-1005 | A run from empty files in which a delete and a create overlap, both pass their checks, and a guest is left without its zone. |
| AdminRuns.GuestSeesItsZone | internal/authz/authz.go:81-127 | A housed guest of a sound store always finds its zone in the snapshot, and sees exactly the routers and nodes of that zone. |
| Session.Base64RoundTrip | internal/api/api.go:393-396 | Unpadded base64url (section 5 of RFC 4648) decodes to what was encoded, for every byte string. |
| Session.SextetIsTheAlphabet | internal/api/api.go:393-396 | Each sextet is written as the character RFC 4648 gives it. |
| Session.SameBits | internal/api/api.go:393-396 | Three bytes and the four sextets they become are the same 24-bit number. |
| Session.SextetsInOrder | internal/api/api.go:393-396 | Each group of three bytes is encoded where it stands. |
| Session.DecodesExactly | internal/api/api.go:410-420 | Line breaks aside, a text decodes if and only if all its characters are of the alphabet and no group is left with a single one. |
| Session.FirstByteWeighsMost | internal/api/api.go:374-397 | The expiry is read most significant byte first. |
| Session.LayoutIsInjective | internal/api/api.go:253-264 | No two different sessions are signed over the same bytes. |
| Session.NewSessionValue | internal/api/api.go:374-397 | The buffer filled in place is the encoded layout with its MAC; it fails exactly without randomness or for an id over 255 bytes. |
| Session.AcceptsExactlySignedSessions | internal/api/api.go:410-448 | A cookie yields an identity if and only if its bytes are that identity's correctly signed, unexpired layout. |
| Session.SessionRoundTrip | internal/api/api.go:374-448 | A minted cookie yields its identity back until it expires, for the admin and every guest id of 1 to 255 bytes. |
| Output.CappedBuffer.Write | internal/router/router.go:683-695 | Keeps the first max bytes of everything written, flags exactly an overflow, and always reports the whole chunk consumed. |
| Output.Capture | internal/router/router.go:620-651 | However a stream is chunked, its capture is the first max bytes and the command fails exactly when there were more. |
| Output.ParseStatus | internal/router/router.go:493-556 | The loops compute the runtime of a status document: sorted options, the selected peer, or the fallback selection. |
| Output.RuntimeTells | internal/router/router.go:493-556 | For every document: the options describe exactly the offered peers, one each, ascending by id; the selection is the last selected peer under its id, its name without the final dot and its first IPv4, with its statistics; without one, the exit reported at the top level with the name and statistics of the peer listed under its id; otherwise none. |
| Output.ParseStatusIsOrderIndependent | internal/router/router.go:507-522 | With distinct ids and at most one selected peer the result does not depend on map iteration order. |
| Output.TwoSelectionsDependOnOrder | internal/router/router.go:510-520 | In every document with two selected peers of different ids, two iteration orders give different results. |
| Output.OrderIndependentExactly | internal/router/router.go:507-522 | With distinct ids, the result is independent of map iteration order if and only if at most one peer is selected. |
| Output.EgressExitRoundTrip | internal/router/router.go:773-794 | From any output, even one that contains markers, followed by the marker line, the exit code and trimmed output come back. |
| Output.EgressParsedExactly | internal/router/router.go:780-794 | An exit code is parsed if and only if a marker occurs and what follows the last one is a 64-bit integer up to white space; it is then that integer with the trimmed output before the marker. |
| ClientChannel.LastFrameIsNeverLost | internal/sse/hub.go:116-131 | A client receives a subsequence of what Run sends, in order, and the last frame sent is waiting for it or was the last it received. |
| ClientChannel.SendTakesThreeSelects | internal/sse/hub.go:116-131 | Undisturbed, a send leaves its own frame in the buffer, at once if there is room and otherwise in the place of the older one. |
| BroadcastChannel.BurstLeavesAFreshSnapshot | internal/sse/hub.go:153-167 | After a burst of concurrent broadcasts the channel holds, or the hub last took, a snapshot whose call had not returned before any other call began. |
| BroadcastChannel.OwnSnapshotYieldsToOverlapping | internal/sse/hub.go:153-167 | A call gives its snapshot up only to one placed after the call began. |
| BroadcastChannel.EachSnapshotIsTakenOnce | internal/sse/hub.go:153-167 | The hub takes each snapshot at most once, and only of calls that placed it. |
| BroadcastChannel.CallTakesThreeSelects | internal/sse/hub.go:153-167 | Undisturbed, a call places its own snapshot, at once if there is room and otherwise in the place of the older one. |
| IdleLoop.Runner.Run | internal/poller/poller.go:1091-1162 | Over whatever events the select picks: the ticker runs with no suspend pending while the last edge says there are clients, otherwise polling is suspended or about to be; and it refreshes at exactly the ticks and the edges that start the ticker. |
| IdleLoop.LoopFollowsClients | internal/sse/hub.go:84-149 | Over every interleaving of hub and loop, a value in the channel is the current truth and an empty channel means the loop agrees with the client count: no wakeup is lost. |
| IdleLoop.EmitDelivers | internal/sse/hub.go:135-149 | The third select of emit always finds room. |
| IdleLoop.EmitTakesThreeSelects | internal/sse/hub.go:135-149 | Undisturbed, emit puts its value into the channel with one select, or with three if an older value has to go. |
| IdleLoop.ClientsAreThoseJoined | internal/sse/hub.go:84-115 | In every run the connected clients are those whose last word was to register. |
| IdleLoop.BusyIsRefreshing | internal/poller/poller.go:1091-1162 | The loop is away from its select exactly during a refresh, begun by a tick or by an edge that starts the ticker. |
| IdleLoop.EachEdgeIsTakenOnce | internal/sse/hub.go:135-149 | Only emit puts a value into the edge channel, its own, and the loop takes each value once. |
| IdleLoop.LingerIsUndone | internal/poller/poller.go:1151-1154 | If linger fires while clients are connected, their edge is still to come and restarts the ticker. |

## Left out

- Protocol.Step: the egress probe after a confirmed change; its result is advisory and changes no control decision.
- Agreement.OkAgreesWithTheDevice: no claim about a router shown as awaiting a keep; a poll can put that state over a selection an older failed set left stale.
- Protocol.State: broadcasts; those of a set, a Keep and a probe run outside the mutex, so frame order is not store order.
- Protocol.State: a restart of tsctl, which forgets counters and pending entries while the router's timers live on.
- Protocol.State: two clocks; the router's sleep and the poller's deadline are measured on one.
- RouterClient.Client.ApplyExitNode: the parsing of IPv4 arguments is one flag, and the SSH transport is reduced to command outcomes.
- PollerState.Poller.Dial: the inventory fetch and the discovery of router addresses; addresses and nodes are parameters.
- Protocol.State: an address listed twice; the machine merges a router once per poll.
- PollerState.Poller.FinishSet: the snapshot is stored before the gate's bookkeeping, the source does both in the other order under one lock.
- PollerState.Poller: the mutex and goroutines; methods are critical sections, interleaved by `Protocol`.
- GroupStore.Store.Create: minting a fresh id, a loop over random values; the id is a parameter required to be unused.
- GroupStore.Store.Persist: temporary file, sync and rename; a save replaces the file or fails and leaves it.
- GroupStore, GuestStore: returned copies; values have no aliasing here.
- GuestStore.Store.Authenticate: bcrypt is a parameter, and equal timing for unknown labels is not modelled.
- Session.ParseSession: the cookie jar, and the reload of the guest's record on each request.
- Output.ParseStatus: JSON decoding and address formatting; the document arrives decoded.
- Ordering.Sort: Go's sorting algorithm; with ids distinct the sorted result is unique, which is proved.
- ClientChannel, BroadcastChannel: channels are values in a state machine, since the language has none.
- HTTP plumbing, CSRF and Host checks, login, DTO mapping, SSE writes, host keys, configuration and the browser code.
