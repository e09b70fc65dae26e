/** What each critical section of the poller does to one router's share of its state
    (internal/poller/poller.go): the two counters, the pending-keep entry, the published view.
    `Poller` runs these on the real maps and snapshot; `Protocol` interleaves them. */
module Sections {
  import opened Types
  import opened Views
  import opened RouterClient

  datatype KeepEntry = KeepEntry(marker: Marker, revertAt: Time, setSeq: nat)

  /** One router's share of the state guarded by `mu`. `view` is None while the router is not
      in the published snapshot. */
  datatype Shared = Shared(setSeq: nat, setGen: nat, keep: Option<KeepEntry>, view: Option<RouterView>)

  function Bump(sh: Shared): Shared {
    sh.(setGen := sh.setGen + 1)
  }

  // ---- SetExitNode, step 1 ----------------------------------------------------------------

  function ShowIntent(rv: RouterView, target: Option<ExitNodeRef>): RouterView {
    rv.(desired := target, desiredSince := 0, state := Pending, lastError := "")
  }

  /** The counters move even when the router has left the snapshot. */
  function BeginSet(sh: Shared, target: Option<ExitNodeRef>): Shared {
    Bump(sh).(setSeq := sh.setSeq + 1,
              view := if sh.view.Some? then Some(ShowIntent(sh.view.value, target)) else None)
  }

  /** A set announces its intent and nothing more: it takes the next number, overtakes every read
      and set before it, and the router stays on what was last known of it. */
  lemma BegunSetIsOnlyPending(sh: Shared, target: Option<ExitNodeRef>)
    ensures var s := BeginSet(sh, target);
            && s.setSeq == sh.setSeq + 1 && s.setGen == sh.setGen + 1 && s.keep == sh.keep
            && (s.view.Some? <==> sh.view.Some?)
            && (s.view.Some? ==>
                  && s.view.value.desired == target && s.view.value.desiredSince == 0
                  && s.view.value.state == Pending && s.view.value.lastError == ""
                  && s.view.value.(desired := sh.view.value.desired, desiredSince := sh.view.value.desiredSince,
                                   state := sh.view.value.state, lastError := sh.view.value.lastError) == sh.view.value)
  {
  }

  // ---- SetExitNode, step 3 ----------------------------------------------------------------

  function Reconciled(rv: RouterView, target: Option<ExitNodeRef>, autoKeep: bool, armAt: Time, now: Time,
                      res: ApplyResult, reread: Option<Runtime>): RouterView {
    var rv := rv.(revertAt := 0);
    if res.err.None? then
      rv.(stats := res.rt.stats, reachable := true, current := res.rt.current, desired := None, desiredSince := 0,
          lastError := "", lastConfirmedAt := now,
          state := if autoKeep then OK else AwaitingKeep,
          revertAt := if autoKeep then 0 else armAt + REVERT_WINDOW)
    else if res.err.value.command then
      var rv := rv.(desired := None, desiredSince := 0, lastError := res.err.value.message);
      (match reread
       case Some(rt) => rv.(reachable := true, current := rt.current, stats := rt.stats, state := OK, lastConfirmedAt := now)
       case None => rv.(reachable := false, state := Unreachable))
    else if res.rt.online then
      rv.(stats := res.rt.stats, reachable := true, current := res.rt.current, desired := target, desiredSince := armAt,
          state := Unconfirmed, lastError := res.err.value.message)
    else
      rv.(stats := res.rt.stats, reachable := false, desired := target, desiredSince := armAt,
          state := Unreachable, lastError := res.err.value.message)
  }

  /** The last thing the device said to a change: its re-read after a definitive failure,
      otherwise its confirm read. None if it did not answer. */
  function LastAnswer(targetArg: string, autoKeep: bool, s: Script, reread: Option<Runtime>): Option<Runtime> {
    if FailedDefinitively(s, targetArg, autoKeep) then reread
    else if ReachedConfirm(s) && s.read.Read? then Some(s.read.rt)
    else None
  }

  /** What step 3 publishes follows the last answer of the device, for every outcome of every
      command. It is reachable exactly if the device answered (an unconfirmed answer counts only if
      the router says it is online), and then shows the selection and statistics of that answer;
      otherwise it is unreachable on the selection shown before. Reachable, it is ok or awaiting a
      keep if the change succeeded, ok if it failed definitively, and unconfirmed otherwise; and
      the intent stays, dated by the arming, exactly after a failure that was not definitive. */
  lemma PublishedFollowsTheLastAnswer(rv: RouterView, target: Option<ExitNodeRef>, autoKeep: bool, armAt: Time, now: Time,
                                      marker: Marker, s: Script, reread: Option<Runtime>)
    ensures var targetArg := ExitArg(target);
            var res := ResultOf(marker, targetArg, autoKeep, s);
            var v := Reconciled(rv, target, autoKeep, armAt, now, res, reread);
            var answer := LastAnswer(targetArg, autoKeep, s, reread);
            var failed := FailedDefinitively(s, targetArg, autoKeep);
            && (v.reachable <==> answer.Some? && (res.err.None? || failed || answer.value.online))
            && (v.reachable ==> v.current == answer.value.current && v.stats == answer.value.stats)
            && (!v.reachable ==> v.state == Unreachable && v.current == rv.current
                                 && v.stats == if failed then rv.stats else if answer.Some? then answer.value.stats else NO_STATS)
            && (v.reachable ==>
                  v.state == if res.err.None? then (if autoKeep then OK else AwaitingKeep)
                             else if failed then OK else Unconfirmed)
            && (if res.err.None? || failed then v.desired.None? && v.desiredSince == 0
                else v.desired == target && v.desiredSince == armAt)
            && v.revertAt == (if v.state == AwaitingKeep then armAt + REVERT_WINDOW else 0)
            && (v.state in {OK, AwaitingKeep} ==> v.lastConfirmedAt == now)
            && (v.state !in {OK, AwaitingKeep} ==> v.lastConfirmedAt == rv.lastConfirmedAt)
            && v.node == rv.node && v.lastError == if res.err.None? then "" else res.err.value.message
  {
    ConfirmedExactly(s, ExitArg(target));
  }

  /** A change that comes back without an error is shown on its target. */
  lemma SuccessShowsTheTarget(rv: RouterView, target: Option<ExitNodeRef>, autoKeep: bool, armAt: Time, now: Time,
                              marker: Marker, s: Script, reread: Option<Runtime>)
    requires ResultOf(marker, ExitArg(target), autoKeep, s).err.None?
    ensures var v := Reconciled(rv, target, autoKeep, armAt, now, ResultOf(marker, ExitArg(target), autoKeep, s), reread);
            v.state == (if autoKeep then OK else AwaitingKeep) && OnTarget(v.current, ExitArg(target))
  {
    ConfirmedExactly(s, ExitArg(target));
  }

  /** `disarm` lists the markers to write once `mu` is released. */
  datatype Finish = Finish(sh: Shared, published: bool, disarm: seq<Marker>)

  function FinishSet(sh: Shared, mySeq: nat, target: Option<ExitNodeRef>, autoKeep: bool, armAt: Time, now: Time,
                     res: ApplyResult, reread: Option<Runtime>): Finish {
    if sh.view.Some? && sh.setSeq == mySeq then
      var v := Reconciled(sh.view.value, target, autoKeep, armAt, now, res, reread);
      var sh' := Bump(sh).(view := Some(v));
      if res.err.Some? then
        Finish(sh', true, [])
      else if autoKeep then
        Finish(sh'.(keep := None), true,
               if sh.keep.Some? && sh.keep.value.marker != "" then [sh.keep.value.marker] else [])
      else
        Finish(sh'.(keep := Some(KeepEntry(res.marker, armAt + REVERT_WINDOW, mySeq))), true,
               if sh.keep.Some? && sh.keep.value.marker != "" && sh.keep.value.marker != res.marker
               then [sh.keep.value.marker] else [])
    else
      Finish(Bump(sh), false, if res.marker != "" then [res.marker] else [])
  }

  /** Step 3 never loses a marker: the one it came back with and the one behind the entry it
      found are each the new entry's, or on the list to disarm. Only a failed change comes back
      without a marker, and only an auto-kept or cleared one may come back without an error. */
  lemma FinishHandsMarkersOver(sh: Shared, mySeq: nat, target: Option<ExitNodeRef>, autoKeep: bool, armAt: Time, now: Time,
                               res: ApplyResult, reread: Option<Runtime>, m: Marker)
    requires m != "" && (res.marker != "" ==> res.err.None? && !autoKeep)
    requires res.marker == m || (sh.keep.Some? && sh.keep.value.marker == m)
    ensures var f := FinishSet(sh, mySeq, target, autoKeep, armAt, now, res, reread);
            m in f.disarm || (f.sh.keep.Some? && f.sh.keep.value.marker == m)
  {
  }

  /** What step 3 makes of the share, exactly. It publishes only the newest set of a router still
      shown. Then a failed change leaves the entry, an auto-kept or cleared one ends it, and a
      deferred one replaces it by its own marker, number and deadline; an unpublished one leaves the
      view and the entry. It writes only markers that are no longer the entry's. */
  lemma FinishUpdatesExactly(sh: Shared, mySeq: nat, target: Option<ExitNodeRef>, autoKeep: bool, armAt: Time, now: Time,
                             res: ApplyResult, reread: Option<Runtime>)
    ensures var f := FinishSet(sh, mySeq, target, autoKeep, armAt, now, res, reread);
            && f.sh.setSeq == sh.setSeq && f.sh.setGen == sh.setGen + 1
            && (f.published <==> sh.view.Some? && sh.setSeq == mySeq)
            && (!f.published || res.err.Some? ==> f.sh.keep == sh.keep)
            && (f.published && res.err.None? ==>
                  f.sh.keep == if autoKeep then None else Some(KeepEntry(res.marker, armAt + REVERT_WINDOW, mySeq)))
            && (!f.published ==> f.sh.view == sh.view)
            && (f.published ==> f.sh.view == Some(Reconciled(sh.view.value, target, autoKeep, armAt, now, res, reread)))
            && (forall m :: m in f.disarm ==> m != "" && (m == res.marker || (sh.keep.Some? && m == sh.keep.value.marker)))
            && (f.published ==> forall m :: m in f.disarm ==> res.err.None? && (f.sh.keep.Some? ==> m != f.sh.keep.value.marker))
            && |f.disarm| <= 1
  {
  }

  /** The poll reads the device, and finds the target or comes at the deadline or later. */
  predicate SettlesBy(p: Poll, target: ExitNodeRef, deadline: Time) {
    Reached(p) && (SameExitNode(p.read.rt.current, Some(target)) || p.at >= deadline)
  }

  /** A change that came back unconfirmed settles at its own deadline: shown unconfirmed or
      unreachable until some read finds the target, or until the first read at or past `armAt`
      plus the window, when the timer behind it has had its time; then ok with the selection
      read, for good. */
  lemma UnconfirmedChangeSettles(addr: string, rv: RouterView, target: ExitNodeRef, autoKeep: bool, armAt: Time, now: Time,
                                 res: ApplyResult, polls: seq<Poll>)
    requires res.err.Some? && !res.err.value.command && armAt != 0
    requires polls != [] && Reached(polls[|polls| - 1])
    ensures var shown := Reconciled(rv, Some(target), autoKeep, armAt, now, res, None);
            var out := AfterPolls(addr, shown, polls);
            && shown.state != OK
            && out.current == polls[|polls| - 1].read.rt.current
            && out.state == if exists i :: 0 <= i < |polls| && SettlesBy(polls[i], target, armAt + REVERT_WINDOW)
                            then OK else Unconfirmed
  {
    var shown := Reconciled(rv, Some(target), autoKeep, armAt, now, res, None);
    UnconfirmedIsBounded(addr, shown, polls);
    forall i | 0 <= i < |polls|
      ensures Settles(shown, polls[i]) <==> SettlesBy(polls[i], target, armAt + REVERT_WINDOW)
    {
    }
  }

  // ---- Keep -------------------------------------------------------------------------------

  datatype KeepCheck = NothingPending | WindowElapsed | NewerSet | Proceed(marker: Marker, mySeq: nat)

  function CheckKeep(sh: Shared, now: Time): KeepCheck {
    if sh.keep.None? then NothingPending
    else if now > sh.keep.value.revertAt then WindowElapsed
    else if sh.keep.value.setSeq != sh.setSeq then NewerSet
    else Proceed(sh.keep.value.marker, sh.keep.value.setSeq)
  }

  /** The device has reverted to a selection nobody has read. */
  function Unknown(rv: RouterView): RouterView {
    rv.(state := Unprobed, revertAt := 0, current := None, desired := None, desiredSince := 0, reachable := false)
  }

  function DropElapsed(sh: Shared): Shared {
    Bump(sh).(keep := None,
              view := if sh.view.Some? && sh.view.value.state == AwaitingKeep
                      then Some(Unknown(sh.view.value)) else sh.view)
  }

  /** The section of Keep that runs before the marker is written. */
  function ValidateKeep(sh: Shared, now: Time): Shared {
    if CheckKeep(sh, now) == WindowElapsed then DropElapsed(sh) else sh
  }

  function ShowKept(rv: RouterView): RouterView {
    rv.(state := OK, revertAt := 0, lastError := "")
  }

  /** The section of Keep that runs after the marker was written. */
  function FinishKeep(sh: Shared, mySeq: nat): Shared {
    if sh.setSeq != mySeq then sh
    else Bump(sh).(keep := None, view := if sh.view.Some? then Some(ShowKept(sh.view.value)) else None)
  }

  /** What a Keep finds, exactly. It goes ahead with the entry's own marker if the entry is that of
      the newest set and its window has not passed. A Keep that comes too late removes the entry
      and, where the gate was shown, what the router selects is no longer claimed to be known; any
      other refusal leaves the share as it is. */
  lemma KeepFindsExactly(sh: Shared, now: Time)
    ensures var check, s := CheckKeep(sh, now), ValidateKeep(sh, now);
            && (check.NothingPending? <==> sh.keep.None?)
            && (check.WindowElapsed? <==> sh.keep.Some? && sh.keep.value.revertAt < now)
            && (check.Proceed? <==> sh.keep.Some? && now <= sh.keep.value.revertAt && sh.keep.value.setSeq == sh.setSeq)
            && (check.Proceed? ==> check.marker == sh.keep.value.marker && check.mySeq == sh.setSeq)
            && (!check.WindowElapsed? ==> s == sh)
            && (check.WindowElapsed? ==>
                  && s == Shared(sh.setSeq, sh.setGen + 1, None, s.view)
                  && (sh.view.None? || sh.view.value.state != AwaitingKeep ==> s.view == sh.view)
                  && (sh.view.Some? && sh.view.value.state == AwaitingKeep ==>
                        && s.view.Some? && var v := s.view.value;
                        && v.state == Unprobed && !v.reachable && v.revertAt == v.desiredSince == 0
                        && v.current.None? && v.desired.None? && v.node == sh.view.value.node && v.stats == sh.view.value.stats
                        && v.lastError == sh.view.value.lastError && v.lastConfirmedAt == sh.view.value.lastConfirmedAt))
  {
  }

  /** What a Keep whose marker was written shows: ok, without a deadline or an error, on the
      selection shown before; unless a newer set took over, which it leaves alone. */
  lemma KeptIsOk(sh: Shared, mySeq: nat)
    ensures var s := FinishKeep(sh, mySeq);
            && (sh.setSeq != mySeq ==> s == sh)
            && (sh.setSeq == mySeq ==>
                  && s == Shared(mySeq, sh.setGen + 1, None, s.view) && (s.view.Some? <==> sh.view.Some?)
                  && (s.view.Some? ==>
                        && s.view.value.state == OK && s.view.value.revertAt == 0 && s.view.value.lastError == ""
                        && s.view.value.(state := sh.view.value.state, revertAt := sh.view.value.revertAt,
                                         lastError := sh.view.value.lastError) == sh.view.value))
  {
  }

  // ---- Probe ------------------------------------------------------------------------------

  /** The Status read merged after a successful probe; skipped if anything touched the router. */
  function FinishProbe(sh: Shared, genAt: nat, rt: Runtime, now: Time): Shared {
    if sh.setGen == genAt && sh.keep.None? && sh.view.Some? then
      Bump(sh).(view := Some(WithStatus(sh.view.value, rt, now)))
    else sh
  }

  /** A probe shows what it read if nothing touched the router since it began and no gate is open:
      then the router is reachable on the selection read, ok unless an intent still waits. */
  lemma ProbeShowsWhatItRead(sh: Shared, genAt: nat, rt: Runtime, now: Time)
    ensures var s := FinishProbe(sh, genAt, rt, now);
            && (sh.setGen != genAt || sh.keep.Some? || sh.view.None? ==> s == sh)
            && (sh.setGen == genAt && sh.keep.None? && sh.view.Some? ==>
                  && s == Shared(sh.setSeq, sh.setGen + 1, None, s.view) && s.view.Some? && var v := s.view.value;
                  && v.reachable && v.current == rt.current && v.stats == rt.stats && v.lastConfirmedAt == now && v.lastError == ""
                  && v.node == sh.view.value.node && v.revertAt == sh.view.value.revertAt
                  && v.state in {OK, Unconfirmed}
                  && (v.state == OK ==> v.desired.None? && v.desiredSince == 0)
                  && (v.state == Unconfirmed ==> v.desired == sh.view.value.desired && v.desiredSince == sh.view.value.desiredSince)
                  && (v.state == Unconfirmed <==>
                        && sh.view.value.desired.Some? && !SameExitNode(rt.current, sh.view.value.desired)
                        && (sh.view.value.desiredSince == 0 || now < sh.view.value.desiredSince + REVERT_WINDOW)))
  {
  }

  // ---- The poll's merge -------------------------------------------------------------------

  /** One iteration of the merge loop for a router the poll built `fresh` for. */
  function Merge(sh: Shared, built: RouterView, genAt: nat, now: Time): Shared {
    if sh.setGen != genAt then
      sh.(view := if sh.view.Some? then sh.view else Some(built))
    else if sh.keep.None? then
      sh.(view := Some(built))
    else if now > sh.keep.value.revertAt then
      sh.(keep := None, view := Some(if built.state == AwaitingKeep then Unknown(built) else built))
    else if built.reachable then
      sh.(view := Some(built.(state := AwaitingKeep, revertAt := sh.keep.value.revertAt)))
    else
      sh.(view := Some(built))
  }

  /** A merge step only ever drops the entry, always leaves a view, and leaves a touched router
      that is still listed as it is. */
  lemma MergeShape(sh: Shared, built: RouterView, genAt: nat, now: Time)
    ensures var m := Merge(sh, built, genAt, now);
            && m == sh.(keep := m.keep, view := m.view) && m.view.Some?
            && (m.keep.None? || m.keep == sh.keep)
            && (sh.setGen != genAt ==> m.keep == sh.keep && m.view == if sh.view.Some? then sh.view else Some(built))
  {
  }

  /** The inventory says that the router's node is offline. */
  predicate Offline(input: DialInput) {
    input.found.Some? && input.found.value.online == false
  }

  /** The poll could not read the router: its node is offline, or the dial failed. */
  predicate GoesUnread(input: DialInput) {
    Offline(input) || (input.Managed? && input.read.Failed?)
  }

  /** The node of a view is the one found in the inventory; failing that, one that knows nothing but
      its address and how it came to be listed. */
  predicate NodeOf(node: NodeView, addr: string, input: DialInput) {
    if input.found.Some? then node == input.found.value
    else
      && node.ips == [addr] && node.kind == (if input.Managed? then Router else Generic)
      && node.stableID == node.name == node.hostname == "" && node.tags == []
      && !node.online && !node.exitNodeOption && !node.isSelf
  }

  /** What a merge publishes of a router the poll could not read, whatever it showed before: it is
      unreachable and says why, on the last-known selection, statistics and intent, without a
      deadline; and its entry stays unless it has elapsed. */
  lemma UnreadDialKeepsTheLastKnown(sh: Shared, addr: string, prev: RouterView, input: DialInput, now: Time)
    requires GoesUnread(input)
    ensures var m := Merge(sh, Fresh(addr, Some(prev), input), sh.setGen, now);
            && m.view.Some? && var v := m.view.value;
            && v.state == Unreachable && !v.reachable && v.revertAt == 0
            && v.current == prev.current && v.stats == prev.stats && v.lastConfirmedAt == prev.lastConfirmedAt
            && v.desired == prev.desired && v.desiredSince == prev.desiredSince
            && v.lastError == (if Offline(input) then "node is offline" else input.read.message)
            && NodeOf(v.node, addr, input)
            && m.keep == if sh.keep.Some? && now > sh.keep.value.revertAt then None else sh.keep
  {
  }

  /** A router that appears unread, or only listed, shows nothing it was never told. */
  lemma UnreadNewcomerIsBlank(sh: Shared, addr: string, input: DialInput, now: Time)
    requires GoesUnread(input) || input.Listed?
    ensures var v := Merge(sh.(keep := None), Fresh(addr, None, input), sh.setGen, now).view;
            && v.Some? && !v.value.reachable && v.value.state == (if GoesUnread(input) then Unreachable else Unprobed)
            && NodeOf(v.value.node, addr, input)
            && v.value.current.None? && v.value.desired.None? && v.value.stats == NO_STATS
            && v.value.lastConfirmedAt == v.value.desiredSince == v.value.revertAt == 0
  {
  }

  /** What a merge publishes of a router the poll read: the selection and statistics just read,
      under its live gate if there is one, otherwise unconfirmed while an intent still waits and ok
      when none does. An intent waits while the read does not find it and its window, if dated, is
      not over. */
  lemma ReadDialIsPublished(sh: Shared, addr: string, prev: RouterView, input: DialInput, now: Time)
    requires input.Managed? && !GoesUnread(input)
    ensures var m := Merge(sh, Fresh(addr, Some(prev), input), sh.setGen, now);
            var rt := input.read.rt;
            var live := sh.keep.Some? && now <= sh.keep.value.revertAt;
            var waits := && prev.desired.Some? && !SameExitNode(rt.current, prev.desired)
                         && (prev.desiredSince == 0 || input.at < prev.desiredSince + REVERT_WINDOW);
            && m.view.Some? && var v := m.view.value;
            && v.reachable && v.current == rt.current && v.stats == rt.stats && v.lastConfirmedAt == input.at && v.lastError == ""
            && v.state == (if live then AwaitingKeep else if waits then Unconfirmed else OK)
            && v.revertAt == (if live then sh.keep.value.revertAt else 0)
            && v.desired == (if waits then prev.desired else None) && v.desiredSince == (if waits then prev.desiredSince else 0)
            && NodeOf(v.node, addr, input)
            && m.keep == if live then sh.keep else None
  {
  }

  /** What a merge publishes of a router the poll only lists: its settled facts as they were, and its
      state as it was unless that had no meaning to carry. */
  lemma ListedIsCarried(sh: Shared, addr: string, prev: RouterView, input: DialInput, now: Time)
    requires input.Listed? && !Offline(input) && sh.keep.None?
    ensures var m := Merge(sh, Fresh(addr, Some(prev), input), sh.setGen, now);
            && m.view.Some? && var v := m.view.value;
            && v.current == prev.current && v.stats == prev.stats && v.lastConfirmedAt == prev.lastConfirmedAt
            && v.desired == prev.desired && v.desiredSince == prev.desiredSince
            && (if prev.state == Unreachable || prev.state == Unprobed
                then v.state == Unprobed && !v.reachable && v.lastError == "" && v.revertAt == 0
                else v.state == prev.state && v.reachable == prev.reachable && v.lastError == prev.lastError && v.revertAt == prev.revertAt)
            && NodeOf(v.node, addr, input)
            && m.keep.None?
  {
  }

  /** A router the poll no longer lists leaves the snapshot; its entry stays. */
  function Unlist(sh: Shared): Shared {
    sh.(view := None)
  }

  // ---- The gate the snapshot shows --------------------------------------------------------

  /** A router shown as awaiting a keep has the pending entry whose deadline is shown. */
  predicate GateCoherent(sh: Shared) {
    sh.view.Some? && sh.view.value.state == AwaitingKeep ==>
      sh.keep.Some? && sh.keep.value.revertAt == sh.view.value.revertAt
  }

  /** A view shown as ok carries no pending intent. */
  predicate OkIsSettled(sh: Shared) {
    sh.view.Some? && sh.view.value.state == OK ==> sh.view.value.desired.None?
  }

  /** The poll is about to re-publish a gate it carried over from `prev`. */
  predicate CarriesGate(prev: Option<RouterView>, input: DialInput) {
    input.Listed? && !KnownOffline(input.found) && prev.Some? && prev.value.state == AwaitingKeep
  }

  /** When a merge keeps the gate coherent, exactly. The one way to break it is to publish an
      awaiting view carried over from `prev`: that is safe if the router was touched since the
      capture and is still listed, or if the entry behind the gate is still there and the merge
      can refresh, expire or match it. */
  lemma MergeKeepsGateExactly(sh: Shared, addr: string, prev: Option<RouterView>, input: DialInput, genAt: nat, now: Time)
    requires GateCoherent(sh)
    ensures GateCoherent(Merge(sh, Fresh(addr, prev, input), genAt, now))
       <==> (CarriesGate(prev, input) ==>
               if sh.setGen != genAt then
                 sh.view.Some? || (sh.keep.Some? && sh.keep.value.revertAt == prev.value.revertAt)
               else
                 && sh.keep.Some?
                 && (|| now > sh.keep.value.revertAt
                     || prev.value.reachable
                     || sh.keep.value.revertAt == prev.value.revertAt))
  {
    assert Fresh(addr, prev, input).state == AwaitingKeep <==> CarriesGate(prev, input);
  }

  /** The poll is about to re-publish an ok view whose intent is still pending. */
  predicate CarriesUnsettled(prev: Option<RouterView>, input: DialInput) {
    && input.Listed? && !KnownOffline(input.found)
    && prev.Some? && prev.value.state == OK && prev.value.desired.Some?
  }

  /** When a merge keeps ok settled, exactly: it publishes no unsettled ok view carried from
      `prev`, or that view does not get through, because the router was touched since the capture
      and is still listed, or because a live gate overlays it. */
  lemma MergeKeepsOkSettledExactly(sh: Shared, addr: string, prev: Option<RouterView>, input: DialInput, genAt: nat, now: Time)
    requires OkIsSettled(sh)
    ensures OkIsSettled(Merge(sh, Fresh(addr, prev, input), genAt, now))
       <==> (CarriesUnsettled(prev, input) ==>
               if sh.setGen != genAt then sh.view.Some?
               else sh.keep.Some? && now <= sh.keep.value.revertAt && prev.value.reachable)
  {
    var v := Fresh(addr, prev, input);
    assert v.state == OK && v.desired.Some? <==> CarriesUnsettled(prev, input);
  }

  /** The router shows `target` as the intent of a set that has not reconciled. */
  predicate ShowsPending(view: Option<RouterView>, target: Option<ExitNodeRef>) {
    view.Some? && view.value.desired == target && view.value.desiredSince == 0 && view.value.state != OK
  }

  /** When a merge keeps the intent of a set in flight shown, exactly: the router was touched since
      the capture; or the view the poll carries has that intent, undated, the dial did not read
      the target, and the view it publishes is neither ok (a carried ok view must meet a live gate)
      nor forgotten (a carried awaiting view must not meet an elapsed one). */
  lemma MergeKeepsIntentExactly(sh: Shared, addr: string, prev: Option<RouterView>, input: DialInput, genAt: nat, now: Time,
                                target: Option<ExitNodeRef>)
    requires target.Some? && ShowsPending(sh.view, target)
    ensures ShowsPending(Merge(sh, Fresh(addr, prev, input), genAt, now).view, target)
       <==> (sh.setGen == genAt ==>
               && prev.Some? && prev.value.desired == target && prev.value.desiredSince == 0
               && !ReadsTarget(input, target)
               && (input.Listed? && !KnownOffline(input.found) && prev.value.state == OK ==>
                     sh.keep.Some? && now <= sh.keep.value.revertAt && prev.value.reachable)
               && (CarriesGate(prev, input) ==> !(sh.keep.Some? && now > sh.keep.value.revertAt)))
  {
    var v := Fresh(addr, prev, input);
    assert ShowsPending(Some(v), target) ==> prev.Some? && prev.value.desired == target;
  }

  /** When a Keep's reconcile keeps ok settled, exactly: the view it turns to ok has no intent. */
  lemma KeepKeepsOkSettledExactly(sh: Shared, mySeq: nat)
    requires OkIsSettled(sh)
    ensures OkIsSettled(FinishKeep(sh, mySeq))
       <==> (sh.setSeq == mySeq && sh.view.Some? ==> sh.view.value.desired.None?)
  {
    if sh.setSeq == mySeq && sh.view.Some? {
      assert FinishKeep(sh, mySeq).view == Some(ShowKept(sh.view.value));
    }
  }

  /** An address listed twice is merged twice. If the deadline passes between the two clock
      readings, the first pass shows the gate and the second drops its entry. */
  lemma SecondPassCanOrphanTheGate(sh: Shared, first: RouterView, second: RouterView, now: Time, later: Time)
    requires sh.keep.Some? && now <= sh.keep.value.revertAt < later && first.reachable
    ensures !GateCoherent(sh.(view := Merge(sh, first, sh.setGen, now).view, keep := Merge(sh, second, sh.setGen, later).keep))
  {
  }
}
