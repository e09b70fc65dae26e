/** How one router's published view is derived from a read: reconcileState and the two
    view builders of the poll (internal/poller/poller.go). */
module Views {
  import opened Types

  /** Outcome of one `tailscale status --json`. `command` tells a non-zero exit (a
      *CommandError) from a transport or parse failure. */
  datatype StatusRead = Read(rt: Runtime) | Failed(command: bool, message: string)

  predicate SameExitNode(a: Option<ExitNodeRef>, b: Option<ExitNodeRef>) {
    if a.None? || b.None? then a.None? && b.None?
    else if a.value.stableID != "" && b.value.stableID != "" then a.value.stableID == b.value.stableID
    else a.value.ip == b.value.ip
  }

  /** Two selections are the same by id when both have one, otherwise by address; names never
      matter, and a selection is never the same as none. */
  lemma SameExitNodeExactly(a: ExitNodeRef, b: ExitNodeRef, name: string, ip: string)
    ensures SameExitNode(None, None) && !SameExitNode(Some(a), None) && !SameExitNode(None, Some(b))
    ensures SameExitNode(Some(a.(name := name)), Some(b)) == SameExitNode(Some(b), Some(a)) == SameExitNode(Some(a), Some(b))
    ensures a.stableID != "" ==> SameExitNode(Some(a), Some(a.(ip := ip)))
    ensures a.stableID != b.stableID && a.stableID != "" && b.stableID != "" ==> !SameExitNode(Some(a), Some(b))
    ensures a.stableID == "" ==> (SameExitNode(Some(a), Some(b)) <==> a.ip == b.ip)
  {
  }

  /** Runs only on a fresh read, never on a carried-forward view. */
  function Reconcile(rv: RouterView, now: Time, grace: nat): RouterView {
    if !rv.reachable then
      rv.(state := Unreachable)
    else if rv.desired.Some? && !SameExitNode(rv.current, rv.desired)
            && (rv.desiredSince == 0 || now - rv.desiredSince < grace) then
      rv.(state := Unconfirmed)
    else
      rv.(desired := None, desiredSince := 0, state := OK)
  }

  /** A view that was not reached is only marked: its intent waits for the next read. */
  lemma UnreachedIsOnlyMarked(rv: RouterView, now: Time, grace: nat)
    requires !rv.reachable
    ensures Reconcile(rv, now, grace) == rv.(state := Unreachable)
  {
  }

  /** What a dial of a managed router, or the listing of a fallback one, brings to the poll.
      `found` is the inventory node holding the router's address, if any. */
  datatype DialInput =
    | Managed(found: Option<NodeView>, read: StatusRead, at: Time)
    | Listed(found: Option<NodeView>)

  function PlaceholderNode(addr: string, kind: NodeType): NodeView {
    NodeView("", "", "", [addr], false, false, [], kind, false)
  }

  predicate KnownOffline(found: Option<NodeView>) {
    found.Some? && !found.value.online
  }

  /** The view both builders start from: the inventory node plus the last-confirmed facts. */
  function Carry(addr: string, kind: NodeType, found: Option<NodeView>, prev: Option<RouterView>): RouterView {
    var node := if found.Some? then found.value else PlaceholderNode(addr, kind);
    match prev
    case None => RouterView(node, None, None, Unprobed, NO_STATS, false, "", 0, 0, 0)
    case Some(p) =>
      RouterView(node, p.current, p.desired, Unprobed, p.stats, false, "", p.lastConfirmedAt, p.desiredSince, 0)
  }

  function WithStatus(rv: RouterView, rt: Runtime, at: Time): RouterView {
    Reconcile(rv.(reachable := true, current := rt.current, stats := rt.stats, lastError := "", lastConfirmedAt := at),
              at, REVERT_WINDOW)
  }

  function BuildRouterView(addr: string, found: Option<NodeView>, prev: Option<RouterView>,
                           read: StatusRead, at: Time): RouterView {
    var rv := Carry(addr, Router, found, prev);
    if KnownOffline(found) then
      rv.(state := Unreachable, lastError := "node is offline")
    else
      match read
      case Failed(_, message) => rv.(state := Unreachable, lastError := message)
      case Read(rt) => WithStatus(rv, rt, at)
  }

  function BuildListedRouterView(addr: string, found: Option<NodeView>, prev: Option<RouterView>): RouterView {
    var rv := Carry(addr, Generic, found, prev);
    if KnownOffline(found) then
      rv.(state := Unreachable, lastError := "node is offline")
    else if prev.Some? && prev.value.state in {OK, Unconfirmed, Pending, AwaitingKeep} then
      rv.(state := prev.value.state, reachable := prev.value.reachable,
          lastError := prev.value.lastError, revertAt := prev.value.revertAt)
    else
      rv.(state := Unprobed)
  }

  function Fresh(addr: string, prev: Option<RouterView>, input: DialInput): RouterView {
    match input
    case Managed(found, read, at) => BuildRouterView(addr, found, prev, read, at)
    case Listed(found) => BuildListedRouterView(addr, found, prev)
  }

  /** The dial really read the device, and the device reported `target`. */
  predicate ReadsTarget(input: DialInput, target: Option<ExitNodeRef>) {
    input.Managed? && !KnownOffline(input.found) && input.read.Read? && SameExitNode(input.read.rt.current, target)
  }

  // ---- The unconfirmed state is bounded ---------------------------------------------------

  /** One poll of a managed router. */
  datatype Poll = Poll(found: Option<NodeView>, read: StatusRead, at: Time)

  predicate Reached(p: Poll) {
    !KnownOffline(p.found) && p.read.Read?
  }

  function AfterPolls(addr: string, rv: RouterView, polls: seq<Poll>): RouterView
    decreases |polls|
  {
    if polls == [] then rv
    else
      var last := polls[|polls| - 1];
      BuildRouterView(addr, last.found, Some(AfterPolls(addr, rv, polls[..|polls| - 1])), last.read, last.at)
  }

  /** A poll that settles the intent of `rv`: it reads the device and either finds the
      intended node or comes at the end of the grace window or later. */
  predicate Settles(rv: RouterView, p: Poll) {
    Reached(p) && (SameExitNode(p.read.rt.current, rv.desired) || p.at >= rv.desiredSince + REVERT_WINDOW)
  }

  /** Over any sequence of managed polls an intent issued at a known instant stays exactly as
      it was while no poll settles it, and is gone for good once one did. */
  lemma {:induction false} IntentLastsUntilSettled(addr: string, rv: RouterView, polls: seq<Poll>)
    requires rv.desired.Some? && rv.desiredSince != 0
    ensures var out := AfterPolls(addr, rv, polls);
            if exists i :: 0 <= i < |polls| && Settles(rv, polls[i])
            then out.desired == None && out.desiredSince == 0
            else out.desired == rv.desired && out.desiredSince == rv.desiredSince
    decreases |polls|
  {
    if polls != [] {
      var n := |polls| - 1;
      IntentLastsUntilSettled(addr, rv, polls[..n]);
      assert forall i :: 0 <= i < n ==> polls[..n][i] == polls[i];
      var before := AfterPolls(addr, rv, polls[..n]);
      if i :| 0 <= i < |polls| && Settles(rv, polls[i]) {
        if i < n {
          assert Settles(rv, polls[..n][i]);
        }
      }
    }
  }

  /** What the view says after a poll that reached the device: unconfirmed exactly while the
      intent is still pending, otherwise ok, and always the selection the device reported.
      In particular the first read at or after `desiredSince` plus the window is ok. */
  lemma UnconfirmedIsBounded(addr: string, rv: RouterView, polls: seq<Poll>)
    requires rv.desired.Some? && rv.desiredSince != 0
    requires polls != [] && Reached(polls[|polls| - 1])
    ensures var out := AfterPolls(addr, rv, polls);
            && out.current == polls[|polls| - 1].read.rt.current
            && (out.state == Unconfirmed <==> !exists i :: 0 <= i < |polls| && Settles(rv, polls[i]))
            && (out.state == OK <==> exists i :: 0 <= i < |polls| && Settles(rv, polls[i]))
  {
    var n := |polls| - 1;
    IntentLastsUntilSettled(addr, rv, polls[..n]);
    assert forall i :: 0 <= i < n ==> polls[..n][i] == polls[i];
    if i :| 0 <= i < |polls| && Settles(rv, polls[i]) {
      if i < n {
        assert Settles(rv, polls[..n][i]);
      }
    }
  }

  /** A router with no intent never acquires one from polls, and never shows unconfirmed. */
  lemma {:induction false} PollsNeverReviveAnIntent(addr: string, rv: RouterView, polls: seq<Poll>)
    requires rv.desired.None?
    ensures var out := AfterPolls(addr, rv, polls);
            out.desired.None? && (polls != [] ==> out.state != Unconfirmed && out.state != AwaitingKeep)
    decreases |polls|
  {
    if polls != [] {
      PollsNeverReviveAnIntent(addr, rv, polls[..|polls| - 1]);
    }
  }

  /** An intent whose issue time was never recorded is held until the device reports it. */
  lemma {:induction false} UndatedIntentWaitsForTheDevice(addr: string, rv: RouterView, polls: seq<Poll>)
    requires rv.desired.Some? && rv.desiredSince == 0
    ensures var out := AfterPolls(addr, rv, polls);
            if exists i :: 0 <= i < |polls| && Reached(polls[i]) && SameExitNode(polls[i].read.rt.current, rv.desired)
            then out.desired == None
            else out.desired == rv.desired && out.desiredSince == 0
    decreases |polls|
  {
    if polls != [] {
      var n := |polls| - 1;
      UndatedIntentWaitsForTheDevice(addr, rv, polls[..n]);
      assert forall i :: 0 <= i < n ==> polls[..n][i] == polls[i];
      if i :| 0 <= i < |polls| && Reached(polls[i]) && SameExitNode(polls[i].read.rt.current, rv.desired) {
        if i < n {
          assert Reached(polls[..n][i]);
        }
      }
    }
  }
}
