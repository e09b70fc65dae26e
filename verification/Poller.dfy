/** The poller itself (internal/poller/poller.go): the maps and the snapshot guarded by `mu`,
    and one method per critical section. Each method is proved, for every router at once, to
    do to that router's share exactly what `Sections` says, and nothing to any other's. */
module PollerState {
  import opened Types
  import opened Views
  import opened RouterClient
  import opened Sections

  /** Go's zero value for a missing counter. */
  function Count(m: map<string, nat>, addr: string): nat {
    if addr in m then m[addr] else 0
  }

  predicate Names(node: NodeView, addr: string) {
    addr in node.ips
  }

  /** First router of the list whose node carries `addr`. */
  function FindRouterView(routers: seq<RouterView>, addr: string): Option<RouterView> {
    if routers == [] then None
    else if Names(routers[0].node, addr) then Some(routers[0])
    else FindRouterView(routers[1..], addr)
  }

  /** First node of the inventory that carries `addr`. */
  function FindNodeByIP(nodes: seq<NodeView>, addr: string): (r: Option<NodeView>)
    ensures r.None? ==> forall n :: n in nodes ==> !Names(n, addr)
    ensures r.Some? ==> FirstNamed(nodes, addr, r.value)
  {
    if nodes == [] then None
    else if Names(nodes[0], addr) then
      assert FirstAt(nodes, addr, 0);
      Some(nodes[0])
    else
      var r := FindNodeByIP(nodes[1..], addr);
      assert r.Some? ==> FirstNamed(nodes, addr, r.value) by {
        if r.Some? {
          var k :| 0 <= k < |nodes[1..]| && nodes[1..][k] == r.value && FirstAt(nodes[1..], addr, k);
          assert nodes[k + 1] == r.value && forall j :: 0 < j <= k ==> nodes[j] == nodes[1..][j - 1];
          assert FirstAt(nodes, addr, k + 1);
        }
      }
      assert nodes == [nodes[0]] + nodes[1..];
      r
  }

  predicate FirstAt(nodes: seq<NodeView>, addr: string, k: nat)
    requires k < |nodes|
  {
    Names(nodes[k], addr) && forall j :: 0 <= j < k ==> !Names(nodes[j], addr)
  }

  /** `n` is the first node that carries `addr`. */
  ghost predicate FirstNamed(nodes: seq<NodeView>, addr: string, n: NodeView) {
    exists k: nat :: k < |nodes| && nodes[k] == n && FirstAt(nodes, addr, k)
  }

  /** The view is of the first node that carries `addr`, or of a placeholder only if none does; and
      if the router was dialed and is shown reachable, on the selection it reported. */
  ghost predicate Shows(rv: RouterView, addr: string, nodes: seq<NodeView>, usedFallback: bool, reply: StatusRead) {
    && (if exists n :: n in nodes && Names(n, addr) then FirstNamed(nodes, addr, rv.node)
        else rv.node == PlaceholderNode(addr, if usedFallback then Generic else Router))
    && (rv.reachable && !usedFallback ==> reply.Read? && rv.current == reply.rt.current)
  }

  /** The node carries no controlled address but `addr`. */
  predicate Only(controlled: set<string>, node: NodeView, addr: string) {
    forall a :: a in controlled && Names(node, a) ==> a == addr
  }

  /** Every listed router carries at most one controlled address. */
  predicate OneAddressEach(controlled: set<string>, routers: seq<RouterView>) {
    forall i, a :: 0 <= i < |routers| && a in controlled && Names(routers[i].node, a) ==> Only(controlled, routers[i].node, a)
  }

  /** The first position of its address. A configured list may name an address twice. */
  predicate FirstOf(addrs: seq<string>, i: nat)
    requires i < |addrs|
  {
    addrs[i] !in addrs[..i]
  }

  lemma {:induction false} FindAt(routers: seq<RouterView>, addr: string, i: nat)
    requires i < |routers| && Names(routers[i].node, addr)
    requires forall j :: 0 <= j < i ==> !Names(routers[j].node, addr)
    ensures FindRouterView(routers, addr) == Some(routers[i])
  {
    if i > 0 {
      FindAt(routers[1..], addr, i - 1);
    }
  }

  lemma {:induction false} FindNone(routers: seq<RouterView>, addr: string)
    requires forall j :: 0 <= j < |routers| ==> !Names(routers[j].node, addr)
    ensures FindRouterView(routers, addr) == None
  {
    if routers != [] {
      FindNone(routers[1..], addr);
    }
  }

  lemma {:induction false} FindWitness(routers: seq<RouterView>, addr: string) returns (i: nat)
    requires FindRouterView(routers, addr).Some?
    ensures i < |routers| && Names(routers[i].node, addr) && FindRouterView(routers, addr) == Some(routers[i])
    ensures forall j :: 0 <= j < i ==> !Names(routers[j].node, addr)
  {
    if Names(routers[0].node, addr) {
      i := 0;
    } else {
      var k := FindWitness(routers[1..], addr);
      i := k + 1;
      assert forall j :: 0 < j < i ==> routers[j] == routers[1..][j - 1];
    }
  }

  /** `after` is `before` with `f` applied to the views that carry `addr`. */
  ghost predicate MutatedAt(before: seq<RouterView>, after: seq<RouterView>, addr: string, f: RouterView -> RouterView) {
    && |after| == |before|
    && forall i :: 0 <= i < |before| ==> after[i] == if Names(before[i].node, addr) then f(before[i]) else before[i]
  }

  ghost predicate KeepsNode(f: RouterView -> RouterView) {
    forall rv :: f(rv).node == rv.node
  }

  /** Mutating the router at one controlled address changes what is found there and nowhere else. */
  lemma MutateFinds(controlled: set<string>, before: seq<RouterView>, after: seq<RouterView>, addr: string,
                    f: RouterView -> RouterView, a: string)
    requires OneAddressEach(controlled, before) && addr in controlled && a in controlled
    requires MutatedAt(before, after, addr, f) && KeepsNode(f)
    ensures OneAddressEach(controlled, after)
    ensures FindRouterView(after, a)
         == if a != addr then FindRouterView(before, a)
            else if FindRouterView(before, a).Some? then Some(f(FindRouterView(before, a).value)) else None
  {
    if FindRouterView(before, a).Some? {
      var i := FindWitness(before, a);
      FindAt(after, a, i);
    } else {
      if i :| 0 <= i < |before| && Names(before[i].node, a) && forall j :: 0 <= j < i ==> !Names(before[j].node, a) {
        FindAt(before, a, i);
      }
      NoneIsNowhere(before, a);
      FindNone(after, a);
    }
  }

  lemma {:induction false} NoneIsNowhere(routers: seq<RouterView>, addr: string)
    requires FindRouterView(routers, addr).None?
    ensures forall j :: 0 <= j < |routers| ==> !Names(routers[j].node, addr)
  {
    if routers != [] {
      NoneIsNowhere(routers[1..], addr);
      assert forall j :: 0 < j < |routers| ==> routers[j] == routers[1..][j - 1];
    }
  }

  /** In a list built one router per address, each address finds the router built at its first
      position, and no other address finds any. */
  lemma ListedAt(controlled: set<string>, addrs: seq<string>, routers: seq<RouterView>)
    requires |routers| == |addrs|
    requires forall i :: 0 <= i < |addrs| ==>
               addrs[i] in controlled && Names(routers[i].node, addrs[i]) && Only(controlled, routers[i].node, addrs[i])
    ensures OneAddressEach(controlled, routers)
    ensures forall i :: 0 <= i < |addrs| && FirstOf(addrs, i) ==> FindRouterView(routers, addrs[i]) == Some(routers[i])
    ensures forall a :: a in controlled && a !in addrs ==> FindRouterView(routers, a).None?
  {
    forall i | 0 <= i < |addrs| && FirstOf(addrs, i) ensures FindRouterView(routers, addrs[i]) == Some(routers[i]) {
      assert forall j :: 0 <= j < i ==> addrs[j] in addrs[..i];
      FindAt(routers, addrs[i], i);
    }
    forall a | a in controlled && a !in addrs ensures FindRouterView(routers, a).None? {
      FindNone(routers, a);
    }
  }

  function FirstPosition(addrs: seq<string>, a: string): (i: nat)
    requires a in addrs
    ensures i < |addrs| && addrs[i] == a && FirstOf(addrs, i)
  {
    if addrs[0] == a then 0
    else
      var k := FirstPosition(addrs[1..], a);
      assert addrs[..k + 1] == [addrs[0]] + addrs[1..][..k];
      k + 1
  }

  /** The poll's passes: position `k` of the list is merged at `nows[k]` with what was built. */
  datatype Passes = Passes(addrs: seq<string>, built: seq<RouterView>, genAt: map<string, nat>, nows: seq<Time>) {
    predicate Fit(controlled: set<string>) {
      && |built| == |addrs| == |nows|
      && forall i :: 0 <= i < |addrs| ==>
           addrs[i] in controlled && addrs[i] in genAt
           && Names(built[i].node, addrs[i]) && Only(controlled, built[i].node, addrs[i])
    }
  }

  predicate ListedOnce(addrs: seq<string>, i: nat)
    requires i < |addrs|
  {
    forall j :: 0 <= j < |addrs| && j != i ==> addrs[j] != addrs[i]
  }

  lemma OnceIsFirst(addrs: seq<string>, i: nat)
    requires i < |addrs| && ListedOnce(addrs, i)
    ensures FirstOf(addrs, i)
  {
  }

  /** Each router of the list carries its own address and no other controlled one. */
  predicate Carries(controlled: set<string>, routers: seq<RouterView>, addrs: seq<string>) {
    && |routers| == |addrs|
    && forall k :: 0 <= k < |addrs| ==> Names(routers[k].node, addrs[k]) && Only(controlled, routers[k].node, addrs[k])
  }

  /** How far the merge loop is after `n` passes, `m` being what each pass makes of the share its
      address had at the start: the first position of an address holds its view, and an entry is
      gone if one of the passes (the one `via` names) drops it. */
  ghost predicate Progress(controlled: set<string>, p: Passes, m: seq<Shared>, entries: map<string, KeepEntry>, n: nat,
                           routers: seq<RouterView>, left: map<string, KeepEntry>, via: map<string, nat>)
    requires n <= |p.addrs| == |m|
  {
    && Carries(controlled, routers, p.addrs)
    && (forall k :: 0 <= k < n && FirstOf(p.addrs, k) ==> m[k].view == Some(routers[k]))
    && left == entries - via.Keys
    && (forall a :: a in via ==> via[a] < n && p.addrs[via[a]] == a && m[via[a]].keep.None?)
    && (forall k :: 0 <= k < n && m[k].keep.None? ==> p.addrs[k] in via)
  }

  lemma CarriesUpdate(controlled: set<string>, routers: seq<RouterView>, addrs: seq<string>, i: nat, rv: RouterView)
    requires Carries(controlled, routers, addrs) && i < |addrs|
    requires Names(rv.node, addrs[i]) && Only(controlled, rv.node, addrs[i])
    ensures Carries(controlled, routers[i := rv], addrs)
  {
  }

  lemma RemoveOneMore(entries: map<string, KeepEntry>, via: map<string, nat>, a: string, i: nat)
    ensures entries - via.Keys - {a} == entries - via[a := i].Keys
  {
  }

  lemma OnePass(controlled: set<string>, p: Passes, m: seq<Shared>, entries: map<string, KeepEntry>, n: nat,
                routers: seq<RouterView>, left: map<string, KeepEntry>, via: map<string, nat>, rv: RouterView)
    returns (via': map<string, nat>)
    requires n < |p.addrs| == |m| && Progress(controlled, p, m, entries, n, routers, left, via)
    requires Names(rv.node, p.addrs[n]) && Only(controlled, rv.node, p.addrs[n])
    requires p.addrs[n] !in via ==> m[n].view == Some(rv)
    ensures via' == if p.addrs[n] !in via && m[n].keep.None? then via[p.addrs[n] := n] else via
    ensures Progress(controlled, p, m, entries, n + 1, routers[n := rv],
                     if p.addrs[n] !in via && m[n].keep.None? then left - {p.addrs[n]} else left, via')
  {
    if p.addrs[n] in via {
      assert p.addrs[..n][via[p.addrs[n]]] == p.addrs[n];
    }
    via' := if p.addrs[n] !in via && m[n].keep.None? then via[p.addrs[n] := n] else via;
    CarriesUpdate(controlled, routers, p.addrs, n, rv);
    RemoveOneMore(entries, via, p.addrs[n], n);
  }

  /** `controlled` are the addresses tsctl can be asked to control: each is some node's primary
      IPv4, a node has one, and no two nodes share it. */
  class Poller {
    ghost const controlled: set<string>
    const requireKeep: bool
    var setSeq: map<string, nat>
    var setGen: map<string, nat>
    var pendingKeep: map<string, KeepEntry>
    var snap: Snapshot

    ghost predicate Valid()
      reads this
    {
      OneAddressEach(controlled, snap.routers)
    }

    function SharedOf(addr: string): Shared
      reads this
    {
      Shared(Count(setSeq, addr), Count(setGen, addr),
             if addr in pendingKeep then Some(pendingKeep[addr]) else None,
             FindRouterView(snap.routers, addr))
    }

    constructor (ghost controlled: set<string>, requireKeep: bool, now: Time)
      ensures Valid() && this.controlled == controlled && this.requireKeep == requireKeep
      ensures forall a :: a in controlled ==> SharedOf(a) == Shared(0, 0, None, None)
    {
      this.controlled := controlled;
      this.requireKeep := requireKeep;
      setSeq, setGen, pendingKeep := map[], map[], map[];
      snap := Snapshot([], [], [], 0, "", now);
    }

    /** What is found at `a` once `f` was applied at `addr`. */
    ghost function Updated(addr: string, f: RouterView -> RouterView, a: string): Option<RouterView>
      reads this
    {
      var rv := FindRouterView(snap.routers, a);
      if a == addr && rv.Some? then Some(f(rv.value)) else rv
    }

    /** The shared read-modify-write: a copy of the current snapshot with `f` applied to the
        router at `addr`, and whether there was one. */
    method WithRouter(addr: string, f: RouterView -> RouterView, now: Time) returns (s: Snapshot, matched: bool)
      requires Valid() && addr in controlled && KeepsNode(f)
      ensures s == snap.(routers := s.routers, builtAt := now)
      ensures MutatedAt(snap.routers, s.routers, addr, f)
      ensures OneAddressEach(controlled, s.routers)
      ensures matched <==> FindRouterView(snap.routers, addr).Some?
      ensures forall a :: a in controlled ==> FindRouterView(s.routers, a) == Updated(addr, f, a)
    {
      var routers := snap.routers;
      matched := false;
      var i := 0;
      while i < |routers|
        invariant 0 <= i <= |routers| == |snap.routers|
        invariant forall k :: 0 <= k < i ==>
                    routers[k] == if Names(snap.routers[k].node, addr) then f(snap.routers[k]) else snap.routers[k]
        invariant forall k :: i <= k < |routers| ==> routers[k] == snap.routers[k]
        invariant matched <==> exists k :: 0 <= k < i && Names(snap.routers[k].node, addr)
      {
        var j := 0;
        var hit := false;
        while j < |snap.routers[i].node.ips| && !hit
          invariant 0 <= j <= |snap.routers[i].node.ips|
          invariant hit <==> addr in snap.routers[i].node.ips[..j]
        {
          hit := snap.routers[i].node.ips[j] == addr;
          j := j + 1;
        }
        if hit {
          routers := routers[i := f(routers[i])];
          matched := true;
        }
        i := i + 1;
      }
      if matched {
        if FindRouterView(snap.routers, addr).None? {
          NoneIsNowhere(snap.routers, addr);
        }
      } else {
        FindNone(snap.routers, addr);
      }
      s := snap.(routers := routers, builtAt := now);
      forall a | a in controlled
        ensures OneAddressEach(controlled, routers) && FindRouterView(routers, a) == Updated(addr, f, a)
      {
        MutateFinds(controlled, snap.routers, routers, addr, f, a);
      }
    }

    /** The share of `addr` became `sh`; no other router's changed, nor anything else published. */
    twostate predicate OnlyBecame(addr: string, sh: Shared)
      reads this
    {
      && Valid()
      && (forall a :: a in controlled ==> SharedOf(a) == if a == addr then sh else old(SharedOf(a)))
      && snap == old(snap).(routers := snap.routers, builtAt := snap.builtAt)
      && |snap.routers| == |old(snap.routers)|
      && (forall i :: 0 <= i < |snap.routers| && !Names(old(snap.routers[i].node), addr) ==>
            snap.routers[i] == old(snap.routers[i]))
    }

    /** SetExitNode step 1. */
    method BeginSet(addr: string, target: Option<ExitNodeRef>, now: Time) returns (mySeq: nat, ok: bool)
      requires Valid() && addr in controlled
      modifies this
      ensures OnlyBecame(addr, Sections.BeginSet(old(SharedOf(addr)), target))
      ensures mySeq == SharedOf(addr).setSeq
      ensures ok <==> SharedOf(addr).view.Some?
    {
      setSeq := setSeq[addr := Count(setSeq, addr) + 1];
      setGen := setGen[addr := Count(setGen, addr) + 1];
      mySeq := setSeq[addr];
      var pending;
      pending, ok := WithRouter(addr, (rv: RouterView) => ShowIntent(rv, target), now);
      if ok {
        snap := pending;
      }
    }

    /** Step 3's bookkeeping of the gate: which entry stands, and which markers to disarm. */
    method SettleGate(addr: string, mySeq: nat, autoKeep: bool, armAt: Time, res: ApplyResult, publishes: bool)
      returns (disarm: seq<Marker>)
      modifies this`pendingKeep
      ensures pendingKeep == if !publishes || res.err.Some? then old(pendingKeep)
                             else if autoKeep then old(pendingKeep) - {addr}
                             else old(pendingKeep)[addr := KeepEntry(res.marker, armAt + REVERT_WINDOW, mySeq)]
      ensures disarm == if !publishes then (if res.marker != "" then [res.marker] else [])
                        else if res.err.None? && addr in old(pendingKeep) && old(pendingKeep)[addr].marker != ""
                                && (autoKeep || old(pendingKeep)[addr].marker != res.marker)
                        then [old(pendingKeep)[addr].marker] else []
    {
      disarm := [];
      if publishes {
        if res.err.None? && !autoKeep {
          if addr in pendingKeep && pendingKeep[addr].marker != "" && pendingKeep[addr].marker != res.marker {
            disarm := disarm + [pendingKeep[addr].marker];
          }
          pendingKeep := pendingKeep[addr := KeepEntry(res.marker, armAt + REVERT_WINDOW, mySeq)];
        } else if res.err.None? {
          if addr in pendingKeep && pendingKeep[addr].marker != "" {
            disarm := disarm + [pendingKeep[addr].marker];
          }
          pendingKeep := pendingKeep - {addr};
        }
      } else if res.marker != "" {
        disarm := disarm + [res.marker];
      }
    }

    /** Step 3's write of the snapshot. The source stores it after the bookkeeping of the gate,
        inside the same critical section. */
    method Reconcile(addr: string, mySeq: nat, f: RouterView -> RouterView, now: Time) returns (ok: bool, superseded: bool)
      requires Valid() && addr in controlled && KeepsNode(f)
      modifies this`setGen, this`snap
      ensures ok <==> old(SharedOf(addr)).view.Some?
      ensures superseded <==> old(SharedOf(addr)).setSeq != mySeq
      ensures var sh := Bump(old(SharedOf(addr)));
              OnlyBecame(addr, if ok && !superseded then sh.(view := Some(f(sh.view.value))) else sh)
    {
      setGen := setGen[addr := Count(setGen, addr) + 1];
      superseded := Count(setSeq, addr) != mySeq;
      var final;
      final, ok := WithRouter(addr, f, now);
      if ok && !superseded {
        snap := final;
      }
    }

    /** SetExitNode step 3, up to the release of `mu`. */
    method FinishSet(addr: string, mySeq: nat, target: Option<ExitNodeRef>, autoKeep: bool, armAt: Time, now: Time,
                     res: ApplyResult, reread: Option<Runtime>)
      returns (ok: bool, superseded: bool, disarm: seq<Marker>)
      requires Valid() && addr in controlled
      modifies this
      ensures OnlyBecame(addr, SharedOf(addr))
      ensures Finish(SharedOf(addr), ok && !superseded, disarm)
           == Sections.FinishSet(old(SharedOf(addr)), mySeq, target, autoKeep, armAt, now, res, reread)
      ensures ok <==> old(SharedOf(addr)).view.Some?
      ensures superseded <==> old(SharedOf(addr)).setSeq != mySeq
    {
      var f := (rv: RouterView) => Reconciled(rv, target, autoKeep, armAt, now, res, reread);
      assert KeepsNode(f);
      ok, superseded := Reconcile(addr, mySeq, f, now);
      disarm := SettleGate(addr, mySeq, autoKeep, armAt, res, ok && !superseded);
      assert forall a :: a != addr ==> SharedOf(a).keep == old(SharedOf(a)).keep;
    }

    /** Keep, up to the first release of `mu`. */
    method BeginKeep(addr: string, now: Time) returns (check: KeepCheck)
      requires Valid() && addr in controlled
      modifies this
      ensures check == CheckKeep(old(SharedOf(addr)), now)
      ensures OnlyBecame(addr, ValidateKeep(old(SharedOf(addr)), now))
    {
      if addr !in pendingKeep {
        return NothingPending;
      }
      var entry := pendingKeep[addr];
      if now > entry.revertAt {
        pendingKeep := pendingKeep - {addr};
        setGen := setGen[addr := Count(setGen, addr) + 1];
        var reverted, rok := WithRouter(addr, (rv: RouterView) => if rv.state == AwaitingKeep then Unknown(rv) else rv, now);
        if rok {
          snap := reverted;
        }
        return WindowElapsed;
      }
      if entry.setSeq != Count(setSeq, addr) {
        return NewerSet;
      }
      return Proceed(entry.marker, entry.setSeq);
    }

    /** Keep after the marker was written. `superseded` is the 409, `!ok` the 502. */
    method FinishKeep(addr: string, mySeq: nat, now: Time) returns (superseded: bool, ok: bool)
      requires Valid() && addr in controlled
      modifies this
      ensures superseded <==> old(SharedOf(addr)).setSeq != mySeq
      ensures ok <==> !superseded && old(SharedOf(addr)).view.Some?
      ensures OnlyBecame(addr, Sections.FinishKeep(old(SharedOf(addr)), mySeq))
    {
      if Count(setSeq, addr) != mySeq {
        return true, false;
      }
      setGen := setGen[addr := Count(setGen, addr) + 1];
      var final;
      final, ok := WithRouter(addr, (rv: RouterView) => ShowKept(rv), now);
      pendingKeep := pendingKeep - {addr};
      if ok {
        snap := final;
      }
      superseded := false;
    }

    /** The merge of a successful probe's Status read. */
    method FinishProbe(addr: string, genAt: nat, rt: Runtime, now: Time) returns (published: bool)
      requires Valid() && addr in controlled
      modifies this
      ensures OnlyBecame(addr, Sections.FinishProbe(old(SharedOf(addr)), genAt, rt, now))
      ensures published <==> SharedOf(addr) != old(SharedOf(addr))
    {
      published := false;
      if Count(setGen, addr) == genAt && addr !in pendingKeep {
        var final, ok := WithRouter(addr, (rv: RouterView) => WithStatus(rv, rt, now), now);
        if ok {
          setGen := setGen[addr := Count(setGen, addr) + 1];
          snap := final;
          published := true;
        }
      }
    }

    // ---- The poll ---------------------------------------------------------------------------

    /** The generations captured before the dials. */
    method Capture(addrs: seq<string>) returns (genAt: map<string, nat>)
      ensures genAt.Keys == set a | a in addrs
      ensures forall a :: a in addrs ==> genAt[a] == SharedOf(a).setGen
    {
      genAt := map[];
      for i := 0 to |addrs|
        invariant genAt.Keys == set a | a in addrs[..i]
        invariant forall a :: a in genAt ==> genAt[a] == Count(setGen, a)
      {
        genAt := genAt[addrs[i] := Count(setGen, addrs[i])];
      }
      assert addrs[..|addrs|] == addrs;
    }

    /** What a poll builds for one address: the view `Views` says, of a node that carries this
        address and no other controlled one. */
    ghost predicate IsBuilt(rv: RouterView, addr: string, nodes: seq<NodeView>, prev: Snapshot, usedFallback: bool,
                            reply: StatusRead, at: Time)
    {
      var found := FindNodeByIP(nodes, addr);
      && rv == Fresh(addr, FindRouterView(prev.routers, addr), if usedFallback then Listed(found) else Managed(found, reply, at))
      && Names(rv.node, addr) && Only(controlled, rv.node, addr)
      && Shows(rv, addr, nodes, usedFallback, reply)
    }

    method BuildOne(addr: string, nodes: seq<NodeView>, prev: Snapshot, usedFallback: bool, reply: StatusRead, at: Time)
      returns (rv: RouterView)
      requires addr in controlled
      requires forall i, a :: 0 <= i < |nodes| && a in controlled && Names(nodes[i], a) ==> Only(controlled, nodes[i], a)
      ensures IsBuilt(rv, addr, nodes, prev, usedFallback, reply, at)
    {
      var found := FindNodeByIP(nodes, addr);
      var prevRV := FindRouterView(prev.routers, addr);
      if usedFallback {
        rv := BuildListedRouterView(addr, found, prevRV);
      } else {
        rv := BuildRouterView(addr, found, prevRV, reply, at);
      }
      assert rv.node == if found.Some? then found.value else PlaceholderNode(addr, if usedFallback then Generic else Router);
    }

    /** The slow part: one view per address, dialed or, in fallback mode, only listed. `replies`
        and `at` are what each dial returns and when. */
    method Dial(addrs: seq<string>, nodes: seq<NodeView>, prev: Snapshot, usedFallback: bool,
                replies: seq<StatusRead>, at: seq<Time>)
      returns (built: seq<RouterView>)
      requires |replies| == |addrs| == |at|
      requires forall i, a :: 0 <= i < |nodes| && a in controlled && Names(nodes[i], a) ==> Only(controlled, nodes[i], a)
      requires forall a :: a in addrs ==> a in controlled
      ensures |built| == |addrs|
      ensures forall i :: 0 <= i < |addrs| ==> IsBuilt(built[i], addrs[i], nodes, prev, usedFallback, replies[i], at[i])
    {
      built := [];
      for i := 0 to |addrs|
        invariant |built| == i
        invariant forall k :: 0 <= k < i ==> IsBuilt(built[k], addrs[k], nodes, prev, usedFallback, replies[k], at[k])
      {
        assert addrs[i] in addrs;
        var rv := BuildOne(addrs[i], nodes, prev, usedFallback, replies[i], at[i]);
        built := built + [rv];
      }
    }

    /** One iteration of the merge loop, on the local view and the pending entry of `addr`. */
    method MergeOne(addr: string, built: RouterView, genAt: nat, now: Time) returns (rv: RouterView)
      requires Valid() && addr in controlled && Names(built.node, addr) && Only(controlled, built.node, addr)
      modifies this`pendingKeep
      ensures Names(rv.node, addr) && Only(controlled, rv.node, addr)
      ensures var sh' := Merge(old(SharedOf(addr)), built, genAt, now);
              && sh'.view == Some(rv)
              && pendingKeep == if sh'.keep.None? then old(pendingKeep) - {addr} else old(pendingKeep)
    {
      rv := built;
      if Count(setGen, addr) != genAt {
        var cur := FindRouterView(snap.routers, addr);
        if cur.Some? {
          rv := cur.value;
          ghost var w := FindWitness(snap.routers, addr);
        }
        assert addr !in pendingKeep ==> pendingKeep - {addr} == pendingKeep;
        return;
      }
      if addr !in pendingKeep {
        assert pendingKeep - {addr} == pendingKeep;
        return;
      }
      var e := pendingKeep[addr];
      if now > e.revertAt {
        pendingKeep := pendingKeep - {addr};
        if rv.state == AwaitingKeep {
          rv := Unknown(rv);
        }
        return;
      }
      if rv.reachable {
        rv := rv.(state := AwaitingKeep, revertAt := e.revertAt);
      }
    }

    /** What pass `k` makes of the share its address has now. */
    ghost function Pass(p: Passes, k: nat): Shared
      requires k < |p.built| == |p.addrs| == |p.nows| && p.addrs[k] in p.genAt
      reads this
    {
      Merge(SharedOf(p.addrs[k]), p.built[k], p.genAt[p.addrs[k]], p.nows[k])
    }

    /** Pass `i`, over a share that is as it was before the merge, or that an earlier pass over
        the same address already took the entry from. */
    method MergeAt(p: Passes, i: nat, ghost was: Shared, ghost dropped: bool) returns (rv: RouterView)
      requires Valid() && p.Fit(controlled) && i < |p.addrs|
      requires SharedOf(p.addrs[i]) == if dropped then was.(keep := None) else was
      modifies this`pendingKeep
      ensures Names(rv.node, p.addrs[i]) && Only(controlled, rv.node, p.addrs[i])
      ensures var m := Merge(was, p.built[i], p.genAt[p.addrs[i]], p.nows[i]);
              && (!dropped ==> m.view == Some(rv))
              && pendingKeep == if !dropped && m.keep.None? then old(pendingKeep) - {p.addrs[i]} else old(pendingKeep)
    {
      rv := MergeOne(p.addrs[i], p.built[i], p.genAt[p.addrs[i]], p.nows[i]);
    }

    /** What each pass makes of the share its address has now. */
    ghost function Outcomes(p: Passes): (m: seq<Shared>)
      requires p.Fit(controlled)
      reads this
      ensures |m| == |p.addrs| && forall k :: 0 <= k < |p.addrs| ==> m[k] == Pass(p, k)
    {
      seq(|p.addrs|, k requires 0 <= k < |p.addrs| && p.Fit(controlled) reads this => Pass(p, k))
    }

    /** The merge loop. */
    method MergeAll(p: Passes) returns (routers: seq<RouterView>, ghost via: map<string, nat>)
      requires Valid() && p.Fit(controlled)
      modifies this`pendingKeep
      ensures Progress(controlled, p, old(Outcomes(p)), old(pendingKeep), |p.addrs|, routers, pendingKeep, via)
    {
      routers := p.built;
      via := map[];
      ghost var m := Outcomes(p);
      for i := 0 to |p.addrs|
        invariant Progress(controlled, p, m, old(pendingKeep), i, routers, pendingKeep, via)
      {
        ghost var left := pendingKeep;
        var rv := MergeAt(p, i, old(SharedOf(p.addrs[i])), p.addrs[i] in via);
        via := OnePass(controlled, p, m, old(pendingKeep), i, routers, left, via, rv);
        routers := routers[i := rv];
      }
    }

    /** The locked merge: the loop, and the store of the new snapshot. */
    method StoreMerged(p: Passes, nodes: seq<NodeView>, groups: seq<GroupView>, netmapAt: Time, netmapErr: string, now: Time)
      requires Valid() && p.Fit(controlled)
      modifies this`pendingKeep, this`snap
      ensures Valid()
      ensures snap == Snapshot(nodes, snap.routers, groups, netmapAt, netmapErr, now) && |snap.routers| == |p.addrs|
      ensures forall i :: 0 <= i < |p.addrs| && FirstOf(p.addrs, i) ==>
                SharedOf(p.addrs[i]).view == Some(snap.routers[i]) == old(Pass(p, i)).view
      ensures forall a :: a in controlled && a !in p.addrs ==> SharedOf(a).view.None?
      ensures forall a :: SharedOf(a).keep ==
                if exists k :: 0 <= k < |p.addrs| && p.addrs[k] == a && old(Pass(p, k)).keep.None? then None
                else old(SharedOf(a)).keep
    {
      var routers;
      ghost var via;
      routers, via := MergeAll(p);
      ListedAt(controlled, p.addrs, routers);
      snap := Snapshot(nodes, routers, groups, netmapAt, netmapErr, now);
    }

    /** What the merge of a poll does to every router: one it built a view for takes its merge
        step, one touched since the capture keeps its share as it is, every other one leaves the
        snapshot. `nows` are the clock readings of the loop. For an address listed twice the view
        of its first pass counts, and any of its passes can drop the entry. */
    method PollMerge(p: Passes, nodes: seq<NodeView>, groups: seq<GroupView>, netmapAt: Time, netmapErr: string, now: Time)
      requires Valid() && p.Fit(controlled)
      modifies this`pendingKeep, this`snap
      ensures Valid()
      ensures snap == Snapshot(nodes, snap.routers, groups, netmapAt, netmapErr, now) && |snap.routers| == |p.addrs|
      ensures forall i :: 0 <= i < |p.addrs| && FirstOf(p.addrs, i) ==>
                SharedOf(p.addrs[i]).view == Some(snap.routers[i]) == old(Pass(p, i)).view
      ensures forall a :: SharedOf(a).keep ==
                if exists k :: 0 <= k < |p.addrs| && p.addrs[k] == a && old(Pass(p, k)).keep.None? then None
                else old(SharedOf(a)).keep
      ensures forall i :: 0 <= i < |p.addrs| && ListedOnce(p.addrs, i) ==> SharedOf(p.addrs[i]) == old(Pass(p, i))
      ensures forall a :: a in p.addrs && old(SharedOf(a)).setGen != p.genAt[a] && old(SharedOf(a)).view.Some? ==>
                SharedOf(a) == old(SharedOf(a))
      ensures forall a :: a in controlled && a !in p.addrs ==> SharedOf(a) == Unlist(old(SharedOf(a)))
    {
      StoreMerged(p, nodes, groups, netmapAt, netmapErr, now);
      forall i | 0 <= i < |p.addrs| && ListedOnce(p.addrs, i)
        ensures SharedOf(p.addrs[i]) == old(Pass(p, i))
      {
        OnceIsFirst(p.addrs, i);
        MergeShape(old(SharedOf(p.addrs[i])), p.built[i], p.genAt[p.addrs[i]], p.nows[i]);
      }
      forall a | a in p.addrs && old(SharedOf(a)).setGen != p.genAt[a] && old(SharedOf(a)).view.Some?
        ensures SharedOf(a) == old(SharedOf(a))
      {
        MergeShape(old(SharedOf(a)), p.built[FirstPosition(p.addrs, a)], p.genAt[a], p.nows[FirstPosition(p.addrs, a)]);
      }
    }

    /** A zone edit: only the resolved groups of the snapshot change. */
    method RefreshGroups(groups: seq<GroupView>, now: Time)
      requires Valid()
      modifies this
      ensures Valid()
      ensures snap == old(snap).(groups := groups, builtAt := now)
      ensures forall a :: SharedOf(a) == old(SharedOf(a))
    {
      snap := Snapshot(snap.nodes, snap.routers, groups, snap.netmapAt, snap.netmapErr, now);
    }
  }
}
