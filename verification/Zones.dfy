/** Zones: the poller's union-of-zones check and pre-flight (internal/poller/poller.go), the
    api's own guest check (internal/api/api.go), the resolved group views, and the snapshot a
    guest is allowed to see (internal/authz/authz.go). */
module Zones {
  import Groups = GroupStore
  import opened Ordering
  import opened Types

  // ---- Lookups ----------------------------------------------------------------------------

  method ContainsStr(ss: seq<string>, s: string) returns (found: bool)
    ensures found <==> s in ss
  {
    for i := 0 to |ss|
      invariant s !in ss[..i]
    {
      if ss[i] == s {
        return true;
      }
    }
    assert ss[..|ss|] == ss;
    return false;
  }

  /** `n` is the first node of the list with that id. */
  ghost predicate FirstNode(nodes: seq<NodeView>, id: string, n: NodeView) {
    exists i :: 0 <= i < |nodes| && nodes[i] == n && n.stableID == id && forall k :: 0 <= k < i ==> nodes[k].stableID != id
  }

  function FindNode(nodes: seq<NodeView>, id: string): (r: Option<NodeView>)
    ensures r.Some? ==> r.value in nodes && FirstNode(nodes, id, r.value)
    ensures r.None? ==> forall n :: n in nodes ==> n.stableID != id
  {
    if nodes == [] then None
    else if nodes[0].stableID == id then Some(nodes[0])
    else
      var r := FindNode(nodes[1..], id);
      assert nodes == [nodes[0]] + nodes[1..];
      assert forall k :: 0 <= k < |nodes| - 1 ==> nodes[1..][k] == nodes[k + 1];
      r
  }

  /** `rv` is the first router of the list whose node has that id. */
  ghost predicate FirstRouter(routers: seq<RouterView>, id: string, rv: RouterView) {
    exists i :: 0 <= i < |routers| && routers[i] == rv && rv.node.stableID == id
                && forall k :: 0 <= k < i ==> routers[k].node.stableID != id
  }

  function FindRouter(routers: seq<RouterView>, id: string): (r: Option<RouterView>)
    ensures r.Some? ==> r.value in routers && FirstRouter(routers, id, r.value)
    ensures r.None? ==> forall rv :: rv in routers ==> rv.node.stableID != id
  {
    if routers == [] then None
    else if routers[0].node.stableID == id then Some(routers[0])
    else
      var r := FindRouter(routers[1..], id);
      assert routers == [routers[0]] + routers[1..];
      assert forall k :: 0 <= k < |routers| - 1 ==> routers[1..][k] == routers[k + 1];
      r
  }

  lemma FirstNodeIsUnique(nodes: seq<NodeView>, id: string, n: NodeView)
    requires FirstNode(nodes, id, n)
    ensures forall m :: FirstNode(nodes, id, m) ==> m == n
    ensures exists m :: m in nodes && m.stableID == id
  {
  }

  lemma FirstRouterIsUnique(routers: seq<RouterView>, id: string, rv: RouterView)
    requires FirstRouter(routers, id, rv)
    ensures forall other :: FirstRouter(routers, id, other) ==> other == rv
    ensures exists other :: other in routers && other.node.stableID == id
  {
  }

  predicate Dotted(ip: string) {
    '.' in ip
  }

  ghost predicate FirstDotted(ips: seq<string>, ip: string) {
    exists i :: 0 <= i < |ips| && ips[i] == ip && Dotted(ip) && forall k :: 0 <= k < i ==> !Dotted(ips[k])
  }

  function FirstIPv4(ips: seq<string>): (r: Option<string>)
    ensures r.Some? ==> FirstDotted(ips, r.value)
    ensures r.None? ==> forall ip :: ip in ips ==> !Dotted(ip)
  {
    if ips == [] then None
    else if Dotted(ips[0]) then Some(ips[0])
    else
      var r := FirstIPv4(ips[1..]);
      assert ips == [ips[0]] + ips[1..];
      assert forall k :: 0 <= k < |ips| - 1 ==> ips[1..][k] == ips[k + 1];
      r
  }

  /** The address a node goes by: its first address with a dot, if any, else its first address;
      "" if it has none. */
  function PrimaryIP(node: NodeView): (r: string)
    ensures (exists ip :: ip in node.ips && Dotted(ip)) ==> FirstDotted(node.ips, r)
    ensures (forall ip :: ip in node.ips ==> !Dotted(ip)) && node.ips != [] ==> r == node.ips[0]
    ensures node.ips == [] ==> r == ""
  {
    var v4 := FirstIPv4(node.ips);
    if v4.Some? then v4.value
    else if node.ips != [] then node.ips[0]
    else ""
  }

  function DisplayName(node: NodeView): string {
    if node.name != "" then node.name
    else if node.hostname != "" then node.hostname
    else node.stableID
  }

  // ---- Policy -----------------------------------------------------------------------------

  ghost predicate InAnyZone(gs: seq<Group>, consumer: string) {
    exists g :: g in gs && consumer in g.consumers
  }

  /** Some zone of the consumer allows the exit node. */
  ghost predicate AllowedBySomeZone(gs: seq<Group>, consumer: string, exit: string) {
    exists g :: g in gs && consumer in g.consumers && exit in g.allowedExitNodes
  }

  /** The union of the allowed exit nodes over every zone of the consumer. */
  method AllowedExitNodeSet(gs: seq<Group>, consumer: string) returns (allowed: set<string>, inAnyZone: bool)
    ensures inAnyZone <==> InAnyZone(gs, consumer)
    ensures forall exit :: exit in allowed <==> AllowedBySomeZone(gs, consumer, exit)
  {
    allowed, inAnyZone := {}, false;
    for i := 0 to |gs|
      invariant inAnyZone <==> InAnyZone(gs[..i], consumer)
      invariant forall exit :: exit in allowed <==> AllowedBySomeZone(gs[..i], consumer, exit)
    {
      assert gs[..i + 1] == gs[..i] + [gs[i]];
      var member := ContainsStr(gs[i].consumers, consumer);
      if member {
        inAnyZone := true;
        for j := 0 to |gs[i].allowedExitNodes|
          invariant forall exit :: exit in allowed <==>
                      AllowedBySomeZone(gs[..i], consumer, exit) || exit in gs[i].allowedExitNodes[..j]
        {
          allowed := allowed + {gs[i].allowedExitNodes[j]};
        }
        assert gs[i].allowedExitNodes[..|gs[i].allowedExitNodes|] == gs[i].allowedExitNodes;
      }
    }
    assert gs[..|gs|] == gs;
  }

  datatype Refusal =
    | UnknownRouter | RouterHasNoAddress
    | UnknownExitNode | Itself | ExitOffline | NotAnExitNode | ExitHasNoAddress | Loop
    | NotAllowedInZone

  datatype Preflight = Refused(why: Refusal) | Go(addr: string, target: Option<ExitNodeRef>, prev: Option<ExitNodeRef>)

  /** Something that is really wrong with the request. */
  ghost predicate Justified(why: Refusal, snap: Snapshot, gs: seq<Group>, routerID: string, targetID: string) {
    match why
    case UnknownRouter => forall rv :: rv in snap.routers ==> rv.node.stableID != routerID
    case RouterHasNoAddress => exists rv :: FirstRouter(snap.routers, routerID, rv) && PrimaryIP(rv.node) == ""
    case NotAllowedInZone =>
      targetID != "" && InAnyZone(gs, routerID) && !AllowedBySomeZone(gs, routerID, targetID)
    case UnknownExitNode => targetID != "" && forall n :: n in snap.nodes ==> n.stableID != targetID
    case Itself => targetID != "" && targetID == routerID
    case _ => targetID != "" && exists n :: FirstNode(snap.nodes, targetID, n) && Unsuitable(why, snap, routerID, n)
  }

  /** What is wrong with the exit node asked for. */
  ghost predicate Unsuitable(why: Refusal, snap: Snapshot, routerID: string, exit: NodeView) {
    match why
    case ExitOffline => !exit.online
    case NotAnExitNode => !exit.exitNodeOption
    case ExitHasNoAddress => PrimaryIP(exit) == ""
    case Loop => exists rv :: FirstRouter(snap.routers, routerID, rv) && PrimaryIP(exit) == PrimaryIP(rv.node)
    case _ => false
  }

  /** The order in which a request is checked. */
  function Rank(why: Refusal): nat {
    match why
    case UnknownRouter => 0
    case RouterHasNoAddress => 1
    case UnknownExitNode => 2
    case Itself => 3
    case ExitOffline => 4
    case NotAnExitNode => 5
    case ExitHasNoAddress => 6
    case Loop => 7
    case NotAllowedInZone => 8
  }

  /** What a change that passes the checks goes out with. */
  ghost predicate Resolved(p: Preflight, snap: Snapshot, routerID: string, targetID: string, rv: RouterView) {
    && p.Go? && FirstRouter(snap.routers, routerID, rv)
    && p.addr == PrimaryIP(rv.node) && p.prev == rv.current
    && if targetID == "" then p.target.None?
       else exists n :: FirstNode(snap.nodes, targetID, n)
                        && p.target == Some(ExitNodeRef(targetID, n.name, PrimaryIP(n)))
  }

  /** SetExitNode up to step 1: everything that can refuse a change before the router is touched.
      It is refused exactly if something is wrong with it, and then for the first thing wrong. */
  method CheckSet(snap: Snapshot, gs: seq<Group>, routerID: string, targetID: string) returns (p: Preflight)
    ensures p.Refused? ==> Justified(p.why, snap, gs, routerID, targetID)
    ensures p.Refused? ==> forall w :: Rank(w) < Rank(p.why) ==> !Justified(w, snap, gs, routerID, targetID)
    ensures p.Go? ==> forall w :: !Justified(w, snap, gs, routerID, targetID)
    ensures p.Go? ==> exists rv :: Resolved(p, snap, routerID, targetID, rv)
  {
    var rv := FindRouter(snap.routers, routerID);
    if rv.None? {
      return Refused(UnknownRouter);
    }
    FirstRouterIsUnique(snap.routers, routerID, rv.value);
    var addr := PrimaryIP(rv.value.node);
    if addr == "" {
      return Refused(RouterHasNoAddress);
    }
    if targetID == "" {
      p := Go(addr, None, rv.value.current);
      assert Resolved(p, snap, routerID, targetID, rv.value);
      return;
    }
    var nv := FindNode(snap.nodes, targetID);
    if nv.None? {
      return Refused(UnknownExitNode);
    }
    var exit := nv.value;
    FirstNodeIsUnique(snap.nodes, targetID, exit);
    if exit.stableID == routerID {
      return Refused(Itself);
    }
    if !exit.online {
      return Refused(ExitOffline);
    }
    if !exit.exitNodeOption {
      return Refused(NotAnExitNode);
    }
    var ip := PrimaryIP(exit);
    if ip == "" {
      return Refused(ExitHasNoAddress);
    }
    if ip == addr {
      return Refused(Loop);
    }
    var allowed, inAnyZone := AllowedExitNodeSet(gs, routerID);
    if inAnyZone && exit.stableID !in allowed {
      return Refused(NotAllowedInZone);
    }
    p := Go(addr, Some(ExitNodeRef(exit.stableID, exit.name, ip)), rv.value.current);
    assert Resolved(p, snap, routerID, targetID, rv.value);
  }

  datatype Subject = Subject(admin: bool, guestID: string, zoneID: string)

  /** What the api's write check admits, over the live group list (None: no group store). */
  ghost predicate MayWrite(sub: Option<Subject>, gs: Option<seq<Group>>, routerID: string, target: string) {
    && sub.Some?
    && (sub.value.admin
        || (&& gs.Some? && Groups.Get(gs.value, sub.value.zoneID).Some?
            && var g := Groups.Get(gs.value, sub.value.zoneID).value;
               routerID in g.consumers && (target == "" || target in g.allowedExitNodes)))
  }

  method AuthorizeRouterWrite(sub: Option<Subject>, gs: Option<seq<Group>>, routerID: string, target: string)
    returns (ok: bool)
    ensures ok <==> MayWrite(sub, gs, routerID, target)
  {
    if sub.None? {
      return false;
    }
    if sub.value.admin {
      return true;
    }
    if gs.None? {
      return false;
    }
    var g := Groups.Get(gs.value, sub.value.zoneID);
    if g.None? {
      return false;
    }
    var consumer := ContainsStr(g.value.consumers, routerID);
    if !consumer {
      return false;
    }
    if target != "" {
      var allowed := ContainsStr(g.value.allowedExitNodes, target);
      if !allowed {
        return false;
      }
    }
    return true;
  }

  ghost predicate RouterInZone(gs: seq<Group>, zoneID: string, routerID: string) {
    Groups.Get(gs, zoneID).Some? && routerID in Groups.Get(gs, zoneID).value.consumers
  }

  /** A guest's own-zone check is never wider than the poller's union check: what the api lets a
      guest write, the poller's zone policy accepts too; and a guest never writes outside its zone. */
  lemma GuestWritesRefineZonePolicy(sub: Subject, gs: seq<Group>, routerID: string, target: string)
    requires !sub.admin && MayWrite(Some(sub), Some(gs), routerID, target)
    ensures RouterInZone(gs, sub.zoneID, routerID) && InAnyZone(gs, routerID)
    ensures target != "" ==> AllowedBySomeZone(gs, routerID, target)
  {
    var g := Groups.Get(gs, sub.zoneID).value;
    assert g in gs && routerID in g.consumers;
  }

  /** The converse fails as soon as two zones share a router: the union admits an exit node of
      the other zone, the guest's check does not. */
  lemma ZonePolicyIsWider()
    ensures var gs := [Group("a", "A", ["r"], ["e1"]), Group("b", "B", ["r"], ["e2"])];
            AllowedBySomeZone(gs, "r", "e2") && !MayWrite(Some(Subject(false, "g", "a")), Some(gs), "r", "e2")
  {
    var a := Group("a", "A", ["r"], ["e1"]);
    var b := Group("b", "B", ["r"], ["e2"]);
    assert b in [a, b] && "e2" in b.allowedExitNodes;
    assert Groups.Get([a, b], "a") == Some(a);
    assert "e2" != "e1";
  }

  // ---- Resolved group views ---------------------------------------------------------------

  /** The inventory index: a later node with the same id wins. */
  function ByID(nodes: seq<NodeView>): map<string, NodeView> {
    if nodes == [] then map[]
    else ByID(nodes[..|nodes| - 1])[nodes[|nodes| - 1].stableID := nodes[|nodes| - 1]]
  }

  function Resolve(id: string, byID: map<string, NodeView>): GroupMember {
    if id in byID then GroupMember(id, DisplayName(byID[id]), PrimaryIP(byID[id]), byID[id].online, true)
    else GroupMember(id, "", "", false, false)
  }

  function ResolveAll(ids: seq<string>, byID: map<string, NodeView>): seq<GroupMember> {
    seq(|ids|, i requires 0 <= i < |ids| => Resolve(ids[i], byID))
  }

  function ViewOf(g: Group, byID: map<string, NodeView>): GroupView {
    GroupView(g.id, g.name, ResolveAll(g.consumers, byID), ResolveAll(g.allowedExitNodes, byID))
  }

  predicate GroupLess(a: Group, b: Group) {
    if a.name != b.name then Less(a.name, b.name) else Less(a.id, b.id)
  }

  function GroupViews(gs: seq<Group>, nodes: seq<NodeView>): seq<GroupView> {
    var sorted := Sort(GroupLess, gs);
    seq(|sorted|, i requires 0 <= i < |sorted| => ViewOf(sorted[i], ByID(nodes)))
  }

  method ResolveMembers(ids: seq<string>, byID: map<string, NodeView>) returns (out: seq<GroupMember>)
    ensures out == ResolveAll(ids, byID)
  {
    out := [];
    for i := 0 to |ids|
      invariant |out| == i && forall k :: 0 <= k < i ==> out[k] == Resolve(ids[k], byID)
    {
      var m := GroupMember(ids[i], "", "", false, false);
      if ids[i] in byID {
        var n := byID[ids[i]];
        m := m.(name := DisplayName(n), ip := PrimaryIP(n), online := n.online, present := true);
      }
      out := out + [m];
    }
  }

  method BuildGroupViews(gs: seq<Group>, nodes: seq<NodeView>) returns (out: seq<GroupView>)
    ensures out == GroupViews(gs, nodes)
  {
    var byID: map<string, NodeView> := map[];
    for i := 0 to |nodes|
      invariant byID == ByID(nodes[..i])
    {
      assert nodes[..i + 1][..i] == nodes[..i];
      byID := byID[nodes[i].stableID := nodes[i]];
    }
    assert nodes[..|nodes|] == nodes;
    var sorted := Sort(GroupLess, gs);
    out := [];
    for i := 0 to |sorted|
      invariant |out| == i && forall k :: 0 <= k < i ==> out[k] == ViewOf(sorted[k], byID)
    {
      var consumers := ResolveMembers(sorted[i].consumers, byID);
      var allowed := ResolveMembers(sorted[i].allowedExitNodes, byID);
      out := out + [GroupView(sorted[i].id, sorted[i].name, consumers, allowed)];
    }
  }

  lemma GroupLessIsOrdering()
    ensures IsOrdering(GroupLess)
  {
    forall x, y ensures GroupLess(x, y) ==> !GroupLess(y, x) {
      LessTotal(x.name, y.name);
      LessTotal(x.id, y.id);
    }
    forall x, y, z | !GroupLess(y, x) && !GroupLess(z, y) ensures !GroupLess(z, x) {
      LessTotal(x.name, y.name);
      LessTotal(y.name, z.name);
      LessTotal(x.name, z.name);
      LessTotal(x.id, y.id);
      LessTotal(y.id, z.id);
      LessTotal(x.id, z.id);
      if Less(z.name, x.name) && Less(x.name, y.name) {
        LessTransitive(z.name, x.name, y.name);
      }
      if Less(z.name, x.name) && Less(y.name, z.name) {
        LessTransitive(y.name, z.name, x.name);
      }
      if Less(z.id, x.id) && Less(x.id, y.id) {
        LessTransitive(z.id, x.id, y.id);
      }
    }
  }

  /** With distinct ids the resolved views do not depend on the order the groups are stored in. */
  lemma GroupViewsAreStable(gs: seq<Group>, gs': seq<Group>, nodes: seq<NodeView>)
    requires multiset(gs) == multiset(gs') && Groups.DistinctIDs(gs)
    ensures GroupViews(gs, nodes) == GroupViews(gs', nodes)
  {
    GroupLessIsOrdering();
    forall x, y | x in gs && y in gs && x != y ensures GroupLess(x, y) || GroupLess(y, x) {
      LessTotal(x.name, y.name);
      LessTotal(x.id, y.id);
    }
    SortIsOrderIndependent(GroupLess, gs, gs');
  }

  /** The resolved views are those of the groups, one each, by name and, among equal names, by id. */
  lemma GroupViewsAreSorted(gs: seq<Group>, nodes: seq<NodeView>)
    ensures var views := GroupViews(gs, nodes);
            && |views| == |gs|
            && (forall g :: g in gs ==> ViewOf(g, ByID(nodes)) in views)
            && forall i, j :: 0 <= i < j < |views| ==>
                 Less(views[i].name, views[j].name) || (views[i].name == views[j].name && !Less(views[j].id, views[i].id))
  {
    GroupLessIsOrdering();
    SortSorts(GroupLess, gs);
    var sorted := Sort(GroupLess, gs);
    var views := GroupViews(gs, nodes);
    assert |multiset(sorted)| == |sorted| && |multiset(gs)| == |gs|;
    forall g | g in gs ensures ViewOf(g, ByID(nodes)) in views {
      assert g in multiset(sorted);
      var i :| 0 <= i < |sorted| && sorted[i] == g;
      assert views[i] in views;
    }
    forall i, j | 0 <= i < j < |views|
      ensures Less(views[i].name, views[j].name) || (views[i].name == views[j].name && !Less(views[j].id, views[i].id))
    {
      assert !GroupLess(sorted[j], sorted[i]);
      LessTotal(sorted[i].name, sorted[j].name);
    }
  }

  lemma {:induction false} ByIDIsLast(nodes: seq<NodeView>, id: string)
    ensures id in ByID(nodes) <==> exists n :: n in nodes && n.stableID == id
    ensures id in ByID(nodes) ==>
              exists i :: 0 <= i < |nodes| && nodes[i] == ByID(nodes)[id] && nodes[i].stableID == id
                          && forall k :: i < k < |nodes| ==> nodes[k].stableID != id
  {
    if nodes != [] {
      var last := |nodes| - 1;
      ByIDIsLast(nodes[..last], id);
      assert nodes == nodes[..last] + [nodes[last]];
    }
  }

  /** A member is kept and flagged, never dropped: it is present exactly if the inventory has a
      node of that id, and then shows the name, address and state of the last such node. */
  lemma MemberShowsItsNode(nodes: seq<NodeView>, id: string)
    ensures var m := Resolve(id, ByID(nodes));
            && m.stableID == id
            && (m.present <==> exists n :: n in nodes && n.stableID == id)
            && (!m.present ==> m.name == "" && m.ip == "" && !m.online)
            && (m.present ==>
                  exists i :: 0 <= i < |nodes| && nodes[i].stableID == id
                              && (forall k :: i < k < |nodes| ==> nodes[k].stableID != id)
                              && m.ip == PrimaryIP(nodes[i]) && m.online == nodes[i].online && Names(nodes[i], m.name))
  {
    ByIDIsLast(nodes, id);
  }

  /** The name if there is one, else the host name, else the id. */
  predicate Names(node: NodeView, name: string) {
    && (name == node.name || (node.name == "" && (name == node.hostname || name == node.stableID)))
    && (name == "" ==> node.name == "" && node.hostname == "" && node.stableID == "")
    && (node.name == "" && node.hostname != "" ==> name == node.hostname)
  }

  // ---- The guest's snapshot ---------------------------------------------------------------

  function FindView(views: seq<GroupView>, id: string): (r: Option<GroupView>)
    ensures r.Some? ==> r.value in views && r.value.id == id
  {
    if views == [] then None
    else if views[0].id == id then Some(views[0])
    else FindView(views[1..], id)
  }

  ghost function MemberIDs(members: seq<GroupMember>): set<string> {
    set m | m in members :: m.stableID
  }

  function Keep<T>(s: seq<T>, p: T -> bool): seq<T> {
    if s == [] then [] else if p(s[|s| - 1]) then Keep(s[..|s| - 1], p) + [s[|s| - 1]] else Keep(s[..|s| - 1], p)
  }

  /** What a guest of `zoneID` sees. */
  ghost function ZoneSnapshot(snap: Snapshot, zoneID: string): Snapshot {
    var gv := FindView(snap.groups, zoneID);
    if gv.None? then Snapshot([], [], [], snap.netmapAt, snap.netmapErr, snap.builtAt)
    else
      var consumers := MemberIDs(gv.value.consumers);
      var allowed := consumers + MemberIDs(gv.value.allowedExitNodes);
      Snapshot(Keep(snap.nodes, (n: NodeView) => n.stableID in allowed),
               Keep(snap.routers, (rv: RouterView) => rv.node.stableID in consumers),
               [gv.value], snap.netmapAt, snap.netmapErr, snap.builtAt)
  }

  method FilterSnapshotToZone(snap: Snapshot, zoneID: string) returns (out: Snapshot)
    ensures out == ZoneSnapshot(snap, zoneID)
  {
    out := Snapshot([], [], [], snap.netmapAt, snap.netmapErr, snap.builtAt);
    var gv := FindView(snap.groups, zoneID);
    if gv.None? {
      return;
    }
    out := out.(groups := [gv.value]);
    var consumers, allowed := CollectMembers(gv.value);
    for i := 0 to |snap.nodes|
      invariant out == Snapshot(Keep(snap.nodes[..i], (n: NodeView) => n.stableID in allowed), [], [gv.value],
                                snap.netmapAt, snap.netmapErr, snap.builtAt)
    {
      assert snap.nodes[..i + 1][..i] == snap.nodes[..i];
      if snap.nodes[i].stableID in allowed {
        out := out.(nodes := out.nodes + [snap.nodes[i]]);
      }
    }
    assert snap.nodes[..|snap.nodes|] == snap.nodes;
    for i := 0 to |snap.routers|
      invariant out == Snapshot(Keep(snap.nodes, (n: NodeView) => n.stableID in allowed),
                                Keep(snap.routers[..i], (rv: RouterView) => rv.node.stableID in consumers), [gv.value],
                                snap.netmapAt, snap.netmapErr, snap.builtAt)
    {
      assert snap.routers[..i + 1][..i] == snap.routers[..i];
      if snap.routers[i].node.stableID in consumers {
        out := out.(routers := out.routers + [snap.routers[i]]);
      }
    }
    assert snap.routers[..|snap.routers|] == snap.routers;
  }

  method CollectMembers(gv: GroupView) returns (consumers: set<string>, allowed: set<string>)
    ensures consumers == MemberIDs(gv.consumers)
    ensures allowed == MemberIDs(gv.consumers) + MemberIDs(gv.allowedExitNodes)
  {
    consumers, allowed := {}, {};
    for i := 0 to |gv.consumers|
      invariant consumers == allowed == MemberIDs(gv.consumers[..i])
    {
      assert gv.consumers[..i + 1] == gv.consumers[..i] + [gv.consumers[i]];
      consumers := consumers + {gv.consumers[i].stableID};
      allowed := allowed + {gv.consumers[i].stableID};
    }
    assert gv.consumers[..|gv.consumers|] == gv.consumers;
    for i := 0 to |gv.allowedExitNodes|
      invariant allowed == consumers + MemberIDs(gv.allowedExitNodes[..i])
    {
      assert gv.allowedExitNodes[..i + 1] == gv.allowedExitNodes[..i] + [gv.allowedExitNodes[i]];
      allowed := allowed + {gv.allowedExitNodes[i].stableID};
    }
    assert gv.allowedExitNodes[..|gv.allowedExitNodes|] == gv.allowedExitNodes;
  }

  // ---- The filter agrees with the raw zones -------------------------------------------------

  /** What is kept is kept as often as it occurs, and the rest is gone. */
  lemma {:induction false} KeepMembers<T>(s: seq<T>, p: T -> bool, x: T)
    ensures x in Keep(s, p) <==> x in s && p(x)
    ensures multiset(Keep(s, p))[x] == if p(x) then multiset(s)[x] else 0
  {
    if s != [] {
      var n := |s| - 1;
      KeepMembers(s[..n], p, x);
      assert s == s[..n] + [s[n]];
    }
  }

  /** `a` is `b` with some elements left out, the rest in their order. */
  ghost predicate Sublist<T(!new)>(a: seq<T>, b: seq<T>)
    decreases |b|
  {
    if b == [] then a == []
    else Sublist(a, b[..|b| - 1]) || (a != [] && a[|a| - 1] == b[|b| - 1] && Sublist(a[..|a| - 1], b[..|b| - 1]))
  }

  lemma {:induction false} KeepIsSublist<T(!new)>(s: seq<T>, p: T -> bool)
    ensures Sublist(Keep(s, p), s)
  {
    if s != [] {
      var n := |s| - 1;
      KeepIsSublist(s[..n], p);
      if p(s[n]) {
        assert Keep(s, p)[..|Keep(s, p)| - 1] == Keep(s[..n], p);
      }
    }
  }

  lemma {:induction false} KeepAll<T>(s: seq<T>, p: T -> bool)
    requires forall x :: x in s ==> p(x)
    ensures Keep(s, p) == s
  {
    if s != [] {
      KeepAll(s[..|s| - 1], p);
    }
  }

  lemma GetDistinct(gs: seq<Group>, g: Group)
    requires Groups.DistinctIDs(gs) && g in gs
    ensures Groups.Get(gs, g.id) == Some(g)
  {
    var k :| 0 <= k < |gs| && gs[k] == g;
    assert Groups.IndexOf(gs, g.id) == k;
  }

  lemma {:induction false} FindViewAbsent(views: seq<GroupView>, id: string)
    requires FindView(views, id).None?
    ensures forall v :: v in views ==> v.id != id
  {
    if views != [] {
      FindViewAbsent(views[1..], id);
    }
  }

  lemma MembersResolved(ids: seq<string>, byID: map<string, NodeView>)
    ensures MemberIDs(ResolveAll(ids, byID)) == set id | id in ids
  {
    var ms := ResolveAll(ids, byID);
    forall id | id in ids ensures id in MemberIDs(ms) {
      var i :| 0 <= i < |ids| && ids[i] == id;
      assert ms[i] in ms && ms[i].stableID == id;
    }
  }

  /** The view found for a zone is the resolved form of the group the raw store would return. */
  lemma ViewMatchesGroup(gs: seq<Group>, nodes: seq<NodeView>, zoneID: string)
    requires Groups.DistinctIDs(gs)
    ensures var gv := FindView(GroupViews(gs, nodes), zoneID);
            var g := Groups.Get(gs, zoneID);
            && (gv.Some? <==> g.Some?)
            && (g.Some? ==> gv.value == ViewOf(g.value, ByID(nodes)))
  {
    GroupLessIsOrdering();
    SortSorts(GroupLess, gs);
    var sorted := Sort(GroupLess, gs);
    var views := GroupViews(gs, nodes);
    var gv := FindView(views, zoneID);
    if gv.Some? {
      var i :| 0 <= i < |views| && views[i] == gv.value;
      assert sorted[i] in multiset(sorted);
      GetDistinct(gs, sorted[i]);
    } else {
      FindViewAbsent(views, zoneID);
      forall g | g in gs ensures g.id != zoneID {
        assert g in multiset(sorted);
        var i :| 0 <= i < |sorted| && sorted[i] == g;
        assert views[i] in views;
      }
    }
  }

  /** The zone as the guest may know it: its consumers and the exit nodes it allows. */
  ghost predicate NodeInZone(gs: seq<Group>, zoneID: string, nodeID: string) {
    var g := Groups.Get(gs, zoneID);
    g.Some? && (nodeID in g.value.consumers || nodeID in g.value.allowedExitNodes)
  }

  /** The snapshot filter shows exactly the routers and nodes the live group store admits, each as
      often as it occurs and in the original order, although the two read the zone from different
      data; and of the groups only the resolved zone itself, or nothing if it is gone. */
  lemma FilterAgreesWithRawZones(snap: Snapshot, gs: seq<Group>, nodes: seq<NodeView>, zoneID: string, rv: RouterView, n: NodeView)
    requires Groups.DistinctIDs(gs) && snap.groups == GroupViews(gs, nodes)
    ensures var out := ZoneSnapshot(snap, zoneID);
            && (rv in out.routers <==> rv in snap.routers && RouterInZone(gs, zoneID, rv.node.stableID))
            && (n in out.nodes <==> n in snap.nodes && NodeInZone(gs, zoneID, n.stableID))
            && (rv in out.routers ==> multiset(out.routers)[rv] == multiset(snap.routers)[rv])
            && (n in out.nodes ==> multiset(out.nodes)[n] == multiset(snap.nodes)[n])
            && Sublist(out.routers, snap.routers) && Sublist(out.nodes, snap.nodes)
            && out.groups == (match Groups.Get(gs, zoneID)
                              case None => []
                              case Some(g) => [ViewOf(g, ByID(nodes))])
            && out == snap.(nodes := out.nodes, routers := out.routers, groups := out.groups)
  {
    ViewMatchesGroup(gs, nodes, zoneID);
    var gv := FindView(snap.groups, zoneID);
    if gv.Some? {
      var g := Groups.Get(gs, zoneID).value;
      MembersResolved(g.consumers, ByID(nodes));
      MembersResolved(g.allowedExitNodes, ByID(nodes));
      var consumers := MemberIDs(gv.value.consumers);
      var allowed := consumers + MemberIDs(gv.value.allowedExitNodes);
      var inConsumers := (rv: RouterView) => rv.node.stableID in consumers;
      var inAllowed := (n: NodeView) => n.stableID in allowed;
      KeepMembers(snap.routers, inConsumers, rv);
      KeepMembers(snap.nodes, inAllowed, n);
      KeepIsSublist(snap.routers, inConsumers);
      KeepIsSublist(snap.nodes, inAllowed);
    } else {
      EmptySublist(snap.routers);
      EmptySublist(snap.nodes);
    }
  }

  lemma {:induction false} EmptySublist<T(!new)>(b: seq<T>)
    ensures Sublist([], b)
    decreases |b|
  {
    if b != [] {
      EmptySublist(b[..|b| - 1]);
    }
  }

  /** Filtering twice is filtering once. */
  lemma FilterIsIdempotent(snap: Snapshot, zoneID: string)
    ensures ZoneSnapshot(ZoneSnapshot(snap, zoneID), zoneID) == ZoneSnapshot(snap, zoneID)
  {
    var gv := FindView(snap.groups, zoneID);
    if gv.Some? {
      var once := ZoneSnapshot(snap, zoneID);
      var consumers := MemberIDs(gv.value.consumers);
      var allowed := consumers + MemberIDs(gv.value.allowedExitNodes);
      var inConsumers := (rv: RouterView) => rv.node.stableID in consumers;
      var inAllowed := (n: NodeView) => n.stableID in allowed;
      forall rv | rv in once.routers ensures inConsumers(rv) {
        KeepMembers(snap.routers, inConsumers, rv);
      }
      forall n | n in once.nodes ensures inAllowed(n) {
        KeepMembers(snap.nodes, inAllowed, n);
      }
      KeepAll(once.routers, inConsumers);
      KeepAll(once.nodes, inAllowed);
    }
  }
}
