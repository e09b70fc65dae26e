/** What comes back from a router (internal/router/router.go): the capped capture of a
    command's output, the status document, and the exit marker of an egress probe. */
module Output {
  import opened Types
  import opened Ordering
  import opened Text

  // ---- Capped capture ---------------------------------------------------------------------

  function Min(a: nat, b: nat): nat {
    if a < b then a else b
  }

  class CappedBuffer {
    const max: nat
    var buf: seq<int>
    var overflow: bool
    /** Everything ever written, kept or swallowed. */
    ghost var stream: seq<int>

    /** Holds the first `max` bytes of the stream, and is flagged exactly when there were more. */
    ghost predicate Valid()
      reads this
    {
      && buf == stream[..Min(|stream|, max)]
      && (overflow <==> |stream| > max)
    }

    constructor (max: nat)
      ensures Valid() && this.max == max && stream == []
    {
      this.max, buf, overflow, stream := max, [], false, [];
    }

    /** Always reports the whole chunk consumed, so the copy loop neither errors nor blocks. */
    method Write(p: seq<int>) returns (n: nat)
      requires Valid()
      modifies this
      ensures Valid() && stream == old(stream) + p && n == |p|
    {
      ghost var before := stream;
      stream := stream + p;
      if overflow {
        assert stream[..max] == before[..max];
        return |p|;
      }
      assert buf == before;
      var room := max - |buf|;
      if |p| > room {
        if room > 0 {
          buf := buf + p[..room];
        }
        overflow := true;
        assert stream[..max] == before + p[..room];
        return |p|;
      }
      buf := buf + p;
      assert stream[..|stream|] == stream;
      return |p|;
    }
  }

  function Flatten(chunks: seq<seq<int>>): seq<int> {
    if chunks == [] then [] else Flatten(chunks[..|chunks| - 1]) + chunks[|chunks| - 1]
  }

  /** The ssh session's copy loop: however the stream is cut into chunks, the capture is its
      first `max` bytes, and the command is failed exactly when there were more. */
  method Capture(chunks: seq<seq<int>>, max: nat) returns (captured: seq<int>, overflowed: bool)
    ensures captured == Flatten(chunks)[..Min(|Flatten(chunks)|, max)]
    ensures overflowed <==> |Flatten(chunks)| > max
  {
    var b := new CappedBuffer(max);
    for i := 0 to |chunks|
      invariant fresh(b) && b.Valid() && b.max == max
      invariant b.stream == Flatten(chunks[..i])
    {
      var n := b.Write(chunks[i]);
      assert chunks[..i + 1][..i] == chunks[..i];
    }
    assert chunks[..|chunks|] == chunks;
    return b.buf, b.overflow;
  }

  // ---- The status document ----------------------------------------------------------------

  /** A netip address: IPv4 (mapped ones included) with its dotted form, or not. */
  datatype Addr = V4(text: string) | V6

  datatype Peer = Peer(
    id: string,
    dnsName: string,
    ips: seq<Addr>,
    exitNodeOption: bool,
    exitNode: bool,
    stats: Stats)

  datatype ReportedExit = ReportedExit(id: string, ips: seq<Addr>)

  /** The decoded document. `peers` is the order in which one iteration of the peer map happens
      to run, nil entries included. */
  datatype Status = Status(selfOnline: Option<bool>, peers: seq<Option<Peer>>, exitNodeStatus: Option<ReportedExit>)

  function FirstIPv4(addrs: seq<Addr>): string {
    if addrs == [] then "" else if addrs[0].V4? then addrs[0].text else FirstIPv4(addrs[1..])
  }

  function TrimDot(s: string): string {
    if s != [] && s[|s| - 1] == '.' then s[..|s| - 1] else s
  }

  function PeerToRef(p: Peer): ExitNodeRef {
    ExitNodeRef(p.id, TrimDot(p.dnsName), FirstIPv4(p.ips))
  }

  predicate RefLess(a: ExitNodeRef, b: ExitNodeRef) {
    Less(a.stableID, b.stableID)
  }

  function Offered(p: Option<Peer>): seq<ExitNodeRef> {
    if p.Some? && p.value.exitNodeOption then [PeerToRef(p.value)] else []
  }

  function Options(peers: seq<Option<Peer>>): seq<ExitNodeRef> {
    if peers == [] then [] else Options(peers[..|peers| - 1]) + Offered(peers[|peers| - 1])
  }

  /** The last peer whose ExitNode bit is set. */
  function Selected(peers: seq<Option<Peer>>): Option<Peer> {
    if peers == [] then None
    else
      var p := peers[|peers| - 1];
      if p.Some? && p.value.exitNode then p else Selected(peers[..|peers| - 1])
  }

  /** The first peer carrying `id`. */
  function WithID(peers: seq<Option<Peer>>, id: string): Option<Peer> {
    if peers == [] then None
    else if peers[0].Some? && peers[0].value.id == id then peers[0]
    else WithID(peers[1..], id)
  }

  /** The fallback selection, from the top-level status and the peer it names, if listed. */
  function FallbackRef(e: ReportedExit, p: Option<Peer>): ExitNodeRef {
    var ip := FirstIPv4(e.ips);
    if p.None? then ExitNodeRef(e.id, "", ip)
    else ExitNodeRef(e.id, TrimDot(p.value.dnsName), if ip == "" then FirstIPv4(p.value.ips) else ip)
  }

  function RuntimeOf(st: Status): Runtime {
    var options := Sort(RefLess, Options(st.peers));
    var online := st.selfOnline == Some(true);
    var current := Selected(st.peers);
    if current.Some? then Runtime(Some(PeerToRef(current.value)), options, current.value.stats, online)
    else if st.exitNodeStatus.Some? then
      var p := WithID(st.peers, st.exitNodeStatus.value.id);
      Runtime(Some(FallbackRef(st.exitNodeStatus.value, p)), options, if p.Some? then p.value.stats else NO_STATS, online)
    else Runtime(None, options, NO_STATS, online)
  }

  method ParseStatus(st: Status) returns (rt: Runtime)
    ensures rt == RuntimeOf(st)
  {
    rt := NO_RUNTIME;
    if st.selfOnline.Some? {
      rt := rt.(online := st.selfOnline.value);
    }
    var current: Option<Peer> := None;
    for i := 0 to |st.peers|
      invariant rt == NO_RUNTIME.(online := st.selfOnline == Some(true), options := Options(st.peers[..i]))
      invariant current == Selected(st.peers[..i])
    {
      assert st.peers[..i + 1][..i] == st.peers[..i];
      var p := st.peers[i];
      if p.None? {
        continue;
      }
      if p.value.exitNodeOption {
        rt := rt.(options := rt.options + [PeerToRef(p.value)]);
      }
      if p.value.exitNode {
        current := p;
      }
    }
    assert st.peers[..|st.peers|] == st.peers;
    rt := rt.(options := Sort(RefLess, rt.options));
    if current.Some? {
      rt := rt.(current := Some(PeerToRef(current.value)), stats := current.value.stats);
    } else if st.exitNodeStatus.Some? {
      var ref, stats := Fallback(st.exitNodeStatus.value, st.peers);
      rt := rt.(current := Some(ref), stats := stats);
    }
  }

  /** The fallback's walk over the peers, up to the first one under the reported id. */
  method Fallback(e: ReportedExit, peers: seq<Option<Peer>>) returns (ref: ExitNodeRef, stats: Stats)
    ensures ref == FallbackRef(e, WithID(peers, e.id))
    ensures stats == if WithID(peers, e.id).Some? then WithID(peers, e.id).value.stats else NO_STATS
  {
    ref, stats := ExitNodeRef(e.id, "", FirstIPv4(e.ips)), NO_STATS;
    var i := 0;
    while i < |peers|
      invariant 0 <= i <= |peers|
      invariant WithID(peers, e.id) == WithID(peers[i..], e.id)
      invariant ref == ExitNodeRef(e.id, "", FirstIPv4(e.ips)) && stats == NO_STATS
    {
      var p := peers[i];
      if p.None? || p.value.id != e.id {
        i := i + 1;
        continue;
      }
      ref := ref.(name := TrimDot(p.value.dnsName));
      if ref.ip == "" {
        ref := ref.(ip := FirstIPv4(p.value.ips));
      }
      stats := p.value.stats;
      break;
    }
  }

  /** Different peers carry different ids, and at most one is selected. */
  ghost predicate Unambiguous(peers: seq<Option<Peer>>) {
    forall p, q :: p in peers && q in peers && p.Some? && q.Some? && p != q ==>
      p.value.id != q.value.id && !(p.value.exitNode && q.value.exitNode)
  }

  /** `p` is the last selected peer of the document. */
  ghost predicate LastSelected(peers: seq<Option<Peer>>, p: Peer) {
    exists i :: && 0 <= i < |peers| && peers[i] == Some(p) && p.exitNode
                && forall k :: i < k < |peers| ==> !(peers[k].Some? && peers[k].value.exitNode)
  }

  lemma {:induction false} SelectedIsSelected(peers: seq<Option<Peer>>)
    ensures var s := Selected(peers);
            if s.Some? then s in peers && s.value.exitNode && LastSelected(peers, s.value)
            else forall p :: p in peers && p.Some? ==> !p.value.exitNode
  {
    if peers != [] {
      var n := |peers| - 1;
      SelectedIsSelected(peers[..n]);
      assert peers == peers[..n] + [peers[n]];
      if !(peers[n].Some? && peers[n].value.exitNode) && Selected(peers).Some? {
        var p := Selected(peers).value;
        var i :| && 0 <= i < n && peers[..n][i] == Some(p) && p.exitNode
                 && forall k :: i < k < n ==> !(peers[..n][k].Some? && peers[..n][k].value.exitNode);
        assert forall k :: i < k < n ==> peers[..n][k] == peers[k];
        assert peers[i] == Some(p);
      }
    }
  }

  /** `p` is the first peer of the document with that id. */
  ghost predicate FirstWithID(peers: seq<Option<Peer>>, id: string, p: Peer) {
    exists i :: && 0 <= i < |peers| && peers[i] == Some(p) && p.id == id
                && forall k :: 0 <= k < i ==> !(peers[k].Some? && peers[k].value.id == id)
  }

  lemma {:induction false} WithIDHasID(peers: seq<Option<Peer>>, id: string)
    ensures var s := WithID(peers, id);
            if s.Some? then s in peers && s.value.id == id && FirstWithID(peers, id, s.value)
            else forall p :: p in peers && p.Some? ==> p.value.id != id
  {
    if peers != [] {
      WithIDHasID(peers[1..], id);
      assert peers == [peers[0]] + peers[1..];
      if !(peers[0].Some? && peers[0].value.id == id) && WithID(peers, id).Some? {
        var p := WithID(peers, id).value;
        var i :| && 0 <= i < |peers| - 1 && peers[1..][i] == Some(p) && p.id == id
                 && forall k :: 0 <= k < i ==> !(peers[1..][k].Some? && peers[1..][k].value.id == id);
        assert forall k :: 0 < k <= i ==> peers[k] == peers[1..][k - 1];
        assert peers[i + 1] == Some(p);
      }
    }
  }

  /** An option is a peer offered, and every peer offered is an option. */
  lemma {:induction false} OptionsAreOffered(peers: seq<Option<Peer>>, r: ExitNodeRef)
    ensures r in Options(peers)
       <==> exists p :: p in peers && p.Some? && p.value.exitNodeOption && r == PeerToRef(p.value)
  {
    if peers != [] {
      var last := peers[|peers| - 1];
      OptionsAreOffered(peers[..|peers| - 1], r);
      assert peers == peers[..|peers| - 1] + [last];
      if r in Offered(last) {
        assert last in peers;
      }
    }
  }

  // ---- What a parsed status says -----------------------------------------------------------

  /** `name` is the DNS name without its final dot. */
  predicate Undotted(name: string, dnsName: string) {
    dnsName == name + "." || (dnsName == name && (name == "" || name[|name| - 1] != '.'))
  }

  /** `ip` is the first IPv4 of the addresses, or "" if there is none. */
  ghost predicate IsFirstIPv4(ip: string, addrs: seq<Addr>) {
    || (exists i :: 0 <= i < |addrs| && addrs[i] == V4(ip) && forall k :: 0 <= k < i ==> addrs[k].V6?)
    || (ip == "" && forall k :: 0 <= k < |addrs| ==> addrs[k].V6?)
  }

  ghost predicate Describes(r: ExitNodeRef, p: Peer) {
    r.stableID == p.id && Undotted(r.name, p.dnsName) && IsFirstIPv4(r.ip, p.ips)
  }

  predicate IsOffered(p: Option<Peer>) {
    p.Some? && p.value.exitNodeOption
  }

  ghost function OfferedAt(peers: seq<Option<Peer>>): set<int> {
    set i | 0 <= i < |peers| && IsOffered(peers[i])
  }

  ghost predicate AreOffered(options: seq<ExitNodeRef>, peers: seq<Option<Peer>>) {
    && (forall r :: r in options ==> exists p :: p in peers && IsOffered(p) && Describes(r, p.value))
    && (forall p :: p in peers && IsOffered(p) ==> exists r :: r in options && Describes(r, p.value))
  }

  ghost predicate Ascending(options: seq<ExitNodeRef>) {
    forall i, j :: 0 <= i < j < |options| ==> !Less(options[j].stableID, options[i].stableID)
  }

  /** The options describe the offered peers, one each, and ascend by id. */
  ghost predicate Lists(options: seq<ExitNodeRef>, peers: seq<Option<Peer>>) {
    |options| == |OfferedAt(peers)| && AreOffered(options, peers) && Ascending(options)
  }

  /** With no peer selected, the selection is the exit reported at the top level: under its id, at
      its first IPv4, with the name and statistics of the first peer listed under that id, whose
      first IPv4 stands in if the report has none. */
  ghost predicate FallsBack(rt: Runtime, e: ReportedExit, peers: seq<Option<Peer>>) {
    && rt.current.Some? && rt.current.value.stableID == e.id
    && exists ip ::
         && IsFirstIPv4(ip, e.ips)
         && if exists p :: FirstWithID(peers, e.id, p)
            then exists p :: FirstWithID(peers, e.id, p) && StandsIn(rt, ip, p)
            else rt.stats == NO_STATS && rt.current.value.name == "" && rt.current.value.ip == ip
  }

  ghost predicate StandsIn(rt: Runtime, ip: string, p: Peer)
    requires rt.current.Some?
  {
    && rt.stats == p.stats && Undotted(rt.current.value.name, p.dnsName)
    && if ip != "" then rt.current.value.ip == ip else IsFirstIPv4(rt.current.value.ip, p.ips)
  }

  /** What a runtime says about a router, in terms of the document it was read from. */
  ghost predicate Tells(rt: Runtime, st: Status) {
    && (rt.online <==> st.selfOnline == Some(true))
    && Lists(rt.options, st.peers)
    && if exists p :: p in st.peers && p.Some? && p.value.exitNode
       then exists p :: LastSelected(st.peers, p) && rt.current.Some? && Describes(rt.current.value, p) && rt.stats == p.stats
       else if st.exitNodeStatus.Some? then FallsBack(rt, st.exitNodeStatus.value, st.peers)
       else rt.current.None? && rt.stats == NO_STATS
  }

  lemma {:induction false} FirstIPv4IsFirst(addrs: seq<Addr>)
    ensures IsFirstIPv4(FirstIPv4(addrs), addrs)
  {
    if addrs != [] && addrs[0].V6? {
      FirstIPv4IsFirst(addrs[1..]);
      assert forall k :: 0 < k < |addrs| ==> addrs[k] == addrs[1..][k - 1];
      var ip := FirstIPv4(addrs);
      if i :| 0 <= i < |addrs| - 1 && addrs[1..][i] == V4(ip) && forall k :: 0 <= k < i ==> addrs[1..][k].V6? {
        assert addrs[i + 1] == V4(ip);
      }
    }
  }

  lemma RefDescribes(p: Peer)
    ensures Describes(PeerToRef(p), p)
  {
    FirstIPv4IsFirst(p.ips);
  }

  lemma OfferedSnoc(peers: seq<Option<Peer>>, p: Option<Peer>)
    ensures OfferedAt(peers + [p]) == if IsOffered(p) then OfferedAt(peers) + {|peers|} else OfferedAt(peers)
    ensures |OfferedAt(peers + [p])| == |OfferedAt(peers)| + |Offered(p)|
  {
    var all := OfferedAt(peers + [p]);
    assert forall i :: 0 <= i < |peers| ==> (peers + [p])[i] == peers[i];
    assert all == if IsOffered(p) then OfferedAt(peers) + {|peers|} else OfferedAt(peers);
  }

  lemma {:induction false} OptionsCount(peers: seq<Option<Peer>>)
    ensures |Options(peers)| == |OfferedAt(peers)|
    decreases |peers|
  {
    if peers != [] {
      var init, last := SplitLast(peers);
      OptionsCount(init);
      OptionsSnoc(init, last);
      OfferedSnoc(init, last);
    }
  }

  lemma OptionsAreDescribed(peers: seq<Option<Peer>>)
    ensures AreOffered(Options(peers), peers)
  {
    var options := Options(peers);
    forall r | r in options ensures exists p :: p in peers && IsOffered(p) && Describes(r, p.value) {
      OptionsAreOffered(peers, r);
      var p :| p in peers && p.Some? && p.value.exitNodeOption && r == PeerToRef(p.value);
      RefDescribes(p.value);
      assert IsOffered(p);
    }
    forall p | p in peers && IsOffered(p) ensures exists r :: r in options && Describes(r, p.value) {
      OptionsAreOffered(peers, PeerToRef(p.value));
      RefDescribes(p.value);
    }
  }

  lemma SortedAscends(options: seq<ExitNodeRef>)
    ensures var sorted := Sort(RefLess, options);
            Ascending(sorted) && |sorted| == |options| && forall r :: r in sorted <==> r in options
  {
    var sorted := Sort(RefLess, options);
    RefLessIsOrdering();
    SortSorts(RefLess, options);
    assert |sorted| == |multiset(sorted)| == |multiset(options)| == |options|;
    forall r ensures r in sorted <==> r in options {
      assert r in multiset(sorted) <==> r in multiset(options);
    }
    forall i, j | 0 <= i < j < |sorted| ensures !Less(sorted[j].stableID, sorted[i].stableID) {
      assert !RefLess(sorted[j], sorted[i]);
    }
  }

  lemma OptionsListThePeers(peers: seq<Option<Peer>>)
    ensures Lists(Sort(RefLess, Options(peers)), peers)
  {
    OptionsCount(peers);
    OptionsAreDescribed(peers);
    SortedAscends(Options(peers));
  }

  lemma FallbackFallsBack(st: Status, e: ReportedExit)
    requires Selected(st.peers).None? && st.exitNodeStatus == Some(e)
    ensures FallsBack(RuntimeOf(st), e, st.peers)
  {
    WithIDHasID(st.peers, e.id);
    FirstIPv4IsFirst(e.ips);
    var p := WithID(st.peers, e.id);
    if p.Some? {
      FirstIPv4IsFirst(p.value.ips);
    }
  }

  lemma RuntimeTells(st: Status)
    ensures Tells(RuntimeOf(st), st)
  {
    OptionsListThePeers(st.peers);
    SelectedIsSelected(st.peers);
    if Selected(st.peers).Some? {
      RefDescribes(Selected(st.peers).value);
    } else if st.exitNodeStatus.Some? {
      FallbackFallsBack(st, st.exitNodeStatus.value);
    }
  }

  // ---- The order of the peer map ------------------------------------------------------------

  lemma OptionsSnoc(a: seq<Option<Peer>>, p: Option<Peer>)
    ensures Options(a + [p]) == Options(a) + Offered(p)
  {
    assert (a + [p])[..|a|] == a;
  }

  lemma Assoc<T>(a: seq<T>, b: seq<T>, c: seq<T>)
    ensures a + b + c == a + (b + c)
  {
  }

  lemma OptionsConcatSnoc(a: seq<Option<Peer>>, b: seq<Option<Peer>>, p: Option<Peer>)
    requires Options(a + b) == Options(a) + Options(b)
    ensures Options(a + (b + [p])) == Options(a) + Options(b + [p])
  {
    calc {
      Options(a + (b + [p]));
      { Assoc(a, b, [p]); }
      Options(a + b + [p]);
      { OptionsSnoc(a + b, p); }
      Options(a) + Options(b) + Offered(p);
      { Assoc(Options(a), Options(b), Offered(p)); }
      Options(a) + (Options(b) + Offered(p));
      { OptionsSnoc(b, p); }
      Options(a) + Options(b + [p]);
    }
  }

  lemma OptionsConcatNil(a: seq<Option<Peer>>, b: seq<Option<Peer>>)
    requires b == []
    ensures Options(a + b) == Options(a) + Options(b)
  {
    assert a + b == a;
  }

  lemma SplitLast<T>(b: seq<T>) returns (init: seq<T>, last: T)
    requires b != []
    ensures b == init + [last] && |init| < |b|
  {
    init, last := b[..|b| - 1], b[|b| - 1];
  }

  lemma {:induction false} OptionsConcat(a: seq<Option<Peer>>, b: seq<Option<Peer>>)
    ensures Options(a + b) == Options(a) + Options(b)
    decreases |b|
  {
    if b == [] {
      OptionsConcatNil(a, b);
    } else {
      var init, last := SplitLast(b);
      OptionsConcat(a, init);
      OptionsConcatSnoc(a, init, last);
    }
  }

  lemma OptionsAround(before: seq<Option<Peer>>, p: Option<Peer>, after: seq<Option<Peer>>)
    ensures multiset(Options(before + [p] + after)) == multiset(Options(before + after)) + multiset(Offered(p))
  {
    OptionsConcat(before + [p], after);
    OptionsConcat(before, after);
    OptionsSnoc(before, p);
  }

  lemma {:induction false} OptionsArePermuted(a: seq<Option<Peer>>, b: seq<Option<Peer>>)
    requires multiset(a) == multiset(b)
    ensures multiset(Options(a)) == multiset(Options(b))
    decreases |a|
  {
    if a == [] {
      assert |multiset(b)| == |b|;
    } else {
      var last, rest := a[|a| - 1], a[..|a| - 1];
      assert a == rest + [last];
      assert last in multiset(b);
      var k :| 0 <= k < |b| && b[k] == last;
      var before, after := b[..k], b[k + 1..];
      assert b == before + [last] + after;
      calc {
        multiset(rest);
        multiset(a) - multiset{last};
        multiset(before + [last] + after) - multiset{last};
        multiset(before + after);
      }
      OptionsArePermuted(rest, before + after);
      OptionsAround(before, last, after);
      OptionsSnoc(rest, last);
    }
  }

  lemma RefLessIsOrdering()
    ensures IsOrdering(RefLess)
  {
    forall x: ExitNodeRef, y: ExitNodeRef | RefLess(x, y) ensures !RefLess(y, x) {
      LessTotal(x.stableID, y.stableID);
    }
    forall x: ExitNodeRef, y: ExitNodeRef, z: ExitNodeRef | !RefLess(y, x) && !RefLess(z, y) ensures !RefLess(z, x) {
      LessTotal(y.stableID, z.stableID);
      LessTotal(x.stableID, y.stableID);
      LessTotal(x.stableID, z.stableID);
      if RefLess(z, x) && y.stableID != z.stableID {
        LessTransitive(y.stableID, z.stableID, x.stableID);
      }
    }
  }

  lemma OptionsSeparated(peers: seq<Option<Peer>>)
    requires Unambiguous(peers)
    ensures Separates(RefLess, Options(peers))
  {
    var options := Options(peers);
    forall x, y | x in options && y in options && x != y ensures RefLess(x, y) || RefLess(y, x) {
      OptionsAreOffered(peers, x);
      OptionsAreOffered(peers, y);
      LessTotal(x.stableID, y.stableID);
    }
  }

  /** The view of a router does not depend on the order in which its peer map iterates. */
  lemma ParseStatusIsOrderIndependent(st: Status, st': Status)
    requires st' == st.(peers := st'.peers) && multiset(st.peers) == multiset(st'.peers) && Unambiguous(st.peers)
    ensures RuntimeOf(st) == RuntimeOf(st')
  {
    forall p ensures p in st.peers <==> p in st'.peers {
      assert p in multiset(st.peers) <==> p in multiset(st'.peers);
    }
    OptionsArePermuted(st.peers, st'.peers);
    OptionsSeparated(st.peers);
    RefLessIsOrdering();
    SortIsOrderIndependent(RefLess, Options(st.peers), Options(st'.peers));
    SelectedIsSelected(st.peers);
    SelectedIsSelected(st'.peers);
    if st.exitNodeStatus.Some? {
      WithIDHasID(st.peers, st.exitNodeStatus.value.id);
      WithIDHasID(st'.peers, st.exitNodeStatus.value.id);
    }
  }

  /** Different peers carry different ids. */
  ghost predicate DistinctIDs(peers: seq<Option<Peer>>) {
    forall p, q :: p in peers && q in peers && p.Some? && q.Some? && p != q ==> p.value.id != q.value.id
  }

  /** The same peers with `p` moved to the end. */
  lemma MovedLast(peers: seq<Option<Peer>>, p: Option<Peer>) returns (moved: seq<Option<Peer>>)
    requires p in peers && p.Some? && p.value.exitNode
    ensures multiset(moved) == multiset(peers) && Selected(moved) == p
  {
    var k :| 0 <= k < |peers| && peers[k] == p;
    assert peers == peers[..k] + [p] + peers[k + 1..];
    moved := peers[..k] + peers[k + 1..] + [p];
  }

  /** With two selected peers of different ids, in any document, it does depend on the order:
      whichever comes last is shown. */
  lemma TwoSelectionsDependOnOrder(st: Status, p: Peer, q: Peer) returns (a: seq<Option<Peer>>, b: seq<Option<Peer>>)
    requires Some(p) in st.peers && Some(q) in st.peers && p.exitNode && q.exitNode && p.id != q.id
    ensures multiset(a) == multiset(b) == multiset(st.peers)
    ensures RuntimeOf(st.(peers := a)) != RuntimeOf(st.(peers := b))
  {
    a := MovedLast(st.peers, Some(p));
    b := MovedLast(st.peers, Some(q));
    assert RuntimeOf(st.(peers := a)).current == Some(PeerToRef(p));
    assert RuntimeOf(st.(peers := b)).current == Some(PeerToRef(q));
  }

  ghost predicate OrderIndependent(st: Status) {
    forall peers :: multiset(peers) == multiset(st.peers) ==> RuntimeOf(st.(peers := peers)) == RuntimeOf(st)
  }

  /** Exactly when: with distinct ids, the view of a router is independent of the iteration order
      of its peer map if and only if at most one peer is selected. */
  lemma OrderIndependentExactly(st: Status)
    requires DistinctIDs(st.peers)
    ensures OrderIndependent(st)
       <==> forall p, q :: p in st.peers && q in st.peers && p.Some? && q.Some? && p.value.exitNode && q.value.exitNode ==> p == q
  {
    if forall p, q :: p in st.peers && q in st.peers && p.Some? && q.Some? && p.value.exitNode && q.value.exitNode ==> p == q {
      forall peers | multiset(peers) == multiset(st.peers) ensures RuntimeOf(st.(peers := peers)) == RuntimeOf(st) {
        ParseStatusIsOrderIndependent(st, st.(peers := peers));
      }
    } else {
      var p, q :| p in st.peers && q in st.peers && p.Some? && q.Some? && p.value.exitNode && q.value.exitNode && p != q;
      var a, b := TwoSelectionsDependOnOrder(st, p.value, q.value);
    }
  }

  // ---- The egress exit marker -------------------------------------------------------------

  const EGRESS_MARKER := "tsctl_egress_exit="
  const MAX_INT := 0x7FFF_FFFF_FFFF_FFFF

  predicate OccursAt(s: string, m: string, i: nat) {
    i + |m| <= |s| && s[i..i + |m|] == m
  }

  /** strings.LastIndex, searching back from `from`. */
  function LastIndex(s: string, m: string, from: nat): (r: Option<nat>)
    ensures r.Some? ==> r.value <= from && OccursAt(s, m, r.value)
    ensures forall i: nat :: i <= from && OccursAt(s, m, i) ==> r.Some? && i <= r.value
  {
    if OccursAt(s, m, from) then Some(from)
    else if from == 0 then None
    else LastIndex(s, m, from - 1)
  }

  predicate IsDigit(c: char) {
    '0' <= c <= '9'
  }

  function Digits(s: string): Option<nat> {
    if s == [] then Some(0)
    else
      var init := Digits(s[..|s| - 1]);
      if init.None? || !IsDigit(s[|s| - 1]) then None
      else Some(init.value * 10 + (s[|s| - 1] - '0') as nat)
  }

  /** strconv.Atoi: an optional sign, at least one digit, within int64. */
  function Atoi(s: string): Option<int> {
    var signed := s != [] && s[0] in {'+', '-'};
    var body := if signed then s[1..] else s;
    var n := Digits(body);
    if body == [] || n.None? then None
    else if s[0] == '-' then (if n.value > MAX_INT + 1 then None else Some(0 - (n.value as int)))
    else if n.value > MAX_INT then None
    else Some(n.value)
  }

  datatype EgressExit = EgressExit(exit: int, detail: string)

  /** None is "not parsed": the probe is then a failed result, whatever the output says. */
  function ParseEgressExit(out: string): Option<EgressExit> {
    var idx := LastIndex(out, EGRESS_MARKER, |out|);
    if idx.None? then None
    else
      var n := Atoi(TrimSpace(out[idx.value + |EGRESS_MARKER|..]));
      if n.None? then None else Some(EgressExit(n.value, TrimSpace(out[..idx.value])))
  }

  /** The last marker starts at `i`. */
  ghost predicate LastMarkerAt(out: string, i: nat) {
    OccursAt(out, EGRESS_MARKER, i) && forall k: nat :: OccursAt(out, EGRESS_MARKER, k) ==> k <= i
  }

  /** A sign in front of digits leaves their number or negates it. */
  function Signed(sign: string, n: nat): int {
    if sign == "-" then 0 - n else n
  }

  /** What strconv.Atoi reads as `v`: an optional sign, any leading zeros, and the decimal digits
      of a number that fits 64 bits. */
  ghost predicate Reads(s: string, v: int) {
    && 0 - MAX_INT - 1 <= v <= MAX_INT
    && exists sign: string, zeros: string, n: nat :: ReadsAs(s, v, sign, zeros, n)
  }

  ghost predicate ReadsAs(s: string, v: int, sign: string, zeros: string, n: nat) {
    && sign in {"", "+", "-"} && (forall i :: 0 <= i < |zeros| ==> zeros[i] == '0')
    && s == sign + (zeros + Decimal(n))
    && v == Signed(sign, n)
  }

  /** What the shell prints for `$?`. */
  function Decimal(n: nat): (s: string)
    ensures s != [] && forall i :: 0 <= i < |s| ==> IsDigit(s[i])
  {
    var digit := ['0' + (n % 10) as char];
    if n < 10 then digit else Decimal(n / 10) + digit
  }

  lemma {:induction false} DigitsOfDecimal(n: nat)
    ensures Digits(Decimal(n)) == Some(n)
  {
    var s := Decimal(n);
    if n < 10 {
      assert Digits(s[..0]) == Some(0);
    } else {
      DigitsOfDecimal(n / 10);
      assert s[..|s| - 1] == Decimal(n / 10);
    }
  }

  lemma {:induction false} DigitsAfterZeros(zeros: string, n: nat)
    requires forall i :: 0 <= i < |zeros| ==> zeros[i] == '0'
    ensures Digits(zeros + Decimal(n)) == Some(n)
  {
    var s := zeros + Decimal(n);
    var init := s[..|s| - 1];
    if n >= 10 {
      DigitsAfterZeros(zeros, n / 10);
      assert init == zeros + Decimal(n / 10);
    } else {
      assert init == zeros;
      ZerosAreZero(zeros);
    }
  }

  lemma {:induction false} ZerosAreZero(zeros: string)
    requires forall i :: 0 <= i < |zeros| ==> zeros[i] == '0'
    ensures Digits(zeros) == Some(0)
    decreases |zeros|
  {
    if zeros != [] {
      ZerosAreZero(zeros[..|zeros| - 1]);
    }
  }

  lemma {:induction false} DigitsAreDecimal(s: string) returns (zeros: string)
    requires s != [] && Digits(s).Some?
    ensures forall i :: 0 <= i < |zeros| ==> zeros[i] == '0'
    ensures s == zeros + Decimal(Digits(s).value)
    decreases |s|
  {
    var init, last := SplitLast(s);
    assert s[..|s| - 1] == init;
    zeros := "";
    if init != [] {
      zeros := DigitsAreDecimal(init);
      if Digits(init).value == 0 {
        zeros := zeros + "0";
      }
    }
  }

  lemma SignedReads(sign: string, body: string)
    requires sign in {"", "+", "-"} && body != [] && Digits(body).Some?
    requires 0 - MAX_INT - 1 <= Signed(sign, Digits(body).value) <= MAX_INT
    ensures Reads(sign + body, Signed(sign, Digits(body).value))
  {
    var zeros := DigitsAreDecimal(body);
    assert ReadsAs(sign + body, Signed(sign, Digits(body).value), sign, zeros, Digits(body).value);
  }

  lemma AtoiIsRead(s: string)
    requires Atoi(s).Some?
    ensures Reads(s, Atoi(s).value)
  {
    if s[0] in {'+', '-'} {
      assert s == [s[0]] + s[1..];
      SignedReads([s[0]], s[1..]);
    } else {
      assert s == "" + s;
      SignedReads("", s);
    }
  }

  lemma AtoiOfSigned(sign: string, body: string)
    requires sign in {"", "+", "-"} && body != [] && IsDigit(body[0]) && Digits(body).Some?
    ensures var v := Signed(sign, Digits(body).value);
            0 - MAX_INT - 1 <= v <= MAX_INT ==> Atoi(sign + body) == Some(v)
  {
    if sign == "" {
      assert sign + body == body;
    } else {
      assert (sign + body)[1..] == body;
    }
  }

  lemma ReadByAtoi(s: string, v: int)
    requires Reads(s, v)
    ensures Atoi(s) == Some(v)
  {
    var sign: string, zeros: string, n: nat :| ReadsAs(s, v, sign, zeros, n);
    DigitsAfterZeros(zeros, n);
    DecimalAfterZeros(zeros, n);
    AtoiOfSigned(sign, zeros + Decimal(n));
  }

  lemma DecimalAfterZeros(zeros: string, n: nat)
    requires forall i :: 0 <= i < |zeros| ==> zeros[i] == '0'
    ensures zeros + Decimal(n) != [] && IsDigit((zeros + Decimal(n))[0])
  {
  }

  /** The probe's exit code is parsed exactly when a marker occurs and what follows the last one is
      an integer up to white space; then it is that integer, with the trimmed output before it. */
  lemma EgressParsedExactly(out: string, exit: int, detail: string)
    ensures ParseEgressExit(out) == Some(EgressExit(exit, detail))
       <==> exists i: nat :: LastMarkerAt(out, i) && detail == TrimSpace(out[..i])
                             && Reads(TrimSpace(out[i + |EGRESS_MARKER|..]), exit)
  {
    var idx := LastIndex(out, EGRESS_MARKER, |out|);
    if idx.Some? {
      assert LastMarkerAt(out, idx.value);
      var rest := TrimSpace(out[idx.value + |EGRESS_MARKER|..]);
      if Atoi(rest).Some? {
        AtoiIsRead(rest);
      }
      if Reads(rest, exit) {
        ReadByAtoi(rest, exit);
      }
    }
  }

  lemma {:induction false} TrimRightDropsSpace(s: string, tail: string)
    requires forall i :: 0 <= i < |tail| ==> IsSpace(tail[i])
    ensures TrimRight(s + tail) == TrimRight(s)
    decreases |tail|
  {
    if tail == [] {
      assert s + tail == s;
    } else {
      TrimRightDropsSpace(s, tail[..|tail| - 1]);
      assert (s + tail)[..|s + tail| - 1] == s + tail[..|tail| - 1];
    }
  }

  /** No later marker can start inside the marker line: it would need its '=' among the digits. */
  lemma MarkerIsLast(out: string, digits: string, tail: string)
    requires forall i :: 0 <= i < |digits| ==> IsDigit(digits[i])
    requires forall i :: 0 <= i < |tail| ==> IsSpace(tail[i])
    ensures var s := out + EGRESS_MARKER + digits + tail;
            LastIndex(s, EGRESS_MARKER, |s|) == Some(|out|)
  {
    var s := out + EGRESS_MARKER + digits + tail;
    var rest := digits + tail;
    var width := |EGRESS_MARKER|;
    assert s == (out + EGRESS_MARKER) + rest;
    assert s[|out|..|out| + width] == EGRESS_MARKER;
    assert OccursAt(s, EGRESS_MARKER, |out|);
    forall i: nat | |out| < i && i + width <= |s| ensures !OccursAt(s, EGRESS_MARKER, i) {
      assert s[i + width - 1] == rest[i - 1 - |out|];
      assert s[i..i + width][width - 1] == s[i + width - 1];
      assert EGRESS_MARKER[width - 1] == '=';
    }
  }

  lemma AtoiOfDecimal(n: nat)
    requires n <= MAX_INT
    ensures Atoi(Decimal(n)) == Some(n)
  {
    DigitsOfDecimal(n);
    assert !(Decimal(n)[0] in {'+', '-'});
  }

  lemma TrimSpaceOfDecimal(n: nat, tail: string)
    requires forall i :: 0 <= i < |tail| ==> IsSpace(tail[i])
    ensures TrimSpace(Decimal(n) + tail) == Decimal(n)
  {
    var digits := Decimal(n);
    TrimRightDropsSpace(digits, tail);
    assert TrimLeft(digits + tail) == digits + tail;
    assert TrimRight(digits) == digits;
  }

  /** Round trip: from any output followed by the marker line, the exit code and the trimmed
      output come back, even if the output itself contains markers. */
  lemma EgressExitRoundTrip(out: string, n: nat, tail: string)
    requires n <= MAX_INT && forall i :: 0 <= i < |tail| ==> IsSpace(tail[i])
    ensures ParseEgressExit(out + EGRESS_MARKER + Decimal(n) + tail) == Some(EgressExit(n, TrimSpace(out)))
  {
    var digits := Decimal(n);
    var s := out + EGRESS_MARKER + digits + tail;
    MarkerIsLast(out, digits, tail);
    assert s[|out| + |EGRESS_MARKER|..] == digits + tail;
    assert s[..|out|] == out;
    AtoiOfDecimal(n);
    TrimSpaceOfDecimal(n, tail);
  }
}
