/** Concrete runs that break what the protocol only promises under a hypothesis. Each is a
    real interleaving of the source, written step by step. */
module Witnesses {
  import Machines
  import opened Types
  import opened Views
  import opened RouterClient
  import opened Sections
  import opened Protocol
  import opened Timers

  lemma ReachableStep(s: State, step: Step)
    requires Reachable(s) && Enabled(s, step)
    ensures Reachable(Exec(s, step))
  {
    var addr, requireKeep, sel, steps :| Runs(Init(addr, requireKeep, sel), steps, s);
    Machines.RunsAppend(Next, Init(addr, requireKeep, sel), steps, s, step);
    assert Runs(Init(addr, requireKeep, sel), steps + [step], Exec(s, step));
  }

  lemma ReachableMove(s: State, q: nat, move: Move)
    requires Reachable(s) && q in s.sets && CanMove(s, q, move)
    ensures Reachable(DoMove(s, q, move))
  {
    ReachableStep(s, SetMove(q, move));
  }

  lemma ReachableInit(addr: string, requireKeep: bool, sel: string)
    ensures Reachable(Init(addr, requireKeep, sel))
  {
    assert Runs(Init(addr, requireKeep, sel), [], Init(addr, requireKeep, sel));
  }

  const NODE := NodeView("r1", "r1", "r1", ["100.64.0.1"], true, false, [], Router, false)
  const EXIT := ExitNodeRef("e1", "e1", "100.64.0.9")
  const OTHER := ExitNodeRef("e2", "e2", "100.64.0.8")
  const ON_DIRECT := Runtime(None, [EXIT], NO_STATS, true)

  function On(exit: ExitNodeRef): Runtime {
    Runtime(Some(exit), [exit], NO_STATS, true)
  }

  /** The rest of a poll of a listed, never dialed router, once it has loaded its snapshot. */
  lemma FinishListing(s: State) returns (s': State)
    requires Reachable(s) && s.poll.Loaded?
    ensures Reachable(s') && s'.poll.Idle? && s'.keeps == s.keeps && s'.dev == s.dev && s'.lock == s.lock
    ensures s'.addr == s.addr && s'.requireKeep == s.requireKeep && s'.clock == s.clock
    ensures s'.hist == s.hist.(gap := s.hist.gap || s.poll.genAtLoad != s.sh.setGen)
    ensures s'.sh == Merge(s.sh, BuildListedRouterView(s.addr, Some(NODE), s.poll.prev), s.sh.setGen, s.clock)
    ensures s.sets == map[] ==> s'.sets == map[]
    ensures s'.probes == s.probes && (s.sh.keep.None? ==> s'.sets == s.sets)
  {
    var s1 := CaptureAndList(s);
    ReachableStep(s1, PollMerge);
    s' := DoPollMerge(s1);
  }

  lemma CaptureAndList(s: State) returns (s': State)
    requires Reachable(s) && s.poll.Loaded?
    ensures Reachable(s')
    ensures s' == s.(poll := Dialed(s.poll.prev, Listed(Some(NODE)), s.sh.setGen, false),
                     hist := s.hist.(gap := s.hist.gap || s.poll.genAtLoad != s.sh.setGen))
  {
    ReachableStep(s, PollCapture);
    var s1 := Exec(s, PollCapture);
    ReachableStep(s1, PollDial(Listed(Some(NODE))));
    s' := DoPollDial(s1, Listed(Some(NODE)));
  }

  lemma ListOnce(s: State) returns (s': State)
    requires Reachable(s) && s.poll.Idle? && s.sh.keep.None?
    ensures Reachable(s') && s'.poll.Idle? && s'.keeps == s.keeps && s'.dev == s.dev && s'.lock == s.lock
    ensures s'.addr == s.addr && s'.requireKeep == s.requireKeep && s'.clock == s.clock
    ensures s'.hist == s.hist && s'.sh.setSeq == s.sh.setSeq
    ensures s'.sh.keep.None? && s'.sh.view.Some?
    ensures s.sets == map[] ==> s'.sets == map[]
  {
    ReachableStep(s, PollLoad);
    s' := FinishListing(Exec(s, PollLoad));
  }

  /** The set that drew number `q` reads the clock, draws marker `m` and arms its timer. */
  lemma ArmOnly(s: State, q: nat, m: Marker) returns (s': State)
    requires Reachable(s) && q in s.sets && s.sets[q].phase.Started? && s.lock.None?
    requires m != "" && m !in s.hist.markers
    ensures Reachable(s')
    ensures MoveShape(s, s', q) && s'.lock == Some(q)
    ensures s'.hist == s.hist.(markers := s'.hist.markers)
    ensures s'.sets[q] == s.sets[q].(armAt := s.clock, marker := m, phase := Arming)
    ensures s'.hist.markers == s.hist.markers[m := q]
    ensures s'.dev.timers == s.dev.timers[m := Timer(s.clock + REVERT_WINDOW, ExitArg(s.sets[q].prev), true)]
    ensures s'.dev == s.dev.(timers := s'.dev.timers)
  {
    ReachableMove(s, q, ReadClock(m));
    var s1 := DoMove(s, q, ReadClock(m));
    MovesAreLocal(s, q, ReadClock(m));
    var arm := ArmTimer(Exit0, s.clock + REVERT_WINDOW);
    ReachableMove(s1, q, arm);
    MovesAreLocal(s1, q, arm);
    s' := DoMove(s1, q, arm);
  }

  lemma BeginAlone(s: State) returns (s': State)
    requires Reachable(s) && s.sets == map[] && s.sh.view.Some? && (s.poll.Idle? || s.poll.Loaded?)
    ensures Reachable(s')
    ensures s' == s.(sh := BeginSet(s.sh, Some(EXIT)),
                     sets := map[s.sh.setSeq + 1 := SetOp(Some(EXIT), None, !s.requireKeep, "", 0, Started, false, false, false)])
  {
    ReachableStep(s, SetBegin(Some(EXIT), None));
    s' := DoSetBegin(s, Some(EXIT), None);
  }

  /** A set to EXIT starts alone, arms its timer and applies with outcome `c`. */
  lemma BeginAndApply(s: State, m: Marker, c: CmdResult) returns (s': State)
    requires Reachable(s) && s.sets == map[] && s.lock.None? && s.sh.view.Some?
    requires m != "" && m !in s.hist.markers && s.poll.Idle? && !c.Lost?
    ensures var q := s.sh.setSeq + 1;
            && Reachable(s') && s'.sets.Keys == {q} && s'.poll.Idle? && s'.keeps == s.keeps
            && s'.clock == s.clock && s'.addr == s.addr && s'.requireKeep == s.requireKeep
            && s'.sh == BeginSet(s.sh, Some(EXIT))
            && s'.hist == s.hist.(markers := s.hist.markers[m := q], failed := if c.Exit0? then s.hist.failed else s.hist.failed + {m})
            && s'.dev.timers == s.dev.timers[m := Timer(s.clock + REVERT_WINDOW, "", true)]
            && s'.dev == s.dev.(timers := s'.dev.timers, sel := if c.Exit0? then EXIT.ip else s.dev.sel)
            && s'.lock == (if c.Exit0? then Some(q) else None)
            && s'.sets[q].target == Some(EXIT) && s'.sets[q].autoKeep == !s.requireKeep
            && s'.sets[q].marker == m && s'.sets[q].armAt == s.clock
            && s'.sets[q].phase == if c.Exit0? then Applying else Returned(CmdFailure(NO_RUNTIME, c, "apply exit-node"))
  {
    var q := s.sh.setSeq + 1;
    var begun := BeginAlone(s);
    var armed := ArmOnly(begun, q, m);
    MovesAreLocal(armed, q, ApplyTarget(c));
    ReachableMove(armed, q, ApplyTarget(c));
    s' := DoMove(armed, q, ApplyTarget(c));
  }

  /** Step 3 of the only set in flight, still the newest, with nothing to disarm. */
  lemma ObserveAndFinish(s: State, q: nat, read: StatusRead) returns (s': State)
    requires Reachable(s) && s.sets.Keys == {q} && s.sets[q].phase.Returned?
    requires s.sh.setSeq == q && s.sh.view.Some? && s.poll.Idle?
    requires s.sh.keep.None? || s.sets[q].phase.res.err.Some?
    ensures Reachable(s') && s'.sets == map[] && s'.poll.Idle? && s'.dev == s.dev && s'.lock == s.lock && s'.keeps == s.keeps
    ensures s'.clock == s.clock && s'.addr == s.addr && s'.requireKeep == s.requireKeep
    ensures s'.hist == s.hist.(published := s.hist.published + [q])
    ensures var op := s.sets[q];
            var res := op.phase.res;
            var reread := if res.err.Some? && res.err.value.command && read.Read? then Some(read.rt) else None;
            s'.sh == FinishSet(s.sh, q, op.target, op.autoKeep, op.armAt, s.clock, res, reread).sh
  {
    ReachableMove(s, q, Observe(read));
    var s1 := DoMove(s, q, Observe(read));
    ReachableStep(s1, SetFinish(q));
    FinishShape(s1, q);
    s' := DoSetFinish(s1, q);
    assert s'.sets == map[];
  }

  /** A deferred change to EXIT that goes through without delay. */
  lemma DeferredSet(s: State, m: Marker) returns (s': State)
    requires Reachable(s) && s.requireKeep && s.sets == map[] && s.lock.None? && s.sh.view.Some? && s.sh.keep.None?
    requires m != "" && m !in s.hist.markers && m !in s.dev.timers && s.poll.Idle?
    ensures Reachable(s') && s'.sets == map[] && s'.lock.None? && s'.poll.Idle? && s'.keeps == s.keeps
    ensures s'.clock == s.clock && s'.addr == s.addr
    ensures s'.sh.keep == Some(KeepEntry(m, s.clock + REVERT_WINDOW, s'.sh.setSeq))
    ensures s'.dev.sel == EXIT.ip && s'.dev.reverted == s.dev.reverted && s'.dev.written == s.dev.written
    ensures s'.dev.timers == s.dev.timers[m := Timer(s.clock + REVERT_WINDOW, "", true)]
    ensures s'.hist.gap == s.hist.gap && s'.hist.failedDisarms == s.hist.failedDisarms
    ensures s'.hist.markers == s.hist.markers[m := s.sh.setSeq + 1]
    ensures m in s'.hist.deadlines && s'.hist.deadlines[m] == s.clock + REVERT_WINDOW && s'.requireKeep == s.requireKeep
    ensures s'.sh.view.Some? && s'.sh.view.value.state == AwaitingKeep && s'.sh.view.value.desired.None?
    ensures s'.hist.failed == s.hist.failed
  {
    var q := s.sh.setSeq + 1;
    var s2 := BeginAndApply(s, m, Exit0);
    var s3 := ConfirmDeferred(s2, q);
    s' := FinishDeferred(s3, q);
  }

  /** A Keep of the active gate, from validation to reconcile. */
  lemma KeepThrough(s: State, id: nat) returns (s': State)
    requires Reachable(s) && id !in s.keeps && s.lock.None? && s.sh.view.Some?
    requires CheckKeep(s.sh, s.clock).Proceed?
    ensures Reachable(s') && s'.sh == FinishKeep(s.sh, s.sh.setSeq) && s'.clock == s.clock && s'.addr == s.addr
    ensures s'.poll == Touch(s.poll) && s'.hist == s.hist
  {
    ReachableStep(s, KeepBegin(id));
    var s1 := DoKeepBegin(s, id);
    ReachableStep(s1, KeepWrite(id, Exit0));
    var s2 := DoKeepWrite(s1, id, Exit0);
    ReachableStep(s2, KeepFinish(id));
    s' := DoKeepFinish(s2, id);
  }

  /** The load gap: a poll of a fallback router loads the awaiting view, a Keep finishes before
      the poll captures generations, and the merge brings the dead gate back. From then on the
      router is shown as awaiting a keep that no Keep can confirm: the entry is gone. */
  lemma LoadGapRevivesTheGate() returns (s: State)
    ensures Reachable(s) && s.hist.gap
    ensures !GateCoherent(s.sh) && s.sh.view.Some? && s.sh.view.value.state == AwaitingKeep
    ensures CheckKeep(s.sh, s.clock) == NothingPending
  {
    ReachableInit("100.64.0.1", true, "");
    var s0 := ListOnce(Init("100.64.0.1", true, ""));
    var s1 := DeferredSet(s0, "m1");
    ReachableStep(s1, PollLoad);
    var s2 := Exec(s1, PollLoad);
    var s3 := KeepThrough(s2, 7);
    s := FinishListing(s3);
  }

  /** One later poll that lists the router, by what the inventory knows of it. */
  datatype Listing = Listing(found: Option<NodeView>, at: Time)

  function AfterListings(sh: Shared, addr: string, listings: seq<Listing>): Shared {
    if listings == [] then sh
    else
      var before := AfterListings(sh, addr, listings[..|listings| - 1]);
      var last := listings[|listings| - 1];
      Merge(before, BuildListedRouterView(addr, last.found, before.view), before.setGen, last.at)
  }

  /** The dead gate outlives any number of listings, up to the first that finds the node offline:
      that one shows it unreachable, and from then on it is never shown again. */
  lemma {:induction false} DeadGateOutlivesPolls(sh: Shared, addr: string, listings: seq<Listing>)
    requires sh.keep.None? && sh.view.Some? && sh.view.value.state == AwaitingKeep
    ensures var out := AfterListings(sh, addr, listings);
            && out.keep.None? && out.view.Some?
            && if forall i :: 0 <= i < |listings| ==> !KnownOffline(listings[i].found)
               then out.view.value.state == AwaitingKeep && !GateCoherent(out)
               else out.view.value.state in {Unreachable, Unprobed}
    decreases |listings|
  {
    if listings != [] {
      var n := |listings| - 1;
      DeadGateOutlivesPolls(sh, addr, listings[..n]);
      assert forall i :: 0 <= i < n ==> listings[..n][i] == listings[i];
      assert (forall i :: 0 <= i < |listings| ==> !KnownOffline(listings[i].found))
        <==> (forall i :: 0 <= i < n ==> !KnownOffline(listings[i].found)) && !KnownOffline(listings[n].found);
    }
  }

  /** A set whose apply fails leaves its armed timer behind with no record of the marker. */
  lemma FailedSet(s: State, m: Marker) returns (s': State)
    requires Reachable(s) && !s.requireKeep && s.sets == map[] && s.lock.None? && s.sh.view.Some? && s.sh.keep.None?
    requires m != "" && m !in s.hist.markers && m !in s.dev.timers && s.poll.Idle?
    ensures Reachable(s') && !s'.requireKeep && s'.sets == map[] && s'.lock.None? && s'.sh.view.Some? && s'.sh.keep.None?
    ensures s'.poll.Idle? && s'.clock == s.clock && s'.hist.markers == s.hist.markers[m := s.sh.setSeq + 1]
    ensures s'.dev == s.dev.(timers := s.dev.timers[m := Timer(s.clock + REVERT_WINDOW, "", true)])
    ensures s'.hist.gap == s.hist.gap && s'.hist.failedDisarms == s.hist.failedDisarms
  {
    var q := s.sh.setSeq + 1;
    var s2 := BeginAndApply(s, m, NonZero);
    s' := ObserveAndFinish(s2, q, Read(ON_DIRECT));
  }

  /** The change is confirmed and its marker written before the router lock is released. */
  lemma ConfirmAndKeep(s: State, q: nat, exit: ExitNodeRef) returns (s': State)
    requires Reachable(s) && q in s.sets && s.sets[q].phase.Applying? && s.lock == Some(q)
    requires s.sets[q].target == Some(exit) && s.sets[q].autoKeep && exit.ip != ""
    ensures Reachable(s') && MoveShape(s, s', q) && s'.lock.None? && s'.hist == s.hist
    ensures s'.sets[q] == s.sets[q].(phase := Returned(ApplyResult(On(exit), "", None)))
    ensures s'.dev == WriteMarker(s.dev, s.sets[q].marker, Exit0)
  {
    var confirm := ConfirmRead(Read(On(exit)));
    ReachableMove(s, q, confirm);
    MovesAreLocal(s, q, confirm);
    var s1 := DoMove(s, q, confirm);
    assert s1.sets[q].phase == Keeping(On(exit));
    ReachableMove(s1, q, KeepInline(Exit0));
    MovesAreLocal(s1, q, KeepInline(Exit0));
    s' := DoMove(s1, q, KeepInline(Exit0));
  }

  /** A set that goes through with its marker written inline. */
  lemma AutoKeptSet(s: State, m: Marker) returns (s': State)
    requires Reachable(s) && !s.requireKeep && s.sets == map[] && s.lock.None? && s.sh.view.Some? && s.sh.keep.None?
    requires m != "" && m !in s.hist.markers && m !in s.dev.timers && s.poll.Idle?
    ensures Reachable(s') && s'.clock == s.clock && s'.sh.view.Some?
    ensures s'.sh.view.value.state == OK && s'.sh.view.value.current == Some(EXIT)
    ensures s'.dev.sel == EXIT.ip && s'.dev.written == s.dev.written + {m}
    ensures forall other :: other in s.dev.timers ==> other in s'.dev.timers && s'.dev.timers[other] == s.dev.timers[other]
    ensures s'.hist.gap == s.hist.gap && s'.hist.failedDisarms == s.hist.failedDisarms
  {
    var q := s.sh.setSeq + 1;
    var s2 := BeginAndApply(s, m, Exit0);
    var s3 := ConfirmAndKeep(s2, q, EXIT);
    s' := ObserveAndFinish(s3, q, Read(On(EXIT)));
  }

  /** Time passes until the timer behind `m` fires, with its marker unwritten. */
  lemma WindowPasses(s: State, m: Marker) returns (s': State)
    requires Reachable(s) && m in s.dev.timers && s.dev.timers[m].asleep && m !in s.dev.written
    ensures Reachable(s') && s'.dev.sel == s.dev.timers[m].prevArg
    ensures s' == s.(dev := s'.dev, clock := s'.clock) && s'.clock > s.dev.timers[m].fireAt
  {
    var to := s.clock + s.dev.timers[m].fireAt + 1;
    ReachableStep(s, Tick(to));
    var s1 := Exec(s, Tick(to));
    ReachableStep(s1, TimerWakes(m));
    s' := Exec(s1, TimerWakes(m));
  }

  /** Why the no-orphan result speaks of confirmed changes only: the timer of a failed apply
      fires over a later, confirmed and kept change. No poll fell into the load gap and no
      disarm failed, yet the snapshot says ok on EXIT while the device has gone back. */
  lemma FailedApplyTimerFiresOverKeptChange() returns (s: State)
    ensures Reachable(s) && !s.hist.gap && s.hist.failedDisarms == {}
    ensures s.sh.view.Some? && s.sh.view.value.state == OK && s.sh.view.value.current == Some(EXIT)
    ensures s.dev.sel == ""
  {
    ReachableInit("100.64.0.1", false, "");
    var init := Init("100.64.0.1", false, "");
    var s0 := ListOnce(init);
    var s1 := FailedSet(s0, "m1");
    var s2 := AutoKeptSet(s1, "m2");
    assert "m1" in s2.dev.timers && s2.dev.timers["m1"] == Timer(1 + REVERT_WINDOW, "", true);
    assert s2.dev.written == {"m2"} && "m1" != "m2";
    s := WindowPasses(s2, "m1");
  }

  /** A started, auto-kept set runs through the router layer without a hitch. */
  lemma RunSet(s: State, q: nat, m: Marker, exit: ExitNodeRef) returns (s': State)
    requires Reachable(s) && q in s.sets && s.sets[q].phase.Started? && s.lock.None?
    requires s.sets[q].target == Some(exit) && s.sets[q].autoKeep && exit.ip != ""
    requires m != "" && m !in s.hist.markers
    ensures Reachable(s') && MoveShape(s, s', q) && s'.lock.None?
    ensures s'.sets[q].phase == Observed(ApplyResult(On(exit), "", None), s.clock, None)
    ensures s'.dev.sel == exit.ip && s'.dev.reverted == s.dev.reverted
    ensures s'.hist == s.hist.(markers := s.hist.markers[m := q])
  {
    var s1 := ArmOnly(s, q, m);
    ReachableMove(s1, q, ApplyTarget(Exit0));
    MovesAreLocal(s1, q, ApplyTarget(Exit0));
    var s2 := DoMove(s1, q, ApplyTarget(Exit0));
    var s3 := ConfirmAndKeep(s2, q, exit);
    ReachableMove(s3, q, Observe(Failed(false, "")));
    MovesAreLocal(s3, q, Observe(Failed(false, "")));
    s' := DoMove(s3, q, Observe(Failed(false, "")));
  }

  /** Its step 3: published if it is still the newest, discarded otherwise. */
  lemma FinishAutoKept(s: State, q: nat, exit: ExitNodeRef) returns (s': State)
    requires Reachable(s) && q in s.sets && s.sets[q].autoKeep && s.sh.view.Some? && s.sh.keep.None?
    requires s.sets[q].phase.Observed? && s.sets[q].phase.res == ApplyResult(On(exit), "", None)
    ensures Reachable(s') && s'.sets == s.sets - {q} && s'.dev == s.dev && s'.lock == s.lock
    ensures s'.hist == s.hist.(published := s'.hist.published)
    ensures s'.sh.setSeq == s.sh.setSeq && s'.sh.keep.None? && s'.sh.view.Some?
    ensures if s.sh.setSeq == q then s'.sh.view.value.state == OK && s'.sh.view.value.current == Some(exit)
            else s'.sh.view == s.sh.view
  {
    ReachableStep(s, SetFinish(q));
    FinishShape(s, q);
    s' := DoSetFinish(s, q);
  }

  lemma StartTwo(s: State) returns (s': State)
    requires Reachable(s) && s.sets == map[] && s.sh.view.Some? && s.sh.setSeq == 0 && !s.requireKeep
    ensures Reachable(s') && s'.sets.Keys == {1, 2} && s'.sh.setSeq == 2 && s'.sh.view.Some? && s'.sh.keep == s.sh.keep
    ensures s'.sets[1] == SetOp(Some(OTHER), None, true, "", 0, Started, false, false, false)
    ensures s'.sets[2] == SetOp(Some(EXIT), None, true, "", 0, Started, false, false, false)
    ensures s'.lock == s.lock && s'.hist == s.hist
  {
    ReachableStep(s, SetBegin(Some(OTHER), None));
    var s1 := DoSetBegin(s, Some(OTHER), None);
    ReachableStep(s1, SetBegin(Some(EXIT), None));
    s' := DoSetBegin(s1, Some(EXIT), None);
  }

  /** Publication follows step-1 order but the device follows router-lock order. Two sets, every
      command a success: the second to start reaches the router first and publishes ok on EXIT;
      then the first one's apply runs, and its reconcile is discarded. With nothing in flight
      the snapshot says ok on EXIT while the device is on OTHER. */
  lemma OvertakenApplyMovesTheDevice() returns (s: State)
    ensures Reachable(s) && !s.hist.gap && s.hist.failedDisarms == {} && s.sets == map[]
    ensures s.sh.view.Some? && s.sh.view.value.state == OK && s.sh.view.value.current == Some(EXIT)
    ensures s.dev.sel == OTHER.ip
  {
    ReachableInit("100.64.0.1", false, "");
    var s0 := ListOnce(Init("100.64.0.1", false, ""));
    var s1 := StartTwo(s0);
    var s2 := RunSet(s1, 2, "m2", EXIT);
    var s3 := FinishAutoKept(s2, 2, EXIT);
    assert s3.sets[1] == s1.sets[1];
    assert "m1" != "m2";
    var s4 := RunSet(s3, 1, "m1", OTHER);
    s := FinishAutoKept(s4, 1, OTHER);
    assert s.sets == map[];
  }

  /** A gate that runs out while a Keep is under way. The Keep passes its check and its marker
      lands in time; before it reconciles, the deadline passes and a second Keep drops the gate
      and forgets the selection; the first one then turns that to ok. The router is shown as ok
      without an exit node while the device is, for good, on EXIT. */
  lemma LateKeepShowsOkOnNothing() returns (s: State)
    ensures Reachable(s) && !s.hist.gap && s.sets == map[] && s.keeps == map[] && s.dev.reverted == {}
    ensures s.sh.view.Some? && s.sh.view.value.state == OK && s.sh.view.value.current.None?
    ensures s.dev.sel == EXIT.ip
  {
    ReachableInit("100.64.0.1", true, "");
    var s0 := ListOnce(Init("100.64.0.1", true, ""));
    var s1 := DeferredSet(s0, "m1");
    ReachableStep(s1, KeepBegin(7));
    var s2 := DoKeepBegin(s1, 7);
    ReachableStep(s2, KeepWrite(7, Exit0));
    var s3 := DoKeepWrite(s2, 7, Exit0);
    s := SecondKeepDropsGate(s3, 7, 8);
  }

  /** The deadline passes, Keep `late` drops the gate, and Keep `early` reconciles. */
  lemma SecondKeepDropsGate(s: State, early: nat, late: nat) returns (s': State)
    requires Reachable(s) && s.sh.keep.Some? && s.sh.view.Some? && s.sh.view.value.state == AwaitingKeep
    requires s.keeps.Keys == {early} && early != late && s.keeps[early] == KeepOp(s.keeps[early].marker, s.sh.setSeq, true)
    requires s.sets == map[]
    ensures Reachable(s') && s'.hist == s.hist && s'.dev == s.dev && s'.sets == map[] && s'.keeps == map[]
    ensures s'.sh.view.Some? && s'.sh.view.value.state == OK && s'.sh.view.value.current.None?
  {
    var to := s.clock + s.sh.keep.value.revertAt + 1;
    ReachableStep(s, Tick(to));
    var s1 := Exec(s, Tick(to));
    ReachableStep(s1, KeepBegin(late));
    var s2 := DoKeepBegin(s1, late);
    ReachableStep(s2, KeepFinish(early));
    s' := DoKeepFinish(s2, early);
    assert s'.keeps == map[];
  }

  /** A failed set strands an older gate. Set 1 is deferred and awaits its Keep; set 2's apply
      exits non-zero, which leaves set 1's entry in place behind a newer number. First the router
      is shown as ok with set 1's timer live (`ok`); the next listing shows it as awaiting a keep
      again, before its deadline, and every Keep is refused until the device has reverted. */
  lemma FailedSetStrandsTheGate() returns (ok: State, s: State)
    ensures Reachable(ok) && !ok.hist.gap && ok.sets == map[] && ok.hist.failedDisarms == {} && Unexpired(ok, "m1")
    ensures ok.sh.view.Some? && ok.sh.view.value.state == OK
    ensures Reachable(s) && !s.hist.gap && s.sets == map[] && s.hist.failedDisarms == {} && Unexpired(s, "m1")
    ensures s.sh.view.Some? && s.sh.view.value.state == AwaitingKeep && s.clock <= s.sh.view.value.revertAt
    ensures CheckKeep(s.sh, s.clock) == NewerSet
  {
    ReachableInit("100.64.0.1", true, "");
    var s0 := ListOnce(Init("100.64.0.1", true, ""));
    var s1 := DeferredSet(s0, "m1");
    assert "m2" !in s1.hist.markers;
    var q := s1.sh.setSeq + 1;
    var s2 := BeginAndApply(s1, "m2", NonZero);
    ok := ObserveAndFinish(s2, q, Read(On(EXIT)));
    s := RelistGate(ok);
  }

  /** A listing overlays a live gate, reachable as the view is, whoever owns the newest set. */
  lemma RelistGate(s: State) returns (s': State)
    requires Reachable(s) && s.poll.Idle? && s.sh.view.Some? && s.sh.view.value.state == OK && s.sh.view.value.reachable
    requires s.sh.keep.Some? && s.clock <= s.sh.keep.value.revertAt && s.sets == map[]
    ensures Reachable(s') && s'.hist == s.hist && s'.sets == map[] && s'.dev == s.dev && s'.clock == s.clock
    ensures s'.sh == s.sh.(view := s'.sh.view)
    ensures s'.sh.view.Some? && s'.sh.view.value.state == AwaitingKeep && s'.sh.view.value.revertAt == s.sh.keep.value.revertAt
  {
    ReachableStep(s, PollLoad);
    s' := FinishListing(Exec(s, PollLoad));
  }

  /** A started, deferred set runs through the router layer without a hitch. */
  lemma RunDeferred(s: State, q: nat, m: Marker) returns (s': State)
    requires Reachable(s) && q in s.sets && s.sets[q].phase.Started? && s.lock.None?
    requires s.sets[q].target == Some(EXIT) && !s.sets[q].autoKeep
    requires m != "" && m !in s.hist.markers
    ensures Reachable(s') && MoveShape(s, s', q) && s'.lock.None?
    ensures s'.sets[q].armAt == s.clock
    ensures s'.sets[q].phase == Observed(ApplyResult(On(EXIT), m, None), s.clock, None)
  {
    var s1 := ArmOnly(s, q, m);
    ReachableMove(s1, q, ApplyTarget(Exit0));
    MovesAreLocal(s1, q, ApplyTarget(Exit0));
    var s2 := DoMove(s1, q, ApplyTarget(Exit0));
    s' := ConfirmDeferred(s2, q);
  }

  lemma ConfirmDeferred(s: State, q: nat) returns (s': State)
    requires Reachable(s) && q in s.sets && s.sets[q].phase.Applying? && s.lock == Some(q)
    requires s.sets[q].target == Some(EXIT) && !s.sets[q].autoKeep
    ensures Reachable(s') && MoveShape(s, s', q) && s'.lock.None?
    ensures s'.sets[q] == s.sets[q].(phase := Observed(ApplyResult(On(EXIT), s.sets[q].marker, None), s.clock, None))
    ensures s'.dev == s.dev
    ensures s'.hist == s.hist.(deadlines := s.hist.deadlines[s.sets[q].marker := s.sets[q].armAt + REVERT_WINDOW])
  {
    var confirm := ConfirmRead(Read(On(EXIT)));
    ReachableMove(s, q, confirm);
    MovesAreLocal(s, q, confirm);
    var s1 := DoMove(s, q, confirm);
    assert s1.sets[q].phase == Returned(ApplyResult(On(EXIT), s.sets[q].marker, None));
    ReachableMove(s1, q, Observe(Failed(false, "")));
    MovesAreLocal(s1, q, Observe(Failed(false, "")));
    s' := DoMove(s1, q, Observe(Failed(false, "")));
  }

  /** The load gap lets ok hide an intent. A poll of a fallback router loads the pending view;
      the set confirms before the poll captures generations; the merge publishes the pending
      view, unreachable as it is, under the live gate; and the Keep of that gate turns it to ok,
      intent and all. */
  lemma LoadGapUnsettlesOk() returns (s: State)
    ensures Reachable(s) && s.hist.gap && !OkIsSettled(s.sh)
  {
    var s0 := ListFresh();
    var s1 := LoadPending(s0);
    var s2 := RunDeferred(s1, 1, "m1");
    var s3 := FinishDeferred(s2, 1);
    var s4 := FinishListing(s3);
    assert s4.sh.view == Some(BuildListedRouterView(s3.addr, Some(NODE), s3.poll.prev));
    s := KeepThrough(s4, 7);
  }

  /** A set begins, and a poll loads what that shows. */
  lemma LoadPending(s: State) returns (s': State)
    requires Reachable(s) && s.poll.Idle? && s.sets == map[] && s.requireKeep
    requires s.sh.setSeq == 0 && s.sh.view.Some? && !s.sh.view.value.reachable && s.sh.keep.None?
    ensures Reachable(s') && s'.keeps == s.keeps && s'.lock == s.lock && s'.hist == s.hist && s'.sets.Keys == {1}
    ensures s'.sets[1] == SetOp(Some(EXIT), None, false, "", 0, Started, false, false, false)
    ensures s'.sh == BeginSet(s.sh, Some(EXIT))
    ensures s'.poll == Loaded(Some(ShowIntent(s.sh.view.value, Some(EXIT))), s.sh.setGen + 1)
  {
    var s1 := BeginAlone(s);
    ReachableStep(s1, PollLoad);
    s' := Exec(s1, PollLoad);
  }

  /** A never dialed router, listed once: shown, not reached. */
  lemma ListFresh() returns (s: State)
    ensures Reachable(s) && s.poll.Idle? && s.sets == map[] && s.keeps == map[] && s.lock.None? && s.requireKeep
    ensures s.sh.setSeq == 0 && s.sh.keep.None? && s.sh.view.Some? && !s.sh.view.value.reachable
    ensures s.hist == History([], map[], {}, map[], {}, false) && s.probes == map[] && s.sh.view.value.desired.None?
    ensures s.dev == Device("", map[], {}, {})
  {
    ReachableInit("100.64.0.1", true, "");
    var s0 := Init("100.64.0.1", true, "");
    ReachableStep(s0, PollLoad);
    s := FinishListing(Exec(s0, PollLoad));
  }

  lemma FinishDeferred(s: State, q: nat) returns (s': State)
    requires Reachable(s) && s.sets.Keys == {q} && !s.sets[q].autoKeep && s.sh.setSeq == q && s.sh.view.Some? && s.sh.keep.None?
    requires s.sets[q].phase.Observed? && s.sets[q].phase.res.err.None? && s.sets[q].armAt == s.clock
    ensures Reachable(s') && s'.sets == map[] && s'.keeps == s.keeps && s'.lock == s.lock && s'.poll == Touch(s.poll)
    ensures s'.clock == s.clock && s'.addr == s.addr
    ensures s'.sh.setSeq == q && s'.sh.setGen == s.sh.setGen + 1 && s'.sh.view.Some?
    ensures s'.sh.keep == Some(KeepEntry(s.sets[q].phase.res.marker, s.clock + REVERT_WINDOW, q))
    ensures s'.sh.view.value.state == AwaitingKeep && s'.sh.view.value.desired.None? && s'.requireKeep == s.requireKeep
    ensures s'.dev == s.dev && s'.hist == s.hist.(published := s'.hist.published)
  {
    ReachableStep(s, SetFinish(q));
    FinishShape(s, q);
    s' := DoSetFinish(s, q);
    assert s'.sets == map[];
  }

  /** Why an orderly run keeps the router listed. A set is in flight; one poll drops the router,
      the next lists and dials it anew; before that poll merges, the set moves the device and
      reconciles, unpublished because the router is absent. The merge sees a changed generation
      but no current view to keep, and publishes its old read: ok, with the device elsewhere. */
  lemma RelistedReadIsStale() returns (s: State)
    ensures Reachable(s) && !s.hist.gap && s.sets == map[] && s.dev.reverted == {}
    ensures s.sh.view.Some? && s.sh.view.value.state == OK && s.sh.view.value.current.None?
    ensures s.dev.sel == EXIT.ip
  {
    ReachableInit("100.64.0.1", false, "");
    var s0 := ListOnce(Init("100.64.0.1", false, ""));
    var s1 := BeginAlone(s0);
    var s2 := DropAndRedial(s1);
    var s3 := RunSet(s2, 1, "m1", EXIT);
    s := FinishUnlisted(s3, 1);
  }

  lemma DropAndRedial(s: State) returns (s': State)
    requires Reachable(s) && s.poll.Idle? && s.lock.None? && s.sets.Keys == {1} && Unfinished(s.sets[1])
    ensures Reachable(s') && s'.sh == s.sh.(view := None) && s'.dev == s.dev && s'.lock == s.lock && s'.clock == s.clock
    ensures s'.hist == s.hist && s'.addr == s.addr
    ensures s'.sets.Keys == {1} && s'.sets[1] == s.sets[1].(sawTarget := s'.sets[1].sawTarget, dropped := true)
    ensures s'.poll == Dialed(None, Managed(Some(NODE), Read(ON_DIRECT), s.clock), s.sh.setGen, false)
  {
    var dropped := DropRouter(s);
    s' := DialManaged(dropped, ON_DIRECT);
  }

  lemma DropRouter(s: State) returns (s': State)
    requires Reachable(s) && s.poll.Idle?
    ensures Reachable(s') && s' == s.(sh := s.sh.(view := None), sets := NoteDropped(s.sets))
  {
    ReachableStep(s, PollLoad);
    var s1 := Exec(s, PollLoad);
    ReachableStep(s1, PollDrop);
    s' := Exec(s1, PollDrop);
  }

  lemma DialManaged(s: State, rt: Runtime) returns (s': State)
    requires Reachable(s) && s.poll.Idle? && s.lock.None?
    ensures Reachable(s')
    ensures s' == s.(poll := Dialed(s.sh.view, Managed(Some(NODE), Read(rt), s.clock), s.sh.setGen, false),
                     sets := NoteRead(s.sets, rt.current))
  {
    ReachableStep(s, PollLoad);
    var s1 := Exec(s, PollLoad);
    ReachableStep(s1, PollCapture);
    var s2 := Exec(s1, PollCapture);
    assert s2 == s.(poll := Captured(s.sh.view, s.sh.setGen, false));
    var input := Managed(Some(NODE), Read(rt), s.clock);
    ReachableStep(s2, PollDial(input));
    s' := DoPollDial(s2, input);
  }

  lemma FinishUnlisted(s: State, q: nat) returns (s': State)
    requires Reachable(s) && s.sets.Keys == {q} && s.sh.view.None? && s.sh.keep.None?
    requires s.sets[q].phase.Observed? && s.sets[q].phase.res.marker == ""
    requires s.poll == Dialed(None, Managed(Some(NODE), Read(ON_DIRECT), s.clock), s.sh.setGen, false)
    ensures Reachable(s') && s'.sets == map[] && s'.dev == s.dev && s'.hist == s.hist
    ensures s'.sh.view.Some? && s'.sh.view.value.state == OK && s'.sh.view.value.current.None?
  {
    ReachableStep(s, SetFinish(q));
    FinishShape(s, q);
    var s1 := DoSetFinish(s, q);
    assert s1.sets == map[];
    ReachableStep(s1, PollMerge);
    s' := Exec(s1, PollMerge);
  }

  /** The router answers a probe with what it is on: a listed router turns ok. */
  lemma ProbeToOk(s: State, rt: Runtime) returns (s': State)
    requires Reachable(s) && s.probes == map[] && s.lock.None? && s.sh.keep.None? && s.sh.view.Some? && s.poll.Idle?
    requires s.sh.view.value.desired.None? && s.sets == map[]
    ensures Reachable(s') && s'.probes == map[] && s' == s.(sh := s'.sh)
    ensures s'.sh == Bump(s.sh).(view := s'.sh.view)
    ensures s'.sh.view.Some? && s'.sh.view.value.state == OK && s'.sh.view.value.current == rt.current && s'.sh.view.value.desired.None?
  {
    var s1 := ProbeAnswered(s, rt);
    ReachableStep(s1, ProbeFinish(1));
    s' := DoProbeFinish(s1, 1);
    assert s'.probes == map[];
  }

  lemma ProbeAnswered(s: State, rt: Runtime) returns (s': State)
    requires Reachable(s) && s.probes == map[] && s.lock.None? && s.sh.keep.None? && s.sets == map[]
    ensures Reachable(s') && s' == s.(probes := map[1 := ProbeOp(s.sh.setGen, Some(rt))])
  {
    ReachableStep(s, ProbeBegin(1));
    var s1 := Exec(s, ProbeBegin(1));
    ReachableStep(s1, ProbeRead(1, Read(rt)));
    s' := DoProbeRead(s1, 1, Read(rt));
    assert s'.sets == map[];
  }

  /** The load gap hides a set in flight. A poll of a fallback router loads an ok view; a set
      begins before the poll captures generations; the merge publishes the ok view. The router is
      shown as ok, with no intent, while the set is still on its way. */
  lemma LoadGapHidesTheIntent() returns (s: State)
    ensures Reachable(s) && s.hist.gap && s.sh.setSeq in s.sets
    ensures var op := s.sets[s.sh.setSeq];
            Unfinished(op) && op.target.Some? && !op.sawTarget && !op.gateElapsed && !op.dropped
    ensures s.sh.view.Some? && s.sh.view.value.state == OK && s.sh.view.value.desired.None?
  {
    var s0 := ListFresh();
    var s1 := ProbeToOk(s0, ON_DIRECT);
    ReachableStep(s1, PollLoad);
    var s2 := Exec(s1, PollLoad);
    var s3 := BeginAlone(s2);
    s := FinishListing(s3);
  }

  /** A stale dial confirms a change that has just been undone. A managed poll reads the target of
      an awaiting gate; the timer fires; the poll merges after the deadline, drops the entry, and
      publishes its read: ok on EXIT, with the device back where it was. No publish came between
      the read and the merge, so no generation moved. */
  lemma StaleDialConfirmsARevert() returns (s: State)
    ensures Reachable(s) && !s.hist.gap && s.hist.failedDisarms == {} && s.hist.failed == {}
    ensures s.sets == map[] && s.keeps == map[] && s.sh.keep.None?
    ensures s.sh.view.Some? && s.sh.view.value.state == OK && s.sh.view.value.current == Some(EXIT)
    ensures s.dev.sel == ""
  {
    var s0 := ListFresh();
    var s1 := DeferredSet(s0, "m1");
    var s2 := DialManaged(s1, On(EXIT));
    assert s2.sets == map[];
    var s3 := WindowPasses(s2, "m1");
    s := MergeStale(s3);
  }

  lemma MergeStale(s: State) returns (s': State)
    requires Reachable(s) && s.sets == map[] && s.sh.keep.Some? && s.clock > s.sh.keep.value.revertAt
    requires s.poll.Dialed? && s.poll.genAt == s.sh.setGen && s.poll.prev.Some? && s.poll.prev.value.desired.None?
    requires s.poll.input.Managed? && s.poll.input.found == Some(NODE) && s.poll.input.read == Read(On(EXIT))
    ensures Reachable(s') && s'.sets == map[] && s'.keeps == s.keeps && s'.hist == s.hist && s'.dev == s.dev && s'.sh.keep.None?
    ensures s'.sh.view.Some? && s'.sh.view.value.state == OK && s'.sh.view.value.current == Some(EXIT)
  {
    ReachableStep(s, PollMerge);
    s' := DoPollMerge(s);
    assert s'.sets == map[];
  }
}
