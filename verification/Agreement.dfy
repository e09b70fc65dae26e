/** What "ok" is worth. In an orderly run, once the newest set has reconciled, a router shown
    as ok really is on the exit node shown; and from any state whatever, one truthful poll or
    probe starts such a run. A run stays orderly while timers revert, gates run out, the selection
    is changed from elsewhere and the router comes and goes, as long as nothing shown or pending
    still depends on what is lost; for the device's own steps that condition is exact.
    `Witnesses` shows runs that break it in each way. */
module Agreement {
  import Honesty
  import Machines
  import opened Types
  import opened Views
  import opened RouterClient
  import opened Sections
  import opened Protocol
  import opened Supersede
  import opened Gate

  // ---- Orderly runs -----------------------------------------------------------------------

  /** The selection is what the device is on. */
  predicate Matches(current: Option<ExitNodeRef>, dev: Device) {
    ExitArg(current) == dev.sel
  }

  predicate Truthful(read: StatusRead, dev: Device) {
    read.Read? ==> Matches(read.rt.current, dev)
  }

  /** The dial really reads the device. */
  predicate ReadsDevice(input: DialInput) {
    input.Managed? && !KnownOffline(input.found) && input.read.Read?
  }

  /** The router layer is done with this set: it can no longer change the device. */
  predicate PastRouter(op: SetOp) {
    op.phase.Returned? || op.phase.Observed? || op.phase.Disarming?
  }

  predicate OldersPast(s: State, mySeq: nat) {
    forall q :: q in s.sets && q < mySeq ==> PastRouter(s.sets[q])
  }

  /** Sets pass the router layer in the order in which they began. */
  predicate InOrder(s: State, mySeq: nat, move: Move) {
    move.ArmTimer? || move.RefuseArgs? ==> OldersPast(s, mySeq)
  }

  /** The newest set ever started has reconciled, or there was none. */
  predicate Done(s: State) {
    s.sh.setSeq in s.sets ==> s.sets[s.sh.setSeq].phase.Disarming?
  }

  predicate GateElapsed(s: State) {
    s.sh.keep.Some? && s.clock > s.sh.keep.value.revertAt
  }

  /** The newest set holds something it read from the device. */
  predicate SetClaims(op: SetOp) {
    match op.phase
    case Keeping(_) => true
    case Returned(res) => res.err.None?
    case Observed(res, _, reread) => res.err.None? || reread.Some?
    case _ => false
  }

  /** A poll or probe holds a device read that the merge would still take. */
  predicate PollClaims(s: State) {
    s.poll.Dialed? && (s.poll.genAt == s.sh.setGen || s.sh.view.None?) && ReadsDevice(s.poll.input)
  }

  predicate ProbeClaims(s: State, id: nat)
    requires id in s.probes
  {
    s.probes[id].rt.Some? && s.probes[id].genAt == s.sh.setGen
  }

  /** The gate of the newest set can still be kept. */
  predicate GateOpen(s: State) {
    s.sh.keep.Some? && s.sh.keep.value.setSeq == s.sh.setSeq && s.clock <= s.sh.keep.value.revertAt
  }

  /** A Keep of the newest set is under way. */
  predicate KeepUnderWay(s: State) {
    exists id :: id in s.keeps && s.keeps[id].mySeq == s.sh.setSeq
  }

  predicate ShowsOk(s: State) {
    s.sh.view.Some? && s.sh.view.value.state == OK
  }

  /** Nothing shown, pending or in flight rests on what the device is on. */
  predicate Unclaimed(s: State) {
    && (s.sh.setSeq in s.sets ==> !SetClaims(s.sets[s.sh.setSeq]))
    && (Done(s) ==>
          && !PollClaims(s) && (forall id :: id in s.probes ==> !ProbeClaims(s, id))
          && (s.sh.view.Some? ==> !GateOpen(s) && !KeepUnderWay(s))
          && !ShowsOk(s))
  }

  /** The selection may be forgotten: no Keep is about to turn it to ok, or it is "none" anyway. */
  predicate Forgettable(s: State) {
    KeepUnderWay(s) ==> s.dev.sel == ""
  }

  /** Reads tell the truth, sets pass in order, and no poll captures generations after a change
      it did not load. A timer reverts, or something else moves the selection, only while nothing
      rests on it; a gate is dropped, and the router taken off the list, only while no Keep of it
      is under way (and, for the list, no set and no gate). */
  predicate Orderly(s: State, step: Step) {
    match step
    case SetMove(q, move) =>
      && InOrder(s, q, move)
      && (move.ConfirmRead? || move.Observe? ==> Truthful(move.read, s.dev))
    case ProbeRead(_, read) => Truthful(read, s.dev)
    case PollDial(input) => ReadsDevice(input) ==> Truthful(input.read, s.dev)
    case KeepBegin(_) => GateElapsed(s) ==> Forgettable(s)
    case PollCapture => s.poll.Loaded? ==> s.poll.genAtLoad == s.sh.setGen
    case PollMerge => GateElapsed(s) ==> Forgettable(s)
    case TimerWakes(m) => Wake(s.dev, m).sel == s.dev.sel || Unclaimed(s)
    case Drift(sel) => sel == s.dev.sel || Unclaimed(s)
    case PollDrop => s.sets == map[] && !GateOpen(s) && !KeepUnderWay(s)
    case _ => true
  }

  function OrderlyNext(s: State, step: Step): Option<State> {
    if Enabled(s, step) && Orderly(s, step) then Some(Exec(s, step)) else None
  }

  ghost predicate OrderlyRun(s: State, steps: seq<Step>, s': State) {
    Machines.Runs(OrderlyNext, s, steps, s')
  }

  // ---- The invariant ----------------------------------------------------------------------

  predicate NewestPassed(s: State) {
    s.sh.setSeq in s.sets ==> !s.sets[s.sh.setSeq].phase.Started? && !s.sets[s.sh.setSeq].phase.Clocked?
  }

  predicate UnlistedIsIdle(s: State) {
    s.sh.view.None? ==> s.sets == map[] && !GateOpen(s) && !KeepUnderWay(s)
  }

  predicate SetAgrees(op: SetOp, dev: Device) {
    match op.phase
    case Keeping(rt) => Matches(rt.current, dev)
    case Returned(res) => res.err.None? ==> Matches(res.rt.current, dev)
    case Observed(res, _, reread) =>
      (res.err.None? ==> Matches(res.rt.current, dev)) && (reread.Some? ==> Matches(reread.value.current, dev))
    case _ => true
  }

  predicate SetsAgree(s: State) {
    && (NewestPassed(s) ==> OldersPast(s, s.sh.setSeq))
    && (s.sh.setSeq in s.sets ==> SetAgrees(s.sets[s.sh.setSeq], s.dev))
  }

  /** A read still to be merged. */
  predicate ReadsAgree(s: State) {
    && (PollClaims(s) ==> Matches(s.poll.input.read.rt.current, s.dev))
    && (forall id :: id in s.probes && ProbeClaims(s, id) ==> Matches(s.probes[id].rt.value.current, s.dev))
  }

  /** A Keep of the newest set may still turn the view to ok. */
  predicate KeepAgrees(s: State) {
    s.sh.view.Some? && (GateOpen(s) || KeepUnderWay(s)) ==> Matches(s.sh.view.value.current, s.dev)
  }

  predicate ViewAgrees(s: State) {
    ShowsOk(s) ==> Matches(s.sh.view.value.current, s.dev)
  }

  predicate Agrees(s: State) {
    && UnlistedIsIdle(s) && ProbesBehind(s) && PollCurrent(s) && SetsAgree(s)
    && (Done(s) ==> ReadsAgree(s) && KeepAgrees(s) && ViewAgrees(s))
  }

  // ---- Steps ------------------------------------------------------------------------------

  /** A set that begins makes no claim yet, and its bump outdates every pending read. */
  lemma BeginListedKeepsAgreement(s: State, target: Option<ExitNodeRef>, prev: Option<ExitNodeRef>)
    requires Gated(s) && Agrees(s) && s.sh.view.Some?
    ensures Agrees(DoSetBegin(s, target, prev))
  {
    var s' := DoSetBegin(s, target, prev);
    BumpOutdatesPoll(s, s');
    assert s'.sets[s'.sh.setSeq].phase.Started? && s'.probes == s.probes;
  }

  /** On an unlisted router it only draws a number. */
  lemma BeginUnlistedKeepsAgreement(s: State, target: Option<ExitNodeRef>, prev: Option<ExitNodeRef>)
    requires Gated(s) && Agrees(s) && s.sh.view.None?
    ensures Agrees(DoSetBegin(s, target, prev))
  {
    NumbersAreBehind(s);
    var s' := DoSetBegin(s, target, prev);
    BumpOutdatesPoll(s, s');
    assert s' == s.(sh := BeginSet(s.sh, target));
  }

  lemma BeginKeepsAgreement(s: State, target: Option<ExitNodeRef>, prev: Option<ExitNodeRef>)
    requires Gated(s) && Agrees(s)
    ensures Agrees(DoSetBegin(s, target, prev))
  {
    if s.sh.view.Some? {
      BeginListedKeepsAgreement(s, target, prev);
    } else {
      BeginUnlistedKeepsAgreement(s, target, prev);
    }
  }

  /** Before the newest set has passed there is nothing to agree on; afterwards an older set has
      only its re-read left. */
  lemma OlderMoveKeepsAgreement(s: State, q: nat, move: Move)
    requires Gated(s) && Agrees(s) && q in s.sets && CanMove(s, q, move) && q != s.sh.setSeq
    ensures Agrees(DoMove(s, q, move))
  {
    MovesAreLocal(s, q, move);
    if NewestPassed(s) {
      assert PastRouter(s.sets[q]);
      assert DoMove(s, q, move).dev == s.dev;
    }
  }

  lemma NewestStaysInOrder(s: State, q: nat, move: Move)
    requires Agrees(s) && q in s.sets && CanMove(s, q, move) && q == s.sh.setSeq && InOrder(s, q, move)
    ensures NewestPassed(DoMove(s, q, move)) ==> OldersPast(DoMove(s, q, move), q)
  {
    MovesAreLocal(s, q, move);
    var s' := DoMove(s, q, move);
    assert forall p :: p in s'.sets && p != q ==> p in s.sets && s'.sets[p] == s.sets[p];
  }

  lemma ConfirmAgrees(s: State, q: nat, read: StatusRead)
    requires q in s.sets && CanMove(s, q, ConfirmRead(read)) && Truthful(read, s.dev)
    ensures var s' := DoSetConfirm(s, q, read); s'.dev == s.dev && SetAgrees(s'.sets[q], s.dev)
  {
    var s' := DoSetConfirm(s, q, read);
    if ConfirmVerdict(read, ExitArg(s.sets[q].target)).None? {
      assert s'.sets[q].phase == if s.sets[q].autoKeep then Keeping(read.rt)
                                 else Returned(ApplyResult(read.rt, s.sets[q].marker, None));
    }
  }

  lemma ObserveAgrees(s: State, q: nat, read: StatusRead)
    requires q in s.sets && CanMove(s, q, Observe(read)) && Truthful(read, s.dev) && SetAgrees(s.sets[q], s.dev)
    ensures SetAgrees(DoSetObserve(s, q, read).sets[q], s.dev)
  {
  }

  lemma KeepInlineAgrees(s: State, q: nat, c: CmdResult)
    requires q in s.sets && CanMove(s, q, KeepInline(c)) && SetAgrees(s.sets[q], s.dev)
    ensures var s' := DoSetKeep(s, q, c); s'.dev.sel == s.dev.sel && SetAgrees(s'.sets[q], s'.dev)
  {
    assert DoSetKeep(s, q, c).sets[q].phase == Returned(KeepVerdict(s.sets[q].phase.rt, c));
  }

  lemma ArmAgrees(s: State, q: nat, c: CmdResult, fireAt: Time)
    requires q in s.sets && CanMove(s, q, ArmTimer(c, fireAt))
    ensures var s' := DoSetArm(s, q, c, fireAt); SetAgrees(s'.sets[q], s'.dev)
  {
  }

  lemma ApplyAgrees(s: State, q: nat, c: CmdResult)
    requires q in s.sets && CanMove(s, q, ApplyTarget(c))
    ensures var s' := DoSetApply(s, q, c); SetAgrees(s'.sets[q], s'.dev)
  {
  }

  lemma NewestMoveAgrees(s: State, q: nat, move: Move)
    requires q in s.sets && CanMove(s, q, move) && SetAgrees(s.sets[q], s.dev) && Orderly(s, SetMove(q, move))
    ensures SetAgrees(DoMove(s, q, move).sets[q], DoMove(s, q, move).dev)
  {
    match move
    case ConfirmRead(read) => ConfirmAgrees(s, q, read);
    case KeepInline(c) => KeepInlineAgrees(s, q, c);
    case Observe(read) => ObserveAgrees(s, q, read);
    case ArmTimer(c, fireAt) => ArmAgrees(s, q, c, fireAt);
    case ApplyTarget(c) => ApplyAgrees(s, q, c);
    case _ =>
  }

  lemma NewestMoveKeepsAgreement(s: State, q: nat, move: Move)
    requires Gated(s) && Agrees(s) && q in s.sets && CanMove(s, q, move) && q == s.sh.setSeq
    requires Orderly(s, SetMove(q, move))
    ensures Agrees(DoMove(s, q, move))
  {
    MovesAreLocal(s, q, move);
    NewestStaysInOrder(s, q, move);
    NewestMoveAgrees(s, q, move);
  }

  /** An overtaken set publishes nothing; its bump outdates every pending read. */
  lemma OvertakenFinishAgrees(s: State, q: nat)
    requires Gated(s) && Agrees(s) && q in s.sets && s.sets[q].phase.Observed? && q != s.sh.setSeq
    ensures Agrees(DoSetFinish(s, q))
  {
    FinishShape(s, q);
    var s' := DoSetFinish(s, q);
    assert s'.sh == Bump(s.sh);
    BumpOutdatesPoll(s, s');
  }

  lemma ReconciledMatches(rv: RouterView, op: SetOp, dev: Device)
    requires op.phase.Observed? && SetAgrees(op, dev)
    ensures var v := Reconciled(rv, op.target, op.autoKeep, op.armAt, op.phase.now, op.phase.res, op.phase.reread);
            v.state == OK || op.phase.res.err.None? ==> Matches(v.current, dev)
  {
  }

  /** The newest set publishes what it read, and leaves no gate but its own. */
  lemma NewestFinishAgrees(s: State, q: nat)
    requires Gated(s) && Agrees(s) && q in s.sets && s.sets[q].phase.Observed? && q == s.sh.setSeq
    ensures Agrees(DoSetFinish(s, q))
  {
    FinishShape(s, q);
    var s' := DoSetFinish(s, q);
    BumpOutdatesPoll(s, s');
    ReconciledMatches(s.sh.view.value, s.sets[q], s.dev);
    assert q !in s.hist.published;
    assert s'.dev == s.dev && s'.probes == s.probes && s'.keeps == s.keeps;
    assert s'.sh.view.value.state == OK || s'.sh.keep != s.sh.keep ==> Matches(s'.sh.view.value.current, s.dev);
  }

  lemma FinishKeepsAgreement(s: State, q: nat)
    requires Gated(s) && Agrees(s) && q in s.sets && s.sets[q].phase.Observed?
    ensures Agrees(DoSetFinish(s, q))
  {
    if q == s.sh.setSeq {
      NewestFinishAgrees(s, q);
    } else {
      OvertakenFinishAgrees(s, q);
    }
  }

  /** Steps that leave the selection, the shared state and every pending read alone. */
  lemma UnseenKeepsAgreement(s: State, s': State)
    requires Agrees(s)
    requires s'.sh == s.sh && s'.dev.sel == s.dev.sel && s'.poll == s.poll && s'.probes == s.probes && s'.clock == s.clock
    requires forall q :: q in s'.sets ==> q in s.sets && (s'.sets[q] == s.sets[q] || (s.sets[q].phase.Disarming? && s'.sets[q].phase.Disarming?))
    requires forall q :: q in s.sets && !s.sets[q].phase.Disarming? ==> q in s'.sets
    requires forall id :: id in s'.keeps ==>
               || (id in s.keeps && s'.keeps[id].mySeq == s.keeps[id].mySeq)
               || (GateOpen(s) && s'.keeps[id].mySeq == s.sh.setSeq)
    ensures Agrees(s')
  {
  }

  lemma DisarmKeepsAgreement(s: State, q: nat, c: CmdResult)
    requires Agrees(s) && Enabled(s, SetDisarm(q, c))
    ensures Agrees(DoSetDisarm(s, q, c))
  {
    UnseenKeepsAgreement(s, DoSetDisarm(s, q, c));
  }

  /** An elapsed gate is dropped, and with it the selection, if the view still awaits. */
  lemma DropKeepsAgreement(s: State, id: nat)
    requires Gated(s) && Agrees(s) && Enabled(s, KeepBegin(id)) && GateElapsed(s) && Forgettable(s)
    ensures Agrees(DoKeepBegin(s, id))
  {
    var s' := DoKeepBegin(s, id);
    assert s'.sh == DropElapsed(s.sh) && s'.dev == s.dev && s'.keeps == s.keeps && s'.probes == s.probes;
    assert s'.sets.Keys == s.sets.Keys && forall q :: q in s.sets ==> s'.sets[q].phase == s.sets[q].phase;
    BumpOutdatesPoll(s, s');
  }

  lemma KeepBeginKeepsAgreement(s: State, id: nat)
    requires Gated(s) && Agrees(s) && Enabled(s, KeepBegin(id)) && Orderly(s, KeepBegin(id))
    ensures Agrees(DoKeepBegin(s, id))
  {
    if GateElapsed(s) {
      DropKeepsAgreement(s, id);
    } else {
      UnseenKeepsAgreement(s, DoKeepBegin(s, id));
    }
  }

  lemma KeepWriteKeepsAgreement(s: State, id: nat, c: CmdResult)
    requires Agrees(s) && Enabled(s, KeepWrite(id, c))
    ensures Agrees(DoKeepWrite(s, id, c))
  {
    UnseenKeepsAgreement(s, DoKeepWrite(s, id, c));
  }

  /** A Keep that publishes belongs to a set that reconciled, and turns a view that already
      matched to ok. */
  lemma KeptKeepsAgreement(s: State, id: nat)
    requires Gated(s) && Agrees(s) && id in s.keeps && s.keeps[id].wrote
    ensures Agrees(DoKeepFinish(s, id))
  {
    if s.keeps[id].mySeq == s.sh.setSeq {
      assert KeepUnderWay(s);
      assert s.sh.setSeq in s.hist.published;
      assert Done(s);
      BumpOutdatesPoll(s, DoKeepFinish(s, id));
    }
  }

  lemma ProbeBeginKeepsAgreement(s: State, id: nat)
    requires Agrees(s) && Enabled(s, ProbeBegin(id))
    ensures Agrees(Exec(s, ProbeBegin(id)))
  {
    var s' := Exec(s, ProbeBegin(id));
    assert s' == s.(probes := s'.probes);
  }

  lemma ProbeReadKeepsAgreement(s: State, id: nat, read: StatusRead)
    requires Agrees(s) && Enabled(s, ProbeRead(id, read)) && Truthful(read, s.dev)
    ensures Agrees(DoProbeRead(s, id, read))
  {
    var s' := DoProbeRead(s, id, read);
    assert s'.sh == s.sh && s'.dev == s.dev && s'.poll == s.poll && s'.keeps == s.keeps;
    assert s'.sets.Keys == s.sets.Keys && forall q :: q in s.sets ==> s'.sets[q].phase == s.sets[q].phase;
  }

  lemma ProbeKeepsAgreement(s: State, id: nat)
    requires PollGuarded(s) && Agrees(s) && Enabled(s, ProbeFinish(id))
    ensures Agrees(DoProbeFinish(s, id))
  {
    var s' := DoProbeFinish(s, id);
    assert s'.dev == s.dev && s'.sets == s.sets && s'.keeps == s.keeps && s'.sh.setSeq == s.sh.setSeq;
    if s'.sh != s.sh {
      BumpOutdatesPoll(s, s');
    }
  }

  lemma PollSetupKeepsAgreement(s: State, step: Step)
    requires Agrees(s) && Enabled(s, step) && Orderly(s, step) && (step.PollLoad? || step.PollCapture?)
    ensures Agrees(Exec(s, step))
  {
    var s' := Exec(s, step);
    assert s' == s.(poll := s'.poll, hist := s'.hist) && s'.hist.published == s.hist.published;
  }

  lemma DialKeepsAgreement(s: State, input: DialInput)
    requires Agrees(s) && Enabled(s, PollDial(input)) && (ReadsDevice(input) ==> Truthful(input.read, s.dev))
    ensures Agrees(DoPollDial(s, input))
  {
    var s' := DoPollDial(s, input);
    assert s'.sh == s.sh && s'.dev == s.dev && s'.keeps == s.keeps && s'.probes == s.probes;
    assert s'.sets.Keys == s.sets.Keys && forall q :: q in s.sets ==> s'.sets[q].phase == s.sets[q].phase;
  }

  /** A built view matches if it was read, or if the view it was carried from matches. */
  lemma FreshMatches(addr: string, prev: Option<RouterView>, input: DialInput, dev: Device)
    requires ReadsDevice(input) ==> Matches(input.read.rt.current, dev)
    ensures var v := Fresh(addr, prev, input);
            && (ReadsDevice(input) ==> Matches(v.current, dev))
            && (prev.Some? && !ReadsDevice(input) ==> v.current == prev.value.current)
            && (v.state == OK && !ReadsDevice(input) ==> prev.Some? && prev.value.state == OK)
  {
  }

  lemma MergeKeepsAgreement(s: State)
    requires Gated(s) && Agrees(s) && s.poll.Dialed? && (GateElapsed(s) ==> Forgettable(s))
    ensures Agrees(DoPollMerge(s))
  {
    var s' := DoPollMerge(s);
    assert s'.dev == s.dev && s'.keeps == s.keeps && s'.probes == s.probes && s'.clock == s.clock;
    assert s'.sets.Keys == s.sets.Keys && forall q :: q in s.sets ==> s'.sets[q].phase == s.sets[q].phase;
    if Done(s) && (s.sh.setGen == s.poll.genAt || s.sh.view.None?) {
      FreshMatches(s.addr, s.poll.prev, s.poll.input, s.dev);
    }
  }

  lemma DropRouterKeepsAgreement(s: State)
    requires Agrees(s) && Enabled(s, PollDrop) && Orderly(s, PollDrop)
    ensures Agrees(Exec(s, PollDrop))
  {
    var s' := Exec(s, PollDrop);
    assert s'.sets == map[] && s'.sh == Unlist(s.sh) && s'.keeps == s.keeps && s'.probes == s.probes && s'.dev == s.dev;
  }

  lemma TickKeepsAgreement(s: State, to: Time)
    requires Agrees(s) && Enabled(s, Tick(to))
    ensures Agrees(s.(clock := to))
  {
  }

  /** Exactly when the device may move by itself: a timer's wake, or a change from elsewhere, keeps
      everything in agreement if and only if it leaves the selection as it is, or nothing rests
      on it. */
  lemma DeviceKeepsAgreementExactly(s: State, step: Step)
    requires Agrees(s) && Enabled(s, step) && (step.TimerWakes? || step.Drift?)
    ensures Agrees(Exec(s, step)) <==> Orderly(s, step)
  {
    var s' := Exec(s, step);
    assert s' == s.(dev := s'.dev);
    assert Unclaimed(s') <==> Unclaimed(s);
    if s'.dev.sel != s.dev.sel {
      MovedDisagrees(s, s'.dev);
    }
  }

  /** With the selection moved, every claim is wrong. */
  lemma MovedDisagrees(s: State, dev: Device)
    requires Agrees(s) && dev.sel != s.dev.sel
    ensures Agrees(s.(dev := dev)) <==> Unclaimed(s)
  {
  }

  lemma AgreesStep(s: State, step: Step)
    requires Gated(s) && Agrees(s) && Enabled(s, step) && Orderly(s, step)
    ensures Agrees(Exec(s, step))
  {
    match step
    case SetBegin(target, prev) => BeginKeepsAgreement(s, target, prev);
    case SetMove(q, move) =>
      if q == s.sh.setSeq {
        NewestMoveKeepsAgreement(s, q, move);
      } else {
        OlderMoveKeepsAgreement(s, q, move);
      }
    case SetFinish(q) => FinishKeepsAgreement(s, q);
    case SetDisarm(q, c) => DisarmKeepsAgreement(s, q, c);
    case KeepBegin(id) => KeepBeginKeepsAgreement(s, id);
    case KeepWrite(id, c) => KeepWriteKeepsAgreement(s, id, c);
    case KeepFinish(id) => KeptKeepsAgreement(s, id);
    case ProbeBegin(id) => ProbeBeginKeepsAgreement(s, id);
    case ProbeRead(id, read) => ProbeReadKeepsAgreement(s, id, read);
    case ProbeFinish(id) => ProbeKeepsAgreement(s, id);
    case PollLoad | PollCapture => PollSetupKeepsAgreement(s, step);
    case PollDial(input) => DialKeepsAgreement(s, input);
    case PollMerge => MergeKeepsAgreement(s);
    case PollDrop => DropRouterKeepsAgreement(s);
    case Tick(to) => TickKeepsAgreement(s, to);
    case TimerWakes(_) | Drift(_) => DeviceKeepsAgreementExactly(s, step);
  }

  lemma {:induction false} AgreesAlong(s: State, steps: seq<Step>, s': State)
    requires OrderlyRun(s, steps, s') && Gated(s) && Agrees(s)
    ensures Agrees(s')
    decreases |steps|
  {
    if steps != [] {
      GatedStep(s, steps[0]);
      AgreesStep(s, steps[0]);
      AgreesAlong(Exec(s, steps[0]), steps[1..], s');
    }
  }

  // ---- Main results -----------------------------------------------------------------------

  /** Ok means ok: in every state an orderly run can reach, once the newest set has reconciled,
      a router shown as ok is on the exit node shown. */
  lemma OkAgreesWithTheDevice(addr: string, requireKeep: bool, sel: string, steps: seq<Step>, s: State)
    requires OrderlyRun(Init(addr, requireKeep, sel), steps, s)
    requires s.sh.setSeq in s.sets ==> !Unfinished(s.sets[s.sh.setSeq])
    requires s.sh.view.Some? && s.sh.view.value.state == OK
    ensures ExitArg(s.sh.view.value.current) == s.dev.sel
  {
    AgreesAlong(Init(addr, requireKeep, sel), steps, s);
  }

  /** The router layer is done with every set, and the newest has reconciled. */
  predicate AllPassed(s: State) {
    Done(s) && OldersPast(s, s.sh.setSeq)
  }

  /** A poll about to merge, by the guard, what the device is still on, with no stale probe read
      that would be merged after it. */
  predicate PollRecovers(s: State) {
    && AllPassed(s) && PollClaims(s) && s.poll.genAt == s.sh.setGen && Matches(s.poll.input.read.rt.current, s.dev)
    && (forall id :: id in s.probes && ProbeClaims(s, id) ==> Matches(s.probes[id].rt.value.current, s.dev))
  }

  /** A probe about to publish, by the guard, what the device is still on. This is how a router
      that is listed but never dialed gets there. */
  predicate ProbeRecovers(s: State, id: nat) {
    && AllPassed(s) && id in s.probes && ProbeClaims(s, id) && Matches(s.probes[id].rt.value.current, s.dev)
    && s.sh.keep.None? && s.sh.view.Some?
  }

  /** A state that shows what the device is on, with nothing pending that contradicts it. */
  ghost predicate Recovered(s: State) {
    Gated(s) && Agrees(s) && s.sh.view.Some? && Matches(s.sh.view.value.current, s.dev)
  }

  lemma RecoveringMergeAgrees(s: State)
    requires Gated(s) && ProbesBehind(s) && PollRecovers(s)
    ensures Agrees(DoPollMerge(s))
    ensures DoPollMerge(s).sh.view.Some? && Matches(DoPollMerge(s).sh.view.value.current, s.dev)
  {
    FreshMatches(s.addr, s.poll.prev, s.poll.input, s.dev);
    var s' := DoPollMerge(s);
    assert s'.probes == s.probes && s'.dev == s.dev && s'.keeps == s.keeps && s'.sh.setSeq == s.sh.setSeq && s'.sh.setGen == s.sh.setGen;
    assert s'.sets.Keys == s.sets.Keys && forall q :: q in s.sets ==> s'.sets[q].phase == s.sets[q].phase;
  }

  lemma MergeRecovers(s: State)
    requires Reachable(s) && PollRecovers(s)
    ensures Recovered(Exec(s, PollMerge))
  {
    GatedAlways(s);
    Honesty.ShownAlways(s);
    GatedStep(s, PollMerge);
    RecoveringMergeAgrees(s);
  }

  lemma ProbeFinishRecovers(s: State, id: nat)
    requires Reachable(s) && ProbeRecovers(s, id)
    ensures Recovered(Exec(s, ProbeFinish(id)))
  {
    GatedAlways(s);
    Honesty.ShownAlways(s);
    GatedStep(s, ProbeFinish(id));
    var s' := DoProbeFinish(s, id);
    BumpOutdatesPoll(s, s');
    assert s'.dev == s.dev && s'.sets == s.sets && s'.keeps == s.keeps && s'.sh.setSeq == s.sh.setSeq && s'.sh.setGen == s.sh.setGen + 1;
  }

  /** Recovery: whatever happened before (disorder, reverts, lost gates, load gaps, changes from
      outside), once a poll or a probe has published what the device is on, ok means ok for as long
      as the run is orderly. */
  lemma OkRecovers(s: State, steps: seq<Step>, s': State)
    requires Recovered(s) && OrderlyRun(s, steps, s')
    requires s'.sh.setSeq in s'.sets ==> !Unfinished(s'.sets[s'.sh.setSeq])
    requires s'.sh.view.Some? && s'.sh.view.value.state == OK
    ensures ExitArg(s'.sh.view.value.current) == s'.dev.sel
  {
    AgreesAlong(s, steps, s');
  }
}
