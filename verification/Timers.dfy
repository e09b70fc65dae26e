/** The revert timers of deferred changes: none is ever forgotten, and the deadline the
    operator sees is never later than the moment the device reverts. */
module Timers {
  import opened Types
  import opened Views
  import opened RouterClient
  import opened Sections
  import opened Protocol
  import opened Supersede

  /** A set in flight still has to deal with marker `m`: it came back from the router layer
      with it, or has it on its disarm list. */
  predicate HoldsMarker(op: SetOp, m: Marker) {
    match op.phase
    case Returned(res) => res.marker == m
    case Observed(res, _, _) => res.marker == m
    case Disarming(todo) => m in todo
    case _ => false
  }

  predicate ResultFits(s: State, q: nat, res: ApplyResult)
    requires q in s.sets
  {
    var op := s.sets[q];
    && (res.marker != "" ==>
          && res.err.None? && !op.autoKeep
          && res.marker in s.hist.deadlines && s.hist.deadlines[res.marker] == op.armAt + REVERT_WINDOW)
    && (res.err.None? && !op.autoKeep ==> res.marker != "")
  }

  /** What a set knows about the timer it arms, phase by phase. */
  predicate SetTimed(s: State, q: nat)
    requires q in s.sets
  {
    var op := s.sets[q];
    var owned := op.marker != "" && op.marker in s.hist.markers && s.hist.markers[op.marker] == q
                 && op.marker !in s.hist.deadlines;
    var armed := owned && op.marker in s.dev.timers && op.armAt + REVERT_WINDOW <= s.dev.timers[op.marker].fireAt;
    match op.phase
    case Started => true
    case Clocked => owned && op.armAt <= s.clock && op.marker !in s.dev.timers
    case Arming => armed
    case Applying => armed
    case Keeping(_) => armed && op.autoKeep
    case Returned(res) => ResultFits(s, q, res)
    case Observed(res, _, _) => ResultFits(s, q, res)
    case Disarming(_) => true
  }

  predicate SetsTimed(s: State) {
    forall q :: q in s.sets ==> SetTimed(s, q)
  }

  /** Deadlines are recorded for real timers and never lie beyond the fire time. */
  predicate DeadlinesSound(s: State) {
    && (forall m :: m in s.hist.deadlines ==>
          m != "" && m in s.hist.markers && m in s.dev.timers && s.hist.deadlines[m] <= s.dev.timers[m].fireAt)
    && (forall m :: m in s.dev.timers ==> m in s.hist.markers && (s.dev.timers[m].asleep || s.dev.timers[m].fireAt <= s.clock))
    && (forall m :: m in s.dev.reverted ==> m in s.dev.timers && !s.dev.timers[m].asleep)
  }

  predicate GateTimed(s: State) {
    && (s.sh.keep.Some? ==>
          s.sh.keep.value.marker in s.hist.deadlines && s.hist.deadlines[s.sh.keep.value.marker] == s.sh.keep.value.revertAt)
    && (forall id :: id in s.keeps ==>
          && s.keeps[id].marker in s.hist.deadlines
          && (s.keeps[id].wrote ==> s.keeps[id].marker in s.dev.written)
          && (s.keeps[id].mySeq == s.sh.setSeq && s.sh.keep.Some? ==> s.sh.keep.value.marker == s.keeps[id].marker))
  }

  /** The marker of a deferred change is written, past its deadline, the active gate's, held by
      a set in flight, or a disarm write for it failed. */
  ghost predicate Tracked(s: State, m: Marker)
    requires m in s.hist.deadlines
  {
    || m in s.dev.written
    || s.clock > s.hist.deadlines[m]
    || (s.sh.keep.Some? && s.sh.keep.value.marker == m)
    || (exists q :: q in s.sets && HoldsMarker(s.sets[q], m))
    || m in s.hist.failedDisarms
  }

  ghost predicate AllTracked(s: State) {
    forall m :: m in s.hist.deadlines ==> Tracked(s, m)
  }

  ghost predicate Timed(s: State) {
    SetsTimed(s) && DeadlinesSound(s) && GateTimed(s) && AllTracked(s)
  }

  // ---- Steps ------------------------------------------------------------------------------

  /** Sets that stay as they are keep holding what they hold. */
  lemma TrackedByOthers(s: State, s': State, m: Marker)
    requires m in s.hist.deadlines && Tracked(s, m)
    requires m in s'.hist.deadlines && s'.hist.deadlines[m] == s.hist.deadlines[m]
    requires s.clock <= s'.clock && s.dev.written <= s'.dev.written && s.hist.failedDisarms <= s'.hist.failedDisarms
    requires forall q :: q in s.sets && HoldsMarker(s.sets[q], m) ==> q in s'.sets && HoldsMarker(s'.sets[q], m)
    requires s.sh.keep.Some? && s.sh.keep.value.marker == m ==>
               (s'.sh.keep == s.sh.keep || s.clock > s.hist.deadlines[m] || m in s'.dev.written)
    ensures Tracked(s', m)
  {
    if q :| q in s.sets && HoldsMarker(s.sets[q], m) {
      assert q in s'.sets && HoldsMarker(s'.sets[q], m);
    }
  }

  predicate SameTimers(s: State, s': State) {
    && s'.hist.deadlines == s.hist.deadlines && s'.hist.markers == s.hist.markers
    && s'.dev.timers == s.dev.timers && s'.dev.reverted == s.dev.reverted
    && s.clock <= s'.clock && s.dev.written <= s'.dev.written && s.hist.failedDisarms <= s'.hist.failedDisarms
  }

  /** The set is where it was, as far as its timer goes. */
  predicate SamePlace(a: SetOp, b: SetOp) {
    a.phase == b.phase && a.marker == b.marker && a.armAt == b.armAt && a.autoKeep == b.autoKeep
  }

  lemma SetsStayTimed(s: State, s': State)
    requires SetsTimed(s) && DeadlinesSound(s) && SameTimers(s, s')
    requires forall q :: q in s'.sets ==>
               s'.sets[q].phase.Started? || s'.sets[q].phase.Disarming? || (q in s.sets && SamePlace(s'.sets[q], s.sets[q]))
    ensures SetsTimed(s') && DeadlinesSound(s')
  {
    forall q | q in s'.sets ensures SetTimed(s', q) {
      if q in s.sets {
        assert SetTimed(s, q);
      }
    }
  }

  lemma BeginKeepsTracked(s: State, target: Option<ExitNodeRef>, prev: Option<ExitNodeRef>)
    requires AllTracked(s) && s.sh.setSeq + 1 !in s.sets
    ensures AllTracked(DoSetBegin(s, target, prev))
  {
    var s' := DoSetBegin(s, target, prev);
    forall m | m in s'.hist.deadlines ensures Tracked(s', m) {
      TrackedByOthers(s, s', m);
    }
  }

  lemma BeginKeepsGateTimed(s: State, target: Option<ExitNodeRef>, prev: Option<ExitNodeRef>)
    requires GateTimed(s)
    requires forall id :: id in s.keeps ==> s.keeps[id].mySeq <= s.sh.setSeq
    ensures GateTimed(DoSetBegin(s, target, prev))
  {
  }

  lemma BeginKeepsSetsTimed(s: State, target: Option<ExitNodeRef>, prev: Option<ExitNodeRef>)
    requires SetsTimed(s) && DeadlinesSound(s) && s.sh.setSeq + 1 !in s.sets
    ensures SetsTimed(DoSetBegin(s, target, prev)) && DeadlinesSound(DoSetBegin(s, target, prev))
  {
    SetsStayTimed(s, DoSetBegin(s, target, prev));
  }

  lemma BeginKeepsTimed(s: State, target: Option<ExitNodeRef>, prev: Option<ExitNodeRef>)
    requires Ordered(s) && Timed(s)
    ensures Timed(DoSetBegin(s, target, prev))
  {
    NumbersAreBehind(s);
    BeginKeepsTracked(s, target, prev);
    BeginKeepsGateTimed(s, target, prev);
    BeginKeepsSetsTimed(s, target, prev);
  }

  /** What a move of set `q` does to timers, deadlines and markers: it touches its own only. */
  predicate OwnTimerOnly(s: State, s': State, q: nat) {
    && s'.clock == s.clock && s'.sh == s.sh && s'.keeps == s.keeps
    && s'.hist.failedDisarms == s.hist.failedDisarms
    && s'.dev.reverted == s.dev.reverted && s.dev.written <= s'.dev.written
    && (forall m :: m in s.hist.markers ==> m in s'.hist.markers && s'.hist.markers[m] == s.hist.markers[m])
    && (forall m :: m in s.dev.timers ==> m in s'.dev.timers && s'.dev.timers[m] == s.dev.timers[m])
    && (forall m :: m in s'.dev.timers && m !in s.dev.timers ==>
          m in s.hist.markers && s.hist.markers[m] == q && s'.dev.timers[m].asleep)
    && (forall m :: m in s.hist.deadlines ==> m in s'.hist.deadlines && s'.hist.deadlines[m] == s.hist.deadlines[m])
    && (forall m :: m in s'.hist.deadlines && m !in s.hist.deadlines ==>
          && m != "" && m in s.hist.markers && s.hist.markers[m] == q
          && m in s'.dev.timers && s'.hist.deadlines[m] <= s'.dev.timers[m].fireAt
          && q in s'.sets && HoldsMarker(s'.sets[q], m))
  }

  lemma ArmTouchesOwnTimer(s: State, q: nat, c: CmdResult, fireAt: Time)
    requires q in s.sets && SetTimed(s, q) && CanMove(s, q, ArmTimer(c, fireAt))
    ensures OwnTimerOnly(s, DoSetArm(s, q, c, fireAt), q) && SetTimed(DoSetArm(s, q, c, fireAt), q)
  {
  }

  lemma ApplyTouchesNoTimer(s: State, q: nat, c: CmdResult)
    requires q in s.sets && SetTimed(s, q) && CanMove(s, q, ApplyTarget(c))
    ensures OwnTimerOnly(s, DoSetApply(s, q, c), q) && SetTimed(DoSetApply(s, q, c), q)
  {
  }

  lemma DeferredRecordsOwnTimer(s: State, q: nat, read: StatusRead)
    requires q in s.sets && SetTimed(s, q) && s.sets[q].phase.Applying? && !s.sets[q].autoKeep
    requires ConfirmVerdict(read, ExitArg(s.sets[q].target)).None?
    ensures OwnTimerOnly(s, DoSetConfirm(s, q, read), q) && SetTimed(DoSetConfirm(s, q, read), q)
  {
    var s' := DoSetConfirm(s, q, read);
    assert s'.sets[q].phase == Returned(ApplyResult(read.rt, s.sets[q].marker, None));
    assert s'.dev == s.dev && s'.hist.markers == s.hist.markers;
  }

  lemma ConfirmLeavesTimers(s: State, q: nat, read: StatusRead)
    requires q in s.sets && SetTimed(s, q) && s.sets[q].phase.Applying?
    requires ConfirmVerdict(read, ExitArg(s.sets[q].target)).None? ==> s.sets[q].autoKeep
    ensures OwnTimerOnly(s, DoSetConfirm(s, q, read), q) && SetTimed(DoSetConfirm(s, q, read), q)
  {
    var s' := DoSetConfirm(s, q, read);
    if ConfirmVerdict(read, ExitArg(s.sets[q].target)).None? {
      assert s' == WithSet(s, q, s.sets[q].(phase := Keeping(read.rt)));
    } else {
      assert s' == Return(s, q, ConfirmVerdict(read, ExitArg(s.sets[q].target)).value);
      assert s'.dev == s.dev && s'.hist == s.hist.(failed := s'.hist.failed) && s'.sh == s.sh && s'.keeps == s.keeps;
    }
  }

  lemma ConfirmTouchesOwnTimer(s: State, q: nat, read: StatusRead)
    requires q in s.sets && SetTimed(s, q) && s.sets[q].phase.Applying?
    ensures OwnTimerOnly(s, DoSetConfirm(s, q, read), q) && SetTimed(DoSetConfirm(s, q, read), q)
  {
    if ConfirmVerdict(read, ExitArg(s.sets[q].target)).None? && !s.sets[q].autoKeep {
      DeferredRecordsOwnTimer(s, q, read);
    } else {
      ConfirmLeavesTimers(s, q, read);
    }
  }

  lemma KeepTouchesOwnTimer(s: State, q: nat, c: CmdResult)
    requires q in s.sets && SetTimed(s, q) && CanMove(s, q, KeepInline(c))
    ensures OwnTimerOnly(s, DoSetKeep(s, q, c), q) && SetTimed(DoSetKeep(s, q, c), q)
  {
  }

  lemma QuietMoveTouchesNoTimer(s: State, q: nat, move: Move)
    requires q in s.sets && SetTimed(s, q) && CanMove(s, q, move)
    requires move.ReadClock? || move.RefuseArgs? || move.Observe?
    requires move.ReadClock? ==> move.marker !in s.dev.timers && move.marker !in s.hist.deadlines
    ensures OwnTimerOnly(s, DoMove(s, q, move), q)
    ensures q in DoMove(s, q, move).sets && SetTimed(DoMove(s, q, move), q)
  {
  }

  lemma MoveTouchesOwnTimer(s: State, q: nat, move: Move)
    requires q in s.sets && SetTimed(s, q) && CanMove(s, q, move)
    requires move.ReadClock? ==> move.marker !in s.dev.timers && move.marker !in s.hist.deadlines
    ensures OwnTimerOnly(s, DoMove(s, q, move), q)
    ensures q in DoMove(s, q, move).sets && SetTimed(DoMove(s, q, move), q)
  {
    match move
    case ArmTimer(c, fireAt) => ArmTouchesOwnTimer(s, q, c, fireAt);
    case ApplyTarget(c) => ApplyTouchesNoTimer(s, q, c);
    case ConfirmRead(read) => ConfirmTouchesOwnTimer(s, q, read);
    case KeepInline(c) => KeepTouchesOwnTimer(s, q, c);
    case _ => QuietMoveTouchesNoTimer(s, q, move);
  }

  lemma OwnTimerKeepsOthers(s: State, s': State, q: nat, other: nat)
    requires OwnTimerOnly(s, s', q) && other in s.sets && SetTimed(s, other)
    requires (forall m :: m in s.dev.timers ==> m in s.hist.markers)
    requires other != q && other in s.sets && other in s'.sets && s'.sets[other] == s.sets[other]
    ensures SetTimed(s', other)
  {
  }

  lemma MoveKeepsTracked(s: State, mySeq: nat, move: Move)
    requires AllTracked(s) && mySeq in s.sets && SetTimed(s, mySeq) && CanMove(s, mySeq, move)
    requires OwnTimerOnly(s, DoMove(s, mySeq, move), mySeq)
    ensures AllTracked(DoMove(s, mySeq, move))
  {
    MovesAreLocal(s, mySeq, move);
    var s' := DoMove(s, mySeq, move);
    forall m | m in s'.hist.deadlines ensures Tracked(s', m) {
      if m in s.hist.deadlines {
        assert Tracked(s, m);
        if q :| q in s.sets && HoldsMarker(s.sets[q], m) {
          assert q in s'.sets && HoldsMarker(s'.sets[q], m);
        }
      }
    }
  }

  lemma MoveKeepsTimed(s: State, mySeq: nat, move: Move)
    requires Timed(s) && mySeq in s.sets && CanMove(s, mySeq, move)
    ensures Timed(DoMove(s, mySeq, move))
  {
    var s' := DoMove(s, mySeq, move);
    MovesAreLocal(s, mySeq, move);
    assert SetTimed(s, mySeq);
    MoveTouchesOwnTimer(s, mySeq, move);
    MoveKeepsTracked(s, mySeq, move);
    forall q | q in s'.sets ensures SetTimed(s', q) {
      if q != mySeq {
        OwnTimerKeepsOthers(s, s', mySeq, q);
      }
    }
  }

  lemma FinishKeepsTracked(s: State, q: nat, m: Marker)
    requires q in s.sets && s.sets[q].phase.Observed? && SetTimed(s, q)
    requires m in s.hist.deadlines && m != "" && Tracked(s, m)
    ensures Tracked(DoSetFinish(s, q), m)
  {
    FinishShape(s, q);
    var s' := DoSetFinish(s, q);
    if (s.sh.keep.Some? && s.sh.keep.value.marker == m) || HoldsMarker(s.sets[q], m) {
      var op := s.sets[q];
      FinishHandsMarkersOver(s.sh, q, op.target, op.autoKeep, op.armAt, op.phase.now, op.phase.res, op.phase.reread, m);
      if !(s'.sh.keep.Some? && s'.sh.keep.value.marker == m) {
        assert q in s'.sets && HoldsMarker(s'.sets[q], m);
      }
    } else if other :| other in s.sets && HoldsMarker(s.sets[other], m) {
      assert other in s'.sets && HoldsMarker(s'.sets[other], m);
    }
  }

  lemma FinishKeepsGateTimed(s: State, q: nat)
    requires Ordered(s) && Timed(s) && q in s.sets && s.sets[q].phase.Observed?
    ensures GateTimed(DoSetFinish(s, q))
  {
    FinishShape(s, q);
    assert SetTimed(s, q);
  }

  lemma FinishKeepsTimed(s: State, q: nat)
    requires Ordered(s) && Timed(s) && q in s.sets && s.sets[q].phase.Observed?
    ensures Timed(DoSetFinish(s, q))
  {
    FinishShape(s, q);
    SetsStayTimed(s, DoSetFinish(s, q));
    FinishKeepsGateTimed(s, q);
    forall m | m in s.hist.deadlines ensures Tracked(DoSetFinish(s, q), m) {
      FinishKeepsTracked(s, q, m);
    }
  }

  /** Every other step leaves each set and each keep where it is, apart from keeps that start,
      write or end, and lets go of the entry only when its deadline has passed or its marker is
      written. */
  predicate KeepsFit(s: State, s': State) {
    forall id :: id in s'.keeps ==>
      var k := s'.keeps[id];
      && k.marker in s.hist.deadlines
      && (k.wrote ==> k.marker in s'.dev.written)
      && (k.mySeq == s.sh.setSeq && s.sh.keep.Some? ==> s.sh.keep.value.marker == k.marker)
  }

  predicate LetsGoSafely(s: State, s': State) {
    && s'.sh.setSeq == s.sh.setSeq
    && (s'.sh.keep == s.sh.keep
        || (s'.sh.keep.None? && (s.sh.keep.Some? ==>
              s.clock > s.sh.keep.value.revertAt || s.sh.keep.value.marker in s'.dev.written)))
  }

  predicate SetsInPlace(s: State, s': State) {
    && (forall q :: q in s.sets ==> q in s'.sets && SamePlace(s'.sets[q], s.sets[q]))
    && (forall q :: q in s'.sets ==> q in s.sets)
  }

  lemma FramedTimed(s: State, s': State)
    requires Timed(s) && Framed(s, s')
    ensures Timed(s')
  {
    SetsStayTimed(s, s');
    forall m | m in s'.hist.deadlines ensures Tracked(s', m) {
      assert Tracked(s, m);
      TrackedByOthers(s, s', m);
    }
  }

  predicate Framed(s: State, s': State) {
    SameTimers(s, s') && SetsInPlace(s, s') && LetsGoSafely(s, s') && KeepsFit(s, s')
  }

  lemma ValidateIsFramed(s: State, id: nat)
    requires GateTimed(s) && id !in s.keeps
    ensures Framed(s, DoKeepBegin(s, id))
  {
  }

  lemma KeepWriteIsFramed(s: State, id: nat, c: CmdResult)
    requires GateTimed(s) && id in s.keeps && !s.keeps[id].wrote
    ensures Framed(s, DoKeepWrite(s, id, c))
  {
  }

  lemma KeptIsFramed(s: State, id: nat)
    requires GateTimed(s) && id in s.keeps && s.keeps[id].wrote
    ensures Framed(s, DoKeepFinish(s, id))
  {
  }

  lemma ProbeReadIsFramed(s: State, id: nat, read: StatusRead)
    requires GateTimed(s) && id in s.probes
    ensures Framed(s, DoProbeRead(s, id, read))
  {
  }

  lemma ProbeIsFramed(s: State, id: nat)
    requires GateTimed(s) && id in s.probes && s.probes[id].rt.Some?
    ensures Framed(s, DoProbeFinish(s, id))
  {
  }

  lemma MergeIsFramed(s: State)
    requires GateTimed(s) && s.poll.Dialed?
    ensures Framed(s, DoPollMerge(s))
  {
  }

  lemma PollIsFramed(s: State, step: Step)
    requires GateTimed(s) && Enabled(s, step)
    requires step.PollLoad? || step.PollCapture? || step.PollDial? || step.PollDrop?
    ensures Framed(s, Exec(s, step))
  {
  }

  lemma DeviceIsFramed(s: State, step: Step)
    requires GateTimed(s) && Enabled(s, step)
    requires step.ProbeBegin? || step.Tick? || step.Drift?
    ensures Framed(s, Exec(s, step))
  {
  }

  lemma OthersAreFramed(s: State, step: Step)
    requires GateTimed(s) && Enabled(s, step)
    requires !step.SetBegin? && !step.SetMove? && !step.SetFinish? && !step.SetDisarm? && !step.TimerWakes?
    ensures Framed(s, Exec(s, step))
  {
    match step
    case KeepBegin(id) => ValidateIsFramed(s, id);
    case KeepWrite(id, c) => KeepWriteIsFramed(s, id, c);
    case KeepFinish(id) => KeptIsFramed(s, id);
    case ProbeRead(id, read) => ProbeReadIsFramed(s, id, read);
    case ProbeFinish(id) => ProbeIsFramed(s, id);
    case PollMerge => MergeIsFramed(s);
    case PollLoad | PollCapture | PollDial(_) | PollDrop => PollIsFramed(s, step);
    case _ => DeviceIsFramed(s, step);
  }

  /** What one disarm write leaves: the list one shorter, the marker written or noted as failed. */
  lemma DisarmShape(s: State, q: nat, c: CmdResult)
    requires q in s.sets && s.sets[q].phase.Disarming? && s.sets[q].phase.todo != []
    ensures var s' := DoSetDisarm(s, q, c);
            var m := s.sets[q].phase.todo[0];
            var rest := s.sets[q].phase.todo[1..];
            && s' == s.(dev := s'.dev, hist := s'.hist, sets := s'.sets)
            && SameTimers(s, s')
            && (m in s'.dev.written || m in s'.hist.failedDisarms)
            && s'.sets == if rest == [] then s.sets - {q} else s.sets[q := s.sets[q].(phase := Disarming(rest))]
  {
  }

  lemma DisarmKeepsTracked(s: State, q: nat, c: CmdResult, m: Marker)
    requires q in s.sets && s.sets[q].phase.Disarming? && s.sets[q].phase.todo != []
    requires m in s.hist.deadlines && Tracked(s, m)
    ensures Tracked(DoSetDisarm(s, q, c), m)
  {
    DisarmShape(s, q, c);
    var s' := DoSetDisarm(s, q, c);
    var todo := s.sets[q].phase.todo;
    if HoldsMarker(s.sets[q], m) {
      if m != todo[0] {
        assert m in todo[1..];
        assert q in s'.sets && HoldsMarker(s'.sets[q], m);
      }
    } else if other :| other in s.sets && HoldsMarker(s.sets[other], m) {
      assert other in s'.sets && HoldsMarker(s'.sets[other], m);
    }
  }

  lemma DisarmKeepsTimed(s: State, q: nat, c: CmdResult)
    requires Timed(s) && q in s.sets && s.sets[q].phase.Disarming? && s.sets[q].phase.todo != []
    ensures Timed(DoSetDisarm(s, q, c))
  {
    DisarmShape(s, q, c);
    SetsStayTimed(s, DoSetDisarm(s, q, c));
    forall m | m in s.hist.deadlines ensures Tracked(DoSetDisarm(s, q, c), m) {
      DisarmKeepsTracked(s, q, c, m);
    }
  }

  lemma WakeKeepsTimed(s: State, marker: Marker)
    requires Timed(s) && Enabled(s, TimerWakes(marker))
    ensures Timed(s.(dev := Wake(s.dev, marker)))
  {
    var s' := s.(dev := Wake(s.dev, marker));
    forall q | q in s'.sets ensures SetTimed(s', q) {
      assert SetTimed(s, q);
    }
    forall m | m in s'.hist.deadlines ensures Tracked(s', m) {
      TrackedByOthers(s, s', m);
    }
  }

  lemma OthersKeepTimed(s: State, step: Step)
    requires Timed(s) && Enabled(s, step)
    requires !step.SetBegin? && !step.SetMove? && !step.SetFinish? && !step.SetDisarm? && !step.TimerWakes?
    ensures Timed(Exec(s, step))
  {
    OthersAreFramed(s, step);
    FramedTimed(s, Exec(s, step));
  }

  lemma TimedStep(s: State, step: Step)
    requires Ordered(s) && Timed(s) && Enabled(s, step)
    ensures Timed(Exec(s, step))
  {
    match step
    case SetBegin(target, prev) => BeginKeepsTimed(s, target, prev);
    case SetMove(mySeq, move) => MoveKeepsTimed(s, mySeq, move);
    case SetFinish(mySeq) => FinishKeepsTimed(s, mySeq);
    case SetDisarm(mySeq, c) => DisarmKeepsTimed(s, mySeq, c);
    case TimerWakes(marker) => WakeKeepsTimed(s, marker);
    case _ => OthersKeepTimed(s, step);
  }

  ghost predicate OrderedAndTimed(s: State) {
    Ordered(s) && Timed(s)
  }

  lemma TimedAlways(s: State)
    requires Reachable(s)
    ensures Ordered(s) && Timed(s)
  {
    forall t, step | OrderedAndTimed(t) && Enabled(t, step) ensures OrderedAndTimed(Exec(t, step)) {
      OrderedStep(t, step);
      TimedStep(t, step);
    }
    InvarianceFromInit(OrderedAndTimed, s);
  }

  // ---- Main results -----------------------------------------------------------------------

  /** The marker of a confirmed deferred change that still guards a revert to come. */
  predicate Unexpired(s: State, m: Marker) {
    m in s.hist.deadlines && m !in s.dev.written && s.clock <= s.hist.deadlines[m]
  }

  /** No orphaned revert timer: in every reachable interleaving an unwritten, unexpired marker is
      the active gate's or held by a set in flight, unless the disarm write for it failed. */
  lemma NoOrphanedTimer(s: State, m: Marker)
    requires Reachable(s) && Unexpired(s, m)
    ensures || (s.sh.keep.Some? && s.sh.keep.value.marker == m)
            || (exists q :: q in s.sets && HoldsMarker(s.sets[q], m))
            || m in s.hist.failedDisarms
  {
    TimedAlways(s);
    assert Tracked(s, m);
  }

  /** So with no set in flight and no failed disarm write, at most one such timer exists, and it
      is the pending entry's. The operator can keep it exactly if no set has started since the
      one that armed it; otherwise Keep refuses until the device has reverted. */
  lemma AtMostOneLiveTimer(s: State, m: Marker)
    requires Reachable(s) && s.sets == map[] && s.hist.failedDisarms == {}
    requires Unexpired(s, m)
    ensures s.sh.keep.Some? && s.sh.keep.value.marker == m
    ensures forall other :: Unexpired(s, other) ==> other == m
    ensures CheckKeep(s.sh, s.clock) == if s.sh.keep.value.setSeq == s.sh.setSeq then Proceed(m, s.sh.setSeq) else NewerSet
  {
    NoOrphanedTimer(s, m);
    TimedAlways(s);
    forall other | Unexpired(s, other) ensures other == m {
      NoOrphanedTimer(s, other);
    }
  }

  /** The recorded deadline is conservative: the timer behind the active gate fires no earlier
      than the gate says. */
  lemma DeadlineIsConservative(s: State)
    requires Reachable(s) && s.sh.keep.Some?
    ensures s.sh.keep.value.marker in s.dev.timers
    ensures s.sh.keep.value.revertAt <= s.dev.timers[s.sh.keep.value.marker].fireAt
  {
    TimedAlways(s);
  }

  lemma MoveOnlyWrites(s: State, q: nat, move: Move)
    requires q in s.sets && CanMove(s, q, move)
    ensures DoMove(s, q, move).dev.reverted == s.dev.reverted && s.dev.written <= DoMove(s, q, move).dev.written
  {
    match move
    case ConfirmRead(read) => assert DoSetConfirm(s, q, read).dev == s.dev;
    case _ =>
  }

  /** The marker is written, and the timer behind it did or did not put `prev` back. */
  predicate Decided(s: State, m: Marker, reverted: bool) {
    m in s.dev.written && (m in s.dev.reverted <==> reverted)
  }

  lemma DecidedStep(s: State, step: Step, m: Marker, reverted: bool)
    requires Decided(s, m, reverted) && Enabled(s, step)
    ensures Decided(Exec(s, step), m, reverted)
  {
    if step.SetMove? {
      MoveOnlyWrites(s, step.mySeq, step.move);
    }
  }

  lemma {:induction false} DecidedRuns(s: State, steps: seq<Step>, s': State, m: Marker, reverted: bool)
    requires Decided(s, m, reverted) && Runs(s, steps, s')
    ensures Decided(s', m, reverted)
    decreases |steps|
  {
    if steps != [] {
      DecidedStep(s, steps[0], m, reverted);
      DecidedRuns(Exec(s, steps[0]), steps[1..], s', m, reverted);
    }
  }

  /** A Keep marker that lands decides the revert for good: whatever runs afterwards, the timer
      has put `prev` back exactly if it had before the marker landed. Before the recorded
      deadline it never had. */
  lemma KeepBeforeDeadlineHolds(s: State, id: nat, c: CmdResult, steps: seq<Step>, s': State)
    requires Reachable(s) && Enabled(s, KeepWrite(id, c)) && TookEffect(c)
    requires Runs(Exec(s, KeepWrite(id, c)), steps, s')
    ensures s.keeps[id].marker in s.hist.deadlines
    ensures s.keeps[id].marker in s'.dev.reverted <==> s.keeps[id].marker in s.dev.reverted
    ensures s.clock < s.hist.deadlines[s.keeps[id].marker] ==> s.keeps[id].marker !in s'.dev.reverted
  {
    TimedAlways(s);
    var m := s.keeps[id].marker;
    assert m in s.dev.timers && s.hist.deadlines[m] <= s.dev.timers[m].fireAt;
    DecidedRuns(Exec(s, KeepWrite(id, c)), steps, s', m, m in s.dev.reverted);
  }
}
