/** Which sleeping timers can still put an old exit node back: none is unaccounted for. */
module Accounts {
  import opened Types
  import opened Views
  import opened RouterClient
  import opened Sections
  import opened Protocol
  import opened Supersede
  import opened Timers

  /** The set that drew the marker holds the router lock, between arming and coming back. */
  predicate InRouterLayer(s: State, m: Marker) {
    && m in s.hist.markers && s.hist.markers[m] in s.sets
    && var op := s.sets[s.hist.markers[m]];
       op.marker == m && (op.phase.Arming? || op.phase.Applying? || op.phase.Keeping?)
  }

  predicate Accounted(s: State, m: Marker) {
    m in s.dev.written || InRouterLayer(s, m) || m in s.hist.failed || m in s.hist.deadlines
  }

  /** The set came back confirmed and kept. */
  predicate CameBackKept(op: SetOp) {
    && op.autoKeep
    && match op.phase
       case Returned(res) => res.err.None?
       case Observed(res, _, _) => res.err.None?
       case _ => false
  }

  predicate KeptAreWritten(s: State) {
    forall q :: q in s.sets && CameBackKept(s.sets[q]) ==> s.sets[q].marker in s.dev.written
  }

  ghost predicate AllAccounted(s: State) {
    (forall m :: m in s.dev.timers ==> Accounted(s, m)) && KeptAreWritten(s)
  }

  // ---- Steps ------------------------------------------------------------------------------

  /** What the move of a set leaves of its own timer. */
  lemma ArmAccounts(s: State, q: nat, c: CmdResult, fireAt: Time)
    requires q in s.sets && SetTimed(s, q) && CanMove(s, q, ArmTimer(c, fireAt))
    ensures var s' := DoSetArm(s, q, c, fireAt);
            && !CameBackKept(s'.sets[q]) && (InRouterLayer(s', s.sets[q].marker) || s.sets[q].marker in s'.hist.failed)
  {
  }

  lemma ApplyAccounts(s: State, q: nat, c: CmdResult)
    requires q in s.sets && SetTimed(s, q) && CanMove(s, q, ApplyTarget(c))
    ensures var s' := DoSetApply(s, q, c);
            && !CameBackKept(s'.sets[q]) && (InRouterLayer(s', s.sets[q].marker) || s.sets[q].marker in s'.hist.failed)
  {
  }

  lemma ConfirmAccounts(s: State, q: nat, read: StatusRead)
    requires q in s.sets && SetTimed(s, q) && CanMove(s, q, ConfirmRead(read))
    ensures var s' := DoSetConfirm(s, q, read);
            && !CameBackKept(s'.sets[q]) && (Accounted(s', s.sets[q].marker))
  {
    if ConfirmVerdict(read, ExitArg(s.sets[q].target)).None? {
      assert DoSetConfirm(s, q, read).sets[q].phase
          == if s.sets[q].autoKeep then Keeping(read.rt) else Returned(ApplyResult(read.rt, s.sets[q].marker, None));
    }
  }

  lemma KeepAccounts(s: State, q: nat, c: CmdResult)
    requires q in s.sets && SetTimed(s, q) && CanMove(s, q, KeepInline(c))
    ensures var s' := DoSetKeep(s, q, c);
            && (CameBackKept(s'.sets[q]) ==> s'.sets[q].marker in s'.dev.written) && Accounted(s', s.sets[q].marker)
  {
    assert DoSetKeep(s, q, c).sets[q].phase == Returned(KeepVerdict(s.sets[q].phase.rt, c));
  }

  lemma OwnTimerAccounted(s: State, q: nat, move: Move)
    requires q in s.sets && SetTimed(s, q) && CanMove(s, q, move)
    requires move.ArmTimer? || move.ApplyTarget? || move.ConfirmRead? || move.KeepInline?
    ensures Accounted(DoMove(s, q, move), s.sets[q].marker)
    ensures CameBackKept(DoMove(s, q, move).sets[q]) ==> DoMove(s, q, move).sets[q].marker in DoMove(s, q, move).dev.written
  {
    match move
    case ArmTimer(c, fireAt) => ArmAccounts(s, q, c, fireAt);
    case ApplyTarget(c) => ApplyAccounts(s, q, c);
    case ConfirmRead(read) => ConfirmAccounts(s, q, read);
    case KeepInline(c) => KeepAccounts(s, q, c);
  }

  /** Before its arm a set has no timer, and after it came back it is not in the router layer. */
  lemma OtherMovesLeaveTimers(s: State, q: nat, move: Move)
    requires q in s.sets && CanMove(s, q, move)
    requires move.ReadClock? || move.RefuseArgs? || move.Observe?
    ensures var s' := DoMove(s, q, move);
            && s'.dev == s.dev && s.hist.failed <= s'.hist.failed
            && (CameBackKept(s'.sets[q]) ==> CameBackKept(s.sets[q]) && s'.sets[q].marker == s.sets[q].marker)
            && !s.sets[q].phase.Arming? && !s.sets[q].phase.Applying? && !s.sets[q].phase.Keeping?
  {
  }

  lemma FailuresStay(s: State, q: nat, move: Move)
    requires q in s.sets && CanMove(s, q, move)
    ensures s.hist.failed <= DoMove(s, q, move).hist.failed
  {
    match move
    case ConfirmRead(read) => assert s.hist.failed <= DoSetConfirm(s, q, read).hist.failed;
    case _ =>
  }

  lemma EarlyMoveKeepsTimers(s: State, q: nat, move: Move, m: Marker)
    requires Timed(s) && AllAccounted(s) && q in s.sets && CanMove(s, q, move)
    requires move.ReadClock? || move.RefuseArgs? || move.Observe?
    requires OwnTimerOnly(s, DoMove(s, q, move), q) && m in DoMove(s, q, move).dev.timers
    ensures Accounted(DoMove(s, q, move), m)
  {
    MovesAreLocal(s, q, move);
    OtherMovesLeaveTimers(s, q, move);
    assert Accounted(s, m);
    StaysAccounted(s, DoMove(s, q, move), q, m);
  }

  lemma RouterMoveKeepsTimers(s: State, q: nat, move: Move, m: Marker)
    requires AllAccounted(s) && q in s.sets && CanMove(s, q, move)
    requires Accounted(DoMove(s, q, move), s.sets[q].marker) && s.hist.failed <= DoMove(s, q, move).hist.failed
    requires OwnTimerOnly(s, DoMove(s, q, move), q) && m in s.dev.timers
    ensures Accounted(DoMove(s, q, move), m)
  {
    MovesAreLocal(s, q, move);
    assert Accounted(s, m);
    StaysAccounted(s, DoMove(s, q, move), q, m);
  }

  lemma ConfirmAddsNoTimer(s: State, q: nat, read: StatusRead)
    requires q in s.sets && CanMove(s, q, ConfirmRead(read))
    ensures DoSetConfirm(s, q, read).dev == s.dev
  {
  }

  lemma OnlyArmAddsATimer(s: State, q: nat, move: Move)
    requires q in s.sets && CanMove(s, q, move)
    ensures DoMove(s, q, move).dev.timers.Keys <= s.dev.timers.Keys + if move.ArmTimer? then {s.sets[q].marker} else {}
  {
    if move.ConfirmRead? {
      ConfirmAddsNoTimer(s, q, move.read);
    }
  }

  lemma MoveKeepsTimers(s: State, q: nat, move: Move, m: Marker)
    requires Timed(s) && AllAccounted(s) && q in s.sets && CanMove(s, q, move)
    requires m in DoMove(s, q, move).dev.timers
    ensures Accounted(DoMove(s, q, move), m)
  {
    FailuresStay(s, q, move);
    assert SetTimed(s, q);
    MoveTouchesOwnTimer(s, q, move);
    if move.ReadClock? || move.RefuseArgs? || move.Observe? {
      EarlyMoveKeepsTimers(s, q, move, m);
    } else {
      OwnTimerAccounted(s, q, move);
      if m in s.dev.timers {
        RouterMoveKeepsTimers(s, q, move, m);
      } else {
        OnlyArmAddsATimer(s, q, move);
      }
    }
  }

  lemma MoveKeepsWritten(s: State, q: nat, move: Move)
    requires Timed(s) && KeptAreWritten(s) && q in s.sets && CanMove(s, q, move)
    ensures KeptAreWritten(DoMove(s, q, move))
  {
    MovesAreLocal(s, q, move);
    assert SetTimed(s, q);
    MoveOnlyWrites(s, q, move);
    if move.ReadClock? || move.RefuseArgs? || move.Observe? {
      OtherMovesLeaveTimers(s, q, move);
    } else {
      OwnTimerAccounted(s, q, move);
    }
  }

  lemma MoveKeepsAccounts(s: State, q: nat, move: Move)
    requires Timed(s) && AllAccounted(s) && q in s.sets && CanMove(s, q, move)
    ensures AllAccounted(DoMove(s, q, move))
  {
    forall m | m in DoMove(s, q, move).dev.timers ensures Accounted(DoMove(s, q, move), m) {
      MoveKeepsTimers(s, q, move, m);
    }
    MoveKeepsWritten(s, q, move);
  }

  /** A timer other than the moving set's stays accounted for as it was. */
  lemma StaysAccounted(s: State, s': State, q: nat, m: Marker)
    requires Accounted(s, m) && q in s.sets && OwnTimerOnly(s, s', q) && MoveShape(s, s', q)
    requires s.hist.failed <= s'.hist.failed
    requires InRouterLayer(s, m) && s.hist.markers[m] == q ==> Accounted(s', m)
    ensures Accounted(s', m)
  {
  }

  /** Steps that arm nothing, and take no set out of the router layer or back from it. */
  lemma InPlaceKeepsAccounts(s: State, s': State)
    requires AllAccounted(s)
    requires s'.dev.timers.Keys == s.dev.timers.Keys && s.dev.written <= s'.dev.written
    requires s'.hist.deadlines == s.hist.deadlines && s'.hist.markers == s.hist.markers && s'.hist.failed == s.hist.failed
    requires forall q :: q in s'.sets ==>
               s'.sets[q].phase.Started? || s'.sets[q].phase.Disarming? || (q in s.sets && SamePlace(s'.sets[q], s.sets[q]))
    requires forall q :: q in s.sets ==>
               s.sets[q].phase.Observed? || s.sets[q].phase.Disarming? || (q in s'.sets && SamePlace(s'.sets[q], s.sets[q]))
    ensures AllAccounted(s')
  {
    forall m | m in s'.dev.timers ensures Accounted(s', m) {
      assert Accounted(s, m);
    }
  }

  lemma FailedIsKept(s: State, step: Step)
    requires Enabled(s, step) && !step.SetMove? && !step.SetFinish? && !step.SetBegin?
    ensures Exec(s, step).hist.failed == s.hist.failed
  {
    if step.SetDisarm? {
      DisarmShape(s, step.mySeq, step.c);
    } else if step.KeepBegin? {
      assert DoKeepBegin(s, step.id).hist == s.hist;
    }
  }

  lemma BeginKeepsAccounts(s: State, target: Option<ExitNodeRef>, prev: Option<ExitNodeRef>)
    requires AllAccounted(s) && s.sh.setSeq + 1 !in s.sets
    ensures AllAccounted(DoSetBegin(s, target, prev))
  {
    InPlaceKeepsAccounts(s, DoSetBegin(s, target, prev));
  }

  lemma FinishKeepsAccounts(s: State, q: nat)
    requires AllAccounted(s) && Enabled(s, SetFinish(q))
    ensures AllAccounted(DoSetFinish(s, q))
  {
    FinishShape(s, q);
    InPlaceKeepsAccounts(s, DoSetFinish(s, q));
  }

  lemma DisarmKeepsAccounts(s: State, q: nat, c: CmdResult)
    requires AllAccounted(s) && Enabled(s, SetDisarm(q, c))
    ensures AllAccounted(DoSetDisarm(s, q, c))
  {
    DisarmShape(s, q, c);
    FailedIsKept(s, SetDisarm(q, c));
    InPlaceKeepsAccounts(s, DoSetDisarm(s, q, c));
  }

  lemma WakeKeepsAccounts(s: State, m: Marker)
    requires AllAccounted(s) && Enabled(s, TimerWakes(m))
    ensures AllAccounted(s.(dev := Wake(s.dev, m)))
  {
    InPlaceKeepsAccounts(s, s.(dev := Wake(s.dev, m)));
  }

  lemma FramedKeepsAccounts(s: State, step: Step)
    requires Timed(s) && AllAccounted(s) && Enabled(s, step)
    requires !step.SetBegin? && !step.SetMove? && !step.SetFinish? && !step.SetDisarm? && !step.TimerWakes?
    ensures AllAccounted(Exec(s, step))
  {
    OthersAreFramed(s, step);
    FailedIsKept(s, step);
    InPlaceKeepsAccounts(s, Exec(s, step));
  }

  lemma AccountsStep(s: State, step: Step)
    requires Ordered(s) && Timed(s) && AllAccounted(s) && Enabled(s, step)
    ensures AllAccounted(Exec(s, step))
  {
    match step
    case SetBegin(target, prev) => NextNumberIsFree(s); BeginKeepsAccounts(s, target, prev);
    case SetMove(q, move) => MoveKeepsAccounts(s, q, move);
    case SetFinish(q) => FinishKeepsAccounts(s, q);
    case SetDisarm(q, c) => DisarmKeepsAccounts(s, q, c);
    case TimerWakes(m) => WakeKeepsAccounts(s, m);
    case _ => FramedKeepsAccounts(s, step);
  }

  ghost predicate TimedAndAccounted(s: State) {
    Ordered(s) && Timed(s) && AllAccounted(s)
  }

  lemma AccountedAlways(s: State)
    requires Reachable(s)
    ensures TimedAndAccounted(s)
  {
    forall t, step | TimedAndAccounted(t) && Enabled(t, step) ensures TimedAndAccounted(Exec(t, step)) {
      OrderedStep(t, step);
      TimedStep(t, step);
      AccountsStep(t, step);
    }
    InvarianceFromInit(TimedAndAccounted, s);
  }

  // ---- Main results -----------------------------------------------------------------------

  /** Every timer whose marker is not written belongs to a set that still holds the router lock, to
      one that came back with an error, or to a confirmed deferred change, which is then tracked:
      past its deadline, the pending entry's, held by a set in flight, or its disarm failed. */
  lemma EveryTimerIsAccountedFor(s: State, m: Marker)
    requires Reachable(s) && m in s.dev.timers && m !in s.dev.written
    ensures InRouterLayer(s, m) || m in s.hist.failed || (m in s.hist.deadlines && Tracked(s, m))
  {
    AccountedAlways(s);
    assert Accounted(s, m);
    if m in s.hist.deadlines {
      assert Tracked(s, m);
    }
  }

  /** A change that came back confirmed and kept: whatever runs afterwards, its timer never puts
      the old exit node back, unless it had before. */
  lemma KeptChangeNeverReverts(s: State, q: nat, steps: seq<Step>, s': State)
    requires Reachable(s) && q in s.sets && CameBackKept(s.sets[q]) && Runs(s, steps, s')
    ensures s.sets[q].marker in s'.dev.reverted <==> s.sets[q].marker in s.dev.reverted
  {
    AccountedAlways(s);
    DecidedRuns(s, steps, s', s.sets[q].marker, s.sets[q].marker in s.dev.reverted);
  }
}
