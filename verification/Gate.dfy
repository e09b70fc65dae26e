/** What the snapshot may claim: the awaiting-keep gate it shows is real, and "ok" never hides
    a pending intent. Both can be broken by a poll that loaded the old snapshot, then captured
    the generations after a change it never saw; `hist.gap` records such a capture. */
module Gate {
  import Machines
  import opened Types
  import opened Views
  import opened RouterClient
  import opened Sections
  import opened Protocol
  import opened Supersede

  // ---- The poll's guard -------------------------------------------------------------------

  /** The generation only grows, a publish moves it, and only the merge changes membership. */
  predicate PollGuarded(s: State) {
    match s.poll
    case Idle => true
    case Loaded(prev, genAtLoad) => genAtLoad <= s.sh.setGen && (prev.Some? <==> s.sh.view.Some?)
    case Captured(prev, genAt, touched) =>
      genAt <= s.sh.setGen && (touched ==> genAt < s.sh.setGen && s.sh.view.Some?) && (prev.Some? <==> s.sh.view.Some?)
    case Dialed(prev, _, genAt, touched) =>
      genAt <= s.sh.setGen && (touched ==> genAt < s.sh.setGen && s.sh.view.Some?) && (prev.Some? <==> s.sh.view.Some?)
  }

  predicate ProbesBehind(s: State) {
    forall id :: id in s.probes ==> s.probes[id].genAt <= s.sh.setGen
  }

  /** While the generation stands still, the view the poll carries is the published one. */
  predicate PollCurrent(s: State) {
    match s.poll
    case Idle => true
    case Loaded(prev, genAtLoad) => genAtLoad == s.sh.setGen ==> prev == s.sh.view
    case Captured(prev, genAt, _) => genAt == s.sh.setGen ==> prev == s.sh.view
    case Dialed(prev, _, genAt, _) => genAt == s.sh.setGen ==> prev == s.sh.view
  }

  /** A change the newest set already reconciled leaves no intent behind. */
  predicate IntentSettled(s: State) {
    s.sh.view.Some? && s.sh.view.value.desired.Some? ==>
      && (s.sh.keep.Some? ==> s.sh.keep.value.setSeq != s.sh.setSeq)
      && (forall id :: id in s.keeps ==> s.keeps[id].mySeq != s.sh.setSeq)
  }

  predicate Honest(s: State) {
    PollCurrent(s) && GateCoherent(s.sh) && OkIsSettled(s.sh) && IntentSettled(s)
  }

  predicate Guarded(s: State) {
    PollGuarded(s) && (!s.hist.gap ==> Honest(s))
  }

  predicate Gated(s: State) {
    Ordered(s) && Guarded(s)
  }

  /** Moving the generation leaves no poll in flight believing its view is current. */
  lemma BumpOutdatesPoll(s: State, s': State)
    requires PollGuarded(s)
    requires s'.sh.setGen == s.sh.setGen + 1 && (s'.sh.view.Some? <==> s.sh.view.Some?)
    requires s'.poll == s.poll || (s'.poll == Touch(s.poll) && s'.sh.view.Some?)
    ensures PollGuarded(s') && PollCurrent(s')
  {
  }

  lemma BeginKeepsGate(s: State, target: Option<ExitNodeRef>, prev: Option<ExitNodeRef>)
    requires Gated(s)
    ensures Guarded(DoSetBegin(s, target, prev))
  {
    var s' := DoSetBegin(s, target, prev);
    BumpOutdatesPoll(s, s');
    NumbersAreBehind(s);
  }

  lemma FinishKeepsGate(s: State, mySeq: nat)
    requires Gated(s) && mySeq in s.sets && s.sets[mySeq].phase.Observed?
    ensures Guarded(DoSetFinish(s, mySeq))
  {
    FinishShape(s, mySeq);
    BumpOutdatesPoll(s, DoSetFinish(s, mySeq));
  }

  lemma ElapsedKeepsGate(s: State, s': State)
    requires Gated(s) && s.sh.keep.Some?
    requires s'.sh == DropElapsed(s.sh) && s'.keeps == s.keeps && s'.hist == s.hist
    requires s'.poll == if s'.sh.view.Some? then Touch(s.poll) else s.poll
    ensures Guarded(s')
  {
  }

  lemma ValidateKeepsGate(s: State, id: nat)
    requires Gated(s) && id !in s.keeps
    ensures Guarded(DoKeepBegin(s, id))
  {
    if CheckKeep(s.sh, s.clock) == WindowElapsed {
      ElapsedKeepsGate(s, DoKeepBegin(s, id));
    }
  }

  lemma KeptKeepsGate(s: State, id: nat)
    requires Gated(s) && id in s.keeps && s.keeps[id].wrote
    ensures Guarded(DoKeepFinish(s, id))
  {
  }

  lemma ProbeKeepsGate(s: State, id: nat)
    requires Gated(s) && id in s.probes && s.probes[id].rt.Some?
    ensures Guarded(DoProbeFinish(s, id))
  {
    if DoProbeFinish(s, id).sh != s.sh {
      BumpOutdatesPoll(s, DoProbeFinish(s, id));
    }
  }

  lemma MergeKeepsGate(s: State)
    requires Gated(s) && s.poll.Dialed?
    ensures Guarded(DoPollMerge(s))
  {
    if !s.hist.gap {
      MergeKeepsGateExactly(s.sh, s.addr, s.poll.prev, s.poll.input, s.poll.genAt, s.clock);
    }
  }

  /** Everything else leaves the shared state alone, apart from a router leaving the snapshot,
      and starts no keep. */
  lemma MovesKeepGate(s: State, mySeq: nat, move: Move)
    requires Gated(s) && mySeq in s.sets && CanMove(s, mySeq, move)
    ensures Guarded(DoMove(s, mySeq, move))
  {
    MovesAreLocal(s, mySeq, move);
  }

  lemma KeptOutOfSightKeepsGate(s: State, s': State)
    requires Gated(s) && s'.sh == s.sh && s'.poll == s.poll && s'.hist.gap == s.hist.gap
    requires s'.hist.published == s.hist.published
    requires forall id :: id in s'.keeps ==> id in s.keeps && s'.keeps[id].mySeq == s.keeps[id].mySeq
    ensures Guarded(s')
  {
  }

  lemma DisarmKeepsGate(s: State, mySeq: nat, c: CmdResult)
    requires Gated(s) && Enabled(s, SetDisarm(mySeq, c))
    ensures Guarded(DoSetDisarm(s, mySeq, c))
  {
    KeptOutOfSightKeepsGate(s, DoSetDisarm(s, mySeq, c));
  }

  lemma KeepWriteKeepsGate(s: State, id: nat, c: CmdResult)
    requires Gated(s) && Enabled(s, KeepWrite(id, c))
    ensures Guarded(DoKeepWrite(s, id, c))
  {
    KeptOutOfSightKeepsGate(s, DoKeepWrite(s, id, c));
  }

  lemma ProbingKeepsGate(s: State, step: Step)
    requires Gated(s) && Enabled(s, step) && (step.ProbeBegin? || step.ProbeRead?)
    ensures Guarded(Exec(s, step))
  {
    KeptOutOfSightKeepsGate(s, Exec(s, step));
  }

  lemma PollAndDeviceKeepGate(s: State, step: Step)
    requires Gated(s) && Enabled(s, step)
    requires step.PollLoad? || step.PollCapture? || step.PollDial? || step.PollDrop? || step.TimerWakes? || step.Tick? || step.Drift?
    ensures Guarded(Exec(s, step))
  {
  }

  lemma OperationsKeepGate(s: State, step: Step)
    requires Gated(s) && Enabled(s, step)
    requires step.SetBegin? || step.SetFinish? || step.KeepBegin? || step.KeepFinish? || step.ProbeFinish?
    ensures Guarded(Exec(s, step))
  {
    match step
    case SetBegin(target, prev) => BeginKeepsGate(s, target, prev);
    case SetFinish(mySeq) => FinishKeepsGate(s, mySeq);
    case KeepBegin(id) => ValidateKeepsGate(s, id);
    case KeepFinish(id) => KeptKeepsGate(s, id);
    case ProbeFinish(id) => ProbeKeepsGate(s, id);
  }

  lemma GatedStep(s: State, step: Step)
    requires Gated(s) && Enabled(s, step)
    ensures Gated(Exec(s, step))
  {
    OrderedStep(s, step);
    if step.SetBegin? || step.SetFinish? || step.KeepBegin? || step.KeepFinish? || step.ProbeFinish? {
      OperationsKeepGate(s, step);
    } else if step.PollMerge? {
      MergeKeepsGate(s);
    } else if step.SetMove? {
      MovesKeepGate(s, step.mySeq, step.move);
    } else if step.SetDisarm? {
      DisarmKeepsGate(s, step.mySeq, step.c);
    } else if step.KeepWrite? {
      KeepWriteKeepsGate(s, step.id, step.c);
    } else if step.ProbeBegin? || step.ProbeRead? {
      ProbingKeepsGate(s, step);
    } else {
      PollAndDeviceKeepGate(s, step);
    }
  }

  lemma GatedAlways(s: State)
    requires Reachable(s)
    ensures Gated(s)
  {
    forall t, step | Gated(t) && Enabled(t, step) ensures Gated(Exec(t, step)) {
      GatedStep(t, step);
    }
    InvarianceFromInit(Gated, s);
  }

  /** In every reachable state, unless a poll fell into the load gap: a router shown as
      awaiting a keep has the pending entry whose deadline is shown, and a router shown as ok
      has no pending intent. */
  lemma SnapshotIsHonest(s: State)
    requires Reachable(s) && !s.hist.gap
    ensures GateCoherent(s.sh) && OkIsSettled(s.sh)
  {
    GatedAlways(s);
  }

  /** No lost update: whatever was published for a router between the capture and the merge,
      the merge leaves it as it is, entry included. Holds in the load gap too. */
  lemma MergeLosesNoUpdate(s: State)
    requires Reachable(s) && Enabled(s, PollMerge) && s.poll.touched
    ensures Exec(s, PollMerge).sh == s.sh
  {
    GatedAlways(s);
  }

  // ---- After a gap ------------------------------------------------------------------------

  /** This step captures generations after a change the poll has not loaded. */
  predicate FallsInGap(s: State, step: Step) {
    step.PollCapture? && s.poll.Loaded? && s.poll.genAtLoad != s.sh.setGen
  }

  function GapFreeNext(s: State, step: Step): Option<State> {
    if Enabled(s, step) && !FallsInGap(s, step) then Some(Exec(s, step)) else None
  }

  /** A run in which no poll falls into the load gap. */
  ghost predicate GapFreeRun(s: State, steps: seq<Step>, s': State) {
    Machines.Runs(GapFreeNext, s, steps, s')
  }

  /** The state with its past gaps forgotten. */
  function NoGap(s: State): State {
    s.(hist := s.hist.(gap := false))
  }

  lemma ConfirmIgnoresGap(s: State, q: nat, read: StatusRead)
    requires q in s.sets && CanMove(s, q, ConfirmRead(read))
    ensures DoSetConfirm(NoGap(s), q, read) == NoGap(DoSetConfirm(s, q, read))
  {
    if ConfirmVerdict(read, ExitArg(s.sets[q].target)).None? {
      if s.sets[q].autoKeep {
        assert DoSetConfirm(NoGap(s), q, read) == NoGap(DoSetConfirm(s, q, read));
      }
    }
  }

  lemma MoveIgnoresGap(s: State, q: nat, move: Move)
    requires q in s.sets && CanMove(s, q, move)
    ensures CanMove(NoGap(s), q, move) && DoMove(NoGap(s), q, move) == NoGap(DoMove(s, q, move))
  {
    if move.ConfirmRead? {
      ConfirmIgnoresGap(s, q, move.read);
    }
  }

  lemma BeginIgnoresGap(s: State, target: Option<ExitNodeRef>, prev: Option<ExitNodeRef>)
    ensures DoSetBegin(NoGap(s), target, prev) == NoGap(DoSetBegin(s, target, prev))
  {
  }

  lemma FinishIgnoresGap(s: State, q: nat)
    requires Enabled(s, SetFinish(q))
    ensures DoSetFinish(NoGap(s), q) == NoGap(DoSetFinish(s, q))
  {
    FinishShape(s, q);
    FinishShape(NoGap(s), q);
  }

  lemma DisarmIgnoresGap(s: State, q: nat, c: CmdResult)
    requires Enabled(s, SetDisarm(q, c))
    ensures DoSetDisarm(NoGap(s), q, c) == NoGap(DoSetDisarm(s, q, c))
  {
  }

  lemma KeepBeginIgnoresGap(s: State, id: nat)
    ensures DoKeepBegin(NoGap(s), id) == NoGap(DoKeepBegin(s, id))
  {
    assert CheckKeep(NoGap(s).sh, NoGap(s).clock) == CheckKeep(s.sh, s.clock);
    if CheckKeep(s.sh, s.clock).Proceed? {
    } else if CheckKeep(s.sh, s.clock).WindowElapsed? {
      assert Publish(NoGap(s), DropElapsed(s.sh)) == NoGap(Publish(s, DropElapsed(s.sh)));
    }
  }

  lemma KeepStepIgnoresGap(s: State, step: Step)
    requires Enabled(s, step) && (step.KeepWrite? || step.KeepFinish?)
    ensures Enabled(NoGap(s), step) && Exec(NoGap(s), step) == NoGap(Exec(s, step))
  {
  }

  lemma ProbeStepIgnoresGap(s: State, step: Step)
    requires Enabled(s, step) && (step.ProbeBegin? || step.ProbeRead? || step.ProbeFinish?)
    ensures Enabled(NoGap(s), step) && Exec(NoGap(s), step) == NoGap(Exec(s, step))
  {
  }

  lemma PollStepIgnoresGap(s: State, step: Step)
    requires Enabled(s, step) && !FallsInGap(s, step)
    requires step.PollLoad? || step.PollCapture? || step.PollDial? || step.PollMerge? || step.PollDrop?
             || step.TimerWakes? || step.Tick? || step.Drift?
    ensures Enabled(NoGap(s), step) && Exec(NoGap(s), step) == NoGap(Exec(s, step))
  {
  }

  /** No step looks at past gaps. */
  lemma StepIgnoresGap(s: State, step: Step)
    requires Enabled(s, step) && !FallsInGap(s, step)
    ensures Enabled(NoGap(s), step) && Exec(NoGap(s), step) == NoGap(Exec(s, step))
  {
    match step
    case SetMove(q, move) => MoveIgnoresGap(s, q, move);
    case SetBegin(target, prev) => BeginIgnoresGap(s, target, prev);
    case SetFinish(q) => FinishIgnoresGap(s, q);
    case SetDisarm(q, c) => DisarmIgnoresGap(s, q, c);
    case KeepBegin(id) => KeepBeginIgnoresGap(s, id);
    case KeepWrite(_, _) | KeepFinish(_) => KeepStepIgnoresGap(s, step);
    case ProbeBegin(_) | ProbeRead(_, _) | ProbeFinish(_) => ProbeStepIgnoresGap(s, step);
    case _ => PollStepIgnoresGap(s, step);
  }

  lemma {:induction false} GatedAlong(s: State, steps: seq<Step>, s': State)
    requires Gated(NoGap(s)) && GapFreeRun(s, steps, s')
    ensures Gated(NoGap(s'))
    decreases |steps|
  {
    if steps != [] {
      StepIgnoresGap(s, steps[0]);
      GatedStep(NoGap(s), steps[0]);
      GatedAlong(Exec(s, steps[0]), steps[1..], s');
    }
  }

  /** A poll about to merge, by the guard, what it dialed, leaving no intent that a Keep of the
      newest set could turn to ok. */
  predicate Clears(s: State) {
    && s.poll.Dialed? && s.poll.genAt == s.sh.setGen && s.poll.input.Managed?
    && IntentSettled(DoPollMerge(s))
  }

  lemma MergeClears(s: State)
    requires Gated(s) && Clears(s)
    ensures Gated(NoGap(DoPollMerge(s)))
  {
    GatedStep(s, PollMerge);
    var s' := DoPollMerge(s);
    assert Fresh(s.addr, s.poll.prev, s.poll.input).state != AwaitingKeep;
    assert Honest(s');
  }

  /** One such merge mends what a gap broke: from any reachable state, gaps and all, afterwards the
      shown gate is coherent and ok is settled for as long as no poll falls into the gap again. */
  lemma GateRecovers(s: State, steps: seq<Step>, s': State)
    requires Reachable(s) && Clears(s) && GapFreeRun(Exec(s, PollMerge), steps, s')
    ensures GateCoherent(s'.sh) && OkIsSettled(s'.sh)
  {
    GatedAlways(s);
    MergeClears(s);
    GatedAlong(Exec(s, PollMerge), steps, s');
  }
}
