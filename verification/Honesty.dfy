/** A change in flight is never shown as done. From step 1 to step 3 of the newest set the
    router shows the target as its intent and not "ok", unless the device itself reported the
    target, an older gate ran out, the router left the snapshot, or a poll fell into the load
    gap. In auto-keep mode with a fixed router list only the first and the last can happen. */
module Honesty {
  import opened Types
  import opened Views
  import opened RouterClient
  import opened Sections
  import opened Protocol
  import opened Supersede
  import opened Gate
  import opened Timers

  /** Nothing has happened since this set's step 1 that may end its intent early. */
  predicate Undisturbed(op: SetOp) {
    Unfinished(op) && op.target.Some? && !op.sawTarget && !op.gateElapsed && !op.dropped
  }

  /** The newest set, if undisturbed, is what the router shows. */
  predicate NewestIsShown(s: State) {
    s.sh.setSeq in s.sets && Undisturbed(s.sets[s.sh.setSeq]) ==> ShowsPending(s.sh.view, s.sets[s.sh.setSeq].target)
  }

  /** A read that reached the device after the newest set began, and is still current, is on
      that set's record. */
  predicate ReadsAreNoted(s: State) {
    s.sh.setSeq in s.sets && Undisturbed(s.sets[s.sh.setSeq]) ==>
      var target := s.sets[s.sh.setSeq].target;
      && (forall id :: id in s.probes && s.probes[id].rt.Some? && s.probes[id].genAt == s.sh.setGen ==>
            !SameExitNode(s.probes[id].rt.value.current, target))
      && (s.poll.Dialed? && s.poll.genAt == s.sh.setGen ==> !ReadsTarget(s.poll.input, target))
  }

  predicate Shown(s: State) {
    ProbesBehind(s) && (!s.hist.gap ==> NewestIsShown(s) && ReadsAreNoted(s))
  }

  // ---- Steps ------------------------------------------------------------------------------

  lemma BeginKeepsShown(s: State, target: Option<ExitNodeRef>, prev: Option<ExitNodeRef>)
    requires Ordered(s) && PollGuarded(s) && Shown(s)
    ensures Shown(DoSetBegin(s, target, prev))
  {
    var s' := DoSetBegin(s, target, prev);
    assert s.sh.setSeq + 1 !in s.sets;
    assert s'.sh.setGen == s.sh.setGen + 1 && s'.probes == s.probes;
  }

  lemma MoveKeepsShown(s: State, mySeq: nat, move: Move)
    requires Shown(s) && mySeq in s.sets && CanMove(s, mySeq, move)
    ensures Shown(DoMove(s, mySeq, move))
  {
    MovesAreLocal(s, mySeq, move);
  }

  lemma FinishKeepsShown(s: State, mySeq: nat)
    requires PollGuarded(s) && Shown(s) && mySeq in s.sets && s.sets[mySeq].phase.Observed?
    ensures Shown(DoSetFinish(s, mySeq))
  {
    FinishShape(s, mySeq);
  }

  lemma DisarmKeepsShown(s: State, mySeq: nat, c: CmdResult)
    requires Shown(s) && mySeq in s.sets && s.sets[mySeq].phase.Disarming? && s.sets[mySeq].phase.todo != []
    ensures Shown(DoSetDisarm(s, mySeq, c))
  {
    DisarmShape(s, mySeq, c);
  }

  lemma ValidateKeepsShown(s: State, id: nat)
    requires PollGuarded(s) && Shown(s) && id !in s.keeps
    ensures Shown(DoKeepBegin(s, id))
  {
  }

  /** A Keep that gets to publish belongs to a set that already reconciled. */
  lemma KeptKeepsShown(s: State, id: nat)
    requires Ordered(s) && PollGuarded(s) && Shown(s) && id in s.keeps && s.keeps[id].wrote
    ensures Shown(DoKeepFinish(s, id))
  {
    if s.sh.setSeq == s.keeps[id].mySeq {
      assert s.sh.setSeq in s.hist.published;
    }
  }

  lemma ProbeReadKeepsShown(s: State, id: nat, read: StatusRead)
    requires Shown(s) && id in s.probes && s.probes[id].rt.None?
    ensures Shown(DoProbeRead(s, id, read))
  {
  }

  lemma ProbeKeepsShown(s: State, id: nat)
    requires PollGuarded(s) && Shown(s) && id in s.probes && s.probes[id].rt.Some?
    ensures Shown(DoProbeFinish(s, id))
  {
  }

  lemma DialKeepsShown(s: State, input: DialInput)
    requires Shown(s) && s.poll.Captured?
    ensures Shown(DoPollDial(s, input))
  {
  }

  /** A fresh view carried from one that shows the intent still shows it, unless the dial read
      the target. */
  lemma FreshShowsPending(addr: string, prev: RouterView, input: DialInput, target: Option<ExitNodeRef>)
    requires prev.desired == target && target.Some? && prev.desiredSince == 0 && prev.state != OK
    requires !ReadsTarget(input, target)
    ensures var v := Fresh(addr, Some(prev), input);
            v.desired == target && v.desiredSince == 0 && v.state != OK
  {
  }

  lemma MergeKeepsShown(s: State)
    requires Guarded(s) && Shown(s) && s.poll.Dialed?
    ensures Shown(DoPollMerge(s))
  {
    var q := s.sh.setSeq;
    if !s.hist.gap && q in s.sets && Undisturbed(s.sets[q]) && s.sh.setGen == s.poll.genAt {
      FreshShowsPending(s.addr, s.sh.view.value, s.poll.input, s.sets[q].target);
    }
  }

  lemma PollSetupKeepsShown(s: State, step: Step)
    requires Shown(s) && Enabled(s, step)
    requires step.PollLoad? || step.PollCapture? || step.PollDrop?
    ensures Shown(Exec(s, step))
  {
  }

  lemma SlowStepsKeepShown(s: State, step: Step)
    requires Shown(s) && Enabled(s, step) && (step.KeepWrite? || step.ProbeBegin?)
    ensures Shown(Exec(s, step))
  {
  }

  lemma DeviceKeepsShown(s: State, step: Step)
    requires Shown(s) && Enabled(s, step) && (step.TimerWakes? || step.Tick? || step.Drift?)
    ensures Shown(Exec(s, step))
  {
    var s' := Exec(s, step);
    assert s' == s.(dev := s'.dev, clock := s'.clock);
  }

  lemma ShownStep(s: State, step: Step)
    requires Gated(s) && Shown(s) && Enabled(s, step)
    ensures Shown(Exec(s, step))
  {
    match step
    case SetBegin(target, prev) => BeginKeepsShown(s, target, prev);
    case SetMove(mySeq, move) => MoveKeepsShown(s, mySeq, move);
    case SetFinish(mySeq) => FinishKeepsShown(s, mySeq);
    case SetDisarm(mySeq, c) => DisarmKeepsShown(s, mySeq, c);
    case KeepBegin(id) => ValidateKeepsShown(s, id);
    case KeepFinish(id) => KeptKeepsShown(s, id);
    case ProbeRead(id, read) => ProbeReadKeepsShown(s, id, read);
    case ProbeFinish(id) => ProbeKeepsShown(s, id);
    case PollDial(input) => DialKeepsShown(s, input);
    case PollMerge => MergeKeepsShown(s);
    case PollLoad | PollCapture | PollDrop => PollSetupKeepsShown(s, step);
    case KeepWrite(_, _) | ProbeBegin(_) => SlowStepsKeepShown(s, step);
    case _ => DeviceKeepsShown(s, step);
  }

  predicate GatedAndShown(s: State) {
    Gated(s) && Shown(s)
  }

  lemma ShownAlways(s: State)
    requires Reachable(s)
    ensures Shown(s)
  {
    forall t, step | GatedAndShown(t) && Enabled(t, step) ensures GatedAndShown(Exec(t, step)) {
      GatedStep(t, step);
      ShownStep(t, step);
    }
    InvarianceFromInit(GatedAndShown, s);
  }

  // ---- Main results -----------------------------------------------------------------------

  /** In-flight honesty. Between step 1 and step 3 of the newest set, with a target to set: the
      router shows that target as pending intent and is not ok, or one of the four recorded
      things happened since step 1. */
  lemma InFlightIsNotSuccess(s: State)
    requires Reachable(s) && !s.hist.gap
    requires s.sh.setSeq in s.sets && Unfinished(s.sets[s.sh.setSeq]) && s.sets[s.sh.setSeq].target.Some?
    ensures var op := s.sets[s.sh.setSeq];
            || op.sawTarget || op.gateElapsed || op.dropped
            || (s.sh.view.Some? && s.sh.view.value.desired == op.target && s.sh.view.value.state != OK)
  {
    ShownAlways(s);
  }

  /** With require-keep off no gate ever exists, so none can run out. */
  predicate NoGates(s: State) {
    !s.requireKeep ==>
      && s.sh.keep.None?
      && (forall q :: q in s.sets ==> s.sets[q].autoKeep && !s.sets[q].gateElapsed)
  }

  lemma KeepLeavesNoGates(s: State, step: Step)
    requires NoGates(s) && Enabled(s, step) && (step.KeepBegin? || step.KeepWrite? || step.KeepFinish?)
    ensures NoGates(Exec(s, step))
  {
  }

  lemma ProbeLeavesNoGates(s: State, step: Step)
    requires NoGates(s) && Enabled(s, step) && (step.ProbeBegin? || step.ProbeRead? || step.ProbeFinish?)
    ensures NoGates(Exec(s, step))
  {
  }

  lemma PollLeavesNoGates(s: State, step: Step)
    requires NoGates(s) && Enabled(s, step)
    requires step.PollLoad? || step.PollCapture? || step.PollDial? || step.PollMerge? || step.PollDrop?
    ensures NoGates(Exec(s, step))
  {
  }

  lemma SetLeavesNoGates(s: State, step: Step)
    requires NoGates(s) && Enabled(s, step) && (step.SetMove? || step.SetFinish? || step.SetDisarm?)
    ensures NoGates(Exec(s, step))
  {
    match step
    case SetMove(mySeq, move) => MovesAreLocal(s, mySeq, move);
    case SetFinish(mySeq) => FinishShape(s, mySeq);
    case SetDisarm(mySeq, c) => DisarmShape(s, mySeq, c);
  }

  lemma NoGatesStep(s: State, step: Step)
    requires NoGates(s) && Enabled(s, step)
    ensures NoGates(Exec(s, step))
  {
    match step
    case SetMove(_, _) | SetFinish(_) | SetDisarm(_, _) => SetLeavesNoGates(s, step);
    case KeepBegin(_) | KeepWrite(_, _) | KeepFinish(_) => KeepLeavesNoGates(s, step);
    case ProbeBegin(_) | ProbeRead(_, _) | ProbeFinish(_) => ProbeLeavesNoGates(s, step);
    case PollLoad | PollCapture | PollDial(_) | PollMerge | PollDrop => PollLeavesNoGates(s, step);
    case _ =>
  }

  /** A run in which the router stays listed: no poll drops it from the snapshot. */
  predicate StaysListed(steps: seq<Step>) {
    forall i :: 0 <= i < |steps| ==> !steps[i].PollDrop?
  }

  predicate NeverDropped(s: State) {
    forall q :: q in s.sets ==> !s.sets[q].dropped
  }

  lemma KeepLeavesNeverDropped(s: State, step: Step)
    requires NeverDropped(s) && Enabled(s, step) && (step.KeepBegin? || step.KeepWrite? || step.KeepFinish?)
    ensures NeverDropped(Exec(s, step))
  {
  }

  lemma ProbeLeavesNeverDropped(s: State, step: Step)
    requires NeverDropped(s) && Enabled(s, step) && (step.ProbeBegin? || step.ProbeRead? || step.ProbeFinish?)
    ensures NeverDropped(Exec(s, step))
  {
  }

  lemma NeverDroppedStep(s: State, step: Step)
    requires NeverDropped(s) && Enabled(s, step) && !step.PollDrop?
    ensures NeverDropped(Exec(s, step))
  {
    match step
    case SetMove(mySeq, move) => MovesAreLocal(s, mySeq, move);
    case SetFinish(mySeq) => FinishShape(s, mySeq);
    case SetDisarm(mySeq, c) => DisarmShape(s, mySeq, c);
    case KeepBegin(_) | KeepWrite(_, _) | KeepFinish(_) => KeepLeavesNeverDropped(s, step);
    case ProbeBegin(_) | ProbeRead(_, _) | ProbeFinish(_) => ProbeLeavesNeverDropped(s, step);
    case _ =>
  }

  lemma {:induction false} QuietRuns(s: State, steps: seq<Step>, s': State)
    requires Runs(s, steps, s') && NoGates(s) && NeverDropped(s) && StaysListed(steps)
    ensures NoGates(s') && NeverDropped(s') && s'.requireKeep == s.requireKeep
    decreases |steps|
  {
    if steps != [] {
      assert !steps[0].PollDrop?;
      NoGatesStep(s, steps[0]);
      NeverDroppedStep(s, steps[0]);
      ModeIsFixed(s, steps[0]);
      QuietRuns(Exec(s, steps[0]), steps[1..], s');
    }
  }

  lemma ModeIsFixed(s: State, step: Step)
    requires Enabled(s, step)
    ensures Exec(s, step).requireKeep == s.requireKeep
  {
    if step.SetMove? {
      MovesAreLocal(s, step.mySeq, step.move);
    }
  }

  /** In auto-keep mode on a fixed router list, while the newest set is in flight its target is
      shown as pending and never as success, unless the device itself reported that target. */
  lemma AutoKeepShowsPendingUntilTheDeviceMoves(addr: string, sel: string, steps: seq<Step>, s: State)
    requires Runs(Init(addr, false, sel), steps, s) && StaysListed(steps) && !s.hist.gap
    requires s.sh.setSeq in s.sets && Unfinished(s.sets[s.sh.setSeq]) && s.sets[s.sh.setSeq].target.Some?
    requires !s.sets[s.sh.setSeq].sawTarget
    ensures s.sh.view.Some?
    ensures s.sh.view.value.desired == s.sets[s.sh.setSeq].target
    ensures s.sh.view.value.state != OK
  {
    QuietRuns(Init(addr, false, sel), steps, s);
    InFlightIsNotSuccess(s);
  }

  /** The deadline the snapshot shows is never later than the moment the device reverts. */
  lemma ShownDeadlineIsConservative(s: State)
    requires Reachable(s) && !s.hist.gap
    requires s.sh.view.Some? && s.sh.view.value.state == AwaitingKeep
    ensures s.sh.keep.Some? && s.sh.keep.value.marker in s.dev.timers
    ensures s.sh.view.value.revertAt <= s.dev.timers[s.sh.keep.value.marker].fireAt
  {
    SnapshotIsHonest(s);
    DeadlineIsConservative(s);
  }

  /** Whether a shown gate can be confirmed. While its deadline has not passed, Keep proceeds if
      and only if no set has started since the gate's own, and then with the marker of the timer
      that guards the shown deadline. A later set that failed leaves the gate shown (poller.go's
      failure arm keeps the entry) but no longer keepable. */
  lemma KeepProceedsExactly(s: State)
    requires Reachable(s) && !s.hist.gap
    requires s.sh.view.Some? && s.sh.view.value.state == AwaitingKeep && s.clock <= s.sh.view.value.revertAt
    ensures var check := CheckKeep(s.sh, s.clock);
            && s.sh.keep.Some?
            && (check.Proceed? <==> s.sh.keep.value.setSeq == s.sh.setSeq)
            && (check.Proceed? ==>
                  check.marker in s.dev.timers && s.sh.view.value.revertAt <= s.dev.timers[check.marker].fireAt)
            && (!check.Proceed? ==> check == NewerSet)
  {
    SnapshotIsHonest(s);
    DeadlineIsConservative(s);
  }

  // ---- After a gap ------------------------------------------------------------------------

  lemma {:induction false} ShownAlong(s: State, steps: seq<Step>, s': State)
    requires Gated(NoGap(s)) && Shown(NoGap(s)) && GapFreeRun(s, steps, s')
    ensures Shown(NoGap(s'))
    decreases |steps|
  {
    if steps != [] {
      StepIgnoresGap(s, steps[0]);
      GatedStep(NoGap(s), steps[0]);
      ShownStep(NoGap(s), steps[0]);
      ShownAlong(Exec(s, steps[0]), steps[1..], s');
    }
  }

  /** In-flight honesty after a gap: once a merge has mended the gate with the newest set
      reconciled, every later set to a target is shown as pending again, as if no gap had been. */
  lemma InFlightRecovers(s: State, steps: seq<Step>, s': State)
    requires Reachable(s) && Clears(s) && GapFreeRun(Exec(s, PollMerge), steps, s')
    requires s.sh.setSeq in s.sets ==> !Unfinished(s.sets[s.sh.setSeq])
    requires s'.sh.setSeq in s'.sets && Unfinished(s'.sets[s'.sh.setSeq]) && s'.sets[s'.sh.setSeq].target.Some?
    ensures var op := s'.sets[s'.sh.setSeq];
            || op.sawTarget || op.gateElapsed || op.dropped
            || (s'.sh.view.Some? && s'.sh.view.value.desired == op.target && s'.sh.view.value.state != OK)
  {
    GatedAlways(s);
    ShownAlways(s);
    MergeClears(s);
    MergeShows(s);
    ShownAlong(Exec(s, PollMerge), steps, s');
  }

  lemma MergeShows(s: State)
    requires Shown(s) && s.poll.Dialed? && (s.sh.setSeq in s.sets ==> !Unfinished(s.sets[s.sh.setSeq]))
    ensures Shown(NoGap(DoPollMerge(s)))
  {
    var s' := DoPollMerge(s);
    assert s'.sh.setSeq == s.sh.setSeq && s'.sh.setGen == s.sh.setGen && s'.probes == s.probes;
    assert s'.sets.Keys == s.sets.Keys && forall q :: q in s.sets ==> s'.sets[q].phase == s.sets[q].phase;
  }
}
