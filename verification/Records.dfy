/** What the machine's history fields record: each changes at exactly the events it stands for, so
    a theorem that excuses a state by one of them excuses nothing else. At the end, when Keeps and
    probes go on. */
module Records {
  import opened Types
  import opened Views
  import opened RouterClient
  import opened Sections
  import opened Protocol

  /** The step reads the device and finds `target`. */
  predicate Reports(step: Step, target: Option<ExitNodeRef>) {
    match step
    case ProbeRead(_, read) => read.Read? && SameExitNode(read.rt.current, target)
    case PollDial(input) => ReadsTarget(input, target)
    case _ => false
  }

  /** The step finds that the pending gate has run out, and ends it. */
  predicate EndsElapsedGate(s: State, step: Step)
    requires Enabled(s, step)
  {
    && s.sh.keep.Some? && s.clock > s.sh.keep.value.revertAt
    && (step.KeepBegin? || (step.PollMerge? && s.sh.setGen == s.poll.genAt))
  }

  lemma NewSetsAreUndisturbed(s: State, target: Option<ExitNodeRef>, prev: Option<ExitNodeRef>)
    requires s.sh.view.Some?
    ensures var s' := Exec(s, SetBegin(target, prev));
            var q := s.sh.setSeq + 1;
            && s'.sets.Keys == s.sets.Keys + {q} && s'.sh.setSeq == q
            && s'.sets[q].phase.Started? && s'.sets[q].target == target && s'.sets[q].prev == prev
            && (s'.sets[q].autoKeep <==> !s.requireKeep || target.None?)
            && !s'.sets[q].sawTarget && !s'.sets[q].gateElapsed && !s'.sets[q].dropped
            && forall id :: id in s.sets && id != q ==> s'.sets[id] == s.sets[id]
  {
  }

  predicate FlagsFollow(s: State, s': State, step: Step, q: nat)
    requires Enabled(s, step) && q in s.sets && q in s'.sets
  {
    var op, op' := s.sets[q], s'.sets[q];
    && (op'.sawTarget <==> op.sawTarget || Reports(step, op.target))
    && (op'.gateElapsed <==> op.gateElapsed || EndsElapsedGate(s, step))
    && (op'.dropped <==> op.dropped || step.PollDrop?)
    && op'.target == op.target && op'.prev == op.prev && op'.autoKeep == op.autoKeep
  }

  lemma BeginFlags(s: State, target: Option<ExitNodeRef>, prev: Option<ExitNodeRef>, q: nat)
    requires q in s.sets && q != s.sh.setSeq + 1
    ensures q in DoSetBegin(s, target, prev).sets && FlagsFollow(s, DoSetBegin(s, target, prev), SetBegin(target, prev), q)
  {
  }

  lemma FinishFlags(s: State, mySeq: nat, q: nat)
    requires Enabled(s, SetFinish(mySeq)) && q in s.sets && q in DoSetFinish(s, mySeq).sets
    ensures FlagsFollow(s, DoSetFinish(s, mySeq), SetFinish(mySeq), q)
  {
    FinishShape(s, mySeq);
  }

  lemma DisarmFlags(s: State, mySeq: nat, c: CmdResult, q: nat)
    requires Enabled(s, SetDisarm(mySeq, c)) && q in s.sets && q in DoSetDisarm(s, mySeq, c).sets
    ensures FlagsFollow(s, DoSetDisarm(s, mySeq, c), SetDisarm(mySeq, c), q)
  {
  }

  lemma KeepBeginFlags(s: State, id: nat, q: nat)
    requires Enabled(s, KeepBegin(id)) && q in s.sets && q in DoKeepBegin(s, id).sets
    ensures FlagsFollow(s, DoKeepBegin(s, id), KeepBegin(id), q)
  {
  }

  lemma ProbeReadFlags(s: State, id: nat, read: StatusRead, q: nat)
    requires Enabled(s, ProbeRead(id, read)) && q in s.sets && q in DoProbeRead(s, id, read).sets
    ensures FlagsFollow(s, DoProbeRead(s, id, read), ProbeRead(id, read), q)
  {
  }

  lemma DialFlags(s: State, input: DialInput, q: nat)
    requires Enabled(s, PollDial(input)) && q in s.sets && q in DoPollDial(s, input).sets
    ensures FlagsFollow(s, DoPollDial(s, input), PollDial(input), q)
  {
  }

  lemma MergeFlags(s: State, q: nat)
    requires Enabled(s, PollMerge) && q in s.sets && q in DoPollMerge(s).sets
    ensures FlagsFollow(s, DoPollMerge(s), PollMerge, q)
  {
  }

  /** The steps that leave every set in flight alone. */
  lemma OtherStepsKeepSets(s: State, step: Step)
    requires Enabled(s, step)
    requires step.KeepWrite? || step.KeepFinish? || step.ProbeBegin? || step.ProbeFinish? || step.PollLoad? || step.PollCapture?
             || step.TimerWakes? || step.Tick? || step.Drift?
    ensures Exec(s, step).sets == s.sets
  {
  }

  /** The three flags of a set in flight. */
  lemma FlagsRecordEvents(s: State, step: Step, q: nat)
    requires Enabled(s, step) && q in s.sets && q in Exec(s, step).sets
    requires step.SetBegin? ==> q != s.sh.setSeq + 1
    ensures FlagsFollow(s, Exec(s, step), step, q)
  {
    match step
    case SetBegin(target, prev) => BeginFlags(s, target, prev, q);
    case SetMove(mySeq, move) => MovesAreLocal(s, mySeq, move);
    case SetFinish(mySeq) => FinishFlags(s, mySeq, q);
    case SetDisarm(mySeq, c) => DisarmFlags(s, mySeq, c, q);
    case KeepBegin(id) => KeepBeginFlags(s, id, q);
    case ProbeRead(id, read) => ProbeReadFlags(s, id, read, q);
    case PollDial(input) => DialFlags(s, input, q);
    case PollMerge => MergeFlags(s, q);
    case PollDrop =>
    case _ => OtherStepsKeepSets(s, step);
  }

  /** What the history gains when step 3 of a set publishes. */
  lemma FinishHistory(s: State, mySeq: nat)
    requires Enabled(s, SetFinish(mySeq))
    ensures DoSetFinish(s, mySeq).hist
         == if s.sh.view.Some? && s.sh.setSeq == mySeq then s.hist.(published := s.hist.published + [mySeq]) else s.hist
  {
    FinishShape(s, mySeq);
  }

  lemma DisarmHistory(s: State, mySeq: nat, c: CmdResult)
    requires Enabled(s, SetDisarm(mySeq, c))
    ensures DoSetDisarm(s, mySeq, c).hist
         == if TookEffect(c) then s.hist
            else s.hist.(failedDisarms := s.hist.failedDisarms + {s.sets[mySeq].phase.todo[0]})
  {
  }

  lemma OtherStepsKeepHistory(s: State, step: Step)
    requires Enabled(s, step)
    requires !step.SetMove? && !step.SetFinish? && !step.SetDisarm? && !step.PollCapture?
    ensures Exec(s, step).hist == s.hist
  {
  }

  /** What the history of the run gains in a step that is no move of a set: a publish, a disarm write
      that failed, a capture later than a change it did not load. */
  lemma HistoryRecordsEvents(s: State, step: Step)
    requires Enabled(s, step) && !step.SetMove?
    ensures Exec(s, step).hist
         == match step
            case SetFinish(q) =>
              if s.sh.view.Some? && s.sh.setSeq == q then s.hist.(published := s.hist.published + [q]) else s.hist
            case SetDisarm(q, c) =>
              if TookEffect(c) then s.hist else s.hist.(failedDisarms := s.hist.failedDisarms + {s.sets[q].phase.todo[0]})
            case PollCapture => s.hist.(gap := s.hist.gap || s.poll.genAtLoad != s.sh.setGen)
            case _ => s.hist
  {
    match step
    case SetFinish(q) => FinishHistory(s, q);
    case SetDisarm(q, c) => DisarmHistory(s, q, c);
    case PollCapture =>
    case _ => OtherStepsKeepHistory(s, step);
  }

  predicate UnderWay(poll: PollPhase) {
    poll.Captured? || poll.Dialed?
  }

  predicate TouchFollows(s: State, s': State)
    requires UnderWay(s.poll)
  {
    && UnderWay(s'.poll)
    && (s.poll.touched || s'.sh.view != s.sh.view ==> s'.poll.touched)
    && s'.poll.genAt == s.poll.genAt && s'.poll.prev == s.poll.prev
    && (s'.poll.touched && !s.poll.touched ==> s'.sh.setGen > s.sh.setGen)
  }

  lemma BeginTouches(s: State, target: Option<ExitNodeRef>, prev: Option<ExitNodeRef>)
    requires UnderWay(s.poll)
    ensures TouchFollows(s, DoSetBegin(s, target, prev))
  {
  }

  lemma FinishTouches(s: State, mySeq: nat)
    requires UnderWay(s.poll) && Enabled(s, SetFinish(mySeq))
    ensures TouchFollows(s, DoSetFinish(s, mySeq))
  {
    FinishShape(s, mySeq);
  }

  lemma DisarmTouches(s: State, mySeq: nat, c: CmdResult)
    requires UnderWay(s.poll) && Enabled(s, SetDisarm(mySeq, c))
    ensures TouchFollows(s, DoSetDisarm(s, mySeq, c))
  {
  }

  lemma KeepBeginTouches(s: State, id: nat)
    requires UnderWay(s.poll)
    ensures TouchFollows(s, DoKeepBegin(s, id))
  {
  }

  lemma KeepFinishTouches(s: State, id: nat)
    requires UnderWay(s.poll) && id in s.keeps
    ensures TouchFollows(s, DoKeepFinish(s, id))
  {
  }

  lemma ProbeFinishTouches(s: State, id: nat)
    requires UnderWay(s.poll) && id in s.probes && s.probes[id].rt.Some?
    ensures TouchFollows(s, DoProbeFinish(s, id))
  {
  }

  lemma OtherStepsKeepView(s: State, step: Step)
    requires UnderWay(s.poll) && Enabled(s, step)
    requires step.KeepWrite? || step.ProbeBegin? || step.ProbeRead? || step.PollDial? || step.TimerWakes? || step.Tick? || step.Drift?
    ensures TouchFollows(s, Exec(s, step))
  {
  }

  /** From its capture to its merge the poll is marked as touched once anything has changed the view
      the router is shown with, and stays so; and never unless a generation moved. */
  lemma TouchIsRemembered(s: State, step: Step)
    requires Enabled(s, step) && UnderWay(s.poll) && !step.PollMerge?
    ensures TouchFollows(s, Exec(s, step))
  {
    match step
    case SetBegin(target, prev) => BeginTouches(s, target, prev);
    case SetMove(mySeq, move) => MovesAreLocal(s, mySeq, move);
    case SetFinish(mySeq) => FinishTouches(s, mySeq);
    case SetDisarm(mySeq, c) => DisarmTouches(s, mySeq, c);
    case KeepBegin(id) => KeepBeginTouches(s, id);
    case KeepFinish(id) => KeepFinishTouches(s, id);
    case ProbeFinish(id) => ProbeFinishTouches(s, id);
    case _ => OtherStepsKeepView(s, step);
  }

  /** A capture starts untouched, at the current generation, with what was loaded. */
  lemma CaptureStartsUntouched(s: State)
    requires Enabled(s, PollLoad)
    ensures var loaded := Exec(s, PollLoad);
            && Enabled(loaded, PollCapture)
            && var captured := Exec(loaded, PollCapture);
            && captured.poll == Captured(s.sh.view, s.sh.setGen, false) && captured.hist.gap == s.hist.gap
  {
  }

  // ---- Keeps and probes ---------------------------------------------------------------------

  /** A Keep goes on exactly if its check lets it, holding the newest set's marker. */
  lemma KeepGoesOn(s: State, id: nat)
    requires Enabled(s, KeepBegin(id))
    ensures var s' := Exec(s, KeepBegin(id));
            && s'.sh == ValidateKeep(s.sh, s.clock) && s'.dev == s.dev
            && (id in s'.keeps <==> CheckKeep(s.sh, s.clock).Proceed?)
            && (id in s'.keeps ==>
                  && s.sh.keep.Some? && s'.keeps[id] == KeepOp(s.sh.keep.value.marker, s.sh.setSeq, false)
                  && s'.lock == s.lock)
  {
  }

  /** It goes past its write exactly if that exited 0; either way the marker is there exactly if the
      write took effect or it was there before. */
  lemma KeepGoesPastItsWrite(s: State, id: nat, c: CmdResult)
    requires id in s.keeps && !s.keeps[id].wrote && s.lock.None?
    ensures Enabled(s, KeepWrite(id, c))
    ensures var s' := Exec(s, KeepWrite(id, c));
            && (Enabled(s', KeepFinish(id)) <==> c.Exit0?)
            && s'.dev.written == (if TookEffect(c) then s.dev.written + {s.keeps[id].marker} else s.dev.written)
            && s'.sh == s.sh
  {
  }

  /** A probe begins exactly if no gate is pending, at the current generation, and goes on exactly
      if it read the router. */
  lemma ProbeGoesOn(s: State, id: nat, read: StatusRead)
    requires Enabled(s, ProbeBegin(id))
    ensures var s' := Exec(s, ProbeBegin(id));
            && (id in s'.probes <==> s.sh.keep.None?)
            && s' == s.(probes := s'.probes)
            && (id in s'.probes ==> s'.probes[id] == ProbeOp(s.sh.setGen, None))
    ensures var s' := Exec(s, ProbeBegin(id));
            id in s'.probes && s.lock.None? ==>
              && Enabled(s', ProbeRead(id, read))
              && var s'' := Exec(s', ProbeRead(id, read));
              && (Enabled(s'', ProbeFinish(id)) <==> read.Read?)
              && (read.Read? ==> s''.probes[id].rt == Some(read.rt))
              && s''.sh == s.sh && s''.dev == s.dev
  {
  }
}
