/** The exit-node control protocol as a state machine, seen from one router: concurrent
    SetExitNode, Keep, probe and poll operations of internal/poller/poller.go, interleaved at
    every point where the source releases `mu` or the router lock, over a device whose revert
    timers fire on their own (internal/router/router.go). */
module Protocol {
  import Machines
  import opened Types
  import opened Views
  import opened RouterClient
  import opened Sections

  /** Where a set stands between step 1 and the end of its disarm loop. */
  datatype SetPhase =
    | Started                                 // step 1 published
    | Clocked                                 // armAt read, marker drawn; waits for the router lock
    | Arming                                  // router lock held from here ...
    | Applying
    | Keeping(rt: Runtime)                    // ... confirmed, inline keep still to run
    | Returned(res: ApplyResult)              // router lock released
    | Observed(res: ApplyResult, now: Time, reread: Option<Runtime>)
    | Disarming(todo: seq<Marker>)            // step 3 done

  /** A set in flight. Its identity is the number it drew at step 1 (`mySeq` in the source), the
      key it is filed under. The last three fields are history: since this set's step 1, has a read of the device
      reported its target, has an older gate run out, has the router left the snapshot. */
  datatype SetOp = SetOp(
    target: Option<ExitNodeRef>,
    prev: Option<ExitNodeRef>,
    autoKeep: bool,
    marker: Marker,
    armAt: Time,
    phase: SetPhase,
    sawTarget: bool,
    gateElapsed: bool,
    dropped: bool)

  predicate Unfinished(op: SetOp) {
    !op.phase.Disarming?
  }

  datatype KeepOp = KeepOp(marker: Marker, mySeq: nat, wrote: bool)

  datatype ProbeOp = ProbeOp(genAt: nat, rt: Option<Runtime>)

  /** At most one poll runs at a time. `genAtLoad` is history: the generation when `prev` was
      loaded, before the slow inventory. `touched` is history: something published this router
      since the capture. */
  datatype PollPhase =
    | Idle
    | Loaded(prev: Option<RouterView>, genAtLoad: nat)
    | Captured(prev: Option<RouterView>, genAt: nat, touched: bool)
    | Dialed(prev: Option<RouterView>, input: DialInput, genAt: nat, touched: bool)

  /** What the run did so far: the sequence numbers whose reconcile was published, the deadline
      recorded for each confirmed deferred change, the disarm writes that failed, which set drew
      each marker, the markers of the changes that came back with an error, and whether a poll
      captured generations after a change it could not see. */
  datatype History = History(
    published: seq<nat>,
    deadlines: map<Marker, Time>,
    failedDisarms: set<Marker>,
    markers: map<Marker, nat>,
    failed: set<Marker>,
    gap: bool)

  datatype State = State(
    addr: string,
    requireKeep: bool,
    clock: Time,
    sh: Shared,
    dev: Device,
    lock: Option<nat>,
    sets: map<nat, SetOp>,
    keeps: map<nat, KeepOp>,
    probes: map<nat, ProbeOp>,
    poll: PollPhase,
    hist: History)

  function Init(addr: string, requireKeep: bool, sel: string): State {
    State(addr, requireKeep, 1, Shared(0, 0, None, None), Device(sel, map[], {}, {}), None,
          map[], map[], map[], Idle, History([], map[], {}, map[], {}, false))
  }

  /** What one set does on its own between step 1 and step 3. */
  datatype Move =
    | ReadClock(marker: Marker)
    | RefuseArgs                              // target or prev is not an IPv4 address
    | ArmTimer(c: CmdResult, fireAt: Time)
    | ApplyTarget(c: CmdResult)
    | ConfirmRead(read: StatusRead)
    | KeepInline(c: CmdResult)
    | Observe(read: StatusRead)

  /** Reads may report anything; only `Agreement` assumes that they tell the truth. */
  datatype Step =
    | SetBegin(target: Option<ExitNodeRef>, prev: Option<ExitNodeRef>)
    | SetMove(mySeq: nat, move: Move)
    | SetFinish(mySeq: nat)
    | SetDisarm(mySeq: nat, c: CmdResult)
    | KeepBegin(id: nat)
    | KeepWrite(id: nat, c: CmdResult)
    | KeepFinish(id: nat)
    | ProbeBegin(id: nat)
    | ProbeRead(id: nat, read: StatusRead)
    | ProbeFinish(id: nat)
    | PollLoad
    | PollCapture
    | PollDial(input: DialInput)
    | PollMerge
    | PollDrop                                // the new inventory no longer lists the router
    | TimerWakes(marker: Marker)
    | Tick(to: Time)
    | Drift(sel: string)                      // the selection is changed from elsewhere

  /** The router lock is taken by arm and held until the router layer returns. */
  predicate CanMove(s: State, mySeq: nat, move: Move)
    requires mySeq in s.sets
  {
    var phase := s.sets[mySeq].phase;
    match move
    case ReadClock(m) => phase.Started? && m != "" && m !in s.hist.markers
    case RefuseArgs => phase.Clocked?
    case ArmTimer(_, fireAt) => phase.Clocked? && s.lock.None? && fireAt >= s.clock + REVERT_WINDOW
    case ApplyTarget(_) => phase.Arming? && s.lock == Some(mySeq)
    case ConfirmRead(_) => phase.Applying? && s.lock == Some(mySeq)
    case KeepInline(_) => phase.Keeping? && s.lock == Some(mySeq)
    case Observe(_) => phase.Returned?
  }

  predicate Enabled(s: State, step: Step) {
    match step
    case SetBegin(_, _) => true
    case SetMove(mySeq, move) => mySeq in s.sets && CanMove(s, mySeq, move)
    case SetFinish(mySeq) => mySeq in s.sets && s.sets[mySeq].phase.Observed?
    case SetDisarm(mySeq, _) => mySeq in s.sets && s.sets[mySeq].phase.Disarming? && s.sets[mySeq].phase.todo != [] && s.lock.None?
    case KeepBegin(id) => id !in s.keeps
    case KeepWrite(id, _) => id in s.keeps && !s.keeps[id].wrote && s.lock.None?
    case KeepFinish(id) => id in s.keeps && s.keeps[id].wrote
    case ProbeBegin(id) => id !in s.probes
    case ProbeRead(id, _) => id in s.probes && s.probes[id].rt.None? && s.lock.None?
    case ProbeFinish(id) => id in s.probes && s.probes[id].rt.Some?
    case PollLoad => s.poll.Idle?
    case PollCapture => s.poll.Loaded?
    case PollDial(input) => s.poll.Captured? && (input.Managed? ==> input.at == s.clock && s.lock.None?)
    case PollMerge => s.poll.Dialed?
    case PollDrop => s.poll.Loaded?
    case TimerWakes(m) => m in s.dev.timers && s.dev.timers[m].asleep && s.clock >= s.dev.timers[m].fireAt
    case Tick(to) => to >= s.clock
    case Drift(_) => true
  }

  // ---- Effects ----------------------------------------------------------------------------

  /** Any publish of this router between capture and merge is remembered. */
  function Touch(poll: PollPhase): PollPhase {
    match poll
    case Captured(prev, genAt, _) => Captured(prev, genAt, true)
    case Dialed(prev, input, genAt, _) => Dialed(prev, input, genAt, true)
    case _ => poll
  }

  function Publish(s: State, sh: Shared): State {
    s.(sh := sh, poll := if sh.view.Some? then Touch(s.poll) else s.poll)
  }

  function WithSet(s: State, mySeq: nat, op: SetOp): State {
    s.(sets := s.sets[mySeq := op])
  }

  function NoteFailure(s: State, m: Marker, res: ApplyResult): State {
    if res.err.Some? then s.(hist := s.hist.(failed := s.hist.failed + {m})) else s
  }

  /** The change returns from the router layer; the router lock is released. */
  function Return(s: State, mySeq: nat, res: ApplyResult): State
    requires mySeq in s.sets
  {
    NoteFailure(WithSet(s, mySeq, s.sets[mySeq].(phase := Returned(res))).(lock := None), s.sets[mySeq].marker, res)
  }

  function AfterFinish(s: State, mySeq: nat, todo: seq<Marker>): State
    requires mySeq in s.sets
  {
    if todo == [] then s.(sets := s.sets - {mySeq})
    else WithSet(s, mySeq, s.sets[mySeq].(phase := Disarming(todo)))
  }

  function NoteRead(sets: map<nat, SetOp>, current: Option<ExitNodeRef>): map<nat, SetOp> {
    map id | id in sets :: sets[id].(sawTarget := sets[id].sawTarget || SameExitNode(current, sets[id].target))
  }

  function NoteElapsed(sets: map<nat, SetOp>): map<nat, SetOp> {
    map id | id in sets :: sets[id].(gateElapsed := true)
  }

  function NoteDropped(sets: map<nat, SetOp>): map<nat, SetOp> {
    map id | id in sets :: sets[id].(dropped := true)
  }

  function DoSetBegin(s: State, target: Option<ExitNodeRef>, prev: Option<ExitNodeRef>): State {
    var sh := BeginSet(s.sh, target);
    var s' := Publish(s, sh);
    if s.sh.view.None? then s'   // "no longer present in the snapshot": the call ends here
    else WithSet(s', sh.setSeq, SetOp(target, prev, !s.requireKeep || target.None?, "", 0, Started, false, false, false))
  }

  function DoSetArm(s: State, mySeq: nat, c: CmdResult, fireAt: Time): State
    requires mySeq in s.sets
  {
    var op := s.sets[mySeq];
    var s' := s.(dev := Arm(s.dev, op.marker, ExitArg(op.prev), fireAt, c));
    if c.Exit0? then WithSet(s', mySeq, op.(phase := Arming)).(lock := Some(mySeq))
    else Return(s', mySeq, CmdFailure(NO_RUNTIME, c, "arm revert"))
  }

  function DoSetApply(s: State, mySeq: nat, c: CmdResult): State
    requires mySeq in s.sets
  {
    var op := s.sets[mySeq];
    var s' := s.(dev := Apply(s.dev, ExitArg(op.target), c));
    if c.Exit0? then WithSet(s', mySeq, op.(phase := Applying))
    else Return(s', mySeq, CmdFailure(NO_RUNTIME, c, "apply exit-node"))
  }

  function DoSetConfirm(s: State, mySeq: nat, read: StatusRead): State
    requires mySeq in s.sets
  {
    var op := s.sets[mySeq];
    match ConfirmVerdict(read, ExitArg(op.target))
    case Some(res) => Return(s, mySeq, res)
    case None =>
      if op.autoKeep then WithSet(s, mySeq, op.(phase := Keeping(read.rt)))
      else
        var s' := Return(s, mySeq, ApplyResult(read.rt, op.marker, None));
        s'.(hist := s'.hist.(deadlines := s'.hist.deadlines[op.marker := op.armAt + REVERT_WINDOW]))
  }

  function DoSetKeep(s: State, mySeq: nat, c: CmdResult): State
    requires mySeq in s.sets && s.sets[mySeq].phase.Keeping?
  {
    var op := s.sets[mySeq];
    Return(s.(dev := WriteMarker(s.dev, op.marker, c)), mySeq, KeepVerdict(op.phase.rt, c))
  }

  /** `now` is read, and a definitive failure is followed by a best-effort re-read. */
  function DoSetObserve(s: State, mySeq: nat, read: StatusRead): State
    requires mySeq in s.sets && s.sets[mySeq].phase.Returned?
  {
    var op := s.sets[mySeq];
    var res := op.phase.res;
    var reread := if res.err.Some? && res.err.value.command && read.Read? then Some(read.rt) else None;
    WithSet(s, mySeq, op.(phase := Observed(res, s.clock, reread)))
  }

  function DoMove(s: State, mySeq: nat, move: Move): State
    requires mySeq in s.sets && CanMove(s, mySeq, move)
  {
    match move
    case ReadClock(m) =>
      WithSet(s, mySeq, s.sets[mySeq].(armAt := s.clock, marker := m, phase := Clocked))
        .(hist := s.hist.(markers := s.hist.markers[m := mySeq]))
    case RefuseArgs =>
      var res := ApplyResult(NO_RUNTIME, "", Some(SetErr(false, "invalid exit-node IP")));
      NoteFailure(WithSet(s, mySeq, s.sets[mySeq].(phase := Returned(res))), s.sets[mySeq].marker, res)
    case ArmTimer(c, fireAt) => DoSetArm(s, mySeq, c, fireAt)
    case ApplyTarget(c) => DoSetApply(s, mySeq, c)
    case ConfirmRead(read) => DoSetConfirm(s, mySeq, read)
    case KeepInline(c) => DoSetKeep(s, mySeq, c)
    case Observe(read) => DoSetObserve(s, mySeq, read)
  }

  /** All a move can do to the rest of the state: nothing but the device, the router lock and
      its own phase, marker and clock. */
  predicate MoveShape(s: State, s': State, mySeq: nat)
    requires mySeq in s.sets
  {
    && s' == s.(sets := s'.sets, dev := s'.dev, lock := s'.lock,
                hist := s.hist.(deadlines := s'.hist.deadlines, markers := s'.hist.markers, failed := s'.hist.failed))
    && mySeq in s'.sets
    && s'.sets == s.sets[mySeq := s'.sets[mySeq]]
    && s'.sets[mySeq] == s.sets[mySeq].(phase := s'.sets[mySeq].phase, marker := s'.sets[mySeq].marker, armAt := s'.sets[mySeq].armAt)
    && Unfinished(s.sets[mySeq]) && Unfinished(s'.sets[mySeq])
  }

  lemma ArmIsLocal(s: State, mySeq: nat, move: Move)
    requires mySeq in s.sets && CanMove(s, mySeq, move) && move.ArmTimer?
    ensures MoveShape(s, DoMove(s, mySeq, move), mySeq)
  {
  }

  lemma ApplyIsLocal(s: State, mySeq: nat, move: Move)
    requires mySeq in s.sets && CanMove(s, mySeq, move) && move.ApplyTarget?
    ensures MoveShape(s, DoMove(s, mySeq, move), mySeq)
  {
  }

  lemma ConfirmIsLocal(s: State, mySeq: nat, move: Move)
    requires mySeq in s.sets && CanMove(s, mySeq, move) && move.ConfirmRead?
    ensures MoveShape(s, DoMove(s, mySeq, move), mySeq)
  {
    if ConfirmVerdict(move.read, ExitArg(s.sets[mySeq].target)).None? {
      if s.sets[mySeq].autoKeep {
        assert MoveShape(s, DoMove(s, mySeq, move), mySeq);
      }
    }
  }

  lemma KeepIsLocal(s: State, mySeq: nat, move: Move)
    requires mySeq in s.sets && CanMove(s, mySeq, move) && move.KeepInline?
    ensures MoveShape(s, DoMove(s, mySeq, move), mySeq)
  {
  }

  lemma MovesAreLocal(s: State, mySeq: nat, move: Move)
    requires mySeq in s.sets && CanMove(s, mySeq, move)
    ensures MoveShape(s, DoMove(s, mySeq, move), mySeq)
  {
    match move
    case ArmTimer(_, _) => ArmIsLocal(s, mySeq, move);
    case ApplyTarget(_) => ApplyIsLocal(s, mySeq, move);
    case ConfirmRead(_) => ConfirmIsLocal(s, mySeq, move);
    case KeepInline(_) => KeepIsLocal(s, mySeq, move);
    case _ =>
  }

  function DoSetFinish(s: State, mySeq: nat): State
    requires mySeq in s.sets && s.sets[mySeq].phase.Observed?
  {
    var op := s.sets[mySeq];
    var f := FinishSet(s.sh, mySeq, op.target, op.autoKeep, op.armAt, op.phase.now, op.phase.res, op.phase.reread);
    var s1 := s.(sh := f.sh, hist := if f.published then s.hist.(published := s.hist.published + [mySeq]) else s.hist);
    AfterFinish(if f.published then s1.(poll := Touch(s1.poll)) else s1, mySeq, f.disarm)
  }

  function DoSetDisarm(s: State, mySeq: nat, c: CmdResult): State
    requires mySeq in s.sets && s.sets[mySeq].phase.Disarming? && s.sets[mySeq].phase.todo != []
  {
    var m := s.sets[mySeq].phase.todo[0];
    var s' := s.(dev := WriteMarker(s.dev, m, c),
                 hist := if TookEffect(c) then s.hist else s.hist.(failedDisarms := s.hist.failedDisarms + {m}));
    AfterFinish(s', mySeq, s.sets[mySeq].phase.todo[1..])
  }

  function DoKeepBegin(s: State, id: nat): State {
    var sh := ValidateKeep(s.sh, s.clock);
    match CheckKeep(s.sh, s.clock)
    case Proceed(m, q) => s.(keeps := s.keeps[id := KeepOp(m, q, false)])
    case WindowElapsed => Publish(s, sh).(sets := NoteElapsed(s.sets))
    case _ => s
  }

  function DoKeepWrite(s: State, id: nat, c: CmdResult): State
    requires id in s.keeps
  {
    var s' := s.(dev := WriteMarker(s.dev, s.keeps[id].marker, c));
    if c.Exit0? then s'.(keeps := s.keeps[id := s.keeps[id].(wrote := true)])
    else s'.(keeps := s.keeps - {id})
  }

  predicate KeepSucceeds(s: State, id: nat)
    requires id in s.keeps
  {
    s.keeps[id].wrote && s.sh.setSeq == s.keeps[id].mySeq && s.sh.view.Some?
  }

  function DoKeepFinish(s: State, id: nat): State
    requires id in s.keeps
  {
    var s' := s.(keeps := s.keeps - {id});
    if s.sh.setSeq == s.keeps[id].mySeq then Publish(s', FinishKeep(s.sh, s.keeps[id].mySeq)) else s'
  }

  function DoProbeRead(s: State, id: nat, read: StatusRead): State
    requires id in s.probes
  {
    match read
    case Failed(_, _) => s.(probes := s.probes - {id})
    case Read(rt) => s.(probes := s.probes[id := s.probes[id].(rt := Some(rt))], sets := NoteRead(s.sets, rt.current))
  }

  function DoProbeFinish(s: State, id: nat): State
    requires id in s.probes && s.probes[id].rt.Some?
  {
    var sh := FinishProbe(s.sh, s.probes[id].genAt, s.probes[id].rt.value, s.clock);
    var s' := s.(probes := s.probes - {id});
    if sh != s.sh then Publish(s', sh) else s'
  }

  function DoPollDial(s: State, input: DialInput): State
    requires s.poll.Captured?
  {
    s.(poll := Dialed(s.poll.prev, input, s.poll.genAt, s.poll.touched),
       sets := if input.Managed? && !KnownOffline(input.found) && input.read.Read?
               then NoteRead(s.sets, input.read.rt.current) else s.sets)
  }

  function DoPollMerge(s: State): State
    requires s.poll.Dialed?
  {
    var built := Fresh(s.addr, s.poll.prev, s.poll.input);
    var elapsed := s.sh.setGen == s.poll.genAt && s.sh.keep.Some? && s.clock > s.sh.keep.value.revertAt;
    s.(sh := Merge(s.sh, built, s.poll.genAt, s.clock), poll := Idle,
       sets := if elapsed then NoteElapsed(s.sets) else s.sets)
  }

  function Exec(s: State, step: Step): State
    requires Enabled(s, step)
  {
    match step
    case SetBegin(target, prev) => DoSetBegin(s, target, prev)
    case SetMove(mySeq, move) => DoMove(s, mySeq, move)
    case SetFinish(mySeq) => DoSetFinish(s, mySeq)
    case SetDisarm(mySeq, c) => DoSetDisarm(s, mySeq, c)
    case KeepBegin(id) => DoKeepBegin(s, id)
    case KeepWrite(id, c) => DoKeepWrite(s, id, c)
    case KeepFinish(id) => DoKeepFinish(s, id)
    case ProbeBegin(id) => if s.sh.keep.Some? then s else s.(probes := s.probes[id := ProbeOp(s.sh.setGen, None)])
    case ProbeRead(id, read) => DoProbeRead(s, id, read)
    case ProbeFinish(id) => DoProbeFinish(s, id)
    case PollLoad => s.(poll := Loaded(s.sh.view, s.sh.setGen))
    case PollCapture =>
      s.(poll := Captured(s.poll.prev, s.sh.setGen, false),
         hist := s.hist.(gap := s.hist.gap || s.poll.genAtLoad != s.sh.setGen))
    case PollDial(input) => DoPollDial(s, input)
    case PollMerge => DoPollMerge(s)
    case PollDrop => s.(sh := Unlist(s.sh), poll := Idle, sets := NoteDropped(s.sets))
    case TimerWakes(m) => s.(dev := Wake(s.dev, m))
    case Tick(to) => s.(clock := to)
    case Drift(sel) => s.(dev := s.dev.(sel := sel))
  }

  /** What step 3 leaves: the shared section's result, the publish recorded, and this set
      either gone or left with the markers it must disarm. */
  lemma FinishShape(s: State, mySeq: nat)
    requires mySeq in s.sets && s.sets[mySeq].phase.Observed?
    ensures var op := s.sets[mySeq];
            var f := FinishSet(s.sh, mySeq, op.target, op.autoKeep, op.armAt, op.phase.now, op.phase.res, op.phase.reread);
            var s' := DoSetFinish(s, mySeq);
            && s'.sh == f.sh && s'.sh.setSeq == s.sh.setSeq && s'.sh.setGen == s.sh.setGen + 1
            && s' == s.(sh := s'.sh, hist := s'.hist, sets := s'.sets, poll := s'.poll)
            && s'.hist == s.hist.(published := if f.published then s.hist.published + [mySeq] else s.hist.published)
            && s'.poll == (if f.published then Touch(s.poll) else s.poll)
            && (f.published <==> s.sh.view.Some? && s.sh.setSeq == mySeq)
            && s'.sets == if f.disarm == [] then s.sets - {mySeq} else s.sets[mySeq := op.(phase := Disarming(f.disarm))]
  {
  }

  // ---- Runs -------------------------------------------------------------------------------

  function Next(s: State, step: Step): Option<State> {
    if Enabled(s, step) then Some(Exec(s, step)) else None
  }

  /** `steps` is a run of the protocol that leads from `s` to `s'`. */
  ghost predicate Runs(s: State, steps: seq<Step>, s': State) {
    Machines.Runs(Next, s, steps, s')
  }

  ghost predicate Reachable(s: State) {
    exists addr, requireKeep, sel, steps :: Runs(Init(addr, requireKeep, sel), steps, s)
  }

  /** The induction principle behind every "in each reachable state". */
  lemma InvarianceFromInit(inv: State -> bool, s: State)
    requires Reachable(s)
    requires forall addr, requireKeep, sel :: inv(Init(addr, requireKeep, sel))
    requires forall t, step :: inv(t) && Enabled(t, step) ==> inv(Exec(t, step))
    ensures inv(s)
  {
    var addr, requireKeep, sel, steps :| Runs(Init(addr, requireKeep, sel), steps, s);
    forall t, step | inv(t) && Next(t, step).Some? ensures inv(Next(t, step).value) {
      assert Enabled(t, step);
    }
    Machines.Invariance(Next, inv, Init(addr, requireKeep, sel), steps, s);
  }
}
