/** The moves of one set in `Protocol`, made one after the other while it holds the router lock,
    are the router client's own method. */
module ClientSteps {
  import opened Types
  import opened Views
  import opened RouterClient
  import P = Protocol

  /** The set `q` on its way through the router layer, the router lock in hand. */
  function Midway(s: P.State, q: nat, dev: Device, phase: P.SetPhase): P.State
    requires q in s.sets
  {
    s.(dev := dev, sets := s.sets[q := s.sets[q].(phase := phase)], lock := Some(q))
  }

  /** The set `q` back from the router layer with `res`: the lock is free, its marker is recorded as
      failed exactly if there is an error, with its deadline exactly if a Keep is awaited, and
      nothing else has changed. */
  function Back(s: P.State, q: nat, dev: Device, res: ApplyResult): P.State
    requires q in s.sets
  {
    var op := s.sets[q];
    s.(dev := dev, sets := s.sets[q := op.(phase := P.Returned(res))], lock := None,
       hist := s.hist.(
         failed := if res.err.Some? then s.hist.failed + {op.marker} else s.hist.failed,
         deadlines := if res.err.None? && !op.autoKeep then s.hist.deadlines[op.marker := op.armAt + REVERT_WINDOW]
                      else s.hist.deadlines))
  }

  /** The timer of the set may wake between two of its commands. */
  function Woken(s: P.State, woke: bool, m: Marker): P.State {
    if woke then s.(dev := Wake(s.dev, m)) else s
  }

  predicate AboutToCall(s: P.State, q: nat, c: Script) {
    q in s.sets && s.sets[q].phase.Clocked? && s.lock.None? && c.fireAt >= s.clock + REVERT_WINDOW
  }

  lemma SamePlace(s: P.State, q: nat, d: Device, phase: P.SetPhase, op: P.SetOp)
    requires q in s.sets
    ensures Midway(s, q, d, phase).sets[q := op] == s.sets[q := op]
  {
  }

  // ---- One move at a time -----------------------------------------------------------------

  lemma ArmMove(s: P.State, q: nat, c: Script)
    requires AboutToCall(s, q, c)
    ensures var op := s.sets[q];
            var d := Arm(s.dev, op.marker, ExitArg(op.prev), c.fireAt, c.arm);
            P.DoSetArm(s, q, c.arm, c.fireAt)
            == if c.arm.Exit0? then Midway(s, q, d, P.Arming) else Back(s, q, d, CmdFailure(NO_RUNTIME, c.arm, "arm revert"))
  {
  }

  lemma ApplyMove(s: P.State, q: nat, d: Device, c: CmdResult)
    requires q in s.sets
    ensures var d' := Apply(d, ExitArg(s.sets[q].target), c);
            P.DoSetApply(Midway(s, q, d, P.Arming), q, c)
            == if c.Exit0? then Midway(s, q, d', P.Applying) else Back(s, q, d', CmdFailure(NO_RUNTIME, c, "apply exit-node"))
  {
    SamePlace(s, q, d, P.Arming, s.sets[q].(phase := P.Applying));
    if !c.Exit0? {
      SamePlace(s, q, d, P.Arming, s.sets[q].(phase := P.Returned(CmdFailure(NO_RUNTIME, c, "apply exit-node"))));
    }
  }

  lemma ConfirmMove(s: P.State, q: nat, d: Device, read: StatusRead)
    requires q in s.sets
    ensures var op := s.sets[q];
            var verdict := ConfirmVerdict(read, ExitArg(op.target));
            P.DoSetConfirm(Midway(s, q, d, P.Applying), q, read)
            == if verdict.Some? then Back(s, q, d, verdict.value)
               else if op.autoKeep then Midway(s, q, d, P.Keeping(read.rt))
               else Back(s, q, d, ApplyResult(read.rt, op.marker, None))
  {
    var op := s.sets[q];
    var verdict := ConfirmVerdict(read, ExitArg(op.target));
    if verdict.Some? {
      SamePlace(s, q, d, P.Applying, op.(phase := P.Returned(verdict.value)));
    } else if op.autoKeep {
      SamePlace(s, q, d, P.Applying, op.(phase := P.Keeping(read.rt)));
    } else {
      SamePlace(s, q, d, P.Applying, op.(phase := P.Returned(ApplyResult(read.rt, op.marker, None))));
    }
  }

  lemma KeepMove(s: P.State, q: nat, d: Device, rt: Runtime, c: CmdResult)
    requires q in s.sets && s.sets[q].autoKeep
    ensures P.DoSetKeep(Midway(s, q, d, P.Keeping(rt)), q, c)
         == Back(s, q, WriteMarker(d, s.sets[q].marker, c), KeepVerdict(rt, c))
  {
    SamePlace(s, q, d, P.Keeping(rt), s.sets[q].(phase := P.Returned(KeepVerdict(rt, c))));
  }

  lemma WakeMidway(s: P.State, q: nat, d: Device, phase: P.SetPhase, woke: bool)
    requires q in s.sets
    ensures Woken(Midway(s, q, d, phase), woke, s.sets[q].marker) == Midway(s, q, WakeIf(d, woke, s.sets[q].marker), phase)
  {
  }

  // ---- All of them ------------------------------------------------------------------------

  /** The set's moves from one of them on, each made once the one before it has succeeded. */
  function FromArm(s: P.State, q: nat, c: Script): P.State
    requires AboutToCall(s, q, c)
  {
    ArmMove(s, q, c);
    var t := P.DoMove(s, q, P.ArmTimer(c.arm, c.fireAt));
    if c.arm.Exit0? then FromApply(Woken(t, c.woke2, s.sets[q].marker), q, c) else t
  }

  function FromApply(s: P.State, q: nat, c: Script): P.State
    requires q in s.sets && s.sets[q].phase.Arming? && s.lock == Some(q)
  {
    var t := P.DoMove(s, q, P.ApplyTarget(c.apply));
    if c.apply.Exit0? then FromConfirm(Woken(t, c.woke3, s.sets[q].marker), q, c) else t
  }

  function FromConfirm(s: P.State, q: nat, c: Script): P.State
    requires q in s.sets && s.sets[q].phase.Applying? && s.lock == Some(q)
  {
    var t := P.DoMove(s, q, P.ConfirmRead(c.read));
    if q in t.sets && t.sets[q].phase.Keeping? && t.lock == Some(q)
    then P.DoMove(Woken(t, c.woke4, s.sets[q].marker), q, P.KeepInline(c.keep)) else t
  }

  function Called(s: P.State, q: nat, c: Script): P.State
    requires AboutToCall(s, q, c)
  {
    if c.argsValid then FromArm(s, q, c) else P.DoMove(s, q, P.RefuseArgs)
  }

  lemma FromConfirmIsTheClient(s: P.State, q: nat, d: Device, c: Script)
    requires q in s.sets && ReachedConfirm(c)
    ensures var op := s.sets[q];
            var d' := if ReachedKeep(c, ExitArg(op.target), op.autoKeep) then WriteMarker(WakeIf(d, c.woke4, op.marker), op.marker, c.keep) else d;
            FromConfirm(Midway(s, q, d, P.Applying), q, c) == Back(s, q, d', ResultOf(op.marker, ExitArg(op.target), op.autoKeep, c))
  {
    var op := s.sets[q];
    ConfirmMove(s, q, d, c.read);
    if ReachedKeep(c, ExitArg(op.target), op.autoKeep) {
      WakeMidway(s, q, d, P.Keeping(c.read.rt), c.woke4);
      KeepMove(s, q, WakeIf(d, c.woke4, op.marker), c.read.rt, c.keep);
    }
  }

  lemma FromApplyIsTheClient(s: P.State, q: nat, d: Device, c: Script)
    requires q in s.sets && ReachedApply(c)
    ensures var op := s.sets[q];
            var applied := Apply(d, ExitArg(op.target), c.apply);
            var read := WakeIf(applied, c.woke3, op.marker);
            var d' := if !c.apply.Exit0? then applied
                      else if ReachedKeep(c, ExitArg(op.target), op.autoKeep) then WriteMarker(WakeIf(read, c.woke4, op.marker), op.marker, c.keep)
                      else read;
            FromApply(Midway(s, q, d, P.Arming), q, c) == Back(s, q, d', ResultOf(op.marker, ExitArg(op.target), op.autoKeep, c))
  {
    var op := s.sets[q];
    ApplyMove(s, q, d, c.apply);
    if c.apply.Exit0? {
      var applied := Apply(d, ExitArg(op.target), c.apply);
      WakeMidway(s, q, applied, P.Applying, c.woke3);
      FromConfirmIsTheClient(s, q, WakeIf(applied, c.woke3, op.marker), c);
    }
  }

  /** For every script the machine's set ends with the device and the result of the client's
      method. */
  lemma MovesAreTheClient(s: P.State, q: nat, c: Script)
    requires AboutToCall(s, q, c)
    ensures var op := s.sets[q];
            Called(s, q, c)
            == Back(s, q, DeviceAfter(s.dev, op.marker, ExitArg(op.target), ExitArg(op.prev), op.autoKeep, c),
                    ResultOf(op.marker, ExitArg(op.target), op.autoKeep, c))
  {
    var op := s.sets[q];
    if c.argsValid {
      ArmMove(s, q, c);
      if c.arm.Exit0? {
        var armed := Arm(s.dev, op.marker, ExitArg(op.prev), c.fireAt, c.arm);
        WakeMidway(s, q, armed, P.Arming, c.woke2);
        FromApplyIsTheClient(s, q, WakeIf(armed, c.woke2, op.marker), c);
      }
    }
  }
}
