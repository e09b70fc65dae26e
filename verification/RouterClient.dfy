/** The router side of an exit-node change (internal/router/router.go): the device with its
    self-firing revert timers, the four commands of the dead-man's switch, and the client
    methods that run them in order. SSH is reduced to command outcomes. */
module RouterClient {
  import opened Types
  import opened Views

  /** Outcome of one command. A transport error leaves open whether the command ran. */
  datatype CmdResult = Exit0 | NonZero | Lost(ran: bool)

  predicate TookEffect(c: CmdResult) {
    c.Exit0? || (c.Lost? && c.ran)
  }

  /** A sleeping `sleep 60; [ -f marker ] && exit 0; tailscale set --exit-node=prev`. */
  datatype Timer = Timer(fireAt: Time, prevArg: string, asleep: bool)

  /** `sel` is the device's exit node by IPv4, "" when it routes directly. `reverted` records
      the timers that woke without their marker and put `prev` back. */
  datatype Device = Device(sel: string, timers: map<Marker, Timer>, written: set<Marker>, reverted: set<Marker>)

  function Arm(dev: Device, marker: Marker, prevArg: string, fireAt: Time, c: CmdResult): Device {
    if TookEffect(c) then dev.(timers := dev.timers[marker := Timer(fireAt, prevArg, true)]) else dev
  }

  function Apply(dev: Device, targetArg: string, c: CmdResult): Device {
    if TookEffect(c) then dev.(sel := targetArg) else dev
  }

  function WriteMarker(dev: Device, marker: Marker, c: CmdResult): Device {
    if TookEffect(c) then dev.(written := dev.written + {marker}) else dev
  }

  /** The timer of `marker` wakes: it exits if its marker exists, otherwise it reverts. */
  function Wake(dev: Device, marker: Marker): Device {
    if marker in dev.timers && dev.timers[marker].asleep then
      var d := dev.(timers := dev.timers[marker := dev.timers[marker].(asleep := false)]);
      if marker in dev.written then d
      else d.(sel := dev.timers[marker].prevArg, reverted := dev.reverted + {marker})
    else dev
  }

  /** The `--exit-node=` argument of a ref: "" clears. */
  function ExitArg(ref: Option<ExitNodeRef>): string {
    if ref.None? then "" else ref.value.ip
  }

  predicate Confirmed(rt: Runtime, targetArg: string) {
    if targetArg != "" then rt.current.Some? && rt.current.value.ip == targetArg
    else rt.current.None?
  }

  /** Why a change failed. `command` is "a *CommandError is in the chain": the poller's
      definitive failure. */
  datatype SetErr = SetErr(command: bool, message: string)

  datatype ApplyResult = ApplyResult(rt: Runtime, marker: Marker, err: Option<SetErr>)

  function CmdFailure(rt: Runtime, c: CmdResult, what: string): ApplyResult
    requires c != Exit0
  {
    ApplyResult(rt, "", Some(SetErr(c.NonZero?, what)))
  }

  /** The confirm read's verdict; None means confirmed, go on to keep. A failed read keeps the
      *CommandError of a non-zero status exit in the chain. */
  function ConfirmVerdict(read: StatusRead, targetArg: string): Option<ApplyResult> {
    match read
    case Failed(command, _) => Some(ApplyResult(NO_RUNTIME, "", Some(SetErr(command, "confirm read failed"))))
    case Read(rt) =>
      if Confirmed(rt, targetArg) then None
      else Some(ApplyResult(rt, "", Some(SetErr(false, "exit-node not confirmed"))))
  }

  function KeepVerdict(rt: Runtime, c: CmdResult): ApplyResult {
    if c.Exit0? then ApplyResult(rt, "", None) else CmdFailure(rt, c, "keep marker")
  }

  /** Everything outside the client that one change meets, in order. `wokeN` says the timer
      of this change woke before command N (only possible once it was armed). `argsValid` is
      the IPv4 check on target and prev. */
  datatype Script = Script(
    argsValid: bool,
    fireAt: Time,
    arm: CmdResult, woke2: bool,
    apply: CmdResult, woke3: bool,
    read: StatusRead, woke4: bool,
    keep: CmdResult)

  function WakeIf(dev: Device, woke: bool, marker: Marker): Device {
    if woke then Wake(dev, marker) else dev
  }

  /** The device after each command of a change that got that far. */
  function Armed(dev: Device, marker: Marker, prevArg: string, s: Script): Device {
    Arm(dev, marker, prevArg, s.fireAt, s.arm)
  }

  function Applied(dev: Device, marker: Marker, targetArg: string, prevArg: string, s: Script): Device {
    Apply(WakeIf(Armed(dev, marker, prevArg, s), s.woke2, marker), targetArg, s.apply)
  }

  function AtConfirm(dev: Device, marker: Marker, targetArg: string, prevArg: string, s: Script): Device {
    WakeIf(Applied(dev, marker, targetArg, prevArg, s), s.woke3, marker)
  }

  function Kept(dev: Device, marker: Marker, targetArg: string, prevArg: string, s: Script): Device {
    WriteMarker(WakeIf(AtConfirm(dev, marker, targetArg, prevArg, s), s.woke4, marker), marker, s.keep)
  }

  /** How far a change got: the verdicts of the commands decide it. */
  predicate ReachedApply(s: Script) { s.argsValid && s.arm.Exit0? }
  predicate ReachedConfirm(s: Script) { ReachedApply(s) && s.apply.Exit0? }
  predicate IsConfirmed(s: Script, targetArg: string) { ReachedConfirm(s) && ConfirmVerdict(s.read, targetArg).None? }
  predicate ReachedKeep(s: Script, targetArg: string, autoKeep: bool) { IsConfirmed(s, targetArg) && autoKeep }

  /** Some command of the change exited non-zero: the change came back with a *CommandError. */
  predicate FailedDefinitively(s: Script, targetArg: string, autoKeep: bool) {
    || (s.argsValid && s.arm.NonZero?)
    || (ReachedApply(s) && s.apply.NonZero?)
    || (ReachedConfirm(s) && s.read.Failed? && s.read.command)
    || (ReachedKeep(s, targetArg, autoKeep) && s.keep.NonZero?)
  }

  function DeviceAfter(dev: Device, marker: Marker, targetArg: string, prevArg: string, autoKeep: bool, s: Script): Device {
    if !s.argsValid then dev
    else if !ReachedApply(s) then Armed(dev, marker, prevArg, s)
    else if !ReachedConfirm(s) then Applied(dev, marker, targetArg, prevArg, s)
    else if !ReachedKeep(s, targetArg, autoKeep) then AtConfirm(dev, marker, targetArg, prevArg, s)
    else Kept(dev, marker, targetArg, prevArg, s)
  }

  /** What a change returns to its caller. */
  function ResultOf(marker: Marker, targetArg: string, autoKeep: bool, s: Script): ApplyResult {
    if !s.argsValid then ApplyResult(NO_RUNTIME, "", Some(SetErr(false, "invalid exit-node IP")))
    else if !s.arm.Exit0? then CmdFailure(NO_RUNTIME, s.arm, "arm revert")
    else if !s.apply.Exit0? then CmdFailure(NO_RUNTIME, s.apply, "apply exit-node")
    else
      var verdict := ConfirmVerdict(s.read, targetArg);
      if verdict.Some? then verdict.value
      else if autoKeep then KeepVerdict(s.read.rt, s.keep)
      else ApplyResult(s.read.rt, marker, None)
  }

  /** The device reports the selection that `targetArg` asks for. */
  predicate OnTarget(current: Option<ExitNodeRef>, targetArg: string) {
    ExitArg(current) == targetArg && (targetArg == "" ==> current.None?)
  }

  /** A change is confirmed if and only if the read that follows a clean apply reports the very
      selection asked for. */
  lemma ConfirmedExactly(s: Script, targetArg: string)
    ensures IsConfirmed(s, targetArg)
       <==> s.argsValid && s.arm.Exit0? && s.apply.Exit0? && s.read.Read? && OnTarget(s.read.rt.current, targetArg)
  {
  }

  /** The switch is turned off inline only for a change that was read back on its target. */
  lemma MarkerMeansOnTarget(dev: Device, marker: Marker, targetArg: string, prevArg: string, autoKeep: bool, s: Script)
    requires marker !in dev.written
    requires marker in DeviceAfter(dev, marker, targetArg, prevArg, autoKeep, s).written
    ensures autoKeep && s.read.Read? && OnTarget(s.read.rt.current, targetArg)
  {
    ConfirmedExactly(s, targetArg);
  }

  /** The client bound to one router. The per-router lock makes each method one uninterrupted
      sequence of commands; only timers run meanwhile. */
  class Client {
    var dev: Device

    constructor (dev: Device)
      ensures this.dev == dev
    {
      this.dev := dev;
    }

    /** arm, apply, confirm, and keep when `autoKeep`. */
    method ApplyExitNode(target: Option<ExitNodeRef>, prev: Option<ExitNodeRef>, autoKeep: bool,
                         marker: Marker, s: Script)
      returns (res: ApplyResult)
      modifies this
      ensures dev == DeviceAfter(old(dev), marker, ExitArg(target), ExitArg(prev), autoKeep, s)
      ensures res == ResultOf(marker, ExitArg(target), autoKeep, s)
      ensures res.err.None? ==> OnTarget(res.rt.current, ExitArg(target))
      ensures res.err.None? <==>
                && s.argsValid && s.arm.Exit0? && s.apply.Exit0?
                && s.read.Read? && OnTarget(s.read.rt.current, ExitArg(target))
                && (autoKeep ==> s.keep.Exit0?)
      ensures res.err.Some? ==> res.marker == ""
      ensures res.err.None? ==> IsConfirmed(s, ExitArg(target)) && s.read == Read(res.rt)
      ensures res.err.None? <==> IsConfirmed(s, ExitArg(target)) && (autoKeep ==> s.keep.Exit0?)
      ensures res.err.None? ==> res.marker == if autoKeep then "" else marker
      ensures res.err.Some? && res.err.value.command <==> FailedDefinitively(s, ExitArg(target), autoKeep)
    {
      if !s.argsValid {
        return ApplyResult(NO_RUNTIME, "", Some(SetErr(false, "invalid exit-node IP")));
      }
      dev := Arm(dev, marker, ExitArg(prev), s.fireAt, s.arm);
      if s.arm != Exit0 {
        return CmdFailure(NO_RUNTIME, s.arm, "arm revert");
      }
      dev := Apply(WakeIf(dev, s.woke2, marker), ExitArg(target), s.apply);
      if s.apply != Exit0 {
        return CmdFailure(NO_RUNTIME, s.apply, "apply exit-node");
      }
      dev := WakeIf(dev, s.woke3, marker);
      var verdict := ConfirmVerdict(s.read, ExitArg(target));
      if verdict.Some? {
        return verdict.value;
      }
      if !autoKeep {
        return ApplyResult(s.read.rt, marker, None);
      }
      dev := WriteMarker(WakeIf(dev, s.woke4, marker), marker, s.keep);
      return KeepVerdict(s.read.rt, s.keep);
    }

    /** Writes the marker of an earlier deferred change. */
    method KeepExitNode(marker: Marker, c: CmdResult) returns (err: Option<SetErr>)
      modifies this
      ensures dev == WriteMarker(old(dev), marker, c)
      ensures err.None? <==> c.Exit0?
      ensures err.Some? ==> err.value.command == c.NonZero?
    {
      dev := WriteMarker(dev, marker, c);
      if c.Exit0? {
        return None;
      }
      return Some(SetErr(c.NonZero?, "keep marker"));
    }
  }

  // ---- The dead-man's switch --------------------------------------------------------------

  /** The arm command armed the timer. */
  predicate ArmRan(s: Script) { s.argsValid && TookEffect(s.arm) }

  predicate ApplyRan(s: Script) { ReachedApply(s) && TookEffect(s.apply) }

  /** The marker was written before the timer woke: inline, or by a later Keep (`late`, with
      `wokeLate` telling whether the timer woke before it). */
  predicate KeptInTime(s: Script, targetArg: string, autoKeep: bool, late: CmdResult, wokeLate: bool) {
    && !s.woke2 && !s.woke3
    && if autoKeep then ReachedKeep(s, targetArg, autoKeep) && !s.woke4 && TookEffect(s.keep)
       else IsConfirmed(s, targetArg) && !wokeLate && TookEffect(late)
  }

  /** The device once the window has passed and nothing else ran: the timer has woken. For a
      deferred change a Keep came in between. */
  function Settled(dev: Device, marker: Marker, targetArg: string, prevArg: string, autoKeep: bool, s: Script,
                   late: CmdResult, wokeLate: bool): Device {
    var d := DeviceAfter(dev, marker, targetArg, prevArg, autoKeep, s);
    var d' := if !autoKeep && IsConfirmed(s, targetArg) then WriteMarker(WakeIf(d, wokeLate, marker), marker, late) else d;
    Wake(d', marker)
  }

  lemma KeptMeansTarget(dev: Device, marker: Marker, targetArg: string, prevArg: string, autoKeep: bool,
                        s: Script, late: CmdResult, wokeLate: bool)
    requires marker !in dev.timers && marker !in dev.written
    requires ArmRan(s) && KeptInTime(s, targetArg, autoKeep, late, wokeLate)
    ensures var out := Settled(dev, marker, targetArg, prevArg, autoKeep, s, late, wokeLate);
            out.sel == targetArg && marker !in out.reverted - dev.reverted
  {
    var d := AtConfirm(dev, marker, targetArg, prevArg, s);
    assert d.sel == targetArg && d.reverted == dev.reverted;
  }

  lemma UnkeptMeansReverted(dev: Device, marker: Marker, targetArg: string, prevArg: string, autoKeep: bool,
                            s: Script, late: CmdResult, wokeLate: bool)
    requires marker !in dev.timers && marker !in dev.written
    requires ArmRan(s) && !KeptInTime(s, targetArg, autoKeep, late, wokeLate)
    ensures var out := Settled(dev, marker, targetArg, prevArg, autoKeep, s, late, wokeLate);
            && marker in out.reverted
            && out.sel == if s.woke2 && ApplyRan(s) then targetArg else prevArg
  {
    var d1 := Armed(dev, marker, prevArg, s);
    assert d1.timers[marker] == Timer(s.fireAt, prevArg, true);
    var d2 := Applied(dev, marker, targetArg, prevArg, s);
    if ReachedConfirm(s) {
      var d3 := AtConfirm(dev, marker, targetArg, prevArg, s);
      assert s.woke2 || s.woke3 <==> !d3.timers[marker].asleep;
    }
  }

  /** Where the device ends for every outcome of every command and every moment the timer can
      wake: unchanged if the timer was never armed; on `target` if the marker was written in
      time; otherwise on `prev`, unless the timer had already woken before a late apply. The
      selection is never anything but the old one, `prev` or `target`. */
  lemma DeadMansSwitch(dev: Device, marker: Marker, targetArg: string, prevArg: string, autoKeep: bool,
                       s: Script, late: CmdResult, wokeLate: bool)
    requires marker !in dev.timers && marker !in dev.written
    ensures var out := Settled(dev, marker, targetArg, prevArg, autoKeep, s, late, wokeLate);
            && (!ArmRan(s) ==> out.sel == dev.sel && marker !in out.reverted - dev.reverted)
            && (ArmRan(s) && KeptInTime(s, targetArg, autoKeep, late, wokeLate) ==>
                  out.sel == targetArg && marker !in out.reverted - dev.reverted)
            && (ArmRan(s) && !KeptInTime(s, targetArg, autoKeep, late, wokeLate) ==>
                  && marker in out.reverted
                  && out.sel == if s.woke2 && ApplyRan(s) then targetArg else prevArg)
  {
    if ArmRan(s) {
      if KeptInTime(s, targetArg, autoKeep, late, wokeLate) {
        KeptMeansTarget(dev, marker, targetArg, prevArg, autoKeep, s, late, wokeLate);
      } else {
        UnkeptMeansReverted(dev, marker, targetArg, prevArg, autoKeep, s, late, wokeLate);
      }
    }
  }

  /** A change whose commands all land inside the window meets the switch's promise with no
      exception: kept means `target`, not kept means `prev`. */
  lemma PromptSwitch(dev: Device, marker: Marker, targetArg: string, prevArg: string, autoKeep: bool,
                     s: Script, late: CmdResult, wokeLate: bool)
    requires marker !in dev.timers && marker !in dev.written
    requires ArmRan(s) && !s.woke2
    ensures Settled(dev, marker, targetArg, prevArg, autoKeep, s, late, wokeLate).sel
         == if KeptInTime(s, targetArg, autoKeep, late, wokeLate) then targetArg else prevArg
  {
    DeadMansSwitch(dev, marker, targetArg, prevArg, autoKeep, s, late, wokeLate);
  }

  /** What a change that failed so leaves on the device, for every moment its timer can wake. */
  function LeftBy(dev: Device, targetArg: string, prevArg: string, autoKeep: bool, s: Script): string {
    if s.arm.NonZero? then dev.sel
    else if s.apply.NonZero? then (if s.woke2 then prevArg else dev.sel)
    else if !s.woke2 && (s.woke3 || (s.woke4 && ReachedKeep(s, targetArg, autoKeep))) then prevArg
    else targetArg
  }

  /** A *CommandError is taken by the poller to mean "the change did not take". For every such
      failure and every moment the timer can wake, this is what it leaves. Where `prev` is what
      the device was on and the target is not, the poller is right exactly if the failing command
      was arm or apply, or a wake undid the change before the router layer returned. */
  lemma CommandErrorMeansNotApplied(dev: Device, marker: Marker, targetArg: string, prevArg: string,
                                    autoKeep: bool, s: Script)
    requires marker !in dev.timers && marker !in dev.written
    requires FailedDefinitively(s, targetArg, autoKeep)
    ensures DeviceAfter(dev, marker, targetArg, prevArg, autoKeep, s).sel == LeftBy(dev, targetArg, prevArg, autoKeep, s)
    ensures prevArg == dev.sel && targetArg != dev.sel ==>
              (DeviceAfter(dev, marker, targetArg, prevArg, autoKeep, s).sel == dev.sel
               <==> || s.arm.NonZero? || s.apply.NonZero?
                    || (!s.woke2 && (s.woke3 || (s.woke4 && ReachedKeep(s, targetArg, autoKeep)))))
  {
    var d1 := Armed(dev, marker, prevArg, s);
    var d2 := Applied(dev, marker, targetArg, prevArg, s);
    if ReachedConfirm(s) {
      assert d2.sel == targetArg && d2.timers[marker] == Timer(s.fireAt, prevArg, !s.woke2);
    }
  }

  /** A concrete such failure: the confirm read exits non-zero after a successful apply. */
  lemma CommandErrorAfterApply()
    ensures var dev := Device("", map[], {}, {});
            var s := Script(true, 60, Exit0, false, Exit0, false, Failed(true, "status"), false, Exit0);
            && ConfirmVerdict(s.read, "100.64.0.9").Some?
            && ConfirmVerdict(s.read, "100.64.0.9").value.err == Some(SetErr(true, "confirm read failed"))
            && DeviceAfter(dev, "m", "100.64.0.9", "", true, s).sel == "100.64.0.9"
  {
    var dev := Device("", map[], {}, {});
    var s := Script(true, 60, Exit0, false, Exit0, false, Failed(true, "status"), false, Exit0);
    assert Applied(dev, "m", "100.64.0.9", "", s).sel == "100.64.0.9";
  }
}
