/** The hub's two cap-1 latest-wins frame channels (internal/sse/hub.go): one per client,
    written by the hub alone, and the broadcast channel, written by any number of callers. Each
    send is the source's three selects, interleaved with the receivers. */
module ClientChannel {
  import opened Types
  import opened Machines

  datatype Phase = Idle | DropStale | SendAgain

  /** Frames are named by their position in the order Run sends them: `sent` counts the sends
      begun, `got` lists what the client received. */
  datatype State = State(sent: nat, got: seq<nat>, buf: Option<nat>, phase: Phase)

  datatype Step = Send | Drop | Retry | Receive

  const INIT := State(0, [], None, Idle)

  predicate Enabled(s: State, step: Step) {
    match step
    case Send => s.phase.Idle?
    case Drop => s.phase.DropStale?
    case Retry => s.phase.SendAgain?
    case Receive => s.buf.Some?
  }

  function Exec(s: State, step: Step): State
    requires Enabled(s, step)
  {
    match step
    case Send =>
      if s.buf.None? then s.(sent := s.sent + 1, buf := Some(s.sent)) else s.(sent := s.sent + 1, phase := DropStale)
    case Drop => s.(buf := None, phase := SendAgain)
    case Retry => if s.buf.None? && s.sent > 0 then s.(buf := Some(s.sent - 1), phase := Idle) else s.(phase := Idle)
    case Receive => s.(got := s.got + [s.buf.value], buf := None)
  }

  function Next(s: State, step: Step): Option<State> {
    if Enabled(s, step) then Some(Exec(s, step)) else None
  }

  /** Left alone, a send leaves its own frame in the buffer: at once if there is room, with two
      more selects if an older frame has to go first. */
  lemma SendTakesThreeSelects(s: State)
    requires s.phase.Idle?
    ensures var one := Exec(s, Send);
            if s.buf.None? then one == State(s.sent + 1, s.got, Some(s.sent), Idle)
            else
              && one == State(s.sent + 1, s.got, s.buf, DropStale)
              && var two := Exec(one, Drop);
              && two.buf.None? && two.phase.SendAgain? && Exec(two, Retry) == State(s.sent + 1, s.got, Some(s.sent), Idle)
  {
  }

  predicate InOrder(got: seq<nat>) {
    forall i, j :: 0 <= i < j < |got| ==> got[i] < got[j]
  }

  function Latest(got: seq<nat>): int {
    if got == [] then -1 else got[|got| - 1]
  }

  predicate Inv(s: State) {
    && InOrder(s.got)
    && Latest(s.got) < s.sent
    && (s.buf.Some? ==> Latest(s.got) < s.buf.value < s.sent)
    && (match s.phase
        case Idle => if s.buf.Some? then s.buf.value == s.sent - 1 else Latest(s.got) == s.sent - 1
        case DropStale => s.sent > 0 && Latest(s.got) < s.sent - 1 && (s.buf.Some? ==> s.buf.value < s.sent - 1)
        case SendAgain => s.sent > 0 && Latest(s.got) < s.sent - 1 && s.buf.None?)
  }

  lemma InvStep(s: State, step: Step)
    requires Inv(s) && Enabled(s, step)
    ensures Inv(Exec(s, step))
  {
  }

  lemma InvAlways(steps: seq<Step>, s: State)
    requires Runs(Next, INIT, steps, s)
    ensures Inv(s)
  {
    forall t, step | Inv(t) && Next(t, step).Some? ensures Inv(Next(t, step).value) {
      InvStep(t, step);
    }
    Invariance(Next, Inv, INIT, steps, s);
  }

  /** What a client receives is a subsequence of what Run sends, in that order; and whenever Run
      is not in the middle of a send, its last frame is waiting or was the last one received. */
  lemma LastFrameIsNeverLost(steps: seq<Step>, s: State)
    requires Runs(Next, INIT, steps, s)
    ensures InOrder(s.got) && (forall i :: 0 <= i < |s.got| ==> s.got[i] < s.sent)
    ensures s.phase.Idle? && s.sent > 0 ==>
              s.buf == Some(s.sent - 1) || (s.buf.None? && s.got != [] && s.got[|s.got| - 1] == s.sent - 1)
  {
    InvAlways(steps, s);
    forall i | 0 <= i < |s.got| ensures s.got[i] < s.sent {
      assert i == |s.got| - 1 || s.got[i] < s.got[|s.got| - 1];
    }
  }
}

module BroadcastChannel {
  import opened Types
  import opened Machines

  /** A call of Broadcast under way, named by the instant it began. `Dropped` remembers when its
      second select ran. */
  datatype Phase = Trying | Full | Dropped(at: nat)

  /** `ends` are the calls that returned and when; `lastPut` is the call that last placed its
      snapshot, at `putAt`; `taken` is what the hub received, in order. */
  datatype State = State(
    now: nat,
    chan: Option<nat>,
    calls: map<nat, Phase>,
    ends: map<nat, nat>,
    lastPut: Option<nat>,
    putAt: nat,
    taken: seq<nat>)

  datatype Step = Begin | Advance(call: nat) | Receive

  const INIT := State(0, None, map[], map[], None, 0, [])

  predicate Enabled(s: State, step: Step) {
    match step
    case Begin => true
    case Advance(c) => c in s.calls
    case Receive => s.chan.Some?
  }

  function End(s: State, c: nat): State {
    s.(calls := s.calls - {c}, ends := s.ends[c := s.now])
  }

  function Put(s: State, c: nat): State {
    End(s, c).(chan := Some(c), lastPut := Some(c), putAt := s.now)
  }

  function Exec(s: State, step: Step): State
    requires Enabled(s, step)
  {
    var s := s.(now := s.now + 1);
    match step
    case Begin => s.(calls := s.calls[s.now := Trying])
    case Receive => s.(chan := None, taken := s.taken + [s.chan.value])
    case Advance(c) =>
      match s.calls[c]
      case Trying => if s.chan.None? then Put(s, c) else s.(calls := s.calls[c := Full])
      case Full => s.(chan := None, calls := s.calls[c := Dropped(s.now)])
      case Dropped(_) => if s.chan.None? then Put(s, c) else End(s, c)
  }

  function Next(s: State, step: Step): Option<State> {
    if Enabled(s, step) then Some(Exec(s, step)) else None
  }

  /** Left alone, a call places its own snapshot: at once if there is room, with two more selects
      if another has to go first. */
  lemma CallTakesThreeSelects(s: State, c: nat)
    requires c in s.calls && s.calls[c].Trying?
    ensures var one := Exec(s, Advance(c));
            if s.chan.None? then one.chan == one.lastPut == Some(c) && c !in one.calls && c in one.ends
            else
              && one.chan == s.chan && one.lastPut == s.lastPut && c in one.calls
              && var two := Exec(one, Advance(c));
              && two.chan.None? && c in two.calls
              && var three := Exec(two, Advance(c));
              && three.chan == three.lastPut == Some(c) && c !in three.calls && c in three.ends
  {
  }

  /** A call can begin at any time. */
  lemma CallsMayAlwaysBegin(s: State)
    ensures var s' := Next(s, Begin);
            s'.Some? && s'.value.calls.Keys == s.calls.Keys + {s'.value.now} && s'.value.now > s.now
            && s'.value.calls[s'.value.now] == Trying && s'.value.chan == s.chan
  {
  }

  predicate Clocked(s: State) {
    && (forall c :: c in s.calls ==> c <= s.now && c !in s.ends && (s.calls[c].Dropped? ==> c <= s.calls[c].at <= s.now))
    && (forall c :: c in s.ends ==> c <= s.ends[c] <= s.now)
    && s.putAt <= s.now
  }

  /** Every call that returned was followed, or accompanied, by a placement. */
  predicate Covered(s: State) {
    && (s.chan.Some? ==> s.lastPut == s.chan)
    && (s.lastPut.Some? ==> s.lastPut.value in s.ends && s.ends[s.lastPut.value] == s.putAt)
    && (forall c :: c in s.ends ==> s.lastPut.Some? && c <= s.putAt)
    && (forall c :: c in s.calls && s.calls[c].Dropped? && s.chan.Some? ==> s.calls[c].at <= s.putAt)
  }

  /** The last snapshot placed is in the channel, with the hub, or was drained by a call that is
      about to place its own. */
  ghost predicate Kept(s: State) {
    s.lastPut.Some? && s.chan.None? ==>
      || (s.taken != [] && Some(s.taken[|s.taken| - 1]) == s.lastPut)
      || (exists c :: c in s.calls && s.calls[c].Dropped?)
  }

  ghost predicate Inv(s: State) {
    Clocked(s) && Covered(s) && Kept(s)
  }

  lemma InvStep(s: State, step: Step)
    requires Inv(s) && Enabled(s, step)
    ensures Inv(Exec(s, step))
  {
    var s' := Exec(s, step);
    if s'.lastPut.Some? && s'.chan.None? && !(s'.taken != [] && Some(s'.taken[|s'.taken| - 1]) == s'.lastPut) {
      if step.Advance? && s.calls[step.call].Full? {
        assert step.call in s'.calls && s'.calls[step.call].Dropped?;
      } else {
        var c :| c in s.calls && s.calls[c].Dropped?;
        assert c in s'.calls && s'.calls[c].Dropped?;
      }
    }
  }

  lemma InvAlways(steps: seq<Step>, s: State)
    requires Runs(Next, INIT, steps, s)
    ensures Inv(s)
  {
    forall t, step | Inv(t) && Next(t, step).Some? ensures Inv(Next(t, step).value) {
      InvStep(t, step);
    }
    Invariance(Next, Inv, INIT, steps, s);
  }

  /** Once a burst of concurrent broadcasts is over, its outcome is a snapshot no broadcast
      wholly outdates: it is in the channel or was the last one the hub took, and the call that
      brought it had not returned before any other call of the run began. The channel is empty
      only if the hub took that snapshot. */
  lemma BurstLeavesAFreshSnapshot(steps: seq<Step>, s: State)
    requires Runs(Next, INIT, steps, s) && s.calls == map[] && s.ends != map[]
    ensures s.lastPut.Some? && s.lastPut.value in s.ends
    ensures s.chan == s.lastPut || (s.chan.None? && s.taken != [] && Some(s.taken[|s.taken| - 1]) == s.lastPut)
    ensures forall c :: c in s.ends ==> s.ends[s.lastPut.value] >= c
  {
    InvAlways(steps, s);
    var c :| c in s.ends;
  }

  /** No snapshot is with the hub twice, or both with the hub and in the channel, and each is that
      of a call that has returned. */
  ghost predicate TakenOnce(s: State) {
    && (forall i, j :: 0 <= i < j < |s.taken| ==> s.taken[i] != s.taken[j])
    && (forall i :: 0 <= i < |s.taken| ==> s.taken[i] in s.ends && s.chan != Some(s.taken[i]))
    && (s.chan.Some? ==> s.chan.value in s.ends)
  }

  lemma TakenOnceStep(s: State, step: Step)
    requires Clocked(s) && TakenOnce(s) && Enabled(s, step)
    ensures TakenOnce(Exec(s, step))
  {
  }

  /** The hub takes each snapshot at most once, and none that was not placed by a call. */
  lemma EachSnapshotIsTakenOnce(steps: seq<Step>, s: State)
    requires Runs(Next, INIT, steps, s)
    ensures TakenOnce(s)
  {
    forall t, step | (Inv(t) && TakenOnce(t)) && Next(t, step).Some?
      ensures Inv(Next(t, step).value) && TakenOnce(Next(t, step).value)
    {
      InvStep(t, step);
      TakenOnceStep(t, step);
    }
    var both := (t: State) => Inv(t) && TakenOnce(t);
    Invariance(Next, both, INIT, steps, s);
  }

  /** A call gives up its own snapshot only to one placed after this call had begun. */
  lemma OwnSnapshotYieldsToOverlapping(steps: seq<Step>, s: State, c: nat)
    requires Runs(Next, INIT, steps, s) && c in s.calls && s.calls[c].Dropped? && s.chan.Some?
    ensures s.chan.value in s.ends && s.ends[s.chan.value] >= c
  {
    InvAlways(steps, s);
  }
}
