/** Idle suspension: the SSE hub's client count, its cap-1 latest-wins edge channel, and the
    poller's Run loop at the other end (internal/sse/hub.go, internal/poller/poller.go). */
module IdleLoop {
  import opened Types
  import opened Machines

  /** The locals of Poller.Run. `busy` is a Refresh under way: the loop is not selecting. */
  datatype Loop = Loop(active: bool, ticker: bool, lingering: bool, busy: bool)

  function OnTransition(l: Loop, n: nat): Loop {
    if n > 0 then
      var l := l.(lingering := false);
      if l.active then l else l.(active := true, ticker := true, busy := true)
    else if l.active then l.(lingering := true)
    else l
  }

  function OnLinger(l: Loop): Loop {
    l.(active := false, ticker := false, lingering := false)
  }

  /** What one turn of Poller.Run's select can pick. */
  datatype Event = Edge(n: nat) | LingerFired | Ticked

  /** A timer that is not armed is not picked. */
  predicate Pickable(l: Loop, e: Event) {
    (e.LingerFired? ==> l.lingering) && (e.Ticked? ==> l.ticker)
  }

  /** One turn, its Refresh included. */
  function Turn(l: Loop, e: Event): Loop {
    match e
    case Edge(n) => OnTransition(l, n).(busy := false)
    case LingerFired => OnLinger(l)
    case Ticked => l
  }

  function After(events: seq<Event>): Loop {
    if events == [] then Loop(false, false, false, false)
    else Turn(After(events[..|events| - 1]), events[|events| - 1])
  }

  predicate Picks(events: seq<Event>) {
    forall i :: 0 <= i < |events| ==> Pickable(After(events[..i]), events[i])
  }

  /** The client count's last edge; 0 before any. */
  function LastEdge(events: seq<Event>): nat {
    if events == [] then 0
    else if events[|events| - 1].Edge? then events[|events| - 1].n
    else LastEdge(events[..|events| - 1])
  }

  /** Turn `i` refreshes: a tick, or an edge that starts the ticker. */
  predicate RefreshesAt(events: seq<Event>, i: nat)
    requires i < |events|
  {
    events[i].Ticked? || (After(events[..i + 1]).ticker && !After(events[..i]).ticker)
  }

  /** The turns that refresh, among the first `n`. */
  function Refreshed(events: seq<Event>, n: nat): (r: set<nat>)
    requires n <= |events|
  {
    set i: nat | i < n && RefreshesAt(events, i)
  }

  /** What the turn at position `i` makes of the loop, of the last edge and of the refreshes. */
  lemma TurnAt(events: seq<Event>, i: nat)
    requires i < |events|
    ensures After(events[..i + 1]) == Turn(After(events[..i]), events[i])
    ensures LastEdge(events[..i + 1]) == if events[i].Edge? then events[i].n else LastEdge(events[..i])
    ensures Refreshed(events, i + 1) == Refreshed(events, i) + if RefreshesAt(events, i) then {i} else {}
  {
    assert events[..i + 1][..i] == events[..i];
  }

  /** Poller.Run, with its locals as the source keeps them. */
  class Runner {
    var active: bool
    var ticker: bool
    var linger: bool

    constructor ()
      ensures State() == After([])
    {
      active, ticker, linger := false, false, false;
    }

    function State(): Loop
      reads this
    {
      Loop(active, ticker, linger, false)
    }

    /** Over whatever events the select picks: while the last edge says there are clients the
        ticker runs and no suspend is pending, otherwise polling is suspended or about to be;
        and `refreshed` are the turns that refreshed, which are the ticks and the edges that
        started the ticker. */
    method Run(events: seq<Event>) returns (refreshed: set<nat>)
      requires State() == After([]) && Picks(events)
      modifies this
      ensures State() == After(events)
      ensures active <==> ticker
      ensures Agrees(State(), LastEdge(events))
      ensures refreshed == Refreshed(events, |events|)
    {
      refreshed := {};
      for i := 0 to |events|
        invariant State() == After(events[..i])
        invariant (active <==> ticker) && Agrees(State(), LastEdge(events[..i]))
        invariant refreshed == Refreshed(events, i)
      {
        TurnAt(events, i);
        match events[i]
        case Edge(n) =>
          var started := Transition(n);
          if started {
            refreshed := refreshed + {i};
          }
        case LingerFired =>
          active, ticker, linger := false, false, false;
        case Ticked =>
          refreshed := refreshed + {i};
      }
      assert events[..|events|] == events;
    }

    /** The case that takes an edge; `started` says that it must refresh at once. */
    method Transition(n: nat) returns (started: bool)
      modifies this
      ensures State() == OnTransition(old(State()), n).(busy := false)
      ensures started <==> n > 0 && !old(active)
    {
      started := false;
      if n > 0 {
        linger := false;
        if !active {
          active := true;
          ticker := true;
          started := true;
        }
      } else if active {
        linger := true;
      }
    }
  }

  /** Where the hub's goroutine is inside emit: its three selects, one after the other. */
  datatype HubPhase = Selecting | TrySend(v: nat) | DropStale(v: nat) | SendAgain(v: nat)

  datatype State = State(clients: set<nat>, chan: Option<nat>, hub: HubPhase, loop: Loop)

  datatype Step =
    | Register(c: nat)
    | Unregister(c: nat)
    | Emit                 // one select of emit
    | Receive              // the loop takes the edge
    | LingerFires
    | TickFires
    | RefreshEnds

  const INIT := State({}, None, Selecting, Loop(false, false, false, false))

  predicate Enabled(s: State, step: Step) {
    match step
    case Register(_) => s.hub.Selecting?
    case Unregister(_) => s.hub.Selecting?
    case Emit => !s.hub.Selecting?
    case Receive => !s.loop.busy && s.chan.Some?
    case LingerFires => !s.loop.busy && s.loop.lingering
    case TickFires => !s.loop.busy && s.loop.ticker
    case RefreshEnds => s.loop.busy
  }

  function DoEmit(s: State): State
    requires !s.hub.Selecting?
  {
    match s.hub
    case TrySend(v) => if s.chan.None? then s.(chan := Some(v), hub := Selecting) else s.(hub := DropStale(v))
    case DropStale(v) => s.(chan := None, hub := SendAgain(v))
    case SendAgain(v) => if s.chan.None? then s.(chan := Some(v), hub := Selecting) else s.(hub := Selecting)
  }

  function Exec(s: State, step: Step): State
    requires Enabled(s, step)
  {
    match step
    case Register(c) =>
      var clients := s.clients + {c};
      s.(clients := clients, hub := if |clients| == 1 then TrySend(1) else Selecting)
    case Unregister(c) =>
      if c !in s.clients then s
      else
        var clients := s.clients - {c};
        s.(clients := clients, hub := if |clients| == 0 then TrySend(0) else Selecting)
    case Emit => DoEmit(s)
    case Receive => s.(chan := None, loop := OnTransition(s.loop, s.chan.value))
    case LingerFires => s.(loop := OnLinger(s.loop))
    case TickFires => s.(loop := s.loop.(busy := true))
    case RefreshEnds => s.(loop := s.loop.(busy := false))
  }

  function Next(s: State, step: Step): Option<State> {
    if Enabled(s, step) then Some(Exec(s, step)) else None
  }

  // ---- What each side does on its own -------------------------------------------------------

  /** Left alone, emit puts its value into the channel: with one select if there is room, with
      three if an older value has to go first. No select ever replaces a value in one go. */
  lemma EmitTakesThreeSelects(s: State)
    requires s.hub.TrySend?
    ensures var v, one := s.hub.v, Exec(s, Emit);
            if s.chan.None? then one == s.(chan := Some(v), hub := Selecting)
            else
              && one.chan == s.chan && one.hub.DropStale?
              && var two := Exec(one, Emit);
              && two.chan.None? && two.hub.SendAgain? && Exec(two, Emit) == s.(chan := Some(v), hub := Selecting)
  {
  }

  /** Who is connected: the clients whose last word was to register. */
  predicate Joined(steps: seq<Step>, c: nat) {
    if steps == [] then false
    else
      var last := steps[|steps| - 1];
      if last == Register(c) then true
      else if last == Unregister(c) then false
      else Joined(steps[..|steps| - 1], c)
  }

  lemma {:induction false} RunsSplit(s: State, steps: seq<Step>, s': State) returns (mid: State)
    requires steps != [] && Runs(Next, s, steps, s')
    ensures Runs(Next, s, steps[..|steps| - 1], mid) && Next(mid, steps[|steps| - 1]) == Some(s')
    decreases |steps|
  {
    if |steps| == 1 {
      mid := s;
    } else {
      mid := RunsSplit(Next(s, steps[0]).value, steps[1..], s');
      assert steps[..|steps| - 1][1..] == steps[1..][..|steps| - 2];
    }
  }

  lemma {:induction false} ClientsAreThoseJoined(steps: seq<Step>, s: State, c: nat)
    requires Runs(Next, INIT, steps, s)
    ensures c in s.clients <==> Joined(steps, c)
    decreases |steps|
  {
    if steps != [] {
      var mid := RunsSplit(INIT, steps, s);
      ClientsAreThoseJoined(steps[..|steps| - 1], mid, c);
    }
  }

  /** The loop is away from its select exactly during a Refresh: it leaves at a tick or at an edge
      that starts the ticker, and only the end of the Refresh brings it back. */
  lemma BusyIsRefreshing(s: State, step: Step)
    requires Enabled(s, step)
    ensures var s' := Exec(s, step);
            && (!s.loop.busy && s'.loop.busy <==> step.TickFires? || (step.Receive? && s.chan.value > 0 && !s.loop.active))
            && (s.loop.busy && !s'.loop.busy <==> step.RefreshEnds?)
  {
  }

  /** Only emit puts a value into the channel, and the loop takes each value once. */
  lemma EachEdgeIsTakenOnce(s: State, step: Step)
    requires Enabled(s, step)
    ensures var s' := Exec(s, step);
            && (step.Receive? ==> s'.chan.None?)
            && (s'.chan != s.chan ==> step.Emit? || step.Receive?)
            && (step.Emit? && s'.chan.Some? && s'.chan != s.chan ==> s'.chan == Some(s.hub.v))
  {
  }

  // ---- Agreement --------------------------------------------------------------------------

  /** 1 while some client is connected, 0 while none is. */
  function Truth(s: State): nat {
    if s.clients == {} then 0 else 1
  }

  /** Clients are served by a ticking loop with no suspend pending; without clients the loop is
      suspended or about to be. */
  predicate Agrees(l: Loop, truth: nat) {
    if truth > 0 then l.active && l.ticker && !l.lingering
    else !l.active || l.lingering
  }

  predicate Inv(s: State) {
    && (s.loop.active <==> s.loop.ticker)
    && (s.loop.lingering ==> s.loop.active)
    && (match s.hub
        case Selecting =>
          (s.chan.Some? ==> s.chan.value == Truth(s)) && (s.chan.None? ==> Agrees(s.loop, Truth(s)))
        case TrySend(v) => v == Truth(s)
        case DropStale(v) => v == Truth(s)
        case SendAgain(v) => v == Truth(s) && s.chan.None?)
  }

  lemma InvStep(s: State, step: Step)
    requires Inv(s) && Enabled(s, step)
    ensures Inv(Exec(s, step))
  {
    match step
    case Register(c) =>
      if s.clients == {} {
        assert s.clients + {c} == {c};
      }
    case Unregister(c) =>
      if c in s.clients && |s.clients - {c}| == 0 {
        assert s.clients - {c} == {};
      }
    case _ =>
  }

  lemma InvAlways(steps: seq<Step>, s: State)
    requires Runs(Next, INIT, steps, s)
    ensures Inv(s)
  {
    forall t, step | Inv(t) && Next(t, step).Some? ensures Inv(Next(t, step).value) {
      InvStep(t, step);
    }
    Invariance(Next, Inv, INIT, steps, s);
  }

  /** Along every run, whenever the hub is back at its select: a value in the channel is the
      current truth, however many edges collapsed into it, and once the loop has taken it (or
      if there is none) the loop agrees with the client count. No wakeup is lost. */
  lemma LoopFollowsClients(steps: seq<Step>, s: State)
    requires Runs(Next, INIT, steps, s) && s.hub.Selecting?
    ensures s.chan.None? ==> Agrees(s.loop, Truth(s))
    ensures s.chan.Some? ==> s.chan.value == Truth(s) && Agrees(OnTransition(s.loop, s.chan.value), Truth(s))
  {
    InvAlways(steps, s);
  }

  /** emit never loses its own value: the third select always finds room, because the hub is the
      channel's only sender. */
  lemma EmitDelivers(steps: seq<Step>, s: State)
    requires Runs(Next, INIT, steps, s) && s.hub.SendAgain?
    ensures Exec(s, Emit).chan == Some(s.hub.v)
  {
    InvAlways(steps, s);
  }

  /** Linger never suspends polling for clients the hub has reported: if it fires while clients
      are connected, their edge is still in the channel or on its way, and taking it restarts
      the ticker. */
  lemma LingerIsUndone(steps: seq<Step>, s: State)
    requires Runs(Next, INIT, steps, s) && Enabled(s, LingerFires) && s.clients != {}
    ensures var s' := Exec(s, LingerFires);
            || (s'.hub.Selecting? && s'.chan == Some(1) && Exec(s', Receive).loop.ticker)
            || (!s'.hub.Selecting? && s'.hub.v == 1)
  {
    InvAlways(steps, s);
  }
}
