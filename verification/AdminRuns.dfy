/** Group and guest administration through the handlers (internal/api/api.go), with the saves
    failing at will. Creating a guest reads the group store and then changes the guest store;
    deleting a group reads the guest store and then changes the group store. Between the two
    halves anything may happen, so each handler is two steps here. The stores stay sound in every
    run; every guest keeps its zone exactly as long as no second half comes too late. */
module AdminRuns {
  import Groups = GroupStore
  import Guests = GuestStore
  import Zones
  import opened Machines
  import opened Text
  import opened Types

  /** A handler whose check has passed and whose change is still to come. */
  datatype Handler =
    | DeletingGroup(id: string)
    | CreatingGuest(loginLabel: string, zoneID: string, pw: seq<bv8>)

  datatype State = State(
    groups: seq<Group>, groupsDisk: seq<Group>,
    guests: seq<Guests.Guest>, guestsDisk: seq<Guests.Guest>,
    handlers: map<nat, Handler>)

  /** Each step carries what the environment decides for it: a fresh id, whether the save works,
      what bcrypt returned, the clock. The handlers that touch one store are one step. */
  datatype Step =
    | CreateGroup(g: Group, freshID: string, works: bool)
    | UpdateGroup(id: string, g: Group, works: bool)
    | CheckDelete(h: nat, id: string)
    | CommitDelete(h: nat, works: bool)
    | CheckCreate(h: nat, loginLabel: string, zoneID: string, pw: seq<bv8>)
    | CommitCreate(h: nat, hash: Option<string>, freshID: string, now: Time, works: bool)
    | SetGuestDisabled(id: string, disabled: bool, works: bool)
    | DeleteGuest(id: string, works: bool)
    | Restart                                 // both stores load their files again

  const INIT := State([], [], [], [], map[])

  predicate Enabled(s: State, step: Step) {
    match step
    case CreateGroup(_, id, _) => id != "" && Trimmed(id) && Groups.IndexOf(s.groups, id) < 0
    case CheckDelete(h, _) => h !in s.handlers
    case CommitDelete(h, _) => h in s.handlers && s.handlers[h].DeletingGroup?
    case CheckCreate(h, _, _, _) => h !in s.handlers
    case CommitCreate(h, _, id, _, _) => h in s.handlers && s.handlers[h].CreatingGuest? && id != "" && Guests.IndexOf(s.guests, id) < 0
    case _ => true
  }

  /** "zone in use". */
  predicate ZoneInUse(guests: seq<Guests.Guest>, zoneID: string) {
    exists i :: 0 <= i < |guests| && guests[i].zoneID == zoneID
  }

  /** handleCreateGuest's check. */
  predicate ZoneExists(groups: seq<Group>, zoneID: string) {
    Groups.Get(groups, zoneID).Some?
  }

  /** The file follows the set exactly when the request was saved. */
  function WithGroups(s: State, outcome: (seq<Group>, Groups.Result)): State {
    s.(groups := outcome.0, groupsDisk := if outcome.1.Stored? || outcome.1.Done? then outcome.0 else s.groupsDisk)
  }

  function WithGuests(s: State, outcome: (seq<Guests.Guest>, Guests.Result)): State {
    s.(guests := outcome.0, guestsDisk := if outcome.1.Stored? || outcome.1.Done? then outcome.0 else s.guestsDisk)
  }

  /** What the second half of creating a guest comes to. */
  function Created(fold: char -> char, s: State, step: Step): (seq<Guests.Guest>, Guests.Result)
    requires step.CommitCreate? && Enabled(s, step)
  {
    var h := s.handlers[step.h];
    Guests.CreateIn(fold, s.guests, h.loginLabel, TrimSpace(h.zoneID), h.pw, step.hash, step.freshID, step.now, step.works)
  }

  function Exec(fold: char -> char, s: State, step: Step): State
    requires Enabled(s, step)
  {
    match step
    case CreateGroup(g, id, works) => WithGroups(s, Groups.CreateIn(fold, s.groups, g, id, works))
    case UpdateGroup(id, g, works) => WithGroups(s, Groups.UpdateIn(fold, s.groups, id, g, works))
    case CheckDelete(h, id) =>
      if ZoneInUse(s.guests, id) then s else s.(handlers := s.handlers[h := DeletingGroup(id)])
    case CommitDelete(h, works) =>
      WithGroups(s, Groups.DeleteIn(s.groups, s.handlers[h].id, works)).(handlers := s.handlers - {h})
    case CheckCreate(h, loginLabel, zoneID, pw) =>
      if ZoneExists(s.groups, TrimSpace(zoneID)) then s.(handlers := s.handlers[h := CreatingGuest(loginLabel, zoneID, pw)]) else s
    case CommitCreate(h, _, _, _, _) => WithGuests(s, Created(fold, s, step)).(handlers := s.handlers - {h})
    case SetGuestDisabled(id, disabled, works) => WithGuests(s, Guests.SetDisabledIn(s.guests, id, disabled, works))
    case DeleteGuest(id, works) => WithGuests(s, Guests.DeleteIn(s.guests, id, works))
    case Restart => s.(groups := s.groupsDisk, guests := s.guestsDisk, handlers := map[])
  }

  function Next(fold: char -> char): (State, Step) -> Option<State> {
    (s: State, step: Step) => if Enabled(s, step) then Some(Exec(fold, s, step)) else None
  }

  // ---- The stores -------------------------------------------------------------------------

  /** Memory equals disk; ids are unique, names and labels unique up to case, members clean. */
  ghost predicate Sound(fold: char -> char, s: State) {
    && s.groups == s.groupsDisk && s.guests == s.guestsDisk
    && Groups.Integrity(fold, s.groups) && Guests.Integrity(fold, s.guests)
  }

  lemma DiskFollowsMemory(fold: char -> char, s: State, step: Step)
    requires s.groups == s.groupsDisk && s.guests == s.guestsDisk && Enabled(s, step)
    ensures var s' := Exec(fold, s, step);
            s'.groups == s'.groupsDisk && s'.guests == s'.guestsDisk
  {
  }

  lemma GroupsStaySound(fold: char -> char, s: State, step: Step)
    requires s.groups == s.groupsDisk && Groups.Integrity(fold, s.groups) && Enabled(s, step)
    ensures Groups.Integrity(fold, Exec(fold, s, step).groups)
  {
    match step
    case CreateGroup(g, id, works) => Groups.CreateKeepsIntegrity(fold, s.groups, g, id, works);
    case UpdateGroup(id, g, works) => Groups.UpdateKeepsIntegrity(fold, s.groups, id, g, works);
    case CommitDelete(h, works) => Groups.DeleteKeepsIntegrity(fold, s.groups, s.handlers[h].id, works);
    case _ =>
  }

  lemma GuestsStaySound(fold: char -> char, s: State, step: Step)
    requires s.guests == s.guestsDisk && Guests.Integrity(fold, s.guests) && Enabled(s, step)
    ensures Guests.Integrity(fold, Exec(fold, s, step).guests)
  {
    match step
    case CommitCreate(h, hash, id, now, works) =>
      var c := s.handlers[h];
      Guests.CreateKeepsIntegrity(fold, s.guests, c.loginLabel, TrimSpace(c.zoneID), c.pw, hash, id, now, works);
    case SetGuestDisabled(id, disabled, works) => Guests.SetDisabledKeepsIntegrity(fold, s.guests, id, disabled, works);
    case DeleteGuest(id, works) => Guests.DeleteKeepsIntegrity(fold, s.guests, id, works);
    case _ =>
  }

  /** A restart is always possible. It loses the handlers under way and nothing that was stored;
      requests that touch one store need no more than to arrive. */
  lemma RestartLosesOnlyHandlers(fold: char -> char, s: State, id: string, g: Group, works: bool)
    requires Sound(fold, s)
    ensures Enabled(s, Restart) && Exec(fold, s, Restart) == s.(handlers := map[])
    ensures Enabled(s, UpdateGroup(id, g, works)) && Enabled(s, SetGuestDisabled(id, works, works)) && Enabled(s, DeleteGuest(id, works))
  {
  }

  predicate Unsaved(step: Step) {
    match step
    case CreateGroup(_, _, works) => !works
    case UpdateGroup(_, _, works) => !works
    case CommitDelete(_, works) => !works
    case CommitCreate(_, _, _, _, works) => !works
    case SetGuestDisabled(_, _, works) => !works
    case DeleteGuest(_, works) => !works
    case _ => false
  }

  /** A request whose save fails changes neither store. */
  lemma UnsavedChangesNothing(fold: char -> char, s: State, step: Step)
    requires Enabled(s, step) && Unsaved(step)
    ensures var s' := Exec(fold, s, step);
            s'.groups == s.groups && s'.guests == s.guests && s'.groupsDisk == s.groupsDisk && s'.guestsDisk == s.guestsDisk
  {
  }

  lemma SoundStep(fold: char -> char, s: State, step: Step)
    requires Sound(fold, s) && Enabled(s, step)
    ensures Sound(fold, Exec(fold, s, step))
  {
    DiskFollowsMemory(fold, s, step);
    GroupsStaySound(fold, s, step);
    GuestsStaySound(fold, s, step);
  }

  /** From empty files, whatever requests come, overlap, fail to save or are cut off by a restart,
      the stores are sound. */
  lemma StoresAreAlwaysSound(fold: char -> char, steps: seq<Step>, s: State)
    requires Runs(Next(fold), INIT, steps, s)
    ensures Sound(fold, s)
  {
    forall t, step | Sound(fold, t) && Next(fold)(t, step).Some? ensures Sound(fold, Next(fold)(t, step).value) {
      SoundStep(fold, t, step);
    }
    Invariance(Next(fold), (t: State) => Sound(fold, t), INIT, steps, s);
  }

  // ---- Housing ----------------------------------------------------------------------------

  /** Every guest's zone exists. */
  ghost predicate Housed(s: State) {
    forall i :: 0 <= i < |s.guests| ==> ZoneExists(s.groups, s.guests[i].zoneID)
  }

  /** A second half that comes too late: a group is deleted that a guest has moved into, or a guest
      is stored whose zone has gone. */
  ghost predicate TooLate(fold: char -> char, s: State, step: Step)
    requires Enabled(s, step)
  {
    || (step.CommitDelete? && step.works && ZoneExists(s.groups, s.handlers[step.h].id) && ZoneInUse(s.guests, s.handlers[step.h].id))
    || (step.CommitCreate? && Created(fold, s, step).1.Stored? && !ZoneExists(s.groups, TrimSpace(s.handlers[step.h].zoneID)))
  }

  lemma DeleteCommitHouses(fold: char -> char, s: State, h: nat, works: bool)
    requires Sound(fold, s) && Housed(s) && Enabled(s, CommitDelete(h, works))
    ensures Housed(Exec(fold, s, CommitDelete(h, works))) <==> !TooLate(fold, s, CommitDelete(h, works))
  {
    var id := s.handlers[h].id;
    var s' := Exec(fold, s, CommitDelete(h, works));
    Groups.DeleteRemovesExactly(fold, s.groups, id, works);
    if TooLate(fold, s, CommitDelete(h, works)) {
      var i :| 0 <= i < |s.guests| && s.guests[i].zoneID == id;
      assert !ZoneExists(s'.groups, s'.guests[i].zoneID);
    } else {
      forall i | 0 <= i < |s.guests| ensures ZoneExists(s'.groups, s.guests[i].zoneID) {
        assert ZoneExists(s.groups, s.guests[i].zoneID);
      }
    }
  }

  lemma CreateCommitHouses(fold: char -> char, s: State, step: Step)
    requires Sound(fold, s) && Housed(s) && step.CommitCreate? && Enabled(s, step)
    ensures Housed(Exec(fold, s, step)) <==> !TooLate(fold, s, step)
  {
    var zoneID := TrimSpace(s.handlers[step.h].zoneID);
    TrimSpaceTrims(s.handlers[step.h].zoneID);
    TrimmedStays(zoneID);
    var s' := Exec(fold, s, step);
    if Created(fold, s, step).1.Stored? {
      assert s'.guests[|s.guests|].zoneID == zoneID;
      assert forall i :: 0 <= i < |s.guests| ==> s'.guests[i] == s.guests[i];
    }
  }

  lemma GroupStepsHouse(fold: char -> char, s: State, step: Step)
    requires Sound(fold, s) && Housed(s) && Enabled(s, step) && (step.CreateGroup? || step.UpdateGroup?)
    ensures Housed(Exec(fold, s, step))
  {
    forall i | 0 <= i < |s.guests| ensures ZoneExists(Exec(fold, s, step).groups, s.guests[i].zoneID) {
      match step
      case CreateGroup(g, id, works) => Groups.CreateKeepsIDs(fold, s.groups, g, id, works, s.guests[i].zoneID);
      case UpdateGroup(id, g, works) => Groups.UpdateKeepsIDs(fold, s.groups, id, g, works, s.guests[i].zoneID);
    }
  }

  lemma GuestStepsHouse(fold: char -> char, s: State, step: Step)
    requires Sound(fold, s) && Housed(s) && Enabled(s, step) && (step.SetGuestDisabled? || step.DeleteGuest?)
    ensures Housed(Exec(fold, s, step))
  {
    var s' := Exec(fold, s, step);
    forall i | 0 <= i < |s'.guests| ensures ZoneExists(s.groups, s'.guests[i].zoneID) {
      assert ZoneInUse(s.guests, s'.guests[i].zoneID);
    }
  }

  /** One step keeps every guest housed exactly if it is not a second half that comes too late. */
  lemma StepHousesExactly(fold: char -> char, s: State, step: Step)
    requires Sound(fold, s) && Housed(s) && Enabled(s, step)
    ensures Housed(Exec(fold, s, step)) <==> !TooLate(fold, s, step)
  {
    if step.CommitDelete? {
      DeleteCommitHouses(fold, s, step.h, step.works);
    } else if step.CommitCreate? {
      CreateCommitHouses(fold, s, step);
    } else if step.CreateGroup? || step.UpdateGroup? {
      GroupStepsHouse(fold, s, step);
    } else if step.SetGuestDisabled? || step.DeleteGuest? {
      GuestStepsHouse(fold, s, step);
    }
  }

  ghost predicate HousedThroughout(fold: char -> char, s: State, steps: seq<Step>)
    decreases |steps|
  {
    Housed(s) && (steps != [] && Enabled(s, steps[0]) ==> HousedThroughout(fold, Exec(fold, s, steps[0]), steps[1..]))
  }

  ghost predicate NeverTooLate(fold: char -> char, s: State, steps: seq<Step>)
    decreases |steps|
  {
    steps != [] && Enabled(s, steps[0]) ==> !TooLate(fold, s, steps[0]) && NeverTooLate(fold, Exec(fold, s, steps[0]), steps[1..])
  }

  lemma {:induction false} HousedExactly(fold: char -> char, s: State, steps: seq<Step>, s': State)
    requires Sound(fold, s) && Housed(s) && Runs(Next(fold), s, steps, s')
    ensures HousedThroughout(fold, s, steps) <==> NeverTooLate(fold, s, steps)
    decreases |steps|
  {
    if steps != [] {
      var t := Exec(fold, s, steps[0]);
      SoundStep(fold, s, steps[0]);
      StepHousesExactly(fold, s, steps[0]);
      if Housed(t) {
        HousedExactly(fold, t, steps[1..], s');
      }
    }
  }

  /** Every guest's zone exists at every moment of a run from empty files if and only if no second
      half in it comes too late. */
  lemma GuestsKeepTheirZonesExactly(fold: char -> char, steps: seq<Step>, s: State)
    requires Runs(Next(fold), INIT, steps, s)
    ensures HousedThroughout(fold, INIT, steps) <==> NeverTooLate(fold, INIT, steps)
  {
    HousedExactly(fold, INIT, steps, s);
  }

  // ---- When no second half can come too late ----------------------------------------------

  /** A group is being deleted while a guest is being created in it. */
  predicate Overlapping(s: State) {
    exists d, c :: d in s.handlers && c in s.handlers && s.handlers[d].DeletingGroup? && s.handlers[c].CreatingGuest?
      && s.handlers[d].id == TrimSpace(s.handlers[c].zoneID)
  }

  /** What each handler checked still holds. */
  ghost predicate ChecksHold(s: State) {
    forall h :: h in s.handlers ==>
      match s.handlers[h]
      case DeletingGroup(id) => !ZoneInUse(s.guests, id)
      case CreatingGuest(_, zoneID, _) => ZoneExists(s.groups, TrimSpace(zoneID))
  }

  lemma ZoneSurvives(fold: char -> char, s: State, step: Step, zoneID: string)
    requires Sound(fold, s) && Enabled(s, step) && ZoneExists(s.groups, zoneID)
    requires step.CommitDelete? ==> s.handlers[step.h].id != zoneID
    ensures ZoneExists(Exec(fold, s, step).groups, zoneID)
  {
    match step
    case CreateGroup(g, id, works) => Groups.CreateKeepsIDs(fold, s.groups, g, id, works, zoneID);
    case UpdateGroup(id, g, works) => Groups.UpdateKeepsIDs(fold, s.groups, id, g, works, zoneID);
    case CommitDelete(h, works) => Groups.DeleteKeepsOtherIDs(s.groups, s.handlers[h].id, works, zoneID);
    case _ =>
  }

  lemma ZoneStaysFree(fold: char -> char, s: State, step: Step, zoneID: string)
    requires Sound(fold, s) && Enabled(s, step) && !ZoneInUse(s.guests, zoneID)
    requires step.CommitCreate? ==> TrimSpace(s.handlers[step.h].zoneID) != zoneID
    ensures !ZoneInUse(Exec(fold, s, step).guests, zoneID)
  {
    var s' := Exec(fold, s, step);
    if step.CommitCreate? {
      TrimSpaceTrims(s.handlers[step.h].zoneID);
      TrimmedStays(TrimSpace(s.handlers[step.h].zoneID));
    }
    forall i | 0 <= i < |s'.guests| ensures s'.guests[i].zoneID != zoneID {
      assert step.CommitCreate? || ZoneInUse(s.guests, s'.guests[i].zoneID);
      assert step.CommitCreate? && i < |s.guests| ==> s'.guests[i] == s.guests[i];
    }
  }

  lemma ChecksHoldStep(fold: char -> char, s: State, step: Step)
    requires Sound(fold, s) && ChecksHold(s) && !Overlapping(s) && Enabled(s, step)
    ensures ChecksHold(Exec(fold, s, step)) && !TooLate(fold, s, step)
  {
    var s' := Exec(fold, s, step);
    forall h | h in s'.handlers
      ensures match s'.handlers[h]
              case DeletingGroup(id) => !ZoneInUse(s'.guests, id)
              case CreatingGuest(_, zoneID, _) => ZoneExists(s'.groups, TrimSpace(zoneID))
    {
      if h in s.handlers && s'.handlers[h] == s.handlers[h] {
        match s.handlers[h]
        case DeletingGroup(id) => ZoneStaysFree(fold, s, step, id);
        case CreatingGuest(_, zoneID, _) => ZoneSurvives(fold, s, step, TrimSpace(zoneID));
      }
    }
  }

  ghost predicate NeverOverlapping(fold: char -> char, s: State, steps: seq<Step>)
    decreases |steps|
  {
    !Overlapping(s) && (steps != [] && Enabled(s, steps[0]) ==> NeverOverlapping(fold, Exec(fold, s, steps[0]), steps[1..]))
  }

  lemma {:induction false} ApartNeverTooLate(fold: char -> char, s: State, steps: seq<Step>, s': State)
    requires Sound(fold, s) && ChecksHold(s) && Housed(s)
    requires Runs(Next(fold), s, steps, s') && NeverOverlapping(fold, s, steps)
    ensures NeverTooLate(fold, s, steps) && Sound(fold, s') && Housed(s')
    decreases |steps|
  {
    if steps != [] {
      var t := Exec(fold, s, steps[0]);
      SoundStep(fold, s, steps[0]);
      ChecksHoldStep(fold, s, steps[0]);
      StepHousesExactly(fold, s, steps[0]);
      ApartNeverTooLate(fold, t, steps[1..], s');
    }
  }

  /** From empty files, if no group is ever being deleted while a guest is being created in it:
      memory equals disk; ids are unique and names and labels unique up to case; members are
      trimmed, non-empty and free of duplicates; and every guest's zone exists. */
  lemma SoundFromEmpty(fold: char -> char, steps: seq<Step>, s: State)
    requires Runs(Next(fold), INIT, steps, s) && NeverOverlapping(fold, INIT, steps)
    ensures Sound(fold, s) && Housed(s)
  {
    ApartNeverTooLate(fold, INIT, steps, s);
  }

  /** Requests are handled one at a time: never two handlers between their halves. */
  ghost predicate OneAtATime(fold: char -> char, s: State, steps: seq<Step>)
    decreases |steps|
  {
    && (forall g, h :: g in s.handlers && h in s.handlers ==> g == h)
    && (steps != [] && Enabled(s, steps[0]) ==> OneAtATime(fold, Exec(fold, s, steps[0]), steps[1..]))
  }

  lemma {:induction false} OneAtATimeIsApart(fold: char -> char, s: State, steps: seq<Step>)
    requires OneAtATime(fold, s, steps)
    ensures NeverOverlapping(fold, s, steps)
    decreases |steps|
  {
    if steps != [] && Enabled(s, steps[0]) {
      OneAtATimeIsApart(fold, Exec(fold, s, steps[0]), steps[1..]);
    }
  }

  lemma SoundOneAtATime(fold: char -> char, steps: seq<Step>, s: State)
    requires Runs(Next(fold), INIT, steps, s) && OneAtATime(fold, INIT, steps)
    ensures Sound(fold, s) && Housed(s)
  {
    OneAtATimeIsApart(fold, INIT, steps);
    SoundFromEmpty(fold, steps, s);
  }

  const ZONE := Group("z1", "Zone", [], [])
  const ANN := Guests.Guest("g1", "ann", "z1", "h", false, 1)

  lemma AddStep(fold: char -> char, steps: seq<Step>, s: State, step: Step) returns (steps': seq<Step>, s': State)
    requires Runs(Next(fold), INIT, steps, s) && Enabled(s, step)
    ensures Runs(Next(fold), INIT, steps', s') && s' == Exec(fold, s, step)
  {
    RunsAppend(Next(fold), INIT, steps, s, step);
    steps', s' := steps + [step], Exec(fold, s, step);
  }

  /** A zone is created; then both checks pass. */
  lemma BothChecksPass(fold: char -> char) returns (steps: seq<Step>, s: State)
    ensures Runs(Next(fold), INIT, steps, s)
    ensures s == State([ZONE], [ZONE], [], [], map[1 := CreatingGuest("ann", "z1", seq(8, _ => 0)), 2 := DeletingGroup("z1")])
  {
    assert TrimSpace("z1") == "z1" && TrimSpace("Zone") == "Zone";
    assert Groups.Normalize(Group("", "Zone", [], [])) == Some(Group("", "Zone", [], []));
    steps, s := AddStep(fold, [], INIT, CreateGroup(Group("", "Zone", [], []), "z1", true));
    assert s == State([ZONE], [ZONE], [], [], map[]);
    assert Groups.IndexOf([ZONE], "z1") == 0;
    steps, s := AddStep(fold, steps, s, CheckCreate(1, "ann", "z1", seq(8, _ => 0)));
    steps, s := AddStep(fold, steps, s, CheckDelete(2, "z1"));
  }

  /** A run that orphans a guest: the two handlers overlap, and both change their store. */
  lemma ConcurrentRequestsCanOrphanAGuest(fold: char -> char) returns (steps: seq<Step>, s: State)
    ensures Runs(Next(fold), INIT, steps, s) && !Housed(s)
  {
    steps, s := BothChecksPass(fold);
    assert TrimSpace("ann") == "ann" && TrimSpace("z1") == "z1";
    steps, s := AddStep(fold, steps, s, CommitCreate(1, Some("h"), "g1", 1, true));
    assert s.guests == [ANN] && s.groups == [ZONE] && 2 in s.handlers && s.handlers[2] == DeletingGroup("z1");
    assert Groups.IndexOf([ZONE], "z1") == 0;
    steps, s := AddStep(fold, steps, s, CommitDelete(2, true));
    assert s.groups == [] && s.guests == [ANN];
    assert !ZoneExists(s.groups, s.guests[0].zoneID);
  }

  // ---- What a guest sees --------------------------------------------------------------------

  /** A housed guest of a sound store always finds its zone in the snapshot, and sees in it
      exactly the routers the write check knows as its zone's, and exactly that zone's nodes. */
  lemma GuestSeesItsZone(fold: char -> char, s: State, i: nat, snap: Snapshot, nodes: seq<NodeView>, rv: RouterView, n: NodeView)
    requires Sound(fold, s) && Housed(s) && i < |s.guests|
    requires snap.groups == Zones.GroupViews(s.groups, nodes)
    ensures var zoneID := s.guests[i].zoneID;
            && Zones.FindView(snap.groups, zoneID).Some?
            && (rv in Zones.ZoneSnapshot(snap, zoneID).routers
                <==> rv in snap.routers && Zones.RouterInZone(s.groups, zoneID, rv.node.stableID))
            && (n in Zones.ZoneSnapshot(snap, zoneID).nodes
                <==> n in snap.nodes && Zones.NodeInZone(s.groups, zoneID, n.stableID))
  {
    var zoneID := s.guests[i].zoneID;
    assert ZoneExists(s.groups, zoneID);
    Zones.ViewMatchesGroup(s.groups, nodes, zoneID);
    Zones.FilterAgreesWithRawZones(snap, s.groups, nodes, zoneID, rv, n);
  }
}
