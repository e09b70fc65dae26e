/** The persisted zone store (internal/groups/groups.go). */
module GroupStore {
  import Keyed
  import opened Types
  import opened Text

  // ---- Normalization ----------------------------------------------------------------------

  /** Trimmed, first occurrence kept; None if a member trims to nothing. */
  function NormalMembers(ids: seq<string>): Option<seq<string>> {
    if ids == [] then Some([])
    else
      var rest := NormalMembers(ids[..|ids| - 1]);
      var id := TrimSpace(ids[|ids| - 1]);
      if rest.None? || id == "" then None
      else if id in rest.value then rest
      else Some(rest.value + [id])
  }

  ghost predicate CleanMembers(ids: seq<string>) {
    && (forall i :: 0 <= i < |ids| ==> ids[i] != "" && Trimmed(ids[i]))
    && (forall i, j :: 0 <= i < j < |ids| ==> ids[i] != ids[j])
  }

  /** A member list is refused exactly when a member is blank; otherwise the result is clean
      and names exactly the members given. */
  lemma {:induction false} NormalMembersAreClean(ids: seq<string>)
    ensures NormalMembers(ids).None? <==> exists i :: 0 <= i < |ids| && TrimSpace(ids[i]) == ""
    ensures NormalMembers(ids).Some? ==>
              && CleanMembers(NormalMembers(ids).value)
              && forall id :: id in NormalMembers(ids).value <==> exists i :: 0 <= i < |ids| && TrimSpace(ids[i]) == id
    decreases |ids|
  {
    if ids != [] {
      var n := |ids| - 1;
      NormalMembersAreClean(ids[..n]);
      TrimSpaceTrims(ids[n]);
      assert forall i :: 0 <= i < n ==> ids[..n][i] == ids[i];
      assert ids == ids[..n] + [ids[n]];
      if NormalMembers(ids).Some? {
        forall id ensures id in NormalMembers(ids).value <==> exists i :: 0 <= i < |ids| && TrimSpace(ids[i]) == id {
          if i :| 0 <= i < |ids| && TrimSpace(ids[i]) == id {
            if i < n {
              assert TrimSpace(ids[..n][i]) == id;
            }
          }
        }
      }
    }
  }

  /** Members stay in the order they first occur: the first so many given make up the first so
      many kept. */
  lemma {:induction false} NormalMembersKeepOrder(ids: seq<string>, n: nat)
    requires n <= |ids| && NormalMembers(ids).Some?
    ensures NormalMembers(ids[..n]).Some? && NormalMembers(ids[..n]).value <= NormalMembers(ids).value
    decreases |ids|
  {
    if n < |ids| {
      var init := ids[..|ids| - 1];
      NormalMembersKeepOrder(init, n);
      assert init[..n] == ids[..n];
    } else {
      assert ids[..n] == ids;
    }
  }

  method NormalizeMembers(ids: seq<string>) returns (r: Option<seq<string>>)
    ensures r == NormalMembers(ids)
  {
    var seen: set<string> := {};
    var out: seq<string> := [];
    for i := 0 to |ids|
      invariant NormalMembers(ids[..i]) == Some(out)
      invariant forall id :: id in seen <==> id in out
    {
      assert ids[..i + 1][..i] == ids[..i];
      var id := TrimSpace(ids[i]);
      if id == "" {
        BlankRefuses(ids, i);
        return None;
      }
      if id !in seen {
        seen := seen + {id};
        out := out + [id];
      }
    }
    assert ids[..|ids|] == ids;
    return Some(out);
  }

  lemma BlankRefuses(ids: seq<string>, i: nat)
    requires i < |ids| && TrimSpace(ids[i]) == ""
    ensures NormalMembers(ids).None?
  {
    NormalMembersAreClean(ids);
  }

  /** The group a submission stands for; None is a 422. The id is left alone. */
  function Normalize(g: Group): Option<Group> {
    var name := TrimSpace(g.name);
    var consumers := NormalMembers(g.consumers);
    var allowed := NormalMembers(g.allowedExitNodes);
    if name == "" || consumers.None? || allowed.None? then None
    else Some(Group(g.id, name, consumers.value, allowed.value))
  }

  /** The members kept are those given, trimmed, each once. */
  ghost predicate SameMembers(given: seq<string>, kept: seq<string>) {
    && CleanMembers(kept)
    && forall id :: id in kept <==> exists i :: 0 <= i < |given| && TrimSpace(given[i]) == id
  }

  ghost predicate NoBlank(ids: seq<string>) {
    forall i :: 0 <= i < |ids| ==> TrimSpace(ids[i]) != ""
  }

  /** A submission that names itself and leaves no member blank. */
  ghost predicate Acceptable(g: Group) {
    TrimSpace(g.name) != "" && NoBlank(g.consumers) && NoBlank(g.allowedExitNodes)
  }

  /** What is stored of a submission. */
  ghost predicate StandsFor(kept: Group, given: Group) {
    && kept.name == TrimSpace(given.name)
    && SameMembers(given.consumers, kept.consumers)
    && SameMembers(given.allowedExitNodes, kept.allowedExitNodes)
  }

  lemma NormalizesExactly(g: Group)
    ensures Normalize(g).Some? <==> Acceptable(g)
    ensures Normalize(g).Some? ==> StandsFor(Normalize(g).value, g)
  {
    NormalMembersAreClean(g.consumers);
    NormalMembersAreClean(g.allowedExitNodes);
  }

  // ---- The store on values ----------------------------------------------------------------

  datatype Result = Stored(g: Group) | Done | Invalid | NotFound | NotSaved

  function IDOf(g: Group): string {
    g.id
  }

  function IndexOf(items: seq<Group>, id: string): (i: int)
    ensures -1 <= i < |items|
    ensures i >= 0 ==> items[i].id == id && forall k :: 0 <= k < i ==> items[k].id != id
    ensures i < 0 ==> forall k :: 0 <= k < |items| ==> items[k].id != id
  {
    var i := Keyed.IndexOf(IDOf, items, id);
    assert i < 0 ==> forall k :: 0 <= k < |items| ==> IDOf(items[k]) != id;
    assert forall k :: 0 <= k < i ==> IDOf(items[k]) != id;
    i
  }

  /** The store's Get: the first group with that id. */
  function Get(items: seq<Group>, id: string): (g: Option<Group>)
    ensures g.Some? ==> g.value in items && g.value.id == id
    ensures g.None? <==> forall k :: 0 <= k < |items| ==> items[k].id != id
  {
    if IndexOf(items, id) < 0 then None else Some(items[IndexOf(items, id)])
  }

  ghost predicate DistinctIDs(items: seq<Group>) {
    forall i, j :: 0 <= i < j < |items| ==> items[i].id != items[j].id
  }

  predicate NameTaken(fold: char -> char, items: seq<Group>, name: string, excludeID: string) {
    exists k :: 0 <= k < |items| && items[k].id != excludeID && EqualFold(fold, items[k].name, name)
  }

  function CreateIn(fold: char -> char, items: seq<Group>, g: Group, freshID: string, saved: bool): (seq<Group>, Result) {
    match Normalize(g)
    case None => (items, Invalid)
    case Some(norm) =>
      if NameTaken(fold, items, norm.name, "") then (items, Invalid)
      else if !saved then (items, NotSaved)
      else (items + [norm.(id := freshID)], Stored(norm.(id := freshID)))
  }

  function UpdateIn(fold: char -> char, items: seq<Group>, id: string, g: Group, saved: bool): (seq<Group>, Result) {
    match Normalize(g)
    case None => (items, Invalid)
    case Some(norm) =>
      var i := IndexOf(items, id);
      if i < 0 then (items, NotFound)
      else if NameTaken(fold, items, norm.name, id) then (items, Invalid)
      else if !saved then (items, NotSaved)
      else (items[i := norm.(id := id)], Stored(norm.(id := id)))
  }

  function DeleteIn(items: seq<Group>, id: string, saved: bool): (seq<Group>, Result) {
    var i := IndexOf(items, id);
    if i < 0 then (items, NotFound)
    else if !saved then (items, NotSaved)
    else (Keyed.Remove(items, i), Done)
  }

  // ---- The store itself -------------------------------------------------------------------

  /** `items` is the canonical set in memory; `disk` is what the file holds (a missing file holds
      the empty set). */
  class Store {
    const fold: char -> char
    var items: seq<Group>
    var disk: seq<Group>

    ghost predicate Valid()
      reads this
    {
      items == disk && Integrity(fold, items)
    }

    constructor (fold: char -> char)
      ensures Valid() && items == [] && this.fold == fold
    {
      this.fold, items, disk := fold, [], [];
    }

    /** Writes the whole set: replaces the file atomically, or leaves it as it was. */
    method Persist(works: bool) returns (ok: bool)
      modifies this`disk
      ensures ok == works && disk == if works then items else old(disk)
    {
      if works {
        disk := items;
      }
      ok := works;
    }

    method NameTakenLocked(name: string, excludeID: string) returns (taken: bool)
      ensures taken <==> NameTaken(fold, items, name, excludeID)
    {
      for i := 0 to |items|
        invariant forall k :: 0 <= k < i ==> items[k].id == excludeID || !EqualFold(fold, items[k].name, name)
      {
        if items[i].id != excludeID && EqualFold(fold, items[i].name, name) {
          return true;
        }
      }
      return false;
    }

    method Normalized(g: Group) returns (r: Option<Group>)
      ensures r == Normalize(g)
    {
      var name := TrimSpace(g.name);
      if name == "" {
        return None;
      }
      var consumers := NormalizeMembers(g.consumers);
      if consumers.None? {
        return None;
      }
      var allowed := NormalizeMembers(g.allowedExitNodes);
      if allowed.None? {
        return None;
      }
      return Some(Group(g.id, name, consumers.value, allowed.value));
    }

    /** `freshID` is what freshIDLocked minted. */
    method Create(g: Group, freshID: string, works: bool) returns (r: Result)
      requires Valid() && freshID != "" && IndexOf(items, freshID) < 0
      modifies this
      ensures Valid() && (items, r) == CreateIn(fold, old(items), g, freshID, works)
    {
      var norm := Normalized(g);
      if norm.None? {
        return Invalid;
      }
      var taken := NameTakenLocked(norm.value.name, "");
      if taken {
        return Invalid;
      }
      CreateKeepsIntegrity(fold, items, g, freshID, works);
      items := items + [norm.value.(id := freshID)];
      var ok := Persist(works);
      if !ok {
        items := items[..|items| - 1];
        return NotSaved;
      }
      return Stored(norm.value.(id := freshID));
    }

    method Update(id: string, g: Group, works: bool) returns (r: Result)
      requires Valid()
      modifies this
      ensures Valid() && (items, r) == UpdateIn(fold, old(items), id, g, works)
    {
      var norm := Normalized(g);
      if norm.None? {
        return Invalid;
      }
      var i := IndexOf(items, id);
      if i < 0 {
        return NotFound;
      }
      var taken := NameTakenLocked(norm.value.name, id);
      if taken {
        return Invalid;
      }
      UpdateKeepsIntegrity(fold, items, id, g, works);
      var before := items[i];
      items := items[i := norm.value.(id := id)];
      var ok := Persist(works);
      if !ok {
        items := items[i := before];
        return NotSaved;
      }
      return Stored(norm.value.(id := id));
    }

    method Delete(id: string, works: bool) returns (r: Result)
      requires Valid()
      modifies this
      ensures Valid() && (items, r) == DeleteIn(old(items), id, works)
    {
      var i := IndexOf(items, id);
      if i < 0 {
        return NotFound;
      }
      DeleteKeepsIntegrity(fold, items, id, works);
      var before := items;
      items := items[..i] + items[i + 1..];
      var ok := Persist(works);
      if !ok {
        items := before;
        return NotSaved;
      }
      return Done;
    }
  }

  // ---- Integrity --------------------------------------------------------------------------

  ghost predicate CleanGroup(g: Group) {
    && g.id != "" && g.name != "" && Trimmed(g.name)
    && CleanMembers(g.consumers) && CleanMembers(g.allowedExitNodes)
  }

  /** Ids are unique, names are unique up to case, and every group is clean. */
  ghost predicate Integrity(fold: char -> char, items: seq<Group>) {
    && (forall i :: 0 <= i < |items| ==> CleanGroup(items[i]))
    && DistinctIDs(items)
    && (forall i, j :: 0 <= i < j < |items| ==> !EqualFold(fold, items[i].name, items[j].name))
  }

  lemma NormalizedIsClean(g: Group, id: string)
    requires Normalize(g).Some? && id != ""
    ensures CleanGroup(Normalize(g).value.(id := id))
  {
    TrimSpaceTrims(g.name);
    NormalMembersAreClean(g.consumers);
    NormalMembersAreClean(g.allowedExitNodes);
  }

  lemma CreateKeepsIntegrity(fold: char -> char, items: seq<Group>, g: Group, freshID: string, saved: bool)
    requires Integrity(fold, items) && freshID != "" && IndexOf(items, freshID) < 0
    ensures Integrity(fold, CreateIn(fold, items, g, freshID, saved).0)
  {
    if Normalize(g).Some? {
      NormalizedIsClean(g, freshID);
    }
  }

  lemma UpdateKeepsIntegrity(fold: char -> char, items: seq<Group>, id: string, g: Group, saved: bool)
    requires Integrity(fold, items)
    ensures Integrity(fold, UpdateIn(fold, items, id, g, saved).0)
  {
    var i := IndexOf(items, id);
    if Normalize(g).Some? && i >= 0 {
      NormalizedIsClean(g, items[i].id);
    }
  }

  lemma DeleteKeepsIntegrity(fold: char -> char, items: seq<Group>, id: string, saved: bool)
    requires Integrity(fold, items)
    ensures Integrity(fold, DeleteIn(items, id, saved).0)
  {
  }

  /** A group stays findable by its id under every request that does not delete it. */
  lemma CreateKeepsIDs(fold: char -> char, items: seq<Group>, g: Group, freshID: string, saved: bool, id: string)
    requires IndexOf(items, id) >= 0
    ensures IndexOf(CreateIn(fold, items, g, freshID, saved).0, id) >= 0
  {
    var items' := CreateIn(fold, items, g, freshID, saved).0;
    assert items'[IndexOf(items, id)].id == id;
  }

  lemma UpdateKeepsIDs(fold: char -> char, items: seq<Group>, target: string, g: Group, saved: bool, id: string)
    requires IndexOf(items, id) >= 0
    ensures IndexOf(UpdateIn(fold, items, target, g, saved).0, id) >= 0
  {
    var items' := UpdateIn(fold, items, target, g, saved).0;
    assert items'[IndexOf(items, id)].id == id;
  }

  lemma DeleteKeepsOtherIDs(items: seq<Group>, target: string, saved: bool, id: string)
    requires IndexOf(items, id) >= 0 && id != target
    ensures IndexOf(DeleteIn(items, target, saved).0, id) >= 0
  {
    var i := IndexOf(items, target);
    var k := IndexOf(items, id);
    if i >= 0 && saved {
      assert Keyed.Remove(items, i)[if k < i then k else k - 1].id == id;
    }
  }

  // ---- Requests seen from outside ---------------------------------------------------------

  /** A create adds what it returns and nothing else; a refused or unsaved one changes nothing. */
  lemma CreateAddsExactly(fold: char -> char, items: seq<Group>, g: Group, freshID: string, saved: bool)
    requires Integrity(fold, items) && freshID != "" && IndexOf(items, freshID) < 0
    ensures var (items', r) := CreateIn(fold, items, g, freshID, saved);
            if r.Stored? then
              && r.g.id == freshID && r.g.name == TrimSpace(g.name)
              && (forall id :: Get(items', id) == if id == freshID then Some(r.g) else Get(items, id))
            else items' == items
  {
    var (items', r) := CreateIn(fold, items, g, freshID, saved);
    if r.Stored? {
      CreateKeepsIntegrity(fold, items, g, freshID, saved);
      assert items'[|items|].id == freshID;
      forall id ensures Get(items', id) == if id == freshID then Some(r.g) else Get(items, id) {
        SameIndex(items, items', id, freshID);
      }
    }
  }

  /** Some stored group other than the one called `id` has that name, up to case. */
  ghost predicate NameInUse(fold: char -> char, items: seq<Group>, name: string, id: string) {
    exists other :: other in items && other.id != id && EqualFold(fold, other.name, name)
  }

  /** What a create answers, exactly: invalid for a submission that is not acceptable or whose name
      some group has; otherwise it is stored if it can be saved, as submitted under the new id. */
  lemma CreateAnswersExactly(fold: char -> char, items: seq<Group>, g: Group, freshID: string, saved: bool)
    requires Integrity(fold, items) && freshID != "" && IndexOf(items, freshID) < 0
    ensures var r := CreateIn(fold, items, g, freshID, saved).1;
            var good := Acceptable(g) && !NameInUse(fold, items, TrimSpace(g.name), freshID);
            && (r.Invalid? <==> !good)
            && (r.Stored? <==> good && saved)
            && (r.NotSaved? <==> good && !saved)
            && (r.Stored? ==> r.g.id == freshID && StandsFor(r.g, g))
  {
    NormalizesExactly(g);
  }

  /** What an update answers, exactly. A group may keep its own name, in any case. */
  lemma UpdateAnswersExactly(fold: char -> char, items: seq<Group>, id: string, g: Group, saved: bool)
    requires Integrity(fold, items)
    ensures var r := UpdateIn(fold, items, id, g, saved).1;
            var found := exists was :: was in items && was.id == id;
            var clash := NameInUse(fold, items, TrimSpace(g.name), id);
            && (r.Invalid? <==> !Acceptable(g) || (found && clash))
            && (r.NotFound? <==> Acceptable(g) && !found)
            && (r.Stored? <==> Acceptable(g) && found && !clash && saved)
            && (r.NotSaved? <==> Acceptable(g) && found && !clash && !saved)
            && (r.Stored? ==> r.g.id == id && StandsFor(r.g, g))
  {
    NormalizesExactly(g);
  }

  /** Ids other than `touched` are where they were. */
  lemma SameIndex(items: seq<Group>, items': seq<Group>, id: string, touched: string)
    requires |items| <= |items'| <= |items| + 1
    requires forall k :: 0 <= k < |items| ==> items'[k] == items[k] || (items'[k].id == items[k].id == touched)
    requires |items'| == |items| + 1 ==> items'[|items|].id == touched
    ensures id != touched ==> IndexOf(items', id) == IndexOf(items, id)
  {
    if id != touched && IndexOf(items, id) >= 0 {
      assert items'[IndexOf(items, id)].id == id;
    }
  }

  /** Deleting a group just created undoes the create. */
  lemma DeleteUndoesCreate(fold: char -> char, items: seq<Group>, g: Group, freshID: string)
    requires IndexOf(items, freshID) < 0 && CreateIn(fold, items, g, freshID, true).1.Stored?
    ensures DeleteIn(CreateIn(fold, items, g, freshID, true).0, freshID, true) == (items, Done)
  {
    var items' := CreateIn(fold, items, g, freshID, true).0;
    assert items'[|items|].id == freshID;
    assert Keyed.Remove(items', |items|) == items;
  }

  /** An update replaces the group it names by what it returns, under the same id. */
  lemma UpdateReplacesExactly(fold: char -> char, items: seq<Group>, target: string, g: Group, saved: bool)
    requires Integrity(fold, items)
    ensures var (items', r) := UpdateIn(fold, items, target, g, saved);
            if r.Stored? then
              && r.g.id == target && r.g.name == TrimSpace(g.name)
              && (forall id :: Get(items', id) == if id == target then Some(r.g) else Get(items, id))
            else items' == items
  {
    var (items', r) := UpdateIn(fold, items, target, g, saved);
    if r.Stored? {
      UpdateKeepsIntegrity(fold, items, target, g, saved);
      var i := IndexOf(items, target);
      assert items'[i].id == target;
      forall id ensures Get(items', id) == if id == target then Some(r.g) else Get(items, id) {
        SameIndex(items, items', id, target);
      }
    }
  }

  /** A delete removes the group it names, once saved, and no other. */
  lemma DeleteRemovesExactly(fold: char -> char, items: seq<Group>, target: string, saved: bool)
    requires Integrity(fold, items)
    ensures var (items', r) := DeleteIn(items, target, saved);
            && (r.NotFound? <==> Get(items, target).None?)
            && (r.Done? <==> Get(items, target).Some? && saved)
            && (r.NotSaved? <==> Get(items, target).Some? && !saved)
            && if r.Done? then forall id :: Get(items', id) == if id == target then None else Get(items, id)
               else items' == items
  {
    var (items', r) := DeleteIn(items, target, saved);
    if r.Done? {
      forall i, j | 0 <= i < j < |items| ensures IDOf(items[i]) != IDOf(items[j]) {
      }
      forall id ensures Get(items', id) == if id == target then None else Get(items, id) {
        Keyed.GetOnceRemoved(IDOf, items, IndexOf(items, target), id);
      }
    }
  }
}
