/** The persisted guest store (internal/guests/guests.go). Hashing is abstract: a hash arrives
    with the password it was made from. */
module GuestStore {
  import Keyed
  import opened Types
  import opened Text

  const MIN_PASSWORD := 8
  const MAX_PASSWORD := 72

  datatype Guest = Guest(id: string, loginLabel: string, zoneID: string, hash: string, disabled: bool, createdAt: Time)

  /** The hash-free projection every accessor returns. */
  datatype Public = Public(id: string, loginLabel: string, zoneID: string, disabled: bool, createdAt: Time)

  function PublicOf(g: Guest): Public {
    Public(g.id, g.loginLabel, g.zoneID, g.disabled, g.createdAt)
  }

  /** An answer tells who the guest is, its zone and whether it is disabled. */
  predicate Says(p: Public, g: Guest) {
    && p.id == g.id && p.loginLabel == g.loginLabel && p.zoneID == g.zoneID
    && p.disabled == g.disabled && p.createdAt == g.createdAt
  }

  datatype Result = Stored(g: Public) | Done | Invalid | NotFound | NotSaved

  function IDOf(g: Guest): string {
    g.id
  }

  function IndexOf(items: seq<Guest>, id: string): (i: int)
    ensures -1 <= i < |items|
    ensures i >= 0 ==> items[i].id == id && forall k :: 0 <= k < i ==> items[k].id != id
    ensures i < 0 ==> forall k :: 0 <= k < |items| ==> items[k].id != id
  {
    var i := Keyed.IndexOf(IDOf, items, id);
    assert i < 0 ==> forall k :: 0 <= k < |items| ==> IDOf(items[k]) != id;
    assert forall k :: 0 <= k < i ==> IDOf(items[k]) != id;
    i
  }

  predicate LabelTaken(fold: char -> char, items: seq<Guest>, loginLabel: string) {
    exists k :: 0 <= k < |items| && items[k].id != "" && EqualFold(fold, items[k].loginLabel, loginLabel)
  }

  /** `pw` is the password's bytes; `hash` what bcrypt made of it, None if it failed. */
  function CreateIn(fold: char -> char, items: seq<Guest>, loginLabel: string, zoneID: string, pw: seq<bv8>, hash: Option<string>,
                    freshID: string, now: Time, saved: bool): (seq<Guest>, Result) {
    var loginLabel := TrimSpace(loginLabel);
    var zoneID := TrimSpace(zoneID);
    if loginLabel == "" || zoneID == "" || |pw| < MIN_PASSWORD || |pw| > MAX_PASSWORD then (items, Invalid)
    else if hash.None? then (items, NotSaved)
    else if LabelTaken(fold, items, loginLabel) then (items, Invalid)
    else if !saved then (items, NotSaved)
    else
      var g := Guest(freshID, loginLabel, zoneID, hash.value, false, now);
      (items + [g], Stored(PublicOf(g)))
  }

  function SetDisabledIn(items: seq<Guest>, id: string, disabled: bool, saved: bool): (seq<Guest>, Result) {
    var i := IndexOf(items, id);
    if i < 0 then (items, NotFound)
    else if !saved then (items, NotSaved)
    else (items[i := items[i].(disabled := disabled)], Stored(PublicOf(items[i].(disabled := disabled))))
  }

  function DeleteIn(items: seq<Guest>, id: string, saved: bool): (seq<Guest>, Result) {
    var i := IndexOf(items, id);
    if i < 0 then (items, NotFound)
    else if !saved then (items, NotSaved)
    else (Keyed.Remove(items, i), Done)
  }

  class Store {
    const fold: char -> char
    var items: seq<Guest>
    var disk: seq<Guest>

    ghost predicate Valid()
      reads this
    {
      items == disk && Integrity(fold, items)
    }

    constructor (fold: char -> char)
      ensures Valid() && items == [] && this.fold == fold
    {
      this.fold, items, disk := fold, [], [];
    }

    method Persist(works: bool) returns (ok: bool)
      modifies this`disk
      ensures ok == works && disk == if works then items else old(disk)
    {
      if works {
        disk := items;
      }
      ok := works;
    }

    method LabelTakenLocked(loginLabel: string, excludeID: string) returns (taken: bool)
      ensures taken <==> exists k :: 0 <= k < |items| && items[k].id != excludeID && EqualFold(fold, items[k].loginLabel, loginLabel)
    {
      for i := 0 to |items|
        invariant forall k :: 0 <= k < i ==> items[k].id == excludeID || !EqualFold(fold, items[k].loginLabel, loginLabel)
      {
        if items[i].id != excludeID && EqualFold(fold, items[i].loginLabel, loginLabel) {
          return true;
        }
      }
      return false;
    }

    method Create(loginLabel: string, zoneID: string, pw: seq<bv8>, hash: Option<string>, freshID: string, now: Time, works: bool)
      returns (r: Result)
      requires Valid() && freshID != "" && IndexOf(items, freshID) < 0
      modifies this
      ensures Valid() && (items, r) == CreateIn(fold, old(items), loginLabel, zoneID, pw, hash, freshID, now, works)
    {
      var l := TrimSpace(loginLabel);
      var z := TrimSpace(zoneID);
      if l == "" {
        return Invalid;
      }
      if z == "" {
        return Invalid;
      }
      if |pw| < MIN_PASSWORD {
        return Invalid;
      }
      if |pw| > MAX_PASSWORD {
        return Invalid;
      }
      if hash.None? {
        return NotSaved;
      }
      var taken := LabelTakenLocked(l, "");
      if taken {
        return Invalid;
      }
      CreateKeepsIntegrity(fold, items, loginLabel, zoneID, pw, hash, freshID, now, works);
      var g := Guest(freshID, l, z, hash.value, false, now);
      items := items + [g];
      var ok := Persist(works);
      if !ok {
        items := items[..|items| - 1];
        return NotSaved;
      }
      return Stored(PublicOf(g));
    }

    method SetDisabled(id: string, disabled: bool, works: bool) returns (r: Result)
      requires Valid()
      modifies this
      ensures Valid() && (items, r) == SetDisabledIn(old(items), id, disabled, works)
    {
      var i := IndexOf(items, id);
      if i < 0 {
        return NotFound;
      }
      SetDisabledKeepsIntegrity(fold, items, id, disabled, works);
      var before := items[i].disabled;
      items := items[i := items[i].(disabled := disabled)];
      var ok := Persist(works);
      if !ok {
        items := items[i := items[i].(disabled := before)];
        assert items == old(items);
        return NotSaved;
      }
      return Stored(PublicOf(items[i]));
    }

    method Delete(id: string, works: bool) returns (r: Result)
      requires Valid()
      modifies this
      ensures Valid() && (items, r) == DeleteIn(old(items), id, works)
    {
      var i := IndexOf(items, id);
      if i < 0 {
        return NotFound;
      }
      DeleteKeepsIntegrity(fold, items, id, works);
      var before := items;
      items := items[..i] + items[i + 1..];
      var ok := Persist(works);
      if !ok {
        items := before;
        return NotSaved;
      }
      return Done;
    }

    /** Finds the label up to case; `matches` is bcrypt's verdict on the found hash. A disabled
        guest is refused even with the right password. */
    method Authenticate(loginLabel: string, matches: string -> bool) returns (r: Option<Public>)
      requires Valid()
      ensures r.Some? <==> exists k :: && 0 <= k < |items| && EqualFold(fold, items[k].loginLabel, TrimSpace(loginLabel))
                                       && matches(items[k].hash) && !items[k].disabled
      ensures r.Some? ==> exists k :: && 0 <= k < |items| && EqualFold(fold, items[k].loginLabel, TrimSpace(loginLabel))
                                      && !items[k].disabled && Says(r.value, items[k])
    {
      var l := TrimSpace(loginLabel);
      for i := 0 to |items|
        invariant forall k :: 0 <= k < i ==> !EqualFold(fold, items[k].loginLabel, l)
      {
        if EqualFold(fold, items[i].loginLabel, l) {
          if matches(items[i].hash) && !items[i].disabled {
            return Some(PublicOf(items[i]));
          }
          return None;
        }
      }
      return None;
    }
  }

  // ---- Integrity --------------------------------------------------------------------------

  ghost predicate Integrity(fold: char -> char, items: seq<Guest>) {
    && (forall i :: 0 <= i < |items| ==>
          && items[i].id != "" && items[i].loginLabel != "" && Trimmed(items[i].loginLabel)
          && items[i].zoneID != "" && Trimmed(items[i].zoneID))
    && (forall i, j :: 0 <= i < j < |items| ==>
          items[i].id != items[j].id && !EqualFold(fold, items[i].loginLabel, items[j].loginLabel))
  }

  lemma CreateKeepsIntegrity(fold: char -> char, items: seq<Guest>, loginLabel: string, zoneID: string, pw: seq<bv8>, hash: Option<string>,
                             freshID: string, now: Time, saved: bool)
    requires Integrity(fold, items) && freshID != "" && IndexOf(items, freshID) < 0
    ensures Integrity(fold, CreateIn(fold, items, loginLabel, zoneID, pw, hash, freshID, now, saved).0)
  {
    TrimSpaceTrims(loginLabel);
    TrimSpaceTrims(zoneID);
  }

  lemma SetDisabledKeepsIntegrity(fold: char -> char, items: seq<Guest>, id: string, disabled: bool, saved: bool)
    requires Integrity(fold, items)
    ensures Integrity(fold, SetDisabledIn(items, id, disabled, saved).0)
  {
  }

  lemma DeleteKeepsIntegrity(fold: char -> char, items: seq<Guest>, id: string, saved: bool)
    requires Integrity(fold, items)
    ensures Integrity(fold, DeleteIn(items, id, saved).0)
  {
  }

  // ---- Requests seen from outside ---------------------------------------------------------

  function Get(items: seq<Guest>, id: string): Option<Guest> {
    if IndexOf(items, id) < 0 then None else Some(items[IndexOf(items, id)])
  }

  /** A saved create adds one enabled guest with the trimmed label and zone and the given hash,
      and no create changes any other guest. */
  lemma CreateAddsExactly(fold: char -> char, items: seq<Guest>, loginLabel: string, zoneID: string, pw: seq<bv8>, hash: Option<string>,
                          freshID: string, now: Time, saved: bool)
    requires Integrity(fold, items) && freshID != "" && IndexOf(items, freshID) < 0
    ensures var (items', r) := CreateIn(fold, items, loginLabel, zoneID, pw, hash, freshID, now, saved);
            if r.Stored? then
              && hash.Some?
              && Get(items', freshID) == Some(Guest(freshID, TrimSpace(loginLabel), TrimSpace(zoneID), hash.value, false, now))
              && forall id :: id != freshID ==> Get(items', id) == Get(items, id)
            else items' == items
  {
    var (items', r) := CreateIn(fold, items, loginLabel, zoneID, pw, hash, freshID, now, saved);
    if r.Stored? {
      CreateKeepsIntegrity(fold, items, loginLabel, zoneID, pw, hash, freshID, now, saved);
      assert items'[|items|].id == freshID;
      forall id | id != freshID ensures Get(items', id) == Get(items, id) {
        if IndexOf(items, id) >= 0 {
          assert items'[IndexOf(items, id)].id == id;
        }
      }
    }
  }

  /** What a create answers, exactly: invalid without a label, a zone and a password of 8 to 72
      bytes, or (once the password is hashed) with a label some guest has up to case; otherwise
      stored if it can be hashed and saved, and then it says what was stored but for the hash. */
  lemma CreateAnswersExactly(fold: char -> char, items: seq<Guest>, loginLabel: string, zoneID: string, pw: seq<bv8>, hash: Option<string>,
                             freshID: string, now: Time, saved: bool)
    requires Integrity(fold, items)
    ensures var r := CreateIn(fold, items, loginLabel, zoneID, pw, hash, freshID, now, saved).1;
            var wellFormed := TrimSpace(loginLabel) != "" && TrimSpace(zoneID) != "" && 8 <= |pw| <= 72;
            var taken := exists g :: g in items && EqualFold(fold, g.loginLabel, TrimSpace(loginLabel));
            && (r.Invalid? <==> !wellFormed || (hash.Some? && taken))
            && (r.Stored? <==> wellFormed && hash.Some? && !taken && saved)
            && (r.NotSaved? <==> wellFormed && (hash.None? || (!taken && !saved)))
            && (r.Stored? ==> r.g == Public(freshID, TrimSpace(loginLabel), TrimSpace(zoneID), false, now))
  {
    var t := TrimSpace(loginLabel);
    if LabelTaken(fold, items, t) {
      var k :| 0 <= k < |items| && items[k].id != "" && EqualFold(fold, items[k].loginLabel, t);
      assert items[k] in items;
    }
    if g :| g in items && EqualFold(fold, g.loginLabel, t) {
      var k :| 0 <= k < |items| && items[k] == g;
      assert items[k].id != "";
    }
  }

  /** Disabling or enabling a guest flips its flag and nothing else, and can be taken back. */
  lemma SetDisabledTouchesOneFlag(fold: char -> char, items: seq<Guest>, target: string, disabled: bool, saved: bool)
    requires Integrity(fold, items)
    ensures var r := SetDisabledIn(items, target, disabled, saved).1;
            && (r.NotFound? <==> Get(items, target).None?)
            && (r.Stored? <==> Get(items, target).Some? && saved)
            && (r.NotSaved? <==> Get(items, target).Some? && !saved)
    ensures var (items', r) := SetDisabledIn(items, target, disabled, saved);
            if r.Stored? then
              && Get(items, target).Some?
              && Says(r.g, Get(items, target).value.(disabled := disabled))
              && (forall id :: Get(items', id) ==
                    if id == target then Some(Get(items, id).value.(disabled := disabled)) else Get(items, id))
              && SetDisabledIn(items', target, Get(items, target).value.disabled, true).0 == items
            else items' == items
  {
    var (items', r) := SetDisabledIn(items, target, disabled, saved);
    if r.Stored? {
      SetDisabledKeepsIntegrity(fold, items, target, disabled, saved);
      assert items'[IndexOf(items, target)].id == target;
      forall id | id != target ensures Get(items', id) == Get(items, id) {
        if IndexOf(items, id) >= 0 {
          assert items'[IndexOf(items, id)].id == id;
        }
      }
    }
  }

  /** A delete removes the guest it names, once saved, and no other. */
  lemma DeleteRemovesExactly(fold: char -> char, items: seq<Guest>, target: string, saved: bool)
    requires Integrity(fold, items)
    ensures var (items', r) := DeleteIn(items, target, saved);
            && (r.NotFound? <==> Get(items, target).None?)
            && (r.Done? <==> Get(items, target).Some? && saved)
            && (r.NotSaved? <==> Get(items, target).Some? && !saved)
            && if r.Done? then forall id :: Get(items', id) == if id == target then None else Get(items, id)
               else items' == items
  {
    var (items', r) := DeleteIn(items, target, saved);
    if r.Done? {
      forall i, j | 0 <= i < j < |items| ensures IDOf(items[i]) != IDOf(items[j]) {
      }
      forall id ensures Get(items', id) == if id == target then None else Get(items, id) {
        Keyed.GetOnceRemoved(IDOf, items, IndexOf(items, target), id);
      }
    }
  }
}
