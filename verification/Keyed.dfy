/** Lists whose elements carry an id: lookup, and removal by position. */
module Keyed {
  import opened Types

  /** -1 when no element has that id. */
  function IndexOf<T>(key: T -> string, items: seq<T>, id: string): (i: int)
    ensures -1 <= i < |items|
    ensures i >= 0 ==> key(items[i]) == id && forall k :: 0 <= k < i ==> key(items[k]) != id
    ensures i < 0 ==> forall k :: 0 <= k < |items| ==> key(items[k]) != id
  {
    if items == [] then -1
    else if key(items[0]) == id then 0
    else
      var i := IndexOf(key, items[1..], id);
      assert forall k :: 0 < k < |items| ==> items[k] == items[1..][k - 1];
      if i < 0 then -1 else i + 1
  }

  /** The first element with that id. */
  function Get<T>(key: T -> string, items: seq<T>, id: string): (x: Option<T>)
    ensures x.Some? ==> x.value in items && key(x.value) == id
    ensures x.None? <==> forall k :: 0 <= k < |items| ==> key(items[k]) != id
  {
    if IndexOf(key, items, id) < 0 then None else Some(items[IndexOf(key, items, id)])
  }

  ghost predicate DistinctIDs<T>(key: T -> string, items: seq<T>) {
    forall i, j :: 0 <= i < j < |items| ==> key(items[i]) != key(items[j])
  }

  function Remove<T>(items: seq<T>, i: nat): seq<T>
    requires i < |items|
  {
    items[..i] + items[i + 1..]
  }

  lemma RemovedAt<T>(items: seq<T>, i: nat, j: nat)
    requires i < |items| && j < |items| - 1
    ensures Remove(items, i)[j] == items[if j < i then j else j + 1]
  {
  }

  lemma IndexOnceRemoved<T>(key: T -> string, items: seq<T>, i: nat, id: string)
    requires i < |items| && key(items[i]) != id
    ensures var k := IndexOf(key, items, id);
            IndexOf(key, Remove(items, i), id) == if k < i then k else k - 1
  {
    var k := IndexOf(key, items, id);
    var k' := IndexOf(key, Remove(items, i), id);
    if k >= 0 {
      RemovedAt(items, i, if k < i then k else k - 1);
    }
    if k' >= 0 {
      RemovedAt(items, i, k');
    }
  }

  lemma GoneOnceRemoved<T>(key: T -> string, items: seq<T>, i: nat)
    requires i < |items| && DistinctIDs(key, items)
    ensures IndexOf(key, Remove(items, i), key(items[i])) < 0
  {
    var k' := IndexOf(key, Remove(items, i), key(items[i]));
    if k' >= 0 {
      RemovedAt(items, i, k');
    }
  }

  /** Removing one element takes its id away and leaves every other id as it was. */
  lemma GetOnceRemoved<T>(key: T -> string, items: seq<T>, i: nat, id: string)
    requires i < |items| && DistinctIDs(key, items)
    ensures Get(key, Remove(items, i), id) == if id == key(items[i]) then None else Get(key, items, id)
  {
    if id == key(items[i]) {
      GoneOnceRemoved(key, items, i);
    } else {
      var k := IndexOf(key, items, id);
      IndexOnceRemoved(key, items, i, id);
      if k >= 0 {
        RemovedAt(items, i, if k < i then k else k - 1);
      }
    }
  }
}
