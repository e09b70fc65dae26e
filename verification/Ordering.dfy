/** Go's `sort.Slice` and string comparison, as far as the source relies on them. */
module Ordering {

  /** Lexicographic by code point, which is also the byte order of UTF-8. */
  predicate Less(a: string, b: string) {
    if b == [] then false
    else if a == [] then true
    else a[0] < b[0] || (a[0] == b[0] && Less(a[1..], b[1..]))
  }

  /** `a` ends inside `b` after the first `k` characters, or is smaller at the first difference. */
  predicate SmallerAt(a: string, b: string, k: nat) {
    k <= |a| && k < |b| && a[..k] == b[..k] && (k == |a| || a[k] < b[k])
  }

  lemma {:induction false} LessIsLexicographic(a: string, b: string)
    ensures Less(a, b) <==> exists k: nat :: SmallerAt(a, b, k)
    decreases |a|
  {
    if a == [] {
      assert b != [] ==> SmallerAt(a, b, 0);
    } else if b != [] && a[0] == b[0] {
      LessIsLexicographic(a[1..], b[1..]);
      if k: nat :| SmallerAt(a, b, k) {
        assert k > 0 && a[1..][..k - 1] == a[..k][1..] && b[1..][..k - 1] == b[..k][1..];
        assert SmallerAt(a[1..], b[1..], k - 1);
      }
      if k: nat :| SmallerAt(a[1..], b[1..], k) {
        assert a[..k + 1] == [a[0]] + a[1..][..k] && b[..k + 1] == [b[0]] + b[1..][..k];
        assert SmallerAt(a, b, k + 1);
      }
    } else if b != [] {
      assert a[0] < b[0] ==> SmallerAt(a, b, 0);
    }
  }

  lemma {:induction false} LessTotal(a: string, b: string)
    ensures a != b ==> Less(a, b) || Less(b, a)
    ensures !(Less(a, b) && Less(b, a))
    decreases |a|
  {
    if a != [] && b != [] && a[0] == b[0] {
      LessTotal(a[1..], b[1..]);
      assert a == [a[0]] + a[1..] && b == [b[0]] + b[1..];
    }
  }

  lemma {:induction false} LessTransitive(a: string, b: string, c: string)
    requires Less(a, b) && Less(b, c)
    ensures Less(a, c)
    decreases |a|
  {
    if a != [] && a[0] == b[0] && b[0] == c[0] {
      LessTransitive(a[1..], b[1..], c[1..]);
    }
  }

  /** What `sort.Slice(s, less)` promises about its result. */
  ghost predicate SortedBy<T(!new)>(less: (T, T) -> bool, s: seq<T>) {
    forall i, j :: 0 <= i < j < |s| ==> !less(s[j], s[i])
  }

  /** `less` is usable as an ordering: no two elements are each less than the other, and "not
      less" chains. */
  ghost predicate IsOrdering<T(!new)>(less: (T, T) -> bool) {
    && (forall x, y :: less(x, y) ==> !less(y, x))
    && (forall x, y, z :: !less(y, x) && !less(z, y) ==> !less(z, x))
  }

  function Insert<T>(less: (T, T) -> bool, x: T, s: seq<T>): seq<T> {
    if s == [] then [x]
    else if less(s[0], x) then [s[0]] + Insert(less, x, s[1..])
    else [x] + s
  }

  function Sort<T>(less: (T, T) -> bool, s: seq<T>): seq<T> {
    if s == [] then [] else Insert(less, s[0], Sort(less, s[1..]))
  }

  lemma {:induction false} InsertSorts<T(!new)>(less: (T, T) -> bool, x: T, s: seq<T>)
    requires IsOrdering(less) && SortedBy(less, s)
    ensures SortedBy(less, Insert(less, x, s))
    ensures multiset(Insert(less, x, s)) == multiset(s) + multiset{x}
  {
    if s != [] {
      assert s == [s[0]] + s[1..];
      if less(s[0], x) {
        InsertSorts(less, x, s[1..]);
        var r := Insert(less, x, s[1..]);
        forall y | y in r ensures !less(y, s[0]) {
          assert y in multiset(r);
          if y != x {
            assert y in s[1..];
          }
        }
        assert Insert(less, x, s) == [s[0]] + r;
      } else {
        forall y | y in s ensures !less(y, x) {
          assert y == s[0] || !less(y, s[0]);
        }
      }
    }
  }

  lemma {:induction false} SortSorts<T(!new)>(less: (T, T) -> bool, s: seq<T>)
    requires IsOrdering(less)
    ensures SortedBy(less, Sort(less, s)) && multiset(Sort(less, s)) == multiset(s)
  {
    if s != [] {
      SortSorts(less, s[1..]);
      InsertSorts(less, s[0], Sort(less, s[1..]));
      assert s == [s[0]] + s[1..];
    }
  }

  /** Distinct elements are told apart by `less`, as when they carry distinct ids. */
  ghost predicate Separates<T(!new)>(less: (T, T) -> bool, s: seq<T>) {
    forall x, y :: x in s && y in s && x != y ==> less(x, y) || less(y, x)
  }

  lemma LeastIsUnique<T(!new)>(less: (T, T) -> bool, a: seq<T>, b: seq<T>)
    requires a != [] && b != [] && multiset(a) == multiset(b)
    requires SortedBy(less, a) && SortedBy(less, b) && Separates(less, a)
    ensures a[0] == b[0]
  {
    assert a[0] in multiset(b) && b[0] in multiset(a);
    var i :| 0 <= i < |b| && b[i] == a[0];
    var j :| 0 <= j < |a| && a[j] == b[0];
    if i > 0 && j > 0 {
      assert !less(b[i], b[0]) && !less(a[j], a[0]);
    }
  }

  lemma TailOf<T>(a: seq<T>)
    requires a != []
    ensures multiset(a[1..]) == multiset(a) - multiset{a[0]}
  {
    assert a == [a[0]] + a[1..];
  }

  /** Then the sorted order is unique: any algorithm, from any starting order, gives the same. */
  lemma {:induction false} SortedIsUnique<T(!new)>(less: (T, T) -> bool, a: seq<T>, b: seq<T>)
    requires multiset(a) == multiset(b) && SortedBy(less, a) && SortedBy(less, b) && Separates(less, a)
    ensures a == b
    decreases |a|
  {
    assert |multiset(a)| == |a| && |multiset(b)| == |b|;
    if a != [] {
      LeastIsUnique(less, a, b);
      TailOf(a);
      TailOf(b);
      SortedIsUnique(less, a[1..], b[1..]);
      assert a == [a[0]] + a[1..] && b == [b[0]] + b[1..];
    }
  }

  lemma SortIsOrderIndependent<T(!new)>(less: (T, T) -> bool, a: seq<T>, b: seq<T>)
    requires IsOrdering(less) && multiset(a) == multiset(b) && Separates(less, a)
    ensures Sort(less, a) == Sort(less, b)
  {
    SortSorts(less, a);
    SortSorts(less, b);
    forall x | x in Sort(less, a) ensures x in a {
      assert x in multiset(Sort(less, a));
    }
    SortedIsUnique(less, Sort(less, a), Sort(less, b));
  }
}
