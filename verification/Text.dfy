/** The string helpers of Go's standard library the stores and parsers rely on. */
module Text {

  /** unicode.IsSpace. */
  predicate IsSpace(c: char) {
    || c in {'\t', '\n', '\r', ' '}
    || (c as int) in {0x0B, 0x0C, 0x85, 0xA0, 0x1680, 0x2028, 0x2029, 0x202F, 0x205F, 0x3000}
    || 0x2000 <= c as int <= 0x200A
  }

  function TrimLeft(s: string): string {
    if s != [] && IsSpace(s[0]) then TrimLeft(s[1..]) else s
  }

  function TrimRight(s: string): string {
    if s != [] && IsSpace(s[|s| - 1]) then TrimRight(s[..|s| - 1]) else s
  }

  function TrimSpace(s: string): string {
    TrimRight(TrimLeft(s))
  }

  predicate Trimmed(s: string) {
    s == [] || (!IsSpace(s[0]) && !IsSpace(s[|s| - 1]))
  }

  lemma {:induction false} TrimLeftEnds(s: string)
    ensures TrimLeft(s) == [] || !IsSpace(TrimLeft(s)[0])
    ensures TrimLeft(s) == [] || (s != [] && TrimLeft(s)[|TrimLeft(s)| - 1] == s[|s| - 1])
  {
    if s != [] && IsSpace(s[0]) {
      TrimLeftEnds(s[1..]);
    }
  }

  lemma {:induction false} TrimRightEnds(s: string)
    ensures TrimRight(s) == [] || !IsSpace(TrimRight(s)[|TrimRight(s)| - 1])
    ensures TrimRight(s) <= s
    decreases |s|
  {
    if s != [] && IsSpace(s[|s| - 1]) {
      TrimRightEnds(s[..|s| - 1]);
    }
  }

  lemma TrimSpaceTrims(s: string)
    ensures Trimmed(TrimSpace(s))
  {
    TrimLeftEnds(s);
    TrimRightEnds(TrimLeft(s));
  }

  predicate AllSpace(s: string) {
    forall i :: 0 <= i < |s| ==> IsSpace(s[i])
  }

  lemma {:induction false} TrimLeftStrips(s: string) returns (before: string)
    ensures s == before + TrimLeft(s) && AllSpace(before)
  {
    before := "";
    if s != [] && IsSpace(s[0]) {
      before := TrimLeftStrips(s[1..]);
      before := [s[0]] + before;
    }
  }

  lemma {:induction false} TrimRightStrips(s: string) returns (after: string)
    ensures s == TrimRight(s) + after && AllSpace(after)
    decreases |s|
  {
    after := "";
    if s != [] && IsSpace(s[|s| - 1]) {
      after := TrimRightStrips(s[..|s| - 1]);
      after := after + [s[|s| - 1]];
    }
  }

  /** Trimming takes white space off both ends and nothing else. */
  lemma TrimSpaceStrips(s: string) returns (before: string, after: string)
    ensures s == before + TrimSpace(s) + after && AllSpace(before) && AllSpace(after) && Trimmed(TrimSpace(s))
  {
    before := TrimLeftStrips(s);
    after := TrimRightStrips(TrimLeft(s));
    TrimSpaceTrims(s);
  }

  lemma TrimmedStays(s: string)
    requires Trimmed(s)
    ensures TrimSpace(s) == s
  {
  }

  /** strings.EqualFold. `fold` sends each rune to one representative of its case-folding orbit;
      which runes share an orbit is Unicode's business, so everything is proved for any `fold`. */
  predicate EqualFold(fold: char -> char, a: string, b: string) {
    |a| == |b| && forall i :: 0 <= i < |a| ==> fold(a[i]) == fold(b[i])
  }

  /** It compares rune by rune, to the end of both. */
  lemma EqualFoldByRune(fold: char -> char, a: string, b: string, c: char, d: char)
    ensures EqualFold(fold, a + [c], b + [d]) <==> EqualFold(fold, a, b) && fold(c) == fold(d)
    ensures (EqualFold(fold, a, "") <==> a == "") && (EqualFold(fold, "", b) <==> b == "")
  {
    assert |a| == |b| ==> (a + [c])[|a|] == c && (b + [d])[|a|] == d;
    assert |a| == |b| ==> forall i :: 0 <= i < |a| ==> (a + [c])[i] == a[i] && (b + [d])[i] == b[i];
  }
}
