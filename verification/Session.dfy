/** The signed session cookie (internal/api/api.go): expiry, nonce, role and length-prefixed
    guest id, a MAC over all of it, the whole in unpadded base64url (section 5 of RFC 4648).
    The MAC is any function with 32-byte results; HMAC (RFC 2104) is one. */
module Session {
  import opened Types

  type byte = n: int | 0 <= n < 256

  // ---- base64url, unpadded ----------------------------------------------------------------

  type sextet = n: nat | n < 64

  function Sextet(n: sextet): char {
    if n < 26 then 'A' + n as char
    else if n < 52 then 'a' + (n - 26) as char
    else if n < 62 then '0' + (n - 52) as char
    else if n == 62 then '-' else '_'
  }

  function SextetValue(c: char): Option<sextet> {
    if 'A' <= c <= 'Z' then Some((c - 'A') as nat)
    else if 'a' <= c <= 'z' then Some((c - 'a') as nat + 26)
    else if '0' <= c <= '9' then Some((c - '0') as nat + 52)
    else if c == '-' then Some(62)
    else if c == '_' then Some(63)
    else None
  }

  const UPPER := "ABCDEFGHIJKLMNOPQRSTUVWXYZ"
  const LOWER := "abcdefghijklmnopqrstuvwxyz"
  const DIGITS := "0123456789"

  /** Table 2 of RFC 4648. */
  const ALPHABET := UPPER + LOWER + DIGITS + "-_"

  lemma UpperAt(n: nat)
    requires n < 26
    ensures UPPER[n] == 'A' + n as char && LOWER[n] == 'a' + n as char
  {
  }

  lemma SextetIsTheAlphabet(n: sextet)
    ensures |ALPHABET| == 64 && Sextet(n) == ALPHABET[n]
  {
    if n < 26 {
      UpperAt(n);
      assert ALPHABET[n] == UPPER[n];
    } else if n < 52 {
      UpperAt(n - 26);
      assert ALPHABET[n] == LOWER[n - 26];
    } else if n < 62 {
      assert ALPHABET[n] == DIGITS[n - 52];
    } else {
      assert ALPHABET[n] == "-_"[n - 62];
    }
  }

  lemma SextetRoundTrip(n: sextet)
    ensures SextetValue(Sextet(n)) == Some(n) && !IsBreak(Sextet(n))
  {
  }

  function Chars(v: seq<sextet>): (s: string)
    ensures |s| == |v|
  {
    seq(|v|, i requires 0 <= i < |v| => Sextet(v[i]))
  }

  /** None if some character is not of the alphabet. */
  function Values(s: string): Option<seq<sextet>> {
    if s == [] then Some([])
    else
      var init, last := Values(s[..|s| - 1]), SextetValue(s[|s| - 1]);
      if init.None? || last.None? then None else Some(init.value + [last.value])
  }

  lemma {:induction false} CharsRoundTrip(v: seq<sextet>)
    ensures Values(Chars(v)) == Some(v)
    decreases |v|
  {
    if v != [] {
      var n := |v| - 1;
      CharsRoundTrip(v[..n]);
      SextetRoundTrip(v[n]);
      assert Chars(v)[..n] == Chars(v[..n]);
      assert v == v[..n] + [v[n]];
    }
  }

  /** The four sextets of three bytes, and the three bytes of four sextets. */
  function S0(b0: byte): sextet { b0 / 4 }
  function S1(b0: byte, b1: byte): sextet { b0 % 4 * 16 + b1 / 16 }
  function S2(b1: byte, b2: byte): sextet { b1 % 16 * 4 + b2 / 64 }
  function S3(b2: byte): sextet { b2 % 64 }

  function B0(v0: sextet, v1: sextet): byte { v0 * 4 + v1 / 16 }
  function B1(v1: sextet, v2: sextet): byte { v1 % 16 * 16 + v2 / 4 }
  function B2(v2: sextet, v3: sextet): byte { v2 % 4 * 64 + v3 }

  /** Splitting three bytes into four sextets loses nothing. */
  lemma Regroup(b0: byte, b1: byte, b2: byte)
    ensures B0(S0(b0), S1(b0, b1)) == b0
    ensures B1(S1(b0, b1), S2(b1, b2)) == b1
    ensures B2(S2(b1, b2), S3(b2)) == b2
  {
  }

  /** Four sextets are the same 24 bits as three bytes, the most significant first. */
  lemma SameBits(b0: byte, b1: byte, b2: byte)
    ensures ((S0(b0) * 64 + S1(b0, b1)) * 64 + S2(b1, b2)) * 64 + S3(b2) == (b0 * 256 + b1) * 256 + b2
  {
  }

  lemma RegroupFirst(b0: byte, b1: byte)
    ensures B0(S0(b0), S1(b0, b1)) == b0
  {
  }

  function Quad(b: seq<byte>): seq<sextet>
    requires |b| >= 3
  {
    [S0(b[0]), S1(b[0], b[1]), S2(b[1], b[2]), S3(b[2])]
  }

  function Sextets(b: seq<byte>): seq<sextet> {
    if b == [] then []
    else if |b| == 1 then [S0(b[0]), S1(b[0], 0)]
    else if |b| == 2 then [S0(b[0]), S1(b[0], b[1]), S2(b[1], 0)]
    else Quad(b) + Sextets(b[3..])
  }

  /** Lenient about the unused low bits of a short last group, as the library is. */
  function Bytes(v: seq<sextet>): Option<seq<byte>> {
    if v == [] then Some([])
    else if |v| == 1 then None
    else if |v| == 2 then Some([B0(v[0], v[1])])
    else if |v| == 3 then Some([B0(v[0], v[1]), B1(v[1], v[2])])
    else
      var rest := Bytes(v[4..]);
      if rest.None? then None else Some([B0(v[0], v[1]), B1(v[1], v[2]), B2(v[2], v[3])] + rest.value)
  }

  lemma BytesOfQuad(v0: sextet, v1: sextet, v2: sextet, v3: sextet, rest: seq<sextet>)
    requires Bytes(rest).Some?
    ensures Bytes([v0, v1, v2, v3] + rest) == Some([B0(v0, v1), B1(v1, v2), B2(v2, v3)] + Bytes(rest).value)
  {
    assert ([v0, v1, v2, v3] + rest)[4..] == rest;
  }

  lemma QuadRoundTrip(b0: byte, b1: byte, b2: byte, rest: seq<sextet>)
    requires Bytes(rest).Some?
    ensures Bytes([S0(b0), S1(b0, b1), S2(b1, b2), S3(b2)] + rest) == Some([b0, b1, b2] + Bytes(rest).value)
  {
    Regroup(b0, b1, b2);
    BytesOfQuad(S0(b0), S1(b0, b1), S2(b1, b2), S3(b2), rest);
  }

  lemma BytesOfPair(v0: sextet, v1: sextet)
    ensures Bytes([v0, v1]) == Some([B0(v0, v1)])
  {
  }

  lemma BytesOfTriple(v0: sextet, v1: sextet, v2: sextet)
    ensures Bytes([v0, v1, v2]) == Some([B0(v0, v1), B1(v1, v2)])
  {
  }

  lemma SextetsOfOne(b: seq<byte>)
    requires |b| == 1
    ensures Sextets(b) == [S0(b[0]), S1(b[0], 0)]
  {
  }

  lemma SextetsOfTwo(b: seq<byte>)
    requires |b| == 2
    ensures Sextets(b) == [S0(b[0]), S1(b[0], b[1]), S2(b[1], 0)]
  {
  }

  lemma OneRoundTrip(b: seq<byte>)
    requires |b| == 1
    ensures Bytes(Sextets(b)) == Some(b)
  {
    SextetsOfOne(b);
    BytesOfPair(S0(b[0]), S1(b[0], 0));
    RegroupFirst(b[0], 0);
    assert b == [b[0]];
  }

  lemma TwoRoundTrip(b: seq<byte>)
    requires |b| == 2
    ensures Bytes(Sextets(b)) == Some(b)
  {
    SextetsOfTwo(b);
    BytesOfTriple(S0(b[0]), S1(b[0], b[1]), S2(b[1], 0));
    Regroup(b[0], b[1], 0);
    assert b == [b[0], b[1]];
  }

  lemma {:induction false} SextetsRoundTrip(b: seq<byte>)
    ensures Bytes(Sextets(b)) == Some(b)
    decreases |b|
  {
    if |b| == 0 {
    } else if |b| == 1 {
      OneRoundTrip(b);
    } else if |b| == 2 {
      TwoRoundTrip(b);
    } else {
      SextetsRoundTrip(b[3..]);
      QuadRoundTrip(b[0], b[1], b[2], Sextets(b[3..]));
      assert b == [b[0], b[1], b[2]] + b[3..];
    }
  }

  /** Each group of three bytes is encoded where it stands. */
  lemma {:induction false} SextetsInOrder(a: seq<byte>, b: seq<byte>)
    requires |a| % 3 == 0
    ensures Sextets(a + b) == Sextets(a) + Sextets(b)
    decreases |a|
  {
    if a == [] {
      assert a + b == b;
    } else {
      SextetsInOrder(a[3..], b);
      assert (a + b)[3..] == a[3..] + b;
      assert Quad(a + b) == Quad(a);
      QuadsFirst(Quad(a), Sextets(a[3..]), Sextets(b));
    }
  }

  lemma QuadsFirst(q: seq<sextet>, v: seq<sextet>, w: seq<sextet>)
    ensures q + (v + w) == q + v + w
  {
  }

  function Encode(b: seq<byte>): string {
    Chars(Sextets(b))
  }

  predicate IsBreak(c: char) {
    c == '\n' || c == '\r'
  }

  /** The decoder skips line breaks wherever they stand. */
  function SkipBreaks(s: string): string {
    if s == [] then []
    else if IsBreak(s[0]) then SkipBreaks(s[1..])
    else [s[0]] + SkipBreaks(s[1..])
  }

  function Decode(s: string): Option<seq<byte>> {
    var v := Values(SkipBreaks(s));
    if v.None? then None else Bytes(v.value)
  }

  lemma {:induction false} NoBreaksStays(s: string)
    requires forall i :: 0 <= i < |s| ==> !IsBreak(s[i])
    ensures SkipBreaks(s) == s
  {
    if s != [] {
      NoBreaksStays(s[1..]);
    }
  }

  /** Decoding undoes encoding, for every byte string. */
  lemma Base64RoundTrip(b: seq<byte>)
    ensures Decode(Encode(b)) == Some(b)
  {
    forall i | 0 <= i < |Encode(b)| ensures !IsBreak(Encode(b)[i]) {
      SextetRoundTrip(Sextets(b)[i]);
    }
    NoBreaksStays(Encode(b));
    CharsRoundTrip(Sextets(b));
    SextetsRoundTrip(b);
  }

  // ---- What the decoder accepts -----------------------------------------------------------

  lemma {:induction false} BreaksAreDropped(a: string, b: string)
    ensures SkipBreaks(a + b) == SkipBreaks(a) + SkipBreaks(b)
    decreases |a|
  {
    if a == [] {
      assert a + b == b;
    } else {
      BreaksAreDropped(a[1..], b);
      assert (a + b)[1..] == a[1..] + b;
    }
  }

  lemma OneAtATime(c: char)
    ensures SkipBreaks([c]) == if IsBreak(c) then [] else [c]
  {
    assert [c][1..] == [];
  }

  lemma SextetValueExactly(c: char, n: sextet)
    ensures SextetValue(c) == Some(n) <==> c == Sextet(n)
  {
  }

  lemma {:induction false} ValuesExactly(s: string)
    ensures Values(s).Some? <==> forall i :: 0 <= i < |s| ==> SextetValue(s[i]).Some?
    ensures Values(s).Some? ==> Chars(Values(s).value) == s
    decreases |s|
  {
    if s != [] {
      var n := |s| - 1;
      ValuesExactly(s[..n]);
      assert s == s[..n] + [s[n]];
      if Values(s).Some? {
        var v := Values(s).value;
        SextetValueExactly(s[n], v[n]);
        assert Chars(v)[..n] == Chars(v[..n]);
      } else if SextetValue(s[n]).Some? {
        var i :| 0 <= i < n && SextetValue(s[..n][i]).None?;
        assert SextetValue(s[i]).None?;
      }
    }
  }

  lemma {:induction false} BytesExactly(v: seq<sextet>)
    ensures Bytes(v).None? <==> |v| % 4 == 1
    decreases |v|
  {
    if |v| >= 4 {
      BytesExactly(v[4..]);
    }
  }

  /** What decodes: line breaks aside, a text of which every character is of the alphabet and no
      group is left with a single one. */
  lemma DecodesExactly(s: string)
    ensures var t := SkipBreaks(s);
            Decode(s).Some? <==> (forall i :: 0 <= i < |t| ==> SextetValue(t[i]).Some?) && |t| % 4 != 1
  {
    var t := SkipBreaks(s);
    ValuesExactly(t);
    if Values(t).Some? {
      BytesExactly(Values(t).value);
      assert |Values(t).value| == |t|;
    }
  }

  // ---- Big-endian integers ----------------------------------------------------------------

  function Pow256(k: nat): nat {
    if k == 0 then 1 else 256 * Pow256(k - 1)
  }

  function BigEndian(n: nat, k: nat): (b: seq<byte>)
    ensures |b| == k
  {
    if k == 0 then [] else BigEndian(n / 256, k - 1) + [n % 256]
  }

  function FromBigEndian(b: seq<byte>): nat {
    if b == [] then 0 else FromBigEndian(b[..|b| - 1]) * 256 + b[|b| - 1]
  }

  /** The first byte is the most significant. */
  lemma {:induction false} FirstByteWeighsMost(first: byte, rest: seq<byte>)
    ensures FromBigEndian([first] + rest) == first * Pow256(|rest|) + FromBigEndian(rest)
    decreases |rest|
  {
    if rest == [] {
      assert FromBigEndian([first]) == FromBigEndian([]) * 256 + first;
    } else {
      var init, last := rest[..|rest| - 1], rest[|rest| - 1];
      FirstByteWeighsMost(first, init);
      assert ([first] + rest)[..|rest|] == [first] + init;
    }
  }

  lemma {:induction false} BigEndianRoundTrip(n: nat, k: nat)
    requires n < Pow256(k)
    ensures FromBigEndian(BigEndian(n, k)) == n
    decreases k
  {
    if k > 0 {
      BigEndianRoundTrip(n / 256, k - 1);
      assert BigEndian(n, k)[..k - 1] == BigEndian(n / 256, k - 1);
    }
  }

  lemma LowByte(high: nat, low: byte)
    ensures (high * 256 + low) / 256 == high && (high * 256 + low) % 256 == low
  {
  }

  lemma BigEndianSnoc(high: nat, low: byte, k: nat)
    ensures BigEndian(high * 256 + low, k + 1) == BigEndian(high, k) + [low]
  {
    LowByte(high, low);
  }

  lemma BelowNextPower(high: nat, low: byte, k: nat)
    requires high < Pow256(k)
    ensures high * 256 + low < Pow256(k + 1)
  {
  }

  lemma FromBigEndianSnoc(init: seq<byte>, last: byte)
    ensures FromBigEndian(init + [last]) == FromBigEndian(init) * 256 + last
  {
    assert (init + [last])[..|init|] == init;
  }

  lemma {:induction false} FromBigEndianRoundTrip(b: seq<byte>)
    ensures BigEndian(FromBigEndian(b), |b|) == b && FromBigEndian(b) < Pow256(|b|)
    decreases |b|
  {
    if b != [] {
      var init, last := b[..|b| - 1], b[|b| - 1];
      FromBigEndianRoundTrip(init);
      assert b == init + [last];
      FromBigEndianSnoc(init, last);
      BigEndianSnoc(FromBigEndian(init), last, |init|);
      BelowNextPower(FromBigEndian(init), last, |init|);
    }
  }

  const TWO63 := 0x8000_0000_0000_0000
  const TWO64 := 0x1_0000_0000_0000_0000

  /** Go's int64(uint64). */
  function ToInt64(u: nat): int
    requires u < TWO64
  {
    if u < TWO63 then u else u - TWO64
  }

  lemma Pow256Of8()
    ensures Pow256(8) == TWO64
  {
    assert Pow256(4) == 0x1_0000_0000;
  }

  // ---- The signed layout ------------------------------------------------------------------

  const EXPIRY_LEN := 8
  const NONCE_LEN := 16
  const HEADER_LEN := 26
  const MAC_LEN := 32
  const SESSION_TTL := 7 * 24 * 3600

  const ROLE_ADMIN: byte := 0
  const ROLE_GUEST: byte := 1

  /** Who a cookie speaks for. */
  datatype Identity = Admin | Guest(id: seq<byte>)

  function RoleOf(who: Identity): byte {
    if who.Admin? then ROLE_ADMIN else ROLE_GUEST
  }

  function GuestID(who: Identity): seq<byte> {
    if who.Admin? then [] else who.id
  }

  function Layout(expiry: nat, nonce: seq<byte>, role: byte, gid: seq<byte>): seq<byte>
    requires |gid| < 256
  {
    BigEndian(expiry, EXPIRY_LEN) + nonce + [role] + [|gid|] + gid
  }

  /** The layout loses nothing: no two different sessions are signed over the same bytes. */
  lemma LayoutIsInjective(e: nat, n: seq<byte>, r: byte, g: seq<byte>, e': nat, n': seq<byte>, r': byte, g': seq<byte>)
    requires |g| < 256 && |g'| < 256 && |n| == |n'| == NONCE_LEN && e < TWO64 && e' < TWO64
    requires Layout(e, n, r, g) == Layout(e', n', r', g')
    ensures e == e' && n == n' && r == r' && g == g'
  {
    LayoutParts(e, n, r, g);
    LayoutParts(e', n', r', g');
  }

  lemma LayoutParts(e: nat, n: seq<byte>, r: byte, g: seq<byte>)
    requires |g| < 256 && |n| == NONCE_LEN && e < TWO64
    ensures var s := Layout(e, n, r, g);
            && |s| == HEADER_LEN + |g|
            && s[..EXPIRY_LEN] == BigEndian(e, EXPIRY_LEN) && FromBigEndian(s[..EXPIRY_LEN]) == e
            && s[EXPIRY_LEN..EXPIRY_LEN + NONCE_LEN] == n
            && s[24] == r && s[25] == |g| && s[HEADER_LEN..] == g
  {
    Pow256Of8();
    BigEndianRoundTrip(e, EXPIRY_LEN);
    var s := Layout(e, n, r, g);
    assert s[..EXPIRY_LEN] == BigEndian(e, EXPIRY_LEN);
  }

  /** A MAC under some secret: HMAC-SHA256 in the source. */
  ghost predicate IsMac(mac: seq<byte> -> seq<byte>) {
    forall b :: |mac(b)| == MAC_LEN
  }

  /** Mints a cookie by filling one buffer in place. None is an error: no randomness, or an id
      too long for its length byte. */
  method NewSessionValue(who: Identity, mac: seq<byte> -> seq<byte>, nonce: Option<seq<byte>>, now: nat)
    returns (r: Option<string>)
    requires IsMac(mac) && (nonce.Some? ==> |nonce.value| == NONCE_LEN) && now + SESSION_TTL < TWO63
    ensures r.None? <==> nonce.None? || |GuestID(who)| > 255
    ensures r.Some? ==>
              var signed := Layout(now + SESSION_TTL, nonce.value, RoleOf(who), GuestID(who));
              r.value == Encode(signed + mac(signed))
  {
    var gid := GuestID(who);
    if |gid| > 255 {
      return None;
    }
    var signedLen := HEADER_LEN + |gid|;
    var raw := new byte[signedLen + MAC_LEN](_ => 0);
    Fill(raw, 0, BigEndian(now + SESSION_TTL, EXPIRY_LEN));
    if nonce.None? {
      return None;
    }
    Fill(raw, EXPIRY_LEN, nonce.value);
    raw[EXPIRY_LEN + NONCE_LEN] := RoleOf(who);
    raw[EXPIRY_LEN + NONCE_LEN + 1] := |gid|;
    assert raw[..HEADER_LEN] == BigEndian(now + SESSION_TTL, EXPIRY_LEN) + nonce.value + [RoleOf(who)] + [|gid|];
    Fill(raw, HEADER_LEN, gid);
    var signed := raw[..signedLen];
    assert signed == raw[..HEADER_LEN] + raw[HEADER_LEN..signedLen];
    assert signed == Layout(now + SESSION_TTL, nonce.value, RoleOf(who), gid);
    Fill(raw, signedLen, mac(signed));
    assert raw[..] == signed + mac(signed);
    return Some(Encode(raw[..]));
  }

  /** Go's copy into raw[from:]. */
  method Fill(raw: array<byte>, from: nat, b: seq<byte>)
    requires from + |b| <= raw.Length
    modifies raw
    ensures raw[..] == old(raw[..from]) + b + old(raw[from + |b|..])
  {
    for i := 0 to |b|
      invariant raw[from..from + i] == b[..i]
      invariant forall k :: 0 <= k < raw.Length && !(from <= k < from + i) ==> raw[k] == old(raw[k])
    {
      raw[from + i] := b[i];
    }
    assert raw[..] == raw[..from] + raw[from..from + |b|] + raw[from + |b|..];
  }

  /** Verifies a cookie value at time `now`; None is "not logged in". */
  function ParseSession(value: Option<string>, mac: seq<byte> -> seq<byte>, now: int): Option<Identity> {
    if value.None? || value.value == "" then None
    else
      var decoded := Decode(value.value);
      if decoded.None? || |decoded.value| < HEADER_LEN + MAC_LEN then None
      else
        var raw := decoded.value;
        var gidLen := raw[25];
        var signedLen := HEADER_LEN + gidLen;
        if |raw| != signedLen + MAC_LEN then None
        else
          var signed := raw[..signedLen];
          if raw[signedLen..] != mac(signed) then None
          else
            FromBigEndianRoundTrip(signed[..EXPIRY_LEN]);
            Pow256Of8();
            if now >= ToInt64(FromBigEndian(signed[..EXPIRY_LEN])) then None
            else if signed[24] == ROLE_ADMIN then (if gidLen != 0 then None else Some(Admin))
            else if signed[24] == ROLE_GUEST then (if gidLen == 0 then None else Some(Guest(signed[HEADER_LEN..])))
            else None
  }

  predicate Representable(who: Identity) {
    who.Guest? ==> 1 <= |who.id| <= 255
  }

  /** The bytes of a well-formed, live cookie for `who`. */
  ghost predicate Speaks(raw: seq<byte>, mac: seq<byte> -> seq<byte>, now: int, who: Identity, expiry: nat, nonce: seq<byte>) {
    && |nonce| == NONCE_LEN && expiry < TWO64 && Representable(who) && now < ToInt64(expiry)
    && raw == Layout(expiry, nonce, RoleOf(who), GuestID(who)) + mac(Layout(expiry, nonce, RoleOf(who), GuestID(who)))
  }

  /** A cookie is accepted exactly when its bytes are a correctly signed, unexpired layout for
      the identity it yields; nothing else is ever accepted. */
  lemma AcceptsExactlySignedSessions(value: string, mac: seq<byte> -> seq<byte>, now: int, who: Identity)
    requires IsMac(mac) && value != ""
    ensures ParseSession(Some(value), mac, now) == Some(who)
       <==> Decode(value).Some? && exists expiry, nonce :: Speaks(Decode(value).value, mac, now, who, expiry, nonce)
  {
    if ParseSession(Some(value), mac, now) == Some(who) {
      AcceptedSpeaks(value, mac, now, who);
    }
    if Decode(value).Some? {
      if expiry, nonce :| Speaks(Decode(value).value, mac, now, who, expiry, nonce) {
        SpeakerAccepted(value, mac, now, who, expiry, nonce);
      }
    }
  }

  /** Signed bytes are the layout of their own parts. */
  lemma PartsLayout(signed: seq<byte>)
    requires |signed| >= HEADER_LEN && |signed| == HEADER_LEN + signed[25]
    ensures var e := FromBigEndian(signed[..EXPIRY_LEN]);
            && e < TWO64
            && signed == Layout(e, signed[EXPIRY_LEN..24], signed[24], signed[HEADER_LEN..])
  {
    FromBigEndianRoundTrip(signed[..EXPIRY_LEN]);
    Pow256Of8();
    assert signed == signed[..EXPIRY_LEN] + signed[EXPIRY_LEN..24] + [signed[24]] + [signed[25]] + signed[HEADER_LEN..];
  }

  lemma AcceptedSpeaks(value: string, mac: seq<byte> -> seq<byte>, now: int, who: Identity)
    requires IsMac(mac) && ParseSession(Some(value), mac, now) == Some(who)
    ensures Decode(value).Some? && exists expiry, nonce :: Speaks(Decode(value).value, mac, now, who, expiry, nonce)
  {
    var raw := Decode(value).value;
    var signed := raw[..HEADER_LEN + raw[25]];
    PartsLayout(signed);
    var expiry := FromBigEndian(signed[..EXPIRY_LEN]);
    var nonce := signed[EXPIRY_LEN..24];
    assert signed[HEADER_LEN..] == GuestID(who) && signed[24] == RoleOf(who);
    assert raw == signed + raw[|signed|..];
    assert Speaks(raw, mac, now, who, expiry, nonce);
  }

  lemma SpeakerAccepted(value: string, mac: seq<byte> -> seq<byte>, now: int, who: Identity, expiry: nat, nonce: seq<byte>)
    requires IsMac(mac) && value != "" && Decode(value).Some?
    requires Speaks(Decode(value).value, mac, now, who, expiry, nonce)
    ensures ParseSession(Some(value), mac, now) == Some(who)
  {
    var signed := Layout(expiry, nonce, RoleOf(who), GuestID(who));
    LayoutParts(expiry, nonce, RoleOf(who), GuestID(who));
    var raw := Decode(value).value;
    assert raw[25] == signed[25];
    assert raw[..|signed|] == signed && raw[|signed|..] == mac(signed);
  }

  /** Round trip: a minted cookie yields its identity back until it expires, for the admin and
      for every guest id of 1 to 255 bytes, and for no one else. */
  lemma SessionRoundTrip(who: Identity, mac: seq<byte> -> seq<byte>, nonce: seq<byte>, minted: nat, now: int)
    requires IsMac(mac) && |nonce| == NONCE_LEN && minted + SESSION_TTL < TWO63 && |GuestID(who)| <= 255
    ensures var signed := Layout(minted + SESSION_TTL, nonce, RoleOf(who), GuestID(who));
            ParseSession(Some(Encode(signed + mac(signed))), mac, now)
            == if now < minted + SESSION_TTL && Representable(who) then Some(who) else None
  {
    var expiry := minted + SESSION_TTL;
    var signed := Layout(expiry, nonce, RoleOf(who), GuestID(who));
    var raw := signed + mac(signed);
    Base64RoundTrip(raw);
    LayoutParts(expiry, nonce, RoleOf(who), GuestID(who));
    assert raw[25] == signed[25];
    assert raw[..|signed|] == signed && raw[|signed|..] == mac(signed);
    assert |Encode(raw)| > 0;
    if Representable(who) && now < expiry {
      SpeakerAccepted(Encode(raw), mac, now, who, expiry, nonce);
    }
  }
}
