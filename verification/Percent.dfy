/** UTF-8, and percent-encoding as section 2.1 of RFC 3986 has it: what `enc` puts into a
    path segment, `dec` gets back. */
module Percent {
  import opened Seqs

  type Byte = n: int | 0 <= n < 256

  const REPLACEMENT: char := '\U{FFFD}'

  // ----- UTF-8

  function EncodeChar(c: char): seq<Byte> {
    var n := c as int;
    if n < 0x80 then [n]
    else if n < 0x800 then [0xC0 + n / 64, 0x80 + n % 64]
    else if n < 0x1_0000 then [0xE0 + n / 4096, 0x80 + (n / 64) % 64, 0x80 + n % 64]
    else [0xF0 + n / 262144, 0x80 + (n / 4096) % 64, 0x80 + (n / 64) % 64, 0x80 + n % 64]
  }

  function Utf8(s: string): seq<Byte> {
    if s == [] then [] else EncodeChar(s[0]) + Utf8(s[1..])
  }

  predicate Continues(bs: seq<Byte>, i: nat) {
    i < |bs| && 0x80 <= bs[i] < 0xC0
  }

  /** May the second byte follow this first byte? It must rule out overlong forms,
      surrogates and values beyond U+10FFFF. */
  predicate SecondOk(b0: Byte, bs: seq<Byte>) {
    && |bs| > 1
    && (if b0 == 0xE0 then 0xA0 <= bs[1] < 0xC0
        else if b0 == 0xED then 0x80 <= bs[1] < 0xA0
        else if b0 == 0xF0 then 0x90 <= bs[1] < 0xC0
        else if b0 == 0xF4 then 0x80 <= bs[1] < 0x90
        else 0x80 <= bs[1] < 0xC0)
  }

  /** The first character of some bytes and how many it takes: a replacement character
      for the longest part that could have begun one but does not go on. */
  function FirstChar(bs: seq<Byte>): (r: (char, nat))
    requires bs != []
    ensures 1 <= r.1 <= |bs|
  {
    var b0: int := bs[0];
    if b0 < 0x80 then (b0 as char, 1)
    else if b0 < 0xC2 || b0 > 0xF4 then (REPLACEMENT, 1)
    else if !SecondOk(b0, bs) then (REPLACEMENT, 1)
    else if b0 < 0xE0 then (((b0 - 0xC0) * 64 + (bs[1] as int - 0x80)) as char, 2)
    else if !Continues(bs, 2) then (REPLACEMENT, 2)
    else if b0 < 0xF0 then (((b0 - 0xE0) * 4096 + (bs[1] as int - 0x80) * 64 + (bs[2] as int - 0x80)) as char, 3)
    else if !Continues(bs, 3) then (REPLACEMENT, 3)
    else
      var n := (b0 - 0xF0) * 262144 + (bs[1] as int - 0x80) * 4096 + (bs[2] as int - 0x80) * 64 + (bs[3] as int - 0x80);
      (n as char, 4)
  }

  /** Decoding that replaces what is malformed (String::from_utf8_lossy). */
  function Lossy(bs: seq<Byte>): string
    decreases |bs|
  {
    if bs == [] then [] else [FirstChar(bs).0] + Lossy(bs[FirstChar(bs).1..])
  }

  lemma FirstCharOfEncoded(c: char, rest: seq<Byte>)
    ensures FirstChar(EncodeChar(c) + rest) == (c, |EncodeChar(c)|)
  {
    var n := c as int;
    assert n == n / 64 * 64 + n % 64;
    assert n / 64 == n / 4096 * 64 + (n / 64) % 64;
    assert n / 4096 == n / 262144 * 64 + (n / 4096) % 64;
  }

  /** Decoding gives back every string. */
  lemma {:induction false} LossyOfUtf8(s: string)
    ensures Lossy(Utf8(s)) == s
  {
    if s == [] {
    } else {
      var head, rest := EncodeChar(s[0]), Utf8(s[1..]);
      FirstCharOfEncoded(s[0], rest);
      LossyOfUtf8(s[1..]);
      assert (head + rest)[|head|..] == rest;
    }
  }

  lemma TwoBytes(c: int, b0: Byte, b1: Byte)
    requires 0xC2 <= b0 < 0xE0 && 0x80 <= b1 < 0xC0 && c == (b0 - 0xC0) * 64 + (b1 - 0x80)
    ensures 0x80 <= c < 0x800 && 0xC0 + c / 64 == b0 && 0x80 + c % 64 == b1
  {
  }

  lemma ThreeBytes(c: int, b0: Byte, b1: Byte, b2: Byte)
    requires 0xE0 <= b0 < 0xF0 && 0x80 <= b1 < 0xC0 && 0x80 <= b2 < 0xC0 && (b0 == 0xE0 ==> b1 >= 0xA0)
    requires c == (b0 - 0xE0) * 4096 + (b1 - 0x80) * 64 + (b2 - 0x80)
    ensures 0x800 <= c < 0x1_0000
    ensures 0xE0 + c / 4096 == b0 && 0x80 + (c / 64) % 64 == b1 && 0x80 + c % 64 == b2
  {
    var high := (b0 - 0xE0) * 64 + (b1 - 0x80);
    assert c == high * 64 + (b2 - 0x80);
    assert c / 64 == high;
    assert high / 64 == b0 - 0xE0 && c / 4096 == high / 64;
  }

  lemma FourBytes(c: int, b0: Byte, b1: Byte, b2: Byte, b3: Byte)
    requires 0xF0 <= b0 <= 0xF4 && 0x80 <= b1 < 0xC0 && 0x80 <= b2 < 0xC0 && 0x80 <= b3 < 0xC0
    requires b0 == 0xF0 ==> b1 >= 0x90
    requires c == (b0 - 0xF0) * 262144 + (b1 - 0x80) * 4096 + (b2 - 0x80) * 64 + (b3 - 0x80)
    ensures 0x1_0000 <= c
    ensures 0xF0 + c / 262144 == b0 && 0x80 + (c / 4096) % 64 == b1
    ensures 0x80 + (c / 64) % 64 == b2 && 0x80 + c % 64 == b3
  {
    var top := (b0 - 0xF0) * 64 + (b1 - 0x80);
    var high := top * 64 + (b2 - 0x80);
    assert c == high * 64 + (b3 - 0x80);
    assert c / 64 == high && high / 64 == top && top / 64 == b0 - 0xF0;
    assert c / 4096 == high / 64 && c / 262144 == top / 64;
  }

  /** A character that is no replacement is what its bytes encode. */
  lemma FirstCharIsEncoded(bs: seq<Byte>)
    requires bs != [] && FirstChar(bs).0 != REPLACEMENT
    ensures bs[..FirstChar(bs).1] == EncodeChar(FirstChar(bs).0)
  {
    var (c, n) := FirstChar(bs);
    if n == 2 {
      TwoBytes(c as int, bs[0], bs[1]);
    } else if n == 3 {
      ThreeBytes(c as int, bs[0], bs[1], bs[2]);
    } else if n == 4 {
      FourBytes(c as int, bs[0], bs[1], bs[2], bs[3]);
    }
  }

  /** Bytes that are not the encoding of what they are decoded to leave a replacement
      character in it. */
  lemma {:induction false} LossyIsFaithful(bs: seq<Byte>)
    requires REPLACEMENT !in Lossy(bs)
    ensures Utf8(Lossy(bs)) == bs
    decreases |bs|
  {
    if bs == [] {
    } else {
      var (c, n) := FirstChar(bs);
      var rest := Lossy(bs[n..]);
      NotAmong(REPLACEMENT, c, rest);
      FirstCharIsEncoded(bs);
      LossyIsFaithful(bs[n..]);
      Utf8First(c, rest);
      assert bs == bs[..n] + bs[n..];
    }
  }

  lemma NotAmong(x: char, c: char, rest: string)
    requires x !in [c] + rest
    ensures x != c && x !in rest
  {
    assert c in [c] + rest && forall d :: d in rest ==> d in [c] + rest;
  }

  lemma Utf8First(c: char, rest: string)
    ensures Utf8([c] + rest) == EncodeChar(c) + Utf8(rest)
  {
    assert ([c] + rest)[1..] == rest;
  }

  // ----- Percent-encoding

  /** The unreserved characters of section 2.3 of RFC 3986. */
  predicate Unreserved(b: Byte) {
    || 0x30 <= b <= 0x39 || 0x41 <= b <= 0x5A || 0x61 <= b <= 0x7A
    || b == 0x2D || b == 0x2E || b == 0x5F || b == 0x7E
  }

  function Hex(d: nat): (c: char)
    requires d < 16
  {
    if d < 10 then (0x30 + d) as char else (0x41 + d - 10) as char
  }

  function HexValue(b: Byte): Option<nat> {
    if 0x30 <= b <= 0x39 then Some(b - 0x30)
    else if 0x41 <= b <= 0x46 then Some(b - 0x41 + 10)
    else if 0x61 <= b <= 0x66 then Some(b - 0x61 + 10)
    else None
  }

  function EncodeByte(b: Byte): string {
    if Unreserved(b) then [b as char] else ['%', Hex(b / 16), Hex(b % 16)]
  }

  function EncodeBytes(bs: seq<Byte>): string {
    if bs == [] then [] else EncodeByte(bs[0]) + EncodeBytes(bs[1..])
  }

  function Enc(segment: string): string {
    EncodeBytes(Utf8(segment))
  }

  /** A percent sign and two hex digits stand for a byte, anything else for itself. */
  function DecodeBytes(bs: seq<Byte>): (r: seq<Byte>)
    decreases |bs|
  {
    if bs == [] then []
    else if bs[0] == 0x25 && |bs| > 2 && HexValue(bs[1]).Some? && HexValue(bs[2]).Some? then
      HexIsSmall(bs[1]);
      HexIsSmall(bs[2]);
      [16 * HexValue(bs[1]).value + HexValue(bs[2]).value] + DecodeBytes(bs[3..])
    else [bs[0]] + DecodeBytes(bs[1..])
  }

  lemma HexIsSmall(b: Byte)
    ensures HexValue(b).Some? ==> HexValue(b).value < 16
  {
  }

  function Dec(s: string): string {
    Lossy(DecodeBytes(Utf8(s)))
  }

  /** Hex digits are taken in both cases, and written in capitals. */
  lemma HexDigits(d: nat)
    requires d < 16
    ensures Hex(d) == "0123456789ABCDEF"[d] && HexValue("0123456789abcdef"[d] as int) == Some(d)
    ensures HexValue(Hex(d) as int) == Some(d)
  {
  }

  lemma UnreservedAre(b: Byte)
    ensures var c := b as char;
            Unreserved(b) <==> 'a' <= c <= 'z' || 'A' <= c <= 'Z' || '0' <= c <= '9'
                               || c == '-' || c == '.' || c == '_' || c == '~'
  {
  }

  /** A percent sign that no two hex digits follow stays, and so does all that is none. */
  lemma DecodeKeepsOthers(b: Byte, rest: seq<Byte>)
    requires b != '%' as int || |rest| < 2 || HexValue(rest[0]).None? || HexValue(rest[1]).None?
    ensures DecodeBytes([b] + rest) == [b] + DecodeBytes(rest)
  {
    assert ([b] + rest)[1..] == rest;
  }

  lemma Regroup<T>(a: seq<T>, b: seq<T>, c: seq<T>)
    ensures a + (b + c) == a + b + c
  {
  }

  lemma {:induction false} Utf8Concat(a: string, b: string)
    ensures Utf8(a + b) == Utf8(a) + Utf8(b)
  {
    if a == [] {
      assert a + b == b;
    } else {
      var c, rest := a[0], a[1..];
      assert a == [c] + rest;
      Utf8Concat(rest, b);
      Utf8OneMore(c, rest, b);
    }
  }

  lemma Utf8OneMore(c: char, rest: string, b: string)
    requires Utf8(rest + b) == Utf8(rest) + Utf8(b)
    ensures Utf8([c] + rest + b) == Utf8([c] + rest) + Utf8(b)
  {
    Regroup([c], rest, b);
    Utf8First(c, rest);
    Utf8First(c, rest + b);
    Regroup(EncodeChar(c), Utf8(rest), Utf8(b));
  }

  lemma Utf8OfEncoded(b: Byte)
    ensures Utf8(EncodeByte(b))
            == if Unreserved(b) then [b] else [0x25, Hex(b / 16) as int, Hex(b % 16) as int]
  {
    var e := EncodeByte(b);
    if Unreserved(b) {
      assert e[1..] == [];
    } else {
      assert e[1..] == [Hex(b / 16), Hex(b % 16)] && e[1..][1..] == [Hex(b % 16)] && e[1..][1..][1..] == [];
      assert Utf8([Hex(b % 16)]) == [Hex(b % 16) as int];
      assert Utf8(e[1..]) == [Hex(b / 16) as int] + Utf8(e[1..][1..]);
      assert EncodeChar('%') == [0x25];
    }
  }

  lemma {:induction false} DecodeOfEncodeBytes(bs: seq<Byte>)
    ensures DecodeBytes(Utf8(EncodeBytes(bs))) == bs
  {
    if bs == [] {
    } else {
      var head, rest := EncodeByte(bs[0]), EncodeBytes(bs[1..]);
      Utf8Concat(head, rest);
      Utf8OfEncoded(bs[0]);
      DecodeOfEncodeBytes(bs[1..]);
      var all := Utf8(head) + Utf8(rest);
      if Unreserved(bs[0]) {
        assert all[1..] == Utf8(rest);
      } else {
        assert all[3..] == Utf8(rest);
        HexRoundTrip(bs[0] / 16);
        HexRoundTrip(bs[0] % 16);
      }
    }
  }

  lemma HexRoundTrip(d: nat)
    requires d < 16
    ensures HexValue(Hex(d) as int) == Some(d)
  {
  }

  /** Decoding gives back every encoded string. */
  lemma DecOfEnc(s: string)
    ensures Dec(Enc(s)) == s
  {
    DecodeOfEncodeBytes(Utf8(s));
    LossyOfUtf8(s);
  }

  /** What is encoded is made of unreserved characters and percent signs, so it holds no
      slash. */
  lemma {:induction false} EncodedCharacters(bs: seq<Byte>)
    ensures forall c :: c in EncodeBytes(bs) ==> c == '%' || (c as int < 128 && Unreserved(c as int))
  {
    if bs == [] {
    } else {
      EncodedCharacters(bs[1..]);
      var head := EncodeByte(bs[0]);
      assert forall c :: c in head ==> c == '%' || (c as int < 128 && Unreserved(c as int));
    }
  }

  lemma EncHasNoSlash(s: string)
    ensures '/' !in Enc(s)
  {
    EncodedCharacters(Utf8(s));
  }

  /** A segment of unreserved characters is its own encoding. */
  lemma {:induction false} EncOfUnreserved(s: string)
    requires forall c :: c in s ==> c as int < 128 && Unreserved(c as int)
    ensures Enc(s) == s
  {
    if s == [] {
    } else {
      assert s[0] in s && forall c :: c in s[1..] ==> c in s;
      EncOfUnreserved(s[1..]);
      assert EncodeChar(s[0]) == [s[0] as int];
      assert Utf8(s)[1..] == Utf8(s[1..]);
      assert s == [s[0]] + s[1..];
    }
  }

  /** Different segments have different encodings. */
  lemma EncIsInjective(a: string, b: string)
    requires Enc(a) == Enc(b)
    ensures a == b
  {
    DecOfEnc(a);
    DecOfEnc(b);
  }
}
