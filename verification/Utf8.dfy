/** UTF-8 (section 3 of RFC 3629) as Rust strings use it: `String::into_bytes` one way and
    `String::from_utf8_lossy` the other. A Dafny `char` is a Unicode scalar value, so a
    `string` is exactly the content of a Rust `String`. */
module Utf8 {

  type Byte = b: int | 0 <= b < 256

  const REPLACEMENT: char := '\U{FFFD}'

  function EncodeChar(c: char): (bytes: seq<Byte>)
    ensures 1 <= |bytes| <= 4
  {
    var n := c as int;
    if n < 0x80 then [n]
    else if n < 0x800 then [0xC0 + n / 64, 0x80 + n % 64]
    else if n < 0x1_0000 then [0xE0 + n / 4096, 0x80 + n / 64 % 64, 0x80 + n % 64]
    else [0xF0 + n / 262144, 0x80 + n / 4096 % 64, 0x80 + n / 64 % 64, 0x80 + n % 64]
  }

  function Encode(s: string): seq<Byte> {
    if s == [] then [] else EncodeChar(s[0]) + Encode(s[1..])
  }

  /** The byte at index `i`, or 0 past the end. */
  function At(b: seq<Byte>, i: nat): int {
    if i < |b| then b[i] else 0
  }

  predicate Continuation(b: int) {
    0x80 <= b < 0xC0
  }

  /** Second bytes a three-byte lead accepts: no overlong forms and no surrogates. */
  predicate Second3(lead: int, b: int) {
    Continuation(b) && (lead == 0xE0 ==> 0xA0 <= b) && (lead == 0xED ==> b < 0xA0)
  }

  /** Second bytes a four-byte lead accepts: no overlong forms, nothing above U+10FFFF. */
  predicate Second4(lead: int, b: int) {
    Continuation(b) && (lead == 0xF0 ==> 0x90 <= b) && (lead == 0xF4 ==> b < 0x90)
  }

  /** One step of the lossy decoder: how many bytes it consumes and the character it emits. An
      ill-formed sequence is consumed up to the first byte that cannot continue it and becomes
      one replacement character. */
  function Scan(b: seq<Byte>): (r: (nat, char))
    requires b != []
    ensures 1 <= r.0 <= |b|
  {
    var lead, b1, b2, b3 := At(b, 0), At(b, 1), At(b, 2), At(b, 3);
    if lead < 0x80 then (1, lead as char)
    else if 0xC2 <= lead < 0xE0 then
      if !Continuation(b1) then (1, REPLACEMENT)
      else (2, ((lead - 0xC0) * 64 + (b1 - 0x80)) as char)
    else if 0xE0 <= lead < 0xF0 then
      if !Second3(lead, b1) then (1, REPLACEMENT)
      else if !Continuation(b2) then (2, REPLACEMENT)
      else (3, ((lead - 0xE0) * 4096 + (b1 - 0x80) * 64 + (b2 - 0x80)) as char)
    else if 0xF0 <= lead < 0xF5 then
      if !Second4(lead, b1) then (1, REPLACEMENT)
      else if !Continuation(b2) then (2, REPLACEMENT)
      else if !Continuation(b3) then (3, REPLACEMENT)
      else (4, ((lead - 0xF0) * 262144 + (b1 - 0x80) * 4096 + (b2 - 0x80) * 64 + (b3 - 0x80)) as char)
    else (1, REPLACEMENT)
  }

  function DecodeLossy(b: seq<Byte>): string {
    if b == [] then [] else [Scan(b).1] + DecodeLossy(b[Scan(b).0..])
  }

  lemma ScanTwo(c: char, b: seq<Byte>)
    requires 0x80 <= c as int < 0x800 && EncodeChar(c) <= b
    ensures Scan(b) == (2, c)
  {
  }

  lemma ScanThree(c: char, b: seq<Byte>)
    requires 0x800 <= c as int < 0x1_0000 && EncodeChar(c) <= b
    ensures Scan(b) == (3, c)
  {
  }

  lemma ScanFour(c: char, b: seq<Byte>)
    requires 0x1_0000 <= c as int && EncodeChar(c) <= b
    ensures Scan(b) == (4, c)
  {
    Digits4(c as int);
    assert At(b, 0) == EncodeChar(c)[0] && At(b, 1) == EncodeChar(c)[1];
    assert At(b, 2) == EncodeChar(c)[2] && At(b, 3) == EncodeChar(c)[3];
  }

  /** The decoder reads back one well-formed character, whatever follows it. */
  lemma ScanEncoded(c: char, rest: seq<Byte>)
    ensures Scan(EncodeChar(c) + rest) == (|EncodeChar(c)|, c)
  {
    var n, b := c as int, EncodeChar(c) + rest;
    if n < 0x80 {
      assert b[0] == EncodeChar(c)[0];
    } else if n < 0x800 {
      ScanTwo(c, b);
    } else if n < 0x1_0000 {
      ScanThree(c, b);
    } else {
      ScanFour(c, b);
    }
  }

  lemma Digits3(n: nat)
    ensures n == n / 4096 * 4096 + n / 64 % 64 * 64 + n % 64
  {
  }

  lemma Digits4(n: nat)
    ensures n == n / 262144 * 262144 + n / 4096 % 64 * 4096 + n / 64 % 64 * 64 + n % 64
  {
    Digits3(n);
    assert n / 4096 / 64 == n / 262144;
  }

  // ----- ill-formed input -----

  lemma Sixbits(x: nat, y: nat)
    requires y < 64
    ensures (x * 64 + y) / 64 == x && (x * 64 + y) % 64 == y
  {
  }

  lemma EncodesTwo(lead: Byte, b1: Byte)
    requires 0xC2 <= lead < 0xE0 && Continuation(b1)
    ensures EncodeChar(((lead - 0xC0) * 64 + (b1 - 0x80)) as char) == [lead, b1]
  {
    Sixbits(lead - 0xC0, b1 - 0x80);
  }

  lemma EncodesThree(lead: Byte, b1: Byte, b2: Byte)
    requires 0xE0 <= lead < 0xF0 && Second3(lead, b1) && Continuation(b2)
    ensures EncodeChar(((lead - 0xE0) * 4096 + (b1 - 0x80) * 64 + (b2 - 0x80)) as char) == [lead, b1, b2]
  {
    var upper := (lead - 0xE0) * 64 + (b1 - 0x80);
    var n := (lead - 0xE0) * 4096 + (b1 - 0x80) * 64 + (b2 - 0x80);
    Sixbits(lead - 0xE0, b1 - 0x80);
    Sixbits(upper, b2 - 0x80);
    assert n == upper * 64 + (b2 - 0x80) && n / 4096 == n / 64 / 64;
  }

  lemma EncodesFour(lead: Byte, b1: Byte, b2: Byte, b3: Byte)
    requires 0xF0 <= lead < 0xF5 && Second4(lead, b1) && Continuation(b2) && Continuation(b3)
    ensures EncodeChar(((lead - 0xF0) * 262144 + (b1 - 0x80) * 4096 + (b2 - 0x80) * 64 + (b3 - 0x80)) as char)
            == [lead, b1, b2, b3]
  {
    var upper := (lead - 0xF0) * 4096 + (b1 - 0x80) * 64 + (b2 - 0x80);
    var n := (lead - 0xF0) * 262144 + (b1 - 0x80) * 4096 + (b2 - 0x80) * 64 + (b3 - 0x80);
    Sixbits(lead - 0xF0, b1 - 0x80);
    Sixbits((lead - 0xF0) * 64 + (b1 - 0x80), b2 - 0x80);
    Sixbits(upper, b3 - 0x80);
    assert n == upper * 64 + (b3 - 0x80) && upper == ((lead - 0xF0) * 64 + (b1 - 0x80)) * 64 + (b2 - 0x80);
    assert n / 64 == upper && n / 4096 == upper / 64 && n / 262144 == upper / 4096 == upper / 64 / 64;
  }

  /** What the decoder does not replace it has read exactly. */
  lemma ScanExact(b: seq<Byte>)
    requires b != [] && Scan(b).1 != REPLACEMENT
    ensures EncodeChar(Scan(b).1) == b[..Scan(b).0]
  {
    var n := Scan(b).0;
    if n == 2 {
      EncodesTwo(b[0], b[1]);
    } else if n == 3 {
      EncodesThree(b[0], b[1], b[2]);
    } else if n == 4 {
      EncodesFour(b[0], b[1], b[2], b[3]);
    }
  }

  lemma NotInCons(x: char, c: char, rest: string)
    requires x !in [c] + rest
    ensures x != c && x !in rest
  {
    assert c in [c] + rest;
  }

  lemma EncodeCons(c: char, rest: string)
    ensures Encode([c] + rest) == EncodeChar(c) + Encode(rest)
  {
    assert ([c] + rest)[1..] == rest;
  }

  lemma EncodeGlue(c: char, rest: string, b: seq<Byte>, n: nat)
    requires n <= |b| && EncodeChar(c) == b[..n] && Encode(rest) == b[n..]
    ensures Encode([c] + rest) == b
  {
    EncodeCons(c, rest);
    assert b == b[..n] + b[n..];
  }

  lemma DecodeStep(b: seq<Byte>)
    requires b != []
    ensures DecodeLossy(b) == [Scan(b).1] + DecodeLossy(b[Scan(b).0..])
  {
  }

  /** Bytes that are not well-formed leave a trace: text that came out without a replacement character
      encodes back to exactly the bytes that were read. */
  lemma {:induction false} LossyExact(b: seq<Byte>)
    requires REPLACEMENT !in DecodeLossy(b)
    ensures Encode(DecodeLossy(b)) == b
  {
    if b != [] {
      DecodeStep(b);
      NotInCons(REPLACEMENT, Scan(b).1, DecodeLossy(b[Scan(b).0..]));
      LossyExact(b[Scan(b).0..]);
      ScanExact(b);
      EncodeGlue(Scan(b).1, DecodeLossy(b[Scan(b).0..]), b, Scan(b).0);
    }
  }

  /** Encodings from section 7 of RFC 3629. */
  lemma EncodeSamples()
    ensures Encode("A\U{2262}\U{0391}.") == [0x41, 0xE2, 0x89, 0xA2, 0xCE, 0x91, 0x2E]
    ensures EncodeChar('\U{233B4}') == [0xF0, 0xA3, 0x8E, 0xB4]
  {
    assert EncodeChar('\U{2262}') == [0xE2, 0x89, 0xA2] && EncodeChar('\U{0391}') == [0xCE, 0x91];
    assert Encode(".") == [0x2E] + Encode([]);
    assert Encode("\U{0391}.") == [0xCE, 0x91] + Encode(".");
    assert Encode("\U{2262}\U{0391}.") == [0xE2, 0x89, 0xA2] + Encode("\U{0391}.");
    assert Encode("A\U{2262}\U{0391}.") == [0x41] + Encode("\U{2262}\U{0391}.");
  }

  /** A cut-off character is replaced once, and a surrogate byte by byte. */
  lemma DecodeSamples()
    ensures DecodeLossy([0xF0, 0x90, 0x80, 0x57]) == "\U{FFFD}W"
    ensures DecodeLossy([0xED, 0xA0, 0x80]) == "\U{FFFD}\U{FFFD}\U{FFFD}"
  {
    assert [0xF0, 0x90, 0x80, 0x57][3..] == [0x57] && DecodeLossy([0x57]) == ['W'] + DecodeLossy([0x57][1..]);
    assert [0xED, 0xA0, 0x80][1..] == [0xA0, 0x80] && [0xA0, 0x80][1..] == [0x80];
    assert DecodeLossy([0x80]) == [REPLACEMENT] + DecodeLossy([0x80][1..]);
  }

  /** Text survives the trip through bytes. */
  lemma {:induction false} DecodeEncode(s: string)
    ensures DecodeLossy(Encode(s)) == s
  {
    if s != [] {
      var head, tail := EncodeChar(s[0]), Encode(s[1..]);
      ScanEncoded(s[0], tail);
      assert (head + tail)[|head|..] == tail;
      DecodeEncode(s[1..]);
    }
  }
}
