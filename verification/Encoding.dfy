/** The two byte encodings that keys travel through: UTF-8, and base64 as in section 4 of RFC 4648. */
module Encoding {
  import opened Json

  type Byte = b: int | 0 <= b < 256

  // ---- UTF-8 ---------------------------------------------------------------

  function EncodeChar(c: char): seq<Byte> {
    var n := c as int;
    var q := n / 64;
    var r := q / 64;
    if n < 0x80 then [n]
    else if n < 0x800 then [0xC0 + q, 0x80 + n % 64]
    else if n < 0x10000 then [0xE0 + r, 0x80 + q % 64, 0x80 + n % 64]
    else [0xF0 + r / 64, 0x80 + r % 64, 0x80 + q % 64, 0x80 + n % 64]
  }

  function Utf8(s: string): seq<Byte> {
    if s == "" then [] else EncodeChar(s[0]) + Utf8(s[1..])
  }

  /** The lead byte announces how long a character's encoding is. */
  function EncodedLength(lead: Byte): nat {
    if lead < 0x80 then 1 else if lead < 0xE0 then 2 else if lead < 0xF0 then 3 else 4
  }

  lemma CharLength(c: char)
    ensures |EncodeChar(c)| == EncodedLength(EncodeChar(c)[0])
  {
  }

  /** The code point that a character's bytes spell. */
  function CodePoint(e: seq<Byte>): int {
    if |e| == 1 then e[0]
    else if |e| == 2 then (e[0] as int - 0xC0) * 64 + Tail(e[1])
    else if |e| == 3 then ((e[0] as int - 0xE0) * 64 + Tail(e[1])) * 64 + Tail(e[2])
    else if |e| == 4 then (((e[0] as int - 0xF0) * 64 + Tail(e[1])) * 64 + Tail(e[2])) * 64 + Tail(e[3])
    else 0
  }

  function Tail(b: Byte): int { b as int - 0x80 }

  lemma CharRoundTrip(c: char)
    ensures CodePoint(EncodeChar(c)) == c as int
  {
  }

  lemma {:induction false} Utf8Injective(s: string, t: string)
    requires Utf8(s) == Utf8(t)
    ensures s == t
  {
    if s != "" && t != "" {
      var e, f := EncodeChar(s[0]), EncodeChar(t[0]);
      CharLength(s[0]);
      CharLength(t[0]);
      assert Utf8(s)[0] == e[0] && Utf8(t)[0] == f[0];
      assert e == Utf8(s)[..|e|] && f == Utf8(t)[..|f|];
      CharRoundTrip(s[0]);
      CharRoundTrip(t[0]);
      assert Utf8(s[1..]) == Utf8(s)[|e|..] && Utf8(t[1..]) == Utf8(t)[|f|..];
      Utf8Injective(s[1..], t[1..]);
      assert s == [s[0]] + s[1..] && t == [t[0]] + t[1..];
    }
  }

  // ---- Base64 --------------------------------------------------------------

  function Digit(v: int): char
    requires 0 <= v < 64
  {
    if v < 26 then (v + 'A' as int) as char
    else if v < 52 then (v - 26 + 'a' as int) as char
    else if v < 62 then (v - 52 + '0' as int) as char
    else if v == 62 then '+' else '/'
  }

  /** The value of a base64 digit; every other character, the pad included, has none. */
  function DigitValue(c: char): (v: Option<int>)
    ensures v.Some? ==> 0 <= v.value < 64
  {
    if 'A' <= c <= 'Z' then Some(c as int - 'A' as int)
    else if 'a' <= c <= 'z' then Some(c as int - 'a' as int + 26)
    else if '0' <= c <= '9' then Some(c as int - '0' as int + 52)
    else if c == '+' then Some(62)
    else if c == '/' then Some(63) else None
  }

  const PAD := '='

  // A group of three bytes and its four digits, one from the other.

  function Digit1(x: Byte): (d: int)
    ensures 0 <= d < 64
  {
    x / 4
  }

  function Digit2(x: Byte, y: Byte): (d: int)
    ensures 0 <= d < 64
  {
    x % 4 * 16 + y / 16
  }

  function Digit3(y: Byte, z: Byte): (d: int)
    ensures 0 <= d < 64
  {
    y % 16 * 4 + z / 64
  }

  function Digit4(z: Byte): (d: int)
    ensures 0 <= d < 64
  {
    z % 64
  }

  function Byte1(p: int, q: int): Byte
    requires 0 <= p < 64 && 0 <= q < 64
  {
    p * 4 + q / 16
  }

  function Byte2(q: int, r: int): Byte
    requires 0 <= q < 64 && 0 <= r < 64
  {
    q % 16 * 16 + r / 4
  }

  function Byte3(r: int, t: int): Byte
    requires 0 <= r < 64 && 0 <= t < 64
  {
    r % 4 * 64 + t
  }

  function Group(x: Byte, y: Byte, z: Byte): string {
    [Digit(Digit1(x)), Digit(Digit2(x, y)), Digit(Digit3(y, z)), Digit(Digit4(z))]
  }

  /** `base64.b64encode`. */
  function Base64(b: seq<Byte>): string {
    if |b| == 0 then ""
    else if |b| == 1 then [Digit(Digit1(b[0])), Digit(Digit2(b[0], 0)), PAD, PAD]
    else if |b| == 2 then [Digit(Digit1(b[0])), Digit(Digit2(b[0], b[1])), Digit(Digit3(b[1], 0)), PAD]
    else Group(b[0], b[1], b[2]) + Base64(b[3..])
  }

  /** `base64.b64decode(..., validate=True)`: padding only at the very end, no foreign characters. */
  function Unbase64(s: string): Option<seq<Byte>> {
    if s == "" then Some([])
    else if |s| < 4 then None
    else
      match (DigitValue(s[0]), DigitValue(s[1]), DigitValue(s[2]), DigitValue(s[3]))
      case (Some(a), Some(b), Some(c), Some(d)) =>
        (match Unbase64(s[4..])
         case Some(rest) => Some([Byte1(a, b), Byte2(b, c), Byte3(c, d)] + rest)
         case None => None)
      case (Some(a), Some(b), Some(c), None) =>
        if |s| == 4 && s[3] == PAD then Some([Byte1(a, b), Byte2(b, c)]) else None
      case (Some(a), Some(b), None, None) =>
        if |s| == 4 && s[2] == PAD && s[3] == PAD then Some([Byte1(a, b)]) else None
      case _ => None
  }

  lemma DigitRoundTrip(v: int)
    requires 0 <= v < 64
    ensures DigitValue(Digit(v)) == Some(v)
  {
  }

  lemma FirstByte(x: Byte, y: Byte)
    ensures Byte1(Digit1(x), Digit2(x, y)) == x
  {
    assert (x % 4 * 16 + y / 16) / 16 == x % 4;
  }

  lemma SecondByte(x: Byte, y: Byte, z: Byte)
    ensures Byte2(Digit2(x, y), Digit3(y, z)) == y
  {
    assert (x % 4 * 16 + y / 16) % 16 == y / 16;
    assert (y % 16 * 4 + z / 64) / 4 == y % 16;
  }

  lemma ThirdByte(y: Byte, z: Byte)
    ensures Byte3(Digit3(y, z), Digit4(z)) == z
  {
    assert (y % 16 * 4 + z / 64) % 4 == z / 64;
  }

  lemma DecodeDigits(p: int, q: int, r: int, t: int, tail: string, rest: seq<Byte>)
    requires 0 <= p < 64 && 0 <= q < 64 && 0 <= r < 64 && 0 <= t < 64 && Unbase64(tail) == Some(rest)
    ensures Unbase64([Digit(p), Digit(q), Digit(r), Digit(t)] + tail) == Some([Byte1(p, q), Byte2(q, r), Byte3(r, t)] + rest)
  {
    DigitRoundTrip(p);
    DigitRoundTrip(q);
    DigitRoundTrip(r);
    DigitRoundTrip(t);
    var s := [Digit(p), Digit(q), Digit(r), Digit(t)] + tail;
    assert s[4..] == tail;
  }

  lemma DecodePair(p: int, q: int, r: int)
    requires 0 <= p < 64 && 0 <= q < 64 && 0 <= r < 64
    ensures Unbase64([Digit(p), Digit(q), Digit(r), PAD]) == Some([Byte1(p, q), Byte2(q, r)])
  {
    DigitRoundTrip(p);
    DigitRoundTrip(q);
    DigitRoundTrip(r);
  }

  lemma DecodeSingle(p: int, q: int)
    requires 0 <= p < 64 && 0 <= q < 64
    ensures Unbase64([Digit(p), Digit(q), PAD, PAD]) == Some([Byte1(p, q)])
  {
    DigitRoundTrip(p);
    DigitRoundTrip(q);
  }

  /** Decoding what was encoded recovers the bytes. */
  lemma {:induction false} Base64RoundTrip(b: seq<Byte>)
    ensures Unbase64(Base64(b)) == Some(b)
    decreases |b|
  {
    if 0 < |b| < 3 {
      EndRoundTrip(b);
    } else if |b| >= 3 {
      Base64RoundTrip(b[3..]);
      ThreeAndRest(b);
      DecodeDigits(Digit1(b[0]), Digit2(b[0], b[1]), Digit3(b[1], b[2]), Digit4(b[2]), Base64(b[3..]), b[3..]);
      FirstByte(b[0], b[1]);
      SecondByte(b[0], b[1], b[2]);
      ThirdByte(b[1], b[2]);
    }
  }

  lemma EndRoundTrip(b: seq<Byte>)
    requires 0 < |b| < 3
    ensures Unbase64(Base64(b)) == Some(b)
  {
    if |b| == 1 {
      SingleRoundTrip(b[0]);
      assert b == [b[0]];
    } else {
      DecodePair(Digit1(b[0]), Digit2(b[0], b[1]), Digit3(b[1], 0));
      FirstByte(b[0], b[1]);
      SecondByte(b[0], b[1], 0);
      assert b == [b[0], b[1]];
    }
  }

  lemma ThreeAndRest<T>(s: seq<T>)
    requires |s| >= 3
    ensures s == [s[0], s[1], s[2]] + s[3..]
  {
  }

  lemma SingleRoundTrip(x: Byte)
    ensures Unbase64([Digit(Digit1(x)), Digit(Digit2(x, 0)), PAD, PAD]) == Some([x])
  {
    DecodeSingle(Digit1(x), Digit2(x, 0));
    FirstByte(x, 0);
  }

  /** The alphabet of section 4 of RFC 4648: capitals, small letters, digits, plus and slash. */
  lemma StandardAlphabet(v: int)
    requires 0 <= v < 63
    ensures Digit(0) == 'A' && Digit(25) == 'Z' && Digit(26) == 'a' && Digit(51) == 'z'
    ensures Digit(52) == '0' && Digit(61) == '9' && Digit(62) == '+' && Digit(63) == '/'
    ensures v == 25 || v == 51 || v == 61 || v == 62 || Digit(v + 1) as int == Digit(v) as int + 1
  {
  }

  /** The test vectors of section 10 of RFC 4648 for one, two and three bytes. */
  lemma StandardVectors()
    ensures Base64([0x66]) == "Zg==" && Base64([0x66, 0x6f]) == "Zm8=" && Base64([0x66, 0x6f, 0x6f]) == "Zm9v"
  {
    assert Base64([0x66, 0x6f, 0x6f]) == Group(0x66, 0x6f, 0x6f) + Base64([]);
  }

  /** Characters of one to four bytes, as in section 7 of RFC 3629, and texts as their characters in turn. */
  lemma StandardEncodings(c: char, s: string)
    ensures EncodeChar(0x41 as char) == [0x41] && EncodeChar(0x391 as char) == [0xCE, 0x91]
    ensures EncodeChar(0x2262 as char) == [0xE2, 0x89, 0xA2] && EncodeChar(0x233B4 as char) == [0xF0, 0xA3, 0x8E, 0xB4]
    ensures Utf8("") == [] && Utf8([c] + s) == EncodeChar(c) + Utf8(s)
  {
    assert ([c] + s)[1..] == s;
  }

  // ---- Numbers as text -----------------------------------------------------

  function Decimal(n: nat): string {
    if n < 10 then [('0' as int + n) as char] else Decimal(n / 10) + [('0' as int + n % 10) as char]
  }

  /** One digit more is ten times as much. */
  lemma DecimalDigits(n: nat, d: nat)
    requires d < 10
    ensures Decimal(d) == ["0123456789"[d]]
    ensures n > 0 ==> Decimal(10 * n + d) == Decimal(n) + ["0123456789"[d]]
  {
    if n > 0 { assert (10 * n + d) / 10 == n && (10 * n + d) % 10 == d; }
  }

  lemma {:induction false} DecimalInjective(m: nat, n: nat)
    requires Decimal(m) == Decimal(n)
    ensures m == n
  {
    DecimalLength(m);
    DecimalLength(n);
    if m >= 10 && n >= 10 {
      var a, b := Decimal(m / 10), Decimal(n / 10);
      assert a == Decimal(m)[..|a|] && b == Decimal(n)[..|b|];
      assert Decimal(m)[|a|] == ('0' as int + m % 10) as char && Decimal(n)[|b|] == ('0' as int + n % 10) as char;
      DecimalInjective(m / 10, n / 10);
    }
  }

  lemma {:induction false} DecimalLength(n: nat)
    ensures |Decimal(n)| == 1 <==> n < 10
    ensures |Decimal(n)| >= 1 && ':' !in Decimal(n)
  {
    if n >= 10 { DecimalLength(n / 10); }
  }
}
