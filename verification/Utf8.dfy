/** UTF-8 (RFC 3629 section 3): the bytes that are hashed, counted and written to files. */
module Utf8 {
  import opened Domain

  function EncodeChar(c: char): (r: Bytes)
    ensures 1 <= |r| <= 4
  {
    var n := c as int;
    if n < 0x80 then [n as Byte]
    else if n < 0x800 then [(0xC0 + n / 0x40) as Byte, (0x80 + n % 0x40) as Byte]
    else if n < 0x1_0000 then
      [(0xE0 + n / 0x1000) as Byte, (0x80 + n / 0x40 % 0x40) as Byte, (0x80 + n % 0x40) as Byte]
    else
      [(0xF0 + n / 0x4_0000) as Byte, (0x80 + n / 0x1000 % 0x40) as Byte, (0x80 + n / 0x40 % 0x40) as Byte,
       (0x80 + n % 0x40) as Byte]
  }

  function Encode(s: string): (r: Bytes)
    ensures |s| <= |r|
  {
    if s == [] then [] else EncodeChar(s[0]) + Encode(s[1..])
  }

  // The length of an encoded character, read off its first byte.
  function Width(first: Byte): nat {
    if first < 0x80 then 1 else if first < 0xE0 then 2 else if first < 0xF0 then 3 else 4
  }

  lemma WidthOf(c: char)
    ensures |EncodeChar(c)| == Width(EncodeChar(c)[0])
  {
  }

  /** The shortest form: as many bytes as the code point needs, only the first of which is
      no continuation byte. */
  lemma ShortestForm(c: char)
    ensures |EncodeChar(c)| == if c as int < 0x80 then 1 else if c as int < 0x800 then 2 else if c as int < 0x1_0000 then 3
                               else 4
    ensures forall i :: 1 <= i < |EncodeChar(c)| ==> 0x80 <= EncodeChar(c)[i] <= 0xBF
    ensures EncodeChar(c)[0] < 0x80 || 0xC2 <= EncodeChar(c)[0] <= 0xF4
    ensures |EncodeChar(c)| == 1 ==> EncodeChar(c)[0] as int == c as int
  {
    var n := c as int;
    assert 0x80 <= n < 0x800 ==> 2 <= n / 0x40 < 0x20;
  }

  // The code point encoded by the bytes of one character.
  function Point(b: Bytes): int
    requires 1 <= |b| <= 4
  {
    if |b| == 1 then b[0] as int
    else if |b| == 2 then (b[0] as int - 0xC0) * 0x40 + (b[1] as int - 0x80)
    else if |b| == 3 then (b[0] as int - 0xE0) * 0x1000 + (b[1] as int - 0x80) * 0x40 + (b[2] as int - 0x80)
    else (b[0] as int - 0xF0) * 0x4_0000 + (b[1] as int - 0x80) * 0x1000 + (b[2] as int - 0x80) * 0x40 +
         (b[3] as int - 0x80)
  }

  lemma PointOf(c: char)
    ensures Point(EncodeChar(c)) == c as int
  {
    var n := c as int;
    assert n == n / 0x40 * 0x40 + n % 0x40;
    assert n / 0x40 == n / 0x1000 * 0x40 + n / 0x40 % 0x40;
    assert n / 0x1000 == n / 0x4_0000 * 0x40 + n / 0x1000 % 0x40;
  }

  lemma FirstCharacter(c: char, x: Bytes, d: char, y: Bytes)
    requires EncodeChar(c) + x == EncodeChar(d) + y
    ensures c == d && x == y
  {
    WidthOf(c);
    WidthOf(d);
    assert (EncodeChar(c) + x)[0] == EncodeChar(c)[0] && (EncodeChar(d) + y)[0] == EncodeChar(d)[0];
    var w := |EncodeChar(c)|;
    assert (EncodeChar(c) + x)[..w] == EncodeChar(c) && (EncodeChar(d) + y)[..w] == EncodeChar(d);
    assert (EncodeChar(c) + x)[w..] == x && (EncodeChar(d) + y)[w..] == y;
    PointOf(c);
    PointOf(d);
  }

  /** Different texts have different bytes. */
  lemma {:induction false} EncodeInjective(s: string, t: string)
    requires Encode(s) == Encode(t)
    ensures s == t
    decreases s
  {
    if s != [] && t != [] {
      FirstCharacter(s[0], Encode(s[1..]), t[0], Encode(t[1..]));
      EncodeInjective(s[1..], t[1..]);
      assert s == [s[0]] + s[1..] && t == [t[0]] + t[1..];
    }
  }

  // The text whose encoding is b, if there is one.
  ghost function Decode(b: Bytes): (r: Option<string>)
    ensures r.Some? <==> exists s :: Encode(s) == b
    ensures r.Some? ==> Encode(r.value) == b
  {
    if exists s :: Encode(s) == b then
      var s :| Encode(s) == b;
      assert Encode(s) == b;
      Some(s)
    else None
  }

  lemma DecodeEncode(s: string)
    ensures Decode(Encode(s)) == Some(s)
  {
    EncodeInjective(Decode(Encode(s)).value, s);
  }
}
