/** The UTF-8 encoding of a text, and that it loses nothing. */
module Utf8 {
  import opened Prelude
  import opened Text

  function EncodeChar(c: char): (b: Bytes)
    ensures 1 <= |b| <= 4
  {
    var p := c as int;
    if p < 0x80 then [p]
    else if p < 0x800 then [0xC0 + p / 0x40, 0x80 + p % 0x40]
    else if p < 0x1_0000 then [0xE0 + p / 0x1000, 0x80 + p / 0x40 % 0x40, 0x80 + p % 0x40]
    else [0xF0 + p / 0x4_0000, 0x80 + p / 0x1000 % 0x40, 0x80 + p / 0x40 % 0x40, 0x80 + p % 0x40]
  }

  function Encode(s: string): (b: Bytes)
    ensures |s| <= |b|
  {
    if s == [] then [] else EncodeChar(s[0]) + Encode(s[1..])
  }

  /** The bits that a byte contributes after its marker. */
  function Tail(b: Byte): int {
    b - 0x80
  }

  /** Continuation bytes carry six bits each. */
  predicate IsTail(b: Byte) {
    0x80 <= b < 0xC0
  }

  /** Lead byte, continuation bytes and shortest form, as in section 3 of RFC 3629. */
  lemma EncodeCharIsUtf8(c: char)
    ensures var p, b := c as int, EncodeChar(c);
            && (|b| == 1 <==> p < 0x80) && (|b| == 2 <==> 0x80 <= p < 0x800)
            && (|b| == 3 <==> 0x800 <= p < 0x1_0000) && (forall i :: 0 < i < |b| ==> IsTail(b[i]))
            && (|b| == 1 ==> b[0] == p)
            && (|b| == 2 ==> 0xC0 <= b[0] < 0xE0 && p == (b[0] - 0xC0) * 0x40 + Tail(b[1]))
            && (|b| == 3 ==> 0xE0 <= b[0] < 0xF0 && p == ((b[0] - 0xE0) * 0x40 + Tail(b[1])) * 0x40 + Tail(b[2]))
            && (|b| == 4 ==>
                  && 0xF0 <= b[0] < 0xF8
                  && p == (((b[0] - 0xF0) * 0x40 + Tail(b[1])) * 0x40 + Tail(b[2])) * 0x40 + Tail(b[3]))
  {
    var p := c as int;
    assert p / 0x1000 == p / 0x40 / 0x40 && p / 0x4_0000 == p / 0x1000 / 0x40;
  }

  /** The length of the code unit sequence that starts with a byte. */
  function UnitLength(b: Byte): nat {
    if b < 0x80 then 1 else if b < 0xE0 then 2 else if b < 0xF0 then 3 else 4
  }

  lemma EncodedLength(c: char)
    ensures |EncodeChar(c)| == UnitLength(EncodeChar(c)[0])
  {
  }

  lemma EncodeCharInjective(c: char, d: char)
    requires EncodeChar(c) == EncodeChar(d)
    ensures c == d
  {
    var p, q := c as int, d as int;
    var a, b := EncodeChar(c), EncodeChar(d);
    if |a| == 1 {
    } else if |a| == 2 {
      assert p / 0x40 == q / 0x40 && p % 0x40 == q % 0x40;
    } else if |a| == 3 {
      assert a[0] == b[0] && a[1] == b[1] && a[2] == b[2];
      assert p / 0x1000 == p / 0x40 / 0x40 && q / 0x1000 == q / 0x40 / 0x40;
      assert p / 0x40 == q / 0x40;
    } else {
      assert a[0] == b[0] && a[1] == b[1] && a[2] == b[2] && a[3] == b[3];
      assert p / 0x4_0000 == p / 0x1000 / 0x40 && q / 0x4_0000 == q / 0x1000 / 0x40;
      assert p / 0x1000 == p / 0x40 / 0x40 && q / 0x1000 == q / 0x40 / 0x40;
      assert p / 0x1000 == q / 0x1000;
      assert p / 0x40 == q / 0x40;
    }
  }

  /** Two texts with the same encoding are the same text. */
  lemma {:induction false} EncodeInjective(s: string, t: string)
    requires Encode(s) == Encode(t)
    ensures s == t
  {
    if s != [] && t != [] {
      var a, b := EncodeChar(s[0]), EncodeChar(t[0]);
      assert Encode(s)[0] == a[0] && Encode(t)[0] == b[0];
      EncodedLength(s[0]);
      EncodedLength(t[0]);
      assert a == Encode(s)[..|a|] && b == Encode(t)[..|b|];
      EncodeCharInjective(s[0], t[0]);
      assert Encode(s[1..]) == Encode(s)[|a|..] && Encode(t[1..]) == Encode(t)[|b|..];
      EncodeInjective(s[1..], t[1..]);
      HeadTail(s);
      HeadTail(t);
    }
  }

  lemma {:induction false} EncodeAppend(s: string, t: string)
    ensures Encode(s + t) == Encode(s) + Encode(t)
  {
    if s == [] {
      assert s + t == t;
    } else {
      assert (s + t)[1..] == s[1..] + t;
      EncodeAppend(s[1..], t);
    }
  }
}
