/** The strings that the decoder reads are those of RFC 8259, section 7, with their escapes. */
module JsonStrings {
  import opened Prelude
  import opened Text
  import opened Json

  /** A character as it is, a short escape, four hexadecimal digits, or a surrogate pair of them. */
  datatype Unit = Raw(c: char) | Short(letter: char) | Code(digits: string) | Pair(high: string, low: string)

  const ESCAPES: map<char, int> :=
    map['\"' := 0x22, '\\' := 0x5C, '/' := 0x2F, 'b' := 0x08, 'f' := 0x0C, 'n' := 0x0A, 'r' := 0x0D, 't' := 0x09]

  predicate IsHexDigit(c: char) {
    '0' <= c <= '9' || 'a' <= c <= 'f' || 'A' <= c <= 'F'
  }

  predicate IsCode(digits: string) {
    |digits| == 4 && forall i :: 0 <= i < 4 ==> IsHexDigit(digits[i])
  }

  /** The value of one hexadecimal digit of either case. */
  function DigitOf(c: char): (d: int)
    ensures IsHexDigit(c) ==> 0 <= d < 16
  {
    if c <= '9' then c as int - 0x30 else if c <= 'F' then c as int - 0x41 + 10 else c as int - 0x61 + 10
  }

  function CodeOf(digits: string): (code: int)
    requires |digits| == 4
    ensures IsCode(digits) ==> 0 <= code < 0x1_0000
  {
    ((DigitOf(digits[0]) * 16 + DigitOf(digits[1])) * 16 + DigitOf(digits[2])) * 16 + DigitOf(digits[3])
  }

  predicate IsUnit(u: Unit) {
    match u
    case Raw(c) => c as int >= 0x20 && c != '\"' && c != '\\'
    case Short(letter) => letter in ESCAPES
    case Code(digits) => IsCode(digits)
    case Pair(high, low) =>
      IsCode(high) && IsCode(low) && 0xD800 <= CodeOf(high) <= 0xDBFF && 0xDC00 <= CodeOf(low) <= 0xDFFF
  }

  function Printed(u: Unit): string {
    match u
    case Raw(c) => [c]
    case Short(letter) => ['\\', letter]
    case Code(digits) => "\\u" + digits
    case Pair(high, low) => "\\u" + high + ("\\u" + low)
  }

  /** The code point that a unit stands for. */
  function PointOf(u: Unit): Point
    requires IsUnit(u)
  {
    match u
    case Raw(c) => c as int
    case Short(letter) => ESCAPES[letter]
    case Code(digits) => CodeOf(digits)
    case Pair(high, low) => 0x1_0000 + (CodeOf(high) - 0xD800) * 0x400 + (CodeOf(low) - 0xDC00)
  }

  predicate IsHalf(u: Unit, first: int, last: int) {
    u.Code? && IsCode(u.digits) && first <= CodeOf(u.digits) <= last
  }

  /** Units in a row, in which two codes that make a pair are one unit. */
  predicate AreUnits(units: seq<Unit>) {
    && (forall u :: u in units ==> IsUnit(u))
    && forall i :: 0 <= i < |units| - 1 ==>
         !(IsHalf(units[i], 0xD800, 0xDBFF) && IsHalf(units[i + 1], 0xDC00, 0xDFFF))
  }

  function PrintedAll(units: seq<Unit>): string {
    if units == [] then "" else Printed(units[0]) + PrintedAll(units[1..])
  }

  function PointsOfUnits(units: seq<Unit>): (r: Points)
    requires forall u :: u in units ==> IsUnit(u)
    ensures |r| == |units|
  {
    seq(|units|, i requires 0 <= i < |units| => PointOf(units[i]))
  }

  // ---------------------------------------------------------------------------------------------
  // Hexadecimal digits.
  // ---------------------------------------------------------------------------------------------

  lemma HexValueMeans(c: char)
    ensures HexValue(c).Some? <==> IsHexDigit(c)
    ensures IsHexDigit(c) ==> HexValue(c).value == DigitOf(c) && 0 <= DigitOf(c) < 16
  {
  }

  lemma Hex4Means(digits: string, x: string)
    requires |digits| == 4
    ensures Hex4(digits + x).Some? <==> IsCode(digits)
    ensures IsCode(digits) ==> Hex4(digits + x).value == CodeOf(digits) && 0 <= CodeOf(digits) < 0x1_0000
  {
    HexValueMeans(digits[0]);
    HexValueMeans(digits[1]);
    HexValueMeans(digits[2]);
    HexValueMeans(digits[3]);
    assert forall i :: 0 <= i < 4 ==> (digits + x)[i] == digits[i];
  }

  /** Whether a text starts with the escape of a low surrogate. */
  lemma LowEscapeMeans(digits: string, x: string)
    requires IsCode(digits)
    ensures LowEscape("\\u" + digits + x)
         == if 0xDC00 <= CodeOf(digits) <= 0xDFFF then Some(CodeOf(digits)) else None
  {
    var s := "\\u" + digits + x;
    Hex4Means(digits, x);
    assert s[2..] == digits + x;
  }

  // ---------------------------------------------------------------------------------------------
  // One unit.
  // ---------------------------------------------------------------------------------------------

  predicate IsHigh(u: Unit) {
    IsHalf(u, 0xD800, 0xDBFF)
  }

  lemma ShortEscapes(letter: char)
    ensures letter in ESCAPES <==> SimpleEscape(letter).Some?
    ensures letter in ESCAPES ==> SimpleEscape(letter).value as int == ESCAPES[letter] && letter != 'u'
  {
  }

  lemma CodeIsRead(digits: string, y: string)
    requires IsCode(digits) && (0xD800 <= CodeOf(digits) <= 0xDBFF ==> LowEscape(y).None?)
    ensures ParseUnit("\\u" + digits + y) == Good(CodeOf(digits), y)
  {
    var s := "\\u" + digits + y;
    Hex4Means(digits, y);
    assert s[2..] == digits + y && s[6..] == y;
  }

  lemma PairIsRead(high: string, low: string, y: string)
    requires IsUnit(Pair(high, low))
    ensures ParseUnit("\\u" + high + ("\\u" + low + y)) == Good(PointOf(Pair(high, low)), y)
  {
    var rest := "\\u" + low + y;
    var s := "\\u" + high + rest;
    Hex4Means(high, rest);
    LowEscapeMeans(low, y);
    assert s[2..] == high + rest && s[6..] == rest && s[12..] == y;
  }

  lemma PlainIsRead(c: char, y: string)
    requires IsUnit(Raw(c))
    ensures ParseUnit([c] + y) == Good(c as int, y) && LowEscape([c] + y).None?
  {
    assert ([c] + y)[1..] == y;
  }

  lemma ShortIsRead(letter: char, y: string)
    requires letter in ESCAPES
    ensures ParseUnit(['\\', letter] + y) == Good(ESCAPES[letter], y) && LowEscape(['\\', letter] + y).None?
  {
    ShortEscapes(letter);
    assert (['\\', letter] + y)[2..] == y;
  }

  lemma PairText(high: string, low: string, y: string)
    ensures Printed(Pair(high, low)) + y == "\\u" + high + ("\\u" + low + y)
  {
    Assoc("\\u" + high, "\\u" + low, y);
  }

  /** A printed unit is read, unless it is half a pair and the other half follows. */
  lemma UnitIsRead(u: Unit, y: string)
    requires IsUnit(u) && (IsHigh(u) ==> LowEscape(y).None?)
    ensures ParseUnit(Printed(u) + y) == Good(PointOf(u), y)
  {
    match u
    case Raw(c) => PlainIsRead(c, y);
    case Short(letter) => ShortIsRead(letter, y);
    case Code(digits) => CodeIsRead(digits, y);
    case Pair(high, low) =>
      PairIsRead(high, low, y);
      PairText(high, low, y);
  }

  lemma CodeAt(s: string, i: nat)
    requires i <= |s| && Hex4(s[i..]).Some?
    ensures i + 4 <= |s| && IsCode(s[i..i + 4]) && Hex4(s[i..]).value == CodeOf(s[i..i + 4])
  {
    assert s[i..] == s[i..i + 4] + s[i + 4..];
    Hex4Means(s[i..i + 4], s[i + 4..]);
  }

  /** What is read is a unit. */
  lemma ReadUnit(s: string) returns (u: Unit)
    requires s != "" && s[0] != '\"' && ParseUnit(s).Good?
    ensures IsUnit(u) && s == Printed(u) + ParseUnit(s).rest && ParseUnit(s).value == PointOf(u)
    ensures IsHigh(u) ==> LowEscape(ParseUnit(s).rest).None?
  {
    if s[0] != '\\' {
      u := Raw(s[0]);
    } else if s[1] != 'u' {
      ShortEscapes(s[1]);
      u := Short(s[1]);
      assert s == [s[0], s[1]] + s[2..];
    } else {
      CodeAt(s, 2);
      assert s == "\\u" + s[2..6] + s[6..];
      if High(CodeOf(s[2..6])) && LowEscape(s[6..]).Some? {
        CodeAt(s[6..], 2);
        u := Pair(s[2..6], s[6..][2..6]);
        assert s[6..] == "\\u" + s[6..][2..6] + s[12..];
      } else {
        u := Code(s[2..6]);
      }
    }
  }

  // ---------------------------------------------------------------------------------------------
  // Whole strings.
  // ---------------------------------------------------------------------------------------------

  /** The units, the closing quote and what follows. */
  function Body(units: seq<Unit>, x: string): string {
    PrintedAll(units) + ("\"" + x)
  }

  lemma BodySplits(units: seq<Unit>, x: string)
    requires units != []
    ensures Body(units, x) == Printed(units[0]) + Body(units[1..], x)
  {
    Assoc(Printed(units[0]), PrintedAll(units[1..]), "\"" + x);
  }

  lemma LowOfUnit(u: Unit, y: string)
    requires IsUnit(u)
    ensures LowEscape(Printed(u) + y).Some? <==> IsHalf(u, 0xDC00, 0xDFFF)
  {
    match u
    case Raw(c) => PlainIsRead(c, y);
    case Short(letter) => ShortIsRead(letter, y);
    case Code(digits) => LowEscapeMeans(digits, y);
    case Pair(high, low) =>
      LowEscapeMeans(high, "\\u" + low + y);
      PairText(high, low, y);
  }

  /** Printed units start with the escape of a low surrogate exactly if their first one is that. */
  lemma FirstIsLow(units: seq<Unit>, x: string)
    requires forall u :: u in units ==> IsUnit(u)
    ensures LowEscape(Body(units, x)).Some? <==> units != [] && IsHalf(units[0], 0xDC00, 0xDFFF)
  {
    if units != [] {
      BodySplits(units, x);
      LowOfUnit(units[0], Body(units[1..], x));
    }
  }

  lemma NoQuoteFirst(u: Unit)
    requires IsUnit(u)
    ensures Printed(u)[0] != '\"'
  {
  }

  lemma UnitThenRest(u: Unit, y: string, points: Points, x: string)
    requires IsUnit(u) && (IsHigh(u) ==> LowEscape(y).None?) && ParseString(y) == Good(points, x)
    ensures ParseString(Printed(u) + y) == Good([PointOf(u)] + points, x)
  {
    UnitIsRead(u, y);
    NoQuoteFirst(u);
  }

  /** Printed units and a quote are read back. */
  lemma {:induction false} UnitsAreRead(units: seq<Unit>, x: string)
    requires AreUnits(units)
    ensures ParseString(Body(units, x)) == Good(PointsOfUnits(units), x)
  {
    if units == [] {
      assert Body(units, x)[1..] == x;
    } else {
      var others := units[1..];
      UnitsAreRead(others, x);
      BodySplits(units, x);
      FirstIsLow(others, x);
      assert others != [] ==> others[0] == units[1];
      UnitThenRest(units[0], Body(others, x), PointsOfUnits(others), x);
      assert PointsOfUnits(units) == [PointOf(units[0])] + PointsOfUnits(others);
    }
  }

  lemma UnitsCons(u: Unit, others: seq<Unit>, x: string)
    requires IsUnit(u) && AreUnits(others) && (IsHigh(u) ==> LowEscape(Body(others, x)).None?)
    ensures AreUnits([u] + others) && Body([u] + others, x) == Printed(u) + Body(others, x)
    ensures PointsOfUnits([u] + others) == [PointOf(u)] + PointsOfUnits(others)
  {
    FirstIsLow(others, x);
    BodySplits([u] + others, x);
    assert ([u] + others)[1..] == others;
  }

  /** A string that is read consists of units and a quote. */
  lemma {:induction false} ReadUnits(s: string) returns (units: seq<Unit>)
    requires ParseString(s).Good?
    ensures AreUnits(units) && s == Body(units, ParseString(s).rest)
    ensures ParseString(s).value == PointsOfUnits(units)
    decreases |s|
  {
    if s[0] == '\"' {
      units := [];
      assert s == "" + ("\"" + s[1..]);
    } else {
      var u := ReadUnit(s);
      var others := ReadUnits(ParseUnit(s).rest);
      units := [u] + others;
      UnitsCons(u, others, ParseString(s).rest);
    }
  }
}
