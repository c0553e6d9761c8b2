/**
 The compact writer, and the law that ties it to the decoder: whatever the decoder returned and the
 writer accepts is decoded again to the same value.
 */
module JsonRoundTrip {
  import opened Prelude
  import opened Text
  import opened Json
  import opened JsonLocality

  // ---------------------------------------------------------------------------------------------
  // The writer. `None` stands for the exceptions it raises: an infinite float, an integer beyond the
  // conversion bound, and a lone surrogate, which the UTF-8 encoding of the text refuses.
  // ---------------------------------------------------------------------------------------------

  function HexDigit(d: nat): (c: char)
    requires d < 16
    ensures HexValue(c) == Some(d)
  {
    if d < 10 then ('0' as int + d) as char else ('a' as int + d - 10) as char
  }

  function WritePoint(p: Point): Option<string> {
    if 0xD800 <= p < 0xE000 then None
    else Some(
      if p == 0x22 then "\\\""
      else if p == 0x5C then "\\\\"
      else if p == 0x0A then "\\n"
      else if p == 0x0D then "\\r"
      else if p == 0x09 then "\\t"
      else if p == 0x0C then "\\f"
      else if p == 0x08 then "\\b"
      else if p < 0x20 then ['\\', 'u', '0', '0', HexDigit(p / 16), HexDigit(p % 16)]
      else [p as char])
  }

  function WritePoints(points: Points): Option<string> {
    if points == [] then Some("")
    else
      match (WritePoint(points[0]), WritePoints(points[1..]))
      case (Some(first), Some(others)) => Some(first + others)
      case _ => None
  }

  function WriteString(points: Points): Option<string> {
    match WritePoints(points)
    case Some(body) => Some("\"" + body + "\"")
    case None => None
  }

  function WriteInt(n: int): Option<string> {
    var digits := Numeral(if n < 0 then -n else n);
    if |digits| > MAX_INTEGER_DIGITS then None else Some(if n < 0 then "-" + digits else digits)
  }

  function Prefixed(prefix: string, text: Option<string>): Option<string> {
    match text
    case Some(t) => Some(prefix + t)
    case None => None
  }

  function Write(v: Json): Option<string>
    decreases v, 0
  {
    match v
    case Null => Some("null")
    case Bool(b) => Some(if b then "true" else "false")
    case Int(n) => WriteInt(n)
    case Float(repr) => Some(repr)
    case Infinite => None
    case Str(points) => WriteString(points)
    case Arr(items) => if items == [] then Some("[]") else Prefixed("[", WriteItems(items))
    case Obj(members) => if members == [] then Some("{}") else Prefixed("{", WriteMembers(members))
  }

  /** Items, commas and the closing bracket. */
  function WriteItems(items: seq<Json>): Option<string>
    requires items != []
    decreases items, 1
  {
    match Write(items[0])
    case None => None
    case Some(first) =>
      if |items| == 1 then Some(first + "]")
      else
        match WriteItems(items[1..])
        case None => None
        case Some(others) => Some(first + "," + others)
  }

  function WriteMember(member: Member): Option<string>
    decreases member, 1
  {
    match (WriteString(member.key), Write(member.value))
    case (Some(key), Some(value)) => Some(key + ":" + value)
    case _ => None
  }

  /** Fields, commas and the closing brace. */
  function WriteMembers(members: seq<Member>): Option<string>
    requires members != []
    decreases members, 2
  {
    match WriteMember(members[0])
    case None => None
    case Some(first) =>
      if |members| == 1 then Some(first + "}")
      else
        match WriteMembers(members[1..])
        case None => None
        case Some(others) => Some(first + "," + others)
  }

  // ---------------------------------------------------------------------------------------------
  // Values in canonical form.
  // ---------------------------------------------------------------------------------------------

  /** `repr` of a double is a float literal that denotes the same double. */
  ghost predicate ReprRoundTrips(fl: FloatReader) {
    forall token :: fl(token).Some? ==> IsRepr(fl, fl(token).value)
  }

  predicate IsRepr(fl: FloatReader, repr: string) {
    && NumberLength(Start, repr) == Some(|repr|) && !AllDigits(Unsigned(repr))
    && fl(repr) == Some(repr)
  }

  predicate Canonical(fl: FloatReader, v: Json)
    decreases v, 0
  {
    match v
    case Int(n) => WriteInt(n).Some?
    case Float(repr) => IsRepr(fl, repr)
    case Arr(items) => forall item :: item in items ==> Canonical(fl, item)
    case Obj(members) => UniqueKeys(members) && forall m :: m in members ==> Canonical(fl, m.value)
    case _ => true
  }

  // ---------------------------------------------------------------------------------------------
  // Everything the decoder returns is canonical.
  // ---------------------------------------------------------------------------------------------

  lemma NoLeadingZero(s: string)
    requires NumberLength(Start, s).Some? && AllDigits(Unsigned(s[..NumberLength(Start, s).value]))
    ensures var digits := Unsigned(s[..NumberLength(Start, s).value]);
            digits != [] && (digits[0] == '0' ==> |digits| == 1)
  {
    var n := NumberLength(Start, s).value;
    var u := if s[0] == '-' then s[1..] else s;
    var k := if s[0] == '-' then n - 1 else n;
    assert Unsigned(s[..n]) == u[..k];
    if u[0] == '0' {
      assert NumberLength(Zero, u[1..]) == Some(k - 1);
    }
  }

  lemma NumberIsCanonical(fl: FloatReader, s: string)
    requires ReprRoundTrips(fl) && ParseNumber(fl, s).Good?
    ensures Canonical(fl, ParseNumber(fl, s).value)
  {
    var token := s[..NumberLength(Start, s).value];
    var digits := Unsigned(token);
    if AllDigits(digits) {
      NoLeadingZero(s);
      NumeralOfDigits(digits);
    }
  }

  lemma {:induction false} ValueIsCanonical(fl: FloatReader, s: string)
    requires ReprRoundTrips(fl) && ParseValue(fl, s).Good?
    ensures Canonical(fl, ParseValue(fl, s).value)
    decreases |s|, 0
  {
    if s[0] == '{' {
      var t := SkipSpace(s[1..]);
      if t[0] != '}' {
        MembersAreCanonical(fl, t);
      }
    } else if s[0] == '[' {
      var t := SkipSpace(s[1..]);
      if t[0] != ']' {
        ItemsAreCanonical(fl, t);
      }
    } else if s[0] != '\"' && !StartsWith(s, "null") && !StartsWith(s, "true") && !StartsWith(s, "false") {
      NumberIsCanonical(fl, s);
    }
  }

  lemma {:induction false} ItemsAreCanonical(fl: FloatReader, s: string)
    requires ReprRoundTrips(fl) && ParseItems(fl, s).Good?
    ensures forall v :: v in ParseItems(fl, s).value ==> Canonical(fl, v)
    decreases |s|, 1
  {
    ValueIsCanonical(fl, s);
    var t := SkipSpace(ParseValue(fl, s).rest);
    if t[0] == ',' {
      ItemsAreCanonical(fl, SkipSpace(t[1..]));
    }
  }

  lemma {:induction false} MembersAreCanonical(fl: FloatReader, s: string)
    requires ReprRoundTrips(fl) && ParseMembers(fl, s).Good?
    ensures forall m :: m in ParseMembers(fl, s).value ==> Canonical(fl, m.value)
    decreases |s|, 2
  {
    MemberIsCanonical(fl, s);
    var t := SkipSpace(ParseMember(fl, s).rest);
    if t[0] == ',' {
      MembersAreCanonical(fl, SkipSpace(t[1..]));
    }
  }

  lemma {:induction false} MemberIsCanonical(fl: FloatReader, s: string)
    requires ReprRoundTrips(fl) && ParseMember(fl, s).Good?
    ensures Canonical(fl, ParseMember(fl, s).value.value)
    decreases |s|, 1
  {
    var t := SkipSpace(ParseString(s[1..]).rest);
    ValueIsCanonical(fl, SkipSpace(t[1..]));
  }

  // ---------------------------------------------------------------------------------------------
  // Written values are decoded unchanged.
  // ---------------------------------------------------------------------------------------------

  lemma PointRoundTrip(p: Point, x: string)
    requires WritePoint(p).Some?
    ensures var w := WritePoint(p).value;
            w != [] && w[0] != '\"' && ParseUnit(w + x) == Good(p, x)
  {
    var w := WritePoint(p).value;
    assert (w + x)[|w|..] == x;
    if |w| == 6 {
      assert (w + x)[2..][0..4] == w[2..6];
      assert w[2] == (w + x)[2..][0] && w[3] == (w + x)[2..][1];
      assert w[4] == (w + x)[2..][2] && w[5] == (w + x)[2..][3];
    }
  }

  lemma NextPoint(w: string, p: Point, y: string)
    requires w != [] && w[0] != '\"' && ParseUnit(w + y) == Good(p, y) && ParseString(y).Good?
    ensures ParseString(w + y) == Good([p] + ParseString(y).value, ParseString(y).rest)
  {
    assert (w + y)[0] == w[0];
  }

  /** `quote` is the closing quote and everything after it. */
  lemma {:induction false} PointsRoundTrip(points: Points, quote: string)
    requires WritePoints(points).Some? && quote != [] && quote[0] == '\"'
    ensures ParseString(WritePoints(points).value + quote) == Good(points, quote[1..])
  {
    if points == [] {
      assert "" + quote == quote;
    } else {
      var first, others := WritePoint(points[0]).value, WritePoints(points[1..]).value;
      PointsRoundTrip(points[1..], quote);
      PointRoundTrip(points[0], others + quote);
      NextPoint(first, points[0], others + quote);
      Assoc(first, others, quote);
      HeadTail(points);
    }
  }

  lemma StringRoundTrip(points: Points, x: string)
    requires WriteString(points).Some?
    ensures var w := WriteString(points).value;
            w != [] && w[0] == '\"' && ParseString((w + x)[1..]) == Good(points, x)
  {
    var body := WritePoints(points).value;
    PointsRoundTrip(points, "\"" + x);
    ConsTail('\"', x);
    Assoc3("\"", body, "\"", x);
    ConsTail('\"', body + ("\"" + x));
  }

  lemma {:induction false} DigitsScan(s: string, x: string)
    requires AllDigits(s) && Delimits(x)
    ensures NumberLength(Whole, s + x) == Some(|s|)
  {
    if s == [] {
      assert s + x == x;
    } else {
      assert (s + x)[1..] == s[1..] + x;
      DigitsScan(s[1..], x);
    }
  }

  lemma NumeralScans(s: string, x: string, q: NumberState)
    requires AllDigits(s) && s != [] && (s[0] == '0' ==> |s| == 1) && Delimits(x)
    requires q.Start? || q.Minus?
    ensures NumberLength(q, s + x) == Some(|s|)
  {
    assert (s + x)[1..] == s[1..] + x;
    if s[0] == '0' {
      assert s[1..] + x == x;
      assert NumberLength(Zero, x) == Some(0);
    } else {
      DigitsScan(s[1..], x);
    }
  }

  lemma IntRoundTrip(fl: FloatReader, n: int, x: string)
    requires WriteInt(n).Some? && Delimits(x)
    ensures ParseNumber(fl, WriteInt(n).value + x) == Good(Int(n), x)
  {
    var digits := Numeral(if n < 0 then -n else n);
    var w := WriteInt(n).value;
    NumeralRoundTrip(if n < 0 then -n else n);
    if n < 0 {
      NumeralScans(digits, x, Minus);
      assert (w + x)[1..] == digits + x;
      assert Unsigned(w) == digits;
    } else {
      NumeralScans(digits, x, Start);
      assert Unsigned(w) == w;
    }
    assert (w + x)[..|w|] == w && (w + x)[|w|..] == x;
  }

  lemma FloatRoundTrip(fl: FloatReader, repr: string, x: string)
    requires IsRepr(fl, repr) && Delimits(x)
    ensures ParseNumber(fl, repr + x) == Good(Float(repr), x)
  {
    NumberLengthLocal(Start, repr, x);
    assert repr[..|repr|] == repr;
    assert (repr + x)[..|repr|] == repr && (repr + x)[|repr|..] == x;
  }

  /** What is written starts with neither space, a closing bracket, nor a comma. */
  predicate StartsValue(w: string) {
    w != [] && !IsJsonSpace(w[0]) && w[0] != ']' && w[0] != '}' && w[0] != ','
  }

  lemma ReprStarts(fl: FloatReader, repr: string)
    requires IsRepr(fl, repr)
    ensures StartsValue(repr)
  {
    NumberStarts(repr);
  }

  lemma WriteStarts(fl: FloatReader, v: Json)
    requires Canonical(fl, v) && Write(v).Some?
    ensures StartsValue(Write(v).value)
  {
    if v.Float? {
      ReprStarts(fl, v.repr);
    }
  }

  lemma NumberValueRoundTrip(fl: FloatReader, v: Json, x: string)
    requires IsNumber(v) && Canonical(fl, v) && Write(v).Some? && Delimits(x)
    ensures ParseValue(fl, Write(v).value + x) == Good(v, x)
  {
    if v.Int? {
      IntRoundTrip(fl, v.n, x);
    } else {
      FloatRoundTrip(fl, v.repr, x);
    }
    NumberStarts(Write(v).value + x);
    NumberIsNoWord(fl, Write(v).value + x);
  }

  lemma WordRoundTrip(fl: FloatReader, v: Json, x: string)
    requires v.Null? || v.Bool?
    ensures ParseValue(fl, Write(v).value + x) == Good(v, x)
  {
    var w := Write(v).value;
    assert (w + x)[0..|w|] == w && (w + x)[|w|..] == x;
    WordStarts(w + x, "null");
    WordStarts(w + x, "true");
  }

  lemma {:induction false} ValueRoundTrip(fl: FloatReader, v: Json, x: string)
    requires Canonical(fl, v) && Write(v).Some? && (IsNumber(v) ==> Delimits(x))
    ensures ParseValue(fl, Write(v).value + x) == Good(v, x)
    decreases v, 0
  {
    var w := Write(v).value;
    match v
    case Null => WordRoundTrip(fl, v, x);
    case Bool(_) => WordRoundTrip(fl, v, x);
    case Str(points) => StringRoundTrip(points, x);
    case Arr(items) =>
      ArrayRoundTrip(fl, items, x);
      assert (w + x)[1..] == w[1..] + x;
    case Obj(members) =>
      ObjectRoundTrip(fl, members, x);
      assert (w + x)[1..] == w[1..] + x;
    case _ => NumberValueRoundTrip(fl, v, x);
  }

  lemma {:induction false} ArrayRoundTrip(fl: FloatReader, items: seq<Json>, x: string)
    requires Canonical(fl, Arr(items)) && Write(Arr(items)).Some?
    ensures ParseArray(fl, Write(Arr(items)).value[1..] + x) == Good(Arr(items), x)
    decreases items, 2
  {
    var w := Write(Arr(items)).value[1..];
    if items == [] {
      assert w == "]";
      assert (w + x)[1..] == x;
    } else {
      assert w == WriteItems(items).value;
      ItemsRoundTrip(fl, items, x);
    }
  }

  lemma {:induction false} ObjectRoundTrip(fl: FloatReader, members: seq<Member>, x: string)
    requires Canonical(fl, Obj(members)) && Write(Obj(members)).Some?
    ensures ParseObject(fl, Write(Obj(members)).value[1..] + x) == Good(Obj(members), x)
    decreases members, 3
  {
    var w := Write(Obj(members)).value[1..];
    if members == [] {
      assert w == "}";
      assert (w + x)[1..] == x;
    } else {
      assert w == WriteMembers(members).value;
      MembersRoundTrip(fl, members, x);
    }
  }

  lemma LastItem(fl: FloatReader, first: string, v: Json, x: string)
    requires ParseValue(fl, first + ("]" + x)) == Good(v, "]" + x)
    ensures ParseItems(fl, (first + "]") + x) == Good([v], x)
  {
    Assoc(first, "]", x);
    ConsTail(']', x);
  }

  lemma NextItem(fl: FloatReader, first: string, v: Json, others: string, items: seq<Json>, x: string)
    requires ParseValue(fl, first + ("," + (others + x))) == Good(v, "," + (others + x))
    requires StartsValue(others) && ParseItems(fl, others + x) == Good(items, x)
    ensures ParseItems(fl, (first + "," + others) + x) == Good([v] + items, x)
  {
    Assoc3(first, ",", others, x);
    ConsTail(',', others + x);
    assert (others + x)[0] == others[0];
  }

  lemma {:induction false} ItemsRoundTrip(fl: FloatReader, items: seq<Json>, x: string)
    requires items != [] && WriteItems(items).Some?
    requires forall item :: item in items ==> Canonical(fl, item)
    ensures ParseItems(fl, WriteItems(items).value + x) == Good(items, x)
    ensures StartsValue(WriteItems(items).value)
    decreases items, 1
  {
    var v, first := items[0], Write(items[0]).value;
    assert v in items;
    WriteStarts(fl, v);
    HeadTail(items);
    if |items| == 1 {
      assert items == [v];
      ValueRoundTrip(fl, v, "]" + x);
      LastItem(fl, first, v, x);
    } else {
      var others := WriteItems(items[1..]).value;
      ItemsRoundTrip(fl, items[1..], x);
      ValueRoundTrip(fl, v, "," + (others + x));
      NextItem(fl, first, v, others, items[1..], x);
    }
  }

  lemma MemberFrom(fl: FloatReader, key: string, points: Points, text: string, v: Json, x: string)
    requires key != [] && key[0] == '\"'
    requires ParseString((key + (":" + (text + x)))[1..]) == Good(points, ":" + (text + x))
    requires StartsValue(text) && ParseValue(fl, text + x) == Good(v, x)
    ensures ParseMember(fl, (key + ":" + text) + x) == Good(Member(points, v), x)
  {
    Assoc3(key, ":", text, x);
    ConsTail(':', text + x);
    assert (text + x)[0] == text[0];
    assert (key + (":" + (text + x)))[0] == key[0];
  }

  lemma {:induction false} MemberRoundTrip(fl: FloatReader, member: Member, x: string)
    requires WriteMember(member).Some? && Canonical(fl, member.value)
    requires Delimits(x)
    ensures ParseMember(fl, WriteMember(member).value + x) == Good(member, x)
    ensures StartsValue(WriteMember(member).value)
    decreases member, 1
  {
    var key, text := WriteString(member.key).value, Write(member.value).value;
    WriteStarts(fl, member.value);
    ValueRoundTrip(fl, member.value, x);
    StringRoundTrip(member.key, ":" + (text + x));
    MemberFrom(fl, key, member.key, text, member.value, x);
  }

  lemma LastMember(fl: FloatReader, first: string, member: Member, x: string)
    requires ParseMember(fl, first + ("}" + x)) == Good(member, "}" + x)
    ensures ParseMembers(fl, (first + "}") + x) == Good([member], x)
  {
    Assoc(first, "}", x);
    ConsTail('}', x);
  }

  lemma NextMember(fl: FloatReader, first: string, member: Member, others: string, members: seq<Member>, x: string)
    requires ParseMember(fl, first + ("," + (others + x))) == Good(member, "," + (others + x))
    requires StartsValue(others) && ParseMembers(fl, others + x) == Good(members, x)
    ensures ParseMembers(fl, (first + "," + others) + x) == Good([member] + members, x)
  {
    Assoc3(first, ",", others, x);
    ConsTail(',', others + x);
    assert (others + x)[0] == others[0];
  }

  lemma {:induction false} MembersRoundTrip(fl: FloatReader, members: seq<Member>, x: string)
    requires members != [] && WriteMembers(members).Some?
    requires forall m :: m in members ==> Canonical(fl, m.value)
    ensures ParseMembers(fl, WriteMembers(members).value + x) == Good(members, x)
    ensures StartsValue(WriteMembers(members).value)
    decreases members, 2
  {
    var m, first := members[0], WriteMember(members[0]).value;
    assert m in members;
    HeadTail(members);
    if |members| == 1 {
      assert members == [m];
      MemberRoundTrip(fl, m, "}" + x);
      LastMember(fl, first, m, x);
    } else {
      var others := WriteMembers(members[1..]).value;
      MembersRoundTrip(fl, members[1..], x);
      MemberRoundTrip(fl, m, "," + (others + x));
      NextMember(fl, first, m, others, members[1..], x);
    }
  }

  /** `json.loads` undoes the writer on everything the decoder can return. */
  lemma LoadsOfWrite(fl: FloatReader, v: Json)
    requires Canonical(fl, v) && Write(v).Some?
    ensures Loads(fl, Write(v).value) == Some(v)
  {
    var w := Write(v).value;
    WriteStarts(fl, v);
    ValueRoundTrip(fl, v, "");
    assert w + "" == w;
  }
}
