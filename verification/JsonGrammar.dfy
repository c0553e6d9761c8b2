/**
 The decoder and the grammar of RFC 8259: a text is decoded exactly when it is the print of a concrete
 syntax tree with a meaning, and the decoder returns that meaning.
 */
module JsonGrammar {
  import opened Prelude
  import opened Text
  import opened Json
  import opened JsonNumbers
  import opened JsonStrings

  /** A text as it is written, with its spaces. */
  datatype Syntax =
    | Literal(word: string)
    | NumberText(token: string)
    | StringText(units: seq<Unit>)
    | ArrayText(space: string, items: seq<Slot>)
    | ObjectText(space: string, fields: seq<Entry>)

  /** An item of an array, or the value of a field, with the spaces around it. */
  datatype Slot = Slot(before: string, value: Syntax, after: string)

  datatype Entry = Entry(before: string, key: seq<Unit>, after: string, slot: Slot)

  predicate IsSpaces(s: string) {
    forall i :: 0 <= i < |s| ==> s[i] in {' ', '\t', '\n', '\r'}
  }

  predicate IsProper(x: Syntax)
    decreases x, 0
  {
    match x
    case Literal(word) => word in {"null", "true", "false"}
    case NumberText(token) => M(NUMBER, token)
    case StringText(units) => AreUnits(units)
    case ArrayText(space, items) => IsSpaces(space) && forall p :: p in items ==> IsProperSlot(p)
    case ObjectText(space, fields) =>
      IsSpaces(space) && forall e :: e in fields ==> IsProperEntry(e)
  }

  predicate IsProperEntry(e: Entry)
    decreases e, 1
  {
    IsSpaces(e.before) && AreUnits(e.key) && IsSpaces(e.after) && IsProperSlot(e.slot)
  }

  predicate IsProperSlot(p: Slot)
    decreases p, 1
  {
    IsSpaces(p.before) && IsProper(p.value) && IsSpaces(p.after)
  }

  function Print(x: Syntax): string
    decreases x, 0
  {
    match x
    case Literal(word) => word
    case NumberText(token) => token
    case StringText(units) => "\"" + Body(units, "")
    case ArrayText(space, items) => "[" + if items == [] then space + "]" else PrintItems(items)
    case ObjectText(space, fields) => "{" + if fields == [] then space + "}" else PrintFields(fields)
  }

  function PrintSlot(p: Slot): string
    decreases p, 1
  {
    p.before + Print(p.value) + p.after
  }

  /** Items between commas, and the bracket. */
  function PrintItems(items: seq<Slot>): string
    requires items != []
    decreases items, 2
  {
    PrintSlot(items[0]) + if |items| == 1 then "]" else "," + PrintItems(items[1..])
  }

  function PrintEntry(e: Entry): string
    decreases e, 1
  {
    e.before + "\"" + Body(e.key, "") + e.after + ":" + PrintSlot(e.slot)
  }

  function PrintFields(fields: seq<Entry>): string
    requires fields != []
    decreases fields, 2
  {
    PrintEntry(fields[0]) + if |fields| == 1 then "}" else "," + PrintFields(fields[1..])
  }

  // ---------------------------------------------------------------------------------------------
  // Meaning.
  // ---------------------------------------------------------------------------------------------

  /** An object with two fields of one name means nothing, and neither does an integer beyond the bound. */
  function Meaning(fl: FloatReader, x: Syntax): Option<Json>
    requires IsProper(x)
    decreases x, 0
  {
    match x
    case Literal(word) => Some(if word == "null" then Null else Bool(word == "true"))
    case NumberText(token) => TokenValue(fl, token)
    case StringText(units) => Some(Str(PointsOfUnits(units)))
    case ArrayText(_, items) =>
      (match ItemsMeaning(fl, items) case Some(values) => Some(Arr(values)) case None => None)
    case ObjectText(_, fields) =>
      match FieldsMeaning(fl, fields)
      case Some(members) => if UniqueKeys(members) then Some(Obj(members)) else None
      case None => None
  }

  function ItemsMeaning(fl: FloatReader, items: seq<Slot>): Option<seq<Json>>
    requires forall p :: p in items ==> IsProperSlot(p)
    decreases items, 1
  {
    if items == [] then Some([])
    else
      assert IsProperSlot(items[0]);
      match (Meaning(fl, items[0].value), ItemsMeaning(fl, items[1..]))
      case (Some(v), Some(others)) => Some([v] + others)
      case _ => None
  }

  function FieldsMeaning(fl: FloatReader, fields: seq<Entry>): Option<seq<Member>>
    requires forall e :: e in fields ==> IsProperEntry(e)
    decreases fields, 1
  {
    if fields == [] then Some([])
    else
      assert IsProperEntry(fields[0]) && IsProperSlot(fields[0].slot);
      match (Meaning(fl, fields[0].slot.value), FieldsMeaning(fl, fields[1..]))
      case (Some(v), Some(others)) => Some([Member(PointsOfUnits(fields[0].key), v)] + others)
      case _ => None
  }

  // ---------------------------------------------------------------------------------------------
  // Spaces and first characters.
  // ---------------------------------------------------------------------------------------------

  lemma {:induction false} SpacesAreSkipped(spaces: string, t: string)
    requires IsSpaces(spaces)
    ensures SkipSpace(spaces + t) == SkipSpace(t)
  {
    if spaces == "" {
      assert spaces + t == t;
    } else {
      assert (spaces + t)[1..] == spaces[1..] + t;
      SpacesAreSkipped(spaces[1..], t);
    }
  }

  lemma {:induction false} SkippedSpaces(s: string) returns (spaces: string)
    ensures IsSpaces(spaces) && s == spaces + SkipSpace(s)
  {
    spaces := "";
    if s != "" && IsJsonSpace(s[0]) {
      spaces := SkippedSpaces(s[1..]);
      HeadTail(s);
      Assoc([s[0]], spaces, SkipSpace(s[1..]));
      spaces := [s[0]] + spaces;
    }
  }

  predicate NumberChar(c: char) {
    IsDigit(c) || c in {'-', '+', '.', 'e', 'E'}
  }

  lemma {:induction false} AcceptedChars(q: NumberState, s: string)
    requires Accepts(q, s)
    ensures forall i :: 0 <= i < |s| ==> NumberChar(s[i])
    decreases |s|
  {
    if s != "" {
      AcceptedChars(NextState(q, s[0]).value, s[1..]);
      assert forall i :: 0 < i < |s| ==> s[i] == s[1..][i - 1];
    }
  }

  /** Nothing that follows makes a number longer. */
  ghost predicate NumberEnds(token: string, rest: string) {
    forall m :: 0 < m <= |rest| ==> !M(NUMBER, token + rest[..m])
  }

  lemma NumberGoesOn(token: string, t: string)
    requires M(NUMBER, token + t) && t != ""
    ensures NumberChar(t[0])
  {
    NumbersAreAccepted(token + t);
    AcceptedChars(Start, token + t);
    assert (token + t)[|token|] == t[0];
  }

  lemma DelimiterEnds(token: string, rest: string)
    requires rest == "" || !NumberChar(rest[0])
    ensures NumberEnds(token, rest)
  {
    forall m | 0 < m <= |rest| ensures !M(NUMBER, token + rest[..m]) {
      if M(NUMBER, token + rest[..m]) {
        NumberGoesOn(token, rest[..m]);
      }
    }
  }

  lemma NumberBegins(token: string)
    requires M(NUMBER, token)
    ensures token != "" && (token[0] == '-' || IsDigit(token[0]))
  {
    NumbersAreAccepted(token);
  }

  lemma PrintBegins(x: Syntax)
    requires IsProper(x)
    ensures Print(x) != "" && !IsJsonSpace(Print(x)[0]) && Print(x)[0] !in {',', ':', ']', '}'}
  {
    if x.NumberText? {
      NumberBegins(x.token);
    }
  }

  lemma NumberIsRead(fl: FloatReader, token: string, rest: string)
    requires M(NUMBER, token) && NumberEnds(token, rest)
    ensures NumberLength(Start, token + rest) == Some(|token|)
  {
    var s := token + rest;
    LongestNumberIsRead(s);
    assert s[..|token|] == token;
    forall n | |token| < n <= |s| ensures !M(NUMBER, s[..n]) {
      assert s[..n] == token + rest[..n - |token|];
    }
  }

  lemma WordIsRead(fl: FloatReader, word: string, rest: string)
    requires word in {"null", "true", "false"}
    ensures ParseValue(fl, word + rest) == Good(if word == "null" then Null else Bool(word == "true"), rest)
  {
    var s := word + rest;
    assert s[..|word|] == word && s[|word|..] == rest;
    assert s[0] == word[0];
  }

  lemma TokenIsRead(fl: FloatReader, token: string, rest: string)
    requires M(NUMBER, token) && NumberEnds(token, rest) && TokenValue(fl, token).Some?
    ensures ParseValue(fl, token + rest) == Good(TokenValue(fl, token).value, rest)
  {
    var s := token + rest;
    NumberBegins(token);
    NumberIsRead(fl, token, rest);
    assert s[..|token|] == token && s[|token|..] == rest && s[0] == token[0];
  }

  lemma StringIsRead(fl: FloatReader, units: seq<Unit>, rest: string)
    requires AreUnits(units)
    ensures ParseValue(fl, "\"" + Body(units, "") + rest) == Good(Str(PointsOfUnits(units)), rest)
  {
    var s := "\"" + Body(units, "") + rest;
    UnitsAreRead(units, rest);
    BodyThen(units, rest);
    Bracketed("\"", Body(units, ""), rest);
    ValueOfString(fl, s, PointsOfUnits(units), rest);
  }

  lemma BodyThen(units: seq<Unit>, rest: string)
    ensures Body(units, "") + rest == Body(units, rest)
  {
    assert "\"" + "" == "\"";
    Assoc(PrintedAll(units), "\"", rest);
  }

  // ---------------------------------------------------------------------------------------------
  // What is printed is read.
  // ---------------------------------------------------------------------------------------------

  /** A character that can follow a value and its spaces. */
  predicate IsDelimiter(c: char) {
    c == ',' || c == ']' || c == '}' || c == ':'
  }

  lemma SlotSkips(p: Slot, tail: string)
    requires IsProperSlot(p) && tail != "" && IsDelimiter(tail[0])
    ensures SkipSpace(PrintSlot(p) + tail) == Print(p.value) + (p.after + tail)
    ensures SkipSpace(p.after + tail) == tail
    ensures p.value.NumberText? ==> NumberEnds(p.value.token, p.after + tail)
  {
    var text := Print(p.value) + (p.after + tail);
    PrintBegins(p.value);
    assert PrintSlot(p) + tail == p.before + text;
    SpacesAreSkipped(p.before, text);
    SpacesAreSkipped(p.after, tail);
    assert text[0] == Print(p.value)[0];
    if p.value.NumberText? {
      DelimiterEnds(p.value.token, p.after + tail);
    }
  }

  lemma LastItemIsRead(fl: FloatReader, s: string, v: Json, after: string, rest: string)
    requires ParseValue(fl, s) == Good(v, after) && SkipSpace(after) == "]" + rest
    ensures ParseItems(fl, s) == Good([v], rest)
  {
    assert ("]" + rest)[1..] == rest;
  }

  lemma NextItemIsRead(fl: FloatReader, s: string, v: Json, after: string, more: string, vs: seq<Json>, rest: string)
    requires ParseValue(fl, s) == Good(v, after) && SkipSpace(after) == "," + more
    requires ParseItems(fl, SkipSpace(more)) == Good(vs, rest)
    ensures ParseItems(fl, s) == Good([v] + vs, rest)
  {
    assert ("," + more)[1..] == more;
  }

  lemma EntryText(e: Entry, tail: string)
    ensures PrintEntry(e) + tail == e.before + ("\"" + Body(e.key, e.after + (":" + (PrintSlot(e.slot) + tail))))
  {
    var slot := PrintSlot(e.slot) + tail;
    BodyThen(e.key, e.after + (":" + slot));
    var body := Body(e.key, "");
    assert PrintEntry(e) + tail == e.before + ("\"" + (body + (e.after + (":" + slot))));
  }

  lemma EntrySkips(e: Entry, tail: string)
    requires IsProperEntry(e)
    ensures SkipSpace(PrintEntry(e) + tail)
         == "\"" + Body(e.key, e.after + (":" + (PrintSlot(e.slot) + tail)))
  {
    EntryText(e, tail);
    SpacesAreSkipped(e.before, "\"" + Body(e.key, e.after + (":" + (PrintSlot(e.slot) + tail))));
  }

  lemma MemberIsRead(fl: FloatReader, s: string, points: Points, rest: string, more: string, v: Json, after: string)
    requires ParseString(s) == Good(points, rest) && SkipSpace(rest) == ":" + more
    requires ParseValue(fl, SkipSpace(more)) == Good(v, after)
    ensures ParseMember(fl, "\"" + s) == Good(Member(points, v), after)
  {
    assert ("\"" + s)[1..] == s && (":" + more)[1..] == more;
  }

  /** A field name, its colon and its value. */
  lemma EntryIsRead(fl: FloatReader, e: Entry, tail: string, v: Json)
    requires IsProperEntry(e) && tail != "" && IsDelimiter(tail[0])
    requires var after := e.slot.after + tail; ParseValue(fl, Print(e.slot.value) + after) == Good(v, after)
    ensures ParseMember(fl, SkipSpace(PrintEntry(e) + tail))
         == Good(Member(PointsOfUnits(e.key), v), e.slot.after + tail)
  {
    var slot := PrintSlot(e.slot) + tail;
    var rest := e.after + (":" + slot);
    EntrySkips(e, tail);
    UnitsAreRead(e.key, rest);
    SpacesAreSkipped(e.after, ":" + slot);
    SlotSkips(e.slot, tail);
    assert SkipSpace(":" + slot) == ":" + slot;
    MemberIsRead(fl, Body(e.key, rest), PointsOfUnits(e.key), rest, slot, v, e.slot.after + tail);
  }

  lemma LastFieldIsRead(fl: FloatReader, s: string, m: Member, after: string, rest: string)
    requires ParseMember(fl, s) == Good(m, after) && SkipSpace(after) == "}" + rest
    ensures ParseMembers(fl, s) == Good([m], rest)
  {
    assert ("}" + rest)[1..] == rest;
  }

  lemma NextFieldIsRead(
      fl: FloatReader, s: string, m: Member, after: string, more: string, ms: seq<Member>, rest: string)
    requires ParseMember(fl, s) == Good(m, after) && SkipSpace(after) == "," + more
    requires ParseMembers(fl, SkipSpace(more)) == Good(ms, rest)
    ensures ParseMembers(fl, s) == Good([m] + ms, rest)
  {
    assert ("," + more)[1..] == more;
  }

  lemma {:induction false} ItemsAreRead(fl: FloatReader, items: seq<Slot>, rest: string)
    requires items != [] && (forall p :: p in items ==> IsProperSlot(p)) && ItemsMeaning(fl, items).Some?
    ensures ParseItems(fl, SkipSpace(PrintItems(items) + rest)) == Good(ItemsMeaning(fl, items).value, rest)
    decreases items, 1
  {
    var p, others := items[0], items[1..];
    assert IsProperSlot(p);
    var v := Meaning(fl, p.value).value;
    var tail := if |items| == 1 then "]" + rest else "," + (PrintItems(others) + rest);
    assert PrintItems(items) + rest == PrintSlot(p) + tail;
    SlotSkips(p, tail);
    ValueIsRead(fl, p.value, p.after + tail);
    var s := Print(p.value) + (p.after + tail);
    if |items| == 1 {
      assert others == [] && [v] + [] == [v];
      LastItemIsRead(fl, s, v, p.after + tail, rest);
    } else {
      ItemsAreRead(fl, others, rest);
      NextItemIsRead(fl, s, v, p.after + tail, PrintItems(others) + rest, ItemsMeaning(fl, others).value, rest);
    }
  }

  lemma {:induction false} FieldsAreRead(fl: FloatReader, fields: seq<Entry>, rest: string)
    requires fields != [] && (forall e :: e in fields ==> IsProperEntry(e)) && FieldsMeaning(fl, fields).Some?
    ensures ParseMembers(fl, SkipSpace(PrintFields(fields) + rest)) == Good(FieldsMeaning(fl, fields).value, rest)
    decreases fields, 1
  {
    var e, others := fields[0], fields[1..];
    assert IsProperEntry(e) && IsProperSlot(e.slot);
    var v := Meaning(fl, e.slot.value).value;
    var tail := if |fields| == 1 then "}" + rest else "," + (PrintFields(others) + rest);
    assert PrintFields(fields) + rest == PrintEntry(e) + tail;
    SlotSkips(e.slot, tail);
    ValueIsRead(fl, e.slot.value, e.slot.after + tail);
    EntryIsRead(fl, e, tail, v);
    var s, m := SkipSpace(PrintEntry(e) + tail), Member(PointsOfUnits(e.key), v);
    if |fields| == 1 {
      assert others == [] && [m] + [] == [m];
      LastFieldIsRead(fl, s, m, e.slot.after + tail, rest);
    } else {
      FieldsAreRead(fl, others, rest);
      NextFieldIsRead(
        fl, s, m, e.slot.after + tail, PrintFields(others) + rest, FieldsMeaning(fl, others).value, rest);
    }
  }

  lemma EmptyIsRead(fl: FloatReader, space: string, rest: string)
    requires IsSpaces(space)
    ensures ParseValue(fl, "[" + (space + "]") + rest) == Good(Arr([]), rest)
    ensures ParseValue(fl, "{" + (space + "}") + rest) == Good(Obj([]), rest)
  {
    SpacesAreSkipped(space, "]" + rest);
    SpacesAreSkipped(space, "}" + rest);
    assert ("[" + (space + "]") + rest)[1..] == space + ("]" + rest) && ("]" + rest)[1..] == rest;
    assert ("{" + (space + "}") + rest)[1..] == space + ("}" + rest) && ("}" + rest)[1..] == rest;
  }

  lemma Bracketed(d: string, text: string, rest: string)
    requires |d| == 1
    ensures var s := d + text + rest; s[0] == d[0] && s[1..] == text + rest
  {
  }

  lemma ValueOfArray(fl: FloatReader, s: string)
    requires s != "" && s[0] == '['
    ensures ParseValue(fl, s) == ParseArray(fl, s[1..])
  {
  }

  lemma ValueOfObject(fl: FloatReader, s: string)
    requires s != "" && s[0] == '{'
    ensures ParseValue(fl, s) == ParseObject(fl, s[1..])
  {
  }

  lemma ValueOfString(fl: FloatReader, s: string, points: Points, rest: string)
    requires s != "" && s[0] == '\"' && ParseString(s[1..]) == Good(points, rest)
    ensures ParseValue(fl, s) == Good(Str(points), rest)
  {
  }

  lemma ArrayIsRead(fl: FloatReader, text: string, values: seq<Json>, rest: string)
    requires ParseItems(fl, SkipSpace(text + rest)) == Good(values, rest)
    requires SkipSpace(text + rest) != "" && SkipSpace(text + rest)[0] != ']'
    ensures ParseValue(fl, "[" + text + rest) == Good(Arr(values), rest)
  {
    Bracketed("[", text, rest);
    ValueOfArray(fl, "[" + text + rest);
  }

  lemma ObjectIsRead(fl: FloatReader, text: string, members: seq<Member>, rest: string)
    requires ParseMembers(fl, SkipSpace(text + rest)) == Good(members, rest) && UniqueKeys(members)
    requires SkipSpace(text + rest) != "" && SkipSpace(text + rest)[0] != '}'
    ensures ParseValue(fl, "{" + text + rest) == Good(Obj(members), rest)
  {
    Bracketed("{", text, rest);
    ValueOfObject(fl, "{" + text + rest);
  }

  lemma ItemsBegin(items: seq<Slot>, rest: string)
    requires items != [] && IsProperSlot(items[0])
    ensures SkipSpace(PrintItems(items) + rest) != "" && SkipSpace(PrintItems(items) + rest)[0] != ']'
  {
    var p := items[0];
    var tail := if |items| == 1 then "]" + rest else "," + (PrintItems(items[1..]) + rest);
    assert PrintItems(items) + rest == PrintSlot(p) + tail;
    SlotSkips(p, tail);
    PrintBegins(p.value);
  }

  lemma FieldsBegin(fields: seq<Entry>, rest: string)
    requires fields != [] && IsProperEntry(fields[0])
    ensures SkipSpace(PrintFields(fields) + rest) != "" && SkipSpace(PrintFields(fields) + rest)[0] != '}'
  {
    var e := fields[0];
    var tail := if |fields| == 1 then "}" + rest else "," + (PrintFields(fields[1..]) + rest);
    assert PrintFields(fields) + rest == PrintEntry(e) + tail;
    EntrySkips(e, tail);
  }

  /** A proper text with a meaning is read as what it means, before anything that does not prolong a number. */
  lemma {:induction false} ValueIsRead(fl: FloatReader, x: Syntax, rest: string)
    requires IsProper(x) && Meaning(fl, x).Some? && (x.NumberText? ==> NumberEnds(x.token, rest))
    ensures ParseValue(fl, Print(x) + rest) == Good(Meaning(fl, x).value, rest)
    decreases x, 0
  {
    match x
    case Literal(word) => WordIsRead(fl, word, rest);
    case NumberText(token) => TokenIsRead(fl, token, rest);
    case StringText(units) => StringIsRead(fl, units, rest);
    case ArrayText(space, items) =>
      if items == [] {
        EmptyIsRead(fl, space, rest);
      } else {
        ItemsAreRead(fl, items, rest);
        ItemsBegin(items, rest);
        ArrayIsRead(fl, PrintItems(items), ItemsMeaning(fl, items).value, rest);
      }
    case ObjectText(space, fields) =>
      if fields == [] {
        EmptyIsRead(fl, space, rest);
      } else {
        FieldsAreRead(fl, fields, rest);
        FieldsBegin(fields, rest);
        ObjectIsRead(fl, PrintFields(fields), FieldsMeaning(fl, fields).value, rest);
      }
  }

  // ---------------------------------------------------------------------------------------------
  // What is read was printed.
  // ---------------------------------------------------------------------------------------------

  /** The first item, moved behind these spaces. */
  function Behind(spaces: string, items: seq<Slot>): seq<Slot>
    requires items != []
  {
    [items[0].(before := spaces)] + items[1..]
  }

  lemma ItemsBehind(fl: FloatReader, spaces: string, items: seq<Slot>)
    requires items != [] && items[0].before == "" && IsSpaces(spaces) && forall p :: p in items ==> IsProperSlot(p)
    ensures PrintItems(Behind(spaces, items)) == spaces + PrintItems(items)
    ensures forall p :: p in Behind(spaces, items) ==> IsProperSlot(p)
    ensures ItemsMeaning(fl, Behind(spaces, items)) == ItemsMeaning(fl, items)
  {
    var moved := Behind(spaces, items);
    assert moved[1..] == items[1..] && IsProperSlot(items[0]);
    assert PrintSlot(moved[0]) == spaces + PrintSlot(items[0]);
  }

  function FieldsBehindSpaces(spaces: string, fields: seq<Entry>): seq<Entry>
    requires fields != []
  {
    [fields[0].(before := spaces)] + fields[1..]
  }

  lemma FieldsBehind(fl: FloatReader, spaces: string, fields: seq<Entry>)
    requires fields != [] && fields[0].before == "" && IsSpaces(spaces) && forall e :: e in fields ==> IsProperEntry(e)
    ensures PrintFields(FieldsBehindSpaces(spaces, fields)) == spaces + PrintFields(fields)
    ensures forall e :: e in FieldsBehindSpaces(spaces, fields) ==> IsProperEntry(e)
    ensures FieldsMeaning(fl, FieldsBehindSpaces(spaces, fields)) == FieldsMeaning(fl, fields)
  {
    var moved := FieldsBehindSpaces(spaces, fields);
    assert moved[1..] == fields[1..] && IsProperEntry(fields[0]);
    PrintBehind(spaces, fields[0]);
  }

  lemma PrintBehind(spaces: string, e: Entry)
    requires e.before == ""
    ensures PrintEntry(e.(before := spaces)) == spaces + PrintEntry(e)
  {
    var body := "\"" + Body(e.key, "") + e.after + ":" + PrintSlot(e.slot);
    assert PrintEntry(e) == body;
    assert PrintEntry(e.(before := spaces)) == spaces + body;
  }

  lemma ReadWord(s: string, word: string)
    requires StartsWith(s, word)
    ensures s == word + s[|word|..]
  {
  }

  lemma ReadNumber(fl: FloatReader, s: string) returns (token: string)
    requires ParseNumber(fl, s).Good?
    ensures M(NUMBER, token) && s == token + ParseNumber(fl, s).rest && NumberEnds(token, ParseNumber(fl, s).rest)
    ensures TokenValue(fl, token) == Some(ParseNumber(fl, s).value)
  {
    LongestNumberIsRead(s);
    var n := NumberLength(Start, s).value;
    token := s[..n];
    forall m | 0 < m <= |s[n..]| ensures !M(NUMBER, token + s[n..][..m]) {
      assert s[..n + m] == token + s[n..][..m];
    }
  }

  lemma ReadScalar(fl: FloatReader, s: string) returns (x: Syntax)
    requires ParseScalar(fl, s).Good?
    ensures IsProper(x) && s == Print(x) + ParseScalar(fl, s).rest
    ensures Meaning(fl, x) == Some(ParseScalar(fl, s).value)
  {
    if StartsWith(s, "null") {
      x := Literal("null");
      ReadWord(s, "null");
    } else if StartsWith(s, "true") {
      x := Literal("true");
      ReadWord(s, "true");
    } else if StartsWith(s, "false") {
      x := Literal("false");
      ReadWord(s, "false");
    } else {
      var token := ReadNumber(fl, s);
      x := NumberText(token);
    }
  }

  lemma ReadString(fl: FloatReader, s: string) returns (x: Syntax)
    requires s != "" && s[0] == '\"' && ParseString(s[1..]).Good?
    ensures IsProper(x) && s == Print(x) + ParseString(s[1..]).rest
    ensures Meaning(fl, x) == Some(Str(ParseString(s[1..]).value))
  {
    var units := ReadUnits(s[1..]);
    x := StringText(units);
    BodyThen(units, ParseString(s[1..]).rest);
    assert s == "\"" + s[1..];
  }

  /** One more item in front. */
  lemma ItemInFront(fl: FloatReader, x: Syntax, after: string, others: seq<Slot>)
    requires IsProper(x) && IsSpaces(after) && Meaning(fl, x).Some?
    requires (forall p :: p in others ==> IsProperSlot(p)) && ItemsMeaning(fl, others).Some?
    ensures var items := [Slot("", x, after)] + others;
            && (forall p :: p in items ==> IsProperSlot(p))
            && ItemsMeaning(fl, items) == Some([Meaning(fl, x).value] + ItemsMeaning(fl, others).value)
            && PrintItems(items) == Print(x) + after + if others == [] then "]" else "," + PrintItems(others)
  {
    var items := [Slot("", x, after)] + others;
    assert items[1..] == others;
    assert "" + Print(x) == Print(x);
  }

  /** What was read, the spaces, a delimiter and the remainder. */
  lemma Delimited(s: string, front: string, rest: string, after: string, d: char, end: string)
    requires s == front + rest && rest == after + SkipSpace(rest)
    requires SkipSpace(rest) != "" && SkipSpace(rest)[0] == d && SkipSpace(rest)[1..] == end
    ensures s == front + after + [d] + end
  {
    HeadTail(SkipSpace(rest));
  }

  lemma ItemsCases(fl: FloatReader, s: string)
    requires ParseItems(fl, s).Good?
    ensures var r := ParseValue(fl, s);
            && r.Good? && SkipSpace(r.rest) != ""
            && var t := SkipSpace(r.rest);
               if t[0] == ']' then ParseItems(fl, s) == Good([r.value], t[1..])
               else
                 && t[0] == ',' && ParseItems(fl, SkipSpace(t[1..])).Good?
                 && var more := ParseItems(fl, SkipSpace(t[1..]));
                    ParseItems(fl, s) == Good([r.value] + more.value, more.rest)
  {
  }

  lemma FirstItem(fl: FloatReader, s: string, x: Syntax, after: string, others: seq<Slot>, text: string, rest: string)
    requires IsProper(x) && IsSpaces(after) && Meaning(fl, x).Some?
    requires (forall p :: p in others ==> IsProperSlot(p)) && ItemsMeaning(fl, others).Some?
    requires text == if others == [] then "]" else "," + PrintItems(others)
    requires s == Print(x) + after + text + rest
    ensures var items := [Slot("", x, after)] + others;
            && (forall p :: p in items ==> IsProperSlot(p)) && s == PrintItems(items) + rest
            && ItemsMeaning(fl, items) == Some([Meaning(fl, x).value] + ItemsMeaning(fl, others).value)
  {
    ItemInFront(fl, x, after, others);
  }

  lemma {:induction false} ReadItems(fl: FloatReader, s: string) returns (items: seq<Slot>)
    requires ParseItems(fl, s).Good?
    ensures items != [] && items[0].before == "" && forall p :: p in items ==> IsProperSlot(p)
    ensures s == PrintItems(items) + ParseItems(fl, s).rest && ItemsMeaning(fl, items) == Some(ParseItems(fl, s).value)
    decreases |s|, 2
  {
    ItemsCases(fl, s);
    var x := ReadValue(fl, s);
    var rest := ParseValue(fl, s).rest;
    var after := SkippedSpaces(rest);
    var t := SkipSpace(rest);
    Delimited(s, Print(x), rest, after, t[0], t[1..]);
    if t[0] == ']' {
      items := [Slot("", x, after)] + [];
      FirstItem(fl, s, x, after, [], "]", t[1..]);
      assert ItemsMeaning(fl, []) == Some([]) && [Meaning(fl, x).value] + [] == ParseItems(fl, s).value;
    } else {
      var others := ReadMoreItems(fl, t[1..]);
      items := [Slot("", x, after)] + others;
      MoreText(s, Print(x) + after, PrintItems(others), ParseItems(fl, s).rest);
      FirstItem(fl, s, x, after, others, "," + PrintItems(others), ParseItems(fl, s).rest);
    }
  }

  lemma MoreText(s: string, front: string, more: string, rest: string)
    requires s == front + [','] + (more + rest)
    ensures s == front + ("," + more) + rest
  {
  }

  /** Items after a comma or a bracket, with the spaces in front. */
  lemma {:induction false} ReadMoreItems(fl: FloatReader, s: string) returns (items: seq<Slot>)
    requires ParseItems(fl, SkipSpace(s)).Good?
    ensures items != [] && forall p :: p in items ==> IsProperSlot(p)
    ensures s == PrintItems(items) + ParseItems(fl, SkipSpace(s)).rest
    ensures ItemsMeaning(fl, items) == Some(ParseItems(fl, SkipSpace(s)).value)
    decreases |s|, 3
  {
    var before := SkippedSpaces(s);
    var found := ReadItems(fl, SkipSpace(s));
    ItemsBehind(fl, before, found);
    items := Behind(before, found);
    Assoc(before, PrintItems(found), ParseItems(fl, SkipSpace(s)).rest);
  }

  /** A field name, and the value without the spaces after it. */
  lemma {:induction false} ReadMember(fl: FloatReader, s: string) returns (e: Entry)
    requires ParseMember(fl, s).Good?
    ensures IsProperEntry(e) && IsProper(e.slot.value) && e.before == "" && e.slot.after == ""
    ensures s == PrintEntry(e) + ParseMember(fl, s).rest && Meaning(fl, e.slot.value).Some?
    ensures Member(PointsOfUnits(e.key), Meaning(fl, e.slot.value).value) == ParseMember(fl, s).value
    decreases |s|, 2
  {
    var key := ReadUnits(s[1..]);
    var rest := ParseString(s[1..]).rest;
    var after := SkippedSpaces(rest);
    var t := SkipSpace(rest);
    var before := SkippedSpaces(t[1..]);
    var x := ReadValue(fl, SkipSpace(t[1..]));
    e := Entry("", key, after, Slot(before, x, ""));
    EntryPieces(s, e, rest, t, ParseMember(fl, s).rest);
  }

  lemma EntryPieces(s: string, e: Entry, rest: string, t: string, end: string)
    requires s != "" && s[0] == '\"' && s[1..] == Body(e.key, rest) && rest == e.after + t
    requires t != "" && t[0] == ':' && t[1..] == e.slot.before + (Print(e.slot.value) + end)
    requires e.before == "" && e.slot.after == ""
    ensures s == PrintEntry(e) + end
  {
    EntryText(e, end);
    assert PrintSlot(e.slot) + end == t[1..];
    HeadTail(t);
    HeadTail(s);
    assert e.before + ("\"" + Body(e.key, rest)) == s;
  }

  /** One more field in front, with the spaces after its value. */
  lemma FieldInFront(fl: FloatReader, e: Entry, after: string, others: seq<Entry>)
    requires IsProperEntry(e) && IsProper(e.slot.value) && e.before == "" && e.slot.after == "" && IsSpaces(after)
    requires Meaning(fl, e.slot.value).Some?
    requires (forall f :: f in others ==> IsProperEntry(f)) && FieldsMeaning(fl, others).Some?
    ensures var fields := [e.(slot := e.slot.(after := after))] + others;
            && (forall f :: f in fields ==> IsProperEntry(f))
            && FieldsMeaning(fl, fields)
               == Some([Member(PointsOfUnits(e.key), Meaning(fl, e.slot.value).value)]
                       + FieldsMeaning(fl, others).value)
            && PrintFields(fields) == PrintEntry(e) + after + if others == [] then "}" else "," + PrintFields(others)
  {
    var fields := [e.(slot := e.slot.(after := after))] + others;
    assert fields[1..] == others;
    assert PrintSlot(e.slot.(after := after)) == PrintSlot(e.slot) + after;
    assert PrintEntry(fields[0]) == PrintEntry(e) + after;
  }

  lemma MembersCases(fl: FloatReader, s: string)
    requires ParseMembers(fl, s).Good?
    ensures var r := ParseMember(fl, s);
            && r.Good? && SkipSpace(r.rest) != ""
            && var t := SkipSpace(r.rest);
               if t[0] == '}' then ParseMembers(fl, s) == Good([r.value], t[1..])
               else
                 && t[0] == ',' && ParseMembers(fl, SkipSpace(t[1..])).Good?
                 && var more := ParseMembers(fl, SkipSpace(t[1..]));
                    ParseMembers(fl, s) == Good([r.value] + more.value, more.rest)
  {
  }

  lemma FirstField(fl: FloatReader, s: string, e: Entry, after: string, others: seq<Entry>, text: string, rest: string)
    requires IsProperEntry(e) && IsProper(e.slot.value) && e.before == "" && e.slot.after == "" && IsSpaces(after)
    requires Meaning(fl, e.slot.value).Some?
    requires (forall f :: f in others ==> IsProperEntry(f)) && FieldsMeaning(fl, others).Some?
    requires text == if others == [] then "}" else "," + PrintFields(others)
    requires s == PrintEntry(e) + after + text + rest
    ensures var fields := [e.(slot := e.slot.(after := after))] + others;
            && (forall f :: f in fields ==> IsProperEntry(f)) && s == PrintFields(fields) + rest
            && FieldsMeaning(fl, fields)
               == Some([Member(PointsOfUnits(e.key), Meaning(fl, e.slot.value).value)]
                       + FieldsMeaning(fl, others).value)
  {
    FieldInFront(fl, e, after, others);
  }

  lemma {:induction false} ReadMembers(fl: FloatReader, s: string) returns (fields: seq<Entry>)
    requires ParseMembers(fl, s).Good?
    ensures fields != [] && fields[0].before == "" && forall e :: e in fields ==> IsProperEntry(e)
    ensures s == PrintFields(fields) + ParseMembers(fl, s).rest
    ensures FieldsMeaning(fl, fields) == Some(ParseMembers(fl, s).value)
    decreases |s|, 3
  {
    MembersCases(fl, s);
    var e := ReadMember(fl, s);
    var rest := ParseMember(fl, s).rest;
    var after := SkippedSpaces(rest);
    var t := SkipSpace(rest);
    Delimited(s, PrintEntry(e), rest, after, t[0], t[1..]);
    if t[0] == '}' {
      fields := [e.(slot := e.slot.(after := after))] + [];
      FirstField(fl, s, e, after, [], "}", t[1..]);
      assert FieldsMeaning(fl, []) == Some([]);
      assert [ParseMember(fl, s).value] + [] == ParseMembers(fl, s).value;
    } else {
      var others := ReadMoreMembers(fl, t[1..]);
      fields := [e.(slot := e.slot.(after := after))] + others;
      MoreText(s, PrintEntry(e) + after, PrintFields(others), ParseMembers(fl, s).rest);
      FirstField(fl, s, e, after, others, "," + PrintFields(others), ParseMembers(fl, s).rest);
    }
  }

  lemma {:induction false} ReadMoreMembers(fl: FloatReader, s: string) returns (fields: seq<Entry>)
    requires ParseMembers(fl, SkipSpace(s)).Good?
    ensures fields != [] && forall e :: e in fields ==> IsProperEntry(e)
    ensures s == PrintFields(fields) + ParseMembers(fl, SkipSpace(s)).rest
    ensures FieldsMeaning(fl, fields) == Some(ParseMembers(fl, SkipSpace(s)).value)
    decreases |s|, 4
  {
    var before := SkippedSpaces(s);
    var found := ReadMembers(fl, SkipSpace(s));
    FieldsBehind(fl, before, found);
    fields := FieldsBehindSpaces(before, found);
    Assoc(before, PrintFields(found), ParseMembers(fl, SkipSpace(s)).rest);
  }

  lemma {:induction false} ReadArray(fl: FloatReader, s: string) returns (x: Syntax)
    requires s != "" && s[0] == '[' && ParseArray(fl, s[1..]).Good?
    ensures IsProper(x) && s == Print(x) + ParseArray(fl, s[1..]).rest
    ensures Meaning(fl, x) == Some(ParseArray(fl, s[1..]).value)
    decreases |s|, 0
  {
    var t := SkipSpace(s[1..]);
    HeadTail(s);
    if t != "" && t[0] == ']' {
      var before := SkippedSpaces(s[1..]);
      x := ArrayText(before, []);
      HeadTail(t);
      Assoc("[", before + "]", t[1..]);
      Assoc(before, "]", t[1..]);
    } else {
      var items := ReadMoreItems(fl, s[1..]);
      x := ArrayText("", items);
      Assoc("[", PrintItems(items), ParseArray(fl, s[1..]).rest);
    }
  }

  lemma {:induction false} ReadObject(fl: FloatReader, s: string) returns (x: Syntax)
    requires s != "" && s[0] == '{' && ParseObject(fl, s[1..]).Good?
    ensures IsProper(x) && s == Print(x) + ParseObject(fl, s[1..]).rest
    ensures Meaning(fl, x) == Some(ParseObject(fl, s[1..]).value)
    decreases |s|, 0
  {
    var t := SkipSpace(s[1..]);
    HeadTail(s);
    if t != "" && t[0] == '}' {
      var before := SkippedSpaces(s[1..]);
      x := ObjectText(before, []);
      HeadTail(t);
      Assoc("{", before + "}", t[1..]);
      Assoc(before, "}", t[1..]);
    } else {
      var fields := ReadMoreMembers(fl, s[1..]);
      x := ObjectText("", fields);
      Assoc("{", PrintFields(fields), ParseObject(fl, s[1..]).rest);
    }
  }

  /** Whatever is decoded was a proper text with that meaning. */
  lemma {:induction false} ReadValue(fl: FloatReader, s: string) returns (x: Syntax)
    requires ParseValue(fl, s).Good?
    ensures IsProper(x) && s == Print(x) + ParseValue(fl, s).rest && Meaning(fl, x) == Some(ParseValue(fl, s).value)
    decreases |s|, 1
  {
    if s[0] == '\"' {
      x := ReadString(fl, s);
    } else if s[0] == '{' {
      x := ReadObject(fl, s);
    } else if s[0] == '[' {
      x := ReadArray(fl, s);
    } else {
      x := ReadScalar(fl, s);
    }
  }

  // ---------------------------------------------------------------------------------------------
  // Whole documents.
  // ---------------------------------------------------------------------------------------------

  /** A proper text with this meaning, with spaces around it. */
  ghost predicate Denotes(fl: FloatReader, s: string, v: Json) {
    exists before, x, after ::
      && IsSpaces(before) && IsSpaces(after) && IsProper(x) && Meaning(fl, x) == Some(v)
      && s == before + (Print(x) + after)
  }

  /** `json.loads` returns a value exactly when the text denotes it under the grammar. */
  lemma LoadsIsGrammar(fl: FloatReader, s: string, v: Json)
    ensures Loads(fl, s) == Some(v) <==> Denotes(fl, s, v)
  {
    if Loads(fl, s) == Some(v) {
      var before := SkippedSpaces(s);
      var x := ReadValue(fl, SkipSpace(s));
      var rest := ParseValue(fl, SkipSpace(s)).rest;
      var after := SkippedSpaces(rest);
      assert after + "" == after;
    }
    if before, x, after :|
      && IsSpaces(before) && IsSpaces(after) && IsProper(x) && Meaning(fl, x) == Some(v)
      && s == before + (Print(x) + after) {
      DocumentIsRead(fl, before, x, after);
    }
  }

  lemma DocumentIsRead(fl: FloatReader, before: string, x: Syntax, after: string)
    requires IsSpaces(before) && IsSpaces(after) && IsProper(x) && Meaning(fl, x).Some?
    ensures Loads(fl, before + (Print(x) + after)) == Meaning(fl, x)
  {
    var text := Print(x) + after;
    PrintBegins(x);
    SpacesAreSkipped(before, text);
    assert SkipSpace(text) == text;
    if x.NumberText? {
      DelimiterEnds(x.token, after);
    }
    ValueIsRead(fl, x, after);
    SpacesAreSkipped(after, "");
    assert after + "" == after;
  }
}
