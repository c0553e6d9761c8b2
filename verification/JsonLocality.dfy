/**
 The decoder is local: what it decodes depends only on the text it consumed. So a value decoded from
 a text is decoded unchanged from any longer text, and from any shorter text that still contains it.
 */
module JsonLocality {
  import opened Prelude
  import opened Text
  import opened Json

  /** The text consumed before `rest`. */
  function Consumed(s: string, rest: string): string
    requires |rest| <= |s|
  {
    s[..|s| - |rest|]
  }

  predicate Splits(s: string, rest: string) {
    |rest| <= |s| && s == Consumed(s, rest) + rest
  }

  predicate NumberChar(c: char) {
    IsDigit(c) || c == '.' || c == 'e' || c == 'E'
  }

  /** A text that cannot continue a number. */
  predicate Delimits(x: string) {
    x == [] || !NumberChar(x[0])
  }

  predicate IsNumber(v: Json) {
    v.Int? || v.Float? || v.Infinite?
  }

  // ---------------------------------------------------------------------------------------------
  // Strings.
  // ---------------------------------------------------------------------------------------------

  /** Looking at the first four characters from position `k` on. */
  lemma Hex4At(s: string, w: string, k: nat)
    requires k + 4 <= |s| && k + 4 <= |w| && s[k..k + 4] == w[k..k + 4]
    ensures Hex4(s[k..]) == Hex4(w[k..])
  {
    assert s[k] == s[k..k + 4][0] && s[k + 1] == s[k..k + 4][1];
    assert s[k + 2] == s[k..k + 4][2] && s[k + 3] == s[k..k + 4][3];
  }

  lemma LowEscapeAt(s: string, w: string, k: nat)
    requires k + 6 <= |s| && k + 6 <= |w| && s[k..k + 6] == w[k..k + 6]
    ensures LowEscape(s[k..]) == LowEscape(w[k..])
  {
    assert s[k..k + 6][2..] == s[k + 2..k + 6] && w[k..k + 6][2..] == w[k + 2..k + 6];
    Hex4At(s, w, k + 2);
    assert s[k..][2..] == s[k + 2..] && w[k..][2..] == w[k + 2..];
    assert s[k] == s[k..k + 6][0] && s[k + 1] == s[k..k + 6][1];
  }

  lemma UnitSplits(s: string)
    requires s != [] && ParseUnit(s).Good?
    ensures Splits(s, ParseUnit(s).rest)
  {
  }

  /** A lone high surrogate must not be followed by the escape of a low one. */
  lemma UnitLocal(s: string, x: string)
    requires s != [] && ParseUnit(s).Good?
    requires LowEscape(x).Some? ==> LowEscape(ParseUnit(s).rest).Some?
    ensures var r := ParseUnit(s);
            var w := Consumed(s, r.rest);
            w != [] && w[0] == s[0] && ParseUnit(w + x) == Good(r.value, x)
  {
    var r := ParseUnit(s);
    var w := Consumed(s, r.rest);
    assert (w + x)[|w|..] == x;
    if s[0] == '\\' && s[1] == 'u' {
      assert s[2..6] == (w + x)[2..6];
      Hex4At(s, w + x, 2);
      if |w| == 12 {
        assert s[6..12] == (w + x)[6..12];
        LowEscapeAt(s, w + x, 6);
      }
    }
  }

  lemma LowEscapeIsUnit(s: string)
    requires LowEscape(s).Some?
    ensures ParseUnit(s) == Good(LowEscape(s).value, s[6..])
  {
    assert s[2..][4..] == s[6..];
  }

  /** A body that decodes up to `x` has any escape it starts with before `x`. */
  lemma NoNewLowEscape(s: string, w: string, x: string)
    requires w <= s && ParseString(w + x).Good? && ParseString(w + x).rest == x
    ensures LowEscape(w + x).Some? ==> LowEscape(s).Some?
  {
    if LowEscape(w + x).Some? {
      LowEscapeIsUnit(w + x);
      assert |x| < |(w + x)[6..]|;
      assert s[0..6] == (w + x)[0..6];
      LowEscapeAt(s, w + x, 0);
      assert s[0..] == s && (w + x)[0..] == w + x;
    }
  }

  lemma StringStep(s: string, y: string)
    requires s != [] && s[0] != '\"' && ParseUnit(s).Good? && ParseString(y).Good?
    requires LowEscape(y).Some? ==> LowEscape(ParseUnit(s).rest).Some?
    ensures var u := ParseUnit(s);
            ParseString(Consumed(s, u.rest) + y) == Good([u.value] + ParseString(y).value, ParseString(y).rest)
  {
    UnitLocal(s, y);
  }

  lemma ConsumedTwice(s: string, mid: string, rest: string, x: string)
    requires Splits(s, mid) && Splits(mid, rest)
    ensures Splits(s, rest)
    ensures Consumed(s, rest) + x == Consumed(s, mid) + (Consumed(mid, rest) + x)
  {
    assert s == Consumed(s, mid) + mid && mid == Consumed(mid, rest) + rest;
    Assoc(Consumed(s, mid), Consumed(mid, rest), rest);
    Assoc(Consumed(s, mid), Consumed(mid, rest), x);
  }

  lemma {:induction false} StringLocal(s: string, x: string)
    requires ParseString(s).Good?
    ensures var r := ParseString(s);
            Splits(s, r.rest) && ParseString(Consumed(s, r.rest) + x) == Good(r.value, x)
    decreases |s|
  {
    var rest := ParseString(s).rest;
    if s[0] == '\"' {
      assert (Consumed(s, rest) + x)[1..] == x;
    } else {
      var mid := ParseUnit(s).rest;
      UnitSplits(s);
      StringLocal(mid, x);
      NoNewLowEscape(mid, Consumed(mid, rest), x);
      StringStep(s, Consumed(mid, rest) + x);
      ConsumedTwice(s, mid, rest, x);
    }
  }

  // ---------------------------------------------------------------------------------------------
  // Numbers.
  // ---------------------------------------------------------------------------------------------

  lemma {:induction false} NumberLengthLocal(q: NumberState, s: string, x: string)
    requires NumberLength(q, s).Some? && Delimits(x)
    ensures NumberLength(q, s[..NumberLength(q, s).value] + x) == NumberLength(q, s)
    decreases |s|
  {
    var n := NumberLength(q, s).value;
    if n == 0 {
      assert s[..n] + x == x;
    } else {
      assert (s[..n] + x)[1..] == s[1..][..n - 1] + x;
      NumberLengthLocal(NextState(q, s[0]).value, s[1..], x);
    }
  }

  lemma NumberLocal(fl: FloatReader, s: string, x: string)
    requires ParseNumber(fl, s).Good? && Delimits(x)
    ensures var r := ParseNumber(fl, s);
            Splits(s, r.rest) && ParseNumber(fl, Consumed(s, r.rest) + x) == Good(r.value, x)
  {
    NumberLengthLocal(Start, s, x);
    var n := NumberLength(Start, s).value;
    assert (s[..n] + x)[..n] == s[..n] && (s[..n] + x)[n..] == x;
  }

  // ---------------------------------------------------------------------------------------------
  // Values.
  // ---------------------------------------------------------------------------------------------

  lemma {:induction false} SkipSpaceSplits(s: string)
    ensures Splits(s, SkipSpace(s))
  {
    if s != [] && IsJsonSpace(s[0]) {
      SkipSpaceSplits(s[1..]);
    }
  }

  lemma {:induction false} SkipSpaceLocal(s: string, y: string)
    requires y == [] || !IsJsonSpace(y[0])
    ensures SkipSpace(Consumed(s, SkipSpace(s)) + y) == y
  {
    var w := Consumed(s, SkipSpace(s));
    if s != [] && IsJsonSpace(s[0]) {
      assert (w + y)[1..] == Consumed(s[1..], SkipSpace(s)) + y;
      SkipSpaceLocal(s[1..], y);
    } else {
      assert w + y == y;
    }
  }

  /** Space before a token that is consumed up to `rest`. */
  lemma SkipThenLocal(s: string, rest: string, x: string)
    requires SkipSpace(s) != [] && Splits(SkipSpace(s), rest) && |rest| < |SkipSpace(s)|
    ensures Splits(s, rest)
    ensures SkipSpace(Consumed(s, rest) + x) == Consumed(SkipSpace(s), rest) + x
    ensures Consumed(s, rest) + x != [] && (Consumed(s, rest) + x)[0] == s[0]
  {
    var t := SkipSpace(s);
    SkipSpaceSplits(s);
    ConsumedTwice(s, t, rest, x);
    var y := Consumed(t, rest) + x;
    assert y[0] == t[0];
    SkipSpaceLocal(s, y);
  }

  /** One delimiter character before the rest. */
  lemma TailLocal(t: string, rest: string, x: string)
    requires t != [] && Splits(t[1..], rest)
    ensures Splits(t, rest) && Consumed(t, rest) + x == [t[0]] + (Consumed(t[1..], rest) + x)
    ensures (Consumed(t, rest) + x)[1..] == Consumed(t[1..], rest) + x
  {
  }

  lemma WordLocal(s: string, word: string, x: string)
    requires StartsWith(s, word)
    ensures Splits(s, s[|word|..])
    ensures StartsWith(Consumed(s, s[|word|..]) + x, word)
    ensures (Consumed(s, s[|word|..]) + x)[|word|..] == x
  {
  }

  lemma ScalarLocal(fl: FloatReader, s: string, x: string)
    requires ParseScalar(fl, s).Good?
    requires IsNumber(ParseScalar(fl, s).value) ==> Delimits(x)
    ensures var r := ParseScalar(fl, s);
            Splits(s, r.rest) && ParseScalar(fl, Consumed(s, r.rest) + x) == Good(r.value, x)
  {
    if StartsWith(s, "null") {
      WordLocal(s, "null", x);
    } else if StartsWith(s, "true") {
      WordLocal(s, "true", x);
    } else if StartsWith(s, "false") {
      WordLocal(s, "false", x);
    } else {
      NumberLocal(fl, s, x);
      var y := Consumed(s, ParseScalar(fl, s).rest) + x;
      NumberStarts(y);
      NumberIsNoWord(fl, y);
    }
  }

  lemma WordStarts(s: string, word: string)
    requires word != []
    ensures StartsWith(s, word) ==> s != [] && s[0] == word[0]
  {
    if StartsWith(s, word) {
      assert s[0] == s[0..|word|][0];
    }
  }

  lemma NumberStarts(s: string)
    requires NumberLength(Start, s).Some?
    ensures s != [] && (s[0] == '-' || IsDigit(s[0]))
  {
  }

  lemma NumberIsNoWord(fl: FloatReader, s: string)
    requires s != [] && (s[0] == '-' || IsDigit(s[0]))
    ensures ParseScalar(fl, s) == ParseNumber(fl, s)
  {
    WordStarts(s, "null");
    WordStarts(s, "true");
    WordStarts(s, "false");
  }

  lemma {:induction false} ValueLocal(fl: FloatReader, s: string, x: string)
    requires ParseValue(fl, s).Good?
    requires IsNumber(ParseValue(fl, s).value) ==> Delimits(x)
    ensures var r := ParseValue(fl, s);
            Splits(s, r.rest) && ParseValue(fl, Consumed(s, r.rest) + x) == Good(r.value, x)
    decreases |s|, 0
  {
    var rest := ParseValue(fl, s).rest;
    if s[0] == '\"' {
      StringLocal(s[1..], x);
      TailLocal(s, rest, x);
    } else if s[0] == '{' {
      ObjectLocal(fl, s[1..], x);
      TailLocal(s, rest, x);
    } else if s[0] == '[' {
      ArrayLocal(fl, s[1..], x);
      TailLocal(s, rest, x);
    } else {
      ScalarLocal(fl, s, x);
      assert (Consumed(s, rest) + x)[0] == s[0];
    }
  }

  lemma {:induction false} ObjectLocal(fl: FloatReader, s: string, x: string)
    requires ParseObject(fl, s).Good?
    ensures var r := ParseObject(fl, s);
            Splits(s, r.rest) && ParseObject(fl, Consumed(s, r.rest) + x) == Good(r.value, x)
    decreases |s|, 4
  {
    var t := SkipSpace(s);
    var rest := ParseObject(fl, s).rest;
    if t[0] == '}' {
      TailLocal(t, rest, x);
    } else {
      MembersLocal(fl, t, x);
    }
    SkipThenLocal(s, rest, x);
  }

  lemma {:induction false} ArrayLocal(fl: FloatReader, s: string, x: string)
    requires ParseArray(fl, s).Good?
    ensures var r := ParseArray(fl, s);
            Splits(s, r.rest) && ParseArray(fl, Consumed(s, r.rest) + x) == Good(r.value, x)
    decreases |s|, 4
  {
    var t := SkipSpace(s);
    var rest := ParseArray(fl, s).rest;
    if t[0] == ']' {
      TailLocal(t, rest, x);
    } else {
      ItemsLocal(fl, t, x);
    }
    SkipThenLocal(s, rest, x);
  }

  lemma {:induction false} ItemsLocal(fl: FloatReader, s: string, x: string)
    requires ParseItems(fl, s).Good?
    ensures var r := ParseItems(fl, s);
            Splits(s, r.rest) && ParseItems(fl, Consumed(s, r.rest) + x) == Good(r.value, x)
    ensures s != [] && (Consumed(s, ParseItems(fl, s).rest) + x)[0] == s[0]
    decreases |s|, 1
  {
    var rest := ParseItems(fl, s).rest;
    var mid := ParseValue(fl, s).rest;
    var t := SkipSpace(mid);
    if t[0] == ',' {
      var u := SkipSpace(t[1..]);
      ItemsLocal(fl, u, x);
      SkipThenLocal(t[1..], rest, x);
    }
    TailLocal(t, rest, x);
    SkipThenLocal(mid, rest, x);
    ValueLocal(fl, s, Consumed(mid, rest) + x);
    ConsumedTwice(s, mid, rest, x);
  }

  lemma {:induction false} MemberLocal(fl: FloatReader, s: string, x: string)
    requires ParseMember(fl, s).Good?
    requires IsNumber(ParseMember(fl, s).value.value) ==> Delimits(x)
    ensures var r := ParseMember(fl, s);
            Splits(s, r.rest) && ParseMember(fl, Consumed(s, r.rest) + x) == Good(r.value, x)
    ensures s != [] && (Consumed(s, ParseMember(fl, s).rest) + x)[0] == s[0]
    decreases |s|, 1
  {
    var rest := ParseMember(fl, s).rest;
    var mid := ParseString(s[1..]).rest;
    var t := SkipSpace(mid);
    var u := SkipSpace(t[1..]);
    ValueLocal(fl, u, x);
    SkipThenLocal(t[1..], rest, x);
    TailLocal(t, rest, x);
    SkipThenLocal(mid, rest, x);
    StringLocal(s[1..], Consumed(mid, rest) + x);
    ConsumedTwice(s[1..], mid, rest, x);
    TailLocal(s, rest, x);
  }

  /** One unfolding of `ParseMembers`, for a last field and for one that is followed by more. */
  lemma MembersFrom(fl: FloatReader, s: string, t: string)
    requires ParseMember(fl, s).Good? && SkipSpace(ParseMember(fl, s).rest) == t && t != []
    ensures t[0] == '}' ==> ParseMembers(fl, s) == Good([ParseMember(fl, s).value], t[1..])
    ensures t[0] == ',' && ParseMembers(fl, SkipSpace(t[1..])).Good? ==>
              var r := ParseMembers(fl, SkipSpace(t[1..]));
              ParseMembers(fl, s) == Good([ParseMember(fl, s).value] + r.value, r.rest)
  {
  }

  /** A member and the separator after it, in a text that is consumed up to `rest`. */
  lemma {:induction false} MemberThen(fl: FloatReader, s: string, t: string, rest: string, x: string)
    requires ParseMember(fl, s).Good? && SkipSpace(ParseMember(fl, s).rest) == t
    requires t != [] && (t[0] == ',' || t[0] == '}') && Splits(t, rest) && |rest| < |t|
    ensures Splits(s, rest)
    ensures var r := ParseMember(fl, Consumed(s, rest) + x);
            r.Good? && r.value == ParseMember(fl, s).value && SkipSpace(r.rest) == Consumed(t, rest) + x
    decreases |s|, 2
  {
    var mid := ParseMember(fl, s).rest;
    SkipThenLocal(mid, rest, x);
    MemberLocal(fl, s, Consumed(mid, rest) + x);
    ConsumedTwice(s, mid, rest, x);
  }

  lemma {:induction false} MembersLocal(fl: FloatReader, s: string, x: string)
    requires ParseMembers(fl, s).Good?
    ensures var r := ParseMembers(fl, s);
            Splits(s, r.rest) && ParseMembers(fl, Consumed(s, r.rest) + x) == Good(r.value, x)
    decreases |s|, 3
  {
    var rest := ParseMembers(fl, s).rest;
    var t := SkipSpace(ParseMember(fl, s).rest);
    if t[0] == ',' {
      MembersLocal(fl, SkipSpace(t[1..]), x);
      SkipThenLocal(t[1..], rest, x);
    }
    TailLocal(t, rest, x);
    MemberThen(fl, s, t, rest, x);
    MembersFrom(fl, Consumed(s, rest) + x, Consumed(t, rest) + x);
  }
}
