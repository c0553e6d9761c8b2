/** Regular expressions as the sources write them, and what they match. */
module Patterns {
  import opened Prelude
  import Distribution

  /** `Class` is a bracket expression with its bounds, `Digit` is `\d`, `Line` is a dot that is not escaped. */
  datatype Pattern =
    | Word(text: string)
    | Class(spec: string, least: nat, most: Option<nat>)
    | Digit(count: nat)
    | Line
    | Then(first: Pattern, second: Pattern)
    | Either(left: Pattern, right: Pattern)

  /** Ranges such as `a-z` and single characters; a final `-` is one of these. */
  predicate InClass(spec: string, c: char) {
    InClassFrom(spec, 0, c)
  }

  predicate InClassFrom(spec: string, i: nat, c: char)
    decreases |spec| - i
  {
    if i >= |spec| then false
    else if i + 2 < |spec| && spec[i + 1] == '-' then spec[i] <= c <= spec[i + 2] || InClassFrom(spec, i + 3, c)
    else spec[i] == c || InClassFrom(spec, i + 1, c)
  }

  predicate AllIn(spec: string, s: string) {
    forall i :: 0 <= i < |s| ==> InClass(spec, s[i])
  }

  /** The whole of `s` matches; `isDigit` says what `\d` matches. */
  predicate Matches(p: Pattern, isDigit: char -> bool, s: string) {
    match p
    case Word(text) => s == text
    case Class(spec, least, most) => least <= |s| && (most.Some? ==> |s| <= most.value) && AllIn(spec, s)
    case Digit(count) => |s| == count && forall i :: 0 <= i < |s| ==> isDigit(s[i])
    case Line => |s| == 1 && !Distribution.IsTerminator(s[0])
    case Then(first, second) =>
      exists k :: 0 <= k <= |s| && Matches(first, isDigit, s[..k]) && Matches(second, isDigit, s[k..])
    case Either(left, right) => Matches(left, isDigit, s) || Matches(right, isDigit, s)
  }

  function One(spec: string): Pattern {
    Class(spec, 1, Some(1))
  }

  function UpTo(spec: string, most: nat): Pattern {
    Class(spec, 0, Some(most))
  }

  /** `^...$`: the pattern may be followed by one line terminator. */
  predicate MatchesLine(p: Pattern, s: string) {
    exists k :: 0 <= k <= |s| && Matches(p, AsciiDigit, s[..k]) && (k == |s| || Distribution.IsLineEnd(s[k..]))
  }

  predicate AsciiDigit(c: char) {
    '0' <= c <= '9'
  }

  /** One character of a class, then some of another. */
  lemma HeadAndTail(first: string, second: string, most: nat, s: string)
    ensures Matches(Then(One(first), UpTo(second, most)), AsciiDigit, s)
            <==> 1 <= |s| <= most + 1 && InClass(first, s[0]) && forall i :: 1 <= i < |s| ==> InClass(second, s[i])
  {
    if Matches(Then(One(first), UpTo(second, most)), AsciiDigit, s) {
      var k :|
        0 <= k <= |s| && Matches(One(first), AsciiDigit, s[..k]) && Matches(UpTo(second, most), AsciiDigit, s[k..]);
      assert s[..k][0] == s[0];
      assert forall i :: 1 <= i < |s| ==> s[i] == s[k..][i - 1];
    }
    if 1 <= |s| <= most + 1 && InClass(first, s[0]) && forall i :: 1 <= i < |s| ==> InClass(second, s[i]) {
      assert Matches(One(first), AsciiDigit, s[..1]) && Matches(UpTo(second, most), AsciiDigit, s[1..]);
    }
  }

  predicate Lower(c: char) {
    'a' <= c <= 'z'
  }

  predicate Letter(c: char) {
    Lower(c) || 'A' <= c <= 'Z'
  }

  lemma LowerClass(rest: string, c: char)
    ensures var spec := "a-z0-9" + rest;
            InClass(spec, c) <==> Lower(c) || AsciiDigit(c) || InClassFrom(spec, 6, c)
  {
    var spec := "a-z0-9" + rest;
    assert InClassFrom(spec, 3, c) <==> AsciiDigit(c) || InClassFrom(spec, 6, c);
  }

  lemma LetterClass(rest: string, c: char)
    ensures var spec := "A-Za-z0-9" + rest;
            InClass(spec, c) <==> Letter(c) || AsciiDigit(c) || InClassFrom(spec, 9, c)
  {
    var spec := "A-Za-z0-9" + rest;
    assert InClassFrom(spec, 6, c) <==> AsciiDigit(c) || InClassFrom(spec, 9, c);
    assert InClassFrom(spec, 3, c) <==> Lower(c) || InClassFrom(spec, 6, c);
  }

  lemma LowerClasses(c: char)
    ensures InClass("a-z", c) <==> Lower(c)
    ensures InClass("a-z0-9", c) <==> Lower(c) || AsciiDigit(c)
    ensures InClass("a-z0-9_", c) <==> Lower(c) || AsciiDigit(c) || c == '_'
    ensures InClass("a-z0-9-", c) <==> Lower(c) || AsciiDigit(c) || c == '-'
    ensures InClass("a-z0-9_-", c) <==> Lower(c) || AsciiDigit(c) || c == '_' || c == '-'
    ensures InClass("a-z0-9._-", c) <==> Lower(c) || AsciiDigit(c) || c == '.' || c == '_' || c == '-'
    ensures InClass("0-9a-f", c) <==> AsciiDigit(c) || 'a' <= c <= 'f'
  {
    LowerClass("", c);
    LowerClass("_", c);
    LowerClass("-", c);
    LowerClass("_-", c);
    LowerClass("._-", c);
    assert "a-z0-9" + "" == "a-z0-9" && "a-z0-9" + "_" == "a-z0-9_" && "a-z0-9" + "-" == "a-z0-9-";
    assert "a-z0-9" + "_-" == "a-z0-9_-" && "a-z0-9" + "._-" == "a-z0-9._-";
    assert InClassFrom("a-z0-9._-", 7, c) <==> c == '_' || c == '-';
    assert InClassFrom("0-9a-f", 3, c) <==> 'a' <= c <= 'f';
  }

  lemma LetterClasses(c: char)
    ensures InClass("A-Za-z0-9", c) <==> Letter(c) || AsciiDigit(c)
    ensures InClass("A-Za-z0-9_.-", c) <==> Letter(c) || AsciiDigit(c) || c == '_' || c == '.' || c == '-'
    ensures InClass("A-Za-z0-9._-", c) <==> Letter(c) || AsciiDigit(c) || c == '.' || c == '_' || c == '-'
  {
    LetterClass("", c);
    LetterClass("_.-", c);
    LetterClass("._-", c);
    assert "A-Za-z0-9" + "" == "A-Za-z0-9" && "A-Za-z0-9" + "_.-" == "A-Za-z0-9_.-";
    assert "A-Za-z0-9" + "._-" == "A-Za-z0-9._-";
    assert InClassFrom("A-Za-z0-9_.-", 10, c) <==> c == '.' || c == '-';
    assert InClassFrom("A-Za-z0-9._-", 10, c) <==> c == '_' || c == '-';
  }

  lemma PathClass(c: char)
    ensures InClass("A-Za-z0-9._/-", c) <==>
              Letter(c) || AsciiDigit(c) || c == '.' || c == '_' || c == '/' || c == '-'
  {
    LetterClass("._/-", c);
    assert "A-Za-z0-9" + "._/-" == "A-Za-z0-9._/-";
    assert InClassFrom("A-Za-z0-9._/-", 11, c) <==> c == '/' || c == '-';
    assert InClassFrom("A-Za-z0-9._/-", 10, c) <==> c == '_' || InClassFrom("A-Za-z0-9._/-", 11, c);
  }

  // ---------------------------------------------------------------------------------------------
  // Sequences.
  // ---------------------------------------------------------------------------------------------

  lemma ThenWord(text: string, p: Pattern, isDigit: char -> bool, s: string)
    ensures Matches(Then(Word(text), p), isDigit, s)
            <==> |text| <= |s| && s[..|text|] == text && Matches(p, isDigit, s[|text|..])
  {
  }

  lemma WordLast(p: Pattern, text: string, isDigit: char -> bool, s: string)
    ensures Matches(Then(p, Word(text)), isDigit, s)
            <==> |text| <= |s| && s[|s| - |text|..] == text && Matches(p, isDigit, s[..|s| - |text|])
  {
    var last := |s| - |text|;
    if Matches(Then(p, Word(text)), isDigit, s) {
      var k :| 0 <= k <= |s| && Matches(p, isDigit, s[..k]) && Matches(Word(text), isDigit, s[k..]);
      assert k == last;
    }
    if last >= 0 && s[last..] == text && Matches(p, isDigit, s[..last]) {
      assert Matches(Word(text), isDigit, s[last..]);
    }
  }

  lemma ThenDigit(count: nat, p: Pattern, isDigit: char -> bool, s: string)
    ensures Matches(Then(Digit(count), p), isDigit, s)
            <==> count <= |s| && Matches(Digit(count), isDigit, s[..count]) && Matches(p, isDigit, s[count..])
  {
  }

  lemma ThenLine(p: Pattern, isDigit: char -> bool, s: string)
    ensures Matches(Then(Line, p), isDigit, s)
            <==> s != "" && !Distribution.IsTerminator(s[0]) && Matches(p, isDigit, s[1..])
  {
    if s != "" {
      assert s[..1][0] == s[0];
    }
  }

  lemma OneThen(spec: string, p: Pattern, isDigit: char -> bool, s: string)
    ensures Matches(Then(One(spec), p), isDigit, s)
            <==> s != "" && InClass(spec, s[0]) && Matches(p, isDigit, s[1..])
  {
    if s != "" {
      assert s[..1][0] == s[0];
      assert Matches(One(spec), isDigit, s[..1]) <==> InClass(spec, s[0]);
    }
    forall k | 0 <= k <= |s| && Matches(One(spec), isDigit, s[..k]) ensures k == 1 {
      assert |s[..k]| == 1;
    }
  }

  lemma EitherThen(a: Pattern, b: Pattern, p: Pattern, isDigit: char -> bool, s: string)
    ensures Matches(Then(Either(a, b), p), isDigit, s)
            <==> Matches(Then(a, p), isDigit, s) || Matches(Then(b, p), isDigit, s)
  {
  }

  /** A text without a terminator at its end, and then one. */
  lemma LineMatches(p: Pattern, s: string)
    requires forall t :: Matches(p, AsciiDigit, t) ==> !Distribution.IsTerminated(t)
    ensures MatchesLine(p, s) <==> Matches(p, AsciiDigit, Distribution.Core(s))
  {
    forall k | 0 <= k < |s| && Matches(p, AsciiDigit, s[..k]) && Distribution.IsLineEnd(s[k..])
      ensures Distribution.Core(s) == s[..k]
    {
      Distribution.CoreOfTerminated(s[..k], s[k..]);
      assert s[..k] + s[k..] == s;
    }
    assert s[..|s|] == s;
    if Matches(p, AsciiDigit, Distribution.Core(s)) {
      var k := |Distribution.Core(s)|;
      assert s[..k] == Distribution.Core(s);
      assert k < |s| ==> Distribution.IsLineEnd(s[k..]);
    }
  }

  /** What ends in a word does not end in a terminator. */
  lemma WordEnds(first: Pattern, p: Pattern, text: string, s: string)
    requires text != "" && !Distribution.IsTerminator(text[|text| - 1])
    requires Matches(Then(first, Then(p, Word(text))), AsciiDigit, s)
    ensures !Distribution.IsTerminated(s)
  {
    var k :| 0 <= k <= |s| && Matches(first, AsciiDigit, s[..k]) && Matches(Then(p, Word(text)), AsciiDigit, s[k..]);
    WordLast(p, text, AsciiDigit, s[k..]);
    var rest := s[k..];
    assert rest[|rest| - |text|..][|text| - 1] == s[|s| - 1];
  }
}
