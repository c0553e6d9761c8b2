/** The numbers that the decoder reads are those of RFC 8259, section 6, and it reads the longest one. */
module JsonNumbers {
  import opened Prelude
  import opened Text
  import opened Json
  import opened Patterns

  const DIGITS := Class("0-9", 1, None)
  const POWER := Then(One("eE"), Then(Either(Word(""), One("-+")), DIGITS))
  const FRACTION := Then(Word("."), DIGITS)
  const INTEGER := Either(Word("0"), Then(One("1-9"), Class("0-9", 0, None)))

  /** `-?(0|[1-9][0-9]*)(\.[0-9]+)?([eE][-+]?[0-9]+)?` */
  const NUMBER :=
    Then(Either(Word(""), Word("-")),
         Then(INTEGER, Then(Either(Word(""), FRACTION), Either(Word(""), POWER))))

  // ---------------------------------------------------------------------------------------------
  // The machine, on whole texts.
  // ---------------------------------------------------------------------------------------------

  predicate Accepts(q: NumberState, s: string)
    decreases |s|
  {
    if s == "" then Complete(q)
    else
      match NextState(q, s[0])
      case None => false
      case Some(next) => Accepts(next, s[1..])
  }

  /** The machine stops at the longest number. */
  lemma {:induction false} LongestIsRead(q: NumberState, s: string)
    ensures match NumberLength(q, s)
            case None => forall m :: 0 <= m <= |s| ==> !Accepts(q, s[..m])
            case Some(n) => Accepts(q, s[..n]) && forall m :: n < m <= |s| ==> !Accepts(q, s[..m])
    decreases |s|
  {
    if s != "" && NextState(q, s[0]).Some? {
      var next := NextState(q, s[0]).value;
      LongestIsRead(next, s[1..]);
      forall m | 0 < m <= |s| ensures Accepts(q, s[..m]) <==> Accepts(next, s[1..][..m - 1]) {
        assert s[..m][1..] == s[1..][..m - 1];
      }
    } else {
      forall m | 0 < m <= |s| ensures !Accepts(q, s[..m]) {
      }
    }
  }

  // ---------------------------------------------------------------------------------------------
  // The machine against the expression.
  // ---------------------------------------------------------------------------------------------

  predicate M(p: Pattern, s: string) {
    Matches(p, AsciiDigit, s)
  }

  const STAR := Class("0-9", 0, None)
  const OPTIONAL_POWER := Either(Word(""), POWER)
  const TAIL := Then(Either(Word(""), FRACTION), OPTIONAL_POWER)

  lemma NumberClasses(c: char)
    ensures InClass("0-9", c) <==> IsDigit(c)
    ensures InClass("1-9", c) <==> IsDigit(c) && c != '0'
    ensures InClass("eE", c) <==> c == 'e' || c == 'E'
    ensures InClass("-+", c) <==> c == '-' || c == '+'
  {
  }

  lemma StarMatches(s: string)
    ensures M(STAR, s) <==> AllDigits(s)
    ensures M(DIGITS, s) <==> s != "" && AllDigits(s)
  {
    forall i | 0 <= i < |s| ensures InClass("0-9", s[i]) <==> IsDigit(s[i]) {
      NumberClasses(s[i]);
    }
  }

  lemma ThenSplits(a: Pattern, b: Pattern, s: string) returns (k: nat)
    requires M(Then(a, b), s)
    ensures k <= |s| && M(a, s[..k]) && M(b, s[k..])
  {
    k :| k <= |s| && Matches(a, AsciiDigit, s[..k]) && Matches(b, AsciiDigit, s[k..]);
  }

  lemma ThenJoins(a: Pattern, b: Pattern, s: string, k: nat)
    requires k <= |s| && M(a, s[..k]) && M(b, s[k..])
    ensures M(Then(a, b), s)
  {
    assert Matches(a, AsciiDigit, s[..k]) && Matches(b, AsciiDigit, s[k..]);
  }

  /** Digits in front of a pattern, one by one. */
  lemma StarThen(p: Pattern, s: string)
    ensures M(Then(STAR, p), s) <==> M(p, s) || (s != "" && IsDigit(s[0]) && M(Then(STAR, p), s[1..]))
  {
    if M(Then(STAR, p), s) {
      var k := ThenSplits(STAR, p, s);
      StarMatches(s[..k]);
      if k > 0 {
        assert s[..k][0] == s[0];
        DigitsAfterFirst(p, s, k);
      } else {
        assert s[0..] == s;
      }
    }
    if M(p, s) {
      StarMatches(s[..0]);
      assert s[0..] == s;
      ThenJoins(STAR, p, s, 0);
    }
    if s != "" && IsDigit(s[0]) && M(Then(STAR, p), s[1..]) {
      var k := ThenSplits(STAR, p, s[1..]);
      FirstBeforeDigits(p, s, k);
      ThenJoins(STAR, p, s, k + 1);
    }
  }

  lemma DigitsAfterFirst(p: Pattern, s: string, k: nat)
    requires 0 < k <= |s| && AllDigits(s[..k]) && M(p, s[k..])
    ensures M(Then(STAR, p), s[1..])
  {
    assert s[1..][..k - 1] == s[..k][1..] && s[1..][k - 1..] == s[k..];
    StarMatches(s[1..][..k - 1]);
    ThenJoins(STAR, p, s[1..], k - 1);
  }

  lemma FirstBeforeDigits(p: Pattern, s: string, k: nat)
    requires s != "" && IsDigit(s[0]) && k < |s| && M(STAR, s[1..][..k]) && M(p, s[1..][k..])
    ensures M(STAR, s[..k + 1]) && M(DIGITS, s[..k + 1]) && M(p, s[k + 1..])
  {
    StarMatches(s[1..][..k]);
    assert s[..k + 1] == [s[0]] + s[1..][..k] && s[1..][k..] == s[k + 1..];
    StarMatches(s[..k + 1]);
  }

  lemma DigitsThen(p: Pattern, s: string)
    ensures M(Then(DIGITS, p), s) <==> s != "" && IsDigit(s[0]) && M(Then(STAR, p), s[1..])
  {
    if M(Then(DIGITS, p), s) {
      var k := ThenSplits(DIGITS, p, s);
      StarMatches(s[..k]);
      assert s[..k][0] == s[0];
      DigitsAfterFirst(p, s, k);
    }
    if s != "" && IsDigit(s[0]) && M(Then(STAR, p), s[1..]) {
      var k := ThenSplits(STAR, p, s[1..]);
      FirstBeforeDigits(p, s, k);
      ThenJoins(DIGITS, p, s, k + 1);
    }
  }

  lemma {:induction false} ExponentAccepts(s: string)
    ensures Accepts(Exponent, s) <==> AllDigits(s)
  {
    if s != "" {
      ExponentAccepts(s[1..]);
      HeadTail(s);
    }
  }

  lemma PowerAccepts(s: string)
    ensures Accepts(PowerSign, s) <==> M(DIGITS, s)
    ensures Accepts(Power, s) <==> M(Then(Either(Word(""), One("-+")), DIGITS), s)
  {
    StarMatches(s);
    EitherThen(Word(""), One("-+"), DIGITS, AsciiDigit, s);
    ThenWord("", DIGITS, AsciiDigit, s);
    OneThen("-+", DIGITS, AsciiDigit, s);
    if s != "" {
      NumberClasses(s[0]);
      StarMatches(s[1..]);
      ExponentAccepts(s[1..]);
      HeadTail(s);
      PowerSignAccepts(s[1..]);
    }
  }

  lemma PowerSignAccepts(s: string)
    ensures Accepts(PowerSign, s) <==> M(DIGITS, s)
  {
    StarMatches(s);
    if s != "" {
      ExponentAccepts(s[1..]);
      HeadTail(s);
    }
  }

  lemma NothingOr(p: Pattern, s: string)
    ensures M(Either(Word(""), p), s) <==> s == "" || M(p, s)
  {
    assert Matches(Word(""), AsciiDigit, s) <==> s == "";
    assert Matches(Either(Word(""), p), AsciiDigit, s)
      <==> Matches(Word(""), AsciiDigit, s) || Matches(p, AsciiDigit, s);
  }

  /** Nothing, or `e` and a power. */
  lemma OptionalPower(s: string)
    ensures M(OPTIONAL_POWER, s) <==> s == "" || ((s[0] == 'e' || s[0] == 'E') && Accepts(Power, s[1..]))
  {
    OneThen("eE", Then(Either(Word(""), One("-+")), DIGITS), AsciiDigit, s);
    NothingOr(POWER, s);
    if s != "" {
      NumberClasses(s[0]);
      PowerAccepts(s[1..]);
    }
  }

  lemma {:induction false} FractionAccepts(s: string)
    ensures Accepts(Fraction, s) <==> M(Then(STAR, OPTIONAL_POWER), s)
  {
    StarThen(OPTIONAL_POWER, s);
    OptionalPower(s);
    if s != "" {
      FractionAccepts(s[1..]);
    }
  }

  lemma PointAccepts(s: string)
    ensures Accepts(Point, s) <==> M(Then(DIGITS, OPTIONAL_POWER), s)
  {
    DigitsThen(OPTIONAL_POWER, s);
    if s != "" {
      FractionAccepts(s[1..]);
    }
  }

  /** What may follow the digits of an integer: a fraction, a power, both or none. */
  lemma TailAccepts(s: string)
    ensures M(TAIL, s) <==>
              s == "" || (TailStart(s[0]).Some? && Accepts(TailStart(s[0]).value, s[1..]))
  {
    EitherThen(Word(""), FRACTION, OPTIONAL_POWER, AsciiDigit, s);
    ThenWord("", OPTIONAL_POWER, AsciiDigit, s);
    assert s[0..] == s;
    OptionalPower(s);
    FractionThen(s);
    if s != "" {
      PointAccepts(s[1..]);
    }
  }

  lemma FractionThen(s: string)
    ensures M(Then(FRACTION, OPTIONAL_POWER), s)
            <==> s != "" && s[0] == '.' && M(Then(DIGITS, OPTIONAL_POWER), s[1..])
  {
    ThenAssociates(Word("."), DIGITS, OPTIONAL_POWER, s);
    ThenWord(".", Then(DIGITS, OPTIONAL_POWER), AsciiDigit, s);
    assert s != "" ==> s[..1] == [s[0]];
  }

  lemma ThenAssociates(a: Pattern, b: Pattern, c: Pattern, s: string)
    ensures M(Then(Then(a, b), c), s) <==> M(Then(a, Then(b, c)), s)
  {
    if M(Then(Then(a, b), c), s) {
      var k := ThenSplits(Then(a, b), c, s);
      var j := ThenSplits(a, b, s[..k]);
      assert s[..k][..j] == s[..j] && s[..k][j..] == s[j..][..k - j] && s[j..][k - j..] == s[k..];
      ThenJoins(b, c, s[j..], k - j);
      ThenJoins(a, Then(b, c), s, j);
    }
    if M(Then(a, Then(b, c)), s) {
      var j := ThenSplits(a, Then(b, c), s);
      var i := ThenSplits(b, c, s[j..]);
      assert s[..j + i][..j] == s[..j] && s[..j + i][j..] == s[j..][..i] && s[j..][i..] == s[j + i..];
      ThenJoins(a, b, s[..j + i], j);
      ThenJoins(Then(a, b), c, s, j + i);
    }
  }

  lemma {:induction false} WholeAccepts(s: string)
    ensures Accepts(Whole, s) <==> M(Then(STAR, TAIL), s)
  {
    StarThen(TAIL, s);
    TailAccepts(s);
    if s != "" {
      WholeAccepts(s[1..]);
    }
  }

  lemma IntegerAccepts(s: string)
    ensures M(Then(INTEGER, TAIL), s) <==>
              s != "" && IntegerStart(s[0]).Some? && Accepts(IntegerStart(s[0]).value, s[1..])
  {
    EitherThen(Word("0"), Then(One("1-9"), STAR), TAIL, AsciiDigit, s);
    ThenWord("0", TAIL, AsciiDigit, s);
    ThenAssociates(One("1-9"), STAR, TAIL, s);
    OneThen("1-9", Then(STAR, TAIL), AsciiDigit, s);
    if s != "" {
      NumberClasses(s[0]);
      WholeAccepts(s[1..]);
      TailAccepts(s[1..]);
      assert s[..1] == [s[0]];
    }
  }

  /** The machine accepts exactly the numbers. */
  lemma NumbersAreAccepted(s: string)
    ensures Accepts(Start, s) <==> M(NUMBER, s)
  {
    SignThen(Then(INTEGER, TAIL), s);
    IntegerAccepts(s);
    if s != "" {
      IntegerAccepts(s[1..]);
    }
  }

  lemma SignThen(p: Pattern, s: string)
    ensures M(Then(Either(Word(""), Word("-")), p), s)
            <==> M(p, s) || (s != "" && s[0] == '-' && M(p, s[1..]))
  {
    EitherThen(Word(""), Word("-"), p, AsciiDigit, s);
    ThenWord("", p, AsciiDigit, s);
    ThenWord("-", p, AsciiDigit, s);
    assert s[0..] == s;
    assert s != "" ==> s[..1] == [s[0]];
  }

  /** The decoder reads the longest number at the start of a text, if there is one. */
  lemma LongestNumberIsRead(s: string)
    ensures match NumberLength(Start, s)
            case None => forall m :: 0 <= m <= |s| ==> !M(NUMBER, s[..m])
            case Some(n) => M(NUMBER, s[..n]) && forall m :: n < m <= |s| ==> !M(NUMBER, s[..m])
  {
    LongestIsRead(Start, s);
    forall m | 0 <= m <= |s| ensures Accepts(Start, s[..m]) <==> M(NUMBER, s[..m]) {
      NumbersAreAccepted(s[..m]);
    }
  }

  // ---------------------------------------------------------------------------------------------
  // Integers and floats.
  // ---------------------------------------------------------------------------------------------

  predicate HasFloatMark(s: string) {
    exists i :: 0 <= i < |s| && (s[i] == '.' || s[i] == 'e' || s[i] == 'E')
  }

  lemma {:induction false} UnmarkedDigits(q: NumberState, s: string)
    requires Accepts(q, s) && (q == Zero || q == Whole) && !HasFloatMark(s)
    ensures AllDigits(s)
    decreases |s|
  {
    if s != "" {
      assert s[0] != '.' && s[0] != 'e' && s[0] != 'E';
      assert forall i :: 0 <= i < |s[1..]| ==> s[1..][i] == s[i + 1];
      UnmarkedDigits(Whole, s[1..]);
    }
  }

  /** Without the sign. */
  function DigitsOf(token: string): string {
    if token != "" && token[0] == '-' then token[1..] else token
  }

  lemma IntegerDigits(token: string)
    requires M(NUMBER, token) && !HasFloatMark(token)
    ensures AllDigits(DigitsOf(token))
  {
    NumbersAreAccepted(token);
    var digits := DigitsOf(token);
    assert forall i :: 0 <= i < |digits| ==> digits[i] == token[i + |token| - |digits|];
    assert forall i :: 0 <= i < |digits| - 1 ==> digits[1..][i] == digits[i + 1];
    UnmarkedDigits(IntegerStart(digits[0]).value, digits[1..]);
    HeadTail(digits);
  }

  lemma FloatDigits(token: string)
    requires HasFloatMark(token)
    ensures !AllDigits(DigitsOf(token))
  {
    var i :| 0 <= i < |token| && (token[i] == '.' || token[i] == 'e' || token[i] == 'E');
    assert DigitsOf(token)[i - (|token| - |DigitsOf(token)|)] == token[i];
  }

  /** A number without fraction and power is an integer of at most 4300 digits; any other is a float. */
  lemma TokenMeans(fl: FloatReader, token: string)
    requires M(NUMBER, token)
    ensures HasFloatMark(token) ==>
              TokenValue(fl, token) == Some(match fl(token) case Some(repr) => Float(repr) case None => Infinite)
    ensures !HasFloatMark(token) ==>
              && AllDigits(DigitsOf(token))
              && TokenValue(fl, token)
                 == if |DigitsOf(token)| > 4300 then None
                    else Some(Int((if token[0] == '-' then -1 else 1) * NumeralValue(DigitsOf(token))))
  {
    NumbersAreAccepted(token);
    if HasFloatMark(token) {
      FloatDigits(token);
    } else {
      IntegerDigits(token);
    }
  }
}
