/** Strings as Python handles them: whitespace, stripping, first occurrences, decimal numerals, UTF-8. */
module Text {
  import opened Prelude

  // ---------------------------------------------------------------------------------------------
  // Slices of concatenations.
  // ---------------------------------------------------------------------------------------------

  lemma Assoc<T>(a: seq<T>, b: seq<T>, x: seq<T>)
    ensures (a + b) + x == a + (b + x)
  {
  }

  lemma Assoc3<T>(a: seq<T>, b: seq<T>, c: seq<T>, x: seq<T>)
    ensures (a + b + c) + x == a + (b + (c + x))
  {
  }

  lemma HeadTail<T>(s: seq<T>)
    requires s != []
    ensures [s[0]] + s[1..] == s
  {
  }

  lemma ConsTail<T>(c: T, s: seq<T>)
    ensures ([c] + s)[1..] == s && ([c] + s)[0] == c
  {
  }

  // ---------------------------------------------------------------------------------------------
  // Stripping.
  // ---------------------------------------------------------------------------------------------

  /** The characters for which `str.isspace` holds. */
  predicate IsSpace(c: char) {
    var p := c as int;
    || 0x09 <= p <= 0x0D || 0x1C <= p <= 0x20 || p == 0x85 || p == 0xA0 || p == 0x1680
    || 0x2000 <= p <= 0x200A || p == 0x2028 || p == 0x2029 || p == 0x202F || p == 0x205F || p == 0x3000
  }

  predicate AllSpace(s: string) {
    forall i :: 0 <= i < |s| ==> IsSpace(s[i])
  }

  function LStrip(s: string): string {
    if s != [] && IsSpace(s[0]) then LStrip(s[1..]) else s
  }

  function RStrip(s: string): string {
    if s != [] && IsSpace(s[|s| - 1]) then RStrip(s[..|s| - 1]) else s
  }

  function Strip(s: string): string {
    RStrip(LStrip(s))
  }

  lemma {:induction false} LStripAppend(s: string, t: string)
    requires LStrip(s) != []
    ensures LStrip(s + t) == LStrip(s) + t
  {
    if IsSpace(s[0]) {
      assert (s + t)[1..] == s[1..] + t;
      LStripAppend(s[1..], t);
    }
  }

  lemma {:induction false} LStripSpaces(s: string, t: string)
    requires LStrip(s) == []
    ensures LStrip(s + t) == LStrip(t)
  {
    if s == [] {
      assert s + t == t;
    } else {
      assert (s + t)[1..] == s[1..] + t;
      LStripSpaces(s[1..], t);
    }
  }

  lemma {:induction false} RStripSpaces(s: string, t: string)
    requires AllSpace(t)
    ensures RStrip(s + t) == RStrip(s)
  {
    if t == [] {
      assert s + t == s;
    } else {
      assert (s + t)[..|s + t| - 1] == s + t[..|t| - 1];
      RStripSpaces(s, t[..|t| - 1]);
    }
  }

  /** Only trailing whitespace is removed, and none is left. */
  lemma {:induction false} RStripSplits(s: string)
    ensures |RStrip(s)| <= |s| && RStrip(s) == s[..|RStrip(s)|] && AllSpace(s[|RStrip(s)|..])
    ensures RStrip(s) == [] || !IsSpace(RStrip(s)[|RStrip(s)| - 1])
  {
    if s != [] && IsSpace(s[|s| - 1]) {
      RStripSplits(s[..|s| - 1]);
    }
  }

  // ---------------------------------------------------------------------------------------------
  // Occurrences.
  // ---------------------------------------------------------------------------------------------

  predicate OccursAt(word: string, s: string, i: nat) {
    i + |word| <= |s| && s[i..i + |word|] == word
  }

  predicate Contains(s: string, word: string) {
    exists i: nat :: i <= |s| && OccursAt(word, s, i)
  }

  /** The first occurrence, as `str.split(word, 1)` finds it. */
  function Find(s: string, word: string): (r: Option<nat>)
    ensures r.Some? ==>
              OccursAt(word, s, r.value) && forall j: nat :: j < r.value ==> !OccursAt(word, s, j)
    ensures r.None? ==> forall j: nat :: !OccursAt(word, s, j)
  {
    FindFrom(s, word, 0)
  }

  function FindFrom(s: string, word: string, i: nat): (r: Option<nat>)
    requires i <= |s|
    requires forall j: nat :: j < i ==> !OccursAt(word, s, j)
    ensures r.Some? ==>
              OccursAt(word, s, r.value) && forall j: nat :: j < r.value ==> !OccursAt(word, s, j)
    ensures r.None? ==> forall j: nat :: !OccursAt(word, s, j)
    decreases |s| - i
  {
    if OccursAt(word, s, i) then Some(i)
    else if i == |s| then None
    else FindFrom(s, word, i + 1)
  }

  lemma OccursInAppend(word: string, s: string, t: string, i: nat)
    requires i + |word| <= |s|
    ensures OccursAt(word, s, i) <==> OccursAt(word, s + t, i)
  {
    assert (s + t)[i..i + |word|] == s[i..i + |word|];
  }

  /** A word found in a text stays its first occurrence when the text grows. */
  lemma FindAppend(s: string, t: string, word: string)
    requires Find(s, word).Some?
    ensures Find(s + t, word) == Find(s, word)
  {
    var i := Find(s, word).value;
    OccursInAppend(word, s, t, i);
    var j := Find(s + t, word).value;
    if j < i {
      OccursInAppend(word, s, t, j);
    }
  }

  lemma ContainsAppend(s: string, t: string, word: string)
    requires Contains(s, word)
    ensures Contains(s + t, word)
  {
    var i: nat :| i <= |s| && OccursAt(word, s, i);
    OccursInAppend(word, s, t, i);
  }

  // ---------------------------------------------------------------------------------------------
  // Decimal numerals.
  // ---------------------------------------------------------------------------------------------

  predicate IsDigit(c: char) {
    '0' <= c <= '9'
  }

  predicate AllDigits(s: string) {
    forall i :: 0 <= i < |s| ==> IsDigit(s[i])
  }

  function DigitValue(c: char): (d: nat)
    requires IsDigit(c)
    ensures d < 10
  {
    c as int - '0' as int
  }

  function DigitChar(d: nat): (c: char)
    requires d < 10
    ensures IsDigit(c) && DigitValue(c) == d
  {
    (d + '0' as int) as char
  }

  function Numeral(n: nat): (s: string)
    ensures s != [] && AllDigits(s)
    ensures s[0] == '0' ==> n == 0 && s == "0"
  {
    if n < 10 then [DigitChar(n)] else Numeral(n / 10) + [DigitChar(n % 10)]
  }

  function NumeralValue(s: string): nat
    requires AllDigits(s)
  {
    if s == [] then 0 else 10 * NumeralValue(s[..|s| - 1]) + DigitValue(s[|s| - 1])
  }

  lemma {:induction false} NumeralRoundTrip(n: nat)
    ensures NumeralValue(Numeral(n)) == n
  {
    if n < 10 {
      assert [DigitChar(n)][..0] == [];
    } else {
      NumeralRoundTrip(n / 10);
      assert Numeral(n)[..|Numeral(n)| - 1] == Numeral(n / 10);
    }
  }

  lemma {:induction false} NumeralOfDigits(s: string)
    requires AllDigits(s) && s != [] && (s[0] == '0' ==> |s| == 1)
    ensures Numeral(NumeralValue(s)) == s
  {
    var last := DigitValue(s[|s| - 1]);
    if |s| == 1 {
      assert s[..0] == [];
      assert s == [DigitChar(last)];
    } else {
      var front := s[..|s| - 1];
      NumeralOfDigits(front);
      assert front == Numeral(NumeralValue(front)) && front[0] != '0';
      var v := NumeralValue(s);
      assert v / 10 == NumeralValue(front) && v % 10 == last && v >= 10;
      assert s == front + [DigitChar(last)];
    }
  }
}
