/** Every grammar of the model is the regular expression of its source. */
module Grammars {
  import opened Prelude
  import opened Patterns
  import Distribution
  import BundledBackend
  import Json
  import Kolibri
  import KolibriRequest
  import Weights
  import ModelStore
  import TokenUsage

  // ---------------------------------------------------------------------------------------------
  // Python: the whole text matches.
  // ---------------------------------------------------------------------------------------------

  const TOOL_NAME := Class("A-Za-z0-9_.-", 1, Some(256))
  const ALIAS := Then(One("a-z0-9"), UpTo("a-z0-9._-", 63))
  const REVISION := Then(One("A-Za-z0-9"), UpTo("A-Za-z0-9._/-", 127))
  const NAME := Then(One("A-Za-z0-9"), UpTo("A-Za-z0-9._-", 127))
  const TYPE := Then(One("a-z"), UpTo("a-z0-9_", 63))

  function Hex(n: nat): Pattern {
    Class("0-9a-f", n, Some(n))
  }

  lemma ToolNamePattern(s: string)
    ensures Kolibri.ToolName(Json.PointsOf(s)) <==> Matches(TOOL_NAME, AsciiDigit, s)
  {
    forall i | 0 <= i < |s|
      ensures Kolibri.ToolNameChar(Json.PointsOf(s)[i]) <==> InClass("A-Za-z0-9_.-", s[i])
    {
      LetterClasses(s[i]);
    }
  }

  lemma AliasPattern(s: string)
    ensures ModelStore.IsAlias(s) <==> Matches(ALIAS, AsciiDigit, s)
  {
    HeadAndTail("a-z0-9", "a-z0-9._-", 63, s);
    forall i | 0 <= i < |s|
      ensures InClass("a-z0-9", s[i]) <==> Lower(s[i]) || AsciiDigit(s[i])
      ensures InClass("a-z0-9._-", s[i]) <==>
                Lower(s[i]) || AsciiDigit(s[i]) || s[i] == '.' || s[i] == '_' || s[i] == '-'
    {
      LowerClasses(s[i]);
    }
  }

  lemma RevisionPattern(s: string)
    ensures ModelStore.IsRevision(s) <==>
              && Matches(REVISION, AsciiDigit, s)
              && forall i :: 0 <= i < |s| - 1 ==> s[i] != '.' || s[i + 1] != '.'
  {
    HeadAndTail("A-Za-z0-9", "A-Za-z0-9._/-", 127, s);
    forall i | 0 <= i < |s|
      ensures InClass("A-Za-z0-9", s[i]) <==> ModelStore.IsAlnum(s[i])
      ensures InClass("A-Za-z0-9._/-", s[i]) <==>
                ModelStore.IsAlnum(s[i]) || s[i] == '.' || s[i] == '_' || s[i] == '/' || s[i] == '-'
    {
      LetterClasses(s[i]);
      PathClass(s[i]);
    }
  }

  /** Owner and model; a name of this form is neither `.` nor `..`. */
  lemma RepositoryPartPattern(s: string)
    ensures ModelStore.IsRepositoryPart(s) <==> Matches(NAME, AsciiDigit, s) && s != "." && s != ".."
  {
    HeadAndTail("A-Za-z0-9", "A-Za-z0-9._-", 127, s);
    forall i | 0 <= i < |s|
      ensures InClass("A-Za-z0-9", s[i]) <==> ModelStore.IsAlnum(s[i])
      ensures InClass("A-Za-z0-9._-", s[i]) <==>
                ModelStore.IsAlnum(s[i]) || s[i] == '.' || s[i] == '_' || s[i] == '-'
    {
      LetterClasses(s[i]);
    }
  }

  lemma TypePattern(s: string)
    ensures ModelStore.IsIdentifier(s) <==> Matches(TYPE, AsciiDigit, s)
  {
    HeadAndTail("a-z", "a-z0-9_", 63, s);
    forall i | 0 <= i < |s|
      ensures InClass("a-z", s[i]) <==> Lower(s[i])
      ensures InClass("a-z0-9_", s[i]) <==> Lower(s[i]) || AsciiDigit(s[i]) || s[i] == '_'
    {
      LowerClasses(s[i]);
    }
  }

  lemma HexPattern(s: string, n: nat)
    ensures ModelStore.IsHex(s, n) <==> Matches(Hex(n), AsciiDigit, s)
  {
    forall i | 0 <= i < |s| ensures InClass("0-9a-f", s[i]) <==> AsciiDigit(s[i]) || 'a' <= s[i] <= 'f' {
      LowerClasses(s[i]);
    }
  }

  /** `uuid4().hex` */
  lemma UuidPattern(s: string)
    ensures KolibriRequest.IsUuid(s) <==> Matches(Hex(32), AsciiDigit, s)
  {
    forall i | 0 <= i < |s| ensures InClass("0-9a-f", s[i]) <==> AsciiDigit(s[i]) || 'a' <= s[i] <= 'f' {
      LowerClasses(s[i]);
    }
  }

  // ---------------------------------------------------------------------------------------------
  // Swift: provider identifiers.
  // ---------------------------------------------------------------------------------------------

  const PROVIDER := Then(One("a-z0-9"), Either(Word(""), Then(UpTo("a-z0-9_-", 125), One("a-z0-9"))))

  /** Some of a class, then one character of another. */
  lemma TailAndEnd(second: string, last: string, most: nat, s: string)
    ensures Matches(Then(UpTo(second, most), One(last)), AsciiDigit, s)
            <==> && 1 <= |s| <= most + 1 && InClass(last, s[|s| - 1])
                 && forall i :: 0 <= i < |s| - 1 ==> InClass(second, s[i])
  {
    if Matches(Then(UpTo(second, most), One(last)), AsciiDigit, s) {
      var k :|
        0 <= k <= |s| && Matches(UpTo(second, most), AsciiDigit, s[..k]) && Matches(One(last), AsciiDigit, s[k..]);
      assert s[k..][0] == s[k] && forall i :: 0 <= i < k ==> s[i] == s[..k][i];
    }
    if && 1 <= |s| <= most + 1 && InClass(last, s[|s| - 1])
       && forall i :: 0 <= i < |s| - 1 ==> InClass(second, s[i]) {
      assert Matches(UpTo(second, most), AsciiDigit, s[..|s| - 1]) && Matches(One(last), AsciiDigit, s[|s| - 1..]);
    }
  }

  predicate EndsWell(s: string) {
    1 <= |s| <= 126 && TokenUsage.EndChar(s[|s| - 1]) && forall i :: 0 <= i < |s| - 1 ==> TokenUsage.InnerChar(s[i])
  }

  lemma ProviderTail(s: string)
    ensures Matches(Then(UpTo("a-z0-9_-", 125), One("a-z0-9")), AsciiDigit, s) <==> EndsWell(s)
  {
    TailAndEnd("a-z0-9_-", "a-z0-9", 125, s);
    ProviderChars(s);
  }

  lemma ProviderIdSplits(s: string)
    ensures TokenUsage.IsProviderId(s) <==>
              s != "" && TokenUsage.EndChar(s[0]) && (s[1..] == "" || EndsWell(s[1..]))
  {
    if s != "" {
      assert forall i :: 0 < i < |s| ==> s[1..][i - 1] == s[i];
    }
  }

  lemma ProviderPattern(s: string)
    ensures TokenUsage.IsProviderId(s) <==> Matches(PROVIDER, AsciiDigit, s) && |s| <= 127
  {
    OneThen("a-z0-9", Either(Word(""), Then(UpTo("a-z0-9_-", 125), One("a-z0-9"))), AsciiDigit, s);
    ProviderIdSplits(s);
    ProviderChars(s);
    if s != "" {
      ProviderTail(s[1..]);
    }
  }

  lemma ProviderChars(s: string)
    ensures forall i :: 0 <= i < |s| ==> (InClass("a-z0-9", s[i]) <==> TokenUsage.EndChar(s[i]))
    ensures forall i :: 0 <= i < |s| ==> (InClass("a-z0-9_-", s[i]) <==> TokenUsage.InnerChar(s[i]))
  {
    forall i | 0 <= i < |s|
      ensures InClass("a-z0-9", s[i]) <==> TokenUsage.EndChar(s[i])
      ensures InClass("a-z0-9_-", s[i]) <==> TokenUsage.InnerChar(s[i])
    {
      LowerClasses(s[i]);
    }
  }

  // ---------------------------------------------------------------------------------------------
  // Swift: the members of a distribution.
  // ---------------------------------------------------------------------------------------------

  const MODULE := Then(Word("src/"), Then(Class("a-z0-9-", 1, None), Word(".mjs")))
  const PROGRAM := Then(Word("bin/"), Then(Either(Word("pickermux"), Word("lmstudio-picker")), Word(".mjs")))

  lemma ModulePattern(s: string)
    ensures Distribution.IsModuleName(s) <==> Matches(Then(Class("a-z0-9-", 1, None), Word(".mjs")), AsciiDigit, s)
  {
    WordLast(Class("a-z0-9-", 1, None), ".mjs", AsciiDigit, s);
    forall i | 0 <= i < |s| ensures InClass("a-z0-9-", s[i]) <==> Distribution.StemChar(s[i]) {
      LowerClasses(s[i]);
    }
  }

  lemma ProgramPattern(s: string)
    ensures s in Distribution.PROGRAMS
            <==> Matches(Then(Either(Word("pickermux"), Word("lmstudio-picker")), Word(".mjs")), AsciiDigit, s)
  {
    WordLast(Either(Word("pickermux"), Word("lmstudio-picker")), ".mjs", AsciiDigit, s);
    if |s| >= 4 {
      assert s == s[..|s| - 4] + s[|s| - 4..];
    }
    assert "pickermux.mjs" == "pickermux" + ".mjs" && "lmstudio-picker.mjs" == "lmstudio-picker" + ".mjs";
  }

  /** Behind its directory and a slash. */
  lemma BehindDirectory(directory: string, p: Pattern, other: string, q: Pattern, member: string)
    requires |directory| == |other| && directory != other
    ensures Matches(Either(Then(Word(directory), p), Then(Word(other), q)), AsciiDigit, directory + member)
            <==> Matches(p, AsciiDigit, member)
  {
    ThenWord(directory, p, AsciiDigit, directory + member);
    ThenWord(other, q, AsciiDigit, directory + member);
    assert (directory + member)[..|directory|] == directory && (directory + member)[|directory|..] == member;
  }

  lemma CoreBehind(directory: string, member: string)
    requires directory != "" && directory[|directory| - 1] == '/'
    ensures Distribution.Core(directory + member) == directory + Distribution.Core(member)
  {
    var s, core := directory + member, Distribution.Core(member);
    assert member != "" ==> s[|s| - 1] == member[|member| - 1];
    assert |member| >= 2 ==> s[|s| - 2] == member[|member| - 2];
    assert s[..|directory| + |core|] == directory + core;
  }

  lemma MemberIsNotTerminated(s: string)
    requires Matches(Either(MODULE, PROGRAM), AsciiDigit, s)
    ensures !Distribution.IsTerminated(s)
  {
    if Matches(MODULE, AsciiDigit, s) {
      WordEnds(Word("src/"), Class("a-z0-9-", 1, None), ".mjs", s);
    } else {
      WordEnds(Word("bin/"), Either(Word("pickermux"), Word("lmstudio-picker")), ".mjs", s);
    }
  }

  /** `^src/[a-z0-9-]+\.mjs$|^bin/(pickermux|lmstudio-picker)\.mjs$` */
  lemma MemberPattern(directory: string, member: string)
    requires directory == "src" || directory == "bin"
    ensures Distribution.IsMember(directory, member)
            <==> MatchesLine(Either(MODULE, PROGRAM), directory + "/" + member)
  {
    var core := Distribution.Core(member);
    forall t | Matches(Either(MODULE, PROGRAM), AsciiDigit, t) ensures !Distribution.IsTerminated(t) {
      MemberIsNotTerminated(t);
    }
    LineMatches(Either(MODULE, PROGRAM), directory + "/" + member);
    CoreBehind(directory + "/", member);
    ModulePattern(core);
    ProgramPattern(core);
    MemberBehind(directory, core);
  }

  lemma MemberBehind(directory: string, core: string)
    requires directory == "src" || directory == "bin"
    ensures Matches(Either(MODULE, PROGRAM), AsciiDigit, directory + "/" + core)
            <==> if directory == "src" then Matches(MODULE.second, AsciiDigit, core)
                 else Matches(PROGRAM.second, AsciiDigit, core)
  {
    assert "src" + "/" == "src/" && "bin" + "/" == "bin/" && "src/"[0] != "bin/"[0];
    BehindDirectory("src/", MODULE.second, "bin/", PROGRAM.second, core);
    BehindDirectory("bin/", PROGRAM.second, "src/", MODULE.second, core);
  }

  // ---------------------------------------------------------------------------------------------
  // Swift: the paths of a bundle.
  // ---------------------------------------------------------------------------------------------

  const CODE := Then(Either(Word("bin"), Word("src")), Then(Word("/"), Class("A-Za-z0-9._/-", 1, None)))
  const PACKAGE := Then(Word("package"), Then(Line, Word("json")))
  const CONFIGURATION :=
    Then(Word("lmstudio-picker"), Then(Line, Then(Word("config"), Then(Line, Word("json")))))

  lemma PathTail(s: string)
    ensures Matches(Class("A-Za-z0-9._/-", 1, None), AsciiDigit, s)
            <==> s != "" && forall i :: 0 <= i < |s| ==> BundledBackend.PathChar(s[i])
  {
    forall i | 0 <= i < |s| ensures InClass("A-Za-z0-9._/-", s[i]) <==> BundledBackend.PathChar(s[i]) {
      PathClass(s[i]);
    }
  }

  lemma CodeTail(directory: string, s: string)
    requires |directory| == 3
    ensures Matches(Then(Word(directory), Then(Word("/"), Class("A-Za-z0-9._/-", 1, None))), AsciiDigit, s)
            <==> |s| > 4 && s[..4] == directory + "/" && forall i :: 4 <= i < |s| ==> BundledBackend.PathChar(s[i])
  {
    var tail := Class("A-Za-z0-9._/-", 1, None);
    ThenWord(directory, Then(Word("/"), tail), AsciiDigit, s);
    if |s| >= 3 {
      ThenWord("/", tail, AsciiDigit, s[3..]);
    }
    if |s| >= 4 {
      PathTail(s[4..]);
      assert s[3..][1..] == s[4..] && s[3..][..1] == [s[3]] && s[..4] == s[..3] + [s[3]];
      assert s[..4] == directory + "/" <==> s[..3] == directory && s[3] == '/' by {
        if s[..4] == directory + "/" {
          assert s[..3] == s[..4][..3] && s[3] == s[..4][3];
        }
      }
      assert forall i :: 4 <= i < |s| ==> s[i] == s[4..][i - 4];
    }
  }

  lemma CodePattern(s: string)
    ensures BundledBackend.IsCodePath(s) <==> Matches(CODE, AsciiDigit, s)
  {
    EitherThen(Word("bin"), Word("src"), Then(Word("/"), Class("A-Za-z0-9._/-", 1, None)), AsciiDigit, s);
    CodeTail("bin", s);
    CodeTail("src", s);
    assert "bin" + "/" == "bin/" && "src" + "/" == "src/";
  }

  lemma PackagePattern(s: string)
    ensures Matches(PACKAGE, AsciiDigit, s)
            <==> |s| == 12 && s[..7] == "package" && !Distribution.IsTerminator(s[7]) && s[8..] == "json"
  {
    ThenWord("package", Then(Line, Word("json")), AsciiDigit, s);
    if |s| >= 7 {
      ThenLine(Word("json"), AsciiDigit, s[7..]);
      assert |s| >= 8 ==> s[7..][1..] == s[8..];
    }
  }

  /** The part after the first name. */
  lemma ConfigurationTail(s: string)
    ensures Matches(Then(Line, Then(Word("config"), Then(Line, Word("json")))), AsciiDigit, s)
            <==> && |s| == 12 && !Distribution.IsTerminator(s[0]) && s[1..7] == "config"
                 && !Distribution.IsTerminator(s[7]) && s[8..] == "json"
  {
    ThenLine(Then(Word("config"), Then(Line, Word("json"))), AsciiDigit, s);
    if s != "" {
      ThenWord("config", Then(Line, Word("json")), AsciiDigit, s[1..]);
      if |s| >= 7 {
        ThenLine(Word("json"), AsciiDigit, s[1..][6..]);
        assert s[1..][..6] == s[1..7] && s[1..][6..] == s[7..];
        assert |s| >= 8 ==> s[7..][1..] == s[8..];
      }
    }
  }

  lemma ConfigurationPattern(s: string)
    ensures Matches(CONFIGURATION, AsciiDigit, s)
            <==> && |s| == 27 && s[..15] == "lmstudio-picker" && !Distribution.IsTerminator(s[15])
                 && s[16..22] == "config" && !Distribution.IsTerminator(s[22]) && s[23..] == "json"
  {
    ThenWord("lmstudio-picker", Then(Line, Then(Word("config"), Then(Line, Word("json")))), AsciiDigit, s);
    if |s| >= 15 {
      ConfigurationTail(s[15..]);
      assert |s| == 27 ==> s[15..][1..7] == s[16..22] && s[15..][8..] == s[23..];
    }
  }

  const TOP := Either(PACKAGE, Either(CONFIGURATION, Word("LICENSE")))

  lemma TopPattern(s: string)
    ensures BundledBackend.IsTopPath(s) <==> Matches(TOP, AsciiDigit, s)
  {
    PackagePattern(s);
    ConfigurationPattern(s);
    assert Matches(Either(CONFIGURATION, Word("LICENSE")), AsciiDigit, s)
      <==> Matches(CONFIGURATION, AsciiDigit, s) || s == "LICENSE";
  }

  lemma PathIsNotTerminated(s: string)
    requires Matches(Either(CODE, TOP), AsciiDigit, s)
    ensures !Distribution.IsTerminated(s)
  {
    CodePattern(s);
    TopPattern(s);
    if BundledBackend.IsCodePath(s) {
      assert BundledBackend.PathChar(s[|s| - 1]);
    } else if |s| == 12 {
      assert s[11] == s[8..][3];
    } else if |s| == 27 {
      assert s[26] == s[23..][3];
    }
  }

  /** `^(bin|src)/[A-Za-z0-9._/-]+$|^(package.json|lmstudio-picker.config.json|LICENSE)$` */
  lemma PathPattern(path: string)
    ensures BundledBackend.MatchesPath(path)
            <==> MatchesLine(Either(CODE, TOP), path) || path in BundledBackend.MLX_PATHS
  {
    var core := Distribution.Core(path);
    forall t | Matches(Either(CODE, TOP), AsciiDigit, t) ensures !Distribution.IsTerminated(t) {
      PathIsNotTerminated(t);
    }
    LineMatches(Either(CODE, TOP), path);
    CodePattern(core);
    TopPattern(core);
  }

  lemma DigestPattern(s: string)
    ensures BundledBackend.IsDigest(s) <==> MatchesLine(Hex(64), s)
  {
    forall t | Matches(Hex(64), AsciiDigit, t) ensures !Distribution.IsTerminated(t) {
      HexPattern(t, 64);
    }
    LineMatches(Hex(64), s);
    HexPattern(Distribution.Core(s), 64);
  }

  // ---------------------------------------------------------------------------------------------
  // Python: weight files, with the digits of every script.
  // ---------------------------------------------------------------------------------------------

  const NUMBERS := Then(Word("-"), Then(Digit(5), Then(Word("-of-"), Digit(5))))
  const WEIGHT := Then(Word("model"), Then(Either(Word(""), NUMBERS), Word(".safetensors")))

  function DigitRule(digits: Weights.Digits): char -> bool {
    c => digits(c).Some?
  }

  lemma {:induction false} ValueOfDigits(digits: Weights.Digits, s: string)
    ensures Weights.Value(digits, s).Some? <==> forall i :: 0 <= i < |s| ==> digits(s[i]).Some?
  {
    if s != "" {
      ValueOfDigits(digits, s[..|s| - 1]);
      assert forall i :: 0 <= i < |s| - 1 ==> s[..|s| - 1][i] == s[i];
    }
  }

  lemma NumbersPattern(digits: Weights.Digits, s: string)
    ensures Matches(NUMBERS, DigitRule(digits), s)
            <==> && |s| == 15 && s[..1] == "-" && s[6..10] == "-of-"
                 && Weights.Value(digits, s[1..6]).Some? && Weights.Value(digits, s[10..]).Some?
  {
    ThenWord("-", Then(Digit(5), Then(Word("-of-"), Digit(5))), DigitRule(digits), s);
    if |s| >= 6 {
      ThenDigit(5, Then(Word("-of-"), Digit(5)), DigitRule(digits), s[1..]);
      ThenWord("-of-", Digit(5), DigitRule(digits), s[1..][5..]);
      assert s[1..][..5] == s[1..6] && s[1..][5..] == s[6..];
      assert |s| >= 10 ==> s[6..][..4] == s[6..10] && s[6..][4..] == s[10..];
      ValueOfDigits(digits, s[1..6]);
      if |s| == 15 {
        ValueOfDigits(digits, s[10..]);
      }
    } else if s != "" {
      ThenDigit(5, Then(Word("-of-"), Digit(5)), DigitRule(digits), s[1..]);
    }
  }

  lemma StemPattern(digits: Weights.Digits, s: string)
    ensures Matches(Either(Word(""), NUMBERS), DigitRule(digits), s)
            <==> s == "" || Matches(NUMBERS, DigitRule(digits), s)
  {
  }

  /** `model(?:-\d{5}-of-\d{5})?\.safetensors` */
  lemma WeightPattern(digits: Weights.Digits, name: string)
    ensures Weights.IsWeight(digits, name) <==> Matches(WEIGHT, DigitRule(digits), name)
  {
    ThenWord("model", Then(Either(Word(""), NUMBERS), Word(".safetensors")), DigitRule(digits), name);
    assert |Weights.SUFFIX| == 12 && |Weights.SINGLE| == 17 && "model" + "" + Weights.SUFFIX == Weights.SINGLE;
    if |name| >= 17 {
      var rest := name[5..];
      WordLast(Either(Word(""), NUMBERS), ".safetensors", DigitRule(digits), rest);
      StemPattern(digits, rest[..|rest| - 12]);
      NumbersPattern(digits, rest[..|rest| - 12]);
      assert name[..5] + rest[..|rest| - 12] + rest[|rest| - 12..] == name;
      if |name| == 32 {
        ShardParts(digits, name);
      }
    } else if |name| >= 5 {
      WordLast(Either(Word(""), NUMBERS), ".safetensors", DigitRule(digits), name[5..]);
    }
  }

  lemma ShardParts(digits: Weights.Digits, name: string)
    requires |name| == 32
    ensures var stem := name[5..][..15];
            Weights.ShardOf(digits, name).Some? <==>
              && name[..5] == "model" && name[5..][15..] == Weights.SUFFIX
              && stem[..1] == "-" && stem[6..10] == "-of-"
              && Weights.Value(digits, stem[1..6]).Some? && Weights.Value(digits, stem[10..]).Some?
  {
    var stem := name[5..][..15];
    assert stem[..1] == name[5..6] && stem[6..10] == name[11..15] && stem[1..6] == name[6..11];
    assert stem[10..] == name[15..20] && name[5..][15..] == name[20..] && name[..6] == name[..5] + name[5..6];
    assert name[..6] == "model-" <==> name[..5] == "model" && name[5..6] == "-" by {
      assert "model-" == "model" + "-" && name[..6][..5] == name[..5] && name[..6][5..] == name[5..6];
    }
  }
}
