/** The weight files of a snapshot: one file, or shards that are numbered without gaps. */
module Weights {
  import opened Prelude
  import opened Text
  import opened Json
  import opened Kolibri

  /**
   The value of a decimal digit of any script: `\d` in the name pattern and `int` accept all of them,
   not only the ASCII ones.
   */
  type Digits = char -> Option<nat>

  /** What every such table has in common. */
  ghost predicate IsTable(digits: Digits) {
    && (forall c :: digits(c).Some? ==> digits(c).value < 10)
    && (forall c :: c as int < 0x80 ==> digits(c) == if IsDigit(c) then Some(DigitValue(c)) else None)
  }

  const SINGLE := "model.safetensors"
  const SUFFIX := ".safetensors"

  datatype Shard = Shard(index: nat, total: nat)

  /** The value of a numeral, when all its characters are digits. */
  function Value(digits: Digits, s: string): Option<nat> {
    if s == [] then Some(0)
    else
      match (Value(digits, s[..|s| - 1]), digits(s[|s| - 1]))
      case (Some(v), Some(d)) => Some(10 * v + d)
      case _ => None
  }

  /** `model-(\d{5})-of-(\d{5})\.safetensors` */
  function ShardOf(digits: Digits, name: string): Option<Shard> {
    if |name| != 32 || name[..6] != "model-" || name[11..15] != "-of-" || name[20..] != SUFFIX then None
    else
      match (Value(digits, name[6..11]), Value(digits, name[15..20]))
      case (Some(index), Some(total)) => Some(Shard(index, total))
      case _ => None
  }

  predicate IsWeight(digits: Digits, name: string) {
    name == SINGLE || ShardOf(digits, name).Some?
  }

  function WeightsIn(digits: Digits, names: set<string>): set<string> {
    set name | name in names && IsWeight(digits, name)
  }

  function IndexOf(digits: Digits, name: string): nat {
    match ShardOf(digits, name)
    case Some(shard) => shard.index
    case None => 0
  }

  function TotalOf(digits: Digits, name: string): nat {
    match ShardOf(digits, name)
    case Some(shard) => shard.total
    case None => 0
  }

  function Indices(digits: Digits, weights: set<string>): set<nat> {
    set name | name in weights :: IndexOf(digits, name)
  }

  function Totals(digits: Digits, weights: set<string>): set<nat> {
    set name | name in weights :: TotalOf(digits, name)
  }

  /** The numbers 1..n. */
  function UpTo(n: nat): (r: set<nat>)
    ensures forall k: nat :: k in r <==> 1 <= k <= n
  {
    if n == 0 then {} else UpTo(n - 1) + {n}
  }

  /** The checks on the names, on sets as the code has them. */
  predicate NamesAccepted(digits: Digits, weights: set<string>) {
    && weights != {}
    && (if SINGLE in weights then |weights| == 1
        else Totals(digits, weights) == {|weights|} && Indices(digits, weights) == UpTo(|weights|))
  }

  /** The values of an index file's map, when it is one. */
  function Mapped(index: Json): Option<set<string>> {
    match (if index.Obj? then Field(index.members, PointsOf("weight_map")) else None)
    case Some(Obj(members)) =>
      if 0 < |members| <= 100000 && forall m :: m in members ==> m.value.Str?
      then Some(set m | m in members :: NameOf(m.value)) else None
    case _ => None
  }

  /** A decoded string as text; a surrogate names no file. */
  function TextOf(points: Points): string {
    if points == [] then "" else [CharOf(points[0])] + TextOf(points[1..])
  }

  function NameOf(v: Json): string {
    if v.Str? then TextOf(v.points) else ""
  }

  function CharOf(p: Point): char {
    if 0xD800 <= p < 0xE000 then '\U{FFFD}' else p as char
  }

  // ---------------------------------------------------------------------------------------------
  // Pigeonhole.
  // ---------------------------------------------------------------------------------------------

  lemma {:induction false} RangeSize(n: nat)
    ensures |UpTo(n)| == n
  {
    if n > 0 {
      RangeSize(n - 1);
    }
  }

  lemma {:induction false} ImageSize(digits: Digits, weights: set<string>)
    ensures |Indices(digits, weights)| <= |weights|
    decreases |weights|
  {
    if weights == {} {
      assert Indices(digits, weights) == {};
    } else {
      var name :| name in weights;
      ImageSize(digits, weights - {name});
      assert Indices(digits, weights) == Indices(digits, weights - {name}) + {IndexOf(digits, name)};
    }
  }

  lemma Collapse(digits: Digits, weights: set<string>, a: string, b: string)
    requires a in weights && b in weights && a != b && IndexOf(digits, a) == IndexOf(digits, b)
    ensures |Indices(digits, weights)| < |weights|
  {
    ImageSize(digits, weights - {a});
    assert Indices(digits, weights) == Indices(digits, weights - {a}) by {
      assert b in weights - {a};
    }
  }

  lemma {:induction false} InjectiveImage(digits: Digits, weights: set<string>)
    requires forall a, b :: a in weights && b in weights && IndexOf(digits, a) == IndexOf(digits, b) ==> a == b
    ensures |Indices(digits, weights)| == |weights|
    decreases |weights|
  {
    if weights == {} {
      assert Indices(digits, weights) == {};
    } else {
      var name :| name in weights;
      InjectiveImage(digits, weights - {name});
      assert Indices(digits, weights) == Indices(digits, weights - {name}) + {IndexOf(digits, name)};
    }
  }

  // ---------------------------------------------------------------------------------------------
  // What the checks accept.
  // ---------------------------------------------------------------------------------------------

  /** Reading the index of a shard is a bijection between the weights and 1..n, and every total is n. */
  predicate IsNumbered(digits: Digits, weights: set<string>, n: nat) {
    && n >= 1 && |weights| == n
    && (forall name :: name in weights ==>
          TotalOf(digits, name) == n && 1 <= IndexOf(digits, name) <= n)
    && (forall a, b :: a in weights && b in weights && IndexOf(digits, a) == IndexOf(digits, b) ==> a == b)
    && (forall k :: 1 <= k <= n ==> k in Indices(digits, weights))
  }

  lemma AcceptedIsNumbered(digits: Digits, weights: set<string>)
    requires SINGLE !in weights && NamesAccepted(digits, weights)
    ensures IsNumbered(digits, weights, |weights|)
  {
    RangeSize(|weights|);
    forall a, b | a in weights && b in weights && IndexOf(digits, a) == IndexOf(digits, b) ensures a == b {
      if a != b {
        Collapse(digits, weights, a, b);
      }
    }
    forall name | name in weights
      ensures TotalOf(digits, name) == |weights| && 1 <= IndexOf(digits, name) <= |weights|
    {
      assert TotalOf(digits, name) in Totals(digits, weights) && IndexOf(digits, name) in Indices(digits, weights);
    }
  }

  lemma NumberedIsAccepted(digits: Digits, weights: set<string>)
    requires SINGLE !in weights && IsNumbered(digits, weights, |weights|)
    ensures NamesAccepted(digits, weights)
  {
    var name :| name in weights;
    assert TotalOf(digits, name) in Totals(digits, weights);
    assert Totals(digits, weights) == {|weights|};
    assert Indices(digits, weights) == UpTo(|weights|);
  }

  /** The checks accept the one file, or shards whose numbers are exactly 1..n, each once, of n. */
  lemma AcceptedIffNumbered(digits: Digits, weights: set<string>)
    ensures NamesAccepted(digits, weights) <==>
              weights == {SINGLE} || (SINGLE !in weights && IsNumbered(digits, weights, |weights|))
  {
    if SINGLE in weights {
      assert weights == {SINGLE} + (weights - {SINGLE});
    } else {
      if NamesAccepted(digits, weights) {
        AcceptedIsNumbered(digits, weights);
      }
      if IsNumbered(digits, weights, |weights|) {
        NumberedIsAccepted(digits, weights);
      }
    }
  }

  // ---------------------------------------------------------------------------------------------
  // ASCII names.
  // ---------------------------------------------------------------------------------------------

  predicate IsAsciiName(s: string) {
    forall i :: 0 <= i < |s| ==> s[i] as int < 0x80
  }

  function Power(width: nat): (p: nat)
    ensures p >= 1
  {
    if width == 0 then 1 else 10 * Power(width - 1)
  }

  function Pad(n: nat, width: nat): (s: string)
    ensures |s| == width
  {
    if width == 0 then "" else Pad(n / 10, width - 1) + [DigitChar(n % 10)]
  }

  lemma {:induction false} ValueOfPad(digits: Digits, n: nat, width: nat)
    requires IsTable(digits) && n < Power(width)
    ensures Value(digits, Pad(n, width)) == Some(n)
  {
    if width > 0 {
      ValueOfPad(digits, n / 10, width - 1);
      assert Pad(n, width)[..width - 1] == Pad(n / 10, width - 1);
    }
  }

  lemma {:induction false} PadOfValue(digits: Digits, s: string)
    requires IsTable(digits) && IsAsciiName(s) && Value(digits, s).Some?
    ensures Value(digits, s).value < Power(|s|) && Pad(Value(digits, s).value, |s|) == s
  {
    if s != [] {
      var front, c := s[..|s| - 1], s[|s| - 1];
      PadOfValue(digits, front);
      var v := Value(digits, front).value;
      LastDigit(v, DigitValue(c));
      DigitOfValue(c);
      assert s == front + [c];
    }
  }

  lemma LastDigit(v: nat, d: nat)
    requires d < 10
    ensures (10 * v + d) / 10 == v && (10 * v + d) % 10 == d
  {
  }

  lemma DigitOfValue(c: char)
    requires IsDigit(c)
    ensures DigitChar(DigitValue(c)) == c
  {
  }

  lemma FiveDigits()
    ensures Power(5) == 100000
  {
    assert Power(2) == 100;
  }

  function ShardName(k: nat, n: nat): string {
    "model-" + Pad(k, 5) + "-of-" + Pad(n, 5) + SUFFIX
  }

  function Shards(n: nat): set<string> {
    set k: nat | 1 <= k <= n :: ShardName(k, n)
  }

  lemma ShardOfParts(digits: Digits, a: string, b: string)
    requires |a| == 5 && |b| == 5 && Value(digits, a).Some? && Value(digits, b).Some?
    ensures var name := "model-" + a + "-of-" + b + SUFFIX;
            ShardOf(digits, name) == Some(Shard(Value(digits, a).value, Value(digits, b).value)) && name != SINGLE
  {
    var name := "model-" + a + "-of-" + b + SUFFIX;
    assert name[6..11] == a && name[15..20] == b;
    assert name[..6] == "model-" && name[11..15] == "-of-" && name[20..] == SUFFIX;
  }

  lemma ShardOfName(digits: Digits, k: nat, n: nat)
    requires IsTable(digits) && k < 100000 && n < 100000
    ensures ShardOf(digits, ShardName(k, n)) == Some(Shard(k, n)) && ShardName(k, n) != SINGLE
  {
    FiveDigits();
    ValueOfPad(digits, k, 5);
    ValueOfPad(digits, n, 5);
    ShardOfParts(digits, Pad(k, 5), Pad(n, 5));
  }

  lemma NameOfParts(name: string)
    requires |name| == 32
    ensures name == name[..6] + name[6..11] + name[11..15] + name[15..20] + name[20..]
  {
  }

  lemma NameOfShard(digits: Digits, name: string)
    requires IsTable(digits) && IsAsciiName(name) && ShardOf(digits, name).Some?
    ensures var shard := ShardOf(digits, name).value;
            shard.index < 100000 && shard.total < 100000 && name == ShardName(shard.index, shard.total)
  {
    FiveDigits();
    PadOfValue(digits, name[6..11]);
    PadOfValue(digits, name[15..20]);
    NameOfParts(name);
  }

  predicate AreAscii(names: set<string>) {
    forall name :: name in names ==> IsAsciiName(name)
  }

  /** What the file names of a whole model are: the one file, or all shards of some number. */
  ghost predicate AreComplete(weights: set<string>) {
    weights == {SINGLE} || exists n: nat :: 1 <= n < 100000 && weights == Shards(n)
  }

  /** A name that is no shard has the total 0, which no numbering allows. */
  lemma NumberedAreWeights(digits: Digits, weights: set<string>)
    requires NamesAccepted(digits, weights)
    ensures forall name :: name in weights ==> IsWeight(digits, name)
  {
    AcceptedIffNumbered(digits, weights);
    if weights == {SINGLE} {
      assert forall name :: name in weights ==> name == SINGLE;
    }
  }

  lemma PadIsAscii(n: nat, width: nat)
    ensures IsAsciiName(Pad(n, width))
  {
  }

  lemma CompleteIsAscii(weights: set<string>)
    requires AreComplete(weights)
    ensures AreAscii(weights)
  {
    forall name | name in weights ensures IsAsciiName(name) {
      if weights != {SINGLE} {
        var n: nat :| 1 <= n < 100000 && weights == Shards(n);
        var k: nat :| 1 <= k <= n && name == ShardName(k, n);
        PadIsAscii(k, 5);
        PadIsAscii(n, 5);
      }
    }
  }

  /** A set of names is the one file or exactly the shards 1..n of n if and only if it is accepted and ASCII. */
  lemma AcceptedIffComplete(digits: Digits, weights: set<string>)
    requires IsTable(digits)
    ensures AreComplete(weights) <==> NamesAccepted(digits, weights) && AreAscii(weights)
  {
    AcceptedIffNumbered(digits, weights);
    if NamesAccepted(digits, weights) && AreAscii(weights) && SINGLE !in weights {
      NumberedAreWeights(digits, weights);
      NumberedIsShards(digits, weights, |weights|);
    }
    if AreComplete(weights) {
      CompleteIsAscii(weights);
      if n: nat :| 1 <= n < 100000 && weights == Shards(n) {
        ShardsAreNumbered(digits, n);
      }
    }
  }

  lemma NumberedIsShards(digits: Digits, weights: set<string>, n: nat)
    requires IsTable(digits) && AreAscii(weights) && SINGLE !in weights && IsNumbered(digits, weights, n)
    requires forall name :: name in weights ==> IsWeight(digits, name)
    ensures n < 100000 && weights == Shards(n)
  {
    var first :| first in weights;
    NameOfShard(digits, first);
    forall name | name in weights ensures name in Shards(n) {
      NameOfShard(digits, name);
    }
    forall k: nat | 1 <= k <= n ensures ShardName(k, n) in weights {
      WeightOfIndex(digits, weights, n, k);
    }
  }

  lemma WeightOfIndex(digits: Digits, weights: set<string>, n: nat, k: nat)
    requires IsTable(digits) && AreAscii(weights) && SINGLE !in weights && IsNumbered(digits, weights, n)
    requires (forall name :: name in weights ==> IsWeight(digits, name)) && 1 <= k <= n
    ensures ShardName(k, n) in weights
  {
    assert k in Indices(digits, weights);
    var w :| w in weights && IndexOf(digits, w) == k;
    NameOfShard(digits, w);
  }

  lemma InShards(digits: Digits, n: nat, name: string)
    requires IsTable(digits) && n < 100000 && name in Shards(n)
    ensures name != SINGLE && TotalOf(digits, name) == n && 1 <= IndexOf(digits, name) <= n
    ensures name == ShardName(IndexOf(digits, name), n)
  {
    var k: nat :| 1 <= k <= n && name == ShardName(k, n);
    ShardOfName(digits, k, n);
  }

  lemma ShardsAreNumbered(digits: Digits, n: nat)
    requires IsTable(digits) && 1 <= n < 100000
    ensures SINGLE !in Shards(n) && IsNumbered(digits, Shards(n), n)
  {
    var shards := Shards(n);
    forall name | name in shards
      ensures name != SINGLE && TotalOf(digits, name) == n && 1 <= IndexOf(digits, name) <= n
      ensures name == ShardName(IndexOf(digits, name), n)
    {
      InShards(digits, n, name);
    }
    forall k: nat | 1 <= k <= n ensures k in Indices(digits, shards) {
      ShardOfName(digits, k, n);
      assert ShardName(k, n) in shards;
    }
    assert Indices(digits, shards) == UpTo(n);
    InjectiveImage(digits, shards);
    RangeSize(n);
  }

  /** `model-0000`, a digit one of another script, `-of-00001.safetensors`. */
  function ForeignName(one: char): string {
    "model-" + (Pad(0, 4) + [one]) + "-of-" + Pad(1, 5) + SUFFIX
  }

  lemma ForeignShard(digits: Digits, one: char)
    requires IsTable(digits) && digits(one) == Some(1)
    ensures ShardOf(digits, ForeignName(one)) == Some(Shard(1, 1)) && ForeignName(one) != SINGLE
  {
    var index := Pad(0, 4) + [one];
    assert index[..4] == Pad(0, 4);
    FiveDigits();
    ValueOfPad(digits, 0, 4);
    ValueOfPad(digits, 1, 5);
    ShardOfParts(digits, index, Pad(1, 5));
  }

  lemma ForeignIsNoShard(one: char, n: nat)
    requires one != '1' && n >= 1
    ensures {ForeignName(one)} != Shards(n)
  {
    assert ShardName(1, n) in Shards(n);
    assert Pad(1, 5)[4] == '1';
    assert ShardName(1, n)[10] == Pad(1, 5)[4] && ForeignName(one)[10] == one;
  }

  /** A single shard with a foreign digit is accepted, though it is not the shard 1 of 1. */
  lemma ForeignDigitsAreAccepted(digits: Digits, one: char)
    requires IsTable(digits) && digits(one) == Some(1) && one != '1'
    ensures IsWeight(digits, ForeignName(one)) && NamesAccepted(digits, {ForeignName(one)})
    ensures {ForeignName(one)} != {SINGLE} && forall n: nat :: 1 <= n < 100000 ==> {ForeignName(one)} != Shards(n)
  {
    var name := ForeignName(one);
    ForeignShard(digits, one);
    assert IndexOf(digits, name) in Indices(digits, {name});
    assert IsNumbered(digits, {name}, 1);
    NumberedIsAccepted(digits, {name});
    assert name in {name} && SINGLE in {SINGLE};
    forall n: nat | 1 <= n < 100000 ensures {name} != Shards(n) {
      ForeignIsNoShard(one, n);
    }
  }
}
