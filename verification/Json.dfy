/**
 The JSON reader and writer that the runtime relies on: Python's `json` decoder with duplicate fields
 and non-finite constants rejected, and its compact writer with `ensure_ascii` off.

 A decoded string is a sequence of code points, because `\u` escapes can name lone surrogates; a text
 that is read or written is a sequence of `char`, because it is also encoded as UTF-8.
 */
module Json {
  import opened Prelude
  import opened Text

  type Point = p: int | 0 <= p < 0x11_0000 witness 0

  type Points = seq<Point>

  /** A float is kept as its `repr`; `Infinite` is what an overflowing literal decodes to. */
  datatype Json =
    | Null
    | Bool(b: bool)
    | Int(n: int)
    | Float(repr: string)
    | Infinite
    | Str(points: Points)
    | Arr(items: seq<Json>)
    | Obj(members: seq<Member>)

  datatype Member = Member(key: Points, value: Json)

  /** The `repr` of the double that a float literal denotes, or `None` when it overflows. */
  type FloatReader = string -> Option<string>

  datatype Parsed<+T> = Bad | Good(value: T, rest: string)

  function PointsOf(s: string): (r: Points)
    ensures |r| == |s|
  {
    seq(|s|, i requires 0 <= i < |s| => s[i] as int)
  }

  predicate UniqueKeys(members: seq<Member>) {
    forall i, j :: 0 <= i < j < |members| ==> members[i].key != members[j].key
  }

  // ---------------------------------------------------------------------------------------------
  // Strings.
  // ---------------------------------------------------------------------------------------------

  function HexValue(c: char): Option<nat> {
    if '0' <= c <= '9' then Some(c as int - '0' as int)
    else if 'a' <= c <= 'f' then Some(c as int - 'a' as int + 10)
    else if 'A' <= c <= 'F' then Some(c as int - 'A' as int + 10)
    else None
  }

  /** The value of four hexadecimal digits at the start of `s`. */
  function Hex4(s: string): Option<nat> {
    if |s| < 4 then None
    else
      match (HexValue(s[0]), HexValue(s[1]), HexValue(s[2]), HexValue(s[3]))
      case (Some(a), Some(b), Some(c), Some(d)) => Some(0x1000 * a + 0x100 * b + 0x10 * c + d)
      case _ => None
  }

  predicate High(p: int) {
    0xD800 <= p < 0xDC00
  }

  predicate Low(p: int) {
    0xDC00 <= p < 0xE000
  }

  /** The low surrogate escaped at the start of `s`, if there is one. */
  function LowEscape(s: string): Option<nat> {
    if |s| >= 6 && s[0] == '\\' && s[1] == 'u' && Hex4(s[2..]).Some? && Low(Hex4(s[2..]).value)
    then Hex4(s[2..]) else None
  }

  function SimpleEscape(c: char): Option<char> {
    match c
    case '\"' => Some('\"')
    case '\\' => Some('\\')
    case '/' => Some('/')
    case 'b' => Some('\U{0008}')
    case 'f' => Some('\U{000C}')
    case 'n' => Some('\n')
    case 'r' => Some('\r')
    case 't' => Some('\t')
    case _ => None
  }

  /** One character of a string body: a literal character or an escape. */
  function ParseUnit(s: string): (r: Parsed<Point>)
    requires s != []
    ensures r.Good? ==> |r.rest| < |s|
  {
    if s[0] != '\\' then
      if s[0] < ' ' then Bad else Good(s[0] as int, s[1..])
    else if |s| < 2 then Bad
    else if s[1] != 'u' then
      match SimpleEscape(s[1])
      case Some(c) => Good(c as int, s[2..])
      case None => Bad
    else
      match Hex4(s[2..])
      case None => Bad
      case Some(p) =>
        if High(p) && LowEscape(s[6..]).Some? then
          Good(0x1_0000 + 0x400 * (p - 0xD800) + (LowEscape(s[6..]).value - 0xDC00), s[12..])
        else Good(p, s[6..])
  }

  /** The body of a string, after its opening quote. */
  function ParseString(s: string): (r: Parsed<Points>)
    ensures r.Good? ==> |r.rest| < |s|
    decreases |s|
  {
    if s == [] then Bad
    else if s[0] == '\"' then Good([], s[1..])
    else
      match ParseUnit(s)
      case Bad => Bad
      case Good(p, rest) =>
        match ParseString(rest)
        case Bad => Bad
        case Good(points, rest') => Good([p] + points, rest')
  }

  // ---------------------------------------------------------------------------------------------
  // Numbers.
  // ---------------------------------------------------------------------------------------------

  /** How much of a number has been read: sign, integer part, fraction, exponent. */
  datatype NumberState = Start | Minus | Zero | Whole | Point | Fraction | Power | PowerSign | Exponent

  function NextState(q: NumberState, c: char): Option<NumberState> {
    match q
    case Start => if c == '-' then Some(Minus) else IntegerStart(c)
    case Minus => IntegerStart(c)
    case Zero => TailStart(c)
    case Whole => if IsDigit(c) then Some(Whole) else TailStart(c)
    case Point => if IsDigit(c) then Some(Fraction) else None
    case Fraction => if IsDigit(c) then Some(Fraction) else if c == '.' then None else TailStart(c)
    case Power => if c == '+' || c == '-' then Some(PowerSign) else if IsDigit(c) then Some(Exponent) else None
    case PowerSign => if IsDigit(c) then Some(Exponent) else None
    case Exponent => if IsDigit(c) then Some(Exponent) else None
  }

  function IntegerStart(c: char): Option<NumberState> {
    if c == '0' then Some(Zero) else if IsDigit(c) then Some(Whole) else None
  }

  function TailStart(c: char): Option<NumberState> {
    if c == '.' then Some(Point) else if c == 'e' || c == 'E' then Some(Power) else None
  }

  predicate Complete(q: NumberState) {
    q.Zero? || q.Whole? || q.Fraction? || q.Exponent?
  }

  /** The length of the longest number at the start of `s`, when reading goes on from state `q`. */
  function NumberLength(q: NumberState, s: string): (r: Option<nat>)
    ensures r.Some? ==> r.value <= |s|
    ensures r == Some(0) ==> Complete(q)
    decreases |s|
  {
    var longer := if s != [] && NextState(q, s[0]).Some?
                  then NumberLength(NextState(q, s[0]).value, s[1..]) else None;
    match longer
    case Some(n) => Some(n + 1)
    case None => if Complete(q) then Some(0) else None
  }

  /** The interpreter's bound on the digits of an integer conversion. */
  const MAX_INTEGER_DIGITS := 4300

  function Unsigned(token: string): string {
    if token != [] && token[0] == '-' then token[1..] else token
  }

  /** A token of digits only is an integer, refused when it is too long; any other is a float. */
  function TokenValue(fl: FloatReader, token: string): Option<Json> {
    var digits := Unsigned(token);
    if !AllDigits(digits) then Some(match fl(token) case Some(repr) => Float(repr) case None => Infinite)
    else if |digits| > MAX_INTEGER_DIGITS then None
    else
      var n: int := NumeralValue(digits);
      Some(Int(if digits == token then n else -n))
  }

  function ParseNumber(fl: FloatReader, s: string): (r: Parsed<Json>)
    ensures r.Good? ==> |r.rest| < |s|
  {
    match NumberLength(Start, s)
    case None => Bad
    case Some(n) =>
      match TokenValue(fl, s[..n])
      case Some(v) => Good(v, s[n..])
      case None => Bad
  }

  // ---------------------------------------------------------------------------------------------
  // Values.
  // ---------------------------------------------------------------------------------------------

  predicate IsJsonSpace(c: char) {
    c == ' ' || c == '\t' || c == '\n' || c == '\r'
  }

  function SkipSpace(s: string): (r: string)
    ensures |r| <= |s| && (r != [] ==> !IsJsonSpace(r[0]))
  {
    if s != [] && IsJsonSpace(s[0]) then SkipSpace(s[1..]) else s
  }

  predicate StartsWith(s: string, word: string) {
    OccursAt(word, s, 0)
  }

  /** A literal word or a number; `NaN` and the infinities are refused like any other word. */
  function ParseScalar(fl: FloatReader, s: string): (r: Parsed<Json>)
    ensures r.Good? ==> |r.rest| < |s|
  {
    if StartsWith(s, "null") then Good(Null, s[4..])
    else if StartsWith(s, "true") then Good(Bool(true), s[4..])
    else if StartsWith(s, "false") then Good(Bool(false), s[5..])
    else ParseNumber(fl, s)
  }

  /** A value with no space before it. */
  function ParseValue(fl: FloatReader, s: string): (r: Parsed<Json>)
    ensures r.Good? ==> |r.rest| < |s|
    decreases |s|, 0
  {
    if s == [] then Bad
    else if s[0] == '\"' then
      match ParseString(s[1..])
      case Bad => Bad
      case Good(points, rest) => Good(Str(points), rest)
    else if s[0] == '{' then ParseObject(fl, s[1..])
    else if s[0] == '[' then ParseArray(fl, s[1..])
    else ParseScalar(fl, s)
  }

  /** An object after its opening brace; duplicate fields are refused. */
  function ParseObject(fl: FloatReader, s: string): (r: Parsed<Json>)
    ensures r.Good? ==> |r.rest| < |s|
    decreases |s|, 3
  {
    var t := SkipSpace(s);
    if t != [] && t[0] == '}' then Good(Obj([]), t[1..])
    else
      match ParseMembers(fl, t)
      case Bad => Bad
      case Good(members, rest) => if UniqueKeys(members) then Good(Obj(members), rest) else Bad
  }

  /** An array after its opening bracket. */
  function ParseArray(fl: FloatReader, s: string): (r: Parsed<Json>)
    ensures r.Good? ==> |r.rest| < |s|
    decreases |s|, 3
  {
    var t := SkipSpace(s);
    if t != [] && t[0] == ']' then Good(Arr([]), t[1..])
    else
      match ParseItems(fl, t)
      case Bad => Bad
      case Good(items, rest) => Good(Arr(items), rest)
  }

  /** The items of a non-empty array and its closing bracket. */
  function ParseItems(fl: FloatReader, s: string): (r: Parsed<seq<Json>>)
    ensures r.Good? ==> |r.rest| < |s|
    decreases |s|, 1
  {
    match ParseValue(fl, s)
    case Bad => Bad
    case Good(v, rest) =>
      var t := SkipSpace(rest);
      if t == [] then Bad
      else if t[0] == ']' then Good([v], t[1..])
      else if t[0] != ',' then Bad
      else
        match ParseItems(fl, SkipSpace(t[1..]))
        case Bad => Bad
        case Good(items, rest') => Good([v] + items, rest')
  }

  /** A field name and its value. */
  function ParseMember(fl: FloatReader, s: string): (r: Parsed<Member>)
    ensures r.Good? ==> |r.rest| < |s|
    decreases |s|, 1
  {
    if s == [] || s[0] != '\"' then Bad
    else
      match ParseString(s[1..])
      case Bad => Bad
      case Good(key, rest) =>
        var t := SkipSpace(rest);
        if t == [] || t[0] != ':' then Bad
        else
          match ParseValue(fl, SkipSpace(t[1..]))
          case Bad => Bad
          case Good(v, rest') => Good(Member(key, v), rest')
  }

  /** The fields of a non-empty object and its closing brace. */
  function ParseMembers(fl: FloatReader, s: string): (r: Parsed<seq<Member>>)
    ensures r.Good? ==> |r.rest| < |s|
    decreases |s|, 2
  {
    match ParseMember(fl, s)
    case Bad => Bad
    case Good(member, rest) =>
      var t := SkipSpace(rest);
      if t == [] then Bad
      else if t[0] == '}' then Good([member], t[1..])
      else if t[0] != ',' then Bad
      else
        match ParseMembers(fl, SkipSpace(t[1..]))
        case Bad => Bad
        case Good(members, rest') => Good([member] + members, rest')
  }

  /** `json.loads`: one value with optional space around it. */
  function Loads(fl: FloatReader, s: string): Option<Json> {
    match ParseValue(fl, SkipSpace(s))
    case Bad => None
    case Good(v, rest) => if SkipSpace(rest) == [] then Some(v) else None
  }
}
