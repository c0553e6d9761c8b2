/** The strict parser of a finished completion, and when its rejection of a growing text is final. */
module Kolibri {
  import opened Prelude
  import opened Text
  import opened Utf8
  import opened Json
  import opened JsonLocality
  import opened JsonRoundTrip

  const OPENING := "<tool_call>"
  const CLOSING := "</tool_call>"
  const CONTROL_MARKERS: seq<string> :=
    ["<think>", "</think>", OPENING, CLOSING, "<|im_start|>", "<|im_end|>"]
  const MAX_ARGUMENT_BYTES := 64 * 1024

  datatype Choice = Auto | Disabled | Required

  datatype FinishReason = Unfinished | Stop | Length | Other

  /** The advertised function names and the tool choice of a validated request. */
  datatype Request = Request(names: set<Points>, choice: Choice)

  datatype ToolCall = ToolCall(id: string, name: Points, arguments: string)

  datatype Completion = Answer(text: string, finish: FinishReason) | Calling(text: string, call: ToolCall)

  /** `Escaped` is an exception of the writer or the encoder that no handler turns into a contract error. */
  datatype Rejection =
    | Unsupported
    | Contract
    | Incomplete
    | ControlOutput
    | Malformed
    | Envelope
    | Unadvertised
    | TooLarge
    | Escaped

  datatype Parse = Accepted(completion: Completion) | Rejected(reason: Rejection)

  predicate ToolNameChar(p: Point) {
    || 'A' as int <= p <= 'Z' as int || 'a' as int <= p <= 'z' as int || '0' as int <= p <= '9' as int
    || p == '_' as int || p == '.' as int || p == '-' as int
  }

  predicate ToolName(points: Points) {
    1 <= |points| <= 256 && forall i :: 0 <= i < |points| ==> ToolNameChar(points[i])
  }

  predicate HasControl(s: string) {
    exists i :: 0 <= i < |CONTROL_MARKERS| && Find(s, CONTROL_MARKERS[i]).Some?
  }

  /** The value of a field; the decoder has refused duplicates. */
  function Field(members: seq<Member>, key: Points): Option<Json> {
    if members == [] then None
    else if members[0].key == key then Some(members[0].value)
    else Field(members[1..], key)
  }

  function KeySet(members: seq<Member>): set<Points> {
    set m | m in members :: m.key
  }

  predicate HasEnvelope(v: Json) {
    && v.Obj? && KeySet(v.members) == {PointsOf("name"), PointsOf("arguments")}
    && Field(v.members, PointsOf("arguments")).Some?
    && Field(v.members, PointsOf("arguments")).value.Obj?
  }

  /** What remains to be checked once the object is decoded and its envelope is right. */
  function ParseCall(prefix: string, uuid: string, members: seq<Member>, request: Request): Parse {
    match (Field(members, PointsOf("name")), Field(members, PointsOf("arguments")))
    case (Some(Str(name)), Some(arguments)) =>
      if !ToolName(name) || name !in request.names then Rejected(Unadvertised)
      else (
        match Write(arguments)
        case None => Rejected(Escaped)
        case Some(text) =>
          if |Encode(text)| > MAX_ARGUMENT_BYTES then Rejected(TooLarge)
          else Accepted(Calling(RStrip(prefix), ToolCall("call_" + uuid, name, text)))
      )
    case _ => Rejected(Unadvertised)
  }

  /** The decoded object and the text after it. */
  function ParseEnvelope(prefix: string, uuid: string, v: Json, rest: string, request: Request): Parse {
    if Strip(rest) != CLOSING || !HasEnvelope(v) then Rejected(Envelope)
    else ParseCall(prefix, uuid, v.members, request)
  }

  function Payload(text: string, i: nat): string
    requires i + |OPENING| <= |text|
  {
    LStrip(text[i + |OPENING|..])
  }

  function ParseCompletion(
      fl: FloatReader, uuid: string, text: string, finish: FinishReason, request: Request): Parse
  {
    if finish != Stop && finish != Length then Rejected(Unsupported)
    else
      match Find(text, OPENING)
      case None =>
        if HasControl(text) || request.choice.Required? then Rejected(Contract)
        else Accepted(Answer(text, finish))
      case Some(i) =>
        if finish != Stop || request.choice.Disabled? then Rejected(Incomplete)
        else if HasControl(text[..i]) then Rejected(ControlOutput)
        else
          match ParseValue(fl, Payload(text, i))
          case Bad => Rejected(Malformed)
          case Good(v, rest) => ParseEnvelope(text[..i], uuid, v, rest, request)
  }

  // ---------------------------------------------------------------------------------------------
  // Growing texts.
  // ---------------------------------------------------------------------------------------------

  lemma ClosingIsControl(s: string, q: nat)
    requires OccursAt(CLOSING, s, q)
    ensures HasControl(s)
  {
    assert CONTROL_MARKERS[3] == CLOSING;
    assert Find(s, CONTROL_MARKERS[3]).Some?;
  }

  /** An opening tag that starts after a closing tag starts after its end. */
  lemma TagsDoNotOverlap(s: string, q: nat, p: nat)
    requires OccursAt(CLOSING, s, q) && OccursAt(OPENING, s, p) && q <= p
    ensures q + |CLOSING| <= p
  {
    assert s[p] == s[p..p + |OPENING|][0] == '<';
    assert s[p + 1] == s[p..p + |OPENING|][1] == 't';
    assert s[q + 1] == s[q..q + |CLOSING|][1] == '/';
    assert forall j :: q < j < q + |CLOSING| ==> s[j] == s[q..q + |CLOSING|][j - q] != '<';
  }

  /** A closing tag with no opening tag before it spoils every longer text. */
  lemma StrayClosingIsFinal(
      fl: FloatReader, uuid: string, b: string, t: string, finish: FinishReason, request: Request)
    requires Find(b, OPENING).None? && Contains(b, CLOSING)
    ensures ParseCompletion(fl, uuid, b + t, finish, request).Rejected?
  {
    var q: nat :| q <= |b| && OccursAt(CLOSING, b, q);
    OccursInAppend(CLOSING, b, t, q);
    match Find(b + t, OPENING)
    case None => ClosingIsControl(b + t, q);
    case Some(p) =>
      if p + |OPENING| <= |b| {
        OccursInAppend(OPENING, b, t, p);
      }
      TagsDoNotOverlap(b + t, q, p);
      assert (b + t)[..p][q..q + |CLOSING|] == (b + t)[q..q + |CLOSING|];
      ClosingIsControl((b + t)[..p], q);
  }

  // ---------------------------------------------------------------------------------------------
  // When an early rejection is final.
  // ---------------------------------------------------------------------------------------------

  predicate ProperPrefix(s: string, word: string) {
    |s| < |word| && s == word[..|s|]
  }

  lemma StripClosing(spaces: string)
    requires AllSpace(spaces)
    ensures Strip(CLOSING + spaces) == CLOSING
  {
    assert (CLOSING + spaces)[0] == CLOSING[0];
    RStripSpaces(CLOSING, spaces);
  }

  /** A remainder that does not strip to the closing tag can grow into one that does. */
  lemma ClosingCompletes(rest: string)
    requires ProperPrefix(LStrip(rest), CLOSING)
    ensures Strip(rest + CLOSING[|LStrip(rest)|..]) == CLOSING
  {
    var l := LStrip(rest);
    var t := CLOSING[|l|..];
    if l == [] {
      LStripSpaces(rest, t);
      assert LStrip(t) == t;
    } else {
      LStripAppend(rest, t);
      assert l + t == CLOSING;
    }
    StripClosing("");
    assert CLOSING + "" == CLOSING;
  }

  /** A text that reaches past a word, into spaces only, already strips to it. */
  lemma StripsAlready(l: string, t: string, word: string, spaces: string)
    requires l + t == word + spaces && AllSpace(spaces) && |word| <= |l|
    requires word != [] && !IsSpace(word[|word| - 1])
    ensures RStrip(l) == word
  {
    SplitAt(l, t, word, spaces);
    RStripSpaces(word, spaces[..|l| - |word|]);
  }

  lemma SplitAt<T>(l: seq<T>, t: seq<T>, word: seq<T>, spaces: seq<T>)
    requires l + t == word + spaces && |word| <= |l|
    ensures l == word + spaces[..|l| - |word|]
  {
    assert l == (l + t)[..|l|];
    assert (word + spaces)[..|l|] == word + spaces[..|l| - |word|];
  }

  /** ... only if what it has so far is a proper prefix of the closing tag. */
  lemma OnlyPrefixesComplete(rest: string, t: string)
    requires Strip(rest) != CLOSING && Strip(rest + t) == CLOSING
    ensures ProperPrefix(LStrip(rest), CLOSING)
  {
    var l := LStrip(rest);
    if l != [] {
      LStripAppend(rest, t);
      RStripSplits(l + t);
      var spaces := (l + t)[|CLOSING|..];
      assert l + t == CLOSING + spaces;
      if |CLOSING| <= |l| {
        StripsAlready(l, t, CLOSING, spaces);
      } else {
        assert l == (l + t)[..|l|] == CLOSING[..|l|];
      }
    }
  }

  /** The object is whole and valid; only the closing tag after it is still incomplete. */
  predicate Rescuable(fl: FloatReader, uuid: string, b: string, request: Request) {
    match Find(b, OPENING)
    case None => false
    case Some(i) =>
      && !HasControl(b[..i])
      && match ParseValue(fl, Payload(b, i))
         case Bad => false
         case Good(v, rest) =>
           && ProperPrefix(LStrip(rest), CLOSING) && HasEnvelope(v)
           && ParseCall(b[..i], uuid, v.members, request).Accepted?
  }

  /** Appending to a text whose call has begun appends to the decoder's input. */
  lemma PayloadAppend(b: string, t: string, i: nat)
    requires Find(b, OPENING) == Some(i) && Payload(b, i) != []
    ensures Find(b + t, OPENING) == Some(i) && (b + t)[..i] == b[..i]
    ensures Payload(b + t, i) == Payload(b, i) + t
  {
    FindAppend(b, t, OPENING);
    assert (b + t)[i + |OPENING|..] == b[i + |OPENING|..] + t;
    LStripAppend(b[i + |OPENING|..], t);
  }

  lemma DecodedAppend(fl: FloatReader, s: string, t: string)
    requires ParseValue(fl, s).Good? && !IsNumber(ParseValue(fl, s).value)
    ensures ParseValue(fl, s + t) == Good(ParseValue(fl, s).value, ParseValue(fl, s).rest + t)
  {
    var rest := ParseValue(fl, s).rest;
    ValueLocal(fl, s, rest + t);
    Assoc(Consumed(s, rest), rest, t);
  }

  /** A number may grow, but never into an object. */
  lemma NumberStaysNumber(fl: FloatReader, s: string, t: string)
    requires ParseValue(fl, s).Good? && IsNumber(ParseValue(fl, s).value)
    ensures ParseValue(fl, s + t).Good? ==> IsNumber(ParseValue(fl, s + t).value)
  {
    ScalarKind(fl, s);
    assert (s + t)[0] == s[0];
    NumberIsNoWord(fl, s + t);
  }

  lemma ScalarKind(fl: FloatReader, s: string)
    requires ParseValue(fl, s).Good? && IsNumber(ParseValue(fl, s).value)
    ensures s != [] && (s[0] == '-' || IsDigit(s[0]))
  {
    NumberStarts(s);
  }

  /** The rejection of a text that holds a closing tag and fails for another reason than bad JSON. */
  predicate EarlyRejection(fl: FloatReader, uuid: string, b: string, request: Request) {
    && Contains(b, CLOSING) && !request.choice.Disabled?
    && ParseCompletion(fl, uuid, b, Stop, request).Rejected?
    && ParseCompletion(fl, uuid, b, Stop, request).reason != Malformed
  }

  lemma OnlyRescuableTextsRecover(
      fl: FloatReader, uuid: string, b: string, request: Request, t: string, finish: FinishReason)
    requires EarlyRejection(fl, uuid, b, request)
    requires ParseCompletion(fl, uuid, b + t, finish, request).Accepted?
    ensures Rescuable(fl, uuid, b, request)
  {
    if Find(b, OPENING).None? {
      StrayClosingIsFinal(fl, uuid, b, t, finish, request);
    } else {
      var i := Find(b, OPENING).value;
      FindAppend(b, t, OPENING);
      assert (b + t)[..i] == b[..i];
      var payload := Payload(b, i);
      PayloadAppend(b, t, i);
      var v, rest := ParseValue(fl, payload).value, ParseValue(fl, payload).rest;
      if IsNumber(v) {
        NumberStaysNumber(fl, payload, t);
      } else {
        DecodedAppend(fl, payload, t);
        OnlyPrefixesComplete(rest, t);
      }
    }
  }

  lemma RescuableTextsRecover(fl: FloatReader, uuid: string, b: string, request: Request) returns (t: string)
    requires Rescuable(fl, uuid, b, request) && !request.choice.Disabled?
    ensures ParseCompletion(fl, uuid, b + t, Stop, request).Accepted?
  {
    var i := Find(b, OPENING).value;
    var payload := Payload(b, i);
    var rest := ParseValue(fl, payload).rest;
    t := CLOSING[|LStrip(rest)|..];
    PayloadAppend(b, t, i);
    DecodedAppend(fl, payload, t);
    ClosingCompletes(rest);
  }

  /**
   An early rejection loses a call that more text would have completed exactly when the object is
   already whole and valid and the closing tag after it has only begun, possibly not even that.
   */
  lemma EarlyRejectionIsFinal(fl: FloatReader, uuid: string, b: string, request: Request)
    requires EarlyRejection(fl, uuid, b, request)
    ensures (exists t: string, finish: FinishReason ::
               ParseCompletion(fl, uuid, b + t, finish, request).Accepted?)
            <==> Rescuable(fl, uuid, b, request)
  {
    if t: string, finish: FinishReason :| ParseCompletion(fl, uuid, b + t, finish, request).Accepted? {
      OnlyRescuableTextsRecover(fl, uuid, b, request, t, finish);
    }
    if Rescuable(fl, uuid, b, request) {
      var t := RescuableTextsRecover(fl, uuid, b, request);
    }
  }
}
