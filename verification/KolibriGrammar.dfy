/** Which texts are calls: the strict parser against a grammar that does not mention how it works. */
module KolibriGrammar {
  import opened Prelude
  import opened Text
  import opened Utf8
  import opened Json
  import opened JsonLocality
  import opened JsonRoundTrip
  import opened Kolibri

  /** The parts of a call text: what comes before the tag, and the spaces around the object and the tags. */
  datatype Pieces = Pieces(prefix: string, lead: string, body: string, gap: string, trail: string)

  function Remainder(p: Pieces): string {
    p.gap + ("</tool_call>" + p.trail)
  }

  function Written(p: Pieces): string {
    p.prefix + ("<tool_call>" + (p.lead + (p.body + Remainder(p))))
  }

  /** No control marker, the opening tag, one object, the closing tag, and spaces only in between. */
  predicate IsCallText(fl: FloatReader, p: Pieces, text: string, members: seq<Member>) {
    && text == Written(p) && !HasControl(p.prefix)
    && AllSpace(p.lead) && AllSpace(p.gap) && AllSpace(p.trail)
    && ParseValue(fl, p.body) == Good(Obj(members), "")
  }

  /** An advertised function and arguments that can be written within the bound, and nothing else. */
  predicate IsGoodCall(members: seq<Member>, request: Request) {
    && HasEnvelope(Obj(members))
    && (match Field(members, PointsOf("name"))
        case Some(Str(name)) => ToolName(name) && name in request.names
        case _ => false)
    && (var arguments := Write(Field(members, PointsOf("arguments")).value);
        arguments.Some? && |Encode(arguments.value)| <= 65536)
  }

  function CallOf(uuid: string, members: seq<Member>, request: Request): ToolCall
    requires IsGoodCall(members, request)
  {
    ToolCall("call_" + uuid, Field(members, PointsOf("name")).value.points,
             Write(Field(members, PointsOf("arguments")).value).value)
  }

  // ---------------------------------------------------------------------------------------------
  // Spaces and tags.
  // ---------------------------------------------------------------------------------------------

  lemma {:induction false} SpacesAreStripped(s: string)
    requires AllSpace(s)
    ensures LStrip(s) == ""
  {
    if s != "" {
      SpacesAreStripped(s[1..]);
    }
  }

  /** Only leading whitespace is removed. */
  lemma {:induction false} LStripSplits(s: string) returns (lead: string)
    ensures s == lead + LStrip(s) && AllSpace(lead)
  {
    lead := "";
    if s != "" && IsSpace(s[0]) {
      var others := LStripSplits(s[1..]);
      HeadTail(s);
      Assoc([s[0]], others, LStrip(s));
      lead := [s[0]] + others;
    }
  }

  lemma NoTagInside(prefix: string, after: string, j: nat)
    requires OccursAt(OPENING, prefix + (OPENING + after), j) && j < |prefix|
    ensures j + |OPENING| <= |prefix|
  {
    var text := prefix + (OPENING + after);
    assert text[|prefix|] == OPENING[0] == '<';
    assert forall m :: j < m < j + |OPENING| ==> text[m] == text[j..j + |OPENING|][m - j] != '<';
  }

  lemma FirstTag(prefix: string, after: string)
    requires !HasControl(prefix)
    ensures Find(prefix + (OPENING + after), OPENING) == Some(|prefix|)
  {
    var text := prefix + (OPENING + after);
    assert text[|prefix|..|prefix| + |OPENING|] == OPENING;
    assert OccursAt(OPENING, text, |prefix|);
    assert CONTROL_MARKERS[2] == OPENING;
    var i := Find(text, OPENING).value;
    if i < |prefix| {
      NoTagInside(prefix, after, i);
      OccursInAppend(OPENING, prefix, OPENING + after, i);
      assert false;
    }
  }

  lemma ObjectStarts(fl: FloatReader, s: string)
    requires ParseValue(fl, s).Good? && ParseValue(fl, s).value.Obj?
    ensures s != "" && s[0] == '{'
  {
  }

  // ---------------------------------------------------------------------------------------------
  // Texts of the grammar are parsed as they are written.
  // ---------------------------------------------------------------------------------------------

  lemma RemainderStrips(p: Pieces)
    requires AllSpace(p.gap) && AllSpace(p.trail)
    ensures Strip(Remainder(p)) == CLOSING
  {
    SpacesAreStripped(p.gap);
    LStripSpaces(p.gap, CLOSING + p.trail);
    assert (CLOSING + p.trail)[0] == '<';
    StripClosing(p.trail);
  }

  lemma PayloadOf(fl: FloatReader, p: Pieces, text: string, members: seq<Member>)
    requires IsCallText(fl, p, text, members)
    ensures Find(text, OPENING) == Some(|p.prefix|) && text[..|p.prefix|] == p.prefix
    ensures Payload(text, |p.prefix|) == p.body + Remainder(p)
  {
    var after := p.lead + (p.body + Remainder(p));
    FirstTag(p.prefix, after);
    assert text[|p.prefix| + |OPENING|..] == after;
    ObjectStarts(fl, p.body);
    SpacesAreStripped(p.lead);
    LStripSpaces(p.lead, p.body + Remainder(p));
    assert (p.body + Remainder(p))[0] == '{';
  }

  lemma WrittenIsParsed(
      fl: FloatReader, uuid: string, p: Pieces, text: string, members: seq<Member>, request: Request)
    requires IsCallText(fl, p, text, members) && !request.choice.Disabled?
    ensures ParseCompletion(fl, uuid, text, Stop, request)
         == ParseEnvelope(p.prefix, uuid, Obj(members), Remainder(p), request)
  {
    PayloadOf(fl, p, text, members);
    ValueLocal(fl, p.body, Remainder(p));
    assert Consumed(p.body, "") == p.body;
  }

  lemma GoodCallIsReturned(prefix: string, uuid: string, members: seq<Member>, request: Request)
    ensures HasEnvelope(Obj(members)) && ParseCall(prefix, uuid, members, request).Accepted?
            <==> IsGoodCall(members, request)
    ensures IsGoodCall(members, request) ==>
              ParseCall(prefix, uuid, members, request)
              == Accepted(Calling(RStrip(prefix), CallOf(uuid, members, request)))
  {
  }

  // ---------------------------------------------------------------------------------------------
  // Accepted calls are texts of the grammar.
  // ---------------------------------------------------------------------------------------------

  lemma RemainderSplits(rest: string) returns (gap: string, trail: string)
    requires Strip(rest) == CLOSING
    ensures rest == gap + (CLOSING + trail) && AllSpace(gap) && AllSpace(trail)
  {
    var l := LStrip(rest);
    gap := LStripSplits(rest);
    RStripSplits(l);
    trail := l[|RStrip(l)|..];
    assert l == l[..|RStrip(l)|] + trail;
  }

  lemma BodyOf(fl: FloatReader, payload: string) returns (body: string)
    requires ParseValue(fl, payload).Good? && ParseValue(fl, payload).value.Obj?
    ensures payload == body + ParseValue(fl, payload).rest
    ensures ParseValue(fl, body) == Good(ParseValue(fl, payload).value, "")
  {
    body := Consumed(payload, ParseValue(fl, payload).rest);
    ValueLocal(fl, payload, "");
    assert body + "" == body;
  }

  lemma Reassembled(text: string, i: nat, lead: string, body: string, rest: string, gap: string, trail: string)
    requires OccursAt(OPENING, text, i) && text[i + |OPENING|..] == lead + (body + rest)
    requires rest == gap + (CLOSING + trail)
    ensures text == Written(Pieces(text[..i], lead, body, gap, trail))
  {
    assert text == text[..i] + (text[i..i + |OPENING|] + text[i + |OPENING|..]);
  }

  /** What an accepted call tells about its text. */
  lemma CallFacts(fl: FloatReader, uuid: string, text: string, finish: FinishReason, request: Request) returns (i: nat)
    requires ParseCompletion(fl, uuid, text, finish, request).Accepted?
    requires ParseCompletion(fl, uuid, text, finish, request).completion.Calling?
    ensures finish == Stop && !request.choice.Disabled? && OccursAt(OPENING, text, i) && !HasControl(text[..i])
    ensures var r := ParseValue(fl, Payload(text, i));
            && r.Good? && r.value.Obj? && Strip(r.rest) == CLOSING && HasEnvelope(r.value)
            && ParseCall(text[..i], uuid, r.value.members, request).Accepted?
  {
    i := Find(text, OPENING).value;
  }

  lemma ParsedIsWritten(
      fl: FloatReader, uuid: string, text: string, finish: FinishReason, request: Request)
    returns (p: Pieces, members: seq<Member>)
    requires ParseCompletion(fl, uuid, text, finish, request).Accepted?
    requires ParseCompletion(fl, uuid, text, finish, request).completion.Calling?
    ensures finish == Stop && !request.choice.Disabled?
    ensures IsCallText(fl, p, text, members) && IsGoodCall(members, request)
  {
    var i := CallFacts(fl, uuid, text, finish, request);
    var payload := Payload(text, i);
    var rest := ParseValue(fl, payload).rest;
    members := ParseValue(fl, payload).value.members;
    var lead := LStripSplits(text[i + |OPENING|..]);
    var body := BodyOf(fl, payload);
    var gap, trail := RemainderSplits(rest);
    Reassembled(text, i, lead, body, rest, gap, trail);
    p := Pieces(text[..i], lead, body, gap, trail);
    GoodCallIsReturned(text[..i], uuid, members, request);
  }

  /**
   A finished text is returned as a call exactly when it is written in the grammar and names an
   advertised function with bounded arguments; the call is the one that is written there.
   */
  lemma CallGrammar(fl: FloatReader, uuid: string, text: string, finish: FinishReason, request: Request)
    ensures var parse := ParseCompletion(fl, uuid, text, finish, request);
            parse.Accepted? && parse.completion.Calling?
            <==> finish == Stop && !request.choice.Disabled?
                 && exists p, members :: IsCallText(fl, p, text, members) && IsGoodCall(members, request)
  {
    var parse := ParseCompletion(fl, uuid, text, finish, request);
    if parse.Accepted? && parse.completion.Calling? {
      var p, members := ParsedIsWritten(fl, uuid, text, finish, request);
    }
    if finish == Stop && !request.choice.Disabled? {
      forall p, members | IsCallText(fl, p, text, members) && IsGoodCall(members, request)
        ensures parse == Accepted(Calling(RStrip(p.prefix), CallOf(uuid, members, request)))
      {
        WrittenCallIsReturned(fl, uuid, p, text, members, request);
      }
    }
  }

  lemma WrittenCallIsReturned(
      fl: FloatReader, uuid: string, p: Pieces, text: string, members: seq<Member>, request: Request)
    requires IsCallText(fl, p, text, members) && IsGoodCall(members, request) && !request.choice.Disabled?
    ensures ParseCompletion(fl, uuid, text, Stop, request)
         == Accepted(Calling(RStrip(p.prefix), CallOf(uuid, members, request)))
  {
    WrittenIsParsed(fl, uuid, p, text, members, request);
    RemainderStrips(p);
    GoodCallIsReturned(p.prefix, uuid, members, request);
  }

  /** Everything else that is accepted is a plain answer: no marker at all, and no call demanded. */
  lemma AnswerGrammar(fl: FloatReader, uuid: string, text: string, finish: FinishReason, request: Request)
    ensures ParseCompletion(fl, uuid, text, finish, request) == Accepted(Answer(text, finish))
            <==> (finish == Stop || finish == Length) && !HasControl(text) && !request.choice.Required?
  {
    assert CONTROL_MARKERS[2] == OPENING;
    if Find(text, OPENING).Some? {
      assert HasControl(text);
    }
  }

  /** The control markers are these six, wherever they stand. */
  lemma ControlMeans(s: string)
    ensures HasControl(s) <==>
              || Contains(s, "<think>") || Contains(s, "</think>") || Contains(s, "<tool_call>")
              || Contains(s, "</tool_call>") || Contains(s, "<|im_start|>") || Contains(s, "<|im_end|>")
  {
    assert forall i :: 0 <= i < 6 ==> (Contains(s, CONTROL_MARKERS[i]) <==> Find(s, CONTROL_MARKERS[i]).Some?);
    assert CONTROL_MARKERS[0] == "<think>" && CONTROL_MARKERS[1] == "</think>" && CONTROL_MARKERS[2] == "<tool_call>";
    assert CONTROL_MARKERS[3] == "</tool_call>" && CONTROL_MARKERS[4] == "<|im_start|>";
    assert CONTROL_MARKERS[5] == "<|im_end|>";
  }
}
