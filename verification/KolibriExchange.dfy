/** A whole exchange: a request with tools, the generation that calls one of them, and the next request. */
module KolibriExchange {
  import opened Prelude
  import opened Text
  import opened Utf8
  import opened Json
  import opened JsonRoundTrip
  import opened Kolibri
  import opened KolibriStream
  import opened KolibriGrammar
  import opened KolibriRuntimes
  import opened KolibriHistory
  import opened KolibriRequest
  import opened KolibriFields
  import KolibriWitness

  // ---------------------------------------------------------------------------------------------
  // From the request to the call.
  // ---------------------------------------------------------------------------------------------

  /** The stream is stopped on calls when the model can call, tools are offered and calls are not disabled. */
  function SetupOf(server: Server, uuid: string, request: Request): Setup {
    Setup(server.fl, uuid, request, server.toolCapable && request.names != {} && !request.choice.Disabled?)
  }

  lemma CallHoldsClosing(fl: FloatReader, p: Pieces, text: string, members: seq<Member>)
    requires IsCallText(fl, p, text, members)
    ensures Find(text, CLOSING).Some?
  {
    var head := p.prefix + (OPENING + (p.lead + (p.body + p.gap)));
    assert text == head + (CLOSING + p.trail);
    assert text[|head|..|head| + |CLOSING|] == CLOSING;
    assert OccursAt(CLOSING, text, |head|);
  }

  /** A call that arrives whole stops the stream. */
  lemma WholeCallStops(setup: Setup, p: Pieces, text: string, members: seq<Member>, chunks: seq<string>)
    requires setup.stops && !setup.request.choice.Disabled? && |Encode(text)| <= MAX_RESPONSE_BYTES
    requires IsCallText(setup.fl, p, text, members) && IsGoodCall(members, setup.request)
    requires chunks != [] && chunks[0] == text
    ensures FastLoop(setup, chunks, 0)
         == Stopped(1, Calling(RStrip(p.prefix), CallOf(setup.uuid, members, setup.request)))
  {
    assert chunks[..0] == [];
    assert "" + text == text;
    CallHoldsClosing(setup.fl, p, text, members);
    WrittenCallIsReturned(setup.fl, setup.uuid, p, text, members, setup.request);
  }

  /**
   A valid request that advertises functions and says nothing about the choice: when the model writes a
   good call as its first part and counts its tokens properly, the request is completed with that call,
   whether generation has ended by then or not.
   */
  lemma OfferedCallIsCompleted(
      server: Server, body: seq<Member>, uuid: string, p: Pieces, text: string, members: seq<Member>,
      generation: Generation, prompt: nat, maxTokens: nat, generated: int)
    requires ValidateRequest(server, Obj(body)).Valid? && Advertises(body) && IsAbsent(body, "tool_choice")
    requires var request := ValidateRequest(server, Obj(body)).request;
             IsCallText(server.fl, p, text, members) && IsGoodCall(members, request)
    requires |Encode(text)| <= MAX_RESPONSE_BYTES && CountsFit(generation, 1, prompt, maxTokens, generated)
    requires generation.parts[0].text == text && generation.parts[0].finish != Other
    ensures var request := ValidateRequest(server, Obj(body)).request;
            && request.choice == Auto
            && Succeeds(SetupOf(server, uuid, request), generation, prompt, maxTokens,
                        Calling(RStrip(p.prefix), CallOf(uuid, members, request)), generated)
  {
    var request := ValidateRequest(server, Obj(body)).request;
    VerdictOfChecks(server, body, request);
    ListsOfPassing(server, body);
    ChoiceFromField(body, request.choice);
    var setup := SetupOf(server, uuid, request);
    assert request.names != {};
    WholeCallStops(setup, p, text, members, Texts(generation.parts));
    assert StoppedOnCall(setup, generation, 1, Calling(RStrip(p.prefix), CallOf(uuid, members, request)));
  }

  // ---------------------------------------------------------------------------------------------
  // One exchange, spelled out.
  // ---------------------------------------------------------------------------------------------

  const LOOKUP := Obj([Member(PointsOf("name"), Word("lookup")), Member(PointsOf("parameters"), Obj([]))])
  const TOOL := Obj([Member(PointsOf("type"), Word("function")), Member(PointsOf("function"), LOOKUP)])
  const QUESTION := Obj([Member(PointsOf("role"), Word("user")), Member(PointsOf("content"), Word("Which one?"))])

  /** The alias, one message and one function. */
  function BodyOf(alias: Points): seq<Member> {
    [Member(PointsOf("model"), Str(alias)), Member(PointsOf("messages"), Arr([QUESTION])),
     Member(PointsOf("tools"), Arr([TOOL]))]
  }

  lemma LookupIsTool()
    ensures ToolShape(TOOL) && IsNamed(TOOL, PointsOf("lookup"))
  {
    assert |"type"| != |"function"| && |"name"| != |"parameters"| && |"description"| != |"strict"|;
    TwoFields(TOOL.members[0], TOOL.members[1], PointsOf("type"));
    TwoFields(TOOL.members[0], TOOL.members[1], PointsOf("function"));
    LookupIsFunction();
  }

  lemma LookupIsFunction()
    ensures FunctionShape(LOOKUP) && Says(LOOKUP.members, "name", Word("lookup"))
  {
    var name, parameters := LOOKUP.members[0], LOOKUP.members[1];
    assert |"name"| == 4 && |"parameters"| == 10 && |"description"| == 11 && |"strict"| == 6;
    TwoFields(name, parameters, PointsOf("name"));
    TwoFields(name, parameters, PointsOf("parameters"));
    TwoFields(name, parameters, PointsOf("description"));
    TwoFields(name, parameters, PointsOf("strict"));
    assert forall i :: 0 <= i < 6 ==> ToolNameChar(PointsOf("lookup")[i]);
  }

  lemma QuestionIsRight(fl: FloatReader, names: set<Points>, allow: bool)
    ensures WellFormed(fl, true, QUESTION, names, allow) && Events([QUESTION]) == []
  {
    var role, content := QUESTION.members[0], QUESTION.members[1];
    assert |"role"| == 4 && |"content"| == 7 && |"tool_calls"| == 10 && |"tool_call_id"| == 12;
    TwoFields(role, content, PointsOf("role"));
    TwoFields(role, content, PointsOf("content"));
    TwoFields(role, content, PointsOf("tool_calls"));
    TwoFields(role, content, PointsOf("tool_call_id"));
    assert PointsOf("user")[0] != PointsOf("tool")[0] && |"user"| != |"system"|;
    assert [QUESTION][1..] == [];
  }

  lemma BodyFields(alias: Points)
    ensures var body := BodyOf(alias);
            && UniqueKeys(body) && Says(body, "model", Str(alias))
            && Says(body, "messages", Arr([QUESTION])) && Says(body, "tools", Arr([TOOL]))
            && IsAbsent(body, "tool_choice") && IsAbsent(body, "max_tokens")
  {
    var model, messages, tools := BodyOf(alias)[0], BodyOf(alias)[1], BodyOf(alias)[2];
    assert |"model"| == 5 && |"messages"| == 8 && |"tool_choice"| == 11 && |"max_tokens"| == 10;
    assert PointsOf("model")[0] != PointsOf("tools")[0];
    ThreeFields(model, messages, tools, PointsOf("model"));
    ThreeFields(model, messages, tools, PointsOf("messages"));
    ThreeFields(model, messages, tools, PointsOf("tools"));
    ThreeFields(model, messages, tools, PointsOf("tool_choice"));
    ThreeFields(model, messages, tools, PointsOf("max_tokens"));
  }

  lemma BodyIsRequest(server: Server)
    requires server.toolCapable && 1 <= server.maxTokens
    ensures IsRequest(server, BodyOf(server.alias))
  {
    var body := BodyOf(server.alias);
    BodyFields(server.alias);
    LookupIsTool();
    forall m | m in body ensures FieldAllowed(server, m) {
      NoOtherRule(server, m);
    }
    assert |"required"| == 8;
  }

  /** A field with the alias, the messages or the tools is subject to one rule only. */
  lemma NoOtherRule(server: Server, m: Member)
    requires m in BodyOf(server.alias) && server.toolCapable && ToolShape(TOOL)
    ensures FieldAllowed(server, m)
  {
    assert |"model"| == 5 && |"messages"| == 8 && |"tools"| == 5 && |"tool_choice"| == 11 && |"stream"| == 6;
    assert PointsOf("model")[0] != PointsOf("tools")[0] && PointsOf("model")[0] != PointsOf("top_p")[0];
    assert PointsOf("tools")[2] != PointsOf("top_p")[2] && PointsOf("tools")[2] != PointsOf("top_k")[2];
  }

  lemma OnlyLookup(alias: Points)
    ensures NamesAreAdvertised(BodyOf(alias), {PointsOf("lookup")})
  {
    BodyFields(alias);
    LookupIsTool();
    var tools, names := ToolList(BodyOf(alias)), {PointsOf("lookup")};
    assert tools == [TOOL];
    forall name
      ensures name in names <==> exists i :: 0 <= i < |tools| && IsNamed(tools[i], name)
    {
      assert IsNamed(TOOL, name) <==> name == PointsOf("lookup");
      assert IsNamed(tools[0], name) <==> IsNamed(TOOL, name);
    }
  }

  /** The request is valid, advertises the function and leaves the choice to the model. */
  lemma BodyIsValid(server: Server)
    requires server.toolCapable && 1 <= server.maxTokens
    ensures ValidateRequest(server, Obj(BodyOf(server.alias))) == Valid(Request({PointsOf("lookup")}, Auto))
  {
    var body := BodyOf(server.alias);
    var request := Request({PointsOf("lookup")}, Auto);
    BodyIsRequest(server);
    BodyFields(server.alias);
    LookupIsTool();
    QuestionIsRight(server.fl, request.names, server.toolCapable);
    assert IsPairing([], map[]);
    OnlyLookup(server.alias);
    assert MessageList(body) == [QUESTION];
    assert HistoryIsRight(server, body, request.names);
    ValidByFields(server, body, request);
  }

  /** What the model writes: a call whose argument happens to hold a closing tag. */
  function CallText(): string
    requires Write(KolibriWitness.CALL).Some?
  {
    Written(Pieces("", "", Write(KolibriWitness.CALL).value, "", ""))
  }

  lemma CallTextIsGood(server: Server, uuid: string)
    ensures Write(KolibriWitness.CALL).Some? && |Encode(CallText())| <= MAX_RESPONSE_BYTES
    ensures IsCallText(server.fl, Pieces("", "", Write(KolibriWitness.CALL).value, "", ""), CallText(),
                       KolibriWitness.CALL.members)
    ensures IsGoodCall(KolibriWitness.CALL.members, Request({PointsOf("lookup")}, Auto))
  {
    KolibriWitness.CallText();
    var body := Write(KolibriWitness.CALL).value;
    KolibriWitness.CallIsCanonical(server.fl);
    ValueRoundTrip(server.fl, KolibriWitness.CALL, "");
    assert body + "" == body;
    KolibriWitness.EmptyHasNoControl();
    KolibriWitness.EncodeBound(CallText());
    KolibriWitness.CallIsAdvertised(server.fl, uuid);
    GoodCallIsReturned("", uuid, KolibriWitness.CALL.members, Request({PointsOf("lookup")}, Auto));
  }

  const OFFER := Request({PointsOf("lookup")}, Auto)

  /** The call that the text stands for. */
  function LookupCall(uuid: string): ToolCall
    requires IsGoodCall(KolibriWitness.CALL.members, OFFER)
  {
    CallOf(uuid, KolibriWitness.CALL.members, OFFER)
  }

  /** One part, which has not ended the generation; asking for another would raise. */
  function OnePart(prompt: nat, generated: int): Generation
    requires Write(KolibriWitness.CALL).Some?
  {
    Generation([Part(CallText(), Unfinished, Some(prompt), Some(generated))], true)
  }

  /**
   On every server whose model can call: a generation that is stopped on the call before it has ended
   completes the request with that call.
   */
  lemma ExchangeSucceeds(server: Server, uuid: string, prompt: nat, maxTokens: nat, generated: nat)
    requires server.toolCapable && 1 <= server.maxTokens && 0 < generated <= maxTokens
    ensures Write(KolibriWitness.CALL).Some? && IsGoodCall(KolibriWitness.CALL.members, OFFER)
    ensures ValidateRequest(server, Obj(BodyOf(server.alias))) == Valid(OFFER)
    ensures Succeeds(SetupOf(server, uuid, OFFER), OnePart(prompt, generated), prompt, maxTokens,
                     Calling("", LookupCall(uuid)), generated)
  {
    BodyIsOffer(server);
    CallTextIsGood(server, uuid);
    OnePartFits(prompt, maxTokens, generated);
    LookupIsCompleted(
      server, BodyOf(server.alias), uuid, OnePart(prompt, generated), prompt, maxTokens, generated);
  }

  lemma BodyIsOffer(server: Server)
    requires server.toolCapable && 1 <= server.maxTokens
    ensures ValidateRequest(server, Obj(BodyOf(server.alias))) == Valid(OFFER)
    ensures Advertises(BodyOf(server.alias)) && IsAbsent(BodyOf(server.alias), "tool_choice")
  {
    BodyIsValid(server);
    BodyFields(server.alias);
  }

  lemma OnePartFits(prompt: nat, maxTokens: nat, generated: nat)
    requires 0 < generated <= maxTokens && Write(KolibriWitness.CALL).Some?
    ensures var generation := OnePart(prompt, generated);
            && CountsFit(generation, 1, prompt, maxTokens, generated)
            && generation.parts[0].text == CallText() && generation.parts[0].finish != Other
  {
  }

  /** Any valid request with that offer and no choice would do. */
  lemma LookupIsCompleted(
      server: Server, body: seq<Member>, uuid: string, generation: Generation, prompt: nat, maxTokens: nat,
      generated: int)
    requires ValidateRequest(server, Obj(body)) == Valid(OFFER) && Advertises(body) && IsAbsent(body, "tool_choice")
    requires Write(KolibriWitness.CALL).Some? && CountsFit(generation, 1, prompt, maxTokens, generated)
    requires generation.parts[0].text == CallText() && generation.parts[0].finish != Other
    ensures IsGoodCall(KolibriWitness.CALL.members, OFFER)
    ensures Succeeds(SetupOf(server, uuid, OFFER), generation, prompt, maxTokens,
                     Calling("", LookupCall(uuid)), generated)
  {
    CallTextIsGood(server, uuid);
    OfferedCallIsCompleted(
      server, body, uuid, Pieces("", "", Write(KolibriWitness.CALL).value, "", ""), CallText(),
      KolibriWitness.CALL.members, generation, prompt, maxTokens, generated);
  }

  /** And the next request, with the call and its result, is valid. */
  lemma ExchangeContinues(server: Server, uuid: string, answer: Points)
    requires server.toolCapable && 1 <= server.maxTokens && ReprRoundTrips(server.fl) && IsUuid(uuid)
    ensures IsGoodCall(KolibriWitness.CALL.members, OFFER) && Messages(BodyOf(server.alias)).Arr?
    ensures var turns := [AssistantTurn([], LookupCall(uuid)), ResultTurn(answer, LookupCall(uuid))];
            ValidateRequest(server, NextBody(BodyOf(server.alias), turns)) == Valid(OFFER)
  {
    BodyIsValid(server);
    BodyFields(server.alias);
    CallTextIsGood(server, uuid);
    WrittenCallIsReturned(
      server.fl, uuid, Pieces("", "", Write(KolibriWitness.CALL).value, "", ""), CallText(),
      KolibriWitness.CALL.members, OFFER);
    QuestionIsRight(server.fl, {}, true);
    ClosedLoop(server, BodyOf(server.alias), uuid, CallText(), Stop, [], answer);
  }
}
