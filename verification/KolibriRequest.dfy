/**
 Validation of a whole chat request, and the closed loop: a call that the completion parser returns,
 sent back as history with its result, passes the validation that the request passed before.
 */
module KolibriRequest {
  import opened Prelude
  import opened Text
  import opened Utf8
  import opened Json
  import opened JsonRoundTrip
  import opened Kolibri
  import opened KolibriHistory

  /** Whether a float lies between two integers; comparing doubles is left to the caller. */
  type Range = (string, int, int) -> bool

  /** What a server accepts: its alias, its output bound, and whether its model can call functions. */
  datatype Server = Server(fl: FloatReader, range: Range, alias: Points, maxTokens: int, toolCapable: bool)

  datatype Verdict = Valid(request: Request) | RequestInvalid | ModelUnknown | Crashed

  // ---------------------------------------------------------------------------------------------
  // The advertised functions.
  // ---------------------------------------------------------------------------------------------

  predicate FunctionShape(f: Json) {
    && f.Obj?
    && KeySet(f.members)
       <= {PointsOf("name"), PointsOf("description"), PointsOf("parameters"), PointsOf("strict")}
    && ToolName(IdOf(f, PointsOf("name")))
    && Field(f.members, PointsOf("parameters")).Some? && Field(f.members, PointsOf("parameters")).value.Obj?
    && (Field(f.members, PointsOf("description")).Some? ==>
          Field(f.members, PointsOf("description")).value.Str?)
    && (Field(f.members, PointsOf("strict")).Some? ==> Field(f.members, PointsOf("strict")).value.Bool?)
  }

  predicate ToolShape(tool: Json) {
    && tool.Obj? && KeySet(tool.members) == {PointsOf("type"), PointsOf("function")}
    && Field(tool.members, PointsOf("type")) == Some(Str(PointsOf("function")))
    && Field(tool.members, PointsOf("function")).Some?
    && FunctionShape(Field(tool.members, PointsOf("function")).value)
  }

  function AdvertisedName(tool: Json): Points
    requires ToolShape(tool)
  {
    IdOf(Field(tool.members, PointsOf("function")).value, PointsOf("name"))
  }

  predicate DistinctTools(tools: seq<Json>) {
    && (forall i :: 0 <= i < |tools| ==> ToolShape(tools[i]))
    && forall i, j :: 0 <= i < j < |tools| ==> AdvertisedName(tools[i]) != AdvertisedName(tools[j])
  }

  function Names(tools: seq<Json>): (names: set<Points>)
    requires DistinctTools(tools)
    ensures tools == [] ==> names == {}
  {
    set i | 0 <= i < |tools| :: AdvertisedName(tools[i])
  }

  /** The loop over the function inventory. */
  method CollectNames(tools: seq<Json>) returns (names: Option<set<Points>>)
    ensures names == if DistinctTools(tools) then Some(Names(tools)) else None
  {
    var found: set<Points> := {};
    for k := 0 to |tools|
      invariant DistinctTools(tools[..k]) && found == Names(tools[..k])
    {
      assert tools[..k + 1] == tools[..k] + [tools[k]];
      if !ToolShape(tools[k]) || AdvertisedName(tools[k]) in found {
        return None;
      }
      found := found + {AdvertisedName(tools[k])};
    }
    assert tools[..|tools|] == tools;
    return Some(found);
  }

  // ---------------------------------------------------------------------------------------------
  // The other fields.
  // ---------------------------------------------------------------------------------------------

  function FieldOr(body: seq<Member>, key: string, otherwise: Json): Json {
    match Field(body, PointsOf(key))
    case None => otherwise
    case Some(v) => v
  }

  predicate IntegerIn(v: Json, minimum: int, maximum: int) {
    v.Int? && minimum <= v.n <= maximum
  }

  predicate NumberIn(range: Range, v: Json, minimum: int, maximum: int) {
    IntegerIn(v, minimum, maximum) || (v.Float? && range(v.repr, minimum, maximum))
  }

  const REASONING := Obj([Member(PointsOf("reasoning_effort"), Str(PointsOf("none")))])

  /** `True`, `1` and `1.0` are equal in Python. */
  predicate IsIncludeUsage(v: Json) {
    v in {Obj([Member(PointsOf("include_usage"), Bool(true))]),
          Obj([Member(PointsOf("include_usage"), Int(1))]),
          Obj([Member(PointsOf("include_usage"), Float("1.0"))])}
  }

  /** The checks after the history. */
  predicate Options(server: Server, body: seq<Member>) {
    && !(Field(body, PointsOf("max_tokens")).Some? && Field(body, PointsOf("max_completion_tokens")).Some?)
    && IntegerIn(
         FieldOr(body, "max_completion_tokens", FieldOr(body, "max_tokens", Int(server.maxTokens))),
         1, server.maxTokens)
    && FieldOr(body, "stream", Bool(false)).Bool?
    && FieldOr(body, "chat_template_kwargs", REASONING) == REASONING
    && (var usage := FieldOr(body, "stream_options", Null); usage.Null? || IsIncludeUsage(usage))
    && NumberIn(server.range, FieldOr(body, "temperature", Int(1)), 0, 2)
    && NumberIn(server.range, FieldOr(body, "top_p", Int(1)), 0, 1)
    && IntegerIn(FieldOr(body, "top_k", Int(128)), 0, 1024)
  }

  function ChoiceOf(body: seq<Member>, anyTools: bool): Option<Choice> {
    var choice := FieldOr(body, "tool_choice", Str(PointsOf(if anyTools then "auto" else "none")));
    if choice == Str(PointsOf("auto")) then Some(Auto)
    else if choice == Str(PointsOf("none")) then Some(Disabled)
    else if choice == Str(PointsOf("required")) && anyTools then Some(Required)
    else None
  }

  function AllowedFields(): set<Points> {
    {PointsOf("model"), PointsOf("messages"), PointsOf("stream"), PointsOf("max_tokens"),
     PointsOf("max_completion_tokens"), PointsOf("temperature"), PointsOf("top_p"), PointsOf("top_k"),
     PointsOf("stream_options"), PointsOf("chat_template_kwargs"), PointsOf("tools"),
     PointsOf("tool_choice"), PointsOf("parallel_tool_calls")}
  }

  function Messages(body: seq<Member>): Json {
    FieldOr(body, "messages", Null)
  }

  function Tools(body: seq<Member>): Json {
    FieldOr(body, "tools", Arr([]))
  }

  /** The inventory as a whole. */
  predicate ToolsAccepted(server: Server, tools: Json) {
    && tools.Arr? && |tools.items| <= MAX_TOOLS && (tools.items != [] ==> server.toolCapable)
    && DistinctTools(tools.items)
  }

  /** `validate_request` */
  function ValidateRequest(server: Server, body: Json): Verdict {
    if !body.Obj? || !(KeySet(body.members) <= AllowedFields()) then RequestInvalid
    else if FieldOr(body.members, "model", Null) != Str(server.alias) then ModelUnknown
    else
      var messages, tools := Messages(body.members), Tools(body.members);
      if !messages.Arr? || messages.items == [] || |messages.items| > MAX_MESSAGES then RequestInvalid
      else if !ToolsAccepted(server, tools) then RequestInvalid
      else
        match ChoiceOf(body.members, tools.items != [])
        case None => RequestInvalid
        case Some(choice) =>
          if FieldOr(body.members, "parallel_tool_calls", Bool(false)) != Bool(false) then RequestInvalid
          else
            match CheckHistory(server.fl, messages.items, Names(tools.items), server.toolCapable)
            case Fail(Crash) => Crashed
            case Fail(Invalid) => RequestInvalid
            case Pass =>
              if Options(server, body.members) then Valid(Request(Names(tools.items), choice))
              else RequestInvalid
  }

  method Validate(server: Server, body: Json) returns (verdict: Verdict)
    ensures verdict == ValidateRequest(server, body)
    ensures verdict.Valid? ==>
              && body.Obj? && Messages(body.members).Arr?
              && Settled(Events(Messages(body.members).items))
  {
    if !body.Obj? || !(KeySet(body.members) <= AllowedFields()) {
      return RequestInvalid;
    }
    if FieldOr(body.members, "model", Null) != Str(server.alias) {
      return ModelUnknown;
    }
    var messages, tools := Messages(body.members), Tools(body.members);
    if !messages.Arr? || messages.items == [] || |messages.items| > MAX_MESSAGES {
      return RequestInvalid;
    }
    if !tools.Arr? || |tools.items| > MAX_TOOLS || (tools.items != [] && !server.toolCapable) {
      return RequestInvalid;
    }
    var names := CollectNames(tools.items);
    if names.None? {
      return RequestInvalid;
    }
    var choice := ChoiceOf(body.members, tools.items != []);
    if choice.None? || FieldOr(body.members, "parallel_tool_calls", Bool(false)) != Bool(false) {
      return RequestInvalid;
    }
    var check := WalkHistory(server.fl, messages.items, names.value, server.toolCapable);
    match check {
      case Fail(Crash) => return Crashed;
      case Fail(Invalid) => return RequestInvalid;
      case Pass =>
        if !Options(server, body.members) {
          return RequestInvalid;
        }
        return Valid(Request(names.value, choice.value));
    }
  }

  // ---------------------------------------------------------------------------------------------
  // The two messages that follow a call.
  // ---------------------------------------------------------------------------------------------

  function CallJson(call: ToolCall): Json {
    Obj([Member(PointsOf("id"), Str(PointsOf(call.id))),
         Member(PointsOf("type"), Str(PointsOf("function"))),
         Member(PointsOf("function"), FunctionJson(call))])
  }

  function FunctionJson(call: ToolCall): Json {
    Obj([Member(PointsOf("name"), Str(call.name)),
         Member(PointsOf("arguments"), Str(PointsOf(call.arguments)))])
  }

  function AssistantTurn(content: Points, call: ToolCall): Json {
    Obj([Member(PointsOf("role"), Str(PointsOf("assistant"))),
         Member(PointsOf("content"), Str(content)),
         Member(PointsOf("tool_calls"), Arr([CallJson(call)]))])
  }

  function ResultTurn(content: Points, call: ToolCall): Json {
    Obj([Member(PointsOf("role"), Str(PointsOf("tool"))),
         Member(PointsOf("content"), Str(content)),
         Member(PointsOf("tool_call_id"), Str(PointsOf(call.id)))])
  }

  /** `uuid4().hex` */
  predicate IsUuid(uuid: string) {
    |uuid| == 32 && forall i :: 0 <= i < 32 ==> IsDigit(uuid[i]) || 'a' <= uuid[i] <= 'f'
  }

  lemma CallIdIsName(uuid: string)
    requires IsUuid(uuid)
    ensures ToolName(PointsOf("call_" + uuid))
  {
    var id := "call_" + uuid;
    forall i | 0 <= i < |id| ensures ToolNameChar(PointsOf(id)[i]) {
      if i < 5 {
        assert id[i] == "call_"[i];
      } else {
        assert id[i] == uuid[i - 5];
      }
    }
  }

  lemma ThreeFields(a: Member, b: Member, c: Member, k: Points)
    requires a.key != b.key && a.key != c.key && b.key != c.key
    ensures KeySet([a, b, c]) == {a.key, b.key, c.key}
    ensures Field([a, b, c], k)
         == if k == a.key then Some(a.value) else if k == b.key then Some(b.value)
            else if k == c.key then Some(c.value) else None
  {
    var ms := [a, b, c];
    assert ms[1..] == [b, c];
    TwoFields(b, c, k);
    assert forall m :: m in ms <==> m == a || m in [b, c];
    assert a in ms && b in ms && c in ms;
  }

  lemma TwoFields(a: Member, b: Member, k: Points)
    requires a.key != b.key
    ensures KeySet([a, b]) == {a.key, b.key}
    ensures Field([a, b], k)
         == if k == a.key then Some(a.value) else if k == b.key then Some(b.value) else None
  {
    var ms := [a, b];
    assert ms[1..] == [b] && [b][1..] == [];
    assert Field([b], k) == if b.key == k then Some(b.value) else Field([], k);
    assert a in ms && b in ms;
  }

  /** The arguments that the parser wrote are decoded back to an object. */
  lemma ArgumentsAreAccepted(fl: FloatReader, members: seq<Member>, text: string)
    requires Canonical(fl, Obj(members)) && Write(Obj(members)) == Some(text)
    requires |Encode(text)| <= MAX_ARGUMENT_BYTES
    ensures CheckArguments(fl, Str(PointsOf(text))) == Pass
  {
    CharsRoundTrip(text);
    LoadsOfWrite(fl, Obj(members));
  }

  /** What the parser guarantees of a call that it returns. */
  predicate Returned(fl: FloatReader, call: ToolCall, names: set<Points>) {
    && ToolName(PointsOf(call.id)) && call.name in names
    && CheckArguments(fl, Str(PointsOf(call.arguments))) == Pass
  }

  lemma FieldIsCanonical(fl: FloatReader, members: seq<Member>, key: Points)
    requires (forall m :: m in members ==> Canonical(fl, m.value)) && Field(members, key).Some?
    ensures Canonical(fl, Field(members, key).value)
  {
    if members[0].key != key {
      FieldIsCanonical(fl, members[1..], key);
    }
  }

  lemma ParsedCallIsReturned(
      fl: FloatReader, uuid: string, text: string, finish: FinishReason, request: Request)
    requires ReprRoundTrips(fl) && IsUuid(uuid)
    requires ParseCompletion(fl, uuid, text, finish, request).Accepted?
    requires ParseCompletion(fl, uuid, text, finish, request).completion.Calling?
    ensures Returned(fl, ParseCompletion(fl, uuid, text, finish, request).completion.call, request.names)
    ensures ParseCompletion(fl, uuid, text, finish, request).completion.call.id == "call_" + uuid
  {
    var i := Find(text, OPENING).value;
    var payload := Payload(text, i);
    ValueIsCanonical(fl, payload);
    var v := ParseValue(fl, payload).value;
    FieldIsCanonical(fl, v.members, PointsOf("arguments"));
    var arguments := Field(v.members, PointsOf("arguments")).value;
    CallIdIsName(uuid);
    ArgumentsAreAccepted(fl, arguments.members, Write(arguments).value);
  }

  lemma CallIsAccepted(fl: FloatReader, call: ToolCall, names: set<Points>)
    requires Returned(fl, call, names)
    ensures CheckCall(fl, CallJson(call), names) == Pass && CallId(CallJson(call)) == PointsOf(call.id)
  {
    var members, f := CallJson(call).members, FunctionJson(call).members;
    ThreeFields(members[0], members[1], members[2], PointsOf("id"));
    ThreeFields(members[0], members[1], members[2], PointsOf("type"));
    ThreeFields(members[0], members[1], members[2], PointsOf("function"));
    TwoFields(f[0], f[1], PointsOf("name"));
    TwoFields(f[0], f[1], PointsOf("arguments"));
  }

  lemma AssistantShape(content: Points, call: ToolCall, allow: bool)
    requires allow
    ensures var m := AssistantTurn(content, call);
            && MessageShape(false, m, allow) && CallsOf(m) == [CallJson(call)] && !IsResult(m)
            && Field(m.members, PointsOf("tool_call_id")).None?
  {
    var members := AssistantTurn(content, call).members;
    ThreeFields(members[0], members[1], members[2], PointsOf("role"));
    ThreeFields(members[0], members[1], members[2], PointsOf("content"));
    ThreeFields(members[0], members[1], members[2], PointsOf("tool_calls"));
    ThreeFields(members[0], members[1], members[2], PointsOf("tool_call_id"));
  }

  lemma ResultShape(content: Points, call: ToolCall, allow: bool)
    ensures var m := ResultTurn(content, call);
            && MessageShape(false, m, allow) && CallsOf(m) == [] && IsResult(m)
            && Field(m.members, PointsOf("tool_call_id")) == Some(Str(PointsOf(call.id)))
  {
    var members := ResultTurn(content, call).members;
    ThreeFields(members[0], members[1], members[2], PointsOf("role"));
    ThreeFields(members[0], members[1], members[2], PointsOf("content"));
    ThreeFields(members[0], members[1], members[2], PointsOf("tool_calls"));
    ThreeFields(members[0], members[1], members[2], PointsOf("tool_call_id"));
  }

  lemma OneCall(fl: FloatReader, call: Json, names: set<Points>, ledger: Ledger)
    requires CheckCall(fl, call, names) == Pass && CallId(call) !in ledger.seen
    ensures CheckCalls(fl, [call], names, ledger)
         == Going(Ledger(ledger.seen + {CallId(call)}, ledger.pending + {CallId(call)}))
  {
    assert [call][1..] == [];
  }

  lemma CallIsRecorded(
      fl: FloatReader, content: Points, call: ToolCall, names: set<Points>, ledger: Ledger)
    requires Returned(fl, call, names) && PointsOf(call.id) !in ledger.seen && ledger.pending == {}
    ensures CheckMessage(fl, false, AssistantTurn(content, call), names, true, ledger)
         == Going(Ledger(ledger.seen + {PointsOf(call.id)}, {PointsOf(call.id)}))
  {
    AssistantShape(content, call, true);
    CallIsAccepted(fl, call, names);
    OneCall(fl, CallJson(call), names, ledger);
    assert ledger.pending + {PointsOf(call.id)} == {PointsOf(call.id)};
  }

  lemma ResultIsRecorded(
      fl: FloatReader, answer: Points, call: ToolCall, names: set<Points>, ledger: Ledger)
    requires ledger.pending == {PointsOf(call.id)}
    ensures CheckMessage(fl, false, ResultTurn(answer, call), names, true, ledger)
         == Going(ledger.(pending := {}))
  {
    ResultShape(answer, call, true);
    assert {PointsOf(call.id)} - {PointsOf(call.id)} == {};
  }

  lemma TwoMessages(fl: FloatReader, m: Json, r: Json, names: set<Points>, allow: bool, ledger: Ledger)
    requires CheckMessage(fl, false, m, names, allow, ledger).Going?
    ensures var between := CheckMessage(fl, false, m, names, allow, ledger).ledger;
            CheckMessages(fl, false, [m, r], names, allow, ledger)
            == CheckMessage(fl, false, r, names, allow, between)
  {
    var between := CheckMessage(fl, false, m, names, allow, ledger).ledger;
    assert [m, r][1..] == [r];
    OneMessage(fl, r, names, allow, between);
  }

  lemma OneMessage(fl: FloatReader, m: Json, names: set<Points>, allow: bool, ledger: Ledger)
    ensures CheckMessages(fl, false, [m], names, allow, ledger) == CheckMessage(fl, false, m, names, allow, ledger)
  {
    assert [m][1..] == [];
  }

  /** One call with a fresh identifier and its result leave nothing pending. */
  lemma TurnsAreAccepted(
      fl: FloatReader, content: Points, answer: Points, call: ToolCall, names: set<Points>, ledger: Ledger)
    requires Returned(fl, call, names) && PointsOf(call.id) !in ledger.seen && ledger.pending == {}
    ensures CheckMessages(fl, false, [AssistantTurn(content, call), ResultTurn(answer, call)], names, true, ledger)
         == Going(Ledger(ledger.seen + {PointsOf(call.id)}, {}))
  {
    CallIsRecorded(fl, content, call, names, ledger);
    var between := Ledger(ledger.seen + {PointsOf(call.id)}, {PointsOf(call.id)});
    ResultIsRecorded(fl, answer, call, names, between);
    TwoMessages(fl, AssistantTurn(content, call), ResultTurn(answer, call), names, true, ledger);
  }

  lemma {:induction false} CheckAppend(
      fl: FloatReader, first: bool, a: seq<Json>, b: seq<Json>, names: set<Points>, allow: bool, ledger: Ledger)
    requires a != [] && CheckMessages(fl, first, a, names, allow, ledger).Going?
    ensures CheckMessages(fl, first, a + b, names, allow, ledger)
         == CheckMessages(fl, false, b, names, allow, CheckMessages(fl, first, a, names, allow, ledger).ledger)
  {
    assert (a + b)[0] == a[0] && (a + b)[1..] == a[1..] + b;
    var after := CheckMessage(fl, first, a[0], names, allow, ledger).ledger;
    if |a| == 1 {
      assert a[1..] == [] && [] + b == b;
    } else {
      CheckAppend(fl, false, a[1..], b, names, allow, after);
    }
  }

  /** A finished history stays finished when a fresh call and its result are appended. */
  lemma HistoryGrows(
      fl: FloatReader, messages: seq<Json>, content: Points, answer: Points, call: ToolCall, names: set<Points>)
    requires messages != [] && CheckHistory(fl, messages, names, true) == Pass
    requires Returned(fl, call, names) && Called(PointsOf(call.id)) !in Events(messages)
    ensures CheckHistory(
              fl, messages + [AssistantTurn(content, call), ResultTurn(answer, call)], names, true) == Pass
  {
    MessagesReplay(fl, true, messages, names, true, EMPTY);
    ReplayAccounts(Events(messages));
    var ledger := CheckMessages(fl, true, messages, names, true, EMPTY).ledger;
    CheckAppend(fl, true, messages, [AssistantTurn(content, call), ResultTurn(answer, call)], names, true, EMPTY);
    TurnsAreAccepted(fl, content, answer, call, names, ledger);
  }

  // ---------------------------------------------------------------------------------------------
  // The closed loop.
  // ---------------------------------------------------------------------------------------------

  function Replaced(members: seq<Member>, key: Points, v: Json): seq<Member> {
    if members == [] then []
    else if members[0].key == key then [Member(key, v)] + members[1..]
    else [members[0]] + Replaced(members[1..], key, v)
  }

  lemma {:induction false} FieldOfReplaced(members: seq<Member>, key: Points, v: Json, k: Points)
    ensures Field(Replaced(members, key, v), k)
         == if k == key && Field(members, key).Some? then Some(v) else Field(members, k)
  {
    if members != [] {
      if members[0].key == key {
        ConsTail(Member(key, v), members[1..]);
      } else {
        ConsTail(members[0], Replaced(members[1..], key, v));
        FieldOfReplaced(members[1..], key, v, k);
      }
    }
  }

  lemma {:induction false} KeysOfReplaced(members: seq<Member>, key: Points, v: Json)
    ensures KeySet(Replaced(members, key, v)) == KeySet(members)
  {
    if members != [] {
      HeadTail(members);
      KeysCons(members[0], members[1..]);
      if members[0].key == key {
        KeysCons(Member(key, v), members[1..]);
      } else {
        KeysOfReplaced(members[1..], key, v);
        KeysCons(members[0], Replaced(members[1..], key, v));
      }
    }
  }

  lemma KeysCons(m: Member, others: seq<Member>)
    ensures KeySet([m] + others) == {m.key} + KeySet(others)
  {
    assert forall x :: x in [m] + others <==> x == m || x in others;
    forall key | key in KeySet(others) ensures key in KeySet([m] + others) {
      var x :| x in others && x.key == key;
      assert x in [m] + others;
    }
    assert m in [m] + others;
  }

  /** The body of the next request: the same fields, two more messages. */
  function NextBody(body: seq<Member>, turns: seq<Json>): Json
    requires Messages(body).Arr?
  {
    Obj(Replaced(body, PointsOf("messages"), Arr(Messages(body).items + turns)))
  }

  lemma OtherFieldsStay(body: seq<Member>, v: Json, key: string, otherwise: Json)
    requires |key| != |"messages"|
    ensures FieldOr(Replaced(body, PointsOf("messages"), v), key, otherwise) == FieldOr(body, key, otherwise)
    ensures Field(Replaced(body, PointsOf("messages"), v), PointsOf(key)) == Field(body, PointsOf(key))
  {
    FieldOfReplaced(body, PointsOf("messages"), v, PointsOf(key));
  }

  lemma OptionsStay(server: Server, body: seq<Member>, v: Json)
    ensures Options(server, Replaced(body, PointsOf("messages"), v)) == Options(server, body)
  {
    OtherFieldsStay(body, v, "max_tokens", Int(server.maxTokens));
    OtherFieldsStay(body, v, "max_completion_tokens", FieldOr(body, "max_tokens", Int(server.maxTokens)));
    OtherFieldsStay(body, v, "stream", Bool(false));
    OtherFieldsStay(body, v, "chat_template_kwargs", REASONING);
    OtherFieldsStay(body, v, "stream_options", Null);
    OtherFieldsStay(body, v, "temperature", Int(1));
    OtherFieldsStay(body, v, "top_p", Int(1));
    OtherFieldsStay(body, v, "top_k", Int(128));
  }

  lemma RoutingStays(body: seq<Member>, v: Json, anyTools: bool)
    ensures var next := Replaced(body, PointsOf("messages"), v);
            && FieldOr(next, "model", Null) == FieldOr(body, "model", Null) && Tools(next) == Tools(body)
            && ChoiceOf(next, anyTools) == ChoiceOf(body, anyTools)
            && FieldOr(next, "parallel_tool_calls", Bool(false)) == FieldOr(body, "parallel_tool_calls", Bool(false))
  {
    OtherFieldsStay(body, v, "model", Null);
    OtherFieldsStay(body, v, "tools", Arr([]));
    OtherFieldsStay(body, v, "tool_choice", Str(PointsOf(if anyTools then "auto" else "none")));
    OtherFieldsStay(body, v, "parallel_tool_calls", Bool(false));
  }

  /** The validation of the next request comes down to its longer history. */
  lemma NextIsValid(server: Server, body: seq<Member>, turns: seq<Json>)
    requires ValidateRequest(server, Obj(body)).Valid?
    requires |Messages(body).items + turns| <= MAX_MESSAGES
    requires CheckHistory(
               server.fl, Messages(body).items + turns, Names(Tools(body).items), server.toolCapable) == Pass
    ensures ValidateRequest(server, NextBody(body, turns)) == ValidateRequest(server, Obj(body))
  {
    var v := Arr(Messages(body).items + turns);
    FieldOfReplaced(body, PointsOf("messages"), v, PointsOf("messages"));
    KeysOfReplaced(body, PointsOf("messages"), v);
    RoutingStays(body, v, Tools(body).items != []);
    OptionsStay(server, body, v);
  }

  /** What a valid request is known to hold. */
  lemma ValidParts(server: Server, body: seq<Member>)
    requires ValidateRequest(server, Obj(body)).Valid?
    ensures Messages(body).Arr? && Messages(body).items != []
    ensures Tools(body).Arr? && DistinctTools(Tools(body).items)
    ensures Tools(body).items != [] ==> server.toolCapable
    ensures ValidateRequest(server, Obj(body)).request.names == Names(Tools(body).items)
    ensures CheckHistory(server.fl, Messages(body).items, Names(Tools(body).items), server.toolCapable) == Pass
  {
  }

  /**
   A call that the parser returns for a valid request, appended with one result under the same tool list
   and a fresh identifier, makes a request that is valid again.
   */
  lemma ClosedLoop(
      server: Server, body: seq<Member>, uuid: string, text: string, finish: FinishReason,
      content: Points, answer: Points)
    requires ReprRoundTrips(server.fl) && IsUuid(uuid)
    requires ValidateRequest(server, Obj(body)).Valid? && |Messages(body).items| + 2 <= MAX_MESSAGES
    requires var parse := ParseCompletion(
               server.fl, uuid, text, finish, ValidateRequest(server, Obj(body)).request);
             parse.Accepted? && parse.completion.Calling?
    requires Called(PointsOf("call_" + uuid)) !in Events(Messages(body).items)
    ensures var request := ValidateRequest(server, Obj(body)).request;
            var call := ParseCompletion(server.fl, uuid, text, finish, request).completion.call;
            ValidateRequest(server, NextBody(body, [AssistantTurn(content, call), ResultTurn(answer, call)]))
            == Valid(request)
  {
    var request := ValidateRequest(server, Obj(body)).request;
    var call := ParseCompletion(server.fl, uuid, text, finish, request).completion.call;
    ParsedCallIsReturned(server.fl, uuid, text, finish, request);
    ValidParts(server, body);
    HistoryGrows(server.fl, Messages(body).items, content, answer, call, request.names);
    NextIsValid(server, body, [AssistantTurn(content, call), ResultTurn(answer, call)]);
  }
}
