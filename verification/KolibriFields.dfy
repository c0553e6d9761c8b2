/**
 What a valid request is, field by field: every field that is present is right by itself, two fields must
 be there, and three rules connect fields. Absent fields have their documented meaning.
 */
module KolibriFields {
  import opened Prelude
  import opened Json
  import opened Kolibri
  import opened KolibriHistory
  import opened KolibriRequest

  /** The value of a field that is present. */
  predicate Says(body: seq<Member>, key: string, v: Json) {
    Field(body, PointsOf(key)) == Some(v)
  }

  predicate IsAbsent(body: seq<Member>, key: string) {
    Field(body, PointsOf(key)).None?
  }

  function ToolList(body: seq<Member>): seq<Json> {
    match Field(body, PointsOf("tools"))
    case Some(Arr(tools)) => tools
    case _ => []
  }

  predicate Advertises(body: seq<Member>) {
    ToolList(body) != []
  }

  /** What the field `tool_choice`, or its absence, asks for. */
  predicate ChoiceIsAsked(body: seq<Member>, choice: Choice) {
    match choice
    case Auto => Says(body, "tool_choice", Word("auto")) || (IsAbsent(body, "tool_choice") && Advertises(body))
    case Disabled => Says(body, "tool_choice", Word("none")) || (IsAbsent(body, "tool_choice") && !Advertises(body))
    case Required => Says(body, "tool_choice", Word("required")) && Advertises(body)
  }

  function Word(s: string): Json {
    Str(PointsOf(s))
  }

  const FIELDS :=
    {"model", "messages", "stream", "max_tokens", "max_completion_tokens", "temperature", "top_p", "top_k",
     "stream_options", "chat_template_kwargs", "tools", "tool_choice", "parallel_tool_calls"}

  predicate IsField(key: Points) {
    exists name :: name in FIELDS && key == PointsOf(name)
  }

  /** One field, which is true, or what equals it in Python. */
  predicate AsksForUsage(v: Json) {
    && v.Obj? && |v.members| == 1 && v.members[0].key == PointsOf("include_usage")
    && (v.members[0].value == Bool(true) || v.members[0].value == Int(1) || v.members[0].value == Float("1.0"))
  }

  lemma AllowedIsField(key: Points)
    ensures key in AllowedFields() <==> IsField(key)
  {
    if key in AllowedFields() {
      assert forall name :: name in FIELDS ==> key == PointsOf(name) ==> IsField(key);
    }
  }

  lemma UsageIsAsked(v: Json)
    ensures IsIncludeUsage(v) <==> AsksForUsage(v)
  {
    if AsksForUsage(v) {
      assert v.members == [v.members[0]];
    }
  }

  /** What each field may hold. */
  predicate FieldAllowed(server: Server, m: Member) {
    && IsField(m.key)
    && (m.key == PointsOf("model") ==> m.value == Str(server.alias))
    && (m.key == PointsOf("messages") ==> m.value.Arr? && 1 <= |m.value.items| <= 2048)
    && (m.key == PointsOf("tools") ==>
          && m.value.Arr? && |m.value.items| <= 256 && (m.value.items == [] || server.toolCapable)
          && DistinctTools(m.value.items))
    && (m.key == PointsOf("tool_choice") ==> m.value in {Word("auto"), Word("none"), Word("required")})
    && (m.key == PointsOf("parallel_tool_calls") ==> m.value == Bool(false))
    && OptionAllowed(server, m)
  }

  predicate OptionAllowed(server: Server, m: Member) {
    && (m.key == PointsOf("max_tokens") || m.key == PointsOf("max_completion_tokens") ==>
          m.value.Int? && 1 <= m.value.n <= server.maxTokens)
    && (m.key == PointsOf("stream") ==> m.value.Bool?)
    && (m.key == PointsOf("chat_template_kwargs") ==>
          m.value == Obj([Member(PointsOf("reasoning_effort"), Word("none"))]))
    && (m.key == PointsOf("stream_options") ==> m.value.Null? || AsksForUsage(m.value))
    && (m.key == PointsOf("temperature") ==> NumberIn(server.range, m.value, 0, 2))
    && (m.key == PointsOf("top_p") ==> NumberIn(server.range, m.value, 0, 1))
    && (m.key == PointsOf("top_k") ==> m.value.Int? && 0 <= m.value.n <= 1024)
  }

  predicate EveryField(server: Server, body: seq<Member>) {
    forall m :: m in body ==> FieldAllowed(server, m)
  }

  /** The rules on two fields, and on the bound of the server when no limit is given. */
  predicate FieldsAgree(server: Server, body: seq<Member>) {
    && (IsAbsent(body, "max_tokens") || IsAbsent(body, "max_completion_tokens"))
    && 1 <= server.maxTokens
    && (Says(body, "tool_choice", Word("required")) ==> Advertises(body))
  }

  // ---------------------------------------------------------------------------------------------
  // Fields of an object with unique keys.
  // ---------------------------------------------------------------------------------------------

  lemma {:induction false} FieldOfMember(body: seq<Member>, m: Member)
    requires UniqueKeys(body) && m in body
    ensures Field(body, m.key) == Some(m.value)
  {
    if body[0] != m {
      var k :| 0 < k < |body| && body[k] == m;
      assert body[1..][k - 1] == m;
      FieldOfMember(body[1..], m);
    }
  }

  lemma {:induction false} MemberOfField(body: seq<Member>, key: Points)
    requires Field(body, key).Some?
    ensures Member(key, Field(body, key).value) in body
  {
    if body[0].key != key {
      MemberOfField(body[1..], key);
    }
  }

  /** A condition on the members with this key is one on the field. */
  lemma PresentFields(server: Server, body: seq<Member>)
    requires EveryField(server, body)
    ensures forall key :: Field(body, key).Some? ==> FieldAllowed(server, Member(key, Field(body, key).value))
  {
    forall key | Field(body, key).Some? ensures FieldAllowed(server, Member(key, Field(body, key).value)) {
      MemberOfField(body, key);
    }
  }

  // ---------------------------------------------------------------------------------------------
  // The validator reads the fields like that.
  // ---------------------------------------------------------------------------------------------

  lemma OptionsFromFields(server: Server, body: seq<Member>)
    requires EveryField(server, body) && FieldsAgree(server, body)
    ensures Options(server, body)
  {
    PresentFields(server, body);
    UsageIsAsked(FieldOr(body, "stream_options", Null));
  }

  lemma FieldsFromOptions(server: Server, body: seq<Member>, m: Member)
    requires UniqueKeys(body) && m in body && Options(server, body)
    ensures OptionAllowed(server, m)
  {
    FieldOfMember(body, m);
    UsageIsAsked(m.value);
  }

  lemma ChoiceFromField(body: seq<Member>, choice: Choice)
    ensures ChoiceOf(body, Advertises(body)) == Some(choice) <==> ChoiceIsAsked(body, choice)
  {
    assert |"auto"| != |"required"|;
    assert PointsOf("auto")[0] != PointsOf("none")[0];
  }

  /** The checks of the validator, apart from the history. */
  predicate ChecksPass(server: Server, body: seq<Member>) {
    && KeySet(body) <= AllowedFields() && FieldOr(body, "model", Null) == Str(server.alias)
    && Messages(body).Arr? && 1 <= |Messages(body).items| <= MAX_MESSAGES
    && ToolsAccepted(server, Tools(body)) && ChoiceOf(body, Tools(body).items != []).Some?
    && FieldOr(body, "parallel_tool_calls", Bool(false)) == Bool(false) && Options(server, body)
  }

  /** Every field is right, the two required ones are there, and they agree. */
  predicate IsRequest(server: Server, body: seq<Member>) {
    EveryField(server, body) && FieldsAgree(server, body) && !IsAbsent(body, "model") && !IsAbsent(body, "messages")
  }

  lemma ListsPass(server: Server, body: seq<Member>)
    requires IsRequest(server, body)
    ensures FieldOr(body, "model", Null) == Str(server.alias)
    ensures Messages(body).Arr? && 1 <= |Messages(body).items| <= MAX_MESSAGES
    ensures FieldOr(body, "parallel_tool_calls", Bool(false)) == Bool(false)
  {
    PresentFields(server, body);
  }

  lemma ToolsPass(server: Server, body: seq<Member>)
    requires IsRequest(server, body)
    ensures ToolsAccepted(server, Tools(body)) && ChoiceOf(body, Tools(body).items != []).Some?
  {
    PresentFields(server, body);
  }

  lemma RequestsPass(server: Server, body: seq<Member>)
    requires IsRequest(server, body)
    ensures ChecksPass(server, body)
  {
    ListsPass(server, body);
    ToolsPass(server, body);
    OptionsFromFields(server, body);
    KeysAreAllowed(server, body);
  }

  lemma KeysAreAllowed(server: Server, body: seq<Member>)
    requires EveryField(server, body)
    ensures KeySet(body) <= AllowedFields()
  {
    forall key | key in KeySet(body) ensures key in AllowedFields() {
      var m :| m in body && m.key == key;
      AllowedIsField(key);
    }
  }

  lemma CheckedFieldIsAllowed(server: Server, body: seq<Member>, m: Member)
    requires UniqueKeys(body) && m in body && ChecksPass(server, body)
    ensures FieldAllowed(server, m)
  {
    FieldOfMember(body, m);
    FieldsFromOptions(server, body, m);
    assert m.key in KeySet(body);
    AllowedIsField(m.key);
  }

  lemma PassingIsRequest(server: Server, body: seq<Member>)
    requires UniqueKeys(body) && ChecksPass(server, body)
    ensures IsRequest(server, body)
  {
    forall m | m in body ensures FieldAllowed(server, m) {
      CheckedFieldIsAllowed(server, body, m);
    }
    assert |"required"| != |"auto"| && |"required"| != |"none"|;
  }

  /** The tool is the function of that name. */
  predicate IsNamed(tool: Json, name: Points) {
    && tool.Obj?
    && match Field(tool.members, PointsOf("function"))
       case Some(Obj(f)) => Says(f, "name", Str(name))
       case _ => false
  }

  ghost predicate NamesAreAdvertised(body: seq<Member>, names: set<Points>) {
    forall name :: name in names <==> exists i :: 0 <= i < |ToolList(body)| && IsNamed(ToolList(body)[i], name)
  }

  lemma NameOfTool(tool: Json, name: Points)
    requires ToolShape(tool)
    ensures AdvertisedName(tool) == name <==> IsNamed(tool, name)
  {
  }

  lemma NamesAreThose(body: seq<Member>, names: set<Points>)
    requires DistinctTools(ToolList(body))
    ensures names == Names(ToolList(body)) <==> NamesAreAdvertised(body, names)
  {
    var tools := ToolList(body);
    forall name ensures name in Names(tools) <==> exists i :: 0 <= i < |tools| && IsNamed(tools[i], name) {
      forall i | 0 <= i < |tools| ensures AdvertisedName(tools[i]) == name <==> IsNamed(tools[i], name) {
        NameOfTool(tools[i], name);
      }
    }
  }

  function MessageList(body: seq<Member>): seq<Json> {
    match Field(body, PointsOf("messages"))
    case Some(Arr(messages)) => messages
    case _ => []
  }

  ghost predicate HistoryIsRight(server: Server, body: seq<Member>, names: set<Points>) {
    && AllWellFormed(server.fl, true, MessageList(body), names, server.toolCapable)
    && Settled(Events(MessageList(body)))
  }

  /** The verdict, once the fields are known to be right. */
  lemma VerdictOfChecks(server: Server, body: seq<Member>, request: Request)
    ensures ValidateRequest(server, Obj(body)) == Valid(request)
            <==> && ChecksPass(server, body) && ChoiceOf(body, Tools(body).items != []) == Some(request.choice)
                 && request.names == Names(Tools(body).items)
                 && CheckHistory(server.fl, Messages(body).items, request.names, server.toolCapable) == Pass
  {
  }

  lemma ListsOfPassing(server: Server, body: seq<Member>)
    requires ChecksPass(server, body)
    ensures Tools(body).items == ToolList(body) && Messages(body).items == MessageList(body)
  {
  }

  /**
   A request is valid exactly when its fields are right and agree, every message is well formed by itself
   under the advertised names, and calls and results pair off; and what it is validated to is what its
   fields say.
   */
  lemma ValidByFields(server: Server, body: seq<Member>, request: Request)
    requires UniqueKeys(body)
    ensures ValidateRequest(server, Obj(body)) == Valid(request)
            <==> && IsRequest(server, body) && ChoiceIsAsked(body, request.choice)
                 && NamesAreAdvertised(body, request.names) && HistoryIsRight(server, body, request.names)
  {
    VerdictOfChecks(server, body, request);
    if IsRequest(server, body) {
      RequestsPass(server, body);
    }
    if ChecksPass(server, body) {
      PassingIsRequest(server, body);
      ListsOfPassing(server, body);
      NamesAreThose(body, request.names);
      ChoiceFromField(body, request.choice);
      HistoryAccepted(server.fl, MessageList(body), request.names, server.toolCapable);
    }
  }
}
