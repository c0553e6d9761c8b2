/** Tools and messages as the documentation of the protocol describes them: role by role, field by field. */
module KolibriShapes {
  import opened Prelude
  import opened Text
  import opened Utf8
  import opened Json
  import opened Kolibri
  import opened KolibriHistory
  import opened KolibriRequest
  import opened KolibriFields

  /** No other fields than these. */
  predicate Within(members: seq<Member>, keys: set<string>) {
    forall m :: m in members ==> exists key :: key in keys && m.key == PointsOf(key)
  }

  lemma KeysWithin(members: seq<Member>, keys: set<string>)
    ensures Within(members, keys) <==> KeySet(members) <= set key | key in keys :: PointsOf(key)
  {
    var allowed := set key | key in keys :: PointsOf(key);
    if KeySet(members) <= allowed {
      forall m | m in members ensures exists key :: key in keys && m.key == PointsOf(key) {
        assert m.key in KeySet(members);
      }
    }
    if Within(members, keys) {
      forall k | k in KeySet(members) ensures k in allowed {
        var m :| m in members && m.key == k;
      }
    }
  }

  lemma PresentKey(members: seq<Member>, key: Points)
    ensures Field(members, key).Some? <==> key in KeySet(members)
  {
    if Field(members, key).Some? {
      MemberOfField(members, key);
    }
    if key in KeySet(members) {
      var m :| m in members && m.key == key;
      FieldIsPresent(members, m);
    }
  }

  lemma {:induction false} FieldIsPresent(members: seq<Member>, m: Member)
    requires m in members
    ensures Field(members, m.key).Some?
  {
    if members[0].key != m.key {
      FieldIsPresent(members[1..], m);
    }
  }

  /** Exactly these two fields. */
  lemma TwoKeys(members: seq<Member>, a: string, b: string)
    ensures KeySet(members) == {PointsOf(a), PointsOf(b)}
            <==> Within(members, {a, b}) && !IsAbsent(members, a) && !IsAbsent(members, b)
  {
    KeysWithin(members, {a, b});
    PresentKey(members, PointsOf(a));
    PresentKey(members, PointsOf(b));
    assert (set key | key in {a, b} :: PointsOf(key)) == {PointsOf(a), PointsOf(b)};
  }

  lemma FourKeys(members: seq<Member>, a: string, b: string, c: string, d: string)
    ensures KeySet(members) <= {PointsOf(a), PointsOf(b), PointsOf(c), PointsOf(d)} <==> Within(members, {a, b, c, d})
  {
    KeysWithin(members, {a, b, c, d});
    assert (set key | key in {a, b, c, d} :: PointsOf(key)) == {PointsOf(a), PointsOf(b), PointsOf(c), PointsOf(d)};
  }

  // ---------------------------------------------------------------------------------------------
  // Tools.
  // ---------------------------------------------------------------------------------------------

  /** `description` and `strict` may be left out. */
  ghost predicate IsFunction(f: seq<Member>, name: Points) {
    && Within(f, {"name", "description", "parameters", "strict"})
    && ToolName(name) && Says(f, "name", Str(name))
    && (exists schema :: Says(f, "parameters", Obj(schema)))
    && (IsAbsent(f, "description") || exists text :: Says(f, "description", Str(text)))
    && (IsAbsent(f, "strict") || exists b :: Says(f, "strict", Bool(b)))
  }

  ghost predicate IsTool(tool: Json, name: Points) {
    && tool.Obj? && Within(tool.members, {"type", "function"}) && Says(tool.members, "type", Word("function"))
    && exists f :: Says(tool.members, "function", Obj(f)) && IsFunction(f, name)
  }

  lemma FunctionMeans(f: seq<Member>, name: Points)
    ensures FunctionShape(Obj(f)) && IdOf(Obj(f), PointsOf("name")) == name <==> IsFunction(f, name)
  {
    FourKeys(f, "name", "description", "parameters", "strict");
  }

  /** An accepted tool is a function with this name, and has no other fields. */
  lemma ToolMeans(tool: Json, name: Points)
    ensures ToolShape(tool) && AdvertisedName(tool) == name <==> IsTool(tool, name)
  {
    if tool.Obj? {
      TwoKeys(tool.members, "type", "function");
      match Field(tool.members, PointsOf("function"))
      case Some(Obj(f)) => FunctionMeans(f, name);
      case _ =>
    }
  }

  // ---------------------------------------------------------------------------------------------
  // Messages.
  // ---------------------------------------------------------------------------------------------

  /** The calls of an assistant, if it may call at all. */
  ghost predicate CallsAreRight(fl: FloatReader, m: seq<Member>, names: set<Points>, allow: bool) {
    || IsAbsent(m, "tool_calls")
    || (allow && exists calls :: Says(m, "tool_calls", Arr(calls)) && ArePastCalls(fl, calls, names))
  }

  ghost predicate ArePastCalls(fl: FloatReader, calls: seq<Json>, names: set<Points>) {
    1 <= |calls| <= 256 && forall call :: call in calls ==> IsPastCall(fl, call, names)
  }

  ghost predicate IsPastCall(fl: FloatReader, call: Json, names: set<Points>) {
    exists id, name, text :: IsHistoricalCall(fl, call, names, id, name, text)
  }

  /** What each role may carry. */
  ghost predicate IsMessage(fl: FloatReader, first: bool, m: Json, names: set<Points>, allow: bool) {
    && m.Obj? && Within(m.members, {"role", "content", "tool_calls", "tool_call_id"})
    && (exists text :: Says(m.members, "content", Str(text)))
    && (|| (first && Says(m.members, "role", Word("system"))
            && IsAbsent(m.members, "tool_calls") && IsAbsent(m.members, "tool_call_id"))
        || (&& Says(m.members, "role", Word("user"))
            && IsAbsent(m.members, "tool_calls") && IsAbsent(m.members, "tool_call_id"))
        || (&& Says(m.members, "role", Word("assistant"))
            && CallsAreRight(fl, m.members, names, allow) && IsAbsent(m.members, "tool_call_id"))
        || (&& allow && Says(m.members, "role", Word("tool"))
            && IsAbsent(m.members, "tool_calls") && exists id :: Says(m.members, "tool_call_id", Str(id))))
  }

  lemma RolesDiffer()
    ensures Word("system") != Word("user") && Word("system") != Word("assistant") && Word("system") != Word("tool")
    ensures Word("user") != Word("assistant") && Word("user") != Word("tool") && Word("assistant") != Word("tool")
  {
    assert |PointsOf("system")| == 6 && |PointsOf("assistant")| == 9;
    assert PointsOf("user")[0] != PointsOf("tool")[0];
  }

  lemma PassingCalls(fl: FloatReader, calls: seq<Json>, names: set<Points>)
    ensures AllPass(fl, calls, names) <==> forall call :: call in calls ==> IsPastCall(fl, call, names)
  {
    forall call ensures CheckCall(fl, call, names) == Pass <==> IsPastCall(fl, call, names) {
      CallPasses(fl, call, names);
    }
  }

  /** A message is well formed exactly when it carries what its role may carry, and nothing else. */
  lemma MessageMeans(fl: FloatReader, first: bool, m: Json, names: set<Points>, allow: bool)
    ensures WellFormed(fl, first, m, names, allow) <==> IsMessage(fl, first, m, names, allow)
  {
    if m.Obj? {
      FourKeys(m.members, "role", "content", "tool_calls", "tool_call_id");
      PassingCalls(fl, CallsOf(m), names);
      RolesDiffer();
    }
  }

  // ---------------------------------------------------------------------------------------------
  // Which malformed histories raise something else than a contract error.
  // ---------------------------------------------------------------------------------------------

  predicate HoldsSurrogate(points: Points) {
    exists i :: 0 <= i < |points| && 0xD800 <= points[i] <= 0xDFFF
  }

  lemma {:induction false} NoCharsMeans(points: Points)
    ensures CharsOf(points).None? <==> HoldsSurrogate(points)
  {
    if points != [] {
      NoCharsMeans(points[1..]);
      assert forall i :: 0 <= i < |points[1..]| ==> points[1..][i] == points[i + 1];
      if i :| 0 <= i < |points| && 0xD800 <= points[i] <= 0xDFFF {
        assert i > 0 ==> points[1..][i - 1] == points[i];
      }
    }
  }

  /** A call with the right fields up to its function, whose fields are these. */
  predicate CallsFunction(call: Json, f: seq<Member>, name: Json, arguments: Json) {
    && call.Obj? && KeySet(call.members) == {PointsOf("id"), PointsOf("type"), PointsOf("function")}
    && (match Field(call.members, PointsOf("id"))
        case Some(Str(id)) => ToolName(id)
        case _ => false)
    && Says(call.members, "type", Word("function")) && Says(call.members, "function", Obj(f))
    && KeySet(f) == {PointsOf("name"), PointsOf("arguments")}
    && Says(f, "name", name) && Says(f, "arguments", arguments)
  }

  ghost predicate RaisesInCall(call: Json, names: set<Points>) {
    exists f, name, arguments ::
      && CallsFunction(call, f, name, arguments)
      && (|| name.Arr? || name.Obj?
          || (name.Str? && name.points in names && arguments.Str? && HoldsSurrogate(arguments.points)))
  }

  lemma FunctionCrashes(fl: FloatReader, f: Json, names: set<Points>)
    ensures CheckFunction(fl, f, names) == Fail(Crash) <==>
              && f.Obj? && KeySet(f.members) == {PointsOf("name"), PointsOf("arguments")}
              && match (Field(f.members, PointsOf("name")), Field(f.members, PointsOf("arguments")))
                 case (Some(name), Some(arguments)) =>
                   || name.Arr? || name.Obj?
                   || (name.Str? && name.points in names && arguments.Str? && HoldsSurrogate(arguments.points))
                 case _ => false
  {
    if f.Obj? {
      match Field(f.members, PointsOf("arguments"))
      case Some(Str(points)) => NoCharsMeans(points);
      case _ =>
    }
  }

  /** An unhashable name, or an advertised one with arguments that cannot be encoded. */
  lemma CallCrashes(fl: FloatReader, call: Json, names: set<Points>)
    ensures CheckCall(fl, call, names) == Fail(Crash) <==> RaisesInCall(call, names)
  {
    if call.Obj? {
      match Field(call.members, PointsOf("function"))
      case Some(f) =>
        FunctionCrashes(fl, f, names);
        if CheckCall(fl, call, names) == Fail(Crash) {
          assert CallsFunction(call, f.members, Field(f.members, PointsOf("name")).value,
                               Field(f.members, PointsOf("arguments")).value);
        }
      case None =>
    }
  }

  /** The result of a call raises exactly when its identifier is unhashable. */
  lemma ResultCrashes(m: seq<Member>, allow: bool, ledger: Ledger)
    ensures CheckResult(m, allow, ledger) == Refused(Crash) <==>
              && allow
              && match Field(m, PointsOf("tool_call_id"))
                 case Some(id) => id.Arr? || id.Obj?
                 case None => false
  {
  }

  lemma RefusedAtHead(
      fl: FloatReader, first: bool, messages: seq<Json>, names: set<Points>, allow: bool, ledger: Ledger, why: Fault)
    requires messages != []
    ensures RefusedAt(fl, first, messages, names, allow, ledger, 0, why)
            <==> CheckMessage(fl, first, messages[0], names, allow, ledger) == Refused(why)
  {
    assert messages[..0] == [];
  }

  lemma RefusedAtNext(
      fl: FloatReader, first: bool, messages: seq<Json>, names: set<Points>, allow: bool, ledger: Ledger, k: nat,
      why: Fault)
    requires 0 < k < |messages|
    ensures RefusedAt(fl, first, messages, names, allow, ledger, k, why)
            <==> match CheckMessage(fl, first, messages[0], names, allow, ledger)
                 case Refused(_) => false
                 case Going(after) => RefusedAt(fl, false, messages[1..], names, allow, after, k - 1, why)
  {
    assert messages[..k][0] == messages[0] && messages[..k][1..] == messages[1..][..k - 1];
  }

  /** The first message that is refused decides. */
  lemma {:induction false} FirstRefusalDecides(
      fl: FloatReader, first: bool, messages: seq<Json>, names: set<Points>, allow: bool, ledger: Ledger, why: Fault)
    ensures CheckMessages(fl, first, messages, names, allow, ledger) == Refused(why) <==>
              exists k: nat :: RefusedAt(fl, first, messages, names, allow, ledger, k, why)
    decreases |messages|
  {
    if messages != [] {
      RefusedAtHead(fl, first, messages, names, allow, ledger, why);
      forall k: nat | 0 < k < |messages|
        ensures RefusedAt(fl, first, messages, names, allow, ledger, k, why)
                <==> match CheckMessage(fl, first, messages[0], names, allow, ledger)
                     case Refused(_) => false
                     case Going(after) => RefusedAt(fl, false, messages[1..], names, allow, after, k - 1, why)
      {
        RefusedAtNext(fl, first, messages, names, allow, ledger, k, why);
      }
      if CheckMessage(fl, first, messages[0], names, allow, ledger).Going? {
        var after := CheckMessage(fl, first, messages[0], names, allow, ledger).ledger;
        FirstRefusalDecides(fl, false, messages[1..], names, allow, after, why);
        if k: nat :| RefusedAt(fl, false, messages[1..], names, allow, after, k, why) {
          assert RefusedAt(fl, first, messages, names, allow, ledger, k + 1, why);
        }
      }
    }
  }

  predicate RefusedAt(
      fl: FloatReader, first: bool, messages: seq<Json>, names: set<Points>, allow: bool, ledger: Ledger, k: nat,
      why: Fault)
  {
    && k < |messages| && CheckMessages(fl, first, messages[..k], names, allow, ledger).Going?
    && var before := CheckMessages(fl, first, messages[..k], names, allow, ledger).ledger;
       CheckMessage(fl, first && k == 0, messages[k], names, allow, before) == Refused(why)
  }
}
