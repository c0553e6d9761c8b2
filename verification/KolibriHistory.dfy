/**
 Request validation: the advertised functions, and a history in which every function call has exactly
 one later result. The closed loop: what the completion parser returns is accepted back as history.
 */
module KolibriHistory {
  import opened Prelude
  import opened Text
  import opened Utf8
  import opened Json
  import opened JsonRoundTrip
  import opened Kolibri

  const MAX_TOOLS := 256
  const MAX_MESSAGES := 2048

  /** `Crash` is an exception that is not a contract error: an unhashable name or a lone surrogate. */
  datatype Fault = Invalid | Crash

  datatype Check = Pass | Fail(fault: Fault)

  /** `seen_calls` and `pending_calls`. */
  datatype Ledger = Ledger(seen: set<Points>, pending: set<Points>)

  datatype Progress = Going(ledger: Ledger) | Refused(why: Fault)

  predicate Unhashable(v: Json) {
    v.Arr? || v.Obj?
  }

  /** The text of a decoded string, unless it holds a surrogate. */
  function CharsOf(points: Points): Option<string> {
    if points == [] then Some("")
    else if 0xD800 <= points[0] < 0xE000 then None
    else
      match CharsOf(points[1..])
      case None => None
      case Some(others) => Some([points[0] as char] + others)
  }

  lemma {:induction false} CharsRoundTrip(s: string)
    ensures CharsOf(PointsOf(s)) == Some(s)
  {
    if s != [] {
      assert PointsOf(s)[1..] == PointsOf(s[1..]);
      CharsRoundTrip(s[1..]);
      HeadTail(s);
    }
  }

  // ---------------------------------------------------------------------------------------------
  // One historical call.
  // ---------------------------------------------------------------------------------------------

  function CheckArguments(fl: FloatReader, arguments: Json): Check {
    if !arguments.Str? then Fail(Invalid)
    else
      match CharsOf(arguments.points)
      case None => Fail(Crash)
      case Some(text) =>
        if |Encode(text)| > MAX_ARGUMENT_BYTES then Fail(Invalid)
        else
          match Loads(fl, text)
          case Some(Obj(_)) => Pass
          case _ => Fail(Invalid)
  }

  function CheckFunction(fl: FloatReader, f: Json, names: set<Points>): Check {
    if !f.Obj? || KeySet(f.members) != {PointsOf("name"), PointsOf("arguments")} then Fail(Invalid)
    else
      match (Field(f.members, PointsOf("name")), Field(f.members, PointsOf("arguments")))
      case (Some(name), Some(arguments)) =>
        if Unhashable(name) then Fail(Crash)
        else if !name.Str? || name.points !in names then Fail(Invalid)
        else CheckArguments(fl, arguments)
      case _ => Fail(Invalid)
  }

  /** `validate_tool_call` */
  function CheckCall(fl: FloatReader, call: Json, names: set<Points>): Check {
    if !call.Obj? || KeySet(call.members) != {PointsOf("id"), PointsOf("type"), PointsOf("function")} then Fail(Invalid)
    else
      match (Field(call.members, PointsOf("id")), Field(call.members, PointsOf("type")),
             Field(call.members, PointsOf("function")))
      case (Some(Str(id)), Some(kind), Some(f)) =>
        if !ToolName(id) || kind != Str(PointsOf("function")) then Fail(Invalid) else CheckFunction(fl, f, names)
      case _ => Fail(Invalid)
  }

  /** A historical call: these fields and no others, an advertised name, and the text of an object. */
  predicate IsHistoricalCall(fl: FloatReader, call: Json, names: set<Points>, id: Points, name: Points, text: string) {
    && call.Obj? && KeySet(call.members) == {PointsOf("id"), PointsOf("type"), PointsOf("function")}
    && Field(call.members, PointsOf("id")) == Some(Str(id)) && ToolName(id)
    && Field(call.members, PointsOf("type")) == Some(Str(PointsOf("function")))
    && (match Field(call.members, PointsOf("function"))
        case Some(Obj(f)) =>
          && KeySet(f) == {PointsOf("name"), PointsOf("arguments")}
          && Field(f, PointsOf("name")) == Some(Str(name)) && name in names
          && Field(f, PointsOf("arguments")) == Some(Str(PointsOf(text)))
        case _ => false)
    && |Encode(text)| <= MAX_ARGUMENT_BYTES && Loads(fl, text).Some? && Loads(fl, text).value.Obj?
  }

  lemma {:induction false} CharsInverse(points: Points)
    requires CharsOf(points).Some?
    ensures PointsOf(CharsOf(points).value) == points
  {
    if points != [] {
      CharsInverse(points[1..]);
      var others := CharsOf(points[1..]).value;
      assert PointsOf([points[0] as char] + others) == [points[0]] + PointsOf(others);
      HeadTail(points);
    }
  }

  /** The checks of a call pass exactly on historical calls. */
  lemma CallPasses(fl: FloatReader, call: Json, names: set<Points>)
    ensures CheckCall(fl, call, names) == Pass <==>
              exists id, name, text :: IsHistoricalCall(fl, call, names, id, name, text)
  {
    if CheckCall(fl, call, names) == Pass {
      var f := Field(call.members, PointsOf("function")).value.members;
      var points := Field(f, PointsOf("arguments")).value.points;
      CharsInverse(points);
      assert IsHistoricalCall(
          fl, call, names, CallId(call), Field(f, PointsOf("name")).value.points, CharsOf(points).value);
    }
    forall id, name, text | IsHistoricalCall(fl, call, names, id, name, text)
      ensures CheckCall(fl, call, names) == Pass
    {
      CharsRoundTrip(text);
    }
  }

  /** The identifier under a key, when it is a string. */
  function IdOf(v: Json, key: Points): Points {
    if !v.Obj? then []
    else
      match Field(v.members, key)
      case Some(Str(id)) => id
      case _ => []
  }

  function CallId(call: Json): Points {
    IdOf(call, PointsOf("id"))
  }

  // ---------------------------------------------------------------------------------------------
  // The history, message by message.
  // ---------------------------------------------------------------------------------------------

  function AddCall(ledger: Ledger, id: Points): Option<Ledger> {
    if id in ledger.seen then None else Some(Ledger(ledger.seen + {id}, ledger.pending + {id}))
  }

  function CheckCalls(fl: FloatReader, calls: seq<Json>, names: set<Points>, ledger: Ledger): Progress {
    if calls == [] then Going(ledger)
    else if CheckCall(fl, calls[0], names) != Pass then Refused(CheckCall(fl, calls[0], names).fault)
    else
      match AddCall(ledger, CallId(calls[0]))
      case None => Refused(Invalid)
      case Some(after) => CheckCalls(fl, calls[1..], names, after)
  }

  function CheckResult(m: seq<Member>, allow: bool, ledger: Ledger): Progress {
    if !allow then Refused(Invalid)
    else
      match Field(m, PointsOf("tool_call_id"))
      case None => Refused(Invalid)
      case Some(id) =>
        if Unhashable(id) then Refused(Crash)
        else if !id.Str? || id.points !in ledger.pending then Refused(Invalid)
        else Going(ledger.(pending := ledger.pending - {id.points}))
  }

  /** The checks of a message that do not look at the ledger. */
  predicate MessageShape(first: bool, m: Json, allow: bool) {
    && m.Obj?
    && KeySet(m.members) <= {PointsOf("role"), PointsOf("content"), PointsOf("tool_calls"), PointsOf("tool_call_id")}
    && (var role := IdOf(m, PointsOf("role"));
        && Field(m.members, PointsOf("role")) == Some(Str(role))
        && role in {PointsOf("system"), PointsOf("user"), PointsOf("assistant"), PointsOf("tool")}
        && (role == PointsOf("system") ==> first)
        && (match Field(m.members, PointsOf("content"))
            case Some(Str(_)) => true
            case _ => false)
        && (match Field(m.members, PointsOf("tool_calls"))
            case None => true
            case Some(Arr(calls)) => allow && role == PointsOf("assistant") && 0 < |calls| <= MAX_TOOLS
            case _ => false))
  }

  predicate IsResult(m: Json) {
    IdOf(m, PointsOf("role")) == PointsOf("tool")
  }

  function CallsOf(m: Json): seq<Json> {
    if !m.Obj? then []
    else
      match Field(m.members, PointsOf("tool_calls"))
      case Some(Arr(calls)) => calls
      case _ => []
  }

  /** What is checked once the calls of a message are on the ledger. */
  function FinishMessage(m: seq<Member>, isResult: bool, allow: bool, ledger: Ledger): Progress {
    if isResult then CheckResult(m, allow, ledger)
    else if Field(m, PointsOf("tool_call_id")).Some? then Refused(Invalid)
    else Going(ledger)
  }

  function CheckMessage(
      fl: FloatReader, first: bool, m: Json, names: set<Points>, allow: bool, ledger: Ledger): Progress
  {
    if !MessageShape(first, m, allow) then Refused(Invalid)
    else
      match CheckCalls(fl, CallsOf(m), names, ledger)
      case Refused(why) => Refused(why)
      case Going(after) => FinishMessage(m.members, IsResult(m), allow, after)
  }

  function CheckMessages(
      fl: FloatReader, first: bool, messages: seq<Json>, names: set<Points>, allow: bool, ledger: Ledger): Progress
  {
    if messages == [] then Going(ledger)
    else
      match CheckMessage(fl, first, messages[0], names, allow, ledger)
      case Refused(why) => Refused(why)
      case Going(after) => CheckMessages(fl, false, messages[1..], names, allow, after)
  }

  const EMPTY := Ledger({}, {})

  /** The verdict on a whole history. */
  function CheckHistory(fl: FloatReader, messages: seq<Json>, names: set<Points>, allow: bool): Check {
    match CheckMessages(fl, true, messages, names, allow, EMPTY)
    case Refused(why) => Fail(why)
    case Going(ledger) => if ledger.pending == {} then Pass else Fail(Invalid)
  }

  method WalkCalls(fl: FloatReader, calls: seq<Json>, names: set<Points>, ledger: Ledger)
    returns (progress: Progress)
    ensures progress == CheckCalls(fl, calls, names, ledger)
  {
    var seen, pending := ledger.seen, ledger.pending;
    for k := 0 to |calls|
      invariant CheckCalls(fl, calls, names, ledger) == CheckCalls(fl, calls[k..], names, Ledger(seen, pending))
    {
      var call := calls[k];
      assert calls[k..][0] == call && calls[k..][1..] == calls[k + 1..];
      var check := CheckCall(fl, call, names);
      if check != Pass {
        return Refused(check.fault);
      }
      if CallId(call) in seen {
        return Refused(Invalid);
      }
      seen := seen + {CallId(call)};
      pending := pending + {CallId(call)};
    }
    return Going(Ledger(seen, pending));
  }

  /** The history loop with its two sets, and the iff that its documentation promises. */
  method WalkHistory(fl: FloatReader, messages: seq<Json>, names: set<Points>, allow: bool) returns (check: Check)
    ensures check == CheckHistory(fl, messages, names, allow)
    ensures check == Pass <==>
              AllWellFormed(fl, true, messages, names, allow) && Settled(Events(messages))
  {
    HistoryAccepted(fl, messages, names, allow);
    var ledger := EMPTY;
    for index := 0 to |messages|
      invariant CheckMessages(fl, true, messages, names, allow, EMPTY)
             == CheckMessages(fl, index == 0, messages[index..], names, allow, ledger)
    {
      var m := messages[index];
      assert messages[index..][0] == m && messages[index..][1..] == messages[index + 1..];
      if !MessageShape(index == 0, m, allow) {
        return Fail(Invalid);
      }
      var progress := WalkCalls(fl, CallsOf(m), names, ledger);
      if progress.Refused? {
        return Fail(progress.why);
      }
      progress := FinishMessage(m.members, IsResult(m), allow, progress.ledger);
      if progress.Refused? {
        return Fail(progress.why);
      }
      ledger := progress.ledger;
    }
    return if ledger.pending == {} then Pass else Fail(Invalid);
  }

  // ---------------------------------------------------------------------------------------------
  // What a valid history is: calls and results in order of appearance, paired off.
  // ---------------------------------------------------------------------------------------------

  datatype Event = Called(id: Points) | Answered(id: Points)

  function CallEvents(calls: seq<Json>): seq<Event> {
    if calls == [] then [] else [Called(CallId(calls[0]))] + CallEvents(calls[1..])
  }

  function ResultEvent(m: Json): seq<Event> {
    if IsResult(m) then [Answered(IdOf(m, PointsOf("tool_call_id")))] else []
  }

  function Events(messages: seq<Json>): seq<Event> {
    if messages == [] then []
    else CallEvents(CallsOf(messages[0])) + ResultEvent(messages[0]) + Events(messages[1..])
  }

  predicate AllPass(fl: FloatReader, calls: seq<Json>, names: set<Points>) {
    forall i :: 0 <= i < |calls| ==> CheckCall(fl, calls[i], names) == Pass
  }

  /** A message that is right by itself, whatever the others hold. */
  predicate WellFormed(fl: FloatReader, first: bool, m: Json, names: set<Points>, allow: bool) {
    && MessageShape(first, m, allow) && AllPass(fl, CallsOf(m), names)
    && (match Field(m.members, PointsOf("tool_call_id"))
        case None => !IsResult(m)
        case Some(id) => IsResult(m) && id.Str? && allow)
  }

  predicate AllWellFormed(fl: FloatReader, first: bool, messages: seq<Json>, names: set<Points>, allow: bool) {
    forall i :: 0 <= i < |messages| ==> WellFormed(fl, first && i == 0, messages[i], names, allow)
  }

  /** No identifier is used by two calls. */
  predicate DistinctCalls(events: seq<Event>) {
    forall i, j :: 0 <= i < j < |events| && events[i].Called? && events[j].Called? ==> events[i] != events[j]
  }

  function CallSites(events: seq<Event>): set<nat> {
    set i: nat | i < |events| && events[i].Called?
  }

  function ResultSites(events: seq<Event>): set<nat> {
    set i: nat | i < |events| && events[i].Answered?
  }

  /** A bijection from calls to results that preserves identifiers and only points forward. */
  predicate IsPairing(events: seq<Event>, pairing: map<nat, nat>) {
    && pairing.Keys == CallSites(events) && pairing.Values == ResultSites(events)
    && (forall i :: i in pairing ==>
          i < pairing[i] < |events| && i < |events| && events[pairing[i]] == Answered(events[i].id))
    && (forall i, j :: i in pairing && j in pairing && pairing[i] == pairing[j] ==> i == j)
  }

  ghost predicate Settled(events: seq<Event>) {
    DistinctCalls(events) && exists pairing :: IsPairing(events, pairing)
  }

  // ---------------------------------------------------------------------------------------------
  // The loop replays the events.
  // ---------------------------------------------------------------------------------------------

  function Record(ledger: Ledger, event: Event): Option<Ledger> {
    match event
    case Called(id) => AddCall(ledger, id)
    case Answered(id) =>
      if id in ledger.pending then Some(ledger.(pending := ledger.pending - {id})) else None
  }

  function Replay(events: seq<Event>, ledger: Ledger): Option<Ledger> {
    if events == [] then Some(ledger)
    else
      match Record(ledger, events[0])
      case None => None
      case Some(after) => Replay(events[1..], after)
  }

  function Then(ledger: Option<Ledger>, events: seq<Event>): Option<Ledger> {
    match ledger
    case None => None
    case Some(l) => Replay(events, l)
  }

  lemma {:induction false} ReplayAppend(a: seq<Event>, b: seq<Event>, ledger: Ledger)
    ensures Replay(a + b, ledger) == Then(Replay(a, ledger), b)
  {
    if a == [] {
      assert a + b == b;
    } else {
      assert (a + b)[0] == a[0] && (a + b)[1..] == a[1..] + b;
      match Record(ledger, a[0])
      case None =>
      case Some(after) => ReplayAppend(a[1..], b, after);
    }
  }

  function Accepting(progress: Progress): Option<Ledger> {
    if progress.Going? then Some(progress.ledger) else None
  }

  lemma {:induction false} CallsReplay(fl: FloatReader, calls: seq<Json>, names: set<Points>, ledger: Ledger)
    ensures Accepting(CheckCalls(fl, calls, names, ledger))
         == if AllPass(fl, calls, names) then Replay(CallEvents(calls), ledger) else None
  {
    if calls != [] {
      HeadTail(calls);
      ConsTail(Called(CallId(calls[0])), CallEvents(calls[1..]));
      match AddCall(ledger, CallId(calls[0]))
      case None =>
      case Some(after) =>
        CallsReplay(fl, calls[1..], names, after);
        assert AllPass(fl, calls, names) ==> AllPass(fl, calls[1..], names);
    }
  }

  lemma ResultReplays(m: Json, allow: bool, ledger: Ledger)
    requires m.Obj?
    ensures Accepting(FinishMessage(m.members, IsResult(m), allow, ledger))
         == (match Field(m.members, PointsOf("tool_call_id"))
             case None => if IsResult(m) then None else Some(ledger)
             case Some(id) =>
               if IsResult(m) && id.Str? && allow then Replay(ResultEvent(m), ledger) else None)
  {
    if IsResult(m) {
      var event := ResultEvent(m)[0];
      assert ResultEvent(m) == [event] && [event][1..] == [];
    }
  }

  lemma MessageReplays(fl: FloatReader, first: bool, m: Json, names: set<Points>, allow: bool, ledger: Ledger)
    ensures Accepting(CheckMessage(fl, first, m, names, allow, ledger))
         == if WellFormed(fl, first, m, names, allow)
            then Replay(CallEvents(CallsOf(m)) + ResultEvent(m), ledger) else None
  {
    if MessageShape(first, m, allow) {
      CallsReplay(fl, CallsOf(m), names, ledger);
      ReplayAppend(CallEvents(CallsOf(m)), ResultEvent(m), ledger);
      match CheckCalls(fl, CallsOf(m), names, ledger)
      case Refused(_) =>
      case Going(after) => ResultReplays(m, allow, after);
    }
  }

  lemma {:induction false} MessagesReplay(
      fl: FloatReader, first: bool, messages: seq<Json>, names: set<Points>, allow: bool, ledger: Ledger)
    ensures Accepting(CheckMessages(fl, first, messages, names, allow, ledger))
         == if AllWellFormed(fl, first, messages, names, allow) then Replay(Events(messages), ledger) else None
  {
    if messages != [] {
      var m := messages[0];
      MessageReplays(fl, first, m, names, allow, ledger);
      ReplayAppend(CallEvents(CallsOf(m)) + ResultEvent(m), Events(messages[1..]), ledger);
      WellFormedTail(fl, first, messages, names, allow);
      match CheckMessage(fl, first, m, names, allow, ledger)
      case Refused(_) =>
      case Going(after) => MessagesReplay(fl, false, messages[1..], names, allow, after);
    }
  }

  lemma WellFormedTail(fl: FloatReader, first: bool, messages: seq<Json>, names: set<Points>, allow: bool)
    requires messages != []
    ensures AllWellFormed(fl, first, messages, names, allow) <==>
              WellFormed(fl, first, messages[0], names, allow)
              && AllWellFormed(fl, false, messages[1..], names, allow)
  {
    if AllWellFormed(fl, false, messages[1..], names, allow) {
      assert forall i :: 0 < i < |messages| ==> messages[i] == messages[1..][i - 1];
    }
  }

  // ---------------------------------------------------------------------------------------------
  // Replaying succeeds exactly on events that pair off.
  // ---------------------------------------------------------------------------------------------

  /** The event at `n` may happen after the events before it. */
  predicate MayHappen(events: seq<Event>, n: nat)
    requires n < |events|
  {
    match events[n]
    case Called(id) => Called(id) !in events[..n]
    case Answered(id) => Called(id) in events[..n] && Answered(id) !in events[..n]
  }

  predicate Legal(events: seq<Event>) {
    forall n :: 0 <= n < |events| ==> MayHappen(events, n)
  }

  /** The calls are the disjoint union of the pending and the answered ones. */
  ghost predicate Accounts(events: seq<Event>, ledger: Ledger) {
    && (forall id :: id in ledger.seen <==> Called(id) in events)
    && (forall id :: id in ledger.pending <==> Called(id) in events && Answered(id) !in events)
    && (forall id :: Answered(id) in events ==> Called(id) in events)
  }

  lemma {:induction false} ReplayAccounts(events: seq<Event>)
    ensures Replay(events, EMPTY).Some? <==> Legal(events)
    ensures Replay(events, EMPTY).Some? ==> Accounts(events, Replay(events, EMPTY).value)
    decreases |events|
  {
    if events != [] {
      var n := |events| - 1;
      var before, last := events[..n], events[n];
      assert events == before + [last];
      ReplayAccounts(before);
      ReplayAppend(before, [last], EMPTY);
      assert forall k: nat :: k < n ==> before[..k] == events[..k];
      assert forall k: nat :: k < n ==> MayHappen(before, k) == MayHappen(events, k);
      assert Legal(events) <==> Legal(before) && MayHappen(events, n);
      if Replay(before, EMPTY).Some? {
        var ledger := Replay(before, EMPTY).value;
        assert Replay([last], ledger) == Record(ledger, last) by {
          assert [last][1..] == [];
        }
        if Record(ledger, last).Some? {
          RecordAccounts(before, ledger, last);
        }
      }
    }
  }

  lemma RecordAccounts(before: seq<Event>, ledger: Ledger, last: Event)
    requires Accounts(before, ledger) && Record(ledger, last).Some?
    ensures Accounts(before + [last], Record(ledger, last).value)
  {
    assert forall e :: e in before + [last] <==> e in before || e == last;
  }

  lemma SourceOf(events: seq<Event>, pairing: map<nat, nat>, n: nat) returns (i: nat)
    requires IsPairing(events, pairing) && n in ResultSites(events)
    ensures i in pairing && pairing[i] == n && i < n && events[i] == Called(events[n].id)
  {
    assert n in pairing.Values;
    i :| i in pairing && pairing[i] == n;
    assert i in CallSites(events);
  }

  lemma OneResult(events: seq<Event>, pairing: map<nat, nat>, m: nat, n: nat)
    requires DistinctCalls(events) && IsPairing(events, pairing)
    requires m < |events| && n < |events| && events[n].Answered?
    ensures events[m] == events[n] ==> m == n
  {
    if events[m] == events[n] {
      var i := SourceOf(events, pairing, m);
      var j := SourceOf(events, pairing, n);
    }
  }

  lemma SettledIsLegal(events: seq<Event>, pairing: map<nat, nat>)
    requires DistinctCalls(events) && IsPairing(events, pairing)
    ensures Legal(events)
    ensures forall id :: Called(id) in events ==> Answered(id) in events
  {
    forall n: nat | n < |events| ensures MayHappen(events, n) {
      match events[n]
      case Called(id) =>
      case Answered(id) =>
        var i := SourceOf(events, pairing, n);
        assert events[..n][i] == Called(id);
        forall m: nat | m < n ensures events[m] != Answered(id) {
          OneResult(events, pairing, m, n);
        }
    }
    forall id | Called(id) in events ensures Answered(id) in events {
      var i: nat :| i < |events| && events[i] == Called(id);
      assert i in CallSites(events);
    }
  }

  /** The position of an event that occurs. */
  function SiteOf(events: seq<Event>, event: Event): (i: nat)
    requires event in events
    ensures i < |events| && events[i] == event
  {
    if events[0] == event then 0 else 1 + SiteOf(events[1..], event)
  }

  lemma LegalOrder(events: seq<Event>, i: nat, n: nat)
    requires Legal(events) && i < |events| && n < |events|
    requires events[i].Called? && events[n] == Answered(events[i].id)
    ensures i < n
  {
    assert MayHappen(events, n);
    var k: nat :| k < n && events[k] == Called(events[i].id);
    LegalIsDistinct(events, i, k);
  }

  lemma EarlierOccurs<T>(s: seq<T>, i: nat, j: nat)
    requires i < |s| && j < |s|
    ensures i < j ==> s[i] in s[..j]
  {
    if i < j {
      assert s[..j][i] == s[i];
    }
  }

  lemma LegalIsDistinct(events: seq<Event>, i: nat, j: nat)
    requires Legal(events) && i < |events| && j < |events| && events[i] == events[j]
    ensures i == j
  {
    EarlierOccurs(events, i, j);
    EarlierOccurs(events, j, i);
    assert MayHappen(events, i) && MayHappen(events, j);
  }

  /** Every call is sent to the result with its identifier. */
  function PairingOf(events: seq<Event>): map<nat, nat>
    requires forall id :: Called(id) in events ==> Answered(id) in events
  {
    map i: nat | i in CallSites(events) :: SiteOf(events, Answered(events[i].id))
  }

  lemma EveryResultIsPaired(events: seq<Event>, n: nat)
    requires Legal(events) && forall id :: Called(id) in events ==> Answered(id) in events
    requires n in ResultSites(events)
    ensures n in PairingOf(events).Values
  {
    assert MayHappen(events, n);
    var i: nat :| i < n && events[i] == Called(events[n].id);
    assert i in PairingOf(events);
    LegalIsDistinct(events, PairingOf(events)[i], n);
  }

  lemma LegalPairs(events: seq<Event>)
    requires Legal(events) && forall id :: Called(id) in events ==> Answered(id) in events
    ensures DistinctCalls(events) && IsPairing(events, PairingOf(events))
  {
    var pairing := PairingOf(events);
    forall i: nat, j: nat | i < |events| && j < |events| && events[i] == events[j] ensures i == j {
      LegalIsDistinct(events, i, j);
    }
    forall i | i in pairing ensures i < pairing[i] {
      LegalOrder(events, i, pairing[i]);
    }
    forall n | n in ResultSites(events) ensures n in pairing.Values {
      EveryResultIsPaired(events, n);
    }
  }

  /** A history is accepted exactly when its messages are well formed and its calls and results pair off. */
  lemma HistoryAccepted(fl: FloatReader, messages: seq<Json>, names: set<Points>, allow: bool)
    ensures CheckHistory(fl, messages, names, allow) == Pass <==>
              AllWellFormed(fl, true, messages, names, allow) && Settled(Events(messages))
  {
    var events := Events(messages);
    MessagesReplay(fl, true, messages, names, allow, EMPTY);
    ReplayAccounts(events);
    if CheckHistory(fl, messages, names, allow) == Pass {
      var ledger := Replay(events, EMPTY).value;
      assert forall id :: id !in ledger.pending;
      LegalPairs(events);
    }
    if AllWellFormed(fl, true, messages, names, allow) && Settled(events) {
      var pairing :| IsPairing(events, pairing);
      SettledIsLegal(events, pairing);
      var ledger := Replay(events, EMPTY).value;
      assert forall id :: id !in ledger.pending;
      assert ledger.pending == {};
    }
  }
}
