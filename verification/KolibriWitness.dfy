/** A valid call that the generation loop rejects because its text arrives in two chunks. */
module KolibriWitness {
  import opened Prelude
  import opened Text
  import opened Utf8
  import opened Json
  import opened JsonLocality
  import opened JsonRoundTrip
  import opened Kolibri
  import opened KolibriStream

  /** Characters that a JSON string holds as they are. */
  predicate Plain(s: string) {
    forall i :: 0 <= i < |s| ==> 0x20 <= s[i] as int < 0x80 && s[i] != '\"' && s[i] != '\\'
  }

  lemma {:induction false} PlainIsWrittenAsIs(s: string)
    requires Plain(s)
    ensures WritePoints(PointsOf(s)) == Some(s)
  {
    if s != [] {
      assert PointsOf(s)[1..] == PointsOf(s[1..]);
      PlainIsWrittenAsIs(s[1..]);
      assert WritePoint(PointsOf(s)[0]) == Some([s[0]]);
      HeadTail(s);
    }
  }

  lemma {:induction false} EncodeBound(s: string)
    ensures |Encode(s)| <= 4 * |s|
  {
    if s != [] {
      EncodeBound(s[1..]);
    }
  }

  lemma ContainsPrepend(a: string, s: string, word: string)
    requires Contains(s, word)
    ensures Contains(a + s, word)
  {
    var i: nat :| i <= |s| && OccursAt(word, s, i);
    assert (a + s)[|a| + i..|a| + i + |word|] == s[i..i + |word|];
    assert OccursAt(word, a + s, |a| + i);
  }

  // ---------------------------------------------------------------------------------------------
  // {"name":"lookup","arguments":{"query":"</tool_call>"}}
  // ---------------------------------------------------------------------------------------------

  const QUERY := Member(PointsOf("query"), Str(PointsOf(CLOSING)))
  const NAME := Member(PointsOf("name"), Str(PointsOf("lookup")))
  const ARGUMENTS := Member(PointsOf("arguments"), Obj([QUERY]))
  const CALL := Obj([NAME, ARGUMENTS])

  predicate HoldsClosing(text: Option<string>, bound: nat) {
    text.Some? && Contains(text.value, CLOSING) && |text.value| <= bound
  }

  lemma PlainStringText(s: string)
    requires Plain(s)
    ensures WriteString(PointsOf(s)) == Some("\"" + s + "\"")
  {
    PlainIsWrittenAsIs(s);
  }

  lemma OneFieldText(m: Member)
    requires WriteMember(m).Some?
    ensures WriteMembers([m]) == Some(WriteMember(m).value + "}")
  {
  }

  lemma TwoFieldsText(a: Member, b: Member)
    requires WriteMember(a).Some? && WriteMember(b).Some?
    ensures WriteMembers([a, b]) == Some(WriteMember(a).value + "," + (WriteMember(b).value + "}"))
  {
    assert [a, b][1..] == [b];
    OneFieldText(b);
  }

  /** A field whose value is an object of one field. */
  lemma NestedText(key: string, m: Member)
    requires Plain(key) && WriteMember(m).Some?
    ensures WriteMember(Member(PointsOf(key), Obj([m])))
         == Some("\"" + key + "\"" + ":" + ("{" + (WriteMember(m).value + "}")))
  {
    PlainStringText(key);
    OneFieldText(m);
  }

  /** A word in the middle of a text. */
  lemma ContainsWithin(a: string, s: string, b: string, word: string)
    requires Contains(s, word)
    ensures Contains(a + (s + b), word)
  {
    ContainsAppend(s, b, word);
    ContainsPrepend(a, s + b, word);
  }

  lemma QueryText()
    ensures HoldsClosing(WriteMember(QUERY), 22)
  {
    PlainStringText("query");
    PlainStringText(CLOSING);
    var key, value := "\"" + "query" + "\"", "\"" + CLOSING + "\"";
    assert OccursAt(CLOSING, CLOSING, 0);
    ContainsWithin("\"", CLOSING, "\"", CLOSING);
    Assoc("\"", CLOSING, "\"");
    ContainsPrepend(key + ":", value, CLOSING);
  }

  lemma ArgumentsText()
    ensures HoldsClosing(WriteMember(ARGUMENTS), 36)
  {
    QueryText();
    NestedText("arguments", QUERY);
    var query := WriteMember(QUERY).value;
    ContainsWithin("{", query, "}", CLOSING);
    ContainsPrepend("\"" + "arguments" + "\"" + ":", "{" + (query + "}"), CLOSING);
  }

  lemma CallText()
    ensures HoldsClosing(Write(CALL), 60)
  {
    NameText();
    ArgumentsText();
    ObjectText(NAME, ARGUMENTS);
    EnvelopeHolds(WriteMember(NAME).value, WriteMember(ARGUMENTS).value, CLOSING);
  }

  lemma ObjectText(a: Member, b: Member)
    requires WriteMember(a).Some? && WriteMember(b).Some?
    ensures Write(Obj([a, b])) == Some("{" + (WriteMember(a).value + "," + (WriteMember(b).value + "}")))
  {
    TwoFieldsText(a, b);
  }

  lemma EnvelopeHolds(first: string, second: string, word: string)
    requires Contains(second, word)
    ensures Contains("{" + (first + "," + (second + "}")), word)
    ensures |"{" + (first + "," + (second + "}"))| == |first| + |second| + 3
  {
    ContainsWithin(first + ",", second, "}", word);
    ContainsPrepend("{", first + "," + (second + "}"), word);
  }

  lemma NameText()
    ensures WriteMember(NAME).Some? && |WriteMember(NAME).value| <= 20
  {
    PlainStringText("name");
    PlainStringText("lookup");
  }

  lemma CallIsCanonical(fl: FloatReader)
    ensures Canonical(fl, CALL)
  {
    assert |NAME.key| != |ARGUMENTS.key|;
  }

  // ---------------------------------------------------------------------------------------------
  // The call, then its closing tag.
  // ---------------------------------------------------------------------------------------------

  function LookupSetup(fl: FloatReader, uuid: string): Setup {
    Setup(fl, uuid, Request({PointsOf("lookup")}, Auto), true)
  }

  lemma CallParses(fl: FloatReader, uuid: string, text: string, x: string)
    requires Write(CALL) == Some(text)
    ensures StrictParse(LookupSetup(fl, uuid), OPENING + text + x)
         == ParseEnvelope("", uuid, CALL, x, LookupSetup(fl, uuid).request)
  {
    var whole := OPENING + text + x;
    CallIsCanonical(fl);
    ValueRoundTrip(fl, CALL, x);
    assert whole[0..|OPENING|] == OPENING;
    assert OccursAt(OPENING, whole, 0);
    assert whole[|OPENING|..] == text + x;
    assert (text + x)[0] == '{';
    assert whole[..0] == "";
    EmptyHasNoControl();
  }

  lemma EmptyHasNoControl()
    ensures !HasControl("")
  {
  }

  lemma CallIsAdvertised(fl: FloatReader, uuid: string)
    ensures HasEnvelope(CALL)
    ensures IsCall(ParseCall("", uuid, CALL.members, LookupSetup(fl, uuid).request))
  {
    assert |NAME.key| != |ARGUMENTS.key|;
    assert CALL.members[1..][0] == ARGUMENTS;
    assert KeySet(CALL.members) == {NAME.key, ARGUMENTS.key} by {
      assert NAME in CALL.members && ARGUMENTS in CALL.members;
    }
    QueryText();
    OneFieldText(QUERY);
    var arguments := "{" + (WriteMember(QUERY).value + "}");
    assert Write(Obj([QUERY])) == Some(arguments);
    EncodeBound(arguments);
  }

  /** The simple loop accepts the call at the second chunk; the real one has raised at the first. */
  lemma EarlyRejectionLosesCall(fl: FloatReader, uuid: string) returns (setup: Setup, chunks: seq<string>)
    ensures Write(CALL).Some? && chunks == [OPENING + Write(CALL).value, CLOSING]
    ensures setup == LookupSetup(fl, uuid)
    ensures FastLoop(setup, chunks, 0) == Raised(1, Envelope)
    ensures SimpleLoop(setup, chunks, 0).Stopped? && SimpleLoop(setup, chunks, 0).k == 2
    ensures IsCall(StrictParse(setup, Join(chunks)))
  {
    CallText();
    var text := Write(CALL).value;
    var first := OPENING + text;
    setup, chunks := LookupSetup(fl, uuid), [first, CLOSING];
    CallIsAdvertised(fl, uuid);
    CallParses(fl, uuid, text, "");
    CallParses(fl, uuid, text, CLOSING);
    StripClosing("");
    ContainsPrepend(OPENING, text, CLOSING);
    TwoChunks(setup, first, text);
  }

  lemma TwoChunks(setup: Setup, first: string, text: string)
    requires setup.stops && |first| <= 80 && Contains(first, CLOSING)
    requires StrictParse(setup, first + "") == Rejected(Envelope)
    requires IsCall(StrictParse(setup, first + CLOSING))
    ensures FastLoop(setup, [first, CLOSING], 0) == Raised(1, Envelope)
    ensures SimpleLoop(setup, [first, CLOSING], 0) == Stopped(2, StrictParse(setup, first + CLOSING).completion)
    ensures Join([first, CLOSING]) == first + CLOSING
  {
    var chunks := [first, CLOSING];
    assert chunks[..0] == [] && chunks[..1] == [first] && [first][..0] == [];
    assert first + "" == first == "" + first;
    assert Join(chunks[..1]) == first;
    EncodeBound(first);
    EncodeBound(first + CLOSING);
    var q: nat :| q <= |first| && OccursAt(CLOSING, first, q);
    assert Find("" + first, CLOSING).Some?;
  }
}
