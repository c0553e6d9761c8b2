/**
 The generation loop: it looks for a closing tag in a twelve-character window only, and must still
 stop where a loop would stop that runs the strict parser on the whole text after every chunk.
 */
module KolibriStream {
  import opened Prelude
  import opened Text
  import opened Utf8
  import opened Json
  import opened JsonLocality
  import opened Kolibri

  const MAX_RESPONSE_BYTES := 1024 * 1024

  function Join(chunks: seq<string>): string {
    if chunks == [] then "" else Join(chunks[..|chunks| - 1]) + chunks[|chunks| - 1]
  }

  lemma JoinNext(chunks: seq<string>, k: nat)
    requires k < |chunks|
    ensures Join(chunks[..k + 1]) == Join(chunks[..k]) + chunks[k]
  {
    assert chunks[..k + 1][..k] == chunks[..k];
  }

  lemma {:induction false} JoinAppend(chunks: seq<string>, j: nat, k: nat) returns (t: string)
    requires j <= k <= |chunks|
    ensures Join(chunks[..k]) == Join(chunks[..j]) + t
    decreases k
  {
    t := "";
    if j < k {
      t := JoinAppend(chunks, j, k - 1);
      JoinNext(chunks, k - 1);
      Assoc(Join(chunks[..j]), t, chunks[k - 1]);
      t := t + chunks[k - 1];
    }
  }

  /** `s[-12:]` */
  function Window(s: string): string {
    if |s| <= |CLOSING| then s else s[|s| - |CLOSING|..]
  }

  lemma WindowSlides(b: string, c: string)
    ensures Window(Window(b) + c) == Window(b + c)
  {
  }

  // ---------------------------------------------------------------------------------------------
  // Where the two loops end. `k` counts the chunks that were consumed.
  // ---------------------------------------------------------------------------------------------

  datatype LoopEnd =
    | Exhausted
    | Overflowed(k: nat)
    | Stopped(k: nat, completion: Completion)
    | Raised(k: nat, reason: Rejection)

  datatype Setup = Setup(fl: FloatReader, uuid: string, request: Request, stops: bool)

  function StrictParse(setup: Setup, text: string): Parse {
    ParseCompletion(setup.fl, setup.uuid, text, Stop, setup.request)
  }

  predicate IsCall(parse: Parse) {
    parse.Accepted? && parse.completion.Calling?
  }

  predicate Triggered(b: string, c: string) {
    Find(Window(b) + c, CLOSING).Some?
  }

  function FastLoop(setup: Setup, chunks: seq<string>, k: nat): LoopEnd
    requires k <= |chunks|
    decreases |chunks| - k
  {
    if k == |chunks| then Exhausted
    else
      var b := Join(chunks[..k]);
      if |Encode(b + chunks[k])| > MAX_RESPONSE_BYTES then Overflowed(k + 1)
      else if setup.stops && Triggered(b, chunks[k]) then
        match StrictParse(setup, b + chunks[k])
        case Accepted(completion) => Stopped(k + 1, completion)
        case Rejected(reason) =>
          if reason == Malformed then FastLoop(setup, chunks, k + 1) else Raised(k + 1, reason)
      else FastLoop(setup, chunks, k + 1)
  }

  function SimpleLoop(setup: Setup, chunks: seq<string>, k: nat): LoopEnd
    requires k <= |chunks|
    decreases |chunks| - k
  {
    if k == |chunks| then Exhausted
    else
      var b := Join(chunks[..k]) + chunks[k];
      if |Encode(b)| > MAX_RESPONSE_BYTES then Overflowed(k + 1)
      else if setup.stops && IsCall(StrictParse(setup, b)) then Stopped(k + 1, StrictParse(setup, b).completion)
      else SimpleLoop(setup, chunks, k + 1)
  }

  /** The loop of `complete`, with the variables it keeps. */
  method Generate(setup: Setup, chunks: seq<string>) returns (end: LoopEnd, parts: seq<string>)
    ensures end == FastLoop(setup, chunks, 0)
    ensures end.Exhausted? ==> parts == chunks
    ensures end.Stopped? ==> end.k <= |chunks| && parts == chunks[..end.k]
  {
    parts := [];
    var textBytes: nat := 0;
    var closingTail := "";
    for k := 0 to |chunks|
      invariant parts == chunks[..k]
      invariant textBytes == |Encode(Join(parts))|
      invariant setup.stops ==> closingTail == Window(Join(parts))
      invariant FastLoop(setup, chunks, 0) == FastLoop(setup, chunks, k)
    {
      var part := chunks[k];
      EncodeAppend(Join(parts), part);
      JoinNext(chunks, k);
      WindowSlides(Join(parts), part);
      textBytes := textBytes + |Encode(part)|;
      if textBytes > MAX_RESPONSE_BYTES {
        return Overflowed(k + 1), parts;
      }
      parts := parts + [part];
      assert parts == chunks[..k + 1];
      if setup.stops {
        var closingScan := closingTail + part;
        closingTail := Window(closingScan);
        if Find(closingScan, CLOSING).Some? {
          var parse := StrictParse(setup, Join(parts));
          if parse.Accepted? {
            return Stopped(k + 1, parse.completion), parts;
          }
          if parse.reason != Malformed {
            return Raised(k + 1, parse.reason), parts;
          }
        }
      }
    }
    return Exhausted, parts;
  }

  // ---------------------------------------------------------------------------------------------
  // The window is wide enough.
  // ---------------------------------------------------------------------------------------------

  lemma TriggeredMeansContains(b: string, c: string)
    requires Triggered(b, c)
    ensures Contains(b + c, CLOSING)
  {
    var w := Window(b);
    var q := Find(w + c, CLOSING).value;
    var shift := |b| - |w|;
    assert (w + c)[q..q + |CLOSING|] == (b + c)[shift + q..shift + q + |CLOSING|];
    assert OccursAt(CLOSING, b + c, shift + q);
  }

  /** A closing tag that ends inside the new chunk starts inside the window or after it. */
  lemma EndingInChunkTriggers(b: string, c: string, q: nat)
    requires OccursAt(CLOSING, b + c, q) && |b| < q + |CLOSING|
    ensures Triggered(b, c)
  {
    var w := Window(b);
    var shift := |b| - |w|;
    assert (w + c)[q - shift..q - shift + |CLOSING|] == (b + c)[q..q + |CLOSING|];
    assert OccursAt(CLOSING, w + c, q - shift);
  }

  /** What follows the object in an accepted call: spaces, the closing tag, spaces. */
  lemma RemainderEnds(rest: string) returns (trail: nat)
    requires Strip(rest) == CLOSING
    ensures trail + |CLOSING| <= |LStrip(rest)| <= |rest|
    ensures AllSpace(rest[|rest| - trail..])
    ensures OccursAt(CLOSING, rest, |rest| - trail - |CLOSING|)
  {
    var l := LStrip(rest);
    RStripSplits(l);
    LStripIsSuffix(rest);
    trail := |l| - |CLOSING|;
    assert rest[|rest| - trail..] == l[|CLOSING|..];
    assert rest[|rest| - trail - |CLOSING|..|rest| - trail] == l[..|CLOSING|];
  }

  lemma {:induction false} LStripIsSuffix(s: string)
    ensures |LStrip(s)| <= |s| && LStrip(s) == s[|s| - |LStrip(s)|..]
  {
    if s != [] && IsSpace(s[0]) {
      LStripIsSuffix(s[1..]);
    }
  }

  lemma StripDropsSpaces(r: string, c: string)
    requires AllSpace(c) && Strip(r + c) == CLOSING && LStrip(r) != []
    ensures Strip(r) == CLOSING
  {
    LStripAppend(r, c);
    RStripSpaces(LStrip(r), c);
  }

  /** The decoder's input before the last chunk, when the object and its tag end before that chunk. */
  lemma DecodedBefore(fl: FloatReader, p: string, c: string)
    requires ParseValue(fl, p + c).Good? && ParseValue(fl, p + c).value.Obj?
    requires |c| <= |ParseValue(fl, p + c).rest|
    ensures var r := ParseValue(fl, p + c);
            ParseValue(fl, p) == Good(r.value, r.rest[..|r.rest| - |c|])
            && r.rest == r.rest[..|r.rest| - |c|] + c
  {
    var r := ParseValue(fl, p + c);
    var before := r.rest[..|r.rest| - |c|];
    ValueLocal(fl, p + c, before);
    var w := Consumed(p + c, r.rest);
    assert p + c == w + r.rest;
    assert p == (p + c)[..|p|] == w + before;
    assert c == (p + c)[|p|..] == r.rest[|before|..];
  }

  lemma LStripShorter(s: string, c: string)
    requires |c| < |LStrip(s + c)|
    ensures LStrip(s) != []
  {
    if LStrip(s) == [] {
      LStripSpaces(s, c);
      LStripIsSuffix(c);
    }
  }

  lemma SuffixOccurs(s: string, rest: string, word: string, q: nat)
    requires |rest| <= |s| && s[|s| - |rest|..] == rest && OccursAt(word, rest, q)
    ensures OccursAt(word, s, |s| - |rest| + q)
  {
    assert s[|s| - |rest| + q..|s| - |rest| + q + |word|] == rest[q..q + |word|];
  }

  lemma SuffixOfSuffix(s: string, p: string, rest: string)
    requires |rest| <= |p| <= |s| && s[|s| - |p|..] == p && p[|p| - |rest|..] == rest
    ensures s[|s| - |rest|..] == rest
  {
    assert s[|s| - |rest|..] == s[|s| - |p|..][|p| - |rest|..];
  }

  lemma PayloadIsSuffix(text: string, i: nat)
    requires i + |OPENING| <= |text|
    ensures |Payload(text, i)| <= |text| - i - |OPENING|
    ensures text[|text| - |Payload(text, i)|..] == Payload(text, i)
  {
    LStripIsSuffix(text[i + |OPENING|..]);
    SuffixOfSuffix(text, text[i + |OPENING|..], Payload(text, i));
  }

  lemma RestIsSuffix(fl: FloatReader, p: string)
    requires ParseValue(fl, p).Good? && !IsNumber(ParseValue(fl, p).value)
    ensures |ParseValue(fl, p).rest| < |p|
    ensures p[|p| - |ParseValue(fl, p).rest|..] == ParseValue(fl, p).rest
  {
    var rest := ParseValue(fl, p).rest;
    ValueLocal(fl, p, rest);
    assert p == Consumed(p, rest) + rest;
  }

  lemma CallRest(fl: FloatReader, text: string, i: nat)
    requires i + |OPENING| <= |text| && ParseValue(fl, Payload(text, i)).Good?
    requires ParseValue(fl, Payload(text, i)).value.Obj?
    ensures var rest := ParseValue(fl, Payload(text, i)).rest;
            i + |OPENING| + |rest| < |text| && |rest| < |Payload(text, i)| && text[|text| - |rest|..] == rest
  {
    PayloadIsSuffix(text, i);
    RestIsSuffix(fl, Payload(text, i));
    SuffixOfSuffix(text, Payload(text, i), ParseValue(fl, Payload(text, i)).rest);
  }

  /** Where the parts of an accepted call lie in the text. */
  lemma CallParts(setup: Setup, text: string) returns (i: nat, v: Json, rest: string)
    requires IsCall(StrictParse(setup, text))
    ensures Find(text, OPENING) == Some(i) && i + |OPENING| + |rest| < |text|
    ensures ParseValue(setup.fl, Payload(text, i)) == Good(v, rest) && v.Obj? && Strip(rest) == CLOSING
    ensures |rest| < |Payload(text, i)|
    ensures text[|text| - |rest|..] == rest
    ensures StrictParse(setup, text) == ParseEnvelope(text[..i], setup.uuid, v, rest, setup.request)
  {
    i := Find(text, OPENING).value;
    v, rest := ParseValue(setup.fl, Payload(text, i)).value, ParseValue(setup.fl, Payload(text, i)).rest;
    CallRest(setup.fl, text, i);
  }

  /** The tag ends before the last chunk only if that chunk is all space. */
  lemma ChunkIsSpace(b: string, c: string, rest: string)
    requires |rest| <= |b + c| && (b + c)[|b + c| - |rest|..] == rest
    requires Strip(rest) == CLOSING && !Triggered(b, c)
    ensures AllSpace(c) && |c| + |CLOSING| <= |LStrip(rest)| <= |rest|
  {
    var trail := RemainderEnds(rest);
    TagEndsBefore(b, c, rest, trail);
    EndsWithChunk(b, c, rest);
    SuffixIsSpace(rest, c, trail);
  }

  lemma TagEndsBefore(b: string, c: string, rest: string, trail: nat)
    requires |rest| <= |b + c| && (b + c)[|b + c| - |rest|..] == rest && !Triggered(b, c)
    requires trail + |CLOSING| <= |rest| && OccursAt(CLOSING, rest, |rest| - trail - |CLOSING|)
    ensures |c| <= trail
  {
    SuffixOccurs(b + c, rest, CLOSING, |rest| - trail - |CLOSING|);
    if trail < |c| {
      EndingInChunkTriggers(b, c, |b + c| - trail - |CLOSING|);
    }
  }

  lemma SuffixIsSpace(rest: string, c: string, trail: nat)
    requires |c| <= trail <= |rest| && AllSpace(rest[|rest| - trail..]) && c == rest[|rest| - |c|..]
    ensures AllSpace(c)
  {
    assert c == rest[|rest| - trail..][trail - |c|..];
  }

  lemma EndsWithChunk(b: string, c: string, rest: string)
    requires |c| <= |rest| <= |b + c| && (b + c)[|b + c| - |rest|..] == rest
    ensures c == rest[|rest| - |c|..]
  {
    assert c == (b + c)[|b + c| - |c|..];
    SuffixOfSuffix(b + c, rest, rest[|rest| - |c|..]);
  }

  lemma PayloadBefore(b: string, c: string, i: nat)
    requires Find(b + c, OPENING) == Some(i) && i + |OPENING| <= |b| && |c| < |Payload(b + c, i)|
    ensures Find(b, OPENING) == Some(i) && (b + c)[..i] == b[..i]
    ensures Payload(b + c, i) == Payload(b, i) + c
  {
    OccursInAppend(OPENING, b, c, i);
    FindAppend(b, c, OPENING);
    var tail := b[i + |OPENING|..];
    assert (b + c)[i + |OPENING|..] == tail + c;
    LStripShorter(tail, c);
    LStripAppend(tail, c);
  }

  lemma RemainderBefore(before: string, c: string)
    requires AllSpace(c) && |c| + |CLOSING| <= |LStrip(before + c)| && Strip(before + c) == CLOSING
    ensures Strip(before) == CLOSING
  {
    LStripShorter(before, c);
    StripDropsSpaces(before, c);
  }

  /** A call that the window did not notice had already been accepted before the chunk. */
  lemma CallBefore(setup: Setup, b: string, c: string)
    requires IsCall(StrictParse(setup, b + c)) && !Triggered(b, c)
    ensures StrictParse(setup, b) == StrictParse(setup, b + c)
  {
    var i, v, rest := CallParts(setup, b + c);
    ChunkIsSpace(b, c, rest);
    PayloadBefore(b, c, i);
    DecodedBefore(setup.fl, Payload(b, i), c);
    RemainderBefore(rest[..|rest| - |c|], c);
    SameEnvelope(setup, b, b + c, i);
  }

  /** Two texts that decode alike are judged alike. */
  lemma SameEnvelope(setup: Setup, b: string, text: string, i: nat)
    requires Find(b, OPENING) == Some(i) && Find(text, OPENING) == Some(i) && text[..i] == b[..i]
    requires var p, q := ParseValue(setup.fl, Payload(b, i)), ParseValue(setup.fl, Payload(text, i));
             p.Good? && q.Good? && p.value == q.value && Strip(p.rest) == Strip(q.rest)
    ensures StrictParse(setup, b) == StrictParse(setup, text)
  {
  }

  // ---------------------------------------------------------------------------------------------
  // Refinement.
  // ---------------------------------------------------------------------------------------------

  lemma AnswersHaveNoControl(setup: Setup, text: string)
    requires HasControl(text) && StrictParse(setup, text).Accepted?
    ensures IsCall(StrictParse(setup, text))
  {
  }

  lemma TriggeredAcceptsCalls(setup: Setup, b: string, c: string)
    requires Triggered(b, c) && StrictParse(setup, b + c).Accepted?
    ensures IsCall(StrictParse(setup, b + c))
  {
    TriggeredMeansContains(b, c);
    var q: nat :| q <= |b + c| && OccursAt(CLOSING, b + c, q);
    ClosingIsControl(b + c, q);
    AnswersHaveNoControl(setup, b + c);
  }

  /** After a rejection that is raised, the simple loop stops later only on a rescuable text. */
  lemma {:induction false} SimpleStopsOnlyIfRescuable(setup: Setup, chunks: seq<string>, j: nat, k: nat)
    requires j <= k <= |chunks| && !setup.request.choice.Disabled?
    requires EarlyRejection(setup.fl, setup.uuid, Join(chunks[..j]), setup.request)
    requires SimpleLoop(setup, chunks, k).Stopped?
    ensures Rescuable(setup.fl, setup.uuid, Join(chunks[..j]), setup.request)
    decreases |chunks| - k
  {
    JoinNext(chunks, k);
    var b := Join(chunks[..k + 1]);
    if IsCall(StrictParse(setup, b)) {
      var t := JoinAppend(chunks, j, k + 1);
      OnlyRescuableTextsRecover(setup.fl, setup.uuid, Join(chunks[..j]), setup.request, t, Stop);
    } else {
      SimpleStopsOnlyIfRescuable(setup, chunks, j, k + 1);
    }
  }

  /** The two loops agree, or the fast one raised an error that the simple one never meets. */
  predicate Agree(setup: Setup, chunks: seq<string>, k: nat)
    requires k <= |chunks|
  {
    var fast := FastLoop(setup, chunks, k);
    var simple := SimpleLoop(setup, chunks, k);
    || fast == simple
    || (&& fast.Raised? && k < fast.k <= |chunks|
        && EarlyRejection(setup.fl, setup.uuid, Join(chunks[..fast.k]), setup.request)
        && (simple.Stopped? ==>
              fast.k < simple.k
              && Rescuable(setup.fl, setup.uuid, Join(chunks[..fast.k]), setup.request)))
  }

  lemma {:induction false} SimpleStopsLater(setup: Setup, chunks: seq<string>, k: nat)
    requires k <= |chunks|
    ensures SimpleLoop(setup, chunks, k).Stopped? ==> k < SimpleLoop(setup, chunks, k).k <= |chunks|
    decreases |chunks| - k
  {
    if k < |chunks| {
      SimpleStopsLater(setup, chunks, k + 1);
    }
  }

  /** From any chunk boundary at which no call has been accepted, the window loses nothing. */
  lemma {:induction false} FastRefinesSimple(setup: Setup, chunks: seq<string>, k: nat)
    requires k <= |chunks| && (setup.stops ==> !setup.request.choice.Disabled?)
    requires setup.stops ==> !IsCall(StrictParse(setup, Join(chunks[..k])))
    ensures Agree(setup, chunks, k)
    decreases |chunks| - k
  {
    if k < |chunks| {
      var b, c := Join(chunks[..k]), chunks[k];
      JoinNext(chunks, k);
      if |Encode(b + c)| > MAX_RESPONSE_BYTES {
      } else if !setup.stops {
        FastRefinesSimple(setup, chunks, k + 1);
      } else if !Triggered(b, c) {
        if IsCall(StrictParse(setup, b + c)) {
          CallBefore(setup, b, c);
        }
        FastRefinesSimple(setup, chunks, k + 1);
      } else if StrictParse(setup, b + c).Accepted? {
        TriggeredAcceptsCalls(setup, b, c);
      } else if StrictParse(setup, b + c).reason == Malformed {
        FastRefinesSimple(setup, chunks, k + 1);
      } else {
        TriggeredMeansContains(b, c);
        SimpleStopsLater(setup, chunks, k + 1);
        if SimpleLoop(setup, chunks, k + 1).Stopped? {
          SimpleStopsOnlyIfRescuable(setup, chunks, k + 1, k + 1);
        }
      }
    }
  }
}
