/** One guarded completion: the non-blocking lock, the context bound, the loop, and the final checks. */
module KolibriRuntimes {
  import opened Prelude
  import opened Json
  import opened Kolibri
  import opened KolibriStream

  /** What the model yields; `None` stands for a token count that is not an integer. */
  datatype Part = Part(text: string, finish: FinishReason, promptTokens: Option<int>, generationTokens: Option<int>)

  /** The parts of a generation, and whether the generator raises when it is asked for another. */
  datatype Generation = Generation(parts: seq<Part>, crashes: bool)

  datatype Usage = Usage(promptTokens: nat, completionTokens: nat, totalTokens: nat)

  datatype Failure = Busy | ContextLimit | OutputInvalid | Crashed

  datatype Reply = Completed(completion: Completion, usage: Usage) | Failed(failure: Failure)

  function Texts(parts: seq<Part>): (texts: seq<string>)
    ensures |texts| == |parts|
  {
    seq(|parts|, i requires 0 <= i < |parts| => parts[i].text)
  }

  /** A rejection is a contract error, unless it is an exception that no handler converts. */
  function RejectionFailure(reason: Rejection): Failure {
    if reason == Escaped then Crashed else OutputInvalid
  }

  /** What `complete` answers once its loop has ended after `parts`. */
  function Conclude(
      setup: Setup, parts: seq<Part>, stopped: Option<Completion>, prompt: nat, maxTokens: nat): Reply
  {
    if parts == [] then Failed(OutputInvalid)
    else
      var final := parts[|parts| - 1];
      var finished := final.finish == Stop || final.finish == Length;
      if !finished && !(stopped.Some? && final.finish == Unfinished) then Failed(OutputInvalid)
      else if final.promptTokens != Some(prompt) then Failed(OutputInvalid)
      else if final.generationTokens.None? || !(0 < final.generationTokens.value <= maxTokens) then
        Failed(OutputInvalid)
      else
        var usage := Usage(prompt, final.generationTokens.value, prompt + final.generationTokens.value);
        match stopped
        case Some(completion) => Completed(completion, usage)
        case None =>
          match ParseCompletion(setup.fl, setup.uuid, Join(Texts(parts)), final.finish, setup.request)
          case Accepted(completion) => Completed(completion, usage)
          case Rejected(reason) => Failed(RejectionFailure(reason))
  }

  /** The answer to a request that holds the lock, given where its loop ended. */
  function Answered(
      setup: Setup, generation: Generation, end: LoopEnd, prompt: nat, maxTokens: nat): Reply
    requires end.Stopped? ==> end.k <= |generation.parts|
  {
    match end
    case Overflowed(_) => Failed(OutputInvalid)
    case Raised(_, reason) => Failed(RejectionFailure(reason))
    case Stopped(k, completion) => Conclude(setup, generation.parts[..k], Some(completion), prompt, maxTokens)
    case Exhausted =>
      if generation.crashes then Failed(Crashed)
      else Conclude(setup, generation.parts, None, prompt, maxTokens)
  }

  /** The last of `k` consumed parts reports the prompt it was given, and tokens within the bound. */
  predicate CountsFit(generation: Generation, k: nat, prompt: nat, maxTokens: nat, generated: int) {
    && 0 < k <= |generation.parts| && generation.parts[k - 1].promptTokens == Some(prompt)
    && generation.parts[k - 1].generationTokens == Some(generated) && 0 < generated <= maxTokens
  }

  /** A call was noticed after `k` parts, and generation stopped there without a reason against it. */
  predicate StoppedOnCall(setup: Setup, generation: Generation, k: nat, completion: Completion) {
    && FastLoop(setup, Texts(generation.parts), 0) == Stopped(k, completion)
    && 0 < k <= |generation.parts| && generation.parts[k - 1].finish != Other
  }

  /** The model finished by itself, and what the strict parser makes of everything that it said. */
  predicate RanOut(setup: Setup, generation: Generation, k: nat, parse: Parse) {
    && FastLoop(setup, Texts(generation.parts), 0) == Exhausted && !generation.crashes
    && 0 < k == |generation.parts|
    && (generation.parts[k - 1].finish == Stop || generation.parts[k - 1].finish == Length)
    && parse == ParseCompletion(
         setup.fl, setup.uuid, Join(Texts(generation.parts)), generation.parts[k - 1].finish, setup.request)
  }

  /** When a request that holds the lock and fits the context is completed, and with what. */
  ghost predicate Succeeds(
      setup: Setup, generation: Generation, prompt: nat, maxTokens: nat, completion: Completion, generated: int)
  {
    exists k ::
      && CountsFit(generation, k, prompt, maxTokens, generated)
      && (StoppedOnCall(setup, generation, k, completion) || RanOut(setup, generation, k, Accepted(completion)))
  }

  /** When an exception that is no contract error ends it. */
  ghost predicate Breaks(setup: Setup, generation: Generation, prompt: nat, maxTokens: nat) {
    var end := FastLoop(setup, Texts(generation.parts), 0);
    || (end.Raised? && end.reason == Escaped)
    || (end.Exhausted? && generation.crashes)
    || exists k, generated ::
         CountsFit(generation, k, prompt, maxTokens, generated) && RanOut(setup, generation, k, Rejected(Escaped))
  }

  /** Where the loop stops it has consumed a part. */
  lemma {:induction false} StopsAfterPart(setup: Setup, chunks: seq<string>, k: nat)
    requires k <= |chunks|
    ensures FastLoop(setup, chunks, k).Stopped? ==> k < FastLoop(setup, chunks, k).k <= |chunks|
    decreases |chunks| - k
  {
    if k < |chunks| {
      StopsAfterPart(setup, chunks, k + 1);
    }
  }

  lemma ConcludedStop(setup: Setup, generation: Generation, k: nat, c: Completion, prompt: nat, maxTokens: nat)
    requires FastLoop(setup, Texts(generation.parts), 0) == Stopped(k, c) && 0 < k <= |generation.parts|
    ensures var reply := Conclude(setup, generation.parts[..k], Some(c), prompt, maxTokens);
            && reply != Failed(Crashed)
            && forall completion, usage :: reply == Completed(completion, usage) <==>
                 && usage.promptTokens == prompt && usage.totalTokens == prompt + usage.completionTokens
                 && CountsFit(generation, k, prompt, maxTokens, usage.completionTokens)
                 && StoppedOnCall(setup, generation, k, completion)
  {
    assert generation.parts[..k][k - 1] == generation.parts[k - 1];
  }

  lemma ConcludedEnd(setup: Setup, generation: Generation, prompt: nat, maxTokens: nat)
    requires FastLoop(setup, Texts(generation.parts), 0) == Exhausted && !generation.crashes
    ensures var reply, k := Conclude(setup, generation.parts, None, prompt, maxTokens), |generation.parts|;
            && (reply == Failed(Crashed) <==> exists generated ::
                  && CountsFit(generation, k, prompt, maxTokens, generated)
                  && RanOut(setup, generation, k, Rejected(Escaped)))
            && forall completion, usage :: reply == Completed(completion, usage) <==>
                 && usage.promptTokens == prompt && usage.totalTokens == prompt + usage.completionTokens
                 && CountsFit(generation, k, prompt, maxTokens, usage.completionTokens)
                 && RanOut(setup, generation, k, Accepted(completion))
  {
    var k := |generation.parts|;
    if k > 0 && generation.parts[k - 1].generationTokens.Some? {
      var generated := generation.parts[k - 1].generationTokens.value;
      assert CountsFit(generation, k, prompt, maxTokens, generated)
        <==> generation.parts[k - 1].promptTokens == Some(prompt) && 0 < generated <= maxTokens;
    }
  }

  lemma AnsweredMeans(setup: Setup, generation: Generation, prompt: nat, maxTokens: nat)
    ensures var end := FastLoop(setup, Texts(generation.parts), 0);
            && (end.Stopped? ==> end.k <= |generation.parts|)
            && var reply := Answered(setup, generation, end, prompt, maxTokens);
               && (reply == Failed(Crashed) <==> Breaks(setup, generation, prompt, maxTokens))
               && (reply.Failed? ==> reply == Failed(Crashed) || reply == Failed(OutputInvalid))
               && forall completion, usage :: reply == Completed(completion, usage) <==>
                    && usage.promptTokens == prompt && usage.totalTokens == prompt + usage.completionTokens
                    && Succeeds(setup, generation, prompt, maxTokens, completion, usage.completionTokens)
  {
    var end := FastLoop(setup, Texts(generation.parts), 0);
    StopsAfterPart(setup, Texts(generation.parts), 0);
    match end
    case Stopped(k, c) => ConcludedStop(setup, generation, k, c, prompt, maxTokens);
    case Exhausted =>
      if !generation.crashes {
        ConcludedEnd(setup, generation, prompt, maxTokens);
      }
    case _ =>
  }

  class KolibriRuntime {
    const contextWindow: nat
    var locked: bool

    constructor (contextWindow: nat)
      ensures this.contextWindow == contextWindow && !locked
    {
      this.contextWindow := contextWindow;
      locked := false;
    }

    /**
     `prompt` is the length of the rendered prompt, or `None` when rendering it raised. The reply to a
     request that holds the lock and fits the context is stated twice: as the answer to the end of the
     loop, and as what a caller can observe of the generation.
     */
    method Complete(setup: Setup, prompt: Option<nat>, maxTokens: nat, generation: Generation)
      returns (reply: Reply)
      modifies this`locked
      ensures locked == old(locked)
      ensures old(locked) ==> reply == Failed(Busy)
      ensures !old(locked) && prompt.Some? && prompt.value + maxTokens <= contextWindow ==>
                var end := FastLoop(setup, Texts(generation.parts), 0);
                (end.Stopped? ==> end.k <= |generation.parts|)
                && reply == Answered(setup, generation, end, prompt.value, maxTokens)
      ensures !old(locked) && prompt.Some? && prompt.value + maxTokens <= contextWindow ==>
                && (reply == Failed(Crashed) <==> Breaks(setup, generation, prompt.value, maxTokens))
                && (reply.Failed? ==> reply == Failed(Crashed) || reply == Failed(OutputInvalid))
                && forall completion, usage :: reply == Completed(completion, usage) <==>
                     && usage.promptTokens == prompt.value
                     && usage.totalTokens == prompt.value + usage.completionTokens
                     && Succeeds(setup, generation, prompt.value, maxTokens, completion, usage.completionTokens)
      ensures !old(locked) && prompt.None? ==> reply == Failed(Crashed)
      ensures !old(locked) && prompt.Some? && contextWindow < prompt.value + maxTokens ==>
                reply == Failed(ContextLimit)
      ensures reply.Completed? ==>
                && prompt == Some(reply.usage.promptTokens)
                && 0 < reply.usage.completionTokens <= maxTokens
                && reply.usage.totalTokens == reply.usage.promptTokens + reply.usage.completionTokens
                && reply.usage.totalTokens <= contextWindow
    {
      if locked {
        return Failed(Busy);
      }
      locked := true;
      if prompt.None? {
        reply := Failed(Crashed);
      } else if prompt.value + maxTokens > contextWindow {
        reply := Failed(ContextLimit);
      } else {
        var end, consumed := Generate(setup, Texts(generation.parts));
        AnsweredMeans(setup, generation, prompt.value, maxTokens);
        reply := Answered(setup, generation, end, prompt.value, maxTokens);
      }
      locked := false;
    }
  }

  /** The reply of a loop that runs the strict parser after every chunk. */
  function Reference(setup: Setup, generation: Generation, prompt: nat, maxTokens: nat): Reply {
    var end := SimpleLoop(setup, Texts(generation.parts), 0);
    SimpleStopsLater(setup, Texts(generation.parts), 0);
    Answered(setup, generation, end, prompt, maxTokens)
  }

  /**
   The window-guided loop gives the reference reply, except where it fails early. It never turns a
   failure into a success, and it loses a call only when a rejected text was rescuable.
   */
  lemma CompleteRefinesReference(setup: Setup, generation: Generation, prompt: nat, maxTokens: nat)
    requires setup.stops ==> !setup.request.choice.Disabled?
    ensures var chunks := Texts(generation.parts);
            var end := FastLoop(setup, chunks, 0);
            var reference := Reference(setup, generation, prompt, maxTokens);
            && (end.Stopped? ==> end.k <= |generation.parts|)
            && (var reply := Answered(setup, generation, end, prompt, maxTokens);
                || reply == reference
                || (&& end.Raised? && end.k <= |chunks| && reply.Failed?
                    && (reference.Completed? ==>
                          Rescuable(setup.fl, setup.uuid, Join(chunks[..end.k]), setup.request))))
  {
    var chunks := Texts(generation.parts);
    assert chunks[..0] == [];
    FastRefinesSimple(setup, chunks, 0);
    SimpleStopsLater(setup, chunks, 0);
    var end := FastLoop(setup, chunks, 0);
    if end != SimpleLoop(setup, chunks, 0) && SimpleLoop(setup, chunks, 0).Exhausted? {
      WholeTextIsRejectedToo(setup, generation, end.k, prompt, maxTokens);
    }
  }

  /** An exhausted reference parses the whole text, which extends the text that was rejected early. */
  lemma WholeTextIsRejectedToo(setup: Setup, generation: Generation, j: nat, prompt: nat, maxTokens: nat)
    requires j <= |generation.parts|
    requires var chunks := Texts(generation.parts);
             EarlyRejection(setup.fl, setup.uuid, Join(chunks[..j]), setup.request)
    ensures Conclude(setup, generation.parts, None, prompt, maxTokens).Completed? ==>
              var chunks := Texts(generation.parts);
              Rescuable(setup.fl, setup.uuid, Join(chunks[..j]), setup.request)
  {
    var chunks := Texts(generation.parts);
    var t := JoinAppend(chunks, j, |chunks|);
    assert chunks[..|chunks|] == chunks;
    if Conclude(setup, generation.parts, None, prompt, maxTokens).Completed? {
      var finish := generation.parts[|generation.parts| - 1].finish;
      OnlyRescuableTextsRecover(setup.fl, setup.uuid, Join(chunks[..j]), setup.request, t, finish);
    }
  }
}
