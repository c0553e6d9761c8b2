/** Safety over all finite interleavings: one resumption, sound outcomes, and no lost completion. */
module ProcessRuns {
  import opened Prelude
  import opened ProcessSessions
  import opened ProcessSafety

  // ---------------------------------------------------------------------------------------------
  // Finite interleavings.
  // ---------------------------------------------------------------------------------------------

  /** The state after the given steps, if each of them is possible in its turn. */
  function Execute(limit: nat, s: State, acts: seq<Action>): Option<State>
    decreases |acts|
  {
    if acts == [] then Some(s)
    else if Enabled(s, acts[0]) then Execute(limit, Apply(limit, s, acts[0]), acts[1..])
    else None
  }

  lemma {:induction false} ExecutionKeepsInv(limit: nat, s: State, acts: seq<Action>)
    requires Inv(limit, s) && Execute(limit, s, acts).Some?
    ensures Inv(limit, Execute(limit, s, acts).value)
    decreases |acts|
  {
    if acts != [] {
      InvStep(limit, s, acts[0]);
      ExecutionKeepsInv(limit, Apply(limit, s, acts[0]), acts[1..]);
    }
  }

  /** In every interleaving the continuation is resumed at most once, and never while it is stored. */
  lemma ResumedAtMostOnce(limit: nat, acts: seq<Action>, s: State)
    requires Execute(limit, INITIAL, acts) == Some(s)
    ensures |s.delivered| <= 1
    ensures s.shared.waiting ==> s.delivered == []
  {
    InvInitial(limit);
    ExecutionKeepsInv(limit, INITIAL, acts);
  }

  /** What a caller of `run` may conclude from the outcome it was resumed with. */
  lemma DeliveredOutcome(limit: nat, acts: seq<Action>, s: State, outcome: Outcome)
    requires Execute(limit, INITIAL, acts) == Some(s) && outcome in s.delivered
    ensures outcome.Returned? ==>
              && s.shared.totalBytes <= limit
              && outcome.stdout == s.outRead
              && s.child == Exited(outcome.exitCode)
              && s.out.cancelled && s.out.handler.Idle? && s.err.cancelled && s.err.handler.Idle?
              && s.shared.failure in {None, Some(ProcessFailed)}
    ensures outcome == Thrown(OutputLimit) ==> limit < s.shared.totalBytes
    ensures outcome == Thrown(Timeout) ==> !s.timer.TimerOff? && !s.timer.TimerScheduled?
    ensures outcome == Thrown(ProcessFailed) ==> Caught(s)
  {
    InvInitial(limit);
    ExecutionKeepsInv(limit, INITIAL, acts);
    assert outcome == s.delivered[0];
  }

  predicate StarterReturned(s: State) {
    s.starter.Started? || (s.starter.CatchFinish? && s.starter.pc.Ended?)
  }

  /** While it is unresumed, `start`, a cancel handler, the termination handler or a finish is due. */
  lemma CompletionNeverLost(limit: nat, acts: seq<Action>, s: State)
    requires Execute(limit, INITIAL, acts) == Some(s) && s.delivered == []
    ensures || !StarterReturned(s)
            || s.out.ending.NotCalled? || s.err.ending.NotCalled? || s.termination.NotCalled?
            || (exists caller :: CallerPc(s, caller).Called? || CallerPc(s, caller).Resuming?)
  {
    InvInitial(limit);
    ExecutionKeepsInv(limit, INITIAL, acts);
    assert CallerPc(s, FromTermination) == s.termination;
    assert CallerPc(s, FromReader(Output)) == s.out.ending && CallerPc(s, FromReader(Errors)) == s.err.ending;
    assert CallerPc(s, FromStarter).Called? <==> s.starter == CatchFinish(Called);
  }
}
