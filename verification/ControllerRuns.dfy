/** Every run of polls, actions, removals and clean-up retries. */
module ControllerRuns {
  import opened Prelude
  import opened Removal
  import LoginStartup
  import opened Controller
  import opened ControllerSafety

  lemma {:induction false} ExecutionKeepsInv(s: State, steps: seq<Step>)
    requires Inv(s) && CanExecute(s, steps)
    ensures Inv(Execute(s, steps))
    decreases |steps|
  {
    if steps != [] {
      StepKeepsInv(s, steps[0]);
      ExecutionKeepsInv(Apply(s, steps[0]), steps[1..]);
    }
  }

  /** No observation is published that was begun before a review. */
  predicate NoLatePublication(log: seq<Event>) {
    forall i, j :: 0 <= i < j < |log| && log[i].ReviewBegan? && log[j].Published? ==>
      log[i].review <= log[j].captured
  }

  /** Once the backend is gone nothing is called, published or begun. */
  predicate NoWorkOnceGone(log: seq<Event>) {
    forall i, j :: 0 <= i < j < |log| && log[i].BackendGone? ==> !IsWork(log[j])
  }

  /**
   In every run: no observation captured before a review is published after it, and once the backend is
   gone the client is never called again, nothing is published and no review begins.
   */
  lemma NoLateWork(steps: seq<Step>)
    requires CanExecute(INITIAL, steps)
    ensures NoLatePublication(Execute(INITIAL, steps).log) && NoWorkOnceGone(Execute(INITIAL, steps).log)
  {
    InvInitial();
    ExecutionKeepsInv(INITIAL, steps);
    var log := Execute(INITIAL, steps).log;
    forall i, j | 0 <= i < j < |log|
      ensures log[i].ReviewBegan? && log[j].Published? ==> log[i].review <= log[j].captured
      ensures log[i].BackendGone? ==> !IsWork(log[j])
    {
      SafeAt(log, j);
      assert log[..j][i] == log[i];
    }
  }

  /**
   In every run: each review leads to at most one uninstallation; each of them comes after that review
   began, its preview returned the token that is sent, the user confirmed it, and login startup was
   proven off, in this order; and the backend counts as gone only after one.
   */
  lemma UninstallationIsAuthorised(steps: seq<Step>, j: nat)
    requires CanExecute(INITIAL, steps) && j < |Execute(INITIAL, steps).log|
    ensures var log := Execute(INITIAL, steps).log;
            && (log[j].UninstallCalled? ==> InOrder(Prerequisites(log[j].review, log[j].token), log[..j]))
            && (forall i :: 0 <= i < j && log[i].UninstallCalled? && log[j].UninstallCalled? ==>
                  log[i].review != log[j].review)
            && (log[j].BackendGone? ==>
                  exists i :: 0 <= i < j && log[i].UninstallCalled? && log[i].review == log[j].review)
    ensures Execute(INITIAL, steps).removal.BackendRemoved() <==> HasGone(Execute(INITIAL, steps).log)
  {
    InvInitial();
    ExecutionKeepsInv(INITIAL, steps);
    var log := Execute(INITIAL, steps).log;
    SafeAt(log, j);
    assert forall i :: 0 <= i < j ==> log[..j][i] == log[i];
  }

  /** A removal begins only when no action, removal or clean-up is in flight. */
  lemma RemovalBeginsAlone(steps: seq<Step>)
    requires CanExecute(INITIAL, steps) && RemovalBegun(Execute(INITIAL, steps)) != Execute(INITIAL, steps)
    ensures var s := Execute(INITIAL, steps);
            forall i :: 0 <= i < |s.operations| ==> !InFlight(s.operations[i])
  {
    InvInitial();
    ExecutionKeepsInv(INITIAL, steps);
    var s := Execute(INITIAL, steps);
    assert s.busy.None?;
  }

  /** While a removal is being reviewed or carried out, nothing else but status checks is in flight. */
  lemma RemovalRunsAlone(steps: seq<Step>, i: nat, j: nat)
    requires CanExecute(INITIAL, steps)
    requires var s := Execute(INITIAL, steps);
             && i < |s.operations| && j < |s.operations| && InFlight(s.operations[i]) && InFlight(s.operations[j])
    ensures i == j
    ensures var s := Execute(INITIAL, steps);
            s.removal == Reviewing || s.removal == Removing ==> s.operations[i].role == Uninstalling
  {
    InvInitial();
    ExecutionKeepsInv(INITIAL, steps);
    assert Execute(INITIAL, steps).busy == Some(i);
  }

  /** Whoever has passed the lane and not left it is alone there. */
  lemma OneHolder(steps: seq<Step>, i: nat, j: nat)
    requires CanExecute(INITIAL, steps)
    requires var s := Execute(INITIAL, steps);
             && i < |s.operations| && j < |s.operations|
             && Inside(s.operations[i].stage) && Inside(s.operations[j].stage)
    ensures i == j
  {
    InvInitial();
    ExecutionKeepsInv(INITIAL, steps);
    OneOperationInside(Execute(INITIAL, steps), i, j);
  }

  /** What is in flight once the backend is gone can only clean up. */
  lemma OnlyCleanupIsLeft(s: State, i: nat)
    requires BusyInv(s.busy, s.operations) && PhaseInv(s) && s.removal.BackendRemoved()
    requires i < |s.operations| && InFlight(s.operations[i])
    ensures || s.operations[i].role == Cleaning
            || s.operations[i].stage == AwaitingCleanup || s.operations[i].stage == Finishing
    ensures s.operations[i].role != Acting
  {
    assert s.busy == Some(i);
  }

  lemma GoneStepIsSilent(s: State, step: Step)
    requires BusyInv(s.busy, s.operations) && PhaseInv(s) && Enabled(s, step) && s.removal.BackendRemoved()
    ensures Apply(s, step).removal.BackendRemoved() && Apply(s, step).log == s.log
    ensures Apply(s, step).generation == s.generation
  {
    if !IsBeginning(step) && InFlight(s.operations[step.i]) {
      OnlyCleanupIsLeft(s, step.i);
    }
  }

  /**
   Once the backend is gone the removal stays in `cleanupRequired` or `removed`, and no run leaves any
   further trace: no call, no publication, no second purge.
   */
  lemma {:induction false} RemovalIsFinal(s: State, steps: seq<Step>)
    requires Inv(s) && s.removal.BackendRemoved() && CanExecute(s, steps)
    ensures Execute(s, steps).removal.BackendRemoved() && Execute(s, steps).log == s.log
    decreases |steps|
  {
    if steps != [] {
      StepKeepsInv(s, steps[0]);
      GoneStepIsSilent(s, steps[0]);
      RemovalIsFinal(Apply(s, steps[0]), steps[1..]);
    }
  }

  /** The step that purges has read a proof that login startup is off. */
  lemma PurgeNeedsProof(s: State, step: Step)
    requires Inv(s) && Enabled(s, step)
    requires |Apply(s, step).log| > |s.log| && Apply(s, step).log[|Apply(s, step).log| - 1].UninstallCalled?
    ensures step.LoginAnswered? && LoginStartup.ProvenAbsent(step.login, MAXIMUM_CHECKS) && !step.cancelled
    ensures s.removal == Removing && s.operations[step.i].role == Uninstalling && s.busy == Some(step.i)
  {
    if step.LoginAnswered? {
      LoginStartup.AbsentIsProven(step.login, MAXIMUM_CHECKS);
      assert s.busy == Some(step.i);
    }
  }

  /** The uninstaller answered that it has removed the backend. */
  predicate IsCompletion(step: Step) {
    && step.UninstallAnswered? && step.uninstall.Some?
    && step.uninstall.value.ok && step.uninstall.value.completed
  }

  /**
   The step after which the backend counts as gone is the answer that completes an uninstallation, which
   was sent for the review of the removal in flight; and every such answer is such a step.
   */
  lemma GoneNeedsCompletion(s: State, step: Step)
    requires Inv(s) && Enabled(s, step)
    ensures HasGone(Apply(s, step).log) && !HasGone(s.log) <==> IsCompletion(step)
    ensures IsCompletion(step) ==>
              && s.removal == Removing && s.busy == Some(step.i) && s.operations[step.i].role == Uninstalling
              && WasUninstalled(s.log, s.operations[step.i].generation)
              && Apply(s, step).removal == CleanupRequired
              && Apply(s, step).log == s.log + [BackendGone(s.operations[step.i].generation)]
  {
    if step.UninstallAnswered? {
      RemovalIsUnderway(s, step.i);
      GoneStays(s.log, BackendGone(s.operations[step.i].generation));
    } else {
      OnlyAnswersEnd(s, step);
    }
  }

  /** No other step makes the backend go. */
  lemma OnlyAnswersEnd(s: State, step: Step)
    requires Enabled(s, step) && !step.UninstallAnswered?
    ensures HasGone(Apply(s, step).log) <==> HasGone(s.log)
  {
    var log, t := s.log, Apply(s, step);
    if t.log != log {
      var event := t.log[|log|];
      GoneStays(log, event);
      if step.LoginAnswered? {
        GoneStays(log + [event], t.log[|log| + 1]);
      }
    }
  }

  /** So the backend is gone after a run exactly when one of its steps was the answer that completed it. */
  lemma {:induction false} GoneIffCompleted(s: State, steps: seq<Step>)
    requires Inv(s) && CanExecute(s, steps)
    ensures Execute(s, steps).removal.BackendRemoved() <==>
              s.removal.BackendRemoved() || exists k :: 0 <= k < |steps| && IsCompletion(steps[k])
    decreases |steps|
  {
    if steps != [] {
      var t, rest := Apply(s, steps[0]), steps[1..];
      StepKeepsInv(s, steps[0]);
      GoneNeedsCompletion(s, steps[0]);
      if s.removal.BackendRemoved() {
        GoneStepIsSilent(s, steps[0]);
      }
      GoneIffCompleted(t, rest);
      assert forall k :: 0 < k < |steps| ==> steps[k] == rest[k - 1];
    }
  }
}
