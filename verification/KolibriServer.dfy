/**
 The request threads of the model server share one non-blocking lock: a generation takes it and gives it
 back, an admitted shutdown takes it and keeps it.
 */
module KolibriServer {
  import opened Prelude

  datatype Kind = Completion | Shutdown

  /** `Answering`: a shutdown that was admitted and has not started the stopping thread yet. */
  datatype Phase = Fresh | Generating | Answering | Refused | Finished | Stopped

  datatype Thread = Thread(kind: Kind, phase: Phase)

  datatype State = State(locked: bool, stopping: bool, threads: seq<Thread>)

  const INITIAL := State(false, false, [])

  /** `failed`: rendering, generation or checking raised; `disconnected`: the client left before the reply. */
  datatype Step =
    | Arrive(kind: Kind)
    | TryLock(i: nat)
    | EndGeneration(i: nat, failed: bool)
    | Answer(i: nat, disconnected: bool)

  predicate Enabled(s: State, step: Step) {
    match step
    case Arrive(_) => true
    case TryLock(i) => i < |s.threads| && s.threads[i].phase == Fresh
    case EndGeneration(i, _) => i < |s.threads| && s.threads[i].phase == Generating
    case Answer(i, _) => i < |s.threads| && s.threads[i].phase == Answering
  }

  function Moved(s: State, i: nat, phase: Phase): State
    requires i < |s.threads|
  {
    s.(threads := s.threads[i := s.threads[i].(phase := phase)])
  }

  function Apply(s: State, step: Step): State
    requires Enabled(s, step)
  {
    match step
    case Arrive(kind) => s.(threads := s.threads + [Thread(kind, Fresh)])
    case TryLock(i) =>
      if s.locked then Moved(s, i, Refused)
      else if s.threads[i].kind == Completion then Moved(s, i, Generating).(locked := true)
      else Moved(s, i, Answering).(locked := true)
    case EndGeneration(i, _) => Moved(s, i, Finished).(locked := false)
    case Answer(i, _) => Moved(s, i, Stopped).(stopping := true)
  }

  predicate CanExecute(s: State, steps: seq<Step>)
    decreases |steps|
  {
    steps == [] || (Enabled(s, steps[0]) && CanExecute(Apply(s, steps[0]), steps[1..]))
  }

  function Execute(s: State, steps: seq<Step>): State
    requires CanExecute(s, steps)
    decreases |steps|
  {
    if steps == [] then s else Execute(Apply(s, steps[0]), steps[1..])
  }

  // ---------------------------------------------------------------------------------------------
  // The lock is held by at most one thread.
  // ---------------------------------------------------------------------------------------------

  predicate Holds(thread: Thread) {
    thread.phase == Generating || thread.phase == Answering || thread.phase == Stopped
  }

  predicate Admitted(s: State) {
    exists i :: 0 <= i < |s.threads| && (s.threads[i].phase == Answering || s.threads[i].phase == Stopped)
  }

  predicate Inv(s: State) {
    && (forall i, j :: 0 <= i < j < |s.threads| ==> !(Holds(s.threads[i]) && Holds(s.threads[j])))
    && (s.locked <==> exists i :: 0 <= i < |s.threads| && Holds(s.threads[i]))
    && (s.stopping <==> exists i :: 0 <= i < |s.threads| && s.threads[i].phase == Stopped)
    && (forall i :: 0 <= i < |s.threads| ==>
          && (s.threads[i].phase == Generating ==> s.threads[i].kind == Completion)
          && (s.threads[i].phase == Answering || s.threads[i].phase == Stopped ==> s.threads[i].kind == Shutdown))
  }

  lemma MoveKeepsInv(s: State, i: nat, phase: Phase, locked: bool, stopping: bool)
    requires Inv(s) && i < |s.threads|
    requires (forall j :: 0 <= j < |s.threads| && j != i ==> !Holds(s.threads[j])) || phase == Refused
    requires phase == Refused ==> !Holds(s.threads[i])
    requires locked == if phase == Refused then s.locked else Holds(s.threads[i].(phase := phase))
    requires s.threads[i].phase != Stopped && stopping == (s.stopping || phase == Stopped)
    requires phase == Generating ==> s.threads[i].kind == Completion
    requires phase == Answering || phase == Stopped ==> s.threads[i].kind == Shutdown
    ensures Inv(Moved(s, i, phase).(locked := locked, stopping := stopping))
  {
    var t := Moved(s, i, phase).(locked := locked, stopping := stopping);
    assert t.threads[i].phase == phase;
    assert forall j :: 0 <= j < |s.threads| && j != i ==> t.threads[j] == s.threads[j];
  }

  lemma StepKeepsInv(s: State, step: Step)
    requires Inv(s) && Enabled(s, step)
    ensures Inv(Apply(s, step))
  {
    match step
    case Arrive(kind) =>
      var t := Apply(s, step);
      assert forall j :: 0 <= j < |s.threads| ==> t.threads[j] == s.threads[j];
    case TryLock(i) =>
      if s.locked {
        MoveKeepsInv(s, i, Refused, s.locked, s.stopping);
      } else {
        MoveKeepsInv(s, i, if s.threads[i].kind == Completion then Generating else Answering, true, s.stopping);
      }
    case EndGeneration(i, _) => MoveKeepsInv(s, i, Finished, false, s.stopping);
    case Answer(i, _) => MoveKeepsInv(s, i, Stopped, true, true);
  }

  lemma {:induction false} ExecutionKeepsInv(s: State, steps: seq<Step>)
    requires Inv(s) && CanExecute(s, steps)
    ensures Inv(Execute(s, steps)) && (s.stopping ==> Execute(s, steps).stopping && Execute(s, steps).locked)
    decreases |steps|
  {
    if steps != [] {
      StepKeepsInv(s, steps[0]);
      ExecutionKeepsInv(Apply(s, steps[0]), steps[1..]);
    }
  }

  /** In every run, generations never overlap one another or an admitted shutdown. */
  lemma GenerationsAreAlone(steps: seq<Step>, i: nat, j: nat)
    requires CanExecute(INITIAL, steps) && i < |Execute(INITIAL, steps).threads|
    requires j < |Execute(INITIAL, steps).threads|
    requires var threads := Execute(INITIAL, steps).threads;
             threads[i].phase == Generating && Holds(threads[j])
    ensures i == j
  {
    ExecutionKeepsInv(INITIAL, steps);
    var threads := Execute(INITIAL, steps).threads;
    assert Holds(threads[i]);
  }

  lemma AdmittedForbids(s: State)
    requires Inv(s) && Admitted(s)
    ensures s.locked && forall j :: 0 <= j < |s.threads| ==> s.threads[j].phase != Generating
  {
    var i :| 0 <= i < |s.threads| && (s.threads[i].phase == Answering || s.threads[i].phase == Stopped);
    assert Holds(s.threads[i]);
    forall j | 0 <= j < |s.threads| ensures s.threads[j].phase != Generating {
      assert i != j ==> !Holds(s.threads[j]);
    }
  }

  lemma AdmittedStays(s: State, step: Step)
    requires Inv(s) && Enabled(s, step) && Admitted(s)
    ensures Admitted(Apply(s, step)) && Apply(s, step).locked
    ensures forall i :: 0 <= i < |Apply(s, step).threads| ==> Apply(s, step).threads[i].phase != Generating
  {
    AdmittedForbids(s);
    var i :| 0 <= i < |s.threads| && (s.threads[i].phase == Answering || s.threads[i].phase == Stopped);
    var t := Apply(s, step);
    assert t.threads[i].phase == Answering || t.threads[i].phase == Stopped;
  }

  /** After a shutdown is admitted the lock is never released and no generation is in progress, ever. */
  lemma {:induction false} ShutdownIsTerminal(s: State, steps: seq<Step>)
    requires Inv(s) && Admitted(s) && CanExecute(s, steps)
    ensures var t := Execute(s, steps);
            && Admitted(t) && t.locked && (s.stopping ==> t.stopping)
            && forall i :: 0 <= i < |t.threads| ==> t.threads[i].phase != Generating
    decreases |steps|
  {
    if steps == [] {
      AdmittedForbids(s);
    } else {
      StepKeepsInv(s, steps[0]);
      AdmittedStays(s, steps[0]);
      ShutdownIsTerminal(Apply(s, steps[0]), steps[1..]);
    }
  }

  /**
   A request never waits: in every run it is refused exactly when a generation is in progress or a
   shutdown was admitted, and otherwise it starts.
   */
  lemma RefusedIffHeld(steps: seq<Step>, i: nat)
    requires CanExecute(INITIAL, steps) && Enabled(Execute(INITIAL, steps), TryLock(i))
    ensures var s := Execute(INITIAL, steps);
            var t := Apply(s, TryLock(i)).threads[i];
            && t.kind == s.threads[i].kind
            && (t.phase == Refused <==> exists j :: 0 <= j < |s.threads| && Holds(s.threads[j]))
            && (t.phase != Refused ==> t.phase == if t.kind == Completion then Generating else Answering)
  {
    ExecutionKeepsInv(INITIAL, steps);
  }

  /** However a generation ends, the next request starts. */
  lemma EndFreesLock(steps: seq<Step>, i: nat, failed: bool, kind: Kind)
    requires CanExecute(INITIAL, steps) && Enabled(Execute(INITIAL, steps), EndGeneration(i, failed))
    ensures var t := Apply(Execute(INITIAL, steps), EndGeneration(i, failed));
            var u := Apply(t, Arrive(kind));
            Enabled(u, TryLock(|t.threads|)) && Holds(Apply(u, TryLock(|t.threads|)).threads[|t.threads|])
  {
  }

  /** A run in which two requests meet, and a shutdown follows whose client has left. */
  lemma RequestsMeet()
    ensures var steps := [Arrive(Completion), TryLock(0), Arrive(Completion), TryLock(1), EndGeneration(0, false),
                          Arrive(Shutdown), TryLock(2), Answer(2, true)];
            && CanExecute(INITIAL, steps)
            && Execute(INITIAL, steps)
               == State(true, true,
                        [Thread(Completion, Finished), Thread(Completion, Refused), Thread(Shutdown, Stopped)])
  {
    var a := State(true, false, [Thread(Completion, Generating), Thread(Completion, Fresh)]);
    var b := State(false, false, [Thread(Completion, Finished), Thread(Completion, Refused)]);
    assert Apply(Apply(Apply(INITIAL, Arrive(Completion)), TryLock(0)), Arrive(Completion)) == a;
    assert Apply(Apply(a, TryLock(1)), EndGeneration(0, false)) == b;
    ExecuteThree(INITIAL, Arrive(Completion), TryLock(0), Arrive(Completion),
                 [TryLock(1), EndGeneration(0, false), Arrive(Shutdown), TryLock(2), Answer(2, true)]);
    ExecuteThree(a, TryLock(1), EndGeneration(0, false), Arrive(Shutdown), [TryLock(2), Answer(2, true)]);
  }

  lemma ExecuteThree(s: State, a: Step, b: Step, c: Step, others: seq<Step>)
    requires Enabled(s, a) && Enabled(Apply(s, a), b) && Enabled(Apply(Apply(s, a), b), c)
    ensures var t := Apply(Apply(Apply(s, a), b), c);
            && (CanExecute(s, [a, b, c] + others) <==> CanExecute(t, others))
            && (CanExecute(t, others) ==> Execute(s, [a, b, c] + others) == Execute(t, others))
  {
    assert [a, b, c] + others == [a] + ([b] + ([c] + others));
    ExecuteNext(Apply(Apply(s, a), b), c, others);
    ExecuteNext(Apply(s, a), b, [c] + others);
    ExecuteNext(s, a, [b] + ([c] + others));
  }

  lemma ExecuteNext(s: State, step: Step, others: seq<Step>)
    requires Enabled(s, step)
    ensures CanExecute(s, [step] + others) <==> CanExecute(Apply(s, step), others)
    ensures CanExecute(Apply(s, step), others) ==>
              Execute(s, [step] + others) == Execute(Apply(s, step), others)
  {
    assert ([step] + others)[1..] == others;
  }
}
