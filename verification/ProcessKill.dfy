/**
 What becomes of the child of a stopped session. `stop` sends SIGTERM and sets a kill timer, and the
 session is stopped once: either the child is killed in the end, or it was abandoned.
 */
module ProcessKill {
  import opened Prelude
  import opened ProcessSessions
  import opened ProcessSafety
  import opened ProcessRuns

  // ---------------------------------------------------------------------------------------------
  // The kill timer and its work item.
  // ---------------------------------------------------------------------------------------------

  predicate AtSchedule(s: State, stopper: Stopper) {
    StopperPc(s, stopper) == Some(ScheduleKill)
  }

  /** A work item is stored, or was cancelled, only once the one `stop` has made it. */
  predicate KillStored(s: State) {
    s.shared.killWork || s.shared.killCancelled ==>
      || !s.kill.KillOff?
      || AtSchedule(s, ByReader(Output)) || AtSchedule(s, ByReader(Errors)) || AtSchedule(s, ByTimer)
  }

  /** A kill timer that fired has killed the child. */
  predicate KillSignals(s: State) {
    s.kill.KillClearing? || s.kill.KillDone? ==> s.child != Running(false)
  }

  /** An exception is only ever taken from a failure. */
  predicate ThrownFailed(s: State) {
    s.taken.Some? && s.taken.value.Thrown? ==> s.shared.failure.Some?
  }

  predicate KillInv(s: State) {
    KillStored(s) && KillSignals(s) && ThrownFailed(s)
  }

  lemma StoredStop(s: State, stopper: Stopper)
    requires OneStop(s) && KillStored(s) && StopperPc(s, stopper).Some?
    ensures KillStored(ApplyStop(s, stopper))
  {
  }

  lemma StoredStep(limit: nat, s: State, a: Action)
    requires OneStop(s) && TimerAccounted(s) && KillStored(s) && Enabled(s, a)
    ensures KillStored(Apply(limit, s, a))
  {
    if a.StopStep? {
      StoredStop(s, a.stopper);
    }
  }

  lemma SignalsStep(limit: nat, s: State, a: Action)
    requires OneStop(s) && Launched(s) && KillSignals(s) && ThrownFailed(s) && Enabled(s, a)
    ensures KillSignals(Apply(limit, s, a)) && ThrownFailed(Apply(limit, s, a))
  {
  }

  lemma {:induction false} ExecutionKeepsKillInv(limit: nat, s: State, acts: seq<Action>)
    requires Inv(limit, s) && KillInv(s) && Execute(limit, s, acts).Some?
    ensures Inv(limit, Execute(limit, s, acts).value) && KillInv(Execute(limit, s, acts).value)
    decreases |acts|
  {
    if acts != [] {
      InvStep(limit, s, acts[0]);
      StoredStep(limit, s, acts[0]);
      SignalsStep(limit, s, acts[0]);
      ExecutionKeepsKillInv(limit, Apply(limit, s, acts[0]), acts[1..]);
    }
  }

  lemma ReachableKillInv(limit: nat, acts: seq<Action>, s: State)
    requires Execute(limit, INITIAL, acts) == Some(s)
    ensures Inv(limit, s) && KillInv(s)
  {
    InvInitial(limit);
    ExecutionKeepsKillInv(limit, INITIAL, acts);
  }

  // ---------------------------------------------------------------------------------------------
  // Abandoned children.
  // ---------------------------------------------------------------------------------------------

  /**
   The child of a stopped session runs on and is not killed: its kill timer was cancelled, or there is none
   and no `stop` is under way that would set one.
   */
  predicate Abandoned(s: State) {
    && s.shared.failure.Some? && s.child == Running(false)
    && (s.shared.killCancelled || (s.kill.KillOff? && !AnyPast(s)))
  }

  /** Only a failed `start` abandons its child; any other stopped session is about to kill it. */
  lemma StoppedChildIsKilled(limit: nat, acts: seq<Action>, s: State)
    requires Execute(limit, INITIAL, acts) == Some(s)
    requires s.shared.failure.Some? && s.child == Running(false)
    ensures Abandoned(s) ==> CatchRan(s)
    ensures !Abandoned(s) ==> AnyPast(s) || Enabled(s, KillFire)
  {
    ReachableKillInv(limit, acts, s);
  }

  lemma AbandonedStop(s: State, stopper: Stopper)
    requires Abandoned(s) && StopperPc(s, stopper).Some?
    ensures Abandoned(ApplyStop(s, stopper))
  {
  }

  lemma AbandonedStep(limit: nat, s: State, a: Action)
    requires Abandoned(s) && Enabled(s, a)
    ensures Abandoned(Apply(limit, s, a)) || Apply(limit, s, a).child.Exited?
  {
    if a.StopStep? {
      AbandonedStop(s, a.stopper);
    }
  }

  lemma ExitedStep(limit: nat, s: State, a: Action)
    requires Launched(s) && s.child.Exited? && Enabled(s, a)
    ensures Apply(limit, s, a).child.Exited?
  {
  }

  /** No step of any thread ever kills an abandoned child. */
  lemma {:induction false} AbandonedChildIsNeverKilled(limit: nat, s: State, acts: seq<Action>)
    requires Inv(limit, s) && (Abandoned(s) || s.child.Exited?)
    requires Execute(limit, s, acts).Some?
    ensures Execute(limit, s, acts).value.child != Running(true)
    decreases |acts|
  {
    if acts != [] {
      InvStep(limit, s, acts[0]);
      if s.child.Exited? {
        ExitedStep(limit, s, acts[0]);
      } else {
        AbandonedStep(limit, s, acts[0]);
      }
      AbandonedChildIsNeverKilled(limit, Apply(limit, s, acts[0]), acts[1..]);
    }
  }

  lemma Prepend(limit: nat, s: State, a: Action, acts: seq<Action>)
    requires Enabled(s, a)
    ensures Execute(limit, s, [a] + acts) == Execute(limit, Apply(limit, s, a), acts)
  {
    assert ([a] + acts)[1..] == acts;
  }

  function StopPhase(pc: StopPc): nat {
    match pc
    case Enter(_) => 5
    case Capture => 4
    case Cancelling(_) => 3
    case CheckRunning => 2
    case StoreKill => 1
    case ScheduleKill => 0
  }

  lemma StopperPcSet(s: State, stopper: Stopper, pc: Option<StopPc>)
    ensures StopperPc(WithStopperPc(s, stopper, pc), stopper) == pc
    ensures WithStopperPc(s, stopper, pc).child == s.child && WithStopperPc(s, stopper, pc).shared == s.shared
    ensures WithStopperPc(s, stopper, pc).kill == s.kill
  {
  }

  /** Where a `stop` past its guard goes next while the child runs. */
  function NextStop(pc: StopPc, readers: nat): Option<StopPc> {
    match pc
    case Enter(_) => None
    case Capture => Some(Cancelling(readers))
    case Cancelling(left) => Some(if left == 0 then CheckRunning else Cancelling(left - 1))
    case CheckRunning => Some(StoreKill)
    case StoreKill => Some(ScheduleKill)
    case ScheduleKill => None
  }

  lemma CancelStepAdvances(s: State, stopper: Stopper, left: nat)
    requires StopperPc(s, stopper) == Some(Cancelling(left))
    ensures StopperPc(ApplyStop(s, stopper), stopper) == NextStop(Cancelling(left), 0)
    ensures ApplyStop(s, stopper).child == s.child && ApplyStop(s, stopper).shared == s.shared
    ensures ApplyStop(s, stopper).kill == s.kill
  {
    StopperPcSet(CancelNext(s, left), stopper, NextStop(Cancelling(left), 0));
  }

  lemma ArmStepAdvances(s: State, stopper: Stopper)
    requires Past(s, stopper) && s.child == Running(false) && !StopperPc(s, stopper).value.Cancelling?
    ensures var pc, t := StopperPc(s, stopper).value, ApplyStop(s, stopper);
            && t.child == s.child && t.shared.killCancelled == s.shared.killCancelled
            && t.shared.failure == s.shared.failure
            && t.kill == (if pc.ScheduleKill? then KillScheduled else s.kill)
            && StopperPc(t, stopper) == NextStop(pc, |s.shared.readers|)
  {
    var pc := StopperPc(s, stopper).value;
    StopperPcSet(s, stopper, NextStop(pc, |s.shared.readers|));
  }

  /** One step of a `stop` past its guard, seen from the kill timer. */
  lemma StopStepAdvances(s: State, stopper: Stopper)
    requires Past(s, stopper) && s.child == Running(false)
    ensures var pc, t := StopperPc(s, stopper).value, ApplyStop(s, stopper);
            && t.child == s.child && t.shared.killCancelled == s.shared.killCancelled
            && t.shared.failure == s.shared.failure
            && t.kill == (if pc.ScheduleKill? then KillScheduled else s.kill)
            && StopperPc(t, stopper) == NextStop(pc, |s.shared.readers|)
  {
    if StopperPc(s, stopper).value.Cancelling? {
      CancelStepAdvances(s, stopper, StopperPc(s, stopper).value.left);
    } else {
      ArmStepAdvances(s, stopper);
    }
  }

  /** A `stop` past its guard that is left alone kills the running child. */
  lemma {:induction false} StopKills(limit: nat, s: State, stopper: Stopper) returns (acts: seq<Action>)
    requires Past(s, stopper) && s.child == Running(false) && !s.shared.killCancelled
    ensures Execute(limit, s, acts).Some? && Execute(limit, s, acts).value.child == Running(true)
    decreases StopPhase(StopperPc(s, stopper).value),
              if StopperPc(s, stopper).value.Cancelling? then StopperPc(s, stopper).value.left else 0
  {
    var t := Apply(limit, s, StopStep(stopper));
    StopStepAdvances(s, stopper);
    if StopperPc(s, stopper) == Some(ScheduleKill) {
      acts := KillFires(limit, t);
    } else {
      acts := StopKills(limit, t, stopper);
    }
    Prepend(limit, s, StopStep(stopper), acts);
    acts := [StopStep(stopper)] + acts;
  }

  lemma KillFires(limit: nat, s: State) returns (acts: seq<Action>)
    requires Enabled(s, KillFire) && s.child == Running(false)
    ensures Execute(limit, s, acts).Some? && Execute(limit, s, acts).value.child == Running(true)
  {
    Prepend(limit, s, KillFire, []);
    acts := [KillFire] + [];
  }

  /** Some continuation kills the child. */
  ghost predicate CanBeKilled(limit: nat, s: State) {
    exists acts :: Execute(limit, s, acts).Some? && Execute(limit, s, acts).value.child == Running(true)
  }

  /** The exact condition: the running child of a stopped session can never be killed iff it is abandoned. */
  lemma NeverKilledIffAbandoned(limit: nat, acts: seq<Action>, s: State)
    requires Execute(limit, INITIAL, acts) == Some(s)
    requires s.shared.failure.Some? && s.child == Running(false)
    ensures !CanBeKilled(limit, s) <==> Abandoned(s)
  {
    ReachableKillInv(limit, acts, s);
    if Abandoned(s) {
      forall more | Execute(limit, s, more).Some?
        ensures Execute(limit, s, more).value.child != Running(true)
      {
        AbandonedChildIsNeverKilled(limit, s, more);
      }
    } else if Enabled(s, KillFire) {
      var more := KillFires(limit, s);
    } else {
      var stopper := if Past(s, ByTimer) then ByTimer
                     else if Past(s, ByReader(Output)) then ByReader(Output) else ByReader(Errors);
      var more := StopKills(limit, s, stopper);
    }
  }

  // ---------------------------------------------------------------------------------------------
  // First way to abandon a child: its request cannot be written, and nothing has stopped the session.
  // ---------------------------------------------------------------------------------------------

  lemma Unroll(limit: nat, s: State, acts: seq<Action>, k: nat)
    requires k < |acts| && Enabled(s, acts[k])
    ensures Execute(limit, s, acts[k..]) == Execute(limit, Apply(limit, s, acts[k]), acts[k + 1..])
  {
    assert acts[k..][1..] == acts[k + 1..];
  }

  /** The states of a run whose request cannot be written to the launched child. */
  function FailedWriteState(k: nat): State
    requires k <= 11
  {
    var shared := FRESH.(failure := Some(ProcessFailed), exitCode := Some(-1));
    var caught := INITIAL.(child := Running(false), shared := shared);
    var cancelled := Reader(true, Idle, NotCalled);
    var ended := Reader(true, Idle, Called);
    match k
    case 0 => INITIAL
    case 1 => INITIAL.(child := Running(false), starter := Feeding)
    case 2 => INITIAL.(child := Running(false), starter := Catching)
    case 3 => caught.(starter := CatchCapture)
    case 4 => caught.(starter := CatchCancelling(2))
    case 5 => caught.(starter := CatchCancelling(1), out := cancelled)
    case 6 => caught.(starter := CatchCancelling(0), out := cancelled, err := cancelled)
    case 7 => caught.(starter := CatchFinish(Called), out := cancelled, err := cancelled)
    case 8 =>
      caught.(starter := CatchFinish(Called), out := ended, err := cancelled,
              shared := shared.(streamEnds := 1))
    case 9 =>
      caught.(starter := CatchFinish(Called), out := ended, err := ended, shared := shared.(streamEnds := 2))
    case 10 =>
      caught.(starter := CatchFinish(Resuming(Thrown(ProcessFailed))), out := ended, err := ended,
              shared := shared.(streamEnds := 2, waiting := false, readers := []),
              taken := Some(Thrown(ProcessFailed)))
    case 11 =>
      caught.(starter := CatchFinish(Ended), out := ended, err := ended,
              shared := shared.(streamEnds := 2, waiting := false, readers := []),
              taken := Some(Thrown(ProcessFailed)), delivered := [Thrown(ProcessFailed)])
  }

  function FailedWriteAction(k: nat): Action
    requires k < 11
  {
    match k
    case 0 => Launch(true)
    case 1 => Feed(false)
    case 7 => EndStream(Output)
    case 8 => EndStream(Errors)
    case 9 => Finish(FromStarter)
    case 10 => Resume(FromStarter)
    case _ => CatchStep
  }

  lemma FailedWriteStart(limit: nat, k: nat)
    requires k < 5
    ensures Enabled(FailedWriteState(k), FailedWriteAction(k))
    ensures Apply(limit, FailedWriteState(k), FailedWriteAction(k)) == FailedWriteState(k + 1)
  {
  }

  lemma FailedWriteEnd(limit: nat, k: nat)
    requires 5 <= k < 11
    ensures Enabled(FailedWriteState(k), FailedWriteAction(k))
    ensures Apply(limit, FailedWriteState(k), FailedWriteAction(k)) == FailedWriteState(k + 1)
  {
  }

  /** A request that cannot be written resumes the caller and leaves the child running, unsignalled. */
  lemma FailedWriteAbandonsChild(limit: nat)
    returns (acts: seq<Action>)
    ensures Execute(limit, INITIAL, acts).Some?
    ensures var s := Execute(limit, INITIAL, acts).value;
            s.delivered == [Thrown(ProcessFailed)] && s.child == Running(false) && Abandoned(s)
  {
    acts := seq(11, k requires 0 <= k < 11 => FailedWriteAction(k));
    var k: nat := 0;
    while k < 11
      invariant k <= 11
      invariant Execute(limit, INITIAL, acts) == Execute(limit, FailedWriteState(k), acts[k..])
    {
      if k < 5 { FailedWriteStart(limit, k); } else { FailedWriteEnd(limit, k); }
      Unroll(limit, FailedWriteState(k), acts, k);
      k := k + 1;
    }
    assert acts[11..] == [];
  }

  // ---------------------------------------------------------------------------------------------
  // Second way: an overflow has set the kill timer when the write fails. The catch sets an exit code,
  // and `finishIfReady` takes it for the end of the child and cancels the timer.
  // ---------------------------------------------------------------------------------------------

  function Zeros(n: nat): Bytes {
    if n == 0 then [] else Zeros(n - 1) + [0]
  }

  /** The output reader has counted `n` bytes of a child that is being fed. */
  function ReadingState(n: nat): State {
    INITIAL.(child := Running(false), starter := Feeding, out := Reader(false, Polling, NotCalled),
             shared := FRESH.(stdout := Zeros(n), totalBytes := n), outRead := Zeros(n))
  }

  lemma OneByte(limit: nat, n: nat)
    requires n < limit
    ensures var s := ReadingState(n);
            && Enabled(s, ReadBytes(Output, [0]))
            && var t := Apply(limit, s, ReadBytes(Output, [0]));
               Enabled(t, Count(Output)) && Apply(limit, t, Count(Output)) == ReadingState(n + 1)
  {
  }

  /** After the byte too many: the session with that much output, and one reader about to stop it. */
  function OverflowBase(limit: nat): State {
    INITIAL.(child := Running(false), starter := Feeding,
             shared := FRESH.(stdout := Zeros(limit), totalBytes := limit + 1), outRead := Zeros(limit + 1))
  }

  lemma LastByte(limit: nat)
    ensures var s := ReadingState(limit);
            && Enabled(s, ReadBytes(Output, [0]))
            && var t := Apply(limit, s, ReadBytes(Output, [0]));
               Enabled(t, Count(Output)) && Apply(limit, t, Count(Output)) == OverflowState(limit, 0)
  {
  }

  function StoppingReader(cancelled: bool, pc: StopPc): Reader {
    Reader(cancelled, Stopping(pc), NotCalled)
  }

  /** The states of that run. */
  function OverflowState(limit: nat, k: nat): State
    requires k <= 14
  {
    var base := OverflowBase(limit);
    var shared := base.shared.(failure := Some(OutputLimit));
    var stopped := base.(shared := shared);
    var cancelled := Reader(true, Idle, NotCalled);
    var both := stopped.(err := cancelled);
    var caught := shared.(failure := Some(ProcessFailed), exitCode := Some(-1), killWork := true);
    var armed := both.(out := cancelled, kill := KillScheduled, shared := shared.(killWork := true));
    var failed := armed.(shared := caught, starter := CatchCapture);
    var ended := Reader(true, Idle, Called);
    var finished := caught.(streamEnds := 2, waiting := false, readers := [], killWork := false, killCancelled := true);
    match k
    case 0 => base.(out := StoppingReader(false, Enter(OutputLimit)))
    case 1 => stopped.(out := StoppingReader(false, Capture))
    case 2 => stopped.(out := StoppingReader(false, Cancelling(2)))
    case 3 => stopped.(out := StoppingReader(true, Cancelling(1)))
    case 4 => both.(out := StoppingReader(true, Cancelling(0)))
    case 5 => both.(out := StoppingReader(true, CheckRunning))
    case 6 => both.(out := StoppingReader(true, StoreKill))
    case 7 => both.(out := StoppingReader(true, ScheduleKill), shared := shared.(killWork := true))
    case 8 => armed
    case 9 => armed.(starter := Catching)
    case 10 => failed
    case 11 => failed.(out := ended, shared := caught.(streamEnds := 1))
    case 12 => failed.(out := ended, err := ended, shared := caught.(streamEnds := 2))
    case 13 =>
      failed.(out := Reader(true, Idle, Resuming(Thrown(ProcessFailed))), err := ended, shared := finished,
              taken := Some(Thrown(ProcessFailed)))
    case 14 =>
      failed.(out := Reader(true, Idle, Ended), err := ended, shared := finished,
              taken := Some(Thrown(ProcessFailed)), delivered := [Thrown(ProcessFailed)])
  }

  function OverflowAction(k: nat): Action {
    match k
    case 8 => Feed(false)
    case 9 => CatchStep
    case 10 => EndStream(Output)
    case 11 => EndStream(Errors)
    case 12 => Finish(FromReader(Output))
    case 13 => Resume(FromReader(Output))
    case _ => StopStep(ByReader(Output))
  }

  lemma OverflowStop(limit: nat, k: nat)
    requires k < 5
    ensures Enabled(OverflowState(limit, k), OverflowAction(k))
    ensures Apply(limit, OverflowState(limit, k), OverflowAction(k)) == OverflowState(limit, k + 1)
  {
  }

  lemma OverflowKill(limit: nat, k: nat)
    requires 5 <= k < 10
    ensures Enabled(OverflowState(limit, k), OverflowAction(k))
    ensures Apply(limit, OverflowState(limit, k), OverflowAction(k)) == OverflowState(limit, k + 1)
  {
  }

  lemma OverflowEnd(limit: nat, k: nat)
    requires 10 <= k < 14
    ensures Enabled(OverflowState(limit, k), OverflowAction(k))
    ensures Apply(limit, OverflowState(limit, k), OverflowAction(k)) == OverflowState(limit, k + 1)
  {
  }

  lemma {:induction false} OverflowFrom(limit: nat, k: nat) returns (acts: seq<Action>)
    requires k <= 14
    ensures Execute(limit, OverflowState(limit, k), acts) == Some(OverflowState(limit, 14))
    decreases 14 - k
  {
    acts := [];
    if k < 14 {
      acts := OverflowFrom(limit, k + 1);
      if k < 5 { OverflowStop(limit, k); } else if k < 10 { OverflowKill(limit, k); } else { OverflowEnd(limit, k); }
      Prepend(limit, OverflowState(limit, k), OverflowAction(k), acts);
      acts := [OverflowAction(k)] + acts;
    }
  }

  /** Two steps put before a run. */
  lemma ReadThen(limit: nat, s: State, acts: seq<Action>)
    requires Enabled(s, ReadBytes(Output, [0]))
    requires Enabled(Apply(limit, s, ReadBytes(Output, [0])), Count(Output))
    ensures Execute(limit, s, [ReadBytes(Output, [0])] + ([Count(Output)] + acts))
         == Execute(limit, Apply(limit, Apply(limit, s, ReadBytes(Output, [0])), Count(Output)), acts)
  {
    Prepend(limit, s, ReadBytes(Output, [0]), [Count(Output)] + acts);
    Prepend(limit, Apply(limit, s, ReadBytes(Output, [0])), Count(Output), acts);
  }

  lemma {:induction false} ReadingFrom(limit: nat, n: nat) returns (acts: seq<Action>)
    requires n <= limit
    ensures Execute(limit, ReadingState(n), acts) == Some(OverflowState(limit, 14))
    decreases limit - n
  {
    if n == limit {
      LastByte(limit);
      acts := OverflowFrom(limit, 0);
    } else {
      OneByte(limit, n);
      acts := ReadingFrom(limit, n + 1);
    }
    ReadThen(limit, ReadingState(n), acts);
    acts := [ReadBytes(Output, [0])] + ([Count(Output)] + acts);
  }

  /**
   Whatever the limit, a run exists in which the kill timer has been set and is cancelled while the
   child runs: the caller is resumed and the child is abandoned.
   */
  lemma CancelledKillAbandonsChild(limit: nat) returns (acts: seq<Action>)
    ensures Execute(limit, INITIAL, acts).Some?
    ensures var s := Execute(limit, INITIAL, acts).value;
            && s.delivered == [Thrown(ProcessFailed)] && s.child == Running(false)
            && s.kill.KillScheduled? && s.shared.killCancelled && Abandoned(s)
  {
    var launched := INITIAL.(child := Running(false), starter := Feeding);
    acts := ReadingFrom(limit, 0);
    assert Apply(limit, launched, ReadEvent(Output)) == ReadingState(0);
    Prepend(limit, launched, ReadEvent(Output), acts);
    acts := [ReadEvent(Output)] + acts;
    assert Apply(limit, INITIAL, Launch(true)) == launched;
    Prepend(limit, INITIAL, Launch(true), acts);
    acts := [Launch(true)] + acts;
  }
}
