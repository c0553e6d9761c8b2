/**
 Every weakly fair run resumes its continuation. Fairness asks only that a dispatched handler keeps
 running, that an armed timer fires, and that SIGKILL ends the child; it says nothing about when the
 child writes, closes its pipes, or exits on its own.
 */
module ProcessLiveness {
  import opened Prelude
  import opened ProcessSessions
  import opened ProcessSafety
  import opened ProcessRuns
  import opened ProcessKill

  datatype Thread =
    | StarterThread
    | EventThread(stream: Stream)
    | CancelThread(stream: Stream)
    | TerminationThread
    | TimerThread
    | KillThread
    | ChildThread
    | Nobody

  function CallerThread(caller: Caller): Thread {
    match caller
    case FromStarter => StarterThread
    case FromTermination => TerminationThread
    case FromReader(stream) => CancelThread(stream)
  }

  function Owner(a: Action): Thread {
    match a
    case Launch(_) => StarterThread
    case Feed(_) => StarterThread
    case Arm => StarterThread
    case Schedule => StarterThread
    case CatchStep => StarterThread
    case ReadEvent(stream) => EventThread(stream)
    case ReadBytes(stream, _) => EventThread(stream)
    case ReadDry(stream) => EventThread(stream)
    case ReadEnd(stream) => EventThread(stream)
    case Count(stream) => EventThread(stream)
    case EndStream(stream) => CancelThread(stream)
    case StopStep(stopper) => if stopper.ByReader? then EventThread(stopper.stream) else TimerThread
    case TimerFire => TimerThread
    case KillFire => KillThread
    case KillClear => KillThread
    case ChildExit(_) => ChildThread
    case Terminated => TerminationThread
    case Finish(caller) => CallerThread(caller)
    case Resume(caller) => CallerThread(caller)
    case Stutter => Nobody
  }

  predicate InFinish(pc: FinishPc) {
    pc.Called? || pc.Resuming?
  }

  /** The thread has a step that the scheduler owes it. */
  predicate Ready(s: State, t: Thread) {
    match t
    case StarterThread => !StarterReturned(s)
    case EventThread(stream) => !s.ReaderOf(stream).handler.Idle?
    case CancelThread(stream) => Enabled(s, EndStream(stream)) || InFinish(s.ReaderOf(stream).ending)
    case TerminationThread => Enabled(s, Terminated) || InFinish(s.termination)
    case TimerThread => Enabled(s, TimerFire) || s.timer.TimerStopping?
    case KillThread => Enabled(s, KillFire) || Enabled(s, KillClear)
    case ChildThread => s.child == Running(true)
    case Nobody => false
  }

  /** Fairness never waits for an impossible step: a ready thread has a step it can take. */
  lemma ReadyThreadCanStep(s: State, t: Thread) returns (a: Action)
    requires Shape(s) && Ready(s, t)
    ensures Owner(a) == t && Enabled(s, a)
  {
    match t
    case StarterThread =>
      a := match s.starter
           case Launching => Launch(true)
           case Feeding => Feed(true)
           case Arming => Arm
           case Scheduling(_) => Schedule
           case CatchFinish(pc) => if pc.Called? then Finish(FromStarter) else Resume(FromStarter)
           case _ => CatchStep;
    case EventThread(stream) =>
      a := match s.ReaderOf(stream).handler
           case Polling => ReadDry(stream)
           case Holding(_) => Count(stream)
           case _ => StopStep(ByReader(stream));
    case CancelThread(stream) =>
      var caller := FromReader(stream);
      a := match s.ReaderOf(stream).ending
           case Called => Finish(caller)
           case Resuming(_) => Resume(caller)
           case _ => EndStream(stream);
    case TerminationThread =>
      a := match s.termination
           case Called => Finish(FromTermination)
           case Resuming(_) => Resume(FromTermination)
           case _ => Terminated;
    case TimerThread => a := if s.timer.TimerScheduled? then TimerFire else StopStep(ByTimer);
    case KillThread => a := if s.kill.KillScheduled? then KillFire else KillClear;
    case ChildThread => a := ChildExit(9);
  }

  // ---------------------------------------------------------------------------------------------
  // A measure no step increases, and the thread whose step decreases it.
  // ---------------------------------------------------------------------------------------------

  function FinishRank(pc: FinishPc): nat {
    match pc
    case NotCalled => 3
    case Called => 2
    case Resuming(_) => 1
    case Ended => 0
  }

  function StopRank(pc: StopPc): nat {
    match pc
    case Enter(_) => 0
    case Capture => 7
    case Cancelling(left) => 4 + left
    case CheckRunning => 3
    case StoreKill => 2
    case ScheduleKill => 1
  }

  /** A source that is not cancelled may poll forever, so only its `stop` counts. */
  function ReaderRank(r: Reader): nat {
    FinishRank(r.ending) +
    if !r.cancelled then 4 + (if r.handler.Stopping? then StopRank(r.handler.pc) else 0)
    else
      match r.handler
      case Idle => 0
      case Stopping(pc) => 1 + StopRank(pc)
      case Holding(_) => 2
      case Polling => 3
  }

  function StarterRank(starter: Starter): nat {
    match starter
    case Launching => 11
    case Feeding => 10
    case Arming => 9
    case Scheduling(_) => 8
    case Started => 0
    case Catching => 7
    case CatchCapture => 6
    case CatchCancelling(left) => 3 + left
    case CatchFinish(pc) => FinishRank(pc)
  }

  function TimerRank(timer: Timer): nat {
    match timer
    case TimerOff => 12
    case TimerScheduled => 11
    case TimerStopping(pc) => if pc.Enter? then 10 else StopRank(pc)
    case TimerDone => 0
  }

  function KillRank(kill: KillTimer): nat {
    match kill
    case KillOff => 3
    case KillScheduled => 2
    case KillClearing => 1
    case KillDone => 0
  }

  function ChildRank(child: Child): nat {
    match child
    case NotLaunched => 3
    case Running(killed) => if killed then 1 else 2
    case Exited(_) => 0
  }

  /** The bytes the session will still count before every read overflows. */
  function Budget(limit: nat, shared: Shared): nat {
    if limit < shared.totalBytes then 0 else limit + 1 - shared.totalBytes
  }

  function Rank(limit: nat, s: State): nat {
    2 * Budget(limit, s.shared) + (if s.shared.failure.None? then 10 else 0)
    + ReaderRank(s.out) + ReaderRank(s.err) + StarterRank(s.starter) + FinishRank(s.termination)
    + TimerRank(s.timer) + KillRank(s.kill) + ChildRank(s.child)
  }

  function ReaderHelper(s: State, stream: Stream): Thread {
    if s.ReaderOf(stream).handler.Idle? then CancelThread(stream) else EventThread(stream)
  }

  /** The thread that must step for the session to come closer to its resumption. */
  function Helper(s: State): Thread {
    if !StarterReturned(s) then StarterThread
    else if s.shared.failure.None? && s.shared.waiting then TimerThread
    else if InFinish(s.termination) then TerminationThread
    else if InFinish(s.out.ending) then CancelThread(Output)
    else if InFinish(s.err.ending) then CancelThread(Errors)
    else if Past(s, ByTimer) then TimerThread
    else if Past(s, ByReader(Output)) then EventThread(Output)
    else if Past(s, ByReader(Errors)) then EventThread(Errors)
    else if s.out.ending.NotCalled? then ReaderHelper(s, Output)
    else if s.err.ending.NotCalled? then ReaderHelper(s, Errors)
    else if s.child.Exited? then TerminationThread
    else if s.child == Running(true) then ChildThread
    else KillThread
  }

  lemma HelperIsReady(limit: nat, s: State)
    requires Inv(limit, s) && s.delivered == []
    ensures Ready(s, Helper(s))
  {
  }

  /** A step of a source that is not cancelled and not past the guard of a `stop`. */
  predicate Quiet(s: State, a: Action) {
    match a
    case ReadEvent(stream) => !s.ReaderOf(stream).cancelled
    case ReadBytes(stream, _) => !s.ReaderOf(stream).cancelled
    case ReadDry(stream) => !s.ReaderOf(stream).cancelled
    case Count(stream) => !s.ReaderOf(stream).cancelled
    case StopStep(stopper) =>
      && stopper.ByReader? && !s.ReaderOf(stopper.stream).cancelled
      && StopAtGuard(s, a) && !StopProceeds(s.shared)
    case Stutter => true
    case _ => false
  }

  lemma StarterShrinks(limit: nat, s: State, a: Action)
    requires Launched(s) && TimerAccounted(s)
    requires Enabled(s, a) && (a.Launch? || a.Feed? || a.Arm? || a.Schedule?)
    ensures Rank(limit, Apply(limit, s, a)) < Rank(limit, s)
  {
  }

  lemma CatchShrinks(limit: nat, s: State, a: Action)
    requires Shape(s) && Enabled(s, a) && a.CatchStep?
    ensures Rank(limit, Apply(limit, s, a)) < Rank(limit, s)
  {
    if s.starter.CatchCancelling? && s.starter.left != 0 {
      CancelShrinks(limit, s, Next(s.starter.left));
    }
  }

  lemma OutsideShrinks(limit: nat, s: State, a: Action)
    requires Enabled(s, a) && OutsideStep(a) && !Quiet(s, a)
    ensures Rank(limit, Apply(limit, s, a)) < Rank(limit, s)
  {
  }

  lemma ReadShrinks(limit: nat, s: State, a: Action)
    requires Enabled(s, a) && ReadStep(a) && !Quiet(s, a)
    ensures Rank(limit, Apply(limit, s, a)) < Rank(limit, s)
  {
  }

  lemma CountShrinks(limit: nat, s: State, a: Action)
    requires Readers(limit, s) && Enabled(s, a) && (a.Count? || a.EndStream?) && !Quiet(s, a)
    ensures Rank(limit, Apply(limit, s, a)) < Rank(limit, s)
  {
  }

  lemma StopGuardShrinks(limit: nat, s: State, a: Action)
    requires Enabled(s, a) && StopAtGuard(s, a) && !Quiet(s, a)
    ensures Rank(limit, Apply(limit, s, a)) < Rank(limit, s)
  {
  }

  lemma StopCaptureShrinks(limit: nat, s: State, a: Action)
    requires |s.shared.readers| <= 2 && Enabled(s, a) && StopAtCapture(s, a)
    ensures Rank(limit, Apply(limit, s, a)) < Rank(limit, s)
  {
  }

  lemma StopKillShrinks(limit: nat, s: State, a: Action)
    requires OneStop(s) && Enabled(s, a) && StopAtKill(s, a)
    ensures Rank(limit, Apply(limit, s, a)) < Rank(limit, s)
  {
  }

  lemma FinishShrinks(limit: nat, s: State, a: Action)
    requires Enabled(s, a) && a.Finish?
    ensures Rank(limit, Apply(limit, s, a)) < Rank(limit, s)
  {
    var t := Apply(limit, s, a);
    assert Budget(limit, t.shared) == Budget(limit, s.shared) && t.shared.failure == s.shared.failure;
    assert FinishRank(CallerPc(t, a.caller)) < FinishRank(CallerPc(s, a.caller));
  }

  lemma ResumeShrinks(limit: nat, s: State, a: Action)
    requires Enabled(s, a) && a.Resume?
    ensures Rank(limit, Apply(limit, s, a)) < Rank(limit, s)
  {
  }

  lemma CancelShrinks(limit: nat, s: State, stream: Stream)
    ensures Rank(limit, s.Cancel(stream)) <= Rank(limit, s)
  {
  }

  lemma CancelledShrinks(limit: nat, s: State, stopper: Stopper, left: nat)
    requires StopperPc(s, stopper) == Some(Cancelling(left))
    ensures Rank(limit, AfterCancel(s, stopper, left)) < Rank(limit, s)
  {
  }

  lemma CancelStepShrinks(limit: nat, s: State, a: Action)
    requires Enabled(s, a) && StopAtCancel(s, a)
    ensures Rank(limit, Apply(limit, s, a)) < Rank(limit, s)
  {
    var left := StopperPc(s, a.stopper).value.left;
    if left != 0 {
      CancelShrinks(limit, s, Next(left));
    }
    CancelledShrinks(limit, CancelNext(s, left), a.stopper, left);
  }

  lemma QuietKeepsRank(limit: nat, s: State, a: Action)
    requires Enabled(s, a) && Quiet(s, a)
    ensures Rank(limit, Apply(limit, s, a)) <= Rank(limit, s)
  {
  }

  /** The helper is chosen before any running event handler is looked at. */
  predicate Early(s: State) {
    || !StarterReturned(s) || (s.shared.failure.None? && s.shared.waiting)
    || InFinish(s.termination) || InFinish(s.out.ending) || InFinish(s.err.ending) || AnyPast(s)
  }

  lemma UncancelledIsEarly(limit: nat, s: State, stream: Stream)
    requires Inv(limit, s) && s.delivered == [] && !s.ReaderOf(stream).cancelled
    ensures Early(s)
  {
  }

  lemma QuietKeepsHelper(limit: nat, s: State, a: Action)
    requires Early(s) && Enabled(s, a) && Quiet(s, a)
    ensures Helper(Apply(limit, s, a)) == Helper(s) && Owner(a) != Helper(s)
  {
  }

  predicate Advances(limit: nat, s: State, a: Action)
    requires Enabled(s, a)
  {
    var t := Apply(limit, s, a);
    && Rank(limit, t) <= Rank(limit, s)
    && (Rank(limit, t) == Rank(limit, s) ==> Helper(t) == Helper(s) && Owner(a) != Helper(s))
  }

  /** No step goes back, and a step of the helper goes forward. */
  lemma StepAdvances(limit: nat, s: State, a: Action)
    requires Inv(limit, s) && s.delivered == [] && Enabled(s, a)
    ensures Advances(limit, s, a)
  {
    if Quiet(s, a) {
      QuietKeepsRank(limit, s, a);
      if a != Stutter {
        UncancelledIsEarly(limit, s, if a.StopStep? then a.stopper.stream else a.stream);
        QuietKeepsHelper(limit, s, a);
      } else {
        HelperIsReady(limit, s);
      }
    } else if a.StopStep? {
      if StopAtGuard(s, a) { StopGuardShrinks(limit, s, a); }
      else if StopAtCapture(s, a) { StopCaptureShrinks(limit, s, a); }
      else if StopAtCancel(s, a) { CancelStepShrinks(limit, s, a); }
      else { StopKillShrinks(limit, s, a); }
    } else if a.Finish? {
      FinishShrinks(limit, s, a);
    } else if a.Resume? {
      ResumeShrinks(limit, s, a);
    } else if a.Count? || a.EndStream? {
      CountShrinks(limit, s, a);
    } else if ReadStep(a) {
      ReadShrinks(limit, s, a);
    } else if OutsideStep(a) {
      OutsideShrinks(limit, s, a);
    } else if a.CatchStep? {
      CatchShrinks(limit, s, a);
    } else {
      StarterShrinks(limit, s, a);
    }
  }

  // ---------------------------------------------------------------------------------------------
  // Infinite schedules: what a fair scheduler gives for any measure and helper that advance as above.
  // ---------------------------------------------------------------------------------------------

  datatype Timetable = Timetable(
    rank: nat -> nat,
    helper: nat -> Thread,
    owner: nat -> Thread,
    ready: (nat, Thread) -> bool,
    done: nat -> bool)

  ghost predicate AdvancesAt(sched: Timetable, n: nat) {
    !sched.done(n) ==>
      && sched.ready(n, sched.helper(n))
      && sched.rank(n + 1) <= sched.rank(n)
      && (sched.rank(n + 1) == sched.rank(n) ==>
            sched.helper(n + 1) == sched.helper(n) && sched.owner(n) != sched.helper(n))
  }

  /** From `n` on, thread `t` steps or is not ready at time `m`. */
  ghost predicate ServedAt(sched: Timetable, t: Thread, n: nat, m: nat) {
    n <= m && (sched.owner(m) == t || !sched.ready(m, t))
  }

  ghost predicate EventuallyServed(sched: Timetable, t: Thread, n: nat) {
    exists m: nat :: ServedAt(sched, t, n, m)
  }

  ghost predicate FairTimetable(sched: Timetable) {
    forall t: Thread, n: nat :: EventuallyServed(sched, t, n)
  }

  /** Before time `m` the goal is reached, or the rank drops, or one helper waits all the time. */
  lemma {:induction false} HelperWaits(sched: Timetable, n: nat, m: nat) returns (k: nat)
    requires (forall i: nat :: AdvancesAt(sched, i)) && n <= m && !sched.done(n)
    ensures n <= k <= m
    ensures
      || sched.done(k)
      || sched.rank(k) < sched.rank(n)
      || (k == m && sched.rank(k) == sched.rank(n) && sched.helper(k) == sched.helper(n))
    decreases m - n
  {
    k := n;
    if n < m {
      assert AdvancesAt(sched, n);
      k := n + 1;
      if !sched.done(k) && sched.rank(k) == sched.rank(n) {
        k := HelperWaits(sched, k, m);
      }
    }
  }

  lemma {:induction false} FairTimetableReachesGoal(sched: Timetable, n: nat) returns (k: nat)
    requires (forall i: nat :: AdvancesAt(sched, i)) && FairTimetable(sched)
    ensures n <= k && sched.done(k)
    decreases sched.rank(n)
  {
    k := n;
    if !sched.done(n) {
      assert EventuallyServed(sched, sched.helper(n), n);
      var m: nat :| ServedAt(sched, sched.helper(n), n, m);
      k := HelperWaits(sched, n, m);
      if !sched.done(k) {
        if sched.rank(k) == sched.rank(n) {
          assert AdvancesAt(sched, m);
          k := m + 1;
        }
        k := FairTimetableReachesGoal(sched, k);
      }
    }
  }

  // ---------------------------------------------------------------------------------------------
  // Infinite runs of the session.
  // ---------------------------------------------------------------------------------------------

  ghost predicate RunStep(limit: nat, run: nat -> State, act: nat -> Action, n: nat) {
    Enabled(run(n), act(n)) && run(n + 1) == Apply(limit, run(n), act(n))
  }

  ghost predicate IsRun(limit: nat, run: nat -> State, act: nat -> Action) {
    run(0) == INITIAL && forall n: nat :: RunStep(limit, run, act, n)
  }

  function TimetableOf(limit: nat, run: nat -> State, act: nat -> Action): Timetable {
    Timetable(
      (n: nat) => Rank(limit, run(n)), (n: nat) => Helper(run(n)), (n: nat) => Owner(act(n)),
      (n: nat, t: Thread) => Ready(run(n), t), (n: nat) => run(n).delivered != [])
  }

  /** Every thread that stays ready is eventually scheduled. */
  ghost predicate Fair(limit: nat, run: nat -> State, act: nat -> Action) {
    FairTimetable(TimetableOf(limit, run, act))
  }

  lemma {:induction false} RunKeepsInv(limit: nat, run: nat -> State, act: nat -> Action, n: nat)
    requires IsRun(limit, run, act)
    ensures Inv(limit, run(n))
  {
    if n == 0 {
      InvInitial(limit);
    } else {
      RunKeepsInv(limit, run, act, n - 1);
      assert RunStep(limit, run, act, n - 1);
      InvStep(limit, run(n - 1), act(n - 1));
    }
  }

  lemma RunAdvances(limit: nat, run: nat -> State, act: nat -> Action, n: nat)
    requires IsRun(limit, run, act)
    ensures AdvancesAt(TimetableOf(limit, run, act), n)
  {
    if run(n).delivered == [] {
      RunKeepsInv(limit, run, act, n);
      HelperIsReady(limit, run(n));
      assert RunStep(limit, run, act, n);
      StepAdvances(limit, run(n), act(n));
    }
  }

  lemma {:induction false} StaysResumed(
      limit: nat, run: nat -> State, act: nat -> Action, k: nat, n: nat)
    requires IsRun(limit, run, act) && k <= n && run(k).delivered != []
    ensures run(n).delivered != []
    decreases n - k
  {
    if k < n {
      assert RunStep(limit, run, act, k);
      StaysResumed(limit, run, act, k + 1, n);
    }
  }

  lemma ResumedOnce(limit: nat, run: nat -> State, act: nat -> Action, n: nat)
    requires IsRun(limit, run, act) && run(n).delivered != []
    ensures |run(n).delivered| == 1 && Sound(limit, run(n), run(n).delivered[0])
  {
    RunKeepsInv(limit, run, act, n);
  }

  /** Every fair run resumes its continuation exactly once, with a sound outcome. */
  lemma EveryFairRunResumesOnce(limit: nat, run: nat -> State, act: nat -> Action) returns (k: nat)
    requires IsRun(limit, run, act) && Fair(limit, run, act)
    ensures forall n: nat :: k <= n ==> |run(n).delivered| == 1 && Sound(limit, run(n), run(n).delivered[0])
  {
    forall n: nat
      ensures AdvancesAt(TimetableOf(limit, run, act), n)
    {
      RunAdvances(limit, run, act, n);
    }
    k := FairTimetableReachesGoal(TimetableOf(limit, run, act), 0);
    forall n: nat | k <= n
      ensures |run(n).delivered| == 1 && Sound(limit, run(n), run(n).delivered[0])
    {
      StaysResumed(limit, run, act, k, n);
      ResumedOnce(limit, run, act, n);
    }
  }

  // ---------------------------------------------------------------------------------------------
  // Fair runs exist: the failed write, the two callers that find nothing left to finish, and silence.
  // ---------------------------------------------------------------------------------------------

  function FailedWriteRun(n: nat): State {
    var ended := Reader(true, Idle, Ended);
    if n <= 11 then FailedWriteState(n)
    else if n == 12 then FailedWriteState(11).(out := ended)
    else FailedWriteState(11).(out := ended, err := ended)
  }

  function FailedWriteSchedule(n: nat): Action {
    if n < 11 then FailedWriteAction(n)
    else if n == 11 then Finish(FromReader(Output))
    else if n == 12 then Finish(FromReader(Errors))
    else Stutter
  }

  lemma FailedWriteStep(limit: nat, n: nat)
    ensures RunStep(limit, FailedWriteRun, FailedWriteSchedule, n)
  {
    if n < 5 {
      FailedWriteStart(limit, n);
    } else if n < 11 {
      FailedWriteEnd(limit, n);
    }
  }

  lemma FailedWriteIsOver(t: Thread, n: nat)
    requires n >= 13
    ensures !Ready(FailedWriteRun(n), t)
  {
  }

  lemma FairRunExists(limit: nat)
    ensures IsRun(limit, FailedWriteRun, FailedWriteSchedule) && Fair(limit, FailedWriteRun, FailedWriteSchedule)
  {
    forall n: nat ensures RunStep(limit, FailedWriteRun, FailedWriteSchedule, n) {
      FailedWriteStep(limit, n);
    }
    var sched := TimetableOf(limit, FailedWriteRun, FailedWriteSchedule);
    forall t: Thread, n: nat ensures EventuallyServed(sched, t, n) {
      FailedWriteIsOver(t, n + 13);
      assert sched.ready(n + 13, t) == Ready(FailedWriteRun(n + 13), t);
      assert ServedAt(sched, t, n, n + 13);
    }
  }
}
