/**
 Timeouts bound the execution of the child: every fair run whose `start` does not fail ends with the
 child gone. A failed `start` is the only exception, and then the child was abandoned or never launched.
 */
module ProcessEnd {
  import opened Prelude
  import opened ProcessSessions
  import opened ProcessSafety
  import opened ProcessRuns
  import opened ProcessKill
  import opened ProcessLiveness

  /** A stopped session whose child was launched and is neither gone nor abandoned. */
  predicate Chased(s: State) {
    s.shared.failure.Some? && s.child.Running? && !Abandoned(s)
  }

  // ---------------------------------------------------------------------------------------------
  // The way from the guard of `stop` to the end of the child.
  // ---------------------------------------------------------------------------------------------

  function PastRank(s: State, stopper: Stopper): nat {
    if Past(s, stopper) then StopRank(StopperPc(s, stopper).value) else 0
  }

  function ChaseRank(s: State): nat {
    if !Chased(s) then 0
    else if s.child == Running(true) then 1
    else if s.kill.KillScheduled? then 2
    else 2 + PastRank(s, ByTimer) + PastRank(s, ByReader(Output)) + PastRank(s, ByReader(Errors))
  }

  function ChaseHelper(s: State): Thread {
    if s.child == Running(true) then ChildThread
    else if s.kill.KillScheduled? then KillThread
    else if Past(s, ByTimer) then TimerThread
    else if Past(s, ByReader(Output)) then EventThread(Output)
    else EventThread(Errors)
  }

  /** Who is past the guard of `stop` is the only one, and has not set the kill timer yet. */
  lemma ChaserIsAlone(s: State)
    requires OneStop(s) && KillInv(s) && Chased(s) && s.child == Running(false)
    ensures !s.shared.killCancelled && (s.kill.KillScheduled? || AnyPast(s))
    ensures s.kill.KillScheduled? ==> !AnyPast(s)
    ensures !s.kill.KillScheduled? ==> s.kill.KillOff?
  {
  }

  lemma ChaseIsReady(s: State)
    requires OneStop(s) && KillInv(s) && Chased(s)
    ensures Ready(s, ChaseHelper(s)) && ChaseRank(s) > 0
  {
    if s.child == Running(false) {
      ChaserIsAlone(s);
    }
  }

  /** A step that comes no closer leaves the helper to its work. */
  predicate Closer(s: State, t: State, owner: Thread) {
    && ChaseRank(t) <= ChaseRank(s)
    && (ChaseRank(t) == ChaseRank(s) ==> ChaseHelper(t) == ChaseHelper(s) && owner != ChaseHelper(s))
  }

  lemma ChaserSteps(s: State, stopper: Stopper)
    requires Past(s, stopper) && s.child == Running(false) && |s.shared.readers| <= 2
    ensures var pc, t := StopperPc(s, stopper).value, ApplyStop(s, stopper);
            && t.child == Running(false) && t.shared.killCancelled == s.shared.killCancelled
            && t.shared.failure == s.shared.failure
            && (if pc.ScheduleKill? then t.kill.KillScheduled?
                else t.kill == s.kill && Past(t, stopper) && StopRank(StopperPc(t, stopper).value) < StopRank(pc))
  {
    StopStepAdvances(s, stopper);
  }

  /** The rank and the helper when one `stop` is past its guard. */
  lemma ChaserRank(s: State, stopper: Stopper)
    requires OneStop(s) && KillInv(s) && Chased(s) && s.child == Running(false) && Past(s, stopper)
    ensures s.kill.KillOff? && ChaseRank(s) == 2 + StopRank(StopperPc(s, stopper).value)
    ensures ChaseHelper(s) == Owner(StopStep(stopper))
  {
    assert Past(s, stopper) ==> AnyPast(s);
    ChaserIsAlone(s);
  }

  lemma StopCloses(s: State, stopper: Stopper)
    requires OneStop(s) && KillInv(s) && Chased(s) && |s.shared.readers| <= 2 && Past(s, stopper)
    requires OneStop(ApplyStop(s, stopper)) && KillInv(ApplyStop(s, stopper))
    requires s.child == Running(false)
    ensures ChaseRank(ApplyStop(s, stopper)) < ChaseRank(s)
  {
    var t := ApplyStop(s, stopper);
    ChaserSteps(s, stopper);
    ChaserRank(s, stopper);
    ChaserIsAlone(s);
    if !StopperPc(s, stopper).value.ScheduleKill? {
      ChaserRank(t, stopper);
    }
  }

  lemma SignalledStopCloses(s: State, stopper: Stopper)
    requires Chased(s) && s.child == Running(true) && StopperPc(s, stopper).Some?
    ensures Closer(s, ApplyStop(s, stopper), Owner(StopStep(stopper)))
  {
  }

  lemma GuardCloses(s: State, stopper: Stopper)
    requires OneStop(s) && KillInv(s) && Chased(s)
    requires Enabled(s, StopStep(stopper)) && !Past(s, stopper)
    ensures Closer(s, ApplyStop(s, stopper), Owner(StopStep(stopper)))
  {
  }

  lemma OutsideCloses(limit: nat, s: State, a: Action)
    requires OneStop(s) && KillInv(s) && TimerAccounted(s) && Chased(s)
    requires Enabled(s, a) && OutsideStep(a)
    ensures Closer(s, Apply(limit, s, a), Owner(a))
  {
  }

  lemma StarterCloses(limit: nat, s: State, a: Action)
    requires OneStop(s) && KillInv(s) && TimerAccounted(s) && Launched(s) && Chased(s)
    requires Enabled(s, a) && (a.Launch? || a.Feed? || a.Arm? || a.Schedule? || a.CatchStep?)
    ensures Closer(s, Apply(limit, s, a), Owner(a))
  {
  }

  lemma ReaderCloses(limit: nat, s: State, a: Action)
    requires OneStop(s) && KillInv(s) && Chased(s)
    requires Enabled(s, a) && (ReadStep(a) || a.Count? || a.EndStream?)
    ensures Closer(s, Apply(limit, s, a), Owner(a))
  {
  }

  lemma FinishCloses(limit: nat, s: State, a: Action)
    requires OneStop(s) && KillInv(s) && Chased(s)
    requires Enabled(s, a) && (a.Finish? || a.Resume?)
    ensures Closer(s, Apply(limit, s, a), Owner(a))
  {
  }

  lemma ChaseAdvances(limit: nat, s: State, a: Action)
    requires Inv(limit, s) && KillInv(s) && Chased(s) && Enabled(s, a)
    ensures Closer(s, Apply(limit, s, a), Owner(a))
  {
    if OutsideStep(a) {
      OutsideCloses(limit, s, a);
    } else if ReadStep(a) || a.Count? || a.EndStream? {
      ReaderCloses(limit, s, a);
    } else if a.Finish? || a.Resume? {
      FinishCloses(limit, s, a);
    } else if !a.StopStep? {
      StarterCloses(limit, s, a);
    } else if s.child == Running(true) {
      SignalledStopCloses(s, a.stopper);
    } else if Past(s, a.stopper) {
      InvStep(limit, s, a);
      StoredStep(limit, s, a);
      SignalsStep(limit, s, a);
      StopCloses(s, a.stopper);
    } else {
      GuardCloses(s, a.stopper);
    }
  }

  // ---------------------------------------------------------------------------------------------
  // Infinite runs.
  // ---------------------------------------------------------------------------------------------

  lemma {:induction false} RunKeepsKillInv(limit: nat, run: nat -> State, act: nat -> Action, n: nat)
    requires IsRun(limit, run, act)
    ensures Inv(limit, run(n)) && KillInv(run(n))
  {
    if n == 0 {
      InvInitial(limit);
    } else {
      RunKeepsKillInv(limit, run, act, n - 1);
      assert RunStep(limit, run, act, n - 1);
      InvStep(limit, run(n - 1), act(n - 1));
      StoredStep(limit, run(n - 1), act(n - 1));
      SignalsStep(limit, run(n - 1), act(n - 1));
    }
  }

  /** The chase from time `start` on. */
  function ChaseFrom(run: nat -> State, act: nat -> Action, start: nat): Timetable {
    Timetable(
      (n: nat) => ChaseRank(run(start + n)), (n: nat) => ChaseHelper(run(start + n)),
      (n: nat) => Owner(act(start + n)), (n: nat, t: Thread) => Ready(run(start + n), t),
      (n: nat) => !Chased(run(start + n)))
  }

  lemma ChaseIsFair(limit: nat, run: nat -> State, act: nat -> Action, start: nat)
    requires Fair(limit, run, act)
    ensures FairTimetable(ChaseFrom(run, act, start))
  {
    var sched, chase := TimetableOf(limit, run, act), ChaseFrom(run, act, start);
    forall t: Thread, n: nat ensures EventuallyServed(chase, t, n) {
      assert EventuallyServed(sched, t, start + n);
      var m: nat :| ServedAt(sched, t, start + n, m);
      assert chase.owner(m - start) == sched.owner(m) && chase.ready(m - start, t) == sched.ready(m, t);
      assert ServedAt(chase, t, n, m - start);
    }
  }

  lemma ChaseAdvancesAt(limit: nat, run: nat -> State, act: nat -> Action, start: nat, n: nat)
    requires IsRun(limit, run, act)
    ensures AdvancesAt(ChaseFrom(run, act, start), n)
  {
    var s, a := run(start + n), act(start + n);
    if Chased(s) {
      RunKeepsKillInv(limit, run, act, start + n);
      assert RunStep(limit, run, act, start + n);
      ChaseIsReady(s);
      ChaseAdvances(limit, s, a);
    }
  }

  /** Every chase ends: the child is gone or abandoned. */
  lemma ChaseEnds(limit: nat, run: nat -> State, act: nat -> Action, start: nat) returns (k: nat)
    requires IsRun(limit, run, act) && Fair(limit, run, act)
    requires run(start).shared.failure.Some? && !run(start).child.NotLaunched?
    ensures start <= k && Over(run(k))
  {
    var chase := ChaseFrom(run, act, start);
    ChaseIsFair(limit, run, act, start);
    forall n: nat ensures AdvancesAt(chase, n) {
      ChaseAdvancesAt(limit, run, act, start, n);
    }
    var n := FairTimetableReachesGoal(chase, 0);
    k := start + n;
    assert chase.done(n) == !Chased(run(k));
    StoppedStays(limit, run, act, start, k);
  }

  predicate Stopped(s: State) {
    s.shared.failure.Some? && !s.child.NotLaunched?
  }

  lemma {:induction false} StoppedStays(limit: nat, run: nat -> State, act: nat -> Action, n: nat, m: nat)
    requires IsRun(limit, run, act) && n <= m && Stopped(run(n))
    ensures Stopped(run(m))
    decreases m - n
  {
    if n < m {
      assert RunStep(limit, run, act, n);
      StoppedStep(limit, run(n), act(n));
      StoppedStays(limit, run, act, n + 1, m);
    }
  }

  lemma StoppedStep(limit: nat, s: State, a: Action)
    requires Stopped(s) && Enabled(s, a)
    ensures Stopped(Apply(limit, s, a))
  {
  }

  // ---------------------------------------------------------------------------------------------
  // Ends that last.
  // ---------------------------------------------------------------------------------------------

  /** The child is gone, or it was abandoned. */
  predicate Over(s: State) {
    s.child.Exited? || Abandoned(s)
  }

  /** It could not be launched. */
  predicate Unlaunched(s: State) {
    s.child.NotLaunched? && Caught(s)
  }

  lemma OverStep(limit: nat, s: State, a: Action)
    requires Launched(s) && Enabled(s, a) && Over(s)
    ensures Over(Apply(limit, s, a)) && (s.child.Exited? ==> Apply(limit, s, a).child.Exited?)
  {
    if s.child.Exited? {
      ExitedStep(limit, s, a);
    } else {
      AbandonedStep(limit, s, a);
    }
  }

  lemma UnlaunchedStep(limit: nat, s: State, a: Action)
    requires Enabled(s, a) && Unlaunched(s)
    ensures Unlaunched(Apply(limit, s, a))
  {
  }

  lemma {:induction false} EndStays(limit: nat, run: nat -> State, act: nat -> Action, n: nat, m: nat)
    requires IsRun(limit, run, act) && n <= m
    ensures Over(run(n)) ==> Over(run(m))
    ensures run(n).child.Exited? ==> run(m).child.Exited?
    ensures Unlaunched(run(n)) ==> Unlaunched(run(m))
    decreases m - n
  {
    if n < m {
      RunKeepsKillInv(limit, run, act, n);
      assert RunStep(limit, run, act, n);
      if Over(run(n)) {
        OverStep(limit, run(n), act(n));
      }
      if Unlaunched(run(n)) {
        UnlaunchedStep(limit, run(n), act(n));
      }
      EndStays(limit, run, act, n + 1, m);
    }
  }

  /** At the resumption the session has failed or the child has exited. */
  lemma ResumedIsStopped(limit: nat, s: State)
    requires Inv(limit, s) && KillInv(s) && s.delivered != []
    ensures s.child.Exited? || s.shared.failure.Some?
    ensures s.shared.failure.Some? && s.child.NotLaunched? ==> Caught(s)
  {
  }

  /** In every fair run the child is gone, abandoned or unlaunched from some time on. */
  lemma EveryFairRunEnds(limit: nat, run: nat -> State, act: nat -> Action) returns (k: nat)
    requires IsRun(limit, run, act) && Fair(limit, run, act)
    ensures forall m: nat :: k <= m ==> Over(run(m)) || Unlaunched(run(m))
  {
    k := EveryFairRunResumesOnce(limit, run, act);
    RunKeepsKillInv(limit, run, act, k);
    ResumedIsStopped(limit, run(k));
    if Stopped(run(k)) {
      k := ChaseEnds(limit, run, act, k);
    }
    forall m: nat | k <= m ensures Over(run(m)) || Unlaunched(run(m)) {
      EndStays(limit, run, act, k, m);
    }
  }

  /** A timeout bounds the execution: every fair run whose `start` never fails ends with the child gone. */
  lemma TimeoutBoundsExecution(limit: nat, run: nat -> State, act: nat -> Action) returns (k: nat)
    requires IsRun(limit, run, act) && Fair(limit, run, act)
    requires forall n: nat :: !Caught(run(n))
    ensures forall m: nat :: k <= m ==> run(m).child.Exited?
  {
    k := EveryFairRunEnds(limit, run, act);
    forall m: nat | k <= m ensures run(m).child.Exited? {
      RunKeepsKillInv(limit, run, act, m);
      assert Over(run(m)) || Unlaunched(run(m));
      assert !Caught(run(m));
    }
  }

  /** An abandoned child is never killed later in the run; it is gone only when it exits by itself. */
  lemma AbandonedForGood(limit: nat, run: nat -> State, act: nat -> Action, n: nat, m: nat)
    requires IsRun(limit, run, act) && n <= m && Abandoned(run(n))
    ensures Over(run(m)) && run(m).child != Running(true)
  {
    EndStays(limit, run, act, n, m);
  }

  /** The counterpart: a fair run whose request cannot be written leaves its child running for ever. */
  lemma FailedWriteRunsOn(limit: nat, n: nat)
    ensures IsRun(limit, FailedWriteRun, FailedWriteSchedule)
    ensures Fair(limit, FailedWriteRun, FailedWriteSchedule)
    ensures 3 <= n ==> Abandoned(FailedWriteRun(n)) && CatchRan(FailedWriteRun(n))
  {
    FairRunExists(limit);
  }
}
