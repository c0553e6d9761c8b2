/** What every interleaving of one process session keeps. */
module ProcessSafety {
  import opened Prelude
  import opened ProcessSessions

  /** The execution of `stop` got past its guard and has not returned. */
  predicate Past(s: State, stopper: Stopper) {
    StopperPc(s, stopper).Some? && !StopperPc(s, stopper).value.Enter?
  }

  predicate AnyPast(s: State) {
    Past(s, ByReader(Output)) || Past(s, ByReader(Errors)) || Past(s, ByTimer)
  }

  function Bit(b: bool): nat {
    if b then 1 else 0
  }

  predicate Begun(pc: FinishPc) {
    !pc.NotCalled?
  }

  predicate CatchRan(s: State) {
    Caught(s) && !s.starter.Catching?
  }

  /** The continuation exists exactly once: stored, captured by one caller, or spent. */
  predicate OneContinuation(s: State) {
    Bit(s.shared.waiting) + Bit(s.out.ending.Resuming?) + Bit(s.err.ending.Resuming?)
      + Bit(s.termination.Resuming?) + Bit(CallerPc(s, FromStarter).Resuming?) + |s.delivered| == 1
  }

  predicate ReaderShape(limit: nat, s: State, r: Reader) {
    && (Begun(r.ending) ==> r.cancelled && r.handler.Idle?)
    && (r.handler.Holding? ==> r.handler.bytes != [])
    && (r.handler.Stopping? && r.handler.pc.Enter? ==>
          r.handler.pc.reason == OutputLimit && limit < s.shared.totalBytes)
    && (r.handler.Stopping? && r.handler.pc.Cancelling? ==> r.handler.pc.left <= 2)
  }

  predicate Readers(limit: nat, s: State) {
    ReaderShape(limit, s, s.out) && ReaderShape(limit, s, s.err)
  }

  predicate Shape(s: State) {
    && |s.shared.readers| == (if s.shared.waiting then 2 else 0)
    && s.shared.streamEnds == Bit(Begun(s.out.ending)) + Bit(Begun(s.err.ending))
    && (s.starter.CatchFinish? ==> Begun(s.starter.pc))
    && (!s.handlerSet ==> Begun(s.termination))
    && (Begun(s.termination) ==> s.child.Exited?)
  }

  predicate Launched(s: State) {
    && (s.child.NotLaunched? ==> s.starter.Launching? || Caught(s))
    && (s.starter.Launching? ==>
          && s.child.NotLaunched? && s.out.handler.Idle? && s.err.handler.Idle?
          && s.timer.TimerOff? && s.shared.failure.None?)
  }

  predicate Counters(s: State) {
    && (s.timer.TimerStopping? && s.timer.pc.Enter? ==> s.timer.pc.reason == Timeout)
    && (s.timer.TimerStopping? && s.timer.pc.Cancelling? ==> s.timer.pc.left <= 2)
    && (s.starter.CatchCancelling? ==> s.starter.left <= 2)
  }

  /** At most one `stop` gets past its guard in the whole session. */
  predicate OneStop(s: State) {
    && Bit(Past(s, ByReader(Output))) + Bit(Past(s, ByReader(Errors))) + Bit(Past(s, ByTimer))
         + Bit(!s.kill.KillOff?) <= 1
    && (AnyPast(s) || !s.kill.KillOff? ==> s.shared.failure.Some?)
  }

  predicate ExitAccounted(s: State) {
    && (s.shared.exitCode.Some? <==> Begun(s.termination) || CatchRan(s))
    && (s.shared.failure == Some(ProcessFailed) <==> CatchRan(s))
    && (s.shared.exitCode.Some? && s.shared.failure.None? ==> s.child == Exited(s.shared.exitCode.value))
    && (s.shared.killCancelled ==> s.shared.exitCode.Some?)
  }

  predicate TimerAccounted(s: State) {
    && (!s.timer.TimerOff? ==> s.starter.Started?)
    && (s.starter.Scheduling? && !s.starter.armed ==> !s.shared.waiting)
    && (s.starter.Started? && s.timer.TimerOff? ==> !s.shared.waiting)
    && (s.timer.TimerDone? ==> s.shared.failure.Some? || !s.shared.waiting)
    && (s.shared.timeoutCancelled ==> !s.shared.waiting)
    && (s.shared.failure == Some(Timeout) ==> s.timer.TimerDone? || Past(s, ByTimer))
  }

  predicate BytesAccounted(limit: nat, s: State) {
    && (limit < s.shared.totalBytes && s.shared.waiting ==>
          s.shared.failure.Some?
          || (s.out.handler.Stopping? && s.out.handler.pc.Enter?)
          || (s.err.handler.Stopping? && s.err.handler.pc.Enter?))
    && (s.shared.failure == Some(OutputLimit) ==> limit < s.shared.totalBytes)
    && (s.shared.totalBytes <= limit ==>
          s.outRead == s.shared.stdout + (if s.out.handler.Holding? then s.out.handler.bytes else []))
  }

  /** A stream is cancelled, or the thread that stopped the session is about to cancel it. */
  predicate WillCancel(s: State, stream: Stream) {
    || s.ReaderOf(stream).cancelled
    || s.starter.CatchCapture?
    || (s.starter.CatchCancelling? && Left(s.starter.left, stream))
    || StopCancels(StopperPc(s, ByReader(Output)), stream)
    || StopCancels(StopperPc(s, ByReader(Errors)), stream)
    || StopCancels(StopperPc(s, ByTimer), stream)
  }

  predicate Left(left: nat, stream: Stream) {
    if stream == Output then left == 2 else 1 <= left
  }

  predicate StopCancels(pc: Option<StopPc>, stream: Stream) {
    pc.Some? && (pc.value.Capture? || (pc.value.Cancelling? && Left(pc.value.left, stream)))
  }

  predicate Cancelled(s: State) {
    s.shared.failure.Some? && s.shared.waiting ==> WillCancel(s, Output) && WillCancel(s, Errors)
  }

  /** A `finishIfReady` whose region has not run yet, or the `catch` that is about to call it. */
  predicate FinishDue(s: State) {
    || s.out.ending.Called? || s.err.ending.Called? || s.termination.Called?
    || s.starter.CatchCapture? || s.starter.CatchCancelling?
    || (s.starter.CatchFinish? && s.starter.pc.Called?)
  }

  /** Completion is never lost: `stop` calls no `finishIfReady`, yet some region is always still due. */
  predicate NotLost(s: State) {
    && (s.shared.waiting && s.shared.streamEnds == 2 && s.shared.exitCode.Some? ==> FinishDue(s))
    && (s.shared.waiting && s.shared.failure == Some(OutputLimit) ==>
          s.out.ending.NotCalled? || s.out.ending.Called? || s.err.ending.NotCalled? || s.err.ending.Called?)
  }

  predicate Sound(limit: nat, s: State, outcome: Outcome) {
    match outcome
    case Returned(stdout, code) =>
      && stdout == s.outRead && s.shared.totalBytes <= limit && s.child == Exited(code)
      && Begun(s.out.ending) && Begun(s.err.ending)
      && (s.shared.failure.None? || CatchRan(s))
    case Thrown(OutputLimit) => limit < s.shared.totalBytes
    case Thrown(Timeout) => s.timer.TimerDone? || Past(s, ByTimer)
    case Thrown(ProcessFailed) => CatchRan(s)
  }

  /** The one outcome in flight or delivered is the captured one. */
  predicate Matches(s: State) {
    && (s.shared.waiting <==> s.taken.None?)
    && (s.out.ending.Resuming? ==> s.taken == Some(s.out.ending.outcome))
    && (s.err.ending.Resuming? ==> s.taken == Some(s.err.ending.outcome))
    && (s.termination.Resuming? ==> s.taken == Some(s.termination.outcome))
    && (CallerPc(s, FromStarter).Resuming? ==> s.taken == Some(CallerPc(s, FromStarter).outcome))
    && (s.delivered != [] ==> s.taken == Some(s.delivered[0]))
    && (s.taken.Some? && s.taken.value.Returned? ==> Begun(s.termination))
  }

  predicate TakenSound(limit: nat, s: State) {
    s.taken.Some? ==> Sound(limit, s, s.taken.value)
  }

  /** A stopped child that still runs has its SIGKILL on the way, unless `start` failed. */
  predicate KillDue(s: State) {
    s.shared.failure.Some? && s.child == Running(false) && !CatchRan(s) ==>
      AnyPast(s) || (s.kill.KillScheduled? && !s.shared.killCancelled)
  }

  predicate Token(s: State) {
    OneContinuation(s) && Matches(s)
  }

  predicate Structure(limit: nat, s: State) {
    Readers(limit, s) && Counters(s) && Shape(s) && Launched(s)
  }

  predicate Accounts(limit: nat, s: State) {
    OneStop(s) && ExitAccounted(s) && TimerAccounted(s) && BytesAccounted(limit, s)
  }

  predicate Progress(limit: nat, s: State) {
    Cancelled(s) && NotLost(s) && TakenSound(limit, s) && KillDue(s)
  }

  predicate Inv(limit: nat, s: State) {
    Token(s) && Structure(limit, s) && Accounts(limit, s) && Progress(limit, s)
  }

  lemma InvInitial(limit: nat)
    ensures Inv(limit, INITIAL)
  {
  }

  // ---------------------------------------------------------------------------------------------
  // Each family of steps keeps each part of the invariant.
  // ---------------------------------------------------------------------------------------------

  predicate StarterStep(s: State, a: Action) {
    a.Launch? || a.Feed? || a.Arm? || a.Schedule? || (a.CatchStep? && !s.starter.CatchCancelling?)
  }

  predicate OutsideStep(a: Action) {
    a.TimerFire? || a.KillFire? || a.KillClear? || a.ChildExit? || a.Terminated? || a.Stutter?
  }

  predicate ReadStep(a: Action) {
    a.ReadEvent? || a.ReadBytes? || a.ReadDry? || a.ReadEnd?
  }

  predicate StopAtGuard(s: State, a: Action) {
    a.StopStep? && StopperPc(s, a.stopper).Some? && StopperPc(s, a.stopper).value.Enter?
  }

  predicate StopAtCapture(s: State, a: Action) {
    a.StopStep? && StopperPc(s, a.stopper).Some? && StopperPc(s, a.stopper).value.Capture?
  }

  predicate StopAtCancel(s: State, a: Action) {
    a.StopStep? && StopperPc(s, a.stopper).Some? && StopperPc(s, a.stopper).value.Cancelling?
  }

  predicate StopAtKill(s: State, a: Action) {
    && a.StopStep? && StopperPc(s, a.stopper).Some?
    && (StopperPc(s, a.stopper).value.CheckRunning? || StopperPc(s, a.stopper).value.StoreKill?
        || StopperPc(s, a.stopper).value.ScheduleKill?)
  }

  lemma StarterKeepsToken(limit: nat, s: State, a: Action)
    requires Token(s) && Structure(limit, s) && ExitAccounted(s)
    requires Enabled(s, a) && StarterStep(s, a)
    ensures Token(Apply(limit, s, a))
  {
  }

  lemma StarterKeepsStructureReaders(limit: nat, s: State, a: Action)
    requires Token(s) && Structure(limit, s)
    requires Enabled(s, a) && StarterStep(s, a)
    ensures var t := Apply(limit, s, a); Readers(limit, t) && Counters(t)
  {
  }

  lemma StarterKeepsStructureShape(limit: nat, s: State, a: Action)
    requires Token(s) && Structure(limit, s)
    requires Enabled(s, a) && StarterStep(s, a)
    ensures var t := Apply(limit, s, a); Shape(t) && Launched(t)
  {
  }

  lemma StarterKeepsStructure(limit: nat, s: State, a: Action)
    requires Token(s) && Structure(limit, s)
    requires Enabled(s, a) && StarterStep(s, a)
    ensures Structure(limit, Apply(limit, s, a))
  {
    StarterKeepsStructureReaders(limit, s, a);
    StarterKeepsStructureShape(limit, s, a);
  }

  lemma StarterKeepsAccounts(limit: nat, s: State, a: Action)
    requires Structure(limit, s) && Accounts(limit, s)
    requires Enabled(s, a) && StarterStep(s, a)
    ensures Accounts(limit, Apply(limit, s, a))
  {
  }

  lemma StarterKeepsProgress(limit: nat, s: State, a: Action)
    requires Inv(limit, s)
    requires Enabled(s, a) && StarterStep(s, a)
    ensures Progress(limit, Apply(limit, s, a))
  {
  }

  lemma OutsideKeepsToken(limit: nat, s: State, a: Action)
    requires Token(s) && Structure(limit, s) && ExitAccounted(s)
    requires Enabled(s, a) && OutsideStep(a)
    ensures Token(Apply(limit, s, a))
  {
  }

  lemma OutsideKeepsStructure(limit: nat, s: State, a: Action)
    requires Token(s) && Structure(limit, s)
    requires Enabled(s, a) && OutsideStep(a)
    ensures Structure(limit, Apply(limit, s, a))
  {
  }

  lemma OutsideKeepsAccounts(limit: nat, s: State, a: Action)
    requires Structure(limit, s) && Accounts(limit, s)
    requires Enabled(s, a) && OutsideStep(a)
    ensures Accounts(limit, Apply(limit, s, a))
  {
  }

  lemma OutsideKeepsProgress(limit: nat, s: State, a: Action)
    requires Inv(limit, s)
    requires Enabled(s, a) && OutsideStep(a)
    ensures Progress(limit, Apply(limit, s, a))
  {
  }

  lemma ReadKeepsToken(limit: nat, s: State, a: Action)
    requires Token(s) && Structure(limit, s) && ExitAccounted(s)
    requires Enabled(s, a) && ReadStep(a)
    ensures Token(Apply(limit, s, a))
  {
  }

  lemma ReadKeepsStructure(limit: nat, s: State, a: Action)
    requires Token(s) && Structure(limit, s)
    requires Enabled(s, a) && ReadStep(a)
    ensures Structure(limit, Apply(limit, s, a))
  {
  }

  lemma ReadKeepsAccounts(limit: nat, s: State, a: Action)
    requires Structure(limit, s) && Accounts(limit, s)
    requires Enabled(s, a) && ReadStep(a)
    ensures Accounts(limit, Apply(limit, s, a))
  {
  }

  lemma ReadKeepsProgressDue(limit: nat, s: State, a: Action)
    requires Inv(limit, s)
    requires Enabled(s, a) && ReadStep(a)
    ensures var t := Apply(limit, s, a); Cancelled(t) && NotLost(t)
  {
  }

  lemma ReadKeepsProgressSound(limit: nat, s: State, a: Action)
    requires Inv(limit, s)
    requires Enabled(s, a) && ReadStep(a)
    ensures var t := Apply(limit, s, a); TakenSound(limit, t) && KillDue(t)
  {
  }

  lemma ReadKeepsProgress(limit: nat, s: State, a: Action)
    requires Inv(limit, s)
    requires Enabled(s, a) && ReadStep(a)
    ensures Progress(limit, Apply(limit, s, a))
  {
    ReadKeepsProgressDue(limit, s, a);
    ReadKeepsProgressSound(limit, s, a);
  }

  lemma CountKeepsToken(limit: nat, s: State, a: Action)
    requires Token(s) && Structure(limit, s) && ExitAccounted(s)
    requires Enabled(s, a) && (a.Count? || a.EndStream?)
    ensures Token(Apply(limit, s, a))
  {
  }

  lemma CountKeepsStructure(limit: nat, s: State, a: Action)
    requires Token(s) && Structure(limit, s)
    requires Enabled(s, a) && (a.Count? || a.EndStream?)
    ensures Structure(limit, Apply(limit, s, a))
  {
  }

  lemma CountKeepsAccounts(limit: nat, s: State, a: Action)
    requires Structure(limit, s) && Accounts(limit, s)
    requires Enabled(s, a) && (a.Count? || a.EndStream?)
    ensures Accounts(limit, Apply(limit, s, a))
  {
  }

  lemma CountKeepsProgress(limit: nat, s: State, a: Action)
    requires Inv(limit, s)
    requires Enabled(s, a) && (a.Count? || a.EndStream?)
    ensures Progress(limit, Apply(limit, s, a))
  {
  }

  lemma StopGuardKeepsToken(limit: nat, s: State, a: Action)
    requires Token(s) && Structure(limit, s) && ExitAccounted(s)
    requires Enabled(s, a) && StopAtGuard(s, a)
    ensures Token(Apply(limit, s, a))
  {
  }

  lemma StopGuardKeepsStructure(limit: nat, s: State, a: Action)
    requires Token(s) && Structure(limit, s)
    requires Enabled(s, a) && StopAtGuard(s, a)
    ensures Structure(limit, Apply(limit, s, a))
  {
  }

  lemma StopGuardKeepsAccounts(limit: nat, s: State, a: Action)
    requires Structure(limit, s) && Accounts(limit, s)
    requires Enabled(s, a) && StopAtGuard(s, a)
    ensures Accounts(limit, Apply(limit, s, a))
  {
  }

  lemma StopGuardKeepsProgressDue(limit: nat, s: State, a: Action)
    requires Inv(limit, s)
    requires Enabled(s, a) && StopAtGuard(s, a)
    ensures var t := Apply(limit, s, a); Cancelled(t) && NotLost(t)
  {
  }

  lemma StopGuardKeepsProgressSound(limit: nat, s: State, a: Action)
    requires Inv(limit, s)
    requires Enabled(s, a) && StopAtGuard(s, a)
    ensures var t := Apply(limit, s, a); TakenSound(limit, t) && KillDue(t)
  {
  }

  lemma StopGuardKeepsProgress(limit: nat, s: State, a: Action)
    requires Inv(limit, s)
    requires Enabled(s, a) && StopAtGuard(s, a)
    ensures Progress(limit, Apply(limit, s, a))
  {
    StopGuardKeepsProgressDue(limit, s, a);
    StopGuardKeepsProgressSound(limit, s, a);
  }

  lemma StopCaptureKeepsToken(limit: nat, s: State, a: Action)
    requires Token(s) && Structure(limit, s) && ExitAccounted(s)
    requires Enabled(s, a) && StopAtCapture(s, a)
    ensures Token(Apply(limit, s, a))
  {
  }

  lemma StopCaptureKeepsStructure(limit: nat, s: State, a: Action)
    requires Token(s) && Structure(limit, s)
    requires Enabled(s, a) && StopAtCapture(s, a)
    ensures Structure(limit, Apply(limit, s, a))
  {
  }

  lemma StopCaptureKeepsAccounts(limit: nat, s: State, a: Action)
    requires Structure(limit, s) && Accounts(limit, s)
    requires Enabled(s, a) && StopAtCapture(s, a)
    ensures Accounts(limit, Apply(limit, s, a))
  {
  }

  lemma StopCaptureKeepsProgress(limit: nat, s: State, a: Action)
    requires Inv(limit, s)
    requires Enabled(s, a) && StopAtCapture(s, a)
    ensures Progress(limit, Apply(limit, s, a))
  {
  }

  lemma StopKillKeepsToken(limit: nat, s: State, a: Action)
    requires Token(s) && Structure(limit, s) && ExitAccounted(s)
    requires Enabled(s, a) && StopAtKill(s, a)
    ensures Token(Apply(limit, s, a))
  {
  }

  lemma StopKillKeepsStructure(limit: nat, s: State, a: Action)
    requires Token(s) && Structure(limit, s)
    requires Enabled(s, a) && StopAtKill(s, a)
    ensures Structure(limit, Apply(limit, s, a))
  {
  }

  lemma StopKillKeepsAccounts(limit: nat, s: State, a: Action)
    requires Structure(limit, s) && Accounts(limit, s)
    requires Enabled(s, a) && StopAtKill(s, a)
    ensures Accounts(limit, Apply(limit, s, a))
  {
  }

  lemma StopKillKeepsProgress(limit: nat, s: State, a: Action)
    requires Inv(limit, s)
    requires Enabled(s, a) && StopAtKill(s, a)
    ensures Progress(limit, Apply(limit, s, a))
  {
  }

  lemma FinishKeepsToken(limit: nat, s: State, a: Action)
    requires Token(s) && Structure(limit, s) && ExitAccounted(s)
    requires Enabled(s, a) && a.Finish?
    ensures Token(Apply(limit, s, a))
  {
  }

  lemma FinishKeepsStructure(limit: nat, s: State, a: Action)
    requires Token(s) && Structure(limit, s)
    requires Enabled(s, a) && a.Finish?
    ensures Structure(limit, Apply(limit, s, a))
  {
  }

  lemma FinishKeepsAccounts(limit: nat, s: State, a: Action)
    requires Structure(limit, s) && Accounts(limit, s)
    requires Enabled(s, a) && a.Finish?
    ensures Accounts(limit, Apply(limit, s, a))
  {
  }

  lemma FinishKeepsProgress(limit: nat, s: State, a: Action)
    requires Inv(limit, s)
    requires Enabled(s, a) && a.Finish?
    ensures Progress(limit, Apply(limit, s, a))
  {
  }

  lemma ResumeKeepsToken(limit: nat, s: State, a: Action)
    requires Token(s) && Structure(limit, s) && ExitAccounted(s)
    requires Enabled(s, a) && a.Resume?
    ensures Token(Apply(limit, s, a))
  {
  }

  lemma ResumeKeepsStructure(limit: nat, s: State, a: Action)
    requires Token(s) && Structure(limit, s)
    requires Enabled(s, a) && a.Resume?
    ensures Structure(limit, Apply(limit, s, a))
  {
  }

  lemma ResumeKeepsAccounts(limit: nat, s: State, a: Action)
    requires Structure(limit, s) && Accounts(limit, s)
    requires Enabled(s, a) && a.Resume?
    ensures Accounts(limit, Apply(limit, s, a))
  {
  }

  lemma ResumeKeepsProgress(limit: nat, s: State, a: Action)
    requires Inv(limit, s)
    requires Enabled(s, a) && a.Resume?
    ensures Progress(limit, Apply(limit, s, a))
  {
  }

  /** Setting the cancelled flag of a read source disturbs nothing. */
  lemma CancelKeepsInv(limit: nat, s: State, stream: Stream)
    requires Inv(limit, s)
    ensures Inv(limit, s.Cancel(stream))
  {
  }

  lemma CancelledKeepsForm(limit: nat, s: State, stopper: Stopper, left: nat)
    requires Token(s) && Structure(limit, s) && ExitAccounted(s)
    requires StopperPc(s, stopper) == Some(Cancelling(left))
    requires left == 0 || s.ReaderOf(Next(left)).cancelled
    ensures Token(AfterCancel(s, stopper, left)) && Structure(limit, AfterCancel(s, stopper, left))
  {
  }

  lemma CancelledKeepsAccounts(limit: nat, s: State, stopper: Stopper, left: nat)
    requires Structure(limit, s) && Accounts(limit, s)
    requires StopperPc(s, stopper) == Some(Cancelling(left))
    requires left == 0 || s.ReaderOf(Next(left)).cancelled
    ensures Accounts(limit, AfterCancel(s, stopper, left))
  {
  }

  lemma CancelledKeepsProgress(limit: nat, s: State, stopper: Stopper, left: nat)
    requires Inv(limit, s)
    requires StopperPc(s, stopper) == Some(Cancelling(left))
    requires left == 0 || s.ReaderOf(Next(left)).cancelled
    ensures Progress(limit, AfterCancel(s, stopper, left))
  {
  }

  lemma CatchCancelledKeepsInv(limit: nat, s: State)
    requires Inv(limit, s) && s.starter.CatchCancelling?
    requires s.starter.left == 0 || s.ReaderOf(Next(s.starter.left)).cancelled
    ensures Inv(limit, AfterCatchCancel(s))
  {
  }

  lemma CancelStepKeepsInv(limit: nat, s: State, a: Action)
    requires Inv(limit, s) && Enabled(s, a)
    requires StopAtCancel(s, a)
    ensures Inv(limit, Apply(limit, s, a))
  {
    var left := StopperPc(s, a.stopper).value.left;
    if left != 0 {
      CancelKeepsInv(limit, s, Next(left));
    }
    var t := CancelNext(s, left);
    CancelledKeepsForm(limit, t, a.stopper, left);
    CancelledKeepsAccounts(limit, t, a.stopper, left);
    CancelledKeepsProgress(limit, t, a.stopper, left);
  }

  lemma CatchCancelStepKeepsInv(limit: nat, s: State)
    requires Inv(limit, s) && s.starter.CatchCancelling?
    ensures Inv(limit, ApplyCatch(s))
  {
    var left := s.starter.left;
    if left != 0 {
      CancelKeepsInv(limit, s, Next(left));
    }
    var t := CancelNext(s, left);
    CatchCancelledKeepsInv(limit, t);
  }

  /** The invariant is inductive: any step of any thread keeps it. */
  lemma InvStep(limit: nat, s: State, a: Action)
    requires Inv(limit, s) && Enabled(s, a)
    ensures Inv(limit, Apply(limit, s, a))
  {
    if StarterStep(s, a) {
      StarterKeepsToken(limit, s, a);
      StarterKeepsStructure(limit, s, a);
      StarterKeepsAccounts(limit, s, a);
      StarterKeepsProgress(limit, s, a);
    } else if OutsideStep(a) {
      OutsideKeepsToken(limit, s, a);
      OutsideKeepsStructure(limit, s, a);
      OutsideKeepsAccounts(limit, s, a);
      OutsideKeepsProgress(limit, s, a);
    } else if ReadStep(a) {
      ReadKeepsToken(limit, s, a);
      ReadKeepsStructure(limit, s, a);
      ReadKeepsAccounts(limit, s, a);
      ReadKeepsProgress(limit, s, a);
    } else if a.Count? || a.EndStream? {
      CountKeepsToken(limit, s, a);
      CountKeepsStructure(limit, s, a);
      CountKeepsAccounts(limit, s, a);
      CountKeepsProgress(limit, s, a);
    } else if StopAtGuard(s, a) {
      StopGuardKeepsToken(limit, s, a);
      StopGuardKeepsStructure(limit, s, a);
      StopGuardKeepsAccounts(limit, s, a);
      StopGuardKeepsProgress(limit, s, a);
    } else if StopAtCapture(s, a) {
      StopCaptureKeepsToken(limit, s, a);
      StopCaptureKeepsStructure(limit, s, a);
      StopCaptureKeepsAccounts(limit, s, a);
      StopCaptureKeepsProgress(limit, s, a);
    } else if StopAtKill(s, a) {
      StopKillKeepsToken(limit, s, a);
      StopKillKeepsStructure(limit, s, a);
      StopKillKeepsAccounts(limit, s, a);
      StopKillKeepsProgress(limit, s, a);
    } else if a.Finish? {
      FinishKeepsToken(limit, s, a);
      FinishKeepsStructure(limit, s, a);
      FinishKeepsAccounts(limit, s, a);
      FinishKeepsProgress(limit, s, a);
    } else if a.Resume? {
      ResumeKeepsToken(limit, s, a);
      ResumeKeepsStructure(limit, s, a);
      ResumeKeepsAccounts(limit, s, a);
      ResumeKeepsProgress(limit, s, a);
    } else if a.CatchStep? {
      CatchCancelStepKeepsInv(limit, s);
    } else {
      CancelStepKeepsInv(limit, s, a);
    }
  }
}
