/**
 One run of a child process: two pipe readers, a termination handler, a timeout, a kill timer and
 the starting thread share the fields below under one lock, and one continuation must be resumed.

 A step of the machine is one lock region, one system call, or one operation on a dispatch object.
 Every thread carries its own program counter, so any interleaving is a sequence of `Action`s.
 */
module ProcessSessions {
  import opened Prelude

  datatype Failure = OutputLimit | Timeout | ProcessFailed

  datatype Stream = Output | Errors

  datatype Outcome = Returned(stdout: Bytes, exitCode: int) | Thrown(failure: Failure)

  // ---------------------------------------------------------------------------------------------
  // The lock-protected fields and what each lock region does to them.
  // ---------------------------------------------------------------------------------------------

  /** `waiting` says that `continuation` is not nil. A work item's cancelled flag stays with it. */
  datatype Shared = Shared(
    stdout: Bytes,
    totalBytes: nat,
    streamEnds: nat,
    exitCode: Option<int>,
    failure: Option<Failure>,
    waiting: bool,
    readers: seq<Stream>,
    timeoutWork: bool,
    timeoutCancelled: bool,
    killWork: bool,
    killCancelled: bool)

  const FRESH := Shared([], 0, 0, None, None, true, [Output, Errors], false, false, false, false)

  function CountRegion(s: Shared, limit: nat, stream: Stream, bytes: Bytes): Shared {
    var total := s.totalBytes + |bytes|;
    s.(totalBytes := total,
       stdout := if total <= limit && stream == Output then s.stdout + bytes else s.stdout)
  }

  predicate StopProceeds(s: Shared) {
    s.waiting && s.failure.None?
  }

  function StopRegion(s: Shared, reason: Failure): Shared {
    if StopProceeds(s) then s.(failure := Some(reason)) else s
  }

  function TerminationRegion(s: Shared, status: int): Shared {
    s.(exitCode := Some(status), killCancelled := s.killCancelled || s.killWork, killWork := false)
  }

  function CatchRegion(s: Shared): Shared {
    s.(failure := Some(ProcessFailed), exitCode := Some(-1))
  }

  predicate FinishProceeds(s: Shared) {
    s.waiting && s.streamEnds == 2 && (s.exitCode.Some? || s.failure.Some?)
  }

  function FinishRegion(s: Shared): Shared {
    if FinishProceeds(s) then
      s.(waiting := false, readers := [],
         timeoutCancelled := s.timeoutCancelled || s.timeoutWork, timeoutWork := false,
         killCancelled := s.killCancelled || (s.exitCode.Some? && s.killWork),
         killWork := s.killWork && s.exitCode.None?)
    else s
  }

  function Captured(s: Shared): Outcome {
    match s.failure
    case Some(failure) => Thrown(failure)
    case None => Returned(s.stdout, if s.exitCode.Some? then s.exitCode.value else -1)
  }

  /** The session object: each method is one lock region of the source. */
  class ProcessSession {
    const limit: nat
    var stdout: Bytes
    var totalBytes: nat
    var streamEnds: nat
    var exitCode: Option<int>
    var failure: Option<Failure>
    var continuation: bool
    var readers: seq<Stream>
    var timeoutWork: bool
    var timeoutCancelled: bool
    var killWork: bool
    var killCancelled: bool

    ghost function Fields(): Shared
      reads this
    {
      Shared(stdout, totalBytes, streamEnds, exitCode, failure, continuation, readers,
             timeoutWork, timeoutCancelled, killWork, killCancelled)
    }

    /** Both readers are appended and resumed before the child is launched. */
    constructor (limit: nat)
      ensures this.limit == limit && Fields() == FRESH
    {
      this.limit := limit;
      stdout, totalBytes, streamEnds := [], 0, 0;
      exitCode, failure, continuation := None, None, true;
      readers := [Output, Errors];
      timeoutWork, timeoutCancelled, killWork, killCancelled := false, false, false, false;
    }

    method CountBytes(stream: Stream, bytes: Bytes) returns (overflow: bool)
      modifies this
      ensures Fields() == CountRegion(old(Fields()), limit, stream, bytes)
      ensures overflow <==> limit < totalBytes
    {
      totalBytes := totalBytes + |bytes|;
      overflow := totalBytes > limit;
      if !overflow && stream == Output {
        stdout := stdout + bytes;
      }
    }

    method StreamEnded()
      modifies this
      ensures Fields() == old(Fields()).(streamEnds := old(streamEnds) + 1)
    {
      streamEnds := streamEnds + 1;
    }

    method TerminationHandler(status: int)
      modifies this
      ensures Fields() == TerminationRegion(old(Fields()), status)
    {
      exitCode := Some(status);
      if killWork {
        killCancelled := true;
      }
      killWork := false;
    }

    method BeginStop(reason: Failure) returns (proceed: bool)
      modifies this
      ensures proceed <==> StopProceeds(old(Fields()))
      ensures Fields() == StopRegion(old(Fields()), reason)
    {
      if !continuation || failure.Some? {
        return false;
      }
      failure := Some(reason);
      proceed := true;
    }

    method ArmTimeout() returns (alreadyFinished: bool)
      modifies this
      ensures alreadyFinished <==> !old(continuation)
      ensures Fields() == old(Fields()).(timeoutWork := old(timeoutWork) || !alreadyFinished)
    {
      alreadyFinished := !continuation;
      if !alreadyFinished {
        timeoutWork := true;
      }
    }

    method CatchFailure()
      modifies this
      ensures Fields() == CatchRegion(old(Fields()))
    {
      failure := Some(ProcessFailed);
      exitCode := Some(-1);
    }

    method SetKillWork(work: bool)
      modifies this
      ensures Fields() == old(Fields()).(killWork := work)
    {
      killWork := work;
    }

    /** `None` when the guard fails; otherwise what the taken continuation is resumed with. */
    method FinishIfReady() returns (captured: Option<Outcome>)
      modifies this
      ensures captured == if FinishProceeds(old(Fields())) then Some(Captured(old(Fields()))) else None
      ensures Fields() == FinishRegion(old(Fields()))
    {
      if !continuation || streamEnds != 2 || (exitCode.None? && failure.None?) {
        return None;
      }
      continuation := false;
      if timeoutWork {
        timeoutCancelled := true;
      }
      timeoutWork := false;
      if exitCode.Some? {
        if killWork {
          killCancelled := true;
        }
        killWork := false;
      }
      readers := [];
      if failure.Some? {
        captured := Some(Thrown(failure.value));
      } else {
        captured := Some(Returned(stdout, if exitCode.Some? then exitCode.value else -1));
      }
    }
  }

  // ---------------------------------------------------------------------------------------------
  // Program counters and the interleaved machine.
  // ---------------------------------------------------------------------------------------------

  /**
   Where an execution of `stop` stands. The captured reader list is empty or holds both readers in
   the order they were created, so the number of readers `left` tells which one is cancelled next.
   */
  datatype StopPc =
    | Enter(reason: Failure)
    | Capture
    | Cancelling(left: nat)
    | CheckRunning
    | StoreKill
    | ScheduleKill

  datatype Handler = Idle | Polling | Holding(bytes: Bytes) | Stopping(pc: StopPc)

  /** Where one caller of `finishIfReady` stands; each of the four callers calls it once. */
  datatype FinishPc = NotCalled | Called | Resuming(outcome: Outcome) | Ended

  /** A read source: its event handler, and its cancel handler with the call that follows it. */
  datatype Reader = Reader(cancelled: bool, handler: Handler, ending: FinishPc)

  datatype Starter =
    | Launching
    | Feeding
    | Arming
    | Scheduling(armed: bool)
    | Started
    | Catching
    | CatchCapture
    | CatchCancelling(left: nat)
    | CatchFinish(pc: FinishPc)

  datatype Child = NotLaunched | Running(killed: bool) | Exited(status: int)

  datatype Timer = TimerOff | TimerScheduled | TimerStopping(pc: StopPc) | TimerDone

  datatype KillTimer = KillOff | KillScheduled | KillClearing | KillDone

  /**
   Three histories: `taken` is what the continuation was captured to be resumed with, `delivered`
   logs the resumptions, and `outRead` is everything the output reader read.
   */
  datatype State = State(
    shared: Shared,
    out: Reader,
    err: Reader,
    starter: Starter,
    child: Child,
    handlerSet: bool,
    termination: FinishPc,
    timer: Timer,
    kill: KillTimer,
    taken: Option<Outcome>,
    delivered: seq<Outcome>,
    outRead: Bytes)
  {
    function ReaderOf(stream: Stream): Reader {
      if stream == Output then out else err
    }

    function WithReader(stream: Stream, reader: Reader): State {
      this.(out := if stream == Output then reader else out, err := if stream == Output then err else reader)
    }

    function WithHandler(stream: Stream, handler: Handler): State {
      WithReader(stream, ReaderOf(stream).(handler := handler))
    }

    function Cancel(stream: Stream): State {
      WithReader(stream, ReaderOf(stream).(cancelled := true))
    }
  }

  datatype Caller = FromStarter | FromTermination | FromReader(stream: Stream)

  datatype Stopper = ByReader(stream: Stream) | ByTimer

  datatype Action =
    | Launch(ok: bool)
    | Feed(ok: bool)
    | Arm
    | Schedule
    | CatchStep
    | ReadEvent(stream: Stream)
    | ReadBytes(stream: Stream, bytes: Bytes)
    | ReadDry(stream: Stream)
    | ReadEnd(stream: Stream)
    | Count(stream: Stream)
    | EndStream(stream: Stream)
    | StopStep(stopper: Stopper)
    | TimerFire
    | KillFire
    | KillClear
    | ChildExit(status: int)
    | Terminated
    | Finish(caller: Caller)
    | Resume(caller: Caller)
    | Stutter

  const IDLE_READER := Reader(false, Idle, NotCalled)

  const INITIAL := State(FRESH, IDLE_READER, IDLE_READER, Launching, NotLaunched, true, NotCalled,
                         TimerOff, KillOff, None, [], [])

  function CallerPc(s: State, caller: Caller): FinishPc {
    match caller
    case FromStarter => if s.starter.CatchFinish? then s.starter.pc else NotCalled
    case FromTermination => s.termination
    case FromReader(stream) => s.ReaderOf(stream).ending
  }

  function WithCallerPc(s: State, caller: Caller, pc: FinishPc): State {
    s.(starter := if caller.FromStarter? then CatchFinish(pc) else s.starter,
       termination := if caller.FromTermination? then pc else s.termination,
       out := if caller == FromReader(Output) then s.out.(ending := pc) else s.out,
       err := if caller == FromReader(Errors) then s.err.(ending := pc) else s.err)
  }

  function StopperPc(s: State, stopper: Stopper): Option<StopPc> {
    match stopper
    case ByReader(stream) =>
      if s.ReaderOf(stream).handler.Stopping? then Some(s.ReaderOf(stream).handler.pc) else None
    case ByTimer => if s.timer.TimerStopping? then Some(s.timer.pc) else None
  }

  function WithStopperPc(s: State, stopper: Stopper, pc: Option<StopPc>): State {
    var handler := if pc.Some? then Stopping(pc.value) else Idle;
    s.(out := if stopper == ByReader(Output) then s.out.(handler := handler) else s.out,
       err := if stopper == ByReader(Errors) then s.err.(handler := handler) else s.err,
       timer := if stopper.ByReader? then s.timer else if pc.Some? then TimerStopping(pc.value) else TimerDone)
  }

  /** The starting thread is on the path of its `catch`. */
  predicate Caught(s: State) {
    s.starter.Catching? || s.starter.CatchCapture? || s.starter.CatchCancelling? || s.starter.CatchFinish?
  }

  predicate Enabled(s: State, a: Action) {
    match a
    case Launch(_) => s.starter.Launching?
    case Feed(_) => s.starter.Feeding?
    case Arm => s.starter.Arming?
    case Schedule => s.starter.Scheduling?
    case CatchStep => s.starter.Catching? || s.starter.CatchCapture? || s.starter.CatchCancelling?
    // Both pipes are silent until the child runs or its launch has failed.
    case ReadEvent(stream) =>
      var r := s.ReaderOf(stream);
      !r.cancelled && r.handler.Idle? && (!s.child.NotLaunched? || Caught(s))
    case ReadBytes(stream, bytes) => s.ReaderOf(stream).handler.Polling? && 0 < |bytes| <= 8192
    case ReadDry(stream) => s.ReaderOf(stream).handler.Polling?
    case ReadEnd(stream) => s.ReaderOf(stream).handler.Polling?
    case Count(stream) => s.ReaderOf(stream).handler.Holding?
    // A cancel handler runs once, after any running event handler of its source.
    case EndStream(stream) =>
      var r := s.ReaderOf(stream);
      r.cancelled && r.handler.Idle? && r.ending.NotCalled?
    case StopStep(stopper) => StopperPc(s, stopper).Some?
    case TimerFire => s.timer.TimerScheduled? && !s.shared.timeoutCancelled
    case KillFire => s.kill.KillScheduled? && !s.shared.killCancelled
    case KillClear => s.kill.KillClearing?
    case ChildExit(_) => s.child.Running?
    case Terminated => s.child.Exited? && s.handlerSet && s.termination.NotCalled?
    case Finish(caller) => CallerPc(s, caller).Called?
    case Resume(caller) => CallerPc(s, caller).Resuming?
    case Stutter => true
  }

  function Next(left: nat): Stream {
    if left == 1 then Errors else Output
  }

  function CancelNext(s: State, left: nat): State {
    if left == 0 then s else s.Cancel(Next(left))
  }

  function AfterCancel(s: State, stopper: Stopper, left: nat): State {
    WithStopperPc(s, stopper, Some(if left == 0 then CheckRunning else Cancelling(left - 1)))
  }

  function AfterCatchCancel(s: State): State
    requires s.starter.CatchCancelling?
  {
    var left := s.starter.left;
    s.(starter := if left == 0 then CatchFinish(Called) else CatchCancelling(left - 1))
  }

  function ApplyStop(s: State, stopper: Stopper): State
    requires StopperPc(s, stopper).Some?
  {
    match StopperPc(s, stopper).value
    case Enter(reason) =>
      WithStopperPc(s, stopper, if StopProceeds(s.shared) then Some(Capture) else None)
        .(shared := StopRegion(s.shared, reason))
    case Capture => WithStopperPc(s, stopper, Some(Cancelling(|s.shared.readers|)))
    case Cancelling(left) => AfterCancel(CancelNext(s, left), stopper, left)
    // SIGTERM leaves the child running until it chooses to exit.
    case CheckRunning => WithStopperPc(s, stopper, if s.child.Running? then Some(StoreKill) else None)
    case StoreKill => WithStopperPc(s, stopper, Some(ScheduleKill)).(shared := s.shared.(killWork := true))
    case ScheduleKill => WithStopperPc(s, stopper, None).(kill := KillScheduled)
  }

  function ApplyCatch(s: State): State
    requires Enabled(s, CatchStep)
  {
    match s.starter
    case Catching => s.(shared := CatchRegion(s.shared), starter := CatchCapture)
    case CatchCapture => s.(starter := CatchCancelling(|s.shared.readers|))
    case CatchCancelling(left) => AfterCatchCancel(CancelNext(s, left))
  }

  function Apply(limit: nat, s: State, a: Action): State
    requires Enabled(s, a)
  {
    match a
    case Launch(ok) =>
      if ok then s.(child := Running(false), starter := Feeding) else s.(starter := Catching)
    case Feed(ok) => s.(starter := if ok then Arming else Catching)
    case Arm =>
      s.(starter := Scheduling(s.shared.waiting),
         shared := s.shared.(timeoutWork := s.shared.timeoutWork || s.shared.waiting))
    case Schedule => s.(starter := Started, timer := if s.starter.armed then TimerScheduled else s.timer)
    case CatchStep => ApplyCatch(s)
    case ReadEvent(stream) => s.WithHandler(stream, Polling)
    case ReadBytes(stream, bytes) =>
      s.WithHandler(stream, Holding(bytes))
        .(outRead := if stream == Output then s.outRead + bytes else s.outRead)
    case ReadDry(stream) => s.WithHandler(stream, Idle)
    case ReadEnd(stream) => s.WithHandler(stream, Idle).Cancel(stream)
    case Count(stream) =>
      var shared := CountRegion(s.shared, limit, stream, s.ReaderOf(stream).handler.bytes);
      s.WithHandler(stream, if limit < shared.totalBytes then Stopping(Enter(OutputLimit)) else Polling)
        .(shared := shared)
    case EndStream(stream) =>
      s.WithReader(stream, s.ReaderOf(stream).(ending := Called))
        .(shared := s.shared.(streamEnds := s.shared.streamEnds + 1))
    case StopStep(stopper) => ApplyStop(s, stopper)
    case TimerFire => s.(timer := TimerStopping(Enter(Timeout)))
    case KillFire => s.(kill := KillClearing, child := if s.child.Running? then Running(true) else s.child)
    case KillClear => s.(kill := KillDone, shared := s.shared.(killWork := false))
    case ChildExit(status) => s.(child := Exited(status))
    case Terminated =>
      s.(shared := TerminationRegion(s.shared, s.child.status), handlerSet := false, termination := Called)
    case Finish(caller) =>
      WithCallerPc(s, caller, if FinishProceeds(s.shared) then Resuming(Captured(s.shared)) else Ended)
        .(shared := FinishRegion(s.shared),
          taken := if FinishProceeds(s.shared) then Some(Captured(s.shared)) else s.taken)
    case Resume(caller) =>
      var outcome := CallerPc(s, caller).outcome;
      WithCallerPc(s, caller, Ended)
        .(delivered := s.delivered + [outcome], handlerSet := s.handlerSet && outcome.Thrown?)
    case Stutter => s
  }
}
