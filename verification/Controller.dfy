/**
 The companion controller as steps on the main actor: every `await` splits an operation, and between two
 steps of one operation any other step may happen. The client, the user and the system answer anything.
 */
module Controller {
  import opened Prelude
  import opened OperationLane
  import opened Removal
  import LoginStartup

  /** An in-flight call of the controller: a status check, an action, a removal, or a clean-up retry. */
  datatype Role = Checking | Acting | Uninstalling | Cleaning

  datatype Stage =
    | Created
    | Acquiring
    | Running
    | AwaitingStatus
    | AwaitingPreview
    | AwaitingConfirmation(token: Token)
    | AwaitingLogin(token: Token)
    | AwaitingUninstall
    | AwaitingCleanup
    | Finishing
    | Done

  /** `generation` is what the operation captured when it began. */
  datatype Operation = Operation(role: Role, generation: nat, stage: Stage)

  /** What an observer of the client, the user and the screen sees. */
  datatype Event =
    | StatusCalled
    | ActionCalled
    | PreviewCalled(review: nat)
    | UninstallCalled(review: nat, token: Token)
    | Published(captured: nat, answer: Option<Snapshot>)
    | ReviewBegan(review: nat)
    | Previewed(review: nat, token: Token)
    | Confirmed(review: nat)
    | LoginCleared(review: nat)
    | BackendGone(review: nat)

  datatype State = State(
    lane: Lane,
    busy: Option<nat>,
    generation: nat,
    removal: RemovalState,
    snapshot: Option<Snapshot>,
    operations: seq<Operation>,
    log: seq<Event>)

  const INITIAL := State(IDLE, None, 0, Idle, None, [], [])

  /** One step; the operations are numbered in the order in which they begin. */
  datatype Step =
    | BeginCheck(manual: bool)
    | BeginAction
    | BeginRemoval
    | BeginCleanup
    | Enter(i: nat)
    | ResumeCheck(i: nat)
    | CheckAnswered(i: nat, answer: Option<Snapshot>)
    | FinishCheck(i: nat)
    | ResumeAction(i: nat)
    | ActionCalls(i: nat)
    | FinishAction(i: nat)
    | ResumeRemoval(i: nat, cancelled: bool)
    | StatusAnswered(i: nat, status: Option<Snapshot>)
    | PreviewAnswered(i: nat, preview: Option<PreviewResult>)
    | ConfirmationAnswered(i: nat, accepted: bool, cancelled: bool)
    | LoginAnswered(i: nat, login: LoginStartup.Script, cancelled: bool)
    | UninstallAnswered(i: nat, uninstall: Option<UninstallResult>)
    | ResumeCleanup(i: nat)
    | CleanupAnswered(i: nat, succeeded: bool)
    | FinishRemoval(i: nat)

  // ---------------------------------------------------------------------------------------------
  // Pieces of a step.
  // ---------------------------------------------------------------------------------------------

  function LeaseOf(i: nat, role: Role): Lease {
    Lease(i, if role == Checking then Kind.Status else Kind.Action)
  }

  predicate PermitsActivity(s: State, captured: nat) {
    s.removal.PermitsActivity() && s.generation == captured
  }

  function Begun(s: State, role: Role): State {
    s.(operations := s.operations + [Operation(role, s.generation, Created)])
  }

  predicate At(s: State, i: nat, role: Role, stage: Stage) {
    i < |s.operations| && s.operations[i].role == role && s.operations[i].stage == stage
  }

  predicate Holds(s: State, i: nat) {
    i < |s.operations| && s.lane.active == Some(LeaseOf(i, s.operations[i].role))
  }

  function Moved(s: State, i: nat, stage: Stage): State
    requires i < |s.operations|
  {
    s.(operations := s.operations[i := s.operations[i].(stage := stage)])
  }

  /** Asking for the lane. */
  function Entered(s: State, i: nat): State
    requires i < |s.operations|
  {
    Moved(s, i, Acquiring).(lane := Acquired(s.lane, LeaseOf(i, s.operations[i].role)))
  }

  /** Releasing the lane, which is the last thing an operation does. */
  function Left(s: State, i: nat): State
    requires i < |s.operations|
  {
    Moved(s, i, Done).(lane := Released(s.lane, LeaseOf(i, s.operations[i].role)))
  }

  function Logged(s: State, event: Event): State {
    s.(log := s.log + [event])
  }

  /** The removal stops in a state that is not `cleanupRequired`. */
  function Stopped(s: State, i: nat, removal: RemovalState): State
    requires i < |s.operations|
  {
    Moved(s, i, Finishing).(removal := removal)
  }

  // ---------------------------------------------------------------------------------------------
  // When a step can happen, and what it does.
  // ---------------------------------------------------------------------------------------------

  predicate Enabled(s: State, step: Step) {
    match step
    case BeginCheck(_) => true
    case BeginAction => true
    case BeginRemoval => true
    case BeginCleanup => true
    case Enter(i) => i < |s.operations| && s.operations[i].stage == Created
    case ResumeCheck(i) => At(s, i, Checking, Acquiring) && Holds(s, i)
    case CheckAnswered(i, _) => At(s, i, Checking, Running)
    case FinishCheck(i) => At(s, i, Checking, Finishing)
    case ResumeAction(i) => At(s, i, Acting, Acquiring) && Holds(s, i)
    case ActionCalls(i) => At(s, i, Acting, Running)
    case FinishAction(i) => At(s, i, Acting, Running)
    case ResumeRemoval(i, _) => At(s, i, Uninstalling, Acquiring) && Holds(s, i)
    case StatusAnswered(i, _) => At(s, i, Uninstalling, AwaitingStatus)
    case PreviewAnswered(i, _) => At(s, i, Uninstalling, AwaitingPreview)
    case ConfirmationAnswered(i, _, _) =>
      i < |s.operations| && s.operations[i].role == Uninstalling && s.operations[i].stage.AwaitingConfirmation?
    case LoginAnswered(i, _, _) =>
      i < |s.operations| && s.operations[i].role == Uninstalling && s.operations[i].stage.AwaitingLogin?
    case UninstallAnswered(i, _) => At(s, i, Uninstalling, AwaitingUninstall)
    case ResumeCleanup(i) => At(s, i, Cleaning, Acquiring) && Holds(s, i)
    case CleanupAnswered(i, _) => At(s, i, Uninstalling, AwaitingCleanup) || At(s, i, Cleaning, AwaitingCleanup)
    case FinishRemoval(i) => At(s, i, Uninstalling, Finishing) || At(s, i, Cleaning, Finishing)
  }

  /** `refreshStatus` up to the lane; it returns at once when a guard fails. */
  function CheckBegun(s: State, manual: bool): State {
    if !s.removal.PermitsActivity() then s
    else if !manual && (s.busy.Some? || s.lane.active.Some?) then s
    else Entered(Begun(s, Checking), |s.operations|)
  }

  /**
   Any action that the user, a timer or a status check starts. The guards that depend on the action only
   make fewer of them begin.
   */
  function ActionBegun(s: State): State {
    if s.removal.PermitsActivity() && s.busy.None?
    then Begun(s, Acting).(busy := Some(|s.operations|)) else s
  }

  function RemovalBegun(s: State): State {
    if s.busy.Some? || !s.removal.PermitsActivity() || !CanRemove(s.snapshot) then s
    else ReviewStarted(s)
  }

  function ReviewStarted(s: State): State {
    var reviewing := s.(generation := s.generation + 1, removal := Reviewing);
    Logged(Begun(reviewing, Uninstalling).(busy := Some(|s.operations|)), ReviewBegan(reviewing.generation))
  }

  function CleanupBegun(s: State): State {
    if s.busy.None? && s.removal == CleanupRequired
    then Begun(s, Cleaning).(busy := Some(|s.operations|)) else s
  }

  function CheckResumed(s: State, i: nat): State
    requires i < |s.operations|
  {
    if PermitsActivity(s, s.operations[i].generation) then Logged(Moved(s, i, Running), StatusCalled) else Left(s, i)
  }

  /** The observation is published only if the generation is still the captured one. */
  function CheckDone(s: State, i: nat, answer: Option<Snapshot>): State
    requires i < |s.operations|
  {
    var captured := s.operations[i].generation;
    if PermitsActivity(s, captured)
    then Logged(Moved(s, i, Finishing).(snapshot := answer), Published(captured, answer)) else Left(s, i)
  }

  function ActionResumed(s: State, i: nat): State
    requires i < |s.operations|
  {
    if PermitsActivity(s, s.operations[i].generation) then Moved(s, i, Running) else Left(s, i)
  }

  function RemovalResumed(s: State, i: nat, cancelled: bool): State
    requires i < |s.operations|
  {
    if s.removal != Reviewing then Moved(s, i, Finishing)
    else if cancelled then Stopped(s, i, Failed(ProtocolInvalid))
    else Logged(Moved(s, i, AwaitingStatus), StatusCalled)
  }

  function StatusDone(s: State, i: nat, status: Option<Snapshot>): State
    requires i < |s.operations|
  {
    match AfterStatus(status)
    case Some(removal) => Stopped(s, i, removal)
    case None => Logged(Moved(s, i, AwaitingPreview), PreviewCalled(s.operations[i].generation))
  }

  function PreviewDone(s: State, i: nat, preview: Option<PreviewResult>): State
    requires i < |s.operations|
  {
    match AfterPreview(preview)
    case Some(removal) => Stopped(s, i, removal)
    case None =>
      var token := preview.value.token.value;
      Logged(Moved(s, i, AwaitingConfirmation(token)), Previewed(s.operations[i].generation, token))
  }

  function ConfirmationDone(s: State, i: nat, token: Token, accepted: bool, cancelled: bool): State
    requires i < |s.operations|
  {
    match AfterConfirmation(accepted, cancelled)
    case Some(removal) => Stopped(s, i, removal)
    case None =>
      Logged(Moved(s, i, AwaitingLogin(token)).(removal := Removing), Confirmed(s.operations[i].generation))
  }

  function LoginDone(s: State, i: nat, token: Token, login: LoginStartup.Script, cancelled: bool): State
    requires i < |s.operations|
  {
    match AfterLogin(LoginStartup.Outcome(login, MAXIMUM_CHECKS), cancelled)
    case Some(removal) => Stopped(s, i, removal)
    case None => LoginPassed(s, i, token)
  }

  /** Proof that login startup is off is followed at once by the purge, with the token of the preview. */
  function LoginPassed(s: State, i: nat, token: Token): State
    requires i < |s.operations|
  {
    var review := s.operations[i].generation;
    Logged(Logged(Moved(s, i, AwaitingUninstall), LoginCleared(review)), UninstallCalled(review, token))
  }

  function UninstallDone(s: State, i: nat, answer: Option<UninstallResult>): State
    requires i < |s.operations|
  {
    var removal := AfterUninstall(answer);
    if removal.CleanupRequired?
    then Logged(Moved(s, i, AwaitingCleanup).(removal := removal), BackendGone(s.operations[i].generation))
    else Stopped(s, i, removal)
  }

  function CleanupResumed(s: State, i: nat): State
    requires i < |s.operations|
  {
    Moved(s, i, if s.removal == CleanupRequired then AwaitingCleanup else Finishing)
  }

  function RemovalFinished(s: State, i: nat): State
    requires i < |s.operations|
  {
    var dropped := s.operations[i].role == Uninstalling && s.removal.BackendRemoved();
    Left(s, i).(busy := None, snapshot := if dropped then None else s.snapshot)
  }

  function Apply(s: State, step: Step): State
    requires Enabled(s, step)
  {
    match step
    case BeginCheck(manual) => CheckBegun(s, manual)
    case BeginAction => ActionBegun(s)
    case BeginRemoval => RemovalBegun(s)
    case BeginCleanup => CleanupBegun(s)
    case Enter(i) => Entered(s, i)
    case ResumeCheck(i) => CheckResumed(s, i)
    case CheckAnswered(i, answer) => CheckDone(s, i, answer)
    case FinishCheck(i) => Left(s, i)
    case ResumeAction(i) => ActionResumed(s, i)
    case ActionCalls(i) => Logged(s, ActionCalled)
    case FinishAction(i) => Left(s, i).(busy := None)
    case ResumeRemoval(i, cancelled) => RemovalResumed(s, i, cancelled)
    case StatusAnswered(i, status) => StatusDone(s, i, status)
    case PreviewAnswered(i, preview) => PreviewDone(s, i, preview)
    case ConfirmationAnswered(i, accepted, cancelled) =>
      ConfirmationDone(s, i, s.operations[i].stage.token, accepted, cancelled)
    case LoginAnswered(i, login, cancelled) => LoginDone(s, i, s.operations[i].stage.token, login, cancelled)
    case UninstallAnswered(i, uninstall) => UninstallDone(s, i, uninstall)
    case ResumeCleanup(i) => CleanupResumed(s, i)
    case CleanupAnswered(i, succeeded) => Stopped(s, i, AfterCleanup(succeeded))
    case FinishRemoval(i) => RemovalFinished(s, i)
  }

  predicate CanExecute(s: State, steps: seq<Step>)
    decreases |steps|
  {
    steps == [] || (Enabled(s, steps[0]) && CanExecute(Apply(s, steps[0]), steps[1..]))
  }

  function Execute(s: State, steps: seq<Step>): State
    requires CanExecute(s, steps)
    decreases |steps|
  {
    if steps == [] then s else Execute(Apply(s, steps[0]), steps[1..])
  }
}
