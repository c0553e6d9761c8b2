/** The coordinator of a complete removal: its states, and the order of its irreversible steps. */
module Removal {
  import opened Prelude
  import LoginStartup

  type Token = string

  datatype Code =
    | Unsupported
    | ProtocolInvalid
    | LoginUnregisterFailed
    | Login(failure: LoginStartup.Failure)
    | Backend(code: string)

  datatype RemovalState = Idle | Reviewing | Removing | CleanupRequired | Removed | Failed(code: Code) {
    predicate PermitsActivity() {
      Idle? || Failed?
    }

    predicate BackendRemoved() {
      CleanupRequired? || Removed?
    }
  }

  // ---------------------------------------------------------------------------------------------
  // Whether a snapshot allows removal.
  // ---------------------------------------------------------------------------------------------

  datatype Snapshot = Snapshot(
    installation: string, managedConfig: string, service: string, integration: string, recovery: string,
    desktop: string, usesBundledBackend: bool, supportsNativeUninstall: bool, actions: set<string>)

  datatype Availability =
    | Available
    | StatusUnavailable
    | NotInstalled
    | InstallationUnverified
    | BackendUnsupported
    | CodexRunning
    | CodexUnknown
    | RecoveryPending
    | RecoveryUnknown
    | ActionUnavailable

  function AvailabilityOf(snapshot: Option<Snapshot>): Availability {
    match snapshot
    case None => StatusUnavailable
    case Some(s) =>
      var settled := s.recovery == "idle" || s.recovery == "completed";
      if && s.installation == "not-installed" && s.managedConfig == "not-installed"
         && s.service == "not-installed" && s.integration == "none" && settled then NotInstalled
      else if s.installation != "installed" then InstallationUnverified
      else if s.usesBundledBackend || !s.supportsNativeUninstall then BackendUnsupported
      else if s.desktop != "stopped" && s.desktop != "closed" then
        if s.desktop == "running" then CodexRunning else CodexUnknown
      else if !settled then
        if s.recovery == "pending" then RecoveryPending else RecoveryUnknown
      else if "uninstall-preview" !in s.actions || "uninstall" !in s.actions then ActionUnavailable
      else Available
  }

  predicate CanRemove(snapshot: Option<Snapshot>) {
    AvailabilityOf(snapshot) == Available
  }

  /** Removal needs an idle native installation with Codex closed that offers both steps. */
  lemma RemovableSnapshots(s: Snapshot)
    ensures CanRemove(Some(s)) <==>
              && s.installation == "installed" && !s.usesBundledBackend && s.supportsNativeUninstall
              && s.desktop in {"stopped", "closed"} && s.recovery in {"idle", "completed"}
              && {"uninstall-preview", "uninstall"} <= s.actions
  {
    assert |"installed"| != |"not-installed"|;
  }

  // ---------------------------------------------------------------------------------------------
  // What each answer leads to: `Some` is the state in which the removal stops. An answer is `None` when
  // the call threw.
  // ---------------------------------------------------------------------------------------------

  datatype PreviewResult = PreviewResult(ok: bool, code: string, token: Option<Token>)

  datatype UninstallResult = UninstallResult(ok: bool, code: string, completed: bool)

  function AfterStatus(answer: Option<Snapshot>): Option<RemovalState> {
    if answer.None? then Some(Failed(ProtocolInvalid))
    else if CanRemove(answer) then None
    else Some(Failed(Unsupported))
  }

  function AfterPreview(answer: Option<PreviewResult>): Option<RemovalState> {
    match answer
    case None => Some(Failed(ProtocolInvalid))
    case Some(result) =>
      if !result.ok then Some(Failed(Backend(result.code)))
      else if result.token.None? then Some(Failed(ProtocolInvalid))
      else None
  }

  function AfterConfirmation(accepted: bool, cancelled: bool): Option<RemovalState> {
    if !accepted then Some(Idle) else if cancelled then Some(Failed(ProtocolInvalid)) else None
  }

  /** The removal waits for login startup with the default bound. */
  const MAXIMUM_CHECKS := 11

  function AfterLogin(result: LoginStartup.Result, cancelled: bool): Option<RemovalState> {
    match result
    case Failed(failure) => Some(Failed(Login(failure)))
    case Cancelled => Some(Failed(LoginUnregisterFailed))
    case Absent => if cancelled then Some(Failed(ProtocolInvalid)) else None
  }

  function AfterUninstall(answer: Option<UninstallResult>): RemovalState {
    match answer
    case None => Failed(ProtocolInvalid)
    case Some(result) =>
      if !result.ok then Failed(Backend(result.code))
      else if !result.completed then Failed(ProtocolInvalid)
      else CleanupRequired
  }

  function AfterCleanup(succeeded: bool): RemovalState {
    if succeeded then Removed else CleanupRequired
  }

  // ---------------------------------------------------------------------------------------------
  // The coordinator.
  // ---------------------------------------------------------------------------------------------

  /** What the client, the user, the system and the clean-up answer to one removal. */
  datatype Script = Script(
    status: Option<Snapshot>, preview: Option<PreviewResult>, accepted: bool, login: LoginStartup.Script,
    uninstall: Option<UninstallResult>, cleanup: bool,
    cancelledAtStart: bool, cancelledAfterConfirmation: bool, cancelledAfterLogin: bool)

  datatype Request = StatusCall | PreviewCall | UninstallCall(token: Token)

  /** Everything that has to be so before the installation may be purged. */
  predicate Authorised(script: Script, token: Token) {
    && !script.cancelledAtStart && CanRemove(script.status)
    && script.preview.Some? && script.preview.value.ok && script.preview.value.token == Some(token)
    && script.accepted && !script.cancelledAfterConfirmation
    && LoginStartup.ProvenAbsent(script.login, MAXIMUM_CHECKS) && !script.cancelledAfterLogin
  }

  predicate Completed(script: Script) {
    script.uninstall.Some? && script.uninstall.value.ok && script.uninstall.value.completed
  }

  /** The review was shown to the user. */
  predicate Shown(script: Script) {
    && !script.cancelledAtStart && CanRemove(script.status)
    && script.preview.Some? && script.preview.value.ok && script.preview.value.token.Some?
  }

  predicate Consented(script: Script) {
    Shown(script) && script.accepted && !script.cancelledAfterConfirmation
  }

  function LoginEnd(script: Script): LoginStartup.Result {
    LoginStartup.Outcome(script.login, MAXIMUM_CHECKS)
  }

  /** The backend answered the preview or the purge with this code. */
  predicate Refuses(script: Script, code: string) {
    || (&& !script.cancelledAtStart && CanRemove(script.status)
        && script.preview.Some? && !script.preview.value.ok && script.preview.value.code == code)
    || (&& Authorised(script, PreviewToken(script))
        && script.uninstall.Some? && !script.uninstall.value.ok && script.uninstall.value.code == code)
  }

  class CompanionRemovalCoordinator {
    var state: RemovalState
    var generation: nat

    constructor ()
      ensures state == Idle && generation == 0
    {
      state, generation := Idle, 0;
    }

    predicate PermitsActivity(captured: nat)
      reads this
    {
      state.PermitsActivity() && generation == captured
    }

    /** A review invalidates every generation that was captured before it. */
    method BeginReview() returns (began: bool)
      modifies this
      ensures began == old(state).PermitsActivity()
      ensures began ==> state == Reviewing && generation == old(generation) + 1
      ensures !began ==> state == old(state) && generation == old(generation)
      ensures began ==> forall captured: nat :: captured <= old(generation) ==> !PermitsActivity(captured)
    {
      if !state.PermitsActivity() {
        return false;
      }
      generation := generation + 1;
      state := Reviewing;
      return true;
    }

    /** `calls` are the requests to the client, in order. */
    method Remove(script: Script) returns (calls: seq<Request>)
      modifies this`state
      ensures old(state) != Reviewing ==> state == old(state) && calls == []
      ensures old(state) == Reviewing ==>
                && !state.Reviewing? && !state.Removing?
                && calls <= [StatusCall, PreviewCall, UninstallCall(PreviewToken(script))]
                && (|calls| == 3 <==> Authorised(script, PreviewToken(script)))
                && (state.BackendRemoved() <==> Authorised(script, PreviewToken(script)) && Completed(script))
                && (state == Removed <==> state.BackendRemoved() && script.cleanup)
                && (calls == [] <==> script.cancelledAtStart)
                && (|calls| == 1 <==> !script.cancelledAtStart && !CanRemove(script.status))
                && (state == Idle <==> Shown(script) && !script.accepted)
                && (state == Failed(Unsupported) <==> |calls| == 1 && script.status.Some?)
                && (forall code :: state == Failed(Backend(code)) <==> Refuses(script, code))
                && (state == Failed(LoginUnregisterFailed) <==> Consented(script) && LoginEnd(script).Cancelled?)
                && (forall failure :: state == Failed(Login(failure)) <==>
                      Consented(script) && LoginEnd(script) == LoginStartup.Failed(failure))
    {
      calls := [];
      if state != Reviewing {
        return;
      }
      if script.cancelledAtStart {
        state := Failed(ProtocolInvalid);
        return;
      }
      calls := [StatusCall];
      var stop := AfterStatus(script.status);
      if stop.Some? {
        state := stop.value;
        return;
      }
      calls := calls + [PreviewCall];
      stop := AfterPreview(script.preview);
      if stop.Some? {
        state := stop.value;
        return;
      }
      stop := AfterConfirmation(script.accepted, script.cancelledAfterConfirmation);
      if stop.Some? {
        state := stop.value;
        return;
      }
      state := Removing;
      var result, _ := LoginStartup.UnregisterLoginStartup(script.login, MAXIMUM_CHECKS);
      stop := AfterLogin(result, script.cancelledAfterLogin);
      if stop.Some? {
        state := stop.value;
        return;
      }
      calls := calls + [UninstallCall(script.preview.value.token.value)];
      state := AfterUninstall(script.uninstall);
      if state == CleanupRequired {
        FinishCleanup(script.cleanup);
      }
    }

    method RetryCleanup(succeeds: bool)
      modifies this`state
      ensures state == if old(state) == CleanupRequired then AfterCleanup(succeeds) else old(state)
      ensures old(state).BackendRemoved() ==> state.BackendRemoved()
    {
      if state == CleanupRequired {
        FinishCleanup(succeeds);
      }
    }

    method FinishCleanup(succeeds: bool)
      modifies this`state
      ensures state == AfterCleanup(succeeds)
    {
      state := CleanupRequired;
      state := AfterCleanup(succeeds);
    }
  }

  function PreviewToken(script: Script): Token {
    if script.preview.Some? && script.preview.value.token.Some? then script.preview.value.token.value else ""
  }
}
