/** Disabling login startup: one unregistration and a bounded wait for proof that nothing is registered. */
module LoginStartup {
  import opened Prelude

  datatype Status = NotRegistered | Enabled | RequiresApproval | NotFound | Unknown

  datatype Failure =
    | UnregisterFailed
    | InvalidSignature
    | PermissionDenied
    | ServiceUnavailable
    | StillRegistered
    | Unverified

  /** Codes of the ServiceManagement error domain. */
  datatype Code =
    | JobNotFound
    | BadSignature
    | AuthorizationFailure
    | LaunchDeniedByUser
    | ServiceDown
    | OtherCode

  datatype ServiceError = ServiceError(inDomain: bool, code: Code)

  datatype Unregistration = Unregistered | UnregisterCancelled | Raised(error: ServiceError)

  predicate IsAbsentError(error: ServiceError) {
    error.inDomain && error.code == JobNotFound
  }

  function Classify(error: ServiceError): Failure {
    if !error.inDomain then UnregisterFailed
    else
      match error.code
      case BadSignature => InvalidSignature
      case AuthorizationFailure => PermissionDenied
      case LaunchDeniedByUser => PermissionDenied
      case ServiceDown => ServiceUnavailable
      case _ => UnregisterFailed
  }

  /**
   What the system answers: the status at each read, the unregistration, and at which of its
   checkpoints the task finds itself cancelled. Round `k` of the wait has the checkpoints `3k + 1`
   (before the read), `3k + 2` (the pause) and `3k + 3` (after the pause).
   */
  datatype Script = Script(status: nat -> Status, unregistration: Unregistration, cancelled: nat -> bool)

  datatype Result = Absent | Cancelled | Failed(failure: Failure)

  predicate Gone(status: Status) {
    status == NotRegistered || status == NotFound
  }

  /** The job was gone by itself or after a completed unregistration. */
  predicate UnregistrationCompleted(unregistration: Unregistration) {
    unregistration.Unregistered? || (unregistration.Raised? && IsAbsentError(unregistration.error))
  }

  /** Round `k`, reached from round `first` without cancellation, reads that nothing is registered. */
  predicate GoneInRound(script: Script, first: nat, k: nat) {
    && (forall c :: 3 * first + 1 <= c <= 3 * k + 1 ==> !script.cancelled(c))
    && Gone(script.status(k + 1))
  }

  predicate GoneInSomeRound(script: Script, first: nat, maximumChecks: nat) {
    exists k :: first <= k < maximumChecks && GoneInRound(script, first, k)
  }

  /**
   Nothing was registered to begin with, or an unregistration completed and a later read, reached
   without cancellation, found nothing registered. A missing lookup alone proves nothing.
   */
  predicate ProvenAbsent(script: Script, maximumChecks: int) {
    && 1 <= maximumChecks <= 31 && !script.cancelled(0)
    && (|| script.status(0) == NotRegistered
        || (&& script.status(0) != Unknown && UnregistrationCompleted(script.unregistration)
            && GoneInSomeRound(script, 0, maximumChecks)))
  }

  function Settle(script: Script, index: nat, maximumChecks: nat): Result
    requires index <= maximumChecks
    decreases maximumChecks - index
  {
    if index == maximumChecks then
      Failed(if index == 0 || script.status(index) == Unknown then Unverified else StillRegistered)
    else if script.cancelled(3 * index + 1) then Cancelled
    else if Gone(script.status(index + 1)) then Absent
    else if index + 1 < maximumChecks && (script.cancelled(3 * index + 2) || script.cancelled(3 * index + 3)) then
      Cancelled
    else Settle(script, index + 1, maximumChecks)
  }

  function Outcome(script: Script, maximumChecks: int): Result {
    if !(1 <= maximumChecks <= 31) then Failed(Unverified)
    else if script.cancelled(0) then Cancelled
    else if script.status(0) == NotRegistered then Absent
    else if script.status(0) == Unknown then Failed(Unverified)
    else
      match script.unregistration
      case Unregistered => Settle(script, 0, maximumChecks)
      case UnregisterCancelled => Cancelled
      case Raised(error) =>
        if IsAbsentError(error) then Settle(script, 0, maximumChecks) else Failed(Classify(error))
  }

  /** `unregisterCompanionLoginStartup`; `queries` counts the status reads. */
  method UnregisterLoginStartup(script: Script, maximumChecks: int) returns (result: Result, queries: nat)
    ensures result == Outcome(script, maximumChecks)
    ensures result == Absent <==> ProvenAbsent(script, maximumChecks)
    ensures queries <= if 1 <= maximumChecks <= 31 then maximumChecks + 1 else 0
  {
    queries := 0;
    AbsentIsProven(script, maximumChecks);
    if !(1 <= maximumChecks <= 31) {
      return Failed(Unverified), queries;
    }
    if script.cancelled(0) {
      return Cancelled, queries;
    }
    var initial := script.status(queries);
    queries := queries + 1;
    if initial == NotRegistered {
      return Absent, queries;
    }
    if initial == Unknown {
      return Failed(Unverified), queries;
    }
    match script.unregistration {
      case Unregistered =>
      case UnregisterCancelled => return Cancelled, queries;
      case Raised(error) =>
        if !IsAbsentError(error) {
          return Failed(Classify(error)), queries;
        }
    }
    var last := Unknown;
    for index := 0 to maximumChecks
      invariant queries == index + 1
      invariant last == if index == 0 then Unknown else script.status(index)
      invariant Outcome(script, maximumChecks) == Settle(script, index, maximumChecks)
    {
      if script.cancelled(3 * index + 1) {
        return Cancelled, queries;
      }
      last := script.status(queries);
      queries := queries + 1;
      if Gone(last) {
        return Absent, queries;
      }
      if index + 1 < maximumChecks {
        if script.cancelled(3 * index + 2) || script.cancelled(3 * index + 3) {
          return Cancelled, queries;
        }
      }
    }
    result := Failed(if last == Unknown then Unverified else StillRegistered);
  }

  lemma {:induction false} SettleIsProof(script: Script, index: nat, maximumChecks: nat)
    requires index <= maximumChecks
    ensures Settle(script, index, maximumChecks) == Absent <==> GoneInSomeRound(script, index, maximumChecks)
    decreases maximumChecks - index
  {
    if index < maximumChecks {
      SettleIsProof(script, index + 1, maximumChecks);
      if Settle(script, index, maximumChecks) == Absent {
        if Gone(script.status(index + 1)) {
          assert GoneInRound(script, index, index);
        } else {
          var k :| index + 1 <= k < maximumChecks && GoneInRound(script, index + 1, k);
          assert GoneInRound(script, index, k);
        }
      }
      if GoneInSomeRound(script, index, maximumChecks) {
        var k :| index <= k < maximumChecks && GoneInRound(script, index, k);
        assert !script.cancelled(3 * index + 1);
        if k > index {
          assert !script.cancelled(3 * index + 2) && !script.cancelled(3 * index + 3);
          assert GoneInRound(script, index + 1, k);
        }
      }
    }
  }

  /** Success is exactly a proof of absence. */
  lemma AbsentIsProven(script: Script, maximumChecks: int)
    ensures Outcome(script, maximumChecks) == Absent <==> ProvenAbsent(script, maximumChecks)
  {
    if 1 <= maximumChecks <= 31 {
      SettleIsProof(script, 0, maximumChecks);
    }
  }

  /** The unregistration was tried. */
  predicate Tried(script: Script, maximumChecks: int) {
    && 1 <= maximumChecks <= 31 && !script.cancelled(0)
    && script.status(0) != NotRegistered && script.status(0) != Unknown
  }

  /** An error of the service that does not say that the job is absent. */
  predicate RaisedCode(script: Script, code: Code) {
    script.unregistration == Raised(ServiceError(true, code))
  }

  /** The wait ran through all its rounds, and this was the last status. */
  predicate WaitedInVain(script: Script, maximumChecks: int, last: Status) {
    && Tried(script, maximumChecks) && UnregistrationCompleted(script.unregistration)
    && script.status(maximumChecks) == last
    && (forall c :: 1 <= c <= 3 * maximumChecks - 2 ==> !script.cancelled(c))
    && forall k :: 1 <= k <= maximumChecks ==> !Gone(script.status(k))
  }

  lemma {:induction false} SettleFails(script: Script, index: nat, maximumChecks: nat, failure: Failure)
    requires index < maximumChecks
    ensures Settle(script, index, maximumChecks) == Failed(failure) <==>
              && failure == (if script.status(maximumChecks) == Unknown then Unverified else StillRegistered)
              && (forall c :: 3 * index + 1 <= c <= 3 * maximumChecks - 2 ==> !script.cancelled(c))
              && forall k :: index < k <= maximumChecks ==> !Gone(script.status(k))
    decreases maximumChecks - index
  {
    if index + 1 < maximumChecks {
      SettleFails(script, index + 1, maximumChecks, failure);
      if forall c :: 3 * index + 1 <= c <= 3 * maximumChecks - 2 ==> !script.cancelled(c) {
        assert !script.cancelled(3 * index + 1) && !script.cancelled(3 * index + 2);
        assert !script.cancelled(3 * index + 3);
      }
    }
  }

  /** What every failure says about the run. */
  lemma FailureMeans(script: Script, maximumChecks: int, failure: Failure)
    ensures Outcome(script, maximumChecks) == Failed(failure) <==>
              match failure
              case InvalidSignature => Tried(script, maximumChecks) && RaisedCode(script, BadSignature)
              case PermissionDenied =>
                && Tried(script, maximumChecks)
                && (RaisedCode(script, AuthorizationFailure) || RaisedCode(script, LaunchDeniedByUser))
              case ServiceUnavailable => Tried(script, maximumChecks) && RaisedCode(script, ServiceDown)
              case UnregisterFailed =>
                && Tried(script, maximumChecks) && script.unregistration.Raised?
                && (!script.unregistration.error.inDomain || RaisedCode(script, OtherCode))
              case StillRegistered =>
                exists last :: last != Unknown && WaitedInVain(script, maximumChecks, last)
              case Unverified =>
                || !(1 <= maximumChecks <= 31)
                || (!script.cancelled(0) && script.status(0) == Unknown)
                || WaitedInVain(script, maximumChecks, Unknown)
  {
    if 1 <= maximumChecks <= 31 {
      SettleFails(script, 0, maximumChecks, failure);
      assert WaitedInVain(script, maximumChecks, script.status(maximumChecks)) <==>
          && Tried(script, maximumChecks) && UnregistrationCompleted(script.unregistration)
          && (forall c :: 1 <= c <= 3 * maximumChecks - 2 ==> !script.cancelled(c))
          && forall k :: 1 <= k <= maximumChecks ==> !Gone(script.status(k));
    }
  }
}
