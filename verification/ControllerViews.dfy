/** What the user sees of the controller's runs: the snapshot on screen, and a removal from start to end. */
module ControllerViews {
  import opened Prelude
  import opened OperationLane
  import opened Removal
  import LoginStartup
  import opened Controller
  import opened ControllerSafety

  // ---------------------------------------------------------------------------------------------
  // The snapshot.
  // ---------------------------------------------------------------------------------------------

  /** An answer that is still current replaces the snapshot, a failed check clears it, a stale one does nothing. */
  lemma CheckPublishes(s: State, i: nat, answer: Option<Snapshot>)
    requires Enabled(s, CheckAnswered(i, answer))
    ensures var t, captured := Apply(s, CheckAnswered(i, answer)), s.operations[i].generation;
            if s.removal.PermitsActivity() && captured == s.generation
            then t.snapshot == answer && t.log == s.log + [Published(captured, answer)]
            else t.snapshot == s.snapshot && t.log == s.log
  {
  }

  /** The answer of the last publication. */
  function Latest(log: seq<Event>): Option<Snapshot> {
    if log == [] then None
    else if log[|log| - 1].Published? then log[|log| - 1].answer
    else Latest(log[..|log| - 1])
  }

  /** The backend is gone and the removal that removed it has ended. */
  predicate RemovalOver(s: State) {
    && s.removal.BackendRemoved()
    && !(s.busy.Some? && s.busy.value < |s.operations| && s.operations[s.busy.value].role == Uninstalling)
  }

  predicate SnapshotInv(s: State) {
    s.snapshot == if RemovalOver(s) then None else Latest(s.log)
  }

  lemma LatestNext(log: seq<Event>, event: Event)
    ensures Latest(log + [event]) == if event.Published? then event.answer else Latest(log)
  {
    assert (log + [event])[..|log|] == log;
  }

  /** Nothing is published and the removal is over as much as before. */
  lemma QuietKeepsSnapshot(s: State, t: State)
    requires SnapshotInv(s) && t.snapshot == s.snapshot && RemovalOver(t) == RemovalOver(s)
    requires Latest(t.log) == Latest(s.log)
    ensures SnapshotInv(t)
  {
  }

  lemma BeginningKeepsSnapshot(s: State, step: Step)
    requires Inv(s) && SnapshotInv(s) && IsBeginning(step)
    ensures SnapshotInv(Apply(s, step))
  {
    LatestNext(s.log, ReviewBegan(s.generation + 1));
    match step
    case BeginCheck(manual) => QuietKeepsSnapshot(s, CheckBegun(s, manual));
    case BeginAction => QuietKeepsSnapshot(s, ActionBegun(s));
    case BeginRemoval => QuietKeepsSnapshot(s, RemovalBegun(s));
    case BeginCleanup => QuietKeepsSnapshot(s, CleanupBegun(s));
  }

  lemma RemovalStepPublishesNothing(s: State, step: Step)
    requires Enabled(s, step) && IsRemovalStep(step)
    ensures Latest(Apply(s, step).log) == Latest(s.log) && Apply(s, step).snapshot == s.snapshot
  {
    var log, next := s.log, Apply(s, step).log;
    if next != log {
      LatestNext(log, next[|log|]);
      if step.LoginAnswered? {
        LatestNext(log + [next[|log|]], next[|log| + 1]);
      }
    }
  }

  lemma RemovalStepKeepsSnapshot(s: State, step: Step)
    requires Inv(s) && SnapshotInv(s) && Enabled(s, step) && IsRemovalStep(step)
    ensures SnapshotInv(Apply(s, step))
  {
    RemovalStepMoves(s, step);
    RemovalStepPublishesNothing(s, step);
    assert s.busy == Some(step.i);
    RemovalStepStaysOver(s, step);
    QuietKeepsSnapshot(s, Apply(s, step));
  }

  lemma RemovalStepStaysOver(s: State, step: Step)
    requires PhaseInv(s) && Enabled(s, step) && IsRemovalStep(step) && s.busy == Some(step.i)
    ensures RemovalOver(Apply(s, step)) == RemovalOver(s)
  {
    RemovalStepMoves(s, step);
    RemovalStepFits(s, step);
  }

  lemma LaneStepKeepsSnapshot(s: State, step: Step)
    requires Inv(s) && SnapshotInv(s) && Enabled(s, step)
    requires step.Enter? || step.ResumeAction? || step.ActionCalls? || step.FinishAction? || step.FinishRemoval?
    ensures SnapshotInv(Apply(s, step))
  {
    match step
    case Enter(i) => QuietKeepsSnapshot(s, Entered(s, i));
    case ActionCalls(i) =>
      LatestNext(s.log, ActionCalled);
      QuietKeepsSnapshot(s, Logged(s, ActionCalled));
    case FinishRemoval(i) => assert s.busy == Some(i);
    case ResumeAction(i) =>
      assert s.busy == Some(i);
      QuietKeepsSnapshot(s, ActionResumed(s, i));
    case FinishAction(i) =>
      assert s.busy == Some(i);
      QuietKeepsSnapshot(s, Left(s, i).(busy := None));
  }

  /** A step of a status check leaves the removal as it is. */
  lemma CheckMovesQuietly(s: State, i: nat, stage: Stage)
    requires i < |s.operations|
    ensures RemovalOver(Moved(s, i, stage)) == RemovalOver(s) && RemovalOver(Left(s, i)) == RemovalOver(s)
  {
  }

  lemma CheckStepKeepsSnapshot(s: State, step: Step)
    requires SnapshotInv(s) && Enabled(s, step)
    requires step.ResumeCheck? || step.CheckAnswered? || step.FinishCheck?
    ensures SnapshotInv(Apply(s, step))
  {
    match step
    case ResumeCheck(i) =>
      CheckMovesQuietly(s, i, Running);
      LatestNext(s.log, StatusCalled);
      QuietKeepsSnapshot(s, CheckResumed(s, i));
    case CheckAnswered(i, answer) =>
      CheckMovesQuietly(s, i, Finishing);
      LatestNext(s.log, Published(s.operations[i].generation, answer));
    case FinishCheck(i) =>
      CheckMovesQuietly(s, i, Done);
      QuietKeepsSnapshot(s, Left(s, i));
  }

  lemma StepKeepsSnapshot(s: State, step: Step)
    requires Inv(s) && SnapshotInv(s) && Enabled(s, step)
    ensures SnapshotInv(Apply(s, step))
  {
    if IsBeginning(step) {
      BeginningKeepsSnapshot(s, step);
    } else if IsRemovalStep(step) {
      RemovalStepKeepsSnapshot(s, step);
    } else if step.ResumeCheck? || step.CheckAnswered? || step.FinishCheck? {
      CheckStepKeepsSnapshot(s, step);
    } else {
      LaneStepKeepsSnapshot(s, step);
    }
  }

  /**
   In every run the snapshot on screen is the answer of the latest publication, until the removal that
   removed the backend ends; from then on there is none.
   */
  lemma {:induction false} SnapshotIsLatest(s: State, steps: seq<Step>)
    requires Inv(s) && SnapshotInv(s) && CanExecute(s, steps)
    ensures SnapshotInv(Execute(s, steps))
    decreases |steps|
  {
    if steps != [] {
      StepKeepsInv(s, steps[0]);
      StepKeepsSnapshot(s, steps[0]);
      SnapshotIsLatest(Apply(s, steps[0]), steps[1..]);
    }
  }

  lemma ScreenShowsLatest(steps: seq<Step>)
    requires CanExecute(INITIAL, steps)
    ensures SnapshotInv(Execute(INITIAL, steps))
  {
    InvInitial();
    SnapshotIsLatest(INITIAL, steps);
  }

  // ---------------------------------------------------------------------------------------------
  // Beginning.
  // ---------------------------------------------------------------------------------------------

  /**
   A poll is dropped unless it has the lane at once; a manual check is never dropped while activity is
   permitted, and waits for its turn.
   */
  lemma ChecksBegin(s: State, manual: bool)
    requires Inv(s)
    ensures var t, i := Apply(s, BeginCheck(manual)), |s.operations|;
            && (manual && s.removal.PermitsActivity() ==>
                  |t.operations| == i + 1 && LeaseOf(i, Checking) in Members(t.lane))
            && (!manual && |t.operations| > i ==> Holds(t, i) && s.busy.None?)
            && (!manual && s.removal.PermitsActivity() && s.busy.None? && s.lane == IDLE ==> Holds(t, i))
            && (!s.removal.PermitsActivity() ==> t == s)
  {
    AcquiredMembers(s.lane, LeaseOf(|s.operations|, Checking));
  }

  // ---------------------------------------------------------------------------------------------
  // A removal from start to end.
  // ---------------------------------------------------------------------------------------------

  /** A poll, then the removal that its answer allows, and every answer in its favour. */
  function WholeRemoval(x: Snapshot, token: Token, login: LoginStartup.Script): seq<Step> {
    Poll(x) + Review(x, token) + Purge(login)
  }

  function Poll(x: Snapshot): seq<Step> {
    [BeginCheck(false), ResumeCheck(0), CheckAnswered(0, Some(x)), FinishCheck(0)]
  }

  function Review(x: Snapshot, token: Token): seq<Step> {
    [BeginRemoval, Enter(1), ResumeRemoval(1, false), StatusAnswered(1, Some(x))] + Consent(token)
  }

  function Consent(token: Token): seq<Step> {
    [PreviewAnswered(1, Some(PreviewResult(true, "", Some(token)))), ConfirmationAnswered(1, true, false)]
  }

  function Purge(login: LoginStartup.Script): seq<Step> {
    [LoginAnswered(1, login, false), UninstallAnswered(1, Some(UninstallResult(true, "", true))),
     CleanupAnswered(1, true), FinishRemoval(1)]
  }

  lemma {:induction false} ExecuteAppend(s: State, a: seq<Step>, b: seq<Step>)
    requires CanExecute(s, a) && CanExecute(Execute(s, a), b)
    ensures CanExecute(s, a + b) && Execute(s, a + b) == Execute(Execute(s, a), b)
    decreases |a|
  {
    if a == [] {
      assert a + b == b;
    } else {
      assert (a + b)[0] == a[0] && (a + b)[1..] == a[1..] + b;
      ExecuteAppend(Apply(s, a[0]), a[1..], b);
    }
  }

  lemma ExecuteNext(s: State, step: Step, others: seq<Step>)
    requires Enabled(s, step)
    ensures CanExecute(s, [step] + others) <==> CanExecute(Apply(s, step), others)
    ensures CanExecute(Apply(s, step), others) ==>
              Execute(s, [step] + others) == Execute(Apply(s, step), others)
  {
    assert ([step] + others)[1..] == others;
  }

  /** While only the poll runs. */
  function Polling(stage: Stage, log: seq<Event>): State {
    State(Lane(Some(Lease(0, Kind.Status)), []), None, 0, Idle, None, [Operation(Checking, 0, stage)], log)
  }

  function Polled(x: Snapshot): State {
    State(IDLE, None, 0, Idle, Some(x), [Operation(Checking, 0, Done)], [StatusCalled, Published(0, Some(x))])
  }

  lemma PollBegins()
    ensures Apply(INITIAL, BeginCheck(false)) == Polling(Acquiring, [])
    ensures Apply(Polling(Acquiring, []), ResumeCheck(0)) == Polling(Running, [StatusCalled])
  {
  }

  lemma PollEnds(x: Snapshot)
    ensures var s := Polling(Running, [StatusCalled]);
            && Enabled(s, CheckAnswered(0, Some(x))) && Enabled(Apply(s, CheckAnswered(0, Some(x))), FinishCheck(0))
            && Apply(Apply(s, CheckAnswered(0, Some(x))), FinishCheck(0)) == Polled(x)
  {
  }

  lemma PollRuns(x: Snapshot)
    ensures CanExecute(INITIAL, Poll(x)) && Execute(INITIAL, Poll(x)) == Polled(x)
  {
    PollBegins();
    PollEnds(x);
    var s := Polling(Running, [StatusCalled]);
    ExecuteNext(Apply(s, CheckAnswered(0, Some(x))), FinishCheck(0), []);
    ExecuteNext(s, CheckAnswered(0, Some(x)), [FinishCheck(0)]);
    ExecuteNext(Polling(Acquiring, []), ResumeCheck(0), [CheckAnswered(0, Some(x)), FinishCheck(0)]);
    assert Enabled(INITIAL, BeginCheck(false));
  }

  /** While the removal runs, which follows the poll. */
  function During(x: Snapshot, stage: Stage, removal: RemovalState, log: seq<Event>): State {
    State(Lane(Some(Lease(1, Kind.Action)), []), Some(1), 1, removal, Some(x),
          [Operation(Checking, 0, Done), Operation(Uninstalling, 1, stage)], Polled(x).log + log)
  }

  function Asked(): seq<Event> {
    [ReviewBegan(1)] + [StatusCalled] + [PreviewCalled(1)]
  }

  lemma LogGrows(log: seq<Event>, more: seq<Event>, event: Event)
    ensures log + more + [event] == log + (more + [event])
  {
  }

  /** From the snapshot of the poll to the question to the user. */
  lemma ReviewAsks(x: Snapshot, token: Token)
    requires CanRemove(Some(x))
    ensures Apply(Apply(Polled(x), BeginRemoval), Enter(1)) == During(x, Acquiring, Reviewing, [ReviewBegan(1)])
    ensures Apply(During(x, Acquiring, Reviewing, [ReviewBegan(1)]), ResumeRemoval(1, false))
         == During(x, AwaitingStatus, Reviewing, [ReviewBegan(1)] + [StatusCalled])
    ensures Apply(During(x, AwaitingStatus, Reviewing, [ReviewBegan(1)] + [StatusCalled]), StatusAnswered(1, Some(x)))
         == During(x, AwaitingPreview, Reviewing, Asked())
  {
    LogGrows(Polled(x).log, [ReviewBegan(1)], StatusCalled);
    LogGrows(Polled(x).log, [ReviewBegan(1)] + [StatusCalled], PreviewCalled(1));
  }

  function Shown(token: Token): seq<Event> {
    Asked() + [Previewed(1, token)]
  }

  lemma ReviewConfirms(x: Snapshot, token: Token)
    ensures Apply(During(x, AwaitingPreview, Reviewing, Asked()),
                  PreviewAnswered(1, Some(PreviewResult(true, "", Some(token)))))
         == During(x, AwaitingConfirmation(token), Reviewing, Shown(token))
    ensures Apply(During(x, AwaitingConfirmation(token), Reviewing, Shown(token)), ConfirmationAnswered(1, true, false))
         == During(x, AwaitingLogin(token), Removing, Shown(token) + [Confirmed(1)])
  {
    LogGrows(Polled(x).log, Asked(), Previewed(1, token));
    LogGrows(Polled(x).log, Shown(token), Confirmed(1));
  }

  function Purged(token: Token): seq<Event> {
    Shown(token) + [Confirmed(1)] + [LoginCleared(1)] + [UninstallCalled(1, token)]
  }

  lemma LoginIsProven(x: Snapshot, token: Token, login: LoginStartup.Script)
    requires LoginStartup.Outcome(login, MAXIMUM_CHECKS).Absent?
    ensures Apply(During(x, AwaitingLogin(token), Removing, Shown(token) + [Confirmed(1)]),
                  LoginAnswered(1, login, false))
         == During(x, AwaitingUninstall, Removing, Purged(token))
  {
    var confirmed := Shown(token) + [Confirmed(1)];
    LogGrows(Polled(x).log, confirmed, LoginCleared(1));
    LogGrows(Polled(x).log, confirmed + [LoginCleared(1)], UninstallCalled(1, token));
  }

  lemma PurgeCompletes(x: Snapshot, token: Token)
    ensures Apply(During(x, AwaitingUninstall, Removing, Purged(token)),
                  UninstallAnswered(1, Some(UninstallResult(true, "", true))))
         == During(x, AwaitingCleanup, CleanupRequired, Purged(token) + [BackendGone(1)])
  {
    LogGrows(Polled(x).log, Purged(token), BackendGone(1));
  }

  /** Nothing is left on screen, in flight or in the lane. */
  function Ended(x: Snapshot, log: seq<Event>): State {
    State(IDLE, None, 1, Removed, None,
          [Operation(Checking, 0, Done), Operation(Uninstalling, 1, Done)], Polled(x).log + log)
  }

  lemma RemovalEnds(x: Snapshot, log: seq<Event>)
    ensures var s := During(x, AwaitingCleanup, CleanupRequired, log);
            && CanExecute(s, [CleanupAnswered(1, true), FinishRemoval(1)])
            && Execute(s, [CleanupAnswered(1, true), FinishRemoval(1)]) == Ended(x, log)
  {
    var s := During(x, AwaitingCleanup, CleanupRequired, log);
    var t := During(x, Finishing, Removed, log);
    assert Apply(s, CleanupAnswered(1, true)) == t;
    assert Apply(t, FinishRemoval(1)) == Ended(x, log);
    ExecuteNext(t, FinishRemoval(1), []);
    ExecuteNext(s, CleanupAnswered(1, true), [FinishRemoval(1)]);
  }

  lemma ConfirmationRuns(x: Snapshot, token: Token)
    ensures var s := During(x, AwaitingPreview, Reviewing, Asked());
            && CanExecute(s, Consent(token))
            && Execute(s, Consent(token)) == During(x, AwaitingLogin(token), Removing, Shown(token) + [Confirmed(1)])
  {
    var confirm := ConfirmationAnswered(1, true, false);
    ReviewConfirms(x, token);
    ExecuteNext(During(x, AwaitingConfirmation(token), Reviewing, Shown(token)), confirm, []);
    ExecuteNext(During(x, AwaitingPreview, Reviewing, Asked()),
                PreviewAnswered(1, Some(PreviewResult(true, "", Some(token)))), [confirm]);
  }

  lemma ReviewRuns(x: Snapshot, token: Token)
    requires CanRemove(Some(x))
    ensures CanExecute(Polled(x), Review(x, token))
    ensures Execute(Polled(x), Review(x, token))
         == During(x, AwaitingLogin(token), Removing, Shown(token) + [Confirmed(1)])
  {
    var consent := Consent(token);
    var status := StatusAnswered(1, Some(x));
    ReviewAsks(x, token);
    ConfirmationRuns(x, token);
    ExecuteNext(During(x, AwaitingStatus, Reviewing, [ReviewBegan(1)] + [StatusCalled]), status, consent);
    ExecuteNext(During(x, Acquiring, Reviewing, [ReviewBegan(1)]), ResumeRemoval(1, false), [status] + consent);
    var resumed := [ResumeRemoval(1, false)] + ([status] + consent);
    ExecuteNext(Apply(Polled(x), BeginRemoval), Enter(1), resumed);
    ExecuteNext(Polled(x), BeginRemoval, [Enter(1)] + resumed);
    assert Review(x, token) == [BeginRemoval] + ([Enter(1)] + resumed);
  }

  lemma PurgeRuns(x: Snapshot, token: Token, login: LoginStartup.Script)
    requires LoginStartup.Outcome(login, MAXIMUM_CHECKS).Absent?
    ensures var s := During(x, AwaitingLogin(token), Removing, Shown(token) + [Confirmed(1)]);
            && CanExecute(s, Purge(login))
            && Execute(s, Purge(login)) == Ended(x, Purged(token) + [BackendGone(1)])
  {
    var uninstall := UninstallAnswered(1, Some(UninstallResult(true, "", true)));
    var cleanup := [CleanupAnswered(1, true), FinishRemoval(1)];
    LoginIsProven(x, token, login);
    PurgeCompletes(x, token);
    RemovalEnds(x, Purged(token) + [BackendGone(1)]);
    ExecuteNext(During(x, AwaitingUninstall, Removing, Purged(token)), uninstall, cleanup);
    ExecuteNext(During(x, AwaitingLogin(token), Removing, Shown(token) + [Confirmed(1)]),
                LoginAnswered(1, login, false), [uninstall] + cleanup);
  }

  lemma WholeLog(x: Snapshot, token: Token)
    ensures Ended(x, Purged(token) + [BackendGone(1)]).log
         == [StatusCalled, Published(0, Some(x)), ReviewBegan(1), StatusCalled, PreviewCalled(1),
             Previewed(1, token), Confirmed(1), LoginCleared(1), UninstallCalled(1, token), BackendGone(1)]
  {
  }

  /**
   A removal succeeds: whenever a poll shows a removable installation and login startup ends up absent,
   the user's consent leads through these calls to the state `removed`, with nothing left on screen.
   */
  lemma RemovalSucceeds(x: Snapshot, token: Token, login: LoginStartup.Script)
    requires CanRemove(Some(x)) && LoginStartup.ProvenAbsent(login, MAXIMUM_CHECKS)
    ensures var steps := WholeRemoval(x, token, login);
            && CanExecute(INITIAL, steps)
            && var end := Execute(INITIAL, steps);
               && end.removal == Removed && end.snapshot == None && end.busy == None && end.lane == IDLE
               && end.log == [StatusCalled, Published(0, Some(x)), ReviewBegan(1), StatusCalled, PreviewCalled(1),
                              Previewed(1, token), Confirmed(1), LoginCleared(1), UninstallCalled(1, token),
                              BackendGone(1)]
  {
    LoginStartup.AbsentIsProven(login, MAXIMUM_CHECKS);
    PollRuns(x);
    ReviewRuns(x, token);
    PurgeRuns(x, token, login);
    WholeLog(x, token);
    ExecuteAppend(INITIAL, Poll(x), Review(x, token));
    ExecuteAppend(INITIAL, Poll(x) + Review(x, token), Purge(login));
  }
}
