/** What every step of the controller keeps. */
module ControllerSafety {
  import opened Prelude
  import opened OperationLane
  import opened Removal
  import LoginStartup
  import opened Controller

  // ---------------------------------------------------------------------------------------------
  // The lane: who is in it is decided by the stages.
  // ---------------------------------------------------------------------------------------------

  /** Queued or holding. */
  predicate InLane(stage: Stage) {
    stage != Created && stage != Done
  }

  /** Past the lane, so holding it. */
  predicate Inside(stage: Stage) {
    InLane(stage) && stage != Acquiring
  }

  function Members(lane: Lane): seq<Lease> {
    (if lane.active.Some? then [lane.active.value] else []) + lane.waiting
  }

  predicate DistinctIds(leases: seq<Lease>) {
    forall j, k :: 0 <= j < k < |leases| ==> leases[j].id != leases[k].id
  }

  predicate Entitled(lease: Lease, operations: seq<Operation>) {
    && lease.id < |operations| && lease == LeaseOf(lease.id, operations[lease.id].role)
    && InLane(operations[lease.id].stage)
  }

  predicate LaneInv(lane: Lane, operations: seq<Operation>) {
    && (lane.active.None? ==> lane.waiting == [])
    && DistinctIds(Members(lane))
    && (forall k :: 0 <= k < |Members(lane)| ==> Entitled(Members(lane)[k], operations))
    && (forall i :: 0 <= i < |operations| && InLane(operations[i].stage) ==>
          LeaseOf(i, operations[i].role) in Members(lane))
    && (forall i :: 0 <= i < |operations| && Inside(operations[i].stage) ==>
          lane.active == Some(LeaseOf(i, operations[i].role)))
  }

  lemma BeginKeepsLane(lane: Lane, operations: seq<Operation>, operation: Operation)
    requires LaneInv(lane, operations) && operation.stage == Created
    ensures LaneInv(lane, operations + [operation])
  {
  }

  lemma AcquiredMembers(lane: Lane, lease: Lease)
    requires lane.active.None? ==> lane.waiting == []
    ensures Members(Acquired(lane, lease)) == Members(lane) + [lease]
  {
  }

  lemma ReleasedMembers(lane: Lane, lease: Lease)
    requires lane.active == Some(lease)
    ensures Members(Released(lane, lease)) == Members(lane)[1..] == lane.waiting
  {
    if lane.waiting != [] {
      assert lane.waiting == [lane.waiting[0]] + lane.waiting[1..];
    }
  }

  lemma EnterKeepsLane(lane: Lane, operations: seq<Operation>, i: nat)
    requires LaneInv(lane, operations) && i < |operations| && operations[i].stage == Created
    ensures LaneInv(Acquired(lane, LeaseOf(i, operations[i].role)), operations[i := operations[i].(stage := Acquiring)])
  {
    AcquiredMembers(lane, LeaseOf(i, operations[i].role));
    NewcomerIsNew(lane, operations, i);
  }

  lemma NewcomerIsNew(lane: Lane, operations: seq<Operation>, i: nat)
    requires LaneInv(lane, operations) && i < |operations| && operations[i].stage == Created
    ensures forall lease :: lease in Members(lane) ==>
              lease.id != i && Entitled(lease, operations[i := operations[i].(stage := Acquiring)])
    ensures DistinctIds(Members(lane) + [LeaseOf(i, operations[i].role)])
  {
    assert forall k :: 0 <= k < |Members(lane)| ==> Members(lane)[k].id != i;
  }

  lemma OthersStay(lane: Lane, operations: seq<Operation>, i: nat)
    requires LaneInv(lane, operations) && i < |operations|
    requires lane.active == Some(LeaseOf(i, operations[i].role))
    ensures Members(lane) == [lane.active.value] + lane.waiting
    ensures forall lease :: lease in lane.waiting ==> lease.id != i && Entitled(lease, operations)
    ensures forall j :: 0 <= j < |operations| && j != i && InLane(operations[j].stage) ==>
              LeaseOf(j, operations[j].role) in lane.waiting
    ensures forall j :: 0 <= j < |operations| && j != i ==> !Inside(operations[j].stage)
  {
    var members := Members(lane);
    forall k | 0 <= k < |lane.waiting| ensures lane.waiting[k].id != i && Entitled(lane.waiting[k], operations) {
      assert members[k + 1] == lane.waiting[k] && members[0].id == i;
    }
  }

  lemma LeaveKeepsLane(lane: Lane, operations: seq<Operation>, i: nat)
    requires LaneInv(lane, operations) && i < |operations|
    requires lane.active == Some(LeaseOf(i, operations[i].role))
    ensures LaneInv(Released(lane, LeaseOf(i, operations[i].role)), operations[i := operations[i].(stage := Done)])
  {
    ReleasedMembers(lane, LeaseOf(i, operations[i].role));
    OthersStay(lane, operations, i);
    DistinctTail(Members(lane));
  }

  lemma DistinctTail(leases: seq<Lease>)
    requires DistinctIds(leases) && leases != []
    ensures DistinctIds(leases[1..])
  {
  }

  lemma MoveKeepsLane(lane: Lane, operations: seq<Operation>, i: nat, stage: Stage)
    requires LaneInv(lane, operations) && i < |operations| && InLane(stage)
    requires lane.active == Some(LeaseOf(i, operations[i].role))
    ensures LaneInv(lane, operations[i := operations[i].(stage := stage)])
  {
    assert Members(lane)[0] == LeaseOf(i, operations[i].role);
    assert InLane(operations[i].stage);
  }

  predicate IsBeginning(step: Step) {
    step.BeginCheck? || step.BeginAction? || step.BeginRemoval? || step.BeginCleanup?
  }

  lemma BeginningKeepsLane(s: State, step: Step)
    requires LaneInv(s.lane, s.operations) && IsBeginning(step)
    ensures LaneInv(Apply(s, step).lane, Apply(s, step).operations)
  {
    var operation := Operation(Checking, s.generation, Created);
    BeginKeepsLane(s.lane, s.operations, operation);
    EnterKeepsLane(s.lane, s.operations + [operation], |s.operations|);
    BeginKeepsLane(s.lane, s.operations, Operation(Acting, s.generation, Created));
    BeginKeepsLane(s.lane, s.operations, Operation(Uninstalling, s.generation + 1, Created));
    BeginKeepsLane(s.lane, s.operations, Operation(Cleaning, s.generation, Created));
  }

  predicate IsRemovalStep(step: Step) {
    || step.ResumeRemoval? || step.StatusAnswered? || step.PreviewAnswered? || step.ConfirmationAnswered?
    || step.LoginAnswered? || step.UninstallAnswered? || step.ResumeCleanup? || step.CleanupAnswered?
  }

  /** A step of a removal or a clean-up moves its operation within the lane. */
  lemma RemovalStepMoves(s: State, step: Step)
    requires Enabled(s, step) && IsRemovalStep(step)
    ensures step.i < |s.operations| && (Inside(s.operations[step.i].stage) || Holds(s, step.i))
    ensures var t := Apply(s, step);
            && t.lane == s.lane && t.busy == s.busy && t.generation == s.generation
            && |t.operations| == |s.operations| && InLane(t.operations[step.i].stage)
            && t.operations == s.operations[step.i := s.operations[step.i].(stage := t.operations[step.i].stage)]
  {
  }

  /** Every step of an operation past the lane happens while it holds the lane. */
  lemma StepKeepsLane(s: State, step: Step)
    requires LaneInv(s.lane, s.operations) && Enabled(s, step)
    ensures LaneInv(Apply(s, step).lane, Apply(s, step).operations)
  {
    if IsBeginning(step) {
      BeginningKeepsLane(s, step);
    } else if IsRemovalStep(step) {
      RemovalStepMoves(s, step);
      MoveKeepsLane(s.lane, s.operations, step.i, Apply(s, step).operations[step.i].stage);
    } else if step.Enter? {
      EnterKeepsLane(s.lane, s.operations, step.i);
    } else {
      MoveOrLeave(s, step.i, Running);
      MoveOrLeave(s, step.i, Finishing);
    }
  }

  lemma MoveOrLeave(s: State, i: nat, stage: Stage)
    requires LaneInv(s.lane, s.operations) && i < |s.operations| && InLane(stage)
    requires Inside(s.operations[i].stage) || Holds(s, i)
    ensures LaneInv(s.lane, Moved(s, i, stage).operations)
    ensures LaneInv(Left(s, i).lane, Left(s, i).operations)
  {
    MoveKeepsLane(s.lane, s.operations, i, stage);
    LeaveKeepsLane(s.lane, s.operations, i);
  }

  /** Two operations are never past the lane at the same time. */
  lemma OneOperationInside(s: State, i: nat, j: nat)
    requires LaneInv(s.lane, s.operations) && i < |s.operations| && j < |s.operations|
    requires Inside(s.operations[i].stage) && Inside(s.operations[j].stage)
    ensures i == j
  {
    assert s.lane.active == Some(LeaseOf(i, s.operations[i].role));
  }

  // ---------------------------------------------------------------------------------------------
  // Busy: the one operation in flight that is not a status check.
  // ---------------------------------------------------------------------------------------------

  predicate InFlight(operation: Operation) {
    operation.role != Checking && operation.stage != Done
  }

  predicate BusyInv(busy: Option<nat>, operations: seq<Operation>) {
    && (forall i: nat :: i < |operations| && InFlight(operations[i]) ==> busy == Some(i))
    && (busy.Some? ==> busy.value < |operations| && InFlight(operations[busy.value]))
  }

  // ---------------------------------------------------------------------------------------------
  // Phase: the state of the removal follows the stage of the operation in flight.
  // ---------------------------------------------------------------------------------------------

  predicate BeforeConfirmation(stage: Stage) {
    || stage == Created || stage == Acquiring || stage == AwaitingStatus || stage == AwaitingPreview
    || stage.AwaitingConfirmation?
  }

  predicate RemovalFits(stage: Stage, removal: RemovalState) {
    if BeforeConfirmation(stage) then removal == Reviewing
    else if stage.AwaitingLogin? || stage == AwaitingUninstall then removal == Removing
    else if stage == AwaitingCleanup then removal == CleanupRequired
    else stage == Finishing && removal != Reviewing && removal != Removing
  }

  predicate CleanupFits(stage: Stage, removal: RemovalState) {
    if stage == Finishing then removal.BackendRemoved()
    else removal == CleanupRequired && (stage == Created || stage == Acquiring || stage == AwaitingCleanup)
  }

  predicate ActionFits(stage: Stage, removal: RemovalState) {
    removal.PermitsActivity() && (stage == Created || stage == Acquiring || stage == Running)
  }

  predicate Fits(operation: Operation, removal: RemovalState, generation: nat) {
    match operation.role
    case Checking => false
    case Acting => ActionFits(operation.stage, removal) && operation.generation == generation
    case Uninstalling => RemovalFits(operation.stage, removal) && operation.generation == generation
    case Cleaning => CleanupFits(operation.stage, removal)
  }

  predicate PhaseInv(s: State) {
    && (forall i :: 0 <= i < |s.operations| ==> s.operations[i].generation <= s.generation)
    && (s.busy.None? ==> s.removal != Reviewing && s.removal != Removing)
    && (s.busy.Some? ==>
          s.busy.value < |s.operations| && Fits(s.operations[s.busy.value], s.removal, s.generation))
  }

  /** An operation in flight moves on, with a state of the removal that fits its new stage. */
  lemma MoveKeepsPhase(s: State, i: nat, stage: Stage, removal: RemovalState)
    requires BusyInv(s.busy, s.operations) && PhaseInv(s) && i < |s.operations|
    requires InFlight(s.operations[i]) && stage != Done
    requires Fits(s.operations[i].(stage := stage), removal, s.generation)
    ensures var t := Moved(s, i, stage).(removal := removal);
            BusyInv(t.busy, t.operations) && PhaseInv(t)
  {
    assert s.busy == Some(i);
  }

  lemma LeaveKeepsPhase(s: State, i: nat)
    requires BusyInv(s.busy, s.operations) && PhaseInv(s) && i < |s.operations|
    requires InFlight(s.operations[i]) && s.removal != Reviewing && s.removal != Removing
    ensures var t := Left(s, i).(busy := None); BusyInv(t.busy, t.operations) && PhaseInv(t)
  {
    assert s.busy == Some(i);
  }

  lemma CheckKeepsPhase(s: State, i: nat, stage: Stage)
    requires BusyInv(s.busy, s.operations) && PhaseInv(s) && i < |s.operations|
    requires s.operations[i].role == Checking
    ensures var t := Moved(s, i, stage); BusyInv(t.busy, t.operations) && PhaseInv(t)
  {
  }

  lemma BeginKeepsPhase(s: State, role: Role, removal: RemovalState, generation: nat)
    requires BusyInv(s.busy, s.operations) && PhaseInv(s) && s.busy.None? && role != Checking
    requires s.generation <= generation && Fits(Operation(role, generation, Created), removal, generation)
    ensures var t := Begun(s.(removal := removal, generation := generation), role).(busy := Some(|s.operations|));
            BusyInv(t.busy, t.operations) && PhaseInv(t)
  {
  }

  lemma CheckBegunKeepsPhase(s: State, manual: bool)
    requires BusyInv(s.busy, s.operations) && PhaseInv(s)
    ensures var t := CheckBegun(s, manual); BusyInv(t.busy, t.operations) && PhaseInv(t)
  {
  }

  lemma BeginningKeepsPhase(s: State, step: Step)
    requires BusyInv(s.busy, s.operations) && PhaseInv(s) && IsBeginning(step)
    ensures var t := Apply(s, step); BusyInv(t.busy, t.operations) && PhaseInv(t)
  {
    match step
    case BeginCheck(manual) => CheckBegunKeepsPhase(s, manual);
    case BeginAction =>
      if s.removal.PermitsActivity() && s.busy.None? {
        BeginKeepsPhase(s, Acting, s.removal, s.generation);
      }
    case BeginRemoval =>
      if s.busy.None? {
        BeginKeepsPhase(s, Uninstalling, Reviewing, s.generation + 1);
      }
    case BeginCleanup =>
      if s.busy.None? && s.removal == CleanupRequired {
        BeginKeepsPhase(s, Cleaning, s.removal, s.generation);
      }
  }

  lemma EnterKeepsPhase(s: State, i: nat)
    requires BusyInv(s.busy, s.operations) && PhaseInv(s) && Enabled(s, Enter(i))
    ensures var t := Entered(s, i); BusyInv(t.busy, t.operations) && PhaseInv(t)
  {
    if s.operations[i].role == Checking {
      CheckKeepsPhase(s, i, Acquiring);
    } else {
      MoveKeepsPhase(s, i, Acquiring, s.removal);
    }
  }

  /** A removal step leaves the removal in a state that fits its new stage. */
  lemma RemovalStepFits(s: State, step: Step)
    requires Enabled(s, step) && IsRemovalStep(step)
    requires Fits(s.operations[step.i], s.removal, s.generation)
    ensures step.i < |Apply(s, step).operations|
    ensures Fits(Apply(s, step).operations[step.i], Apply(s, step).removal, s.generation)
  {
  }

  lemma RemovalStepKeepsPhase(s: State, step: Step)
    requires BusyInv(s.busy, s.operations) && PhaseInv(s) && Enabled(s, step) && IsRemovalStep(step)
    ensures var t := Apply(s, step); BusyInv(t.busy, t.operations) && PhaseInv(t)
  {
    var t := Apply(s, step);
    RemovalStepMoves(s, step);
    assert s.busy == Some(step.i);
    RemovalStepFits(s, step);
    MoveKeepsPhase(s, step.i, t.operations[step.i].stage, t.removal);
  }

  lemma LaneStepKeepsPhase(s: State, step: Step)
    requires BusyInv(s.busy, s.operations) && PhaseInv(s) && Enabled(s, step)
    requires step.ResumeAction? || step.FinishAction? || step.FinishRemoval?
    ensures var t := Apply(s, step); BusyInv(t.busy, t.operations) && PhaseInv(t)
  {
    assert s.busy == Some(step.i);
    if step.ResumeAction? {
      MoveKeepsPhase(s, step.i, Running, s.removal);
    } else {
      LeaveKeepsPhase(s, step.i);
    }
  }

  lemma CheckStepKeepsPhase(s: State, step: Step)
    requires BusyInv(s.busy, s.operations) && PhaseInv(s) && Enabled(s, step)
    requires step.ResumeCheck? || step.CheckAnswered? || step.FinishCheck?
    ensures var t := Apply(s, step); BusyInv(t.busy, t.operations) && PhaseInv(t)
  {
    CheckKeepsPhase(s, step.i, Running);
    CheckKeepsPhase(s, step.i, Finishing);
    CheckKeepsPhase(s, step.i, Done);
  }

  lemma StepKeepsPhase(s: State, step: Step)
    requires BusyInv(s.busy, s.operations) && PhaseInv(s) && Enabled(s, step)
    ensures var t := Apply(s, step); BusyInv(t.busy, t.operations) && PhaseInv(t)
  {
    if IsBeginning(step) {
      BeginningKeepsPhase(s, step);
    } else if IsRemovalStep(step) {
      RemovalStepKeepsPhase(s, step);
    } else if step.Enter? {
      EnterKeepsPhase(s, step.i);
    } else if step.ResumeCheck? || step.CheckAnswered? || step.FinishCheck? {
      CheckStepKeepsPhase(s, step);
    } else if !step.ActionCalls? {
      LaneStepKeepsPhase(s, step);
    }
  }

  // ---------------------------------------------------------------------------------------------
  // The log.
  // ---------------------------------------------------------------------------------------------

  /** A call of the client or a publication. */
  predicate IsWork(event: Event) {
    || event.StatusCalled? || event.ActionCalled? || event.PreviewCalled? || event.UninstallCalled?
    || event.Published? || event.ReviewBegan?
  }

  /** The events occur in the log, in this order. */
  predicate InOrder(events: seq<Event>, log: seq<Event>) {
    || events == []
    || (&& log != []
        && (|| InOrder(events, log[..|log| - 1])
            || (&& events[|events| - 1] == log[|log| - 1]
                && InOrder(events[..|events| - 1], log[..|log| - 1]))))
  }

  /** Review, preview with this token, consent, and proof that login startup is off. */
  function Prerequisites(review: nat, token: Token): seq<Event> {
    [ReviewBegan(review), Previewed(review, token), Confirmed(review), LoginCleared(review)]
  }

  predicate NotYetUninstalled(log: seq<Event>, review: nat) {
    forall i :: 0 <= i < |log| && log[i].UninstallCalled? ==> log[i].review != review
  }

  predicate WasUninstalled(log: seq<Event>, review: nat) {
    !NotYetUninstalled(log, review)
  }

  predicate HasGone(log: seq<Event>) {
    exists i :: 0 <= i < |log| && log[i].BackendGone?
  }

  predicate ReviewsUpTo(log: seq<Event>, generation: nat) {
    forall i :: 0 <= i < |log| && log[i].ReviewBegan? ==> log[i].review <= generation
  }

  /** What must hold of the log for an event to be added. */
  predicate MayHappen(log: seq<Event>, event: Event) {
    && (IsWork(event) ==> !HasGone(log))
    && (event.Published? ==> ReviewsUpTo(log, event.captured))
    && (event.UninstallCalled? ==>
          InOrder(Prerequisites(event.review, event.token), log) && NotYetUninstalled(log, event.review))
    && (event.BackendGone? ==> WasUninstalled(log, event.review))
  }

  /** Every event was added when it might happen. */
  predicate LogSafe(log: seq<Event>) {
    log == [] || (LogSafe(log[..|log| - 1]) && MayHappen(log[..|log| - 1], log[|log| - 1]))
  }

  lemma EventKeepsLog(log: seq<Event>, event: Event)
    requires LogSafe(log) && MayHappen(log, event)
    ensures LogSafe(log + [event])
  {
    assert (log + [event])[..|log|] == log;
  }

  lemma {:induction false} SafeAt(log: seq<Event>, j: nat)
    requires LogSafe(log) && j < |log|
    ensures MayHappen(log[..j], log[j])
  {
    var n := |log| - 1;
    if j < n {
      SafeAt(log[..n], j);
      assert log[..n][..j] == log[..j];
    }
  }

  // What the operation in flight has recorded so far.

  predicate InReview(stage: Stage) {
    BeforeConfirmation(stage) || stage.AwaitingLogin?
  }

  function RecordedBy(review: nat, stage: Stage): seq<Event> {
    match stage
    case AwaitingConfirmation(token) => [ReviewBegan(review), Previewed(review, token)]
    case AwaitingLogin(token) => [ReviewBegan(review), Previewed(review, token), Confirmed(review)]
    case _ => if BeforeConfirmation(stage) then [ReviewBegan(review)] else []
  }

  predicate Evidence(log: seq<Event>, review: nat, stage: Stage) {
    && InOrder(RecordedBy(review, stage), log)
    && (InReview(stage) ==> NotYetUninstalled(log, review))
    && (stage == AwaitingUninstall ==> WasUninstalled(log, review))
  }

  predicate UninstallsUpTo(log: seq<Event>, generation: nat) {
    forall i :: 0 <= i < |log| && log[i].UninstallCalled? ==> log[i].review <= generation
  }

  predicate Bounded(log: seq<Event>, generation: nat) {
    ReviewsUpTo(log, generation) && UninstallsUpTo(log, generation)
  }

  /** The removal in flight has recorded what its stage requires. */
  predicate Recorded(log: seq<Event>, busy: Option<nat>, operations: seq<Operation>) {
    busy.Some? && busy.value < |operations| && operations[busy.value].role == Uninstalling ==>
      Evidence(log, operations[busy.value].generation, operations[busy.value].stage)
  }

  predicate LogInv(s: State) {
    && LogSafe(s.log) && Bounded(s.log, s.generation)
    && (s.removal.BackendRemoved() <==> HasGone(s.log))
    && Recorded(s.log, s.busy, s.operations)
  }

  lemma OrderGrows(events: seq<Event>, log: seq<Event>, event: Event)
    requires InOrder(events, log)
    ensures InOrder(events, log + [event])
    ensures InOrder(events + [event], log + [event])
  {
    assert (log + [event])[..|log|] == log;
    assert (events + [event])[..|events|] == events;
  }

  lemma UninstallsGrow(log: seq<Event>, event: Event, review: nat)
    ensures NotYetUninstalled(log + [event], review) <==>
              NotYetUninstalled(log, review) && (event.UninstallCalled? ==> event.review != review)
  {
    var next := log + [event];
    assert forall i :: 0 <= i < |log| ==> next[i] == log[i];
    assert next[|log|] == event;
  }

  lemma BoundsGrow(log: seq<Event>, event: Event, generation: nat)
    requires Bounded(log, generation)
    requires event.ReviewBegan? ==> event.review <= generation
    requires event.UninstallCalled? ==> event.review <= generation
    ensures Bounded(log + [event], generation)
  {
  }

  lemma GoneStays(log: seq<Event>, event: Event)
    ensures HasGone(log + [event]) <==> HasGone(log) || event.BackendGone?
  {
    var next := log + [event];
    if HasGone(log) {
      var i :| 0 <= i < |log| && log[i].BackendGone?;
      assert next[i].BackendGone?;
    }
    assert next[|log|] == event;
  }

  /** An event keeps the evidence of every review that it does not uninstall. */
  lemma EvidenceGrows(log: seq<Event>, review: nat, stage: Stage, event: Event)
    requires Evidence(log, review, stage) && (event.UninstallCalled? ==> event.review != review)
    ensures Evidence(log + [event], review, stage)
  {
    OrderGrows(RecordedBy(review, stage), log, event);
    UninstallsGrow(log, event, review);
  }

  /** An event that says nothing about an uninstallation or its end. */
  predicate IsPlain(event: Event) {
    event.StatusCalled? || event.ActionCalled? || event.PreviewCalled? || event.Published?
  }

  /** Work is only logged while activity is permitted or a removal is under way. */
  lemma PlainEventKeepsLog(s: State, event: Event)
    requires LogInv(s) && IsPlain(event) && !s.removal.BackendRemoved()
    requires event.Published? ==> event.captured == s.generation
    ensures LogInv(Logged(s, event))
  {
    EventKeepsLog(s.log, event);
    GoneStays(s.log, event);
    BoundsGrow(s.log, event, s.generation);
    if s.busy.Some? && s.busy.value < |s.operations| && s.operations[s.busy.value].role == Uninstalling {
      var operation := s.operations[s.busy.value];
      EvidenceGrows(s.log, operation.generation, operation.stage, event);
    }
  }

  /** Nothing is logged, and the operation in flight needs no more evidence than before. */
  lemma QuietKeepsLog(s: State, t: State)
    requires LogInv(s) && t.log == s.log && t.generation == s.generation
    requires t.removal.BackendRemoved() == s.removal.BackendRemoved()
    requires Recorded(t.log, t.busy, t.operations)
    ensures LogInv(t)
  {
  }

  predicate Inv(s: State) {
    LaneInv(s.lane, s.operations) && BusyInv(s.busy, s.operations) && PhaseInv(s) && LogInv(s)
  }

  // ---------------------------------------------------------------------------------------------
  // The log, step by step.
  // ---------------------------------------------------------------------------------------------

  lemma CheckStepKeepsLog(s: State, step: Step)
    requires Inv(s) && Enabled(s, step) && (step.ResumeCheck? || step.CheckAnswered? || step.FinishCheck?)
    ensures LogInv(Apply(s, step))
  {
    var i := step.i;
    assert s.busy != Some(i);
    forall stage ensures Recorded(s.log, s.busy, s.operations[i := s.operations[i].(stage := stage)]) {
    }
    match step
    case ResumeCheck(_) =>
      QuietKeepsLog(s, Left(s, i));
      QuietKeepsLog(s, Moved(s, i, Running));
      if s.removal.PermitsActivity() {
        PlainEventKeepsLog(Moved(s, i, Running), StatusCalled);
      }
    case CheckAnswered(_, answer) =>
      QuietKeepsLog(s, Left(s, i));
      var t := Moved(s, i, Finishing).(snapshot := answer);
      QuietKeepsLog(s, t);
      if PermitsActivity(s, s.operations[i].generation) {
        PlainEventKeepsLog(t, Published(s.generation, answer));
      }
    case FinishCheck(_) => QuietKeepsLog(s, Left(s, i));
  }

  lemma LaneStepKeepsLog(s: State, step: Step)
    requires Inv(s) && Enabled(s, step)
    requires step.Enter? || step.ResumeAction? || step.ActionCalls? || step.FinishAction? || step.FinishRemoval?
    ensures LogInv(Apply(s, step))
  {
    match step
    case Enter(i) => QuietKeepsLog(s, Entered(s, i));
    case ResumeAction(i) =>
      assert s.busy == Some(i);
      QuietKeepsLog(s, Moved(s, i, Running));
    case ActionCalls(i) =>
      assert s.busy == Some(i);
      PlainEventKeepsLog(s, ActionCalled);
    case FinishAction(i) => QuietKeepsLog(s, Left(s, i).(busy := None));
    case FinishRemoval(i) => QuietKeepsLog(s, RemovalFinished(s, i));
  }

  lemma ReviewEvidence(log: seq<Event>, generation: nat)
    requires LogSafe(log) && Bounded(log, generation) && !HasGone(log)
    ensures var next := log + [ReviewBegan(generation + 1)];
            && LogSafe(next) && Bounded(next, generation + 1) && !HasGone(next)
            && Evidence(next, generation + 1, Created)
  {
    var event := ReviewBegan(generation + 1);
    EventKeepsLog(log, event);
    GoneStays(log, event);
    BoundsGrow(log, event, generation + 1);
    UninstallsGrow(log, event, generation + 1);
    OrderGrows([], log, event);
    assert [] + [event] == [event];
  }

  lemma ReviewKeepsLog(s: State)
    requires LogInv(s) && s.busy.None? && s.removal.PermitsActivity()
    ensures LogInv(ReviewStarted(s))
  {
    ReviewEvidence(s.log, s.generation);
  }

  lemma CheckBegunKeepsLog(s: State, manual: bool)
    requires Inv(s)
    ensures LogInv(CheckBegun(s, manual))
  {
    QuietKeepsLog(s, CheckBegun(s, manual));
  }

  lemma OtherBegunKeepsLog(s: State)
    requires Inv(s)
    ensures LogInv(ActionBegun(s)) && LogInv(CleanupBegun(s))
  {
    QuietKeepsLog(s, ActionBegun(s));
    QuietKeepsLog(s, CleanupBegun(s));
  }

  lemma BeginningKeepsLog(s: State, step: Step)
    requires Inv(s) && IsBeginning(step)
    ensures LogInv(Apply(s, step))
  {
    match step
    case BeginCheck(manual) => CheckBegunKeepsLog(s, manual);
    case BeginRemoval =>
      if RemovalBegun(s) != s {
        ReviewKeepsLog(s);
      }
    case _ => OtherBegunKeepsLog(s);
  }

  // The steps of the removal itself.

  /** The removal in flight, and what is known about it. */
  predicate Underway(s: State, i: nat) {
    && LogInv(s) && s.busy == Some(i) && i < |s.operations| && s.operations[i].role == Uninstalling
    && Fits(s.operations[i], s.removal, s.generation)
  }

  lemma RemovalIsUnderway(s: State, i: nat)
    requires Inv(s) && i < |s.operations| && s.operations[i].role == Uninstalling && InFlight(s.operations[i])
    ensures Underway(s, i)
  {
    assert s.busy == Some(i);
  }

  /** The removal moves on with a longer log. */
  lemma AdvanceKeepsLog(s: State, i: nat, stage: Stage, removal: RemovalState, log: seq<Event>)
    requires i < |s.operations| && s.busy == Some(i)
    requires LogSafe(log) && Bounded(log, s.generation) && (removal.BackendRemoved() <==> HasGone(log))
    requires Evidence(log, s.operations[i].generation, stage)
    ensures LogInv(Moved(s, i, stage).(removal := removal, log := log))
  {
  }

  lemma StopKeepsLog(s: State, i: nat, removal: RemovalState)
    requires LogInv(s) && s.busy == Some(i) && i < |s.operations|
    requires removal.BackendRemoved() == s.removal.BackendRemoved()
    ensures LogInv(Stopped(s, i, removal))
  {
    AdvanceKeepsLog(s, i, Finishing, removal, s.log);
  }

  lemma ResumeKeepsLog(s: State, i: nat, cancelled: bool)
    requires Underway(s, i) && Enabled(s, ResumeRemoval(i, cancelled))
    ensures LogInv(RemovalResumed(s, i, cancelled))
  {
    StopKeepsLog(s, i, Failed(ProtocolInvalid));
    AdvanceKeepsLog(s, i, AwaitingStatus, s.removal, s.log);
    PlainEventKeepsLog(Moved(s, i, AwaitingStatus), StatusCalled);
  }

  lemma StatusKeepsLog(s: State, i: nat, status: Option<Snapshot>)
    requires Underway(s, i) && Enabled(s, StatusAnswered(i, status))
    ensures LogInv(StatusDone(s, i, status))
  {
    if AfterStatus(status).Some? {
      StopKeepsLog(s, i, AfterStatus(status).value);
    } else {
      AdvanceKeepsLog(s, i, AwaitingPreview, s.removal, s.log);
      PlainEventKeepsLog(Moved(s, i, AwaitingPreview), PreviewCalled(s.operations[i].generation));
    }
  }

  /** An event of the review itself. */
  lemma ReviewEventKeepsLog(s: State, i: nat, event: Event)
    requires Underway(s, i) && (event.Previewed? || event.Confirmed?)
    ensures var log := s.log + [event];
            && LogSafe(log) && Bounded(log, s.generation) && (s.removal.BackendRemoved() <==> HasGone(log))
            && Evidence(log, s.operations[i].generation, s.operations[i].stage)
  {
    EventKeepsLog(s.log, event);
    GoneStays(s.log, event);
    BoundsGrow(s.log, event, s.generation);
    EvidenceGrows(s.log, s.operations[i].generation, s.operations[i].stage, event);
  }

  lemma PreviewKeepsLog(s: State, i: nat, preview: Option<PreviewResult>)
    requires Underway(s, i) && Enabled(s, PreviewAnswered(i, preview))
    ensures LogInv(PreviewDone(s, i, preview))
  {
    if AfterPreview(preview).Some? {
      StopKeepsLog(s, i, AfterPreview(preview).value);
    } else {
      var review, token := s.operations[i].generation, preview.value.token.value;
      ReviewEventKeepsLog(s, i, Previewed(review, token));
      PreviewIsRecorded(s.log, review, token);
      AdvanceKeepsLog(s, i, AwaitingConfirmation(token), s.removal, s.log + [Previewed(review, token)]);
    }
  }

  lemma PreviewIsRecorded(log: seq<Event>, review: nat, token: Token)
    requires Evidence(log, review, AwaitingPreview)
    ensures Evidence(log + [Previewed(review, token)], review, AwaitingConfirmation(token))
  {
    var recorded, event := RecordedBy(review, AwaitingPreview), Previewed(review, token);
    OrderGrows(recorded, log, event);
    assert recorded + [event] == RecordedBy(review, AwaitingConfirmation(token));
    UninstallsGrow(log, event, review);
  }

  lemma ConfirmationIsRecorded(log: seq<Event>, review: nat, token: Token)
    requires Evidence(log, review, AwaitingConfirmation(token))
    ensures Evidence(log + [Confirmed(review)], review, AwaitingLogin(token))
  {
    var recorded, event := RecordedBy(review, AwaitingConfirmation(token)), Confirmed(review);
    OrderGrows(recorded, log, event);
    assert recorded + [event] == RecordedBy(review, AwaitingLogin(token));
    UninstallsGrow(log, event, review);
  }

  lemma ConfirmationKeepsLog(s: State, i: nat, accepted: bool, cancelled: bool)
    requires Underway(s, i) && Enabled(s, ConfirmationAnswered(i, accepted, cancelled))
    ensures LogInv(ConfirmationDone(s, i, s.operations[i].stage.token, accepted, cancelled))
  {
    var review, token := s.operations[i].generation, s.operations[i].stage.token;
    if AfterConfirmation(accepted, cancelled).Some? {
      StopKeepsLog(s, i, AfterConfirmation(accepted, cancelled).value);
    } else {
      ReviewEventKeepsLog(s, i, Confirmed(review));
      ConfirmationIsRecorded(s.log, review, token);
      AdvanceKeepsLog(s, i, AwaitingLogin(token), Removing, s.log + [Confirmed(review)]);
    }
  }

  /** Proof of absence, then the one uninstallation of the review. */
  lemma ClearedKeepsLog(log: seq<Event>, generation: nat, review: nat, token: Token)
    requires LogSafe(log) && Bounded(log, generation) && !HasGone(log) && review <= generation
    requires Evidence(log, review, AwaitingLogin(token))
    ensures var next := log + [LoginCleared(review)];
            && LogSafe(next) && Bounded(next, generation) && !HasGone(next)
            && MayHappen(next, UninstallCalled(review, token))
  {
    var recorded, event := RecordedBy(review, AwaitingLogin(token)), LoginCleared(review);
    EventKeepsLog(log, event);
    GoneStays(log, event);
    BoundsGrow(log, event, generation);
    OrderGrows(recorded, log, event);
    assert recorded + [event] == Prerequisites(review, token);
    UninstallsGrow(log, event, review);
  }

  lemma PurgedKeepsLog(log: seq<Event>, generation: nat, review: nat, token: Token)
    requires LogSafe(log) && Bounded(log, generation) && !HasGone(log) && review <= generation
    requires MayHappen(log, UninstallCalled(review, token))
    ensures var next := log + [UninstallCalled(review, token)];
            && LogSafe(next) && Bounded(next, generation) && !HasGone(next)
            && Evidence(next, review, AwaitingUninstall)
  {
    var event := UninstallCalled(review, token);
    EventKeepsLog(log, event);
    GoneStays(log, event);
    BoundsGrow(log, event, generation);
    UninstallsGrow(log, event, review);
  }

  lemma LoginKeepsLog(s: State, i: nat, login: LoginStartup.Script, cancelled: bool)
    requires Underway(s, i) && Enabled(s, LoginAnswered(i, login, cancelled))
    ensures LogInv(LoginDone(s, i, s.operations[i].stage.token, login, cancelled))
  {
    var stop := AfterLogin(LoginStartup.Outcome(login, MAXIMUM_CHECKS), cancelled);
    if stop.Some? {
      StopKeepsLog(s, i, stop.value);
    } else {
      PurgeKeepsLog(s, i, s.operations[i].stage.token);
    }
  }

  lemma PurgeKeepsLog(s: State, i: nat, token: Token)
    requires Underway(s, i) && s.operations[i].stage == AwaitingLogin(token)
    ensures LogInv(LoginPassed(s, i, token))
  {
    var review := s.operations[i].generation;
    ClearedKeepsLog(s.log, s.generation, review, token);
    PurgedKeepsLog(s.log + [LoginCleared(review)], s.generation, review, token);
    AdvanceKeepsLog(
      s, i, AwaitingUninstall, s.removal, s.log + [LoginCleared(review)] + [UninstallCalled(review, token)]);
  }

  lemma GoneKeepsLog(log: seq<Event>, generation: nat, review: nat)
    requires LogSafe(log) && Bounded(log, generation) && WasUninstalled(log, review)
    ensures var next := log + [BackendGone(review)];
            LogSafe(next) && Bounded(next, generation) && HasGone(next)
  {
    EventKeepsLog(log, BackendGone(review));
    GoneStays(log, BackendGone(review));
    BoundsGrow(log, BackendGone(review), generation);
  }

  lemma UninstallKeepsLog(s: State, i: nat, answer: Option<UninstallResult>)
    requires Underway(s, i) && Enabled(s, UninstallAnswered(i, answer))
    ensures LogInv(UninstallDone(s, i, answer))
  {
    if AfterUninstall(answer).CleanupRequired? {
      CompletionKeepsLog(s, i);
    } else {
      StopKeepsLog(s, i, AfterUninstall(answer));
    }
  }

  lemma CompletionKeepsLog(s: State, i: nat)
    requires Underway(s, i) && s.operations[i].stage == AwaitingUninstall
    ensures LogInv(Logged(Moved(s, i, AwaitingCleanup).(removal := CleanupRequired),
                          BackendGone(s.operations[i].generation)))
  {
    var review := s.operations[i].generation;
    GoneKeepsLog(s.log, s.generation, review);
    AdvanceKeepsLog(s, i, AwaitingCleanup, CleanupRequired, s.log + [BackendGone(review)]);
  }

  lemma CleanupStepKeepsLog(s: State, step: Step)
    requires Inv(s) && Enabled(s, step) && (step.ResumeCleanup? || step.CleanupAnswered?)
    ensures LogInv(Apply(s, step))
  {
    assert s.busy == Some(step.i);
    match step
    case ResumeCleanup(i) => AdvanceKeepsLog(s, i, CleanupResumed(s, i).operations[i].stage, s.removal, s.log);
    case CleanupAnswered(i, succeeded) => StopKeepsLog(s, i, AfterCleanup(succeeded));
  }

  lemma RemovalStepKeepsLog(s: State, step: Step)
    requires Inv(s) && Enabled(s, step) && IsRemovalStep(step)
    ensures LogInv(Apply(s, step))
  {
    if step.ResumeCleanup? || step.CleanupAnswered? {
      CleanupStepKeepsLog(s, step);
    } else {
      RemovalIsUnderway(s, step.i);
      match step
      case ResumeRemoval(i, cancelled) => ResumeKeepsLog(s, i, cancelled);
      case StatusAnswered(i, status) => StatusKeepsLog(s, i, status);
      case PreviewAnswered(i, preview) => PreviewKeepsLog(s, i, preview);
      case ConfirmationAnswered(i, accepted, cancelled) => ConfirmationKeepsLog(s, i, accepted, cancelled);
      case LoginAnswered(i, login, cancelled) => LoginKeepsLog(s, i, login, cancelled);
      case UninstallAnswered(i, uninstall) => UninstallKeepsLog(s, i, uninstall);
    }
  }

  lemma StepKeepsLog(s: State, step: Step)
    requires Inv(s) && Enabled(s, step)
    ensures LogInv(Apply(s, step))
  {
    if IsBeginning(step) {
      BeginningKeepsLog(s, step);
    } else if IsRemovalStep(step) {
      RemovalStepKeepsLog(s, step);
    } else if step.ResumeCheck? || step.CheckAnswered? || step.FinishCheck? {
      CheckStepKeepsLog(s, step);
    } else {
      LaneStepKeepsLog(s, step);
    }
  }

  lemma InvInitial()
    ensures Inv(INITIAL)
  {
  }

  lemma StepKeepsInv(s: State, step: Step)
    requires Inv(s) && Enabled(s, step)
    ensures Inv(Apply(s, step))
  {
    StepKeepsLane(s, step);
    StepKeepsPhase(s, step);
    StepKeepsLog(s, step);
  }
}
