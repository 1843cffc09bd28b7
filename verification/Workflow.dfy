// The development workflow as atomic operations on the stored rows.
//
// Every function below is one transaction (or one pre-check and its
// transaction) of the program. It returns the rows afterwards and an outcome;
// an operation that is refused leaves the rows as they were. WorkflowStore
// carries out the same operations by updating the rows in place.
module Workflow {
  import opened Wrappers
  import opened FeatureStateMachine

  type FeatureId = string
  type ProjectId = nat
  type AttemptId = nat
  type ApprovalId = nat
  type WorkerId = nat
  type OperationKey = string
  type Time = int

  datatype AttemptStatus =
    | AttemptQueued | Running | CancelRequested
    | Succeeded | Failed | Interrupted | Cancelled

  datatype Feature = Feature(
    project: ProjectId, state: FeatureState, version: nat, taskPath: Option<string>, branch: string)

  datatype Attempt = Attempt(
    project: ProjectId, feature: FeatureId, approval: ApprovalId, branch: string,
    operationKey: OperationKey, status: AttemptStatus, predecessor: Option<AttemptId>,
    worker: Option<WorkerId>, pid: Option<nat>, lease: Option<Time>, enqueuedAt: Time)

  datatype Approval = Approval(project: ProjectId, feature: FeatureId, active: bool)

  // What the stored result of an idempotency record says.
  datatype RecordBody =
    | ApproveResult(approval: ApprovalId, attempt: AttemptId)
    | ReplaceResult(replaced: ApprovalId)
    | RetryResult
    | PrRetryResult
    | OtherResult

  datatype Record = Record(
    project: ProjectId, feature: Option<FeatureId>, attempt: Option<AttemptId>, body: RecordBody)

  datatype Intent = Intent(dedupeKey: string, feature: FeatureId, attempt: AttemptId)

  datatype Db = Db(
    features: map<FeatureId, Feature>, attempts: map<AttemptId, Attempt>,
    approvals: map<ApprovalId, Approval>, records: map<OperationKey, Record>, outbox: seq<Intent>)

  datatype Refusal =
    | FeatureNotFound | NotFound | IllegalState | ApprovalActive | ValidationFailed | StaleChecksum
    | KeyReused | NoAttempt | NotRetryable | BranchMismatch | ProcessAlive
    | OwnershipLost | HasProcess | NoProcess | LeaseHeld | TransitionRefused | RowChanged

  datatype Outcome =
    | Done
    | Replayed(attempt: Option<AttemptId>)
    | Refused(reason: Refusal)

  datatype Effect = Effect(db: Db, outcome: Outcome)

  function Refuse(db: Db, reason: Refusal): Effect { Effect(db, Refused(reason)) }

  predicate IsActive(s: AttemptStatus) { s == Running || s == CancelRequested }

  predicate IsLive(s: AttemptStatus) { s == AttemptQueued || IsActive(s) }

  predicate IsRetryableStatus(s: AttemptStatus) { s == Failed || s == Interrupted || s == Cancelled }

  predicate InDevelopment(s: FeatureState) { s == Queued || s == Developing }

  // ---------------------------------------------------------------------
  // The guarded update shared by the writers that consult the table
  // ---------------------------------------------------------------------

  /** The row after the table's transition, when `owner` may take it from the row just read. */
  function Move(row: Feature, to: FeatureState, owner: TransitionOwner): Option<Feature> {
    if IsAllowed(row.state, to, owner) then Some(row.(state := to, version := row.version + 1)) else None
  }

  /** It is what the transition service answers to a command that is based on that row, whatever the operation. */
  lemma MoveIsTheTransition(row: Feature, to: FeatureState, owner: TransitionOwner, op: OperationId)
    ensures var answer := ApplyFeatureTransition(
              TransitionCommand(row.state, to, owner, op, row.version, row.version, Some(row.state), None, None));
      Move(row, to, owner) ==
      if answer.Applied? then Some(row.(state := answer.transition.next, version := answer.transition.nextVersion))
      else None
  {}

  function SetFeature(db: Db, f: FeatureId, row: Feature): Db { db.(features := db.features[f := row]) }

  function SetStatus(db: Db, a: AttemptId, s: AttemptStatus): Db
    requires a in db.attempts
  {
    db.(attempts := db.attempts[a := db.attempts[a].(status := s)])
  }

  /** Move the attempt's feature and close the attempt, in one transaction. */
  function MoveAndSet(db: Db, a: AttemptId, to: FeatureState, owner: TransitionOwner, s: AttemptStatus): Effect
    requires a in db.attempts
  {
    var f := db.attempts[a].feature;
    if f !in db.features then Refuse(db, FeatureNotFound)
    else StoreMoveAndSet(db, a, Move(db.features[f], to, owner), s)
  }

  function StoreMoveAndSet(db: Db, a: AttemptId, moved: Option<Feature>, s: AttemptStatus): Effect
    requires a in db.attempts
  {
    match moved
    case None => Refuse(db, TransitionRefused)
    case Some(row) => Effect(SetStatus(SetFeature(db, db.attempts[a].feature, row), a, s), Done)
  }

  function StoreMove(db: Db, f: FeatureId, moved: Option<Feature>): Effect {
    match moved
    case None => Refuse(db, TransitionRefused)
    case Some(row) => Effect(SetFeature(db, f, row), Done)
  }

  // ---------------------------------------------------------------------
  // Task attachment and approval
  // ---------------------------------------------------------------------

  predicate IsActiveApprovalOf(db: Db, p: ApprovalId, f: FeatureId) {
    p in db.approvals && db.approvals[p].feature == f && db.approvals[p].active
  }

  predicate HasActiveApproval(db: Db, f: FeatureId) {
    exists p :: p in db.approvals && IsActiveApprovalOf(db, p, f)
  }

  predicate IsAttachState(s: FeatureState) { s == Planned || s == TasksReview || IsReattachState(s) }

  function CreateFeature(db: Db, f: FeatureId, project: ProjectId, branch: string): Effect {
    if f in db.features then Refuse(db, KeyReused)
    else Effect(SetFeature(db, f, Feature(project, Planned, 1, None, branch)), Done)
  }

  function AttachTask(db: Db, f: FeatureId, path: string, parses: bool): Effect {
    if f !in db.features then Refuse(db, FeatureNotFound)
    else
      var row := db.features[f];
      if !IsAttachState(row.state) then Refuse(db, IllegalState)
      else if IsReattachState(row.state) && HasActiveApproval(db, f) then Refuse(db, ApprovalActive)
      else if !parses then Refuse(db, ValidationFailed)
      else AttachWrite(db, f, path)
  }

  /** The transaction of attachTask. It reads the state again, but not the approvals. */
  function AttachWrite(db: Db, f: FeatureId, path: string): Effect
    requires f in db.features
  {
    var row := db.features[f];
    if !IsAttachState(row.state) then Refuse(db, TransitionRefused)
    else
      var bumps := if IsReattachState(row.state) then 2 else 1;
      var moved := row.(state := TasksReview, taskPath := Some(path), version := row.version + bumps);
      Effect(SetFeature(db, f, moved), Done)
  }

  function RemoveTask(db: Db, f: FeatureId): Effect {
    if f !in db.features then Refuse(db, FeatureNotFound)
    else if db.features[f].state != TasksReview then Refuse(db, IllegalState)
    else RemoveWrite(db, f)
  }

  /** The transaction of removeTask. It starts from a literal TASKS_REVIEW and updates the row by its id alone. */
  function RemoveWrite(db: Db, f: FeatureId): Effect
    requires f in db.features
  {
    var row := db.features[f];
    Effect(SetFeature(db, f, row.(state := Planned, taskPath := None, version := row.version + 1)), Done)
  }

  datatype ApproveRequest = ApproveRequest(
    feature: FeatureId, project: Option<ProjectId>, key: OperationKey, parses: bool, checksumMatches: bool,
    approval: ApprovalId, attempt: AttemptId, now: Time)

  function ApproveAndQueue(db: Db, r: ApproveRequest): Effect
    requires r.approval !in db.approvals && r.attempt !in db.attempts
  {
    if r.feature !in db.features then Refuse(db, FeatureNotFound)
    else
      var row := db.features[r.feature];
      if r.project.Some? && row.project != r.project.value then Refuse(db, NotFound)
      else if r.key in db.records && db.records[r.key].body.ApproveResult? then
        Effect(db, Replayed(Some(db.records[r.key].body.attempt)))
      else if row.state != TasksReview then Refuse(db, IllegalState)
      else if row.taskPath.None? || !r.parses then Refuse(db, ValidationFailed)
      else if !r.checksumMatches then Refuse(db, StaleChecksum)
      else if r.key in db.records then Refuse(db, IllegalState)  // the record insert conflicts: rolled back
      else match Move(row, Queued, Human)
        case None => Refuse(db, IllegalState)
        case Some(moved) =>
          var attempt := Attempt(row.project, r.feature, r.approval, row.branch, r.key,
                                 AttemptQueued, None, None, None, None, r.now);
          var record := Record(row.project, Some(r.feature), Some(r.attempt), ApproveResult(r.approval, r.attempt));
          Effect(
            Db(db.features[r.feature := moved],
               db.attempts[r.attempt := attempt],
               db.approvals[r.approval := Approval(row.project, r.feature, true)],
               db.records[r.key := record],
               db.outbox),
            Done)
  }

  function InvalidateApproval(db: Db, f: FeatureId, project: Option<ProjectId>, p: ApprovalId): Effect {
    if f !in db.features then Refuse(db, FeatureNotFound)
    else if project.Some? && db.features[f].project != project.value then Refuse(db, NotFound)
    else if db.features[f].state != TasksReview && !IsReattachState(db.features[f].state) then Refuse(db, IllegalState)
    else InvalidateWrite(db, f, p)
  }

  /** The transaction of invalidateApproval, which does not look at the feature's state. */
  function InvalidateWrite(db: Db, f: FeatureId, p: ApprovalId): Effect {
    if !IsActiveApprovalOf(db, p, f) then Refuse(db, NotFound)
    else Effect(db.(approvals := db.approvals[p := db.approvals[p].(active := false)]), Done)
  }

  datatype ReplaceRequest = ReplaceRequest(
    feature: FeatureId, project: ProjectId, approval: ApprovalId, path: string, key: OperationKey, parses: bool)

  function ReplaceTask(db: Db, r: ReplaceRequest): Effect {
    if r.feature !in db.features || db.features[r.feature].project != r.project then Refuse(db, FeatureNotFound)
    else if r.key in db.records then
      if db.records[r.key].body == ReplaceResult(r.approval) then Effect(db, Replayed(None))
      else Refuse(db, ValidationFailed)
    else if !IsReattachState(db.features[r.feature].state) then Refuse(db, IllegalState)
    else if !r.parses then Refuse(db, ValidationFailed)
    else ReplaceWrite(db, r)
  }

  /** The transaction of replaceTask, which does not look at the feature's state. */
  function ReplaceWrite(db: Db, r: ReplaceRequest): Effect
    requires r.feature in db.features
  {
    var row := db.features[r.feature];
    if !IsActiveApprovalOf(db, r.approval, r.feature) || db.approvals[r.approval].project != r.project
    then Refuse(db, NotFound)
    else if r.key in db.records then Refuse(db, KeyReused)  // the record insert conflicts: rolled back
    else
      Effect(
        Db(db.features[r.feature := row.(state := TasksReview, taskPath := Some(r.path), version := row.version + 1)],
           db.attempts,
           db.approvals[r.approval := db.approvals[r.approval].(active := false)],
           db.records[r.key := Record(r.project, Some(r.feature), None, ReplaceResult(r.approval))],
           db.outbox),
        Done)
  }

  // ---------------------------------------------------------------------
  // Retry
  // ---------------------------------------------------------------------

  predicate Older(s: Attempt, a: AttemptId, t: Attempt, b: AttemptId) {
    s.enqueuedAt < t.enqueuedAt || (s.enqueuedAt == t.enqueuedAt && a < b)
  }

  /** `a` is the newest attempt of feature `f`. */
  ghost predicate IsLatest(db: Db, a: AttemptId, f: FeatureId) {
    && a in db.attempts && db.attempts[a].feature == f
    && forall b :: b in db.attempts && db.attempts[b].feature == f && b != a ==>
         Older(db.attempts[b], b, db.attempts[a], a)
  }

  datatype RetryRequest = RetryRequest(
    feature: FeatureId, project: ProjectId, approval: ApprovalId, branch: string, key: OperationKey,
    attempt: AttemptId, now: Time)

  /** `latest` is the feature's newest attempt, if it has any; `alive` is the answer of the process probe. */
  function Retry(db: Db, r: RetryRequest, latest: Option<AttemptId>, alive: bool): Effect
    requires r.attempt !in db.attempts
    requires latest.Some? ==> latest.value in db.attempts
  {
    if r.key in db.records then
      var record := db.records[r.key];
      if record.project != r.project || record.feature != Some(r.feature) then Refuse(db, KeyReused)
      else if record.attempt.None? || record.attempt.value !in db.attempts then Refuse(db, NoAttempt)
      else Effect(db, Replayed(record.attempt))
    else if r.feature !in db.features then Refuse(db, FeatureNotFound)
    else
      var row := db.features[r.feature];
      if row.project != r.project then Refuse(db, NotFound)
      else if !IsReattachState(row.state) then Refuse(db, NotRetryable)
      else if !IsActiveApprovalOf(db, r.approval, r.feature) || db.approvals[r.approval].project != r.project
      then Refuse(db, NotFound)
      else if latest.None? then Refuse(db, NoAttempt)
      else
        var last := db.attempts[latest.value];
        if !IsRetryableStatus(last.status) then Refuse(db, NotRetryable)
        else if last.branch != row.branch || r.branch != row.branch then Refuse(db, BranchMismatch)
        else if last.pid.Some? && alive then Refuse(db, ProcessAlive)
        else match Move(row, Queued, Human)
          case None => Refuse(db, TransitionRefused)
          case Some(moved) =>
            var attempt := Attempt(r.project, r.feature, r.approval, row.branch, r.key,
                                   AttemptQueued, latest, None, None, None, r.now);
            Effect(
              Db(db.features[r.feature := moved],
                 db.attempts[r.attempt := attempt],
                 db.approvals,
                 db.records[r.key := Record(r.project, Some(r.feature), Some(r.attempt), RetryResult)],
                 db.outbox),
              Done)
  }

  // ---------------------------------------------------------------------
  // Queue claim
  // ---------------------------------------------------------------------

  function ActiveAttempts(db: Db): set<AttemptId> {
    set a | a in db.attempts && IsActive(db.attempts[a].status)
  }

  predicate ProjectIsBusy(db: Db, project: ProjectId) {
    exists b :: b in db.attempts && db.attempts[b].project == project && IsActive(db.attempts[b].status)
  }

  predicate IsEligible(db: Db, a: AttemptId) {
    a in db.attempts && db.attempts[a].status == AttemptQueued && !ProjectIsBusy(db, db.attempts[a].project)
  }

  /** The attempt a claim takes: the oldest of the eligible ones. */
  ghost predicate IsClaimTarget(db: Db, a: AttemptId) {
    && IsEligible(db, a)
    && forall b :: IsEligible(db, b) && b != a ==> Older(db.attempts[a], a, db.attempts[b], b)
  }

  /** What claiming `target` writes. */
  function Claimed(db: Db, target: AttemptId, w: WorkerId, leaseExpires: Time): Db
    requires target in db.attempts
  {
    var claimed := db.attempts[target].(status := Running, worker := Some(w), lease := Some(leaseExpires));
    db.(attempts := db.attempts[target := claimed])
  }

  // ---------------------------------------------------------------------
  // The worker's writes
  // ---------------------------------------------------------------------

  predicate Owns(db: Db, a: AttemptId, w: WorkerId) {
    a in db.attempts && db.attempts[a].worker == Some(w) && db.attempts[a].status == Running
  }

  function MarkDeveloping(db: Db, a: AttemptId, w: WorkerId): Effect {
    if !Owns(db, a, w) then Refuse(db, OwnershipLost)
    else MoveAndSet(db, a, Developing, Worker, Running)
  }

  function PersistProcessIdentity(db: Db, a: AttemptId, w: WorkerId, pid: nat, leaseExpires: Time): Effect {
    if !Owns(db, a, w) then Refuse(db, OwnershipLost)
    else if db.attempts[a].pid.Some? then Refuse(db, HasProcess)
    else Effect(db.(attempts := db.attempts[a := db.attempts[a].(pid := Some(pid), lease := Some(leaseExpires))]), Done)
  }

  function RenewLease(db: Db, a: AttemptId, w: WorkerId, leaseExpires: Time): Effect {
    if a !in db.attempts || db.attempts[a].worker != Some(w) || !IsActive(db.attempts[a].status)
    then Refuse(db, OwnershipLost)
    else Effect(db.(attempts := db.attempts[a := db.attempts[a].(lease := Some(leaseExpires))]), Done)
  }

  function CompletionKey(f: FeatureId): string { "create_pr:" + f }

  function PersistSuccess(db: Db, a: AttemptId, w: WorkerId): Effect {
    if !Owns(db, a, w) then Refuse(db, OwnershipLost)
    else
      var e := MoveAndSet(db, a, DevelopmentComplete, AgentResultAndVerification, Succeeded);
      if e.outcome != Done then e
      else
        var f := db.attempts[a].feature;
        Effect(e.db.(outbox := e.db.outbox + [Intent(CompletionKey(f), f, a)]), Done)
  }

  /** A preflight failure blocks the feature; a failed run returns it to the operator. */
  function PersistFailure(db: Db, a: AttemptId, w: WorkerId, blocks: bool): Effect {
    if !Owns(db, a, w) then Refuse(db, OwnershipLost)
    else if blocks then MoveAndSet(db, a, Blocked, Guard, Failed)
    else MoveAndSet(db, a, DevelopmentFailed, Worker, Failed)
  }

  // ---------------------------------------------------------------------
  // Cancellation
  // ---------------------------------------------------------------------

  /** The cancel route for an attempt it saw RUNNING or CANCEL_REQUESTED. */
  function RequestCancel(db: Db, a: AttemptId): Effect {
    if a !in db.attempts then Refuse(db, NotFound)
    else if db.attempts[a].status != Running then Effect(db, Replayed(Some(a)))
    else Effect(SetStatus(db, a, CancelRequested), Done)
  }

  /** The cancel route for an attempt it saw QUEUED or CANCELLED. */
  function CancelQueued(db: Db, a: AttemptId): Effect {
    if a !in db.attempts then Refuse(db, NotFound)
    else if db.attempts[a].status == Cancelled then Effect(db, Replayed(Some(a)))
    else if db.attempts[a].status != AttemptQueued then Refuse(db, IllegalState)
    else MoveAndSet(db, a, DevelopmentCancelled, Human, Cancelled)
  }

  // A process cancellation: the row it loaded, whether the process was found to
  // have been replaced, and how far it has come. One that died stays where it was.
  datatype CancelStage = Loaded | Swapped | Missed
  datatype Ticket = Ticket(
    attempt: AttemptId, feature: FeatureId, row: Feature, replaced: bool, stage: CancelStage, alive: bool)

  predicate OwnsCancel(db: Db, a: AttemptId, w: WorkerId) {
    && a in db.attempts && db.attempts[a].status == CancelRequested && db.attempts[a].worker == Some(w)
    && db.attempts[a].feature in db.features
  }

  /** The guards of cancelRunning, and the request unless the process was replaced. */
  function BeginCancel(db: Db, a: AttemptId, w: WorkerId, identityOk: bool): Effect {
    if !OwnsCancel(db, a, w) then Refuse(db, OwnershipLost)
    else if db.attempts[a].pid.None? then Refuse(db, NoProcess)
    else if !identityOk then Effect(db, Done)
    else Effect(SetStatus(db, a, CancelRequested), Done)
  }

  function TicketFor(db: Db, a: AttemptId, identityOk: bool): Ticket
    requires a in db.attempts && db.attempts[a].feature in db.features
  {
    Ticket(a, db.attempts[a].feature, db.features[db.attempts[a].feature], !identityOk, Loaded, true)
  }

  function CancelTarget(t: Ticket): FeatureState { if t.replaced then Blocked else DevelopmentCancelled }

  function CancelOwner(t: Ticket): TransitionOwner { if t.replaced then Guard else HumanAndProcessControl }

  function CancelStatus(t: Ticket): AttemptStatus { if t.replaced then Failed else Cancelled }

  /** The first of the final writes: compare-and-swap on the row that was loaded. */
  function SwapCancel(db: Db, t: Ticket): Effect {
    if t.feature !in db.features then Refuse(db, FeatureNotFound)
    else match Move(t.row, CancelTarget(t), CancelOwner(t))
      case None => Refuse(db, TransitionRefused)
      case Some(moved) =>
        var row := db.features[t.feature];
        if row.state != t.row.state || row.version != t.row.version then Refuse(db, RowChanged)
        else Effect(SetFeature(db, t.feature, row.(state := moved.state, version := moved.version)), Done)
  }

  /** The second: the attempt is closed whatever its status. The two are separate statements. */
  function CloseCancel(db: Db, t: Ticket): Effect {
    if t.attempt !in db.attempts then Refuse(db, NotFound)
    else Effect(SetStatus(db, t.attempt, CancelStatus(t)), Done)
  }

  // ---------------------------------------------------------------------
  // Orphans
  // ---------------------------------------------------------------------

  predicate IsOrphan(db: Db, a: AttemptId, observedAt: Time) {
    && a in db.attempts && IsActive(db.attempts[a].status)
    && db.attempts[a].lease.Some? && db.attempts[a].lease.value < observedAt
  }

  function ReconcileOrphan(db: Db, a: AttemptId, observedAt: Time): Effect {
    if !IsOrphan(db, a, observedAt) then Refuse(db, LeaseHeld)
    else MoveAndSet(db, a, DevelopmentInterrupted, Reconciliation, Interrupted)
  }

  /** Startup reconciliation: one transaction per candidate, counting those that were interrupted. */
  function ReconcileAll(db: Db, candidates: seq<AttemptId>, observedAt: Time): (Db, nat) {
    if candidates == [] then (db, 0)
    else
      var (before, count) := ReconcileAll(db, candidates[..|candidates| - 1], observedAt);
      var e := ReconcileOrphan(before, candidates[|candidates| - 1], observedAt);
      (e.db, if e.outcome == Done then count + 1 else count)
  }

  // ---------------------------------------------------------------------
  // Pull request transitions
  // ---------------------------------------------------------------------

  /** transitionFeatureInStore: the caller says which state it expects. */
  function TransitionFeature(db: Db, f: FeatureId, from: FeatureState, to: FeatureState,
        owner: TransitionOwner): Effect
  {
    if f !in db.features then Refuse(db, FeatureNotFound)
    else if db.features[f].state != from then Refuse(db, TransitionRefused)
    else StoreMove(db, f, Move(db.features[f], to, owner))
  }

  function StartHandoff(db: Db, f: FeatureId): Effect {
    TransitionFeature(db, f, DevelopmentComplete, PrCreating, Worker)
  }

  function FinishHandoff(db: Db, f: FeatureId): Effect {
    TransitionFeature(db, f, PrCreating, CiRunning, GithubAdapter)
  }

  /** The handoff store's persistFailure moves from whatever state it reads. */
  function FailHandoff(db: Db, f: FeatureId): Effect {
    if f !in db.features then Refuse(db, FeatureNotFound)
    else TransitionFeature(db, f, db.features[f].state, PrCreationFailed, GithubAdapter)
  }

  function RetryPrCreation(db: Db, f: FeatureId, project: ProjectId, a: AttemptId, key: OperationKey): Effect {
    if f !in db.features then Refuse(db, FeatureNotFound)
    else if db.features[f].project != project then Refuse(db, ValidationFailed)
    else if key in db.records then Effect(db, Replayed(db.records[key].attempt))
    else if db.features[f].state != PrCreationFailed then Refuse(db, IllegalState)
    else if a !in db.attempts || db.attempts[a].feature != f then Refuse(db, NotFound)
    else match Move(db.features[f], PrCreating, Human)
      case None => Refuse(db, TransitionRefused)
      case Some(row) =>
        Effect(
          Db(db.features[f := row], db.attempts, db.approvals,
             db.records[key := Record(project, Some(f), Some(a), PrRetryResult)],
             db.outbox + [Intent(key, f, a)]),
          Done)
  }

  predicate IsReconcilable(s: FeatureState) { IsPullRequestState(s) && s != DevelopmentMerged }

  /** One poll of one feature's pull request that resolved to `target`. */
  function Poll(db: Db, f: FeatureId, target: FeatureState): Effect {
    if f !in db.features then Refuse(db, FeatureNotFound)
    else if !IsReconcilable(db.features[f].state) || target == db.features[f].state then Effect(db, Replayed(None))
    else TransitionFeature(db, f, db.features[f].state, target, if target == Blocked then Guard else Poller)
  }

  /** Any other mutation that stores its result under an unused key, for what it was about. */
  function StoreResult(db: Db, key: OperationKey, project: ProjectId, f: Option<FeatureId>,
        a: Option<AttemptId>): Effect
  {
    if key in db.records then Refuse(db, KeyReused)
    else Effect(db.(records := db.records[key := Record(project, f, a, OtherResult)]), Done)
  }
}
