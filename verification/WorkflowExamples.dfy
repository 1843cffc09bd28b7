// Runs from the empty database that reach what one would not expect.
module WorkflowExamples {
  import opened Wrappers
  import opened FeatureStateMachine
  import opened Workflow
  import opened WorkflowSafety
  import opened WorkflowOutbox
  import opened WorkflowRuns

  /** Some run ends in `w`. */
  ghost predicate Reachable(w: World, maxConcurrent: nat) {
    exists worlds, steps :: IsRun(worlds, steps, maxConcurrent) && worlds[|steps|] == w
  }

  lemma InitialIsReachable(maxConcurrent: nat)
    ensures Reachable(INITIAL, maxConcurrent)
  {
    assert IsRun([INITIAL], [], maxConcurrent);
  }

  lemma StepReaches(w: World, s: Step, maxConcurrent: nat)
    requires Reachable(w, maxConcurrent) && Enabled(w, s, maxConcurrent)
    ensures Reachable(Next(w, s, maxConcurrent), maxConcurrent)
  {
    var worlds, steps :| IsRun(worlds, steps, maxConcurrent) && worlds[|steps|] == w;
    var more, taken := worlds + [Next(w, s, maxConcurrent)], steps + [s];
    forall i | 0 <= i < |taken|
      ensures Enabled(more[i], taken[i], maxConcurrent) && more[i + 1] == Next(more[i], taken[i], maxConcurrent)
    {
      if i < |steps| { assert taken[i] == steps[i] && more[i] == worlds[i] && more[i + 1] == worlds[i + 1]; }
    }
    assert IsRun(more, taken, maxConcurrent) && more[|taken|] == Next(w, s, maxConcurrent);
  }

  /** The steps that are not about cancellations of running processes. */
  predicate IsPlain(s: Step) {
    !s.DoBeginCancel? && !s.DoSwapCancel? && !s.DoCloseCancel? && !s.DoAbandonCancel?
  }

  /** A plain step from a world that has no attempt left behind. */
  lemma PlainStepReaches(db: Db, cancels: map<nat, Ticket>, s: Step, after: Db, maxConcurrent: nat)
    requires Reachable(World(db, cancels, {}), maxConcurrent) && IsPlain(s)
    requires Enabled(World(db, cancels, {}), s, maxConcurrent)
    requires Write(World(db, cancels, {}), s, maxConcurrent).db == after
    ensures Reachable(World(after, cancels, {}), maxConcurrent)
  {
    StepReaches(World(db, cancels, {}), s, maxConcurrent);
    assert StillLive(after, {}) == {};
  }

  // ---------------------------------------------------------------------
  // A new feature is developed
  // ---------------------------------------------------------------------

  datatype Plan = Plan(
    feature: FeatureId, project: ProjectId, path: string, branch: string, approval: ApprovalId,
    attempt: AttemptId, key: OperationKey, worker: WorkerId, now: Time, lease: Time)

  function RowIn(p: Plan, state: FeatureState, version: nat): Feature {
    Feature(p.project, state, version, if state == Planned then None else Some(p.path), p.branch)
  }

  function QueuedAttempt(p: Plan): Attempt {
    Attempt(p.project, p.feature, p.approval, p.branch, p.key, AttemptQueued, None, None, None, None, p.now)
  }

  function RunningAttempt(p: Plan): Attempt {
    QueuedAttempt(p).(status := Running, worker := Some(p.worker), lease := Some(p.lease))
  }

  function Request(p: Plan): ApproveRequest {
    ApproveRequest(p.feature, None, p.key, true, true, p.approval, p.attempt, p.now)
  }

  /** `db` with the rows of the plan added: its feature in `state`, and its attempt. */
  function With(db: Db, p: Plan, state: FeatureState, version: nat, attempt: Attempt): Db {
    Db(db.features[p.feature := RowIn(p, state, version)], db.attempts[p.attempt := attempt],
       db.approvals[p.approval := Approval(p.project, p.feature, true)],
       db.records[p.key := Record(p.project, Some(p.feature), Some(p.attempt), ApproveResult(p.approval, p.attempt))],
       db.outbox)
  }

  /** Nothing of the plan is there yet, and no other attempt is open. */
  predicate IsFresh(db: Db, p: Plan) {
    && p.feature !in db.features && p.attempt !in db.attempts && p.approval !in db.approvals && p.key !in db.records
    && forall a :: a in db.attempts ==> !IsLive(db.attempts[a].status)
  }

  lemma NewFeatureIsReviewed(db: Db, p: Plan, maxConcurrent: nat)
    requires Reachable(World(db, map[], {}), maxConcurrent) && IsFresh(db, p)
    ensures Reachable(World(SetFeature(db, p.feature, RowIn(p, TasksReview, 2)), map[], {}), maxConcurrent)
  {
    var created, attached :=
      SetFeature(db, p.feature, RowIn(p, Planned, 1)), SetFeature(db, p.feature, RowIn(p, TasksReview, 2));
    PlainStepReaches(db, map[], DoCreateFeature(p.feature, p.project, p.branch), created, maxConcurrent);
    assert attached == SetFeature(created, p.feature, RowIn(p, TasksReview, 2));
    PlainStepReaches(created, map[], DoAttach(p.feature, p.path, true), attached, maxConcurrent);
  }

  lemma NewFeatureIsQueued(db: Db, p: Plan, maxConcurrent: nat)
    requires Reachable(World(db, map[], {}), maxConcurrent) && IsFresh(db, p)
    ensures Reachable(World(With(db, p, Queued, 3, QueuedAttempt(p)), map[], {}), maxConcurrent)
  {
    NewFeatureIsReviewed(db, p, maxConcurrent);
    var reviewed := SetFeature(db, p.feature, RowIn(p, TasksReview, 2));
    var queued := With(db, p, Queued, 3, QueuedAttempt(p));
    assert queued.features == reviewed.features[p.feature := RowIn(p, Queued, 3)];
    PlainStepReaches(reviewed, map[], DoApprove(Request(p)), queued, maxConcurrent);
  }

  lemma NewFeatureIsClaimed(db: Db, p: Plan, maxConcurrent: nat)
    requires Reachable(World(db, map[], {}), maxConcurrent) && IsFresh(db, p) && maxConcurrent > 0
    ensures Reachable(World(With(db, p, Queued, 3, RunningAttempt(p)), map[], {}), maxConcurrent)
  {
    NewFeatureIsQueued(db, p, maxConcurrent);
    var queued, claimed := With(db, p, Queued, 3, QueuedAttempt(p)), With(db, p, Queued, 3, RunningAttempt(p));
    assert ActiveAttempts(queued) == {};
    assert IsEligible(queued, p.attempt);
    assert claimed.attempts == queued.attempts[p.attempt := RunningAttempt(p)];
    PlainStepReaches(queued, map[], DoClaim(p.attempt, p.worker, p.lease), claimed, maxConcurrent);
  }

  lemma NewFeatureIsDeveloped(db: Db, p: Plan, maxConcurrent: nat)
    requires Reachable(World(db, map[], {}), maxConcurrent) && IsFresh(db, p) && maxConcurrent > 0
    ensures Reachable(World(With(db, p, Developing, 4, RunningAttempt(p)), map[], {}), maxConcurrent)
  {
    NewFeatureIsClaimed(db, p, maxConcurrent);
    var claimed, developing := With(db, p, Queued, 3, RunningAttempt(p)), With(db, p, Developing, 4, RunningAttempt(p));
    assert developing.features == claimed.features[p.feature := RowIn(p, Developing, 4)];
    assert developing.attempts == claimed.attempts[p.attempt := RunningAttempt(p)];
    PlainStepReaches(claimed, map[], DoMarkDeveloping(p.attempt, p.worker), developing, maxConcurrent);
  }

  // ---------------------------------------------------------------------
  // Two intents under one key
  // ---------------------------------------------------------------------

  /** `db` after the developing feature of the plan has succeeded, with one more intent. */
  function Succeeding(db: Db, p: Plan): Db {
    With(db, p, DevelopmentComplete, 5, RunningAttempt(p).(status := Succeeded))
      .(outbox := db.outbox + [Intent(CompletionKey(p.feature), p.feature, p.attempt)])
  }

  lemma NewFeatureSucceeds(db: Db, p: Plan, maxConcurrent: nat)
    requires Reachable(World(db, map[], {}), maxConcurrent) && IsFresh(db, p) && maxConcurrent > 0
    ensures Reachable(World(Succeeding(db, p), map[], {}), maxConcurrent)
  {
    NewFeatureIsDeveloped(db, p, maxConcurrent);
    SuccessReaches(With(db, p, Developing, 4, RunningAttempt(p)), p.attempt, p.worker, maxConcurrent);
    SuccessWrites(db, p);
  }

  lemma SuccessWrites(db: Db, p: Plan)
    ensures PersistSuccess(With(db, p, Developing, 4, RunningAttempt(p)), p.attempt, p.worker).db == Succeeding(db, p)
  {
    var developing, done := With(db, p, Developing, 4, RunningAttempt(p)), Succeeding(db, p);
    assert done.features == developing.features[p.feature := RowIn(p, DevelopmentComplete, 5)];
    assert done.attempts == developing.attempts[p.attempt := RunningAttempt(p).(status := Succeeded)];
  }

  function InState(db: Db, p: Plan, state: FeatureState, version: nat): Db {
    SetFeature(db, p.feature, RowIn(p, state, version))
  }

  lemma HandoffStarts(db: Db, p: Plan, maxConcurrent: nat)
    requires Reachable(World(db, map[], {}), maxConcurrent)
    requires p.feature in db.features && db.features[p.feature] == RowIn(p, DevelopmentComplete, 5)
    ensures Reachable(World(InState(db, p, PrCreating, 6), map[], {}), maxConcurrent)
  {
    HandoffStarted(db, p);
    PlainStepReaches(db, map[], DoStartHandoff(p.feature), InState(db, p, PrCreating, 6), maxConcurrent);
  }

  lemma HandoffFails(db: Db, p: Plan, maxConcurrent: nat)
    requires Reachable(World(db, map[], {}), maxConcurrent)
    requires p.feature in db.features && db.features[p.feature] == RowIn(p, DevelopmentComplete, 5)
    ensures Reachable(World(InState(db, p, PrCreationFailed, 7), map[], {}), maxConcurrent)
  {
    var creating := InState(db, p, PrCreating, 6);
    HandoffStarts(db, p, maxConcurrent);
    HandoffFailed(creating, p);
    FailureReaches(creating, p.feature, maxConcurrent);
    assert InState(db, p, PrCreationFailed, 7) == InState(creating, p, PrCreationFailed, 7);
  }

  lemma FailureReaches(db: Db, f: FeatureId, maxConcurrent: nat)
    requires Reachable(World(db, map[], {}), maxConcurrent)
    ensures Reachable(World(FailHandoff(db, f).db, map[], {}), maxConcurrent)
  {
    PlainStepReaches(db, map[], DoFailHandoff(f), FailHandoff(db, f).db, maxConcurrent);
  }

  lemma HandoffStarted(db: Db, p: Plan)
    requires p.feature in db.features && db.features[p.feature] == RowIn(p, DevelopmentComplete, 5)
    ensures StartHandoff(db, p.feature).db == InState(db, p, PrCreating, 6)
  {}

  lemma HandoffFailed(db: Db, p: Plan)
    requires p.feature in db.features && db.features[p.feature] == RowIn(p, PrCreating, 6)
    ensures FailHandoff(db, p.feature).db == InState(db, p, PrCreationFailed, 7)
  {}

  /** The two plans have nothing in common, and neither uses the completion key of the second. */
  predicate AreApart(p: Plan, q: Plan) {
    && p.feature != q.feature && p.approval != q.approval && p.attempt != q.attempt && p.key != q.key
    && CompletionKey(q.feature) != p.key && CompletionKey(q.feature) != q.key
  }

  /**
   * For any two features there is a run, from the empty database, after which
   * two intents share one dedupe key. The first feature fails to get its pull
   * request; the operator retries that under the completion key of the second,
   * which then completes. No index on the outbox is modelled: with the one on
   * keys of pending intents the insert of the second would be refused instead,
   * and its completion undone with it, for as long as the first is pending.
   */
  lemma CollisionIsReachable(p: Plan, q: Plan, maxConcurrent: nat)
    requires maxConcurrent > 0 && AreApart(p, q)
    ensures exists w :: Reachable(w, maxConcurrent) && HasCollision(w.db.outbox)
  {
    InitialIsReachable(maxConcurrent);
    NewFeatureSucceeds(INITIAL.db, p, maxConcurrent);
    HandoffFails(Succeeding(INITIAL.db, p), p, maxConcurrent);
    var failed := InState(Succeeding(INITIAL.db, p), p, PrCreationFailed, 7);
    assert IsFresh(failed, q);
    NewFeatureIsDeveloped(failed, q, maxConcurrent);
    var developing := With(failed, q, Developing, 4, RunningAttempt(q));
    RetryAndSucceed(developing, p, q, maxConcurrent);
  }

  lemma RetryAndSucceed(db: Db, p: Plan, q: Plan, maxConcurrent: nat)
    requires Reachable(World(db, map[], {}), maxConcurrent) && p.feature != q.feature
    requires p.feature in db.features && db.features[p.feature] == RowIn(p, PrCreationFailed, 7)
    requires p.attempt in db.attempts && db.attempts[p.attempt].feature == p.feature
    requires q.feature in db.features && db.features[q.feature] == RowIn(q, Developing, 4)
    requires q.attempt in db.attempts && db.attempts[q.attempt] == RunningAttempt(q)
    requires CompletionKey(q.feature) !in db.records
    ensures exists w :: Reachable(w, maxConcurrent) && HasCollision(w.db.outbox)
  {
    var key := CompletionKey(q.feature);
    var retried := RetryPrCreation(db, p.feature, p.project, p.attempt, key);
    var done := PersistSuccess(retried.db, q.attempt, q.worker);
    RetryPrReaches(db, p.feature, p.project, p.attempt, key, maxConcurrent);
    SuccessReaches(retried.db, q.attempt, q.worker, maxConcurrent);
    BothAreDone(db, p, q);
    RetryKeyCanCollide(db, p.feature, p.attempt, q.attempt, q.worker);
    assert HasCollision(World(done.db, map[], {}).db.outbox);
  }

  lemma BothAreDone(db: Db, p: Plan, q: Plan)
    requires p.feature in db.features && db.features[p.feature] == RowIn(p, PrCreationFailed, 7)
    requires p.attempt in db.attempts && db.attempts[p.attempt].feature == p.feature
    requires p.feature != q.feature && q.feature in db.features && db.features[q.feature] == RowIn(q, Developing, 4)
    requires q.attempt in db.attempts && db.attempts[q.attempt] == RunningAttempt(q)
    requires CompletionKey(q.feature) !in db.records
    ensures var retried := RetryPrCreation(db, p.feature, p.project, p.attempt, CompletionKey(q.feature));
      retried.outcome == Done && PersistSuccess(retried.db, q.attempt, q.worker).outcome == Done
  {}

  lemma RetryPrReaches(db: Db, f: FeatureId, project: ProjectId, a: AttemptId, key: OperationKey, maxConcurrent: nat)
    requires Reachable(World(db, map[], {}), maxConcurrent)
    ensures Reachable(World(RetryPrCreation(db, f, project, a, key).db, map[], {}), maxConcurrent)
  {
    var after := RetryPrCreation(db, f, project, a, key).db;
    PlainStepReaches(db, map[], DoRetryPr(f, project, a, key), after, maxConcurrent);
  }

  lemma SuccessReaches(db: Db, a: AttemptId, w: WorkerId, maxConcurrent: nat)
    requires Reachable(World(db, map[], {}), maxConcurrent)
    ensures Reachable(World(PersistSuccess(db, a, w).db, map[], {}), maxConcurrent)
  {
    PlainStepReaches(db, map[], DoSucceed(a, w), PersistSuccess(db, a, w).db, maxConcurrent);
  }

  // ---------------------------------------------------------------------
  // Cancellations
  // ---------------------------------------------------------------------

  function StartedAttempt(p: Plan, pid: nat): Attempt { RunningAttempt(p).(pid := Some(pid)) }

  function CancellingAttempt(p: Plan, pid: nat): Attempt { StartedAttempt(p, pid).(status := CancelRequested) }

  function TicketOf(p: Plan, identityOk: bool): Ticket {
    Ticket(p.attempt, p.feature, RowIn(p, Developing, 4), !identityOk, Loaded, true)
  }

  /** The world after a new feature was developed and the cancellation of its attempt has begun. */
  function Cancelling(db: Db, p: Plan, pid: nat, identityOk: bool): World {
    World(With(db, p, Developing, 4, CancellingAttempt(p, pid)), map[0 := TicketOf(p, identityOk)], {})
  }

  lemma CancelIsRequested(db: Db, p: Plan, pid: nat, maxConcurrent: nat)
    requires Reachable(World(db, map[], {}), maxConcurrent) && IsFresh(db, p) && maxConcurrent > 0
    ensures Reachable(World(With(db, p, Developing, 4, CancellingAttempt(p, pid)), map[], {}), maxConcurrent)
  {
    ProcessIsStarted(db, p, pid, maxConcurrent);
    var started := With(db, p, Developing, 4, StartedAttempt(p, pid));
    var requested := With(db, p, Developing, 4, CancellingAttempt(p, pid));
    assert requested.attempts == started.attempts[p.attempt := CancellingAttempt(p, pid)];
    PlainStepReaches(started, map[], DoRequestCancel(p.attempt), requested, maxConcurrent);
  }

  lemma ProcessIsStarted(db: Db, p: Plan, pid: nat, maxConcurrent: nat)
    requires Reachable(World(db, map[], {}), maxConcurrent) && IsFresh(db, p) && maxConcurrent > 0
    ensures Reachable(World(With(db, p, Developing, 4, StartedAttempt(p, pid)), map[], {}), maxConcurrent)
  {
    NewFeatureIsDeveloped(db, p, maxConcurrent);
    var developing := With(db, p, Developing, 4, RunningAttempt(p));
    var started := With(db, p, Developing, 4, StartedAttempt(p, pid));
    assert started.attempts == developing.attempts[p.attempt := StartedAttempt(p, pid)];
    PlainStepReaches(developing, map[], DoPersistIdentity(p.attempt, p.worker, pid, p.lease), started, maxConcurrent);
  }

  lemma CancellationBegins(db: Db, p: Plan, pid: nat, identityOk: bool, maxConcurrent: nat)
    requires Reachable(World(db, map[], {}), maxConcurrent) && IsFresh(db, p) && maxConcurrent > 0
    ensures Reachable(Cancelling(db, p, pid, identityOk), maxConcurrent)
  {
    CancelIsRequested(db, p, pid, maxConcurrent);
    var requested := World(With(db, p, Developing, 4, CancellingAttempt(p, pid)), map[], {});
    var s := DoBeginCancel(0, p.attempt, p.worker, identityOk);
    StepReaches(requested, s, maxConcurrent);
    var next := Next(requested, s, maxConcurrent);
    assert next.db.attempts == requested.db.attempts;
    assert next.cancels == map[0 := TicketOf(p, identityOk)];
    assert next == Cancelling(db, p, pid, identityOk);
  }

  /** The world after the first final write, when the worker has died. */
  function HalfCancelled(db: Db, p: Plan, pid: nat, alive: bool): World {
    World(With(db, p, DevelopmentCancelled, 5, CancellingAttempt(p, pid)),
          map[0 := TicketOf(p, true).(stage := Swapped, alive := alive)], {p.attempt})
  }

  lemma WorkerDiesInBetween(db: Db, p: Plan, pid: nat, maxConcurrent: nat)
    requires Reachable(World(db, map[], {}), maxConcurrent) && IsFresh(db, p) && maxConcurrent > 0
    ensures Reachable(HalfCancelled(db, p, pid, false), maxConcurrent)
  {
    CancellationBegins(db, p, pid, true, maxConcurrent);
    FirstWriteLands(db, p, pid, maxConcurrent);
    var swapped, died := HalfCancelled(db, p, pid, true), HalfCancelled(db, p, pid, false);
    StepReaches(swapped, DoAbandonCancel(0), maxConcurrent);
    var next := Next(swapped, DoAbandonCancel(0), maxConcurrent);
    assert next.cancels == died.cancels && next.left == died.left;
  }

  lemma FirstWriteLands(db: Db, p: Plan, pid: nat, maxConcurrent: nat)
    requires Reachable(Cancelling(db, p, pid, true), maxConcurrent) && IsFresh(db, p)
    ensures Reachable(HalfCancelled(db, p, pid, true), maxConcurrent)
  {
    var begun, swapped := Cancelling(db, p, pid, true), HalfCancelled(db, p, pid, true);
    SwapMoves(begun.db, p);
    assert InState(begun.db, p, DevelopmentCancelled, 5).features == swapped.db.features;
    assert InState(begun.db, p, DevelopmentCancelled, 5) == swapped.db;
    assert begun.cancels[0 := TicketOf(p, true).(stage := Swapped)] == swapped.cancels;
    OnlyItIsLive(db, p, pid);
    SwapReaches(begun, swapped.db, maxConcurrent);
  }

  lemma OnlyItIsLive(db: Db, p: Plan, pid: nat)
    requires IsFresh(db, p)
    ensures LiveOf(Cancelling(db, p, pid, true).db, p.feature) == {p.attempt}
    ensures StillLive(HalfCancelled(db, p, pid, true).db, {} + {p.attempt}) == {p.attempt}
  {
    assert {} + {p.attempt} == {p.attempt};
  }

  lemma SwapReaches(w: World, after: Db, maxConcurrent: nat)
    requires Reachable(w, maxConcurrent) && Enabled(w, DoSwapCancel(0), maxConcurrent)
    requires SwapCancel(w.db, w.cancels[0]) == Effect(after, Done)
    ensures var t := w.cancels[0];
      Reachable(World(after, w.cancels[0 := t.(stage := Swapped)], StillLive(after, w.left + LiveOf(w.db, t.feature))),
                maxConcurrent)
  {
    StepReaches(w, DoSwapCancel(0), maxConcurrent);
  }

  lemma SwapMoves(db: Db, p: Plan)
    requires p.feature in db.features && db.features[p.feature] == RowIn(p, Developing, 4)
    ensures SwapCancel(db, TicketOf(p, true)) == Effect(InState(db, p, DevelopmentCancelled, 5), Done)
  {}

  /** A plain step while one attempt is left behind. */
  lemma LeavingStepReaches(db: Db, cancels: map<nat, Ticket>, a: AttemptId, s: Step, after: Db, maxConcurrent: nat)
    requires Reachable(World(db, cancels, {a}), maxConcurrent) && IsPlain(s)
    requires Enabled(World(db, cancels, {a}), s, maxConcurrent)
    requires Write(World(db, cancels, {a}), s, maxConcurrent).db == after
    requires a in after.attempts && IsLive(after.attempts[a].status)
    ensures Reachable(World(after, cancels, {a}), maxConcurrent)
  {
    StepReaches(World(db, cancels, {a}), s, maxConcurrent);
    assert StillLive(after, {a}) == {a};
  }

  /** A second attempt of the feature waits in the queue, and the one left behind is as it was in `db`. */
  predicate HasSecond(w: World, db: Db, a: AttemptId, r: ApproveRequest) {
    && w.left == {a} && a in w.db.attempts && a in db.attempts && w.db.attempts[a] == db.attempts[a]
    && r.attempt in w.db.attempts && w.db.attempts[r.attempt].feature == r.feature
    && w.db.attempts[r.attempt].status == AttemptQueued
  }

  ghost predicate HasTwoLive(w: World, f: FeatureId) {
    exists a, b :: a != b && IsLiveOf(w.db, a, f) && IsLiveOf(w.db, b, f)
  }

  /** The feature is taken through invalidation, attachment and approval to a second attempt. */
  lemma SecondAttemptIsQueued(db: Db, cancels: map<nat, Ticket>, p: Plan, r: ApproveRequest, maxConcurrent: nat)
    requires Reachable(World(db, cancels, {p.attempt}), maxConcurrent)
    requires p.feature in db.features && db.features[p.feature] == RowIn(p, DevelopmentCancelled, 5)
    requires p.attempt in db.attempts && IsLive(db.attempts[p.attempt].status)
    requires p.approval in db.approvals && db.approvals[p.approval] == Approval(p.project, p.feature, true)
    requires forall q :: IsActiveApprovalOf(db, q, p.feature) ==> q == p.approval
    requires r == Request(p).(approval := r.approval, attempt := r.attempt, key := r.key)
    requires r.approval !in db.approvals && r.attempt !in db.attempts && r.key !in db.records
    ensures exists w :: Reachable(w, maxConcurrent) && w.cancels == cancels && HasSecond(w, db, p.attempt, r)
  {
    var invalidated := Invalidating(db, p.approval);
    var attached := SetFeature(invalidated, p.feature, RowIn(p, TasksReview, 7));
    var queued := ApproveAndQueue(attached, r).db;
    InvalidationReaches(db, cancels, p, maxConcurrent);
    assert forall q :: IsActiveApprovalOf(invalidated, q, p.feature) ==>
      IsActiveApprovalOf(db, q, p.feature) && q != p.approval;
    AttachmentReaches(invalidated, cancels, p, maxConcurrent);
    ApprovalQueues(attached, p, r);
    ApprovalReaches(attached, cancels, p.attempt, r, maxConcurrent);
    assert HasSecond(World(queued, cancels, {p.attempt}), db, p.attempt, r);
  }

  lemma ApprovalQueues(db: Db, p: Plan, r: ApproveRequest)
    requires p.feature in db.features && db.features[p.feature] == RowIn(p, TasksReview, 7)
    requires r == Request(p).(approval := r.approval, attempt := r.attempt, key := r.key)
    requires r.approval !in db.approvals && r.attempt !in db.attempts && r.key !in db.records
    ensures var after := ApproveAndQueue(db, r).db;
      && r.attempt in after.attempts && after.attempts == db.attempts[r.attempt := after.attempts[r.attempt]]
      && after.attempts[r.attempt].feature == p.feature && after.attempts[r.attempt].status == AttemptQueued
  {}

  lemma ApprovalReaches(db: Db, cancels: map<nat, Ticket>, a: AttemptId, r: ApproveRequest, maxConcurrent: nat)
    requires Reachable(World(db, cancels, {a}), maxConcurrent)
    requires r.approval !in db.approvals && r.attempt !in db.attempts
    requires a in ApproveAndQueue(db, r).db.attempts && IsLive(ApproveAndQueue(db, r).db.attempts[a].status)
    ensures Reachable(World(ApproveAndQueue(db, r).db, cancels, {a}), maxConcurrent)
  {
    LeavingStepReaches(db, cancels, a, DoApprove(r), ApproveAndQueue(db, r).db, maxConcurrent);
  }

  lemma InvalidationReaches(db: Db, cancels: map<nat, Ticket>, p: Plan, maxConcurrent: nat)
    requires Reachable(World(db, cancels, {p.attempt}), maxConcurrent)
    requires p.feature in db.features && db.features[p.feature] == RowIn(p, DevelopmentCancelled, 5)
    requires p.attempt in db.attempts && IsLive(db.attempts[p.attempt].status)
    requires IsActiveApprovalOf(db, p.approval, p.feature)
    ensures Reachable(World(Invalidating(db, p.approval), cancels, {p.attempt}), maxConcurrent)
  {
    var s := DoInvalidate(p.feature, None, p.approval);
    LeavingStepReaches(db, cancels, p.attempt, s, Invalidating(db, p.approval), maxConcurrent);
  }

  lemma AttachmentReaches(db: Db, cancels: map<nat, Ticket>, p: Plan, maxConcurrent: nat)
    requires Reachable(World(db, cancels, {p.attempt}), maxConcurrent)
    requires p.feature in db.features && db.features[p.feature] == RowIn(p, DevelopmentCancelled, 5)
    requires p.attempt in db.attempts && IsLive(db.attempts[p.attempt].status) && !HasActiveApproval(db, p.feature)
    ensures Reachable(World(SetFeature(db, p.feature, RowIn(p, TasksReview, 7)), cancels, {p.attempt}), maxConcurrent)
  {
    var attached := SetFeature(db, p.feature, RowIn(p, TasksReview, 7));
    LeavingStepReaches(db, cancels, p.attempt, DoAttach(p.feature, p.path, true), attached, maxConcurrent);
  }

  /**
   * There is a run after which a feature has two live attempts, one that waits
   * to be cancelled and a new one in the queue. The worker died between the two
   * final writes of the cancellation, and no cancellation is at work any more.
   */
  lemma CrashLeavesTwoLiveAttempts(p: Plan, pid: nat, r: ApproveRequest, maxConcurrent: nat)
    requires maxConcurrent > 0 && r == Request(p).(approval := r.approval, attempt := r.attempt, key := r.key)
    requires r.approval != p.approval && r.attempt != p.attempt && r.key != p.key
    ensures exists w :: Reachable(w, maxConcurrent) && IsAbandoned(w, p.attempt) && HasTwoLive(w, p.feature)
  {
    InitialIsReachable(maxConcurrent);
    WorkerDiesInBetween(INITIAL.db, p, pid, maxConcurrent);
    var died := HalfCancelled(INITIAL.db, p, pid, false);
    SecondAttemptIsQueued(died.db, died.cancels, p, r, maxConcurrent);
    var w :| Reachable(w, maxConcurrent) && w.cancels == died.cancels && HasSecond(w, died.db, p.attempt, r);
    assert IsAbandoned(w, p.attempt);
    assert IsLiveOf(w.db, p.attempt, p.feature) && IsLiveOf(w.db, r.attempt, p.feature);
  }

  /** The second write of cancellation `id` is to come, and turns INTERRUPTED into FAILED. */
  ghost predicate RewritesInterrupted(w: World, id: nat, maxConcurrent: nat) {
    && Enabled(w, DoCloseCancel(id), maxConcurrent)
    && var a := w.cancels[id].attempt;
    && a in w.db.attempts && w.db.attempts[a].status == Interrupted
    && Next(w, DoCloseCancel(id), maxConcurrent).db.attempts[a].status == Failed
  }

  /**
   * There is a run after which a further step changes the status of a closed
   * attempt: the cancellation found its process replaced, the attempt was
   * interrupted, and the late write calls it failed.
   */
  lemma LateBlockRewritesInterrupted(p: Plan, pid: nat, maxConcurrent: nat)
    requires maxConcurrent > 0
    ensures exists w :: Reachable(w, maxConcurrent) && RewritesInterrupted(w, 0, maxConcurrent)
  {
    InitialIsReachable(maxConcurrent);
    InterruptionReaches(p, pid, maxConcurrent);
    InterruptionChangesTheRow(p, pid);
    FirstWriteMisses(World(InterruptedDb(p, pid), map[0 := TicketOf(p, false)], {}), maxConcurrent);
    LateBlockIsToCome(p, pid, maxConcurrent);
  }

  lemma InterruptionChangesTheRow(p: Plan, pid: nat)
    ensures SwapCancel(InterruptedDb(p, pid), TicketOf(p, false)).outcome == Refused(RowChanged)
  {}

  lemma LateBlockIsToCome(p: Plan, pid: nat, maxConcurrent: nat)
    ensures var w := World(InterruptedDb(p, pid), map[0 := TicketOf(p, false).(stage := Missed)], {});
      RewritesInterrupted(w, 0, maxConcurrent)
  {}

  function InterruptedDb(p: Plan, pid: nat): Db {
    With(INITIAL.db, p, DevelopmentInterrupted, 5, CancellingAttempt(p, pid).(status := Interrupted))
  }

  lemma InterruptionReaches(p: Plan, pid: nat, maxConcurrent: nat)
    requires Reachable(INITIAL, maxConcurrent) && maxConcurrent > 0
    ensures Reachable(World(InterruptedDb(p, pid), map[0 := TicketOf(p, false)], {}), maxConcurrent)
  {
    CancellationBegins(INITIAL.db, p, pid, false, maxConcurrent);
    var begun, interrupted := Cancelling(INITIAL.db, p, pid, false), InterruptedDb(p, pid);
    assert interrupted.features == begun.db.features[p.feature := RowIn(p, DevelopmentInterrupted, 5)];
    assert interrupted.attempts == begun.db.attempts[p.attempt := interrupted.attempts[p.attempt]];
    PlainStepReaches(begun.db, begun.cancels, DoReconcile(p.attempt, p.lease + 1), interrupted, maxConcurrent);
  }

  lemma FirstWriteMisses(w: World, maxConcurrent: nat)
    requires Reachable(w, maxConcurrent) && w.left == {} && w.cancels.Keys == {0}
    requires Enabled(w, DoSwapCancel(0), maxConcurrent) && w.cancels[0].replaced
    requires SwapCancel(w.db, w.cancels[0]).outcome == Refused(RowChanged)
    ensures Reachable(World(w.db, map[0 := w.cancels[0].(stage := Missed)], {}), maxConcurrent)
  {
    StepReaches(w, DoSwapCancel(0), maxConcurrent);
    var next := Next(w, DoSwapCancel(0), maxConcurrent);
    assert next.db == w.db && next.left == {};
    assert next.cancels == map[0 := w.cancels[0].(stage := Missed)];
  }
}
