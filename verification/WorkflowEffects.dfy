// Who writes what, and exactly when: for every column of the stored rows, the
// circumstances in which a step of a run changes it, told from the rows before.
module WorkflowEffects {
  import opened Wrappers
  import opened FeatureStateMachine
  import opened Workflow
  import opened WorkflowSafety
  import opened WorkflowInvariant

  // ---------------------------------------------------------------------
  // The circumstances in which a step takes effect on a feature
  // ---------------------------------------------------------------------

  ghost predicate Attaches(db: Db, s: Step, f: FeatureId) {
    && s.DoAttach? && s.f == f && f in db.features && s.parses
    && var state := db.features[f].state;
       state == Planned || state == TasksReview || (IsReattachState(state) && HasNoActiveApproval(db, f))
  }

  ghost predicate HasNoActiveApproval(db: Db, f: FeatureId) {
    forall p :: p in db.approvals && db.approvals[p].feature == f ==> !db.approvals[p].active
  }

  predicate Removes(db: Db, s: Step, f: FeatureId) {
    s.DoRemove? && s.f == f && f in db.features && db.features[f].state == TasksReview
  }

  /** An approval queues only a feature in review whose task parses and has the checksum that was reviewed. */
  predicate Approves(db: Db, s: Step, f: FeatureId) {
    && s.DoApprove? && s.approve.feature == f && f in db.features && s.approve.key !in db.records
    && (s.approve.project.Some? ==> s.approve.project.value == db.features[f].project)
    && db.features[f].state == TasksReview && db.features[f].taskPath.Some?
    && s.approve.parses && s.approve.checksumMatches
  }

  predicate Replaces(db: Db, s: Step, f: FeatureId) {
    && s.DoReplace? && s.replace.feature == f && f in db.features && s.replace.key !in db.records
    && s.replace.project == db.features[f].project && IsReattachState(db.features[f].state) && s.replace.parses
    && IsApprovedUnder(db, s.replace.approval, f, s.replace.project)
  }

  predicate IsApprovedUnder(db: Db, p: ApprovalId, f: FeatureId, project: ProjectId) {
    && p in db.approvals && db.approvals[p].active
    && db.approvals[p].feature == f && db.approvals[p].project == project
  }

  /** No attempt of the feature was queued later; of those queued at one time it has the greatest id. */
  ghost predicate IsNewest(db: Db, a: AttemptId, f: FeatureId) {
    && a in db.attempts && db.attempts[a].feature == f
    && forall b :: b in db.attempts && db.attempts[b].feature == f ==>
         db.attempts[b].enqueuedAt < db.attempts[a].enqueuedAt
         || (db.attempts[b].enqueuedAt == db.attempts[a].enqueuedAt && b <= a)
  }

  /** The attempt is over without success, and its process, if it had one, is gone. */
  predicate CanBeRetried(t: Attempt, alive: bool) {
    && (t.status == Failed || t.status == Interrupted || t.status == Cancelled)
    && (t.pid == None || !alive)
  }

  ghost predicate Retries(db: Db, s: Step, f: FeatureId) {
    && s.DoRetry? && s.retry.feature == f && f in db.features && s.retry.key !in db.records
    && s.retry.project == db.features[f].project && IsReattachState(db.features[f].state)
    && IsApprovedUnder(db, s.retry.approval, f, s.retry.project)
    && s.latest.Some? && IsNewest(db, s.latest.value, f) && CanBeRetried(db.attempts[s.latest.value], s.alive)
    && db.attempts[s.latest.value].branch == db.features[f].branch && s.retry.branch == db.features[f].branch
  }

  /** The worker holds the attempt: it claimed it, and nobody has asked to cancel it. */
  predicate Holds(db: Db, a: AttemptId, w: WorkerId) {
    a in db.attempts && db.attempts[a].status == Running && db.attempts[a].worker == Some(w)
  }

  predicate IsOf(db: Db, a: AttemptId, f: FeatureId, state: FeatureState) {
    a in db.attempts && db.attempts[a].feature == f && f in db.features && db.features[f].state == state
  }

  predicate Develops(db: Db, s: Step, f: FeatureId) {
    s.DoMarkDeveloping? && Holds(db, s.a, s.w) && IsOf(db, s.a, f, Queued)
  }

  predicate Completes(db: Db, s: Step, f: FeatureId) {
    s.DoSucceed? && Holds(db, s.a, s.w) && IsOf(db, s.a, f, Developing)
  }

  predicate Fails(db: Db, s: Step, f: FeatureId) {
    s.DoFail? && !s.blocks && Holds(db, s.a, s.w) && IsOf(db, s.a, f, Developing)
  }

  /** A preflight failure blocks in any state: a held attempt's feature is never merged. */
  predicate Blocks(db: Db, s: Step, f: FeatureId) {
    s.DoFail? && s.blocks && Holds(db, s.a, s.w) && db.attempts[s.a].feature == f && f in db.features
  }

  predicate CancelsQueued(db: Db, s: Step, f: FeatureId) {
    s.DoCancelQueued? && IsOf(db, s.a, f, Queued) && db.attempts[s.a].status == AttemptQueued
  }

  predicate Interrupts(db: Db, s: Step, f: FeatureId) {
    && s.DoReconcile? && IsOf(db, s.a, f, Developing) && IsActive(db.attempts[s.a].status)
    && db.attempts[s.a].lease.Some? && db.attempts[s.a].lease.value < s.observedAt
  }

  /** The cancellation finds the row that it loaded, in development or its process replaced. */
  predicate Swaps(w: World, s: Step, f: FeatureId) {
    && s.DoSwapCancel? && s.id in w.cancels && w.cancels[s.id].feature == f && f in w.db.features
    && var t, row := w.cancels[s.id], w.db.features[f];
       && row.state == t.row.state && row.version == t.row.version
       && (if t.replaced then row.state != DevelopmentMerged else row.state == Developing)
  }

  predicate Hands(db: Db, s: Step, f: FeatureId) {
    && f in db.features
    && match s
       case DoStartHandoff(g) => g == f && db.features[f].state == DevelopmentComplete
       case DoFinishHandoff(g) => g == f && db.features[f].state == PrCreating
       case DoFailHandoff(g) => g == f && db.features[f].state == PrCreating
       case _ => false
  }

  predicate RetriesPr(db: Db, s: Step, f: FeatureId) {
    && s.DoRetryPr? && s.f == f && s.key !in db.records
    && IsOf(db, s.a, f, PrCreationFailed) && db.features[f].project == s.project
  }

  predicate Polls(db: Db, s: Step, f: FeatureId) {
    && s.DoPoll? && s.f == f && f in db.features && s.target != db.features[f].state
    && IsPullRequestState(db.features[f].state) && db.features[f].state != DevelopmentMerged
    && (s.target == Blocked || IsAllowed(db.features[f].state, s.target, Poller))
  }

  // ---------------------------------------------------------------------
  // Features
  // ---------------------------------------------------------------------

  /** The step's circumstances hold for the feature: its row is written. */
  ghost predicate Touches(w: World, s: Step, f: FeatureId) {
    match s
    case DoAttach(_, _, _) => Attaches(w.db, s, f)
    case DoRemove(_) => Removes(w.db, s, f)
    case DoApprove(_) => Approves(w.db, s, f)
    case DoReplace(_) => Replaces(w.db, s, f)
    case DoRetry(_, _, _) => Retries(w.db, s, f)
    case DoMarkDeveloping(_, _) => Develops(w.db, s, f)
    case DoSucceed(_, _) => Completes(w.db, s, f)
    case DoFail(_, _, _) => Fails(w.db, s, f) || Blocks(w.db, s, f)
    case DoCancelQueued(_) => CancelsQueued(w.db, s, f)
    case DoReconcile(_, _) => Interrupts(w.db, s, f)
    case DoSwapCancel(_) => Swaps(w, s, f)
    case DoRetryPr(_, _, _, _) => RetriesPr(w.db, s, f)
    case DoPoll(_, _) => Polls(w.db, s, f)
    case _ => Hands(w.db, s, f)
  }

  /** The state to which a step leads the features it touches. */
  function Target(w: World, s: Step, state: FeatureState): FeatureState {
    match s
    case DoAttach(_, _, _) | DoReplace(_) => TasksReview
    case DoRemove(_) => Planned
    case DoApprove(_) | DoRetry(_, _, _) => Queued
    case DoMarkDeveloping(_, _) => Developing
    case DoSucceed(_, _) => DevelopmentComplete
    case DoFail(_, _, blocks) => if blocks then Blocked else DevelopmentFailed
    case DoReconcile(_, _) => DevelopmentInterrupted
    case DoCancelQueued(_) => DevelopmentCancelled
    case DoSwapCancel(id) => if id in w.cancels && w.cancels[id].replaced then Blocked else DevelopmentCancelled
    case DoStartHandoff(_) | DoRetryPr(_, _, _, _) => PrCreating
    case DoFinishHandoff(_) => CiRunning
    case DoFailHandoff(_) => PrCreationFailed
    case DoPoll(_, target) => target
    case _ => state
  }

  ghost function StateAfter(w: World, s: Step, f: FeatureId): FeatureState
    requires f in w.db.features
  {
    if Touches(w, s, f) then Target(w, s, w.db.features[f].state) else w.db.features[f].state
  }

  /** How often a step writes the row; attaching anew goes by way of PLANNED. */
  ghost function Writes(w: World, s: Step, f: FeatureId): nat
    requires f in w.db.features
  {
    if !Touches(w, s, f) then 0 else if s.DoAttach? && IsReattachState(w.db.features[f].state) then 2 else 1
  }

  ghost function PathAfter(w: World, s: Step, f: FeatureId): Option<string>
    requires f in w.db.features
  {
    if !Touches(w, s, f) then w.db.features[f].taskPath
    else
      match s
      case DoAttach(_, path, _) => Some(path)
      case DoReplace(r) => Some(r.path)
      case DoRemove(_) => None
      case _ => w.db.features[f].taskPath
  }

  ghost function RowAfter(w: World, s: Step, f: FeatureId): Feature
    requires f in w.db.features
  {
    var row := w.db.features[f];
    Feature(row.project, StateAfter(w, s, f), row.version + Writes(w, s, f), PathAfter(w, s, f), row.branch)
  }

  /** The feature's row after the step is the one told from the rows before. */
  ghost predicate WritesRowSo(w: World, s: Step, maxConcurrent: nat, f: FeatureId)
    requires Enabled(w, s, maxConcurrent) && f in w.db.features
  {
    var after := Write(w, s, maxConcurrent).db; f in after.features && after.features[f] == RowAfter(w, s, f)
  }

  /**
   * What any step of any writer does to any feature: its state, its version and
   * its task change in the listed circumstances and in no others; its project and
   * branch never do.
   */
  lemma FeatureRowsChangeSo(w: World, s: Step, maxConcurrent: nat, f: FeatureId)
    requires Inv(w) && Enabled(w, s, maxConcurrent) && f in w.db.features
    ensures f in Next(w, s, maxConcurrent).db.features
    ensures Next(w, s, maxConcurrent).db.features[f] == RowAfter(w, s, f)
  {
    if IsTaskStep(s) {
      TaskStepsWriteSo(w, s, maxConcurrent, f);
    } else if IsAttemptStep(s) {
      AttemptStepsWriteSo(w, s, maxConcurrent, f);
    } else {
      OtherStepsWriteSo(w, s, maxConcurrent, f);
    }
  }

  lemma TaskStepsWriteSo(w: World, s: Step, maxConcurrent: nat, f: FeatureId)
    requires IsTaskStep(s) && Enabled(w, s, maxConcurrent) && f in w.db.features
    ensures WritesRowSo(w, s, maxConcurrent, f)
  {
    match s
    case DoAttach(_, _, _) => AttachingWritesSo(w, s, maxConcurrent, f);
    case DoReplace(_) => ReplacingWritesSo(w, s, maxConcurrent, f);
    case DoApprove(_) => ApprovingWritesSo(w, s, maxConcurrent, f);
    case DoRetry(_, _, _) => RetryingWritesSo(w, s, maxConcurrent, f);
    case _ => RemovingWritesSo(w, s, maxConcurrent, f);
  }

  lemma AttachingWritesSo(w: World, s: Step, maxConcurrent: nat, f: FeatureId)
    requires s.DoAttach? && Enabled(w, s, maxConcurrent) && f in w.db.features
    ensures WritesRowSo(w, s, maxConcurrent, f)
  {
    assert HasNoActiveApproval(w.db, f) <==> !HasActiveApproval(w.db, f);
  }

  lemma ReplacingWritesSo(w: World, s: Step, maxConcurrent: nat, f: FeatureId)
    requires s.DoReplace? && Enabled(w, s, maxConcurrent) && f in w.db.features
    ensures WritesRowSo(w, s, maxConcurrent, f)
  {}

  lemma ApprovingWritesSo(w: World, s: Step, maxConcurrent: nat, f: FeatureId)
    requires s.DoApprove? && Enabled(w, s, maxConcurrent) && f in w.db.features
    ensures WritesRowSo(w, s, maxConcurrent, f)
  {}

  lemma RemovingWritesSo(w: World, s: Step, maxConcurrent: nat, f: FeatureId)
    requires s.DoRemove? || s.DoInvalidate? || s.DoCreateFeature?
    requires Enabled(w, s, maxConcurrent) && f in w.db.features
    ensures WritesRowSo(w, s, maxConcurrent, f)
  {}

  /** The attempt that the database offers as the feature's newest is. */
  lemma OfferedIsNewest(w: World, s: Step, maxConcurrent: nat)
    requires Enabled(w, s, maxConcurrent) && s.DoRetry? && s.latest.Some?
    ensures IsNewest(w.db, s.latest.value, s.retry.feature)
  {
    assert IsLatest(w.db, s.latest.value, s.retry.feature);
  }

  lemma RetryingWritesSo(w: World, s: Step, maxConcurrent: nat, f: FeatureId)
    requires s.DoRetry? && Enabled(w, s, maxConcurrent) && f in w.db.features
    ensures WritesRowSo(w, s, maxConcurrent, f)
  {
    if s.latest.Some? { OfferedIsNewest(w, s, maxConcurrent); }
    RetriedRowIs(w, s.retry, s.latest, s.alive, f);
  }

  lemma RetriedRowIs(w: World, r: RetryRequest, latest: Option<AttemptId>, alive: bool, f: FeatureId)
    requires f in w.db.features && r.attempt !in w.db.attempts
    requires latest.Some? ==> IsNewest(w.db, latest.value, r.feature)
    ensures var after := Retry(w.db, r, latest, alive).db.features;
      f in after && after[f] == RowAfter(w, DoRetry(r, latest, alive), f)
  {}

  lemma AttemptStepsWriteSo(w: World, s: Step, maxConcurrent: nat, f: FeatureId)
    requires Inv(w) && IsAttemptStep(s) && Enabled(w, s, maxConcurrent) && f in w.db.features
    ensures WritesRowSo(w, s, maxConcurrent, f)
  {
    match s
    case DoMarkDeveloping(_, _) | DoCancelQueued(_) | DoReconcile(_, _) => MovingWritesSo(w, s, maxConcurrent, f);
    case DoSucceed(_, _) => CompletingWritesSo(w, s, maxConcurrent, f);
    case DoFail(_, _, _) => FailingWritesSo(w, s, maxConcurrent, f);
    case _ => RelabellingWritesSo(w, s, maxConcurrent, f);
  }

  predicate IsPlainMove(s: Step) { s.DoMarkDeveloping? || s.DoCancelQueued? || s.DoReconcile? }

  function StatusOf(s: Step): AttemptStatus
    requires IsPlainMove(s)
  {
    if s.DoMarkDeveloping? then Running else if s.DoCancelQueued? then Cancelled else Interrupted
  }

  /** The attempt and its feature are written together, or neither is. */
  ghost predicate IsMoveOf(w: World, s: Step, after: Db)
    requires IsPlainMove(s)
  {
    if s.a in w.db.attempts && Touches(w, s, w.db.attempts[s.a].feature) then
      var row := w.db.features[w.db.attempts[s.a].feature];
      after == Closing(w.db, s.a, row.(state := Target(w, s, row.state), version := row.version + 1), StatusOf(s))
    else after == w.db
  }

  lemma MoveIs(w: World, s: Step, maxConcurrent: nat)
    requires IsPlainMove(s) && Enabled(w, s, maxConcurrent)
    ensures IsMoveOf(w, s, Write(w, s, maxConcurrent).db)
  {
    match s
    case DoMarkDeveloping(a, worker) => DevelopingIs(w, a, worker);
    case DoCancelQueued(a) => CancellingIs(w, a);
    case DoReconcile(a, observedAt) => InterruptingIs(w, a, observedAt);
  }

  /** The states from which the table lets the attempts' writers move. */
  lemma MovesLeadFrom(state: FeatureState)
    ensures IsAllowed(state, Developing, Worker) <==> state == Queued
    ensures IsAllowed(state, DevelopmentCancelled, Human) <==> state == Queued
    ensures IsAllowed(state, DevelopmentInterrupted, Reconciliation) <==> state == Developing
    ensures IsAllowed(state, DevelopmentFailed, Worker) <==> state == Developing
    ensures IsAllowed(state, Blocked, Guard) <==> state != DevelopmentMerged
  {}

  /** The attempt's feature is moved and the attempt written, if the table lets it. */
  lemma MoveAndSetIs(db: Db, a: AttemptId, to: FeatureState, owner: TransitionOwner, s: AttemptStatus)
    requires a in db.attempts
    ensures var f := db.attempts[a].feature;
      MoveAndSet(db, a, to, owner, s).db ==
      if f in db.features && IsAllowed(db.features[f].state, to, owner)
      then Closing(db, a, db.features[f].(state := to, version := db.features[f].version + 1), s) else db
  {}

  lemma DevelopingIs(w: World, a: AttemptId, worker: WorkerId)
    ensures IsMoveOf(w, DoMarkDeveloping(a, worker), MarkDeveloping(w.db, a, worker).db)
  {}

  lemma CancellingIs(w: World, a: AttemptId)
    ensures IsMoveOf(w, DoCancelQueued(a), CancelQueued(w.db, a).db)
  {}

  lemma InterruptingIs(w: World, a: AttemptId, observedAt: Time)
    ensures IsMoveOf(w, DoReconcile(a, observedAt), ReconcileOrphan(w.db, a, observedAt).db)
  {}

  lemma MovingWritesSo(w: World, s: Step, maxConcurrent: nat, f: FeatureId)
    requires IsPlainMove(s) && Enabled(w, s, maxConcurrent) && f in w.db.features
    ensures WritesRowSo(w, s, maxConcurrent, f)
  {
    MoveIs(w, s, maxConcurrent);
  }

  /** A completion writes the attempt, its feature and an intent together, or nothing. */
  ghost predicate IsCompletionOf(w: World, a: AttemptId, worker: WorkerId, after: Db) {
    var s := DoSucceed(a, worker);
    if a in w.db.attempts && Completes(w.db, s, w.db.attempts[a].feature) then
      var row := w.db.features[w.db.attempts[a].feature];
      var moved := Closing(w.db, a, row.(state := DevelopmentComplete, version := row.version + 1), Succeeded);
      after == moved.(outbox := w.db.outbox + Intended(w.db, s))
    else after == w.db
  }

  lemma CompletingIs(w: World, a: AttemptId, worker: WorkerId)
    ensures IsCompletionOf(w, a, worker, PersistSuccess(w.db, a, worker).db)
  {}

  lemma CompletingWritesSo(w: World, s: Step, maxConcurrent: nat, f: FeatureId)
    requires s.DoSucceed? && Enabled(w, s, maxConcurrent) && f in w.db.features
    ensures WritesRowSo(w, s, maxConcurrent, f)
  {
    CompletingIs(w, s.a, s.w);
    CompletionRowsAre(w, s.a, s.w, PersistSuccess(w.db, s.a, s.w).db, f);
  }

  lemma CompletionRowsAre(w: World, a: AttemptId, worker: WorkerId, after: Db, f: FeatureId)
    requires IsCompletionOf(w, a, worker, after) && f in w.db.features
    ensures f in after.features && after.features[f] == RowAfter(w, DoSucceed(a, worker), f)
  {}

  lemma RelabellingWritesSo(w: World, s: Step, maxConcurrent: nat, f: FeatureId)
    requires (IsRelabelStep(s) || s.DoClaim?) && Enabled(w, s, maxConcurrent) && f in w.db.features
    ensures WritesRowSo(w, s, maxConcurrent, f)
  {}

  /** The feature of an attempt that a worker holds is in development or blocked. */
  lemma HeldIsNotMerged(w: World, a: AttemptId)
    requires Inv(w) && a in w.db.attempts && w.db.attempts[a].status == Running
    ensures w.db.attempts[a].feature in w.db.features
    ensures w.db.features[w.db.attempts[a].feature].state != DevelopmentMerged
  {
    assert LinkedAttempt(w.db, a);
    var f := w.db.attempts[a].feature;
    if a in w.left {
      LeftIsBlockedOrWaiting(w.db, w.left, a);
    } else {
      assert CoupledAt(Attached(w.db, w.left), f);
      assert IsLiveOf(Attached(w.db, w.left), a, f);
    }
  }

  /** What a failure writes: the held attempt is closed, and its feature blocked, or failed if it is developing. */
  lemma FailureIs(w: World, s: Step, maxConcurrent: nat)
    requires Inv(w) && s.DoFail? && Enabled(w, s, maxConcurrent)
    ensures var db, after := w.db, Write(w, s, maxConcurrent).db;
      if Holds(db, s.a, s.w) && IsTouchedByFailure(db, s) then
        var row := db.features[db.attempts[s.a].feature];
        after == Closing(db, s.a, row.(state := Target(w, s, row.state), version := row.version + 1), Failed)
      else after == db
  {
    if Holds(w.db, s.a, s.w) {
      HeldIsNotMerged(w, s.a);
      MoveAndSetIs(w.db, s.a, Blocked, Guard, Failed);
      MoveAndSetIs(w.db, s.a, DevelopmentFailed, Worker, Failed);
      MovesLeadFrom(w.db.features[w.db.attempts[s.a].feature].state);
    }
  }

  predicate IsTouchedByFailure(db: Db, s: Step)
    requires s.DoFail? && s.a in db.attempts
  {
    && db.attempts[s.a].feature in db.features
    && (s.blocks || db.features[db.attempts[s.a].feature].state == Developing)
  }

  lemma FailingWritesSo(w: World, s: Step, maxConcurrent: nat, f: FeatureId)
    requires Inv(w) && s.DoFail? && Enabled(w, s, maxConcurrent) && f in w.db.features
    ensures WritesRowSo(w, s, maxConcurrent, f)
  {
    FailureIs(w, s, maxConcurrent);
  }

  lemma OtherStepsWriteSo(w: World, s: Step, maxConcurrent: nat, f: FeatureId)
    requires !IsTaskStep(s) && !IsAttemptStep(s) && Enabled(w, s, maxConcurrent) && f in w.db.features
    ensures WritesRowSo(w, s, maxConcurrent, f)
  {
    match s
    case DoSwapCancel(_) => SwappingWritesSo(w, s, maxConcurrent, f);
    case DoStartHandoff(_) | DoFinishHandoff(_) | DoFailHandoff(_) => HandingWritesSo(w, s, maxConcurrent, f);
    case DoRetryPr(_, _, _, _) => RetryingPrWritesSo(w, s, maxConcurrent, f);
    case DoPoll(_, _) => PollingWritesSo(w, s, maxConcurrent, f);
    case _ => ClosingWritesSo(w, s, maxConcurrent, f);
  }

  lemma SwappingWritesSo(w: World, s: Step, maxConcurrent: nat, f: FeatureId)
    requires s.DoSwapCancel? && Enabled(w, s, maxConcurrent) && f in w.db.features
    ensures WritesRowSo(w, s, maxConcurrent, f)
  {
    SwapIs(w, s.id, f);
  }

  lemma SwapIs(w: World, id: nat, f: FeatureId)
    requires id in w.cancels && f in w.db.features
    ensures var after := SwapCancel(w.db, w.cancels[id]).db.features;
      f in after && after[f] == RowAfter(w, DoSwapCancel(id), f)
  {
    SwapWrites(w.db, w.cancels[id]);
    if w.cancels[id].feature in w.db.features { SwapOutcomeIs(w, id); }
  }

  lemma SwapWrites(db: Db, t: Ticket)
    ensures var e := SwapCancel(db, t);
      && (e.outcome != Done ==> e.db == db)
      && (e.outcome == Done ==>
            && t.feature in db.features
            && var row := db.features[t.feature];
               e.db == SetFeature(db, t.feature, row.(state := CancelTarget(t), version := row.version + 1)))
  {}

  lemma HandingWritesSo(w: World, s: Step, maxConcurrent: nat, f: FeatureId)
    requires s.DoStartHandoff? || s.DoFinishHandoff? || s.DoFailHandoff?
    requires Enabled(w, s, maxConcurrent) && f in w.db.features
    ensures WritesRowSo(w, s, maxConcurrent, f)
  {
    match s
    case DoStartHandoff(g) => StartingIs(w, g, f);
    case DoFinishHandoff(g) => FinishingIs(w, g, f);
    case DoFailHandoff(g) => HandoffFailureIs(w, g, f);
  }

  lemma StartingIs(w: World, g: FeatureId, f: FeatureId)
    requires f in w.db.features
    ensures f in StartHandoff(w.db, g).db.features
    ensures StartHandoff(w.db, g).db.features[f] == RowAfter(w, DoStartHandoff(g), f)
  {}

  lemma FinishingIs(w: World, g: FeatureId, f: FeatureId)
    requires f in w.db.features
    ensures f in FinishHandoff(w.db, g).db.features
    ensures FinishHandoff(w.db, g).db.features[f] == RowAfter(w, DoFinishHandoff(g), f)
  {}

  lemma HandoffFailureIs(w: World, g: FeatureId, f: FeatureId)
    requires f in w.db.features
    ensures f in FailHandoff(w.db, g).db.features
    ensures FailHandoff(w.db, g).db.features[f] == RowAfter(w, DoFailHandoff(g), f)
  {}

  lemma RetryingPrWritesSo(w: World, s: Step, maxConcurrent: nat, f: FeatureId)
    requires s.DoRetryPr? && Enabled(w, s, maxConcurrent) && f in w.db.features
    ensures WritesRowSo(w, s, maxConcurrent, f)
  {}

  lemma PollingWritesSo(w: World, s: Step, maxConcurrent: nat, f: FeatureId)
    requires s.DoPoll? && Enabled(w, s, maxConcurrent) && f in w.db.features
    ensures WritesRowSo(w, s, maxConcurrent, f)
  {}

  lemma ClosingWritesSo(w: World, s: Step, maxConcurrent: nat, f: FeatureId)
    requires s.DoCloseCancel? || s.DoAbandonCancel? || s.DoStoreResult?
    requires Enabled(w, s, maxConcurrent) && f in w.db.features
    ensures WritesRowSo(w, s, maxConcurrent, f)
  {}

  /** Features are added by their creation alone, in PLANNED with version 1 and without a task. */
  lemma FeaturesAreAddedSo(w: World, s: Step, maxConcurrent: nat, f: FeatureId)
    requires Enabled(w, s, maxConcurrent) && f !in w.db.features
    ensures var after := Write(w, s, maxConcurrent).db.features;
      && (f in after <==> s.DoCreateFeature? && s.f == f)
      && (f in after ==> after[f] == Feature(s.project, Planned, 1, None, s.branch))
  {
    if IsTaskStep(s) {
      TaskStepsAddFeatures(w, s, maxConcurrent, f);
    } else {
      OtherStepsAddNoFeatures(w, s, maxConcurrent);
    }
  }

  lemma TaskStepsAddFeatures(w: World, s: Step, maxConcurrent: nat, f: FeatureId)
    requires IsTaskStep(s) && Enabled(w, s, maxConcurrent) && f !in w.db.features
    ensures var after := Write(w, s, maxConcurrent).db.features;
      && (f in after <==> s.DoCreateFeature? && s.f == f)
      && (f in after ==> after[f] == Feature(s.project, Planned, 1, None, s.branch))
  {}

  lemma OtherStepsAddNoFeatures(w: World, s: Step, maxConcurrent: nat)
    requires !IsTaskStep(s) && Enabled(w, s, maxConcurrent)
    ensures Write(w, s, maxConcurrent).db.features.Keys == w.db.features.Keys
  {
    if IsAttemptStep(s) { AttemptStepsAddNoFeatures(w, s, maxConcurrent); }
  }

  lemma AttemptStepsAddNoFeatures(w: World, s: Step, maxConcurrent: nat)
    requires IsAttemptStep(s) && Enabled(w, s, maxConcurrent)
    ensures Write(w, s, maxConcurrent).db.features.Keys == w.db.features.Keys
  {}

  // ---------------------------------------------------------------------
  // Attempts
  // ---------------------------------------------------------------------

  predicate Claims(s: Step, a: AttemptId) { s.DoClaim? && s.claimed == a }

  predicate Identifies(db: Db, s: Step, a: AttemptId) {
    s.DoPersistIdentity? && s.a == a && Holds(db, a, s.w) && db.attempts[a].pid == None
  }

  predicate Renews(db: Db, s: Step, a: AttemptId) {
    && s.DoRenewLease? && s.a == a && a in db.attempts
    && IsActive(db.attempts[a].status) && db.attempts[a].worker == Some(s.w)
  }

  predicate Requests(db: Db, s: Step, a: AttemptId) {
    s.DoRequestCancel? && s.a == a && a in db.attempts && db.attempts[a].status == Running
  }

  predicate Closes(w: World, s: Step, a: AttemptId) {
    s.DoCloseCancel? && s.id in w.cancels && w.cancels[s.id].attempt == a
  }

  ghost function StatusAfter(w: World, s: Step, a: AttemptId): AttemptStatus
    requires a in w.db.attempts
  {
    var status, f := w.db.attempts[a].status, w.db.attempts[a].feature;
    match s
    case DoClaim(_, _, _) => if Claims(s, a) then Running else status
    case DoRequestCancel(_) => if Requests(w.db, s, a) then CancelRequested else status
    case DoSucceed(b, _) => if b == a && Completes(w.db, s, f) then Succeeded else status
    case DoFail(b, _, _) => if b == a && (Fails(w.db, s, f) || Blocks(w.db, s, f)) then Failed else status
    case DoReconcile(b, _) => if b == a && Interrupts(w.db, s, f) then Interrupted else status
    case DoCancelQueued(b) => if b == a && CancelsQueued(w.db, s, f) then Cancelled else status
    case DoCloseCancel(id) => if !Closes(w, s, a) then status else if w.cancels[id].replaced then Failed else Cancelled
    case _ => status
  }

  ghost function AttemptAfter(w: World, s: Step, a: AttemptId): Attempt
    requires a in w.db.attempts
  {
    var t := w.db.attempts[a];
    var worker := if Claims(s, a) then Some(s.w) else t.worker;
    var pid := if Identifies(w.db, s, a) then Some(s.pid) else t.pid;
    var lease := if Claims(s, a) || Identifies(w.db, s, a) || Renews(w.db, s, a) then Some(s.lease) else t.lease;
    Attempt(t.project, t.feature, t.approval, t.branch, t.operationKey, StatusAfter(w, s, a), t.predecessor,
            worker, pid, lease, t.enqueuedAt)
  }

  ghost predicate WritesAttemptSo(w: World, s: Step, maxConcurrent: nat, a: AttemptId)
    requires Enabled(w, s, maxConcurrent) && a in w.db.attempts
  {
    var after := Write(w, s, maxConcurrent).db; a in after.attempts && after.attempts[a] == AttemptAfter(w, s, a)
  }

  /**
   * What any step does to any attempt: its status, worker, process and lease
   * change in the listed circumstances and in no others, and nothing else does.
   */
  lemma AttemptRowsChangeSo(w: World, s: Step, maxConcurrent: nat, a: AttemptId)
    requires Inv(w) && Enabled(w, s, maxConcurrent) && a in w.db.attempts
    ensures a in Next(w, s, maxConcurrent).db.attempts
    ensures Next(w, s, maxConcurrent).db.attempts[a] == AttemptAfter(w, s, a)
  {
    if IsMoveStep(s) {
      MovesMarkSo(w, s, maxConcurrent, a);
    } else if IsAttemptStep(s) {
      RelabellingMarksSo(w, s, maxConcurrent, a);
    } else {
      OthersMarkSo(w, s, maxConcurrent, a);
    }
  }

  lemma MovesMarkSo(w: World, s: Step, maxConcurrent: nat, a: AttemptId)
    requires Inv(w) && IsMoveStep(s) && Enabled(w, s, maxConcurrent) && a in w.db.attempts
    ensures WritesAttemptSo(w, s, maxConcurrent, a)
  {
    match s
    case DoSucceed(_, _) => CompletingMarksSo(w, s, maxConcurrent, a);
    case DoFail(_, _, _) => FailingMarksSo(w, s, maxConcurrent, a);
    case _ => MovingMarksSo(w, s, maxConcurrent, a);
  }

  lemma MovingMarksSo(w: World, s: Step, maxConcurrent: nat, a: AttemptId)
    requires IsPlainMove(s) && Enabled(w, s, maxConcurrent) && a in w.db.attempts
    ensures WritesAttemptSo(w, s, maxConcurrent, a)
  {
    MoveIs(w, s, maxConcurrent);
  }

  lemma CompletingMarksSo(w: World, s: Step, maxConcurrent: nat, a: AttemptId)
    requires s.DoSucceed? && Enabled(w, s, maxConcurrent) && a in w.db.attempts
    ensures WritesAttemptSo(w, s, maxConcurrent, a)
  {
    CompletingIs(w, s.a, s.w);
    CompletionMarksAre(w, s.a, s.w, PersistSuccess(w.db, s.a, s.w).db, a);
  }

  lemma CompletionMarksAre(w: World, b: AttemptId, worker: WorkerId, after: Db, a: AttemptId)
    requires IsCompletionOf(w, b, worker, after) && a in w.db.attempts
    ensures a in after.attempts && after.attempts[a] == AttemptAfter(w, DoSucceed(b, worker), a)
  {}

  lemma FailingMarksSo(w: World, s: Step, maxConcurrent: nat, a: AttemptId)
    requires Inv(w) && s.DoFail? && Enabled(w, s, maxConcurrent) && a in w.db.attempts
    ensures WritesAttemptSo(w, s, maxConcurrent, a)
  {
    FailureIs(w, s, maxConcurrent);
    if Holds(w.db, s.a, s.w) { HeldIsNotMerged(w, s.a); }
  }

  lemma RelabellingMarksSo(w: World, s: Step, maxConcurrent: nat, a: AttemptId)
    requires (IsRelabelStep(s) || s.DoClaim?) && Enabled(w, s, maxConcurrent) && a in w.db.attempts
    ensures WritesAttemptSo(w, s, maxConcurrent, a)
  {
    match s
    case DoPersistIdentity(b, worker, pid, lease) => IdentifyingIs(w, b, worker, pid, lease, a);
    case DoRenewLease(b, worker, lease) => RenewingIs(w, b, worker, lease, a);
    case _ => RequestingMarksSo(w, s, maxConcurrent, a);
  }

  lemma IdentifyingIs(w: World, b: AttemptId, worker: WorkerId, pid: nat, lease: Time, a: AttemptId)
    requires a in w.db.attempts
    ensures var after := PersistProcessIdentity(w.db, b, worker, pid, lease).db.attempts;
      a in after && after[a] == AttemptAfter(w, DoPersistIdentity(b, worker, pid, lease), a)
  {}

  lemma RenewingIs(w: World, b: AttemptId, worker: WorkerId, lease: Time, a: AttemptId)
    requires a in w.db.attempts
    ensures var after := RenewLease(w.db, b, worker, lease).db.attempts;
      a in after && after[a] == AttemptAfter(w, DoRenewLease(b, worker, lease), a)
  {}

  lemma RequestingMarksSo(w: World, s: Step, maxConcurrent: nat, a: AttemptId)
    requires s.DoClaim? || s.DoRequestCancel? || s.DoBeginCancel?
    requires Enabled(w, s, maxConcurrent) && a in w.db.attempts
    ensures WritesAttemptSo(w, s, maxConcurrent, a)
  {}

  lemma OthersMarkSo(w: World, s: Step, maxConcurrent: nat, a: AttemptId)
    requires !IsAttemptStep(s) && Enabled(w, s, maxConcurrent) && a in w.db.attempts
    ensures WritesAttemptSo(w, s, maxConcurrent, a)
  {
    if IsTaskStep(s) { TaskStepsKeepAttempts(w, s, maxConcurrent, a); }
  }

  lemma TaskStepsKeepAttempts(w: World, s: Step, maxConcurrent: nat, a: AttemptId)
    requires IsTaskStep(s) && Enabled(w, s, maxConcurrent) && a in w.db.attempts
    ensures var after := Write(w, s, maxConcurrent).db.attempts; a in after && after[a] == w.db.attempts[a]
  {}

  /** The step queues attempt `a`. */
  ghost predicate Adds(db: Db, s: Step, a: AttemptId) {
    match s
    case DoApprove(r) => r.attempt == a && Approves(db, s, r.feature)
    case DoRetry(r, _, _) => r.attempt == a && Retries(db, s, r.feature)
    case _ => false
  }

  ghost function Added(db: Db, s: Step, a: AttemptId): Attempt
    requires Adds(db, s, a)
  {
    var (f, approval, key, now) :=
      if s.DoApprove? then (s.approve.feature, s.approve.approval, s.approve.key, s.approve.now)
      else (s.retry.feature, s.retry.approval, s.retry.key, s.retry.now);
    Attempt(db.features[f].project, f, approval, db.features[f].branch, key, AttemptQueued,
            if s.DoApprove? then None else s.latest, None, None, None, now)
  }

  /**
   * An attempt is added by an approval or a retry in its circumstances and by
   * nothing else: queued, on the feature's branch, unclaimed; a retry's follows
   * the feature's newest attempt.
   */
  lemma AttemptsAreAddedSo(w: World, s: Step, maxConcurrent: nat, a: AttemptId)
    requires Enabled(w, s, maxConcurrent) && a !in w.db.attempts
    ensures var after := Next(w, s, maxConcurrent).db.attempts;
      && (a in after <==> Adds(w.db, s, a))
      && (a in after ==> after[a] == Added(w.db, s, a))
  {
    match s
    case DoApprove(_) => ApprovingAddsSo(w, s, maxConcurrent, a);
    case DoRetry(_, _, _) => RetryingAddsSo(w, s, maxConcurrent, a);
    case _ => OthersAddNone(w, s, maxConcurrent);
  }

  lemma ApprovingAddsSo(w: World, s: Step, maxConcurrent: nat, a: AttemptId)
    requires s.DoApprove? && Enabled(w, s, maxConcurrent) && a !in w.db.attempts
    ensures var after := Write(w, s, maxConcurrent).db.attempts;
      && (a in after <==> Adds(w.db, s, a))
      && (a in after ==> after[a] == Added(w.db, s, a))
  {}

  lemma RetryingAddsSo(w: World, s: Step, maxConcurrent: nat, a: AttemptId)
    requires s.DoRetry? && Enabled(w, s, maxConcurrent) && a !in w.db.attempts
    ensures var after := Write(w, s, maxConcurrent).db.attempts;
      && (a in after <==> Adds(w.db, s, a))
      && (a in after ==> after[a] == Added(w.db, s, a))
  {
    if s.latest.Some? { OfferedIsNewest(w, s, maxConcurrent); }
  }

  lemma OthersAddNone(w: World, s: Step, maxConcurrent: nat)
    requires !s.DoApprove? && !s.DoRetry? && Enabled(w, s, maxConcurrent)
    ensures Write(w, s, maxConcurrent).db.attempts.Keys == w.db.attempts.Keys
  {
    if IsAttemptStep(s) { AttemptStepsAddNone(w, s, maxConcurrent); }
  }

  lemma AttemptStepsAddNone(w: World, s: Step, maxConcurrent: nat)
    requires IsAttemptStep(s) && Enabled(w, s, maxConcurrent)
    ensures Write(w, s, maxConcurrent).db.attempts.Keys == w.db.attempts.Keys
  {}

  // ---------------------------------------------------------------------
  // Approvals
  // ---------------------------------------------------------------------

  ghost predicate Grants(db: Db, s: Step, p: ApprovalId) {
    s.DoApprove? && s.approve.approval == p && Approves(db, s, s.approve.feature)
  }

  predicate Invalidates(db: Db, s: Step, p: ApprovalId) {
    && s.DoInvalidate? && s.p == p && IsActiveApprovalOf(db, p, s.f) && s.f in db.features
    && (s.onProject.Some? ==> s.onProject.value == db.features[s.f].project)
    && (db.features[s.f].state == TasksReview || IsReattachState(db.features[s.f].state))
  }

  ghost predicate Withdraws(db: Db, s: Step, p: ApprovalId) {
    Invalidates(db, s, p) || (s.DoReplace? && s.replace.approval == p && Replaces(db, s, s.replace.feature))
  }

  ghost predicate ApprovalChangesSo(db: Db, s: Step, after: map<ApprovalId, Approval>, p: ApprovalId) {
    && (p in after <==> p in db.approvals || Grants(db, s, p))
    && (p in db.approvals ==> after[p] == db.approvals[p].(active := db.approvals[p].active && !Withdraws(db, s, p)))
    && (Grants(db, s, p) ==> after[p] == Approval(db.features[s.approve.feature].project, s.approve.feature, true))
  }

  /** Approvals are granted by approving, withdrawn by invalidating or replacing the task, and never granted again. */
  lemma ApprovalsChangeSo(w: World, s: Step, maxConcurrent: nat, p: ApprovalId)
    requires Enabled(w, s, maxConcurrent)
    ensures ApprovalChangesSo(w.db, s, Next(w, s, maxConcurrent).db.approvals, p)
  {
    if IsTaskStep(s) {
      TaskStepsChangeApprovalsSo(w, s, maxConcurrent, p);
    } else {
      OthersKeepApprovals(w, s, maxConcurrent);
    }
  }

  lemma TaskStepsChangeApprovalsSo(w: World, s: Step, maxConcurrent: nat, p: ApprovalId)
    requires IsTaskStep(s) && Enabled(w, s, maxConcurrent)
    ensures ApprovalChangesSo(w.db, s, Write(w, s, maxConcurrent).db.approvals, p)
  {
    match s
    case DoApprove(r) => ApprovingGrantsSo(w.db, r, p);
    case DoInvalidate(_, _, _) | DoReplace(_) => WithdrawingIs(w, s, maxConcurrent, p);
    case _ =>
  }

  lemma ApprovingGrantsSo(db: Db, r: ApproveRequest, p: ApprovalId)
    requires r.approval !in db.approvals && r.attempt !in db.attempts
    ensures ApprovalChangesSo(db, DoApprove(r), ApproveAndQueue(db, r).db.approvals, p)
  {}

  lemma WithdrawingIs(w: World, s: Step, maxConcurrent: nat, p: ApprovalId)
    requires (s.DoInvalidate? || s.DoReplace?) && Enabled(w, s, maxConcurrent)
    ensures ApprovalChangesSo(w.db, s, Write(w, s, maxConcurrent).db.approvals, p)
  {}

  lemma OthersKeepApprovals(w: World, s: Step, maxConcurrent: nat)
    requires !IsTaskStep(s) && Enabled(w, s, maxConcurrent)
    ensures Write(w, s, maxConcurrent).db.approvals == w.db.approvals
  {
    if IsAttemptStep(s) { AttemptStepsKeepApprovals(w, s, maxConcurrent); }
  }

  lemma AttemptStepsKeepApprovals(w: World, s: Step, maxConcurrent: nat)
    requires IsAttemptStep(s) && Enabled(w, s, maxConcurrent)
    ensures Write(w, s, maxConcurrent).db.approvals == w.db.approvals
  {}

  // ---------------------------------------------------------------------
  // Records and intents
  // ---------------------------------------------------------------------

  /** The record that a step stores under its key, if its circumstances hold. */
  ghost function Recorded(db: Db, s: Step): Option<(OperationKey, Record)> {
    match s
    case DoApprove(r) =>
      if !Approves(db, s, r.feature) then None
      else Some((r.key, Record(db.features[r.feature].project, Some(r.feature), Some(r.attempt),
                               ApproveResult(r.approval, r.attempt))))
    case DoReplace(r) =>
      if !Replaces(db, s, r.feature) then None
      else Some((r.key, Record(r.project, Some(r.feature), None, ReplaceResult(r.approval))))
    case DoRetry(r, _, _) =>
      if !Retries(db, s, r.feature) then None
      else Some((r.key, Record(r.project, Some(r.feature), Some(r.attempt), RetryResult)))
    case DoRetryPr(f, project, a, key) =>
      if !RetriesPr(db, s, f) then None else Some((key, Record(project, Some(f), Some(a), PrRetryResult)))
    case DoStoreResult(key, project, f, a) =>
      if key in db.records then None else Some((key, Record(project, f, a, OtherResult)))
    case _ => None
  }

  /** A completion asks for its pull request, and so does a retry of its creation. */
  ghost function Intended(db: Db, s: Step): seq<Intent> {
    match s
    case DoSucceed(a, _) =>
      if a in db.attempts && Completes(db, s, db.attempts[a].feature)
      then [Intent("create_pr:" + db.attempts[a].feature, db.attempts[a].feature, a)] else []
    case DoRetryPr(f, _, a, key) => if RetriesPr(db, s, f) then [Intent(key, f, a)] else []
    case _ => []
  }

  /** Exactly which records and intents a step adds. */
  lemma RecordsAndIntentsAreAddedSo(w: World, s: Step, maxConcurrent: nat)
    requires Enabled(w, s, maxConcurrent)
    ensures var after, r := Next(w, s, maxConcurrent).db, Recorded(w.db, s);
      && after.records == (if r.None? then w.db.records else w.db.records[r.value.0 := r.value.1])
      && after.outbox == w.db.outbox + Intended(w.db, s)
  {
    if IsTaskStep(s) {
      TaskStepsRecordSo(w, s, maxConcurrent);
    } else if IsAttemptStep(s) {
      AttemptStepsRecordSo(w, s, maxConcurrent);
    } else {
      OtherStepsRecordSo(w, s, maxConcurrent);
    }
  }

  ghost predicate RecordsSo(w: World, s: Step, after: Db) {
    var r := Recorded(w.db, s);
    && after.records == (if r.None? then w.db.records else w.db.records[r.value.0 := r.value.1])
    && after.outbox == w.db.outbox + Intended(w.db, s)
  }

  lemma TaskStepsRecordSo(w: World, s: Step, maxConcurrent: nat)
    requires IsTaskStep(s) && Enabled(w, s, maxConcurrent)
    ensures RecordsSo(w, s, Write(w, s, maxConcurrent).db)
  {
    match s
    case DoApprove(_) => ApprovingRecordsSo(w, s, maxConcurrent);
    case DoRetry(_, _, _) => RetryingRecordsSo(w, s, maxConcurrent);
    case DoReplace(_) => ReplacingRecordsSo(w, s, maxConcurrent);
    case _ =>
  }

  lemma ApprovingRecordsSo(w: World, s: Step, maxConcurrent: nat)
    requires s.DoApprove? && Enabled(w, s, maxConcurrent)
    ensures RecordsSo(w, s, Write(w, s, maxConcurrent).db)
  {}

  lemma RetryingRecordsSo(w: World, s: Step, maxConcurrent: nat)
    requires s.DoRetry? && Enabled(w, s, maxConcurrent)
    ensures RecordsSo(w, s, Write(w, s, maxConcurrent).db)
  {
    if s.latest.Some? { OfferedIsNewest(w, s, maxConcurrent); }
  }

  lemma ReplacingRecordsSo(w: World, s: Step, maxConcurrent: nat)
    requires s.DoReplace? && Enabled(w, s, maxConcurrent)
    ensures RecordsSo(w, s, Write(w, s, maxConcurrent).db)
  {}

  lemma AttemptStepsRecordSo(w: World, s: Step, maxConcurrent: nat)
    requires IsAttemptStep(s) && Enabled(w, s, maxConcurrent)
    ensures RecordsSo(w, s, Write(w, s, maxConcurrent).db)
  {
    if s.DoSucceed? {
      CompletingRecordsSo(w, s.a, s.w);
    } else {
      OthersRecordNothing(w, s, maxConcurrent);
    }
  }

  lemma CompletingRecordsSo(w: World, a: AttemptId, worker: WorkerId)
    ensures RecordsSo(w, DoSucceed(a, worker), PersistSuccess(w.db, a, worker).db)
  {
    CompletingIs(w, a, worker);
  }

  lemma OthersRecordNothing(w: World, s: Step, maxConcurrent: nat)
    requires IsAttemptStep(s) && !s.DoSucceed? && Enabled(w, s, maxConcurrent)
    ensures var after := Write(w, s, maxConcurrent).db; after.records == w.db.records && after.outbox == w.db.outbox
  {}

  lemma OtherStepsRecordSo(w: World, s: Step, maxConcurrent: nat)
    requires !IsTaskStep(s) && !IsAttemptStep(s) && Enabled(w, s, maxConcurrent)
    ensures RecordsSo(w, s, Write(w, s, maxConcurrent).db)
  {
    if s.DoRetryPr? { RetryingPrRecordsSo(w, s, maxConcurrent); }
  }

  lemma RetryingPrRecordsSo(w: World, s: Step, maxConcurrent: nat)
    requires s.DoRetryPr? && Enabled(w, s, maxConcurrent)
    ensures RecordsSo(w, s, Write(w, s, maxConcurrent).db)
  {}

  // ---------------------------------------------------------------------
  // Cancellations
  // ---------------------------------------------------------------------

  /** A worker's loop takes up a requested cancellation of its own attempt, which has a process. */
  predicate Begins(db: Db, s: Step) {
    && s.DoBeginCancel? && s.a in db.attempts && db.attempts[s.a].feature in db.features
    && db.attempts[s.a].status == CancelRequested && db.attempts[s.a].worker == Some(s.w)
    && db.attempts[s.a].pid.Some?
  }

  /** The first final write of a replaced process does not find the row that was loaded. */
  predicate Misses(w: World, s: Step) {
    && s.DoSwapCancel? && s.id in w.cancels && w.cancels[s.id].replaced
    && var t := w.cancels[s.id];
       && t.feature in w.db.features && t.row.state != DevelopmentMerged
       && (w.db.features[t.feature].state != t.row.state || w.db.features[t.feature].version != t.row.version)
  }

  /** Where a cancellation is after a step, if there is one. */
  ghost function TicketAfter(w: World, s: Step, id: nat): Option<Ticket> {
    var now := if id in w.cancels then Some(w.cancels[id]) else None;
    match s
    case DoBeginCancel(i, a, _, identityOk) =>
      if i != id || !Begins(w.db, s) then now
      else
        var f := w.db.attempts[a].feature;
        Some(Ticket(a, f, w.db.features[f], !identityOk, Loaded, true))
    case DoSwapCancel(i) =>
      if i != id || now.None? then now
      else if Swaps(w, s, now.value.feature) then Some(now.value.(stage := Swapped))
      else if Misses(w, s) then Some(now.value.(stage := Missed))
      else None
    case DoCloseCancel(i) => if i == id then None else now
    case DoAbandonCancel(i) => if i == id && now.Some? then Some(now.value.(alive := false)) else now
    case _ => now
  }

  /**
   * A cancellation begins with the row that it finds; its first final write makes
   * it go on to close the attempt, also if it missed its row but blocks it for a
   * replaced process, and otherwise ends it; closing ends it.
   */
  lemma CancellationsGoSo(w: World, s: Step, maxConcurrent: nat, id: nat)
    requires Inv(w) && Enabled(w, s, maxConcurrent)
    ensures var after := Next(w, s, maxConcurrent).cancels;
      TicketAfter(w, s, id) == if id in after then Some(after[id]) else None
  {
    match s
    case DoBeginCancel(_, _, _, _) => BeginningIs(w, s, maxConcurrent, id);
    case DoSwapCancel(_) => SwappingIs(w, s, maxConcurrent, id);
    case _ =>
  }

  lemma BeginningIs(w: World, s: Step, maxConcurrent: nat, id: nat)
    requires s.DoBeginCancel? && Enabled(w, s, maxConcurrent)
    ensures var after := Next(w, s, maxConcurrent).cancels;
      TicketAfter(w, s, id) == if id in after then Some(after[id]) else None
  {}

  lemma SwappingIs(w: World, s: Step, maxConcurrent: nat, id: nat)
    requires Inv(w) && s.DoSwapCancel? && Enabled(w, s, maxConcurrent)
    ensures var after := Next(w, s, maxConcurrent).cancels;
      TicketAfter(w, s, id) == if id in after then Some(after[id]) else None
  {
    assert TicketFits(w.db, w.left, w.cancels[s.id]);
    SwapOutcomeIs(w, s.id);
  }

  lemma SwapOutcomeIs(w: World, id: nat)
    requires id in w.cancels && w.cancels[id].feature in w.db.features
    ensures var why, t := SwapCancel(w.db, w.cancels[id]).outcome, w.cancels[id];
      && (why == Done <==> Swaps(w, DoSwapCancel(id), t.feature))
      && (t.replaced ==> (why == Refused(RowChanged) <==> Misses(w, DoSwapCancel(id))))
  {}
}
