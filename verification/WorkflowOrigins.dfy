// Where the rows of a run come from: which request queued each attempt and on
// what grounds, what was written once and for all, and what repeated requests get.
module WorkflowOrigins {
  import opened Wrappers
  import opened FeatureStateMachine
  import opened Workflow
  import opened WorkflowSafety
  import opened WorkflowInvariant
  import opened WorkflowRuns
  import opened WorkflowEffects

  // ---------------------------------------------------------------------
  // Attempts
  // ---------------------------------------------------------------------

  /**
   * A retry adds its attempt if and only if its key is unused, project, state,
   * active approval and both branches fit, and the feature's newest attempt is
   * over without success and has no process or one found dead. The attempt then
   * follows that newest one and the feature is queued; otherwise no row changes.
   */
  lemma RetriesQueueIff(worlds: seq<World>, steps: seq<Step>, maxConcurrent: nat, k: nat)
    requires IsRun(worlds, steps, maxConcurrent) && k < |steps| && steps[k].DoRetry?
    ensures var db, after, r, latest := worlds[k].db, worlds[k + 1].db, steps[k].retry, steps[k].latest;
      && (r.attempt in after.attempts <==> Retries(db, steps[k], r.feature))
      && (if r.attempt in after.attempts then
            && after.attempts == db.attempts[r.attempt := Added(db, steps[k], r.attempt)]
            && after.attempts[r.attempt].predecessor == latest && IsNewest(db, latest.value, r.feature)
            && r.feature in after.features && after.features[r.feature].state == Queued
          else after == db)
  {
    EveryStepMovesOn(worlds, steps, maxConcurrent, k);
    RetryIsExact(worlds[k], steps[k], maxConcurrent);
  }

  lemma RetryIsExact(w: World, s: Step, maxConcurrent: nat)
    requires Inv(w) && Enabled(w, s, maxConcurrent) && s.DoRetry?
    ensures var db, after, r := w.db, Next(w, s, maxConcurrent).db, s.retry;
      && (r.attempt in after.attempts <==> Retries(db, s, r.feature))
      && (r.attempt !in after.attempts ==> after == db)
      && (r.attempt in after.attempts ==>
            && after.attempts == db.attempts[r.attempt := Added(db, s, r.attempt)]
            && r.feature in after.features && after.features[r.feature].state == Queued)
  {
    AttemptsAreAddedSo(w, s, maxConcurrent, s.retry.attempt);
    if Retries(w.db, s, s.retry.feature) {
      FeatureRowsChangeSo(w, s, maxConcurrent, s.retry.feature);
      RetryAddsOne(w, s, maxConcurrent);
    }
    RefusedRetryIsNothing(w.db, s.retry, s.latest, s.alive);
  }

  lemma RetryAddsOne(w: World, s: Step, maxConcurrent: nat)
    requires Inv(w) && Enabled(w, s, maxConcurrent) && s.DoRetry? && Retries(w.db, s, s.retry.feature)
    ensures Next(w, s, maxConcurrent).db.attempts ==
            w.db.attempts[s.retry.attempt := Added(w.db, s, s.retry.attempt)]
  {
    var after := Next(w, s, maxConcurrent).db.attempts;
    forall a ensures a in after <==> a in w.db.attempts || a == s.retry.attempt {
      if a !in w.db.attempts {
        AttemptsAreAddedSo(w, s, maxConcurrent, a);
      } else {
        AttemptRowsChangeSo(w, s, maxConcurrent, a);
      }
    }
    forall a | a in w.db.attempts ensures after[a] == w.db.attempts[a] {
      AttemptRowsChangeSo(w, s, maxConcurrent, a);
    }
    AttemptsAreAddedSo(w, s, maxConcurrent, s.retry.attempt);
  }

  lemma RefusedRetryIsNothing(db: Db, r: RetryRequest, latest: Option<AttemptId>, alive: bool)
    requires r.attempt !in db.attempts && (latest.Some? ==> latest.value in db.attempts)
    ensures r.attempt !in Retry(db, r, latest, alive).db.attempts ==> Retry(db, r, latest, alive).db == db
  {}

  /** What of an attempt is written when it is queued and never again. */
  predicate SameOrigin(u: Attempt, t: Attempt) {
    && SameReferences(u, t) && u.branch == t.branch
    && u.predecessor == t.predecessor && u.enqueuedAt == t.enqueuedAt
  }

  /**
   * Every attempt of a run was queued by an approval of a parsed task with the
   * checksum that was reviewed, or by a retry in its circumstances, and keeps what
   * was written then.
   */
  lemma {:induction false} AttemptsHaveOrigins(worlds: seq<World>, steps: seq<Step>, maxConcurrent: nat,
        n: nat, a: AttemptId)
    returns (k: nat)
    requires IsRun(worlds, steps, maxConcurrent) && n < |worlds| && a in worlds[n].db.attempts
    ensures k < n && Adds(worlds[k].db, steps[k], a)
    ensures SameOrigin(Added(worlds[k].db, steps[k], a), worlds[n].db.attempts[a])
    decreases n
  {
    EveryStepMovesOn(worlds, steps, maxConcurrent, n - 1);
    if a in worlds[n - 1].db.attempts {
      k := AttemptsHaveOrigins(worlds, steps, maxConcurrent, n - 1, a);
      AttemptRowsChangeSo(worlds[n - 1], steps[n - 1], maxConcurrent, a);
    } else {
      k := n - 1;
      AttemptsAreAddedSo(worlds[k], steps[k], maxConcurrent, a);
    }
  }

  /** The attempt that a retried one follows is of its feature and branch, and over without success. */
  ghost predicate FollowsOver(db: Db, a: AttemptId)
    requires a in db.attempts
  {
    db.attempts[a].predecessor.Some? ==>
      && var p := db.attempts[a].predecessor.value;
      && p in db.attempts && p != a
      && db.attempts[p].feature == db.attempts[a].feature && db.attempts[p].branch == db.attempts[a].branch
      && IsRetryableStatus(db.attempts[p].status)
  }

  /** In every world of a run that holds of every attempt: no predecessor is ever at work again. */
  lemma {:induction false} PredecessorsAreOver(worlds: seq<World>, steps: seq<Step>, maxConcurrent: nat,
        n: nat, a: AttemptId)
    requires IsRun(worlds, steps, maxConcurrent) && n < |worlds| && a in worlds[n].db.attempts
    ensures FollowsOver(worlds[n].db, a)
    decreases n
  {
    EveryStepMovesOn(worlds, steps, maxConcurrent, n - 1);
    if a in worlds[n - 1].db.attempts {
      PredecessorsAreOver(worlds, steps, maxConcurrent, n - 1, a);
      FollowingStays(worlds[n - 1], steps[n - 1], maxConcurrent, a);
    } else {
      AddedFollowsOver(worlds[n - 1], steps[n - 1], maxConcurrent, a);
    }
  }

  lemma FollowingStays(w: World, s: Step, maxConcurrent: nat, a: AttemptId)
    requires Inv(w) && Enabled(w, s, maxConcurrent) && a in w.db.attempts && FollowsOver(w.db, a)
    ensures a in Next(w, s, maxConcurrent).db.attempts && FollowsOver(Next(w, s, maxConcurrent).db, a)
  {
    AttemptRowsChangeSo(w, s, maxConcurrent, a);
    if w.db.attempts[a].predecessor.Some? {
      var p := w.db.attempts[a].predecessor.value;
      AttemptRowsChangeSo(w, s, maxConcurrent, p);
      StepMovesOn(w, s, maxConcurrent);
      assert AttemptMoves(w.db.attempts[p], Next(w, s, maxConcurrent).db.attempts[p]);
    }
  }

  lemma AddedFollowsOver(w: World, s: Step, maxConcurrent: nat, a: AttemptId)
    requires Inv(w) && Enabled(w, s, maxConcurrent)
    requires a !in w.db.attempts && a in Next(w, s, maxConcurrent).db.attempts
    ensures FollowsOver(Next(w, s, maxConcurrent).db, a)
  {
    AttemptsAreAddedSo(w, s, maxConcurrent, a);
    if s.DoRetry? { AttemptRowsChangeSo(w, s, maxConcurrent, s.latest.value); }
  }

  // ---------------------------------------------------------------------
  // Written once
  // ---------------------------------------------------------------------

  /** A queued attempt has no worker, process or lease, and a process has a worker. */
  predicate IsAssignedInOrder(t: Attempt) {
    && (t.status == AttemptQueued ==> t.worker == None && t.pid == None && t.lease == None)
    && (t.pid.Some? ==> t.worker.Some?)
  }

  lemma {:induction false} AssignedInOrder(worlds: seq<World>, steps: seq<Step>, maxConcurrent: nat,
        n: nat, a: AttemptId)
    requires IsRun(worlds, steps, maxConcurrent) && n < |worlds| && a in worlds[n].db.attempts
    ensures IsAssignedInOrder(worlds[n].db.attempts[a])
    decreases n
  {
    EveryStepMovesOn(worlds, steps, maxConcurrent, n - 1);
    var w, s := worlds[n - 1], steps[n - 1];
    if a in w.db.attempts {
      AssignedInOrder(worlds, steps, maxConcurrent, n - 1, a);
      AttemptRowsChangeSo(w, s, maxConcurrent, a);
    } else {
      AttemptsAreAddedSo(w, s, maxConcurrent, a);
    }
  }

  /** Once an attempt has a worker or a process it keeps it: none is ever handed to another worker or started again. */
  lemma {:induction false} WorkerAndProcessAreWrittenOnce(worlds: seq<World>, steps: seq<Step>, maxConcurrent: nat,
        i: nat, j: nat, a: AttemptId)
    requires IsRun(worlds, steps, maxConcurrent) && i <= j < |worlds| && a in worlds[i].db.attempts
    ensures a in worlds[j].db.attempts
    ensures var t, u := worlds[i].db.attempts[a], worlds[j].db.attempts[a];
      && (t.worker.Some? ==> u.worker == t.worker) && (t.pid.Some? ==> u.pid == t.pid)
    decreases j
  {
    if i < j {
      WorkerAndProcessAreWrittenOnce(worlds, steps, maxConcurrent, i, j - 1, a);
      AssignedInOrder(worlds, steps, maxConcurrent, j - 1, a);
      EveryStepMovesOn(worlds, steps, maxConcurrent, j - 1);
      AttemptRowsChangeSo(worlds[j - 1], steps[j - 1], maxConcurrent, a);
      if Claims(steps[j - 1], a) { ClaimedIsQueued(worlds[j - 1], steps[j - 1], maxConcurrent); }
    }
  }

  lemma ClaimedIsQueued(w: World, s: Step, maxConcurrent: nat)
    requires Enabled(w, s, maxConcurrent) && s.DoClaim?
    ensures s.claimed in w.db.attempts && w.db.attempts[s.claimed].status == AttemptQueued
  {}

  // ---------------------------------------------------------------------
  // Features
  // ---------------------------------------------------------------------

  ghost function WritesBetween(worlds: seq<World>, steps: seq<Step>, f: FeatureId, i: nat, j: nat): nat
    requires i <= j <= |steps| < |worlds| && forall k :: i <= k < j ==> f in worlds[k].db.features
    decreases j
  {
    if i == j then 0 else WritesBetween(worlds, steps, f, i, j - 1) + Writes(worlds[j - 1], steps[j - 1], f)
  }

  /** The version counts the writes to a feature's row; its project and branch never change. */
  lemma {:induction false} VersionsCountWrites(worlds: seq<World>, steps: seq<Step>, maxConcurrent: nat,
        f: FeatureId, i: nat, j: nat)
    requires IsRun(worlds, steps, maxConcurrent) && i <= j < |worlds| && f in worlds[i].db.features
    ensures forall k :: i <= k <= j ==> f in worlds[k].db.features
    ensures var row, later := worlds[i].db.features[f], worlds[j].db.features[f];
      && later.version == row.version + WritesBetween(worlds, steps, f, i, j)
      && later.project == row.project && later.branch == row.branch
    decreases j
  {
    if i < j {
      VersionsCountWrites(worlds, steps, maxConcurrent, f, i, j - 1);
      WritesAreCounted(worlds, steps, maxConcurrent, f, j - 1);
    }
  }

  lemma WritesAreCounted(worlds: seq<World>, steps: seq<Step>, maxConcurrent: nat, f: FeatureId, k: nat)
    requires IsRun(worlds, steps, maxConcurrent) && k < |steps| && f in worlds[k].db.features
    ensures f in worlds[k + 1].db.features
    ensures var row, later := worlds[k].db.features[f], worlds[k + 1].db.features[f];
      && later.version == row.version + Writes(worlds[k], steps[k], f)
      && later.project == row.project && later.branch == row.branch
  {
    EveryStepMovesOn(worlds, steps, maxConcurrent, k);
    FeatureRowsChangeSo(worlds[k], steps[k], maxConcurrent, f);
  }

  predicate HasItsTask(row: Feature) {
    && (row.state == Planned ==> row.taskPath == None)
    && (row.state != Planned && row.state != Blocked ==> row.taskPath.Some?)
  }

  /** A feature in planning has no task, and every other one has, unless it was blocked. */
  lemma {:induction false} FeaturesHaveTheirTasks(worlds: seq<World>, steps: seq<Step>, maxConcurrent: nat,
        n: nat, f: FeatureId)
    requires IsRun(worlds, steps, maxConcurrent) && n < |worlds| && f in worlds[n].db.features
    ensures HasItsTask(worlds[n].db.features[f])
    decreases n
  {
    EveryStepMovesOn(worlds, steps, maxConcurrent, n - 1);
    var w, s := worlds[n - 1], steps[n - 1];
    if f in w.db.features {
      FeaturesHaveTheirTasks(worlds, steps, maxConcurrent, n - 1, f);
      TaskStays(w, s, maxConcurrent, f);
    } else {
      FeaturesAreAddedSo(w, s, maxConcurrent, f);
    }
  }

  lemma TaskStays(w: World, s: Step, maxConcurrent: nat, f: FeatureId)
    requires Inv(w) && Enabled(w, s, maxConcurrent) && f in w.db.features && HasItsTask(w.db.features[f])
    ensures f in Next(w, s, maxConcurrent).db.features && HasItsTask(Next(w, s, maxConcurrent).db.features[f])
  {
    FeatureRowsChangeSo(w, s, maxConcurrent, f);
    WrittenRowsHaveTasks(w, s, f);
  }

  lemma WrittenRowsHaveTasks(w: World, s: Step, f: FeatureId)
    requires f in w.db.features && HasItsTask(w.db.features[f])
    ensures HasItsTask(RowAfter(w, s, f))
  {
    if IsTaskStep(s) { TaskStepsWriteTasks(w, s, f); }
  }

  lemma TaskStepsWriteTasks(w: World, s: Step, f: FeatureId)
    requires IsTaskStep(s) && f in w.db.features && HasItsTask(w.db.features[f])
    ensures HasItsTask(RowAfter(w, s, f))
  {}

  // ---------------------------------------------------------------------
  // Repeated requests
  // ---------------------------------------------------------------------

  lemma StoredRecordStays(worlds: seq<World>, steps: seq<Step>, maxConcurrent: nat, i: nat, j: nat,
        key: OperationKey, record: Record)
    requires IsRun(worlds, steps, maxConcurrent) && i < j < |worlds|
    requires Recorded(worlds[i].db, steps[i]) == Some((key, record))
    ensures key in worlds[j].db.records && worlds[j].db.records[key] == record
  {
    RecordIsStoredNext(worlds, steps, maxConcurrent, i, key, record);
    RecordsStay(worlds, steps, maxConcurrent, i + 1, j, key);
  }

  lemma RecordIsStoredNext(worlds: seq<World>, steps: seq<Step>, maxConcurrent: nat, i: nat,
        key: OperationKey, record: Record)
    requires IsRun(worlds, steps, maxConcurrent) && i < |steps|
    requires Recorded(worlds[i].db, steps[i]) == Some((key, record))
    ensures key in worlds[i + 1].db.records && worlds[i + 1].db.records[key] == record
  {
    EveryStepMovesOn(worlds, steps, maxConcurrent, i);
    RecordIsStored(worlds[i], steps[i], maxConcurrent, key, record);
  }

  lemma RecordIsStored(w: World, s: Step, maxConcurrent: nat, key: OperationKey, record: Record)
    requires Enabled(w, s, maxConcurrent) && Recorded(w.db, s) == Some((key, record))
    ensures var after := Next(w, s, maxConcurrent).db.records; key in after && after[key] == record
  {
    RecordsAndIntentsAreAddedSo(w, s, maxConcurrent);
  }

  /**
   * Replacing again under the same key is answered as a repetition if it names
   * the approval that was replaced, whatever else it names, and refused otherwise.
   */
  lemma ReplacementsReplay(worlds: seq<World>, steps: seq<Step>, maxConcurrent: nat, i: nat, j: nat,
        again: ReplaceRequest)
    requires IsRun(worlds, steps, maxConcurrent) && i < j < |worlds| && steps[i].DoReplace?
    requires Replaces(worlds[i].db, steps[i], steps[i].replace.feature) && again.key == steps[i].replace.key
    requires var db := worlds[j].db;
      again.feature in db.features && db.features[again.feature].project == again.project
    ensures ReplaceTask(worlds[j].db, again) ==
            Effect(worlds[j].db, if again.approval == steps[i].replace.approval then Replayed(None)
                                 else Refused(ValidationFailed))
  {
    var r := steps[i].replace;
    StoredRecordStays(worlds, steps, maxConcurrent, i, j, r.key,
                      Record(r.project, Some(r.feature), None, ReplaceResult(r.approval)));
  }

  /** Retrying PR creation again under the same key returns the first attempt, whatever feature it names. */
  lemma PrRetriesReplay(worlds: seq<World>, steps: seq<Step>, maxConcurrent: nat, i: nat, j: nat,
        f: FeatureId, project: ProjectId, a: AttemptId)
    requires IsRun(worlds, steps, maxConcurrent) && i < j < |worlds| && steps[i].DoRetryPr?
    requires RetriesPr(worlds[i].db, steps[i], steps[i].f)
    requires f in worlds[j].db.features && worlds[j].db.features[f].project == project
    ensures RetryPrCreation(worlds[j].db, f, project, a, steps[i].key) ==
            Effect(worlds[j].db, Replayed(Some(steps[i].a)))
  {
    StoredRecordStays(worlds, steps, maxConcurrent, i, j, steps[i].key,
                      Record(steps[i].project, Some(steps[i].f), Some(steps[i].a), PrRetryResult));
  }

  predicate CancelsOne(db: Db, s: Step, a: AttemptId) {
    s.DoCancelQueued? && s.a == a && a in db.attempts && CancelsQueued(db, s, db.attempts[a].feature)
  }

  /** Asking again to cancel an attempt returns it and changes nothing, at any later time. */
  lemma CancelsReplay(worlds: seq<World>, steps: seq<Step>, maxConcurrent: nat, i: nat, j: nat, a: AttemptId)
    requires IsRun(worlds, steps, maxConcurrent) && i < j < |worlds| && a in worlds[i].db.attempts
    ensures Requests(worlds[i].db, steps[i], a) ==>
      RequestCancel(worlds[j].db, a) == Effect(worlds[j].db, Replayed(Some(a)))
    ensures CancelsOne(worlds[i].db, steps[i], a) ==>
      CancelQueued(worlds[j].db, a) == Effect(worlds[j].db, Replayed(Some(a)))
  {
    EveryStepMovesOn(worlds, steps, maxConcurrent, i);
    AttemptRowsChangeSo(worlds[i], steps[i], maxConcurrent, a);
    StatusesOnlyAdvance(worlds, steps, maxConcurrent, i + 1, j, a);
  }

  // ---------------------------------------------------------------------
  // Refusals
  // ---------------------------------------------------------------------

  /** Why attaching a task is refused. */
  lemma AttachingIsRefusedFor(db: Db, f: FeatureId, path: string, parses: bool)
    ensures var why := AttachTask(db, f, path, parses).outcome;
      && (why == Refused(FeatureNotFound) <==> f !in db.features)
      && (f in db.features ==>
            var state := db.features[f].state;
            var busy := IsReattachState(state) && HasActiveApproval(db, f);
            && (why == Refused(IllegalState) <==> !IsAttachState(state))
            && (why == Refused(ApprovalActive) <==> busy)
            && (why == Refused(ValidationFailed) <==> IsAttachState(state) && !busy && !parses)
            && (why == Done <==> IsAttachState(state) && !busy && parses))
  {}

  /** Why approving is refused, when its key is unused. */
  lemma ApprovingIsRefusedFor(db: Db, r: ApproveRequest)
    requires r.approval !in db.approvals && r.attempt !in db.attempts
    requires r.feature in db.features && r.key !in db.records
    ensures var row, why := db.features[r.feature], ApproveAndQueue(db, r).outcome;
      var ours := r.project.Some? ==> r.project.value == row.project;
      && (why == Refused(NotFound) <==> !ours)
      && (why == Refused(IllegalState) <==> ours && row.state != TasksReview)
      && (why == Refused(ValidationFailed) <==> ours && row.state == TasksReview && (row.taskPath == None || !r.parses))
      && (why == Refused(StaleChecksum) <==>
            ours && row.state == TasksReview && row.taskPath.Some? && r.parses && !r.checksumMatches)
  {}

  /** Why a retry is refused, when its key is unused and its approval active. */
  lemma RetryingIsRefusedFor(db: Db, r: RetryRequest, latest: AttemptId, alive: bool)
    requires r.attempt !in db.attempts && latest in db.attempts && r.key !in db.records
    requires r.feature in db.features && db.features[r.feature].project == r.project
    requires IsApprovedUnder(db, r.approval, r.feature, r.project)
    ensures var row, t, why := db.features[r.feature], db.attempts[latest], Retry(db, r, Some(latest), alive).outcome;
      var over := IsReattachState(row.state) && IsRetryableStatus(t.status);
      var sameBranch := t.branch == row.branch && r.branch == row.branch;
      && (why == Refused(NotRetryable) <==> !over)
      && (why == Refused(BranchMismatch) <==> over && !sameBranch)
      && (why == Refused(ProcessAlive) <==> over && sameBranch && t.pid.Some? && alive)
      && (why == Done <==> over && sameBranch && !(t.pid.Some? && alive))
  {}
}
