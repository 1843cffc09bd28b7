// Safety of the workflow over every run: any number of API, worker, canceller,
// reconciler, pull-request and poller operations, in any order.
module WorkflowSafety {
  import opened Wrappers
  import opened FeatureStateMachine
  import opened Workflow

  // The stored rows, the process cancellations that have begun, and the attempts
  // left behind: those that were live when a cancellation's first final write
  // moved their feature, and have not been closed since.
  datatype World = World(db: Db, cancels: map<nat, Ticket>, left: set<AttemptId>)

  datatype Step =
    | DoCreateFeature(f: FeatureId, project: ProjectId, branch: string)
    | DoAttach(f: FeatureId, path: string, parses: bool)
    | DoRemove(f: FeatureId)
    | DoApprove(approve: ApproveRequest)
    | DoInvalidate(f: FeatureId, onProject: Option<ProjectId>, p: ApprovalId)
    | DoReplace(replace: ReplaceRequest)
    | DoRetry(retry: RetryRequest, latest: Option<AttemptId>, alive: bool)
    | DoClaim(claimed: AttemptId, w: WorkerId, lease: Time)
    | DoMarkDeveloping(a: AttemptId, w: WorkerId)
    | DoPersistIdentity(a: AttemptId, w: WorkerId, pid: nat, lease: Time)
    | DoRenewLease(a: AttemptId, w: WorkerId, lease: Time)
    | DoSucceed(a: AttemptId, w: WorkerId)
    | DoFail(a: AttemptId, w: WorkerId, blocks: bool)
    | DoRequestCancel(a: AttemptId)
    | DoCancelQueued(a: AttemptId)
    | DoBeginCancel(id: nat, a: AttemptId, w: WorkerId, identityOk: bool)
    | DoSwapCancel(id: nat)
    | DoCloseCancel(id: nat)
    | DoAbandonCancel(id: nat)
    | DoReconcile(a: AttemptId, observedAt: Time)
    | DoStartHandoff(f: FeatureId)
    | DoFinishHandoff(f: FeatureId)
    | DoFailHandoff(f: FeatureId)
    | DoRetryPr(f: FeatureId, project: ProjectId, a: AttemptId, key: OperationKey)
    | DoPoll(f: FeatureId, target: FeatureState)
    | DoStoreResult(key: OperationKey, project: ProjectId, onFeature: Option<FeatureId>, onAttempt: Option<AttemptId>)

  /**
   * Facts the database supplies: generated row ids are new, the attempt offered
   * as a feature's newest is its newest, and a claim takes the queue's target
   * while fewer than `maxConcurrent` attempts are active. Cancellations of one
   * attempt come one after the other: its worker has a single loop for them.
   */
  ghost predicate Enabled(w: World, s: Step, maxConcurrent: nat) {
    match s
    case DoApprove(r) => r.approval !in w.db.approvals && r.attempt !in w.db.attempts
    case DoRetry(r, latest, _) =>
      && r.attempt !in w.db.attempts
      && (if latest.Some? then IsLatest(w.db, latest.value, r.feature)
          else forall a :: a in w.db.attempts ==> w.db.attempts[a].feature != r.feature)
    case DoClaim(target, _, _) => |ActiveAttempts(w.db)| < maxConcurrent && IsClaimTarget(w.db, target)
    case DoBeginCancel(id, a, _, _) =>
      id !in w.cancels && forall i :: i in w.cancels && w.cancels[i].attempt == a ==> !w.cancels[i].alive
    case DoSwapCancel(id) => id in w.cancels && w.cancels[id].alive && w.cancels[id].stage == Loaded
    case DoCloseCancel(id) => id in w.cancels && w.cancels[id].alive && w.cancels[id].stage != Loaded
    case DoAbandonCancel(id) => id in w.cancels
    case _ => true
  }

  /** What a step writes to the rows. */
  ghost function Write(w: World, s: Step, maxConcurrent: nat): Effect
    requires Enabled(w, s, maxConcurrent)
  {
    match s
    case DoCreateFeature(f, project, branch) => CreateFeature(w.db, f, project, branch)
    case DoAttach(f, path, parses) => AttachTask(w.db, f, path, parses)
    case DoRemove(f) => RemoveTask(w.db, f)
    case DoApprove(r) => ApproveAndQueue(w.db, r)
    case DoInvalidate(f, onProject, p) => InvalidateApproval(w.db, f, onProject, p)
    case DoReplace(r) => ReplaceTask(w.db, r)
    case DoRetry(r, latest, alive) => Retry(w.db, r, latest, alive)
    case DoClaim(target, worker, lease) => Effect(Claimed(w.db, target, worker, lease), Done)
    case DoMarkDeveloping(a, worker) => MarkDeveloping(w.db, a, worker)
    case DoPersistIdentity(a, worker, pid, lease) => PersistProcessIdentity(w.db, a, worker, pid, lease)
    case DoRenewLease(a, worker, lease) => RenewLease(w.db, a, worker, lease)
    case DoSucceed(a, worker) => PersistSuccess(w.db, a, worker)
    case DoFail(a, worker, blocks) => PersistFailure(w.db, a, worker, blocks)
    case DoRequestCancel(a) => RequestCancel(w.db, a)
    case DoCancelQueued(a) => CancelQueued(w.db, a)
    case DoBeginCancel(_, a, worker, identityOk) => BeginCancel(w.db, a, worker, identityOk)
    case DoSwapCancel(id) => SwapCancel(w.db, w.cancels[id])
    case DoCloseCancel(id) => CloseCancel(w.db, w.cancels[id])
    case DoAbandonCancel(_) => Effect(w.db, Done)
    case DoReconcile(a, observedAt) => ReconcileOrphan(w.db, a, observedAt)
    case DoStartHandoff(f) => StartHandoff(w.db, f)
    case DoFinishHandoff(f) => FinishHandoff(w.db, f)
    case DoFailHandoff(f) => FailHandoff(w.db, f)
    case DoRetryPr(f, project, a, key) => RetryPrCreation(w.db, f, project, a, key)
    case DoPoll(f, target) => Poll(w.db, f, target)
    case DoStoreResult(key, project, f, a) => StoreResult(w.db, key, project, f, a)
  }

  function LiveOf(db: Db, f: FeatureId): set<AttemptId> { set a | a in db.attempts && IsLiveOf(db, a, f) }

  function StillLive(db: Db, left: set<AttemptId>): set<AttemptId> {
    set a | a in left && a in db.attempts && IsLive(db.attempts[a].status)
  }

  /** Where the cancellations stand after a step with outcome `o`. */
  ghost function CancelsAfter(w: World, s: Step, e: Effect): map<nat, Ticket> {
    match s
    case DoBeginCancel(id, a, _, identityOk) =>
      if e.outcome == Done && a in e.db.attempts && e.db.attempts[a].feature in e.db.features
      then w.cancels[id := TicketFor(e.db, a, identityOk)] else w.cancels
    case DoSwapCancel(id) =>
      if id !in w.cancels then w.cancels
      else if e.outcome == Done then w.cancels[id := w.cancels[id].(stage := Swapped)]
      else if w.cancels[id].replaced && e.outcome == Refused(RowChanged)
      then w.cancels[id := w.cancels[id].(stage := Missed)]
      else w.cancels - {id}
    case DoCloseCancel(id) => w.cancels - {id}
    case DoAbandonCancel(id) => if id in w.cancels then w.cancels[id := w.cancels[id].(alive := false)] else w.cancels
    case _ => w.cancels
  }

  ghost function LeftAfter(w: World, s: Step, e: Effect): set<AttemptId> {
    if s.DoSwapCancel? && s.id in w.cancels && e.outcome == Done
    then w.left + LiveOf(w.db, w.cancels[s.id].feature) else w.left
  }

  ghost function Next(w: World, s: Step, maxConcurrent: nat): World
    requires Enabled(w, s, maxConcurrent)
  {
    var e := Write(w, s, maxConcurrent);
    World(e.db, CancelsAfter(w, s, e), StillLive(e.db, LeftAfter(w, s, e)))
  }

  const INITIAL: World := World(Db(map[], map[], map[], map[], []), map[], {})

  /** `worlds` is a run: it starts empty and each world follows by an enabled step. */
  ghost predicate IsRun(worlds: seq<World>, steps: seq<Step>, maxConcurrent: nat) {
    && |worlds| == |steps| + 1 && worlds[0] == INITIAL
    && forall i {:trigger steps[i]} :: 0 <= i < |steps| ==>
         Enabled(worlds[i], steps[i], maxConcurrent) && worlds[i + 1] == Next(worlds[i], steps[i], maxConcurrent)
  }

  // ---------------------------------------------------------------------
  // The joint invariant
  // ---------------------------------------------------------------------

  predicate IsLiveOf(db: Db, a: AttemptId, f: FeatureId) {
    a in db.attempts && db.attempts[a].feature == f && IsLive(db.attempts[a].status)
  }

  /** How a feature's state is tied to its attempts and its approvals. */
  ghost predicate CoupledAt(db: Db, f: FeatureId)
    requires f in db.features
  {
    var s := db.features[f].state;
    && LiveFitsState(db, f, s)
    && (forall a, b :: IsLiveOf(db, a, f) && IsLiveOf(db, b, f) ==> a == b)
    && (InDevelopment(s) ==> exists a :: IsLiveOf(db, a, f))
    && (forall p, q :: IsActiveApprovalOf(db, p, f) && IsActiveApprovalOf(db, q, f) ==> p == q)
    && (s == Planned || s == TasksReview ==> forall p :: !IsActiveApprovalOf(db, p, f))
    && (forall a :: a in db.attempts && db.attempts[a].feature == f && db.attempts[a].status == Succeeded ==>
          IsPastDevelopment(s))
  }

  ghost predicate LiveFitsState(db: Db, f: FeatureId, s: FeatureState) {
    forall a :: IsLiveOf(db, a, f) ==>
      && InDevelopment(s)
      && (db.attempts[a].status == AttemptQueued ==> s == Queued)
      && IsActiveApprovalOf(db, db.attempts[a].approval, f)
  }

  /** Rows refer to rows that exist, and every attempt has a record under its own operation key. */
  ghost predicate Linked(db: Db) {
    && (forall a {:trigger LinkedAttempt(db, a)} :: a in db.attempts ==> LinkedAttempt(db, a))
    && (forall p :: p in db.approvals ==> db.approvals[p].feature in db.features)
  }

  ghost predicate LinkedAttempt(db: Db, a: AttemptId)
    requires a in db.attempts
  {
    var t := db.attempts[a];
    && t.feature in db.features && db.features[t.feature].project == t.project
    && t.approval in db.approvals && db.approvals[t.approval].feature == t.feature
    && t.operationKey in db.records && db.records[t.operationKey].attempt == Some(a)
  }

  ghost predicate Coupled(db: Db) {
    Linked(db) && forall f {:trigger CoupledAt(db, f)} :: f in db.features ==> CoupledAt(db, f)
  }

  // ---------------------------------------------------------------------
  // Shapes of write that keep it
  // ---------------------------------------------------------------------

  /** `after` has the same attempts and approvals of `f` as `db`, and the same state of `f`. */
  ghost predicate SameFor(db: Db, after: Db, f: FeatureId) {
    && f in db.features && f in after.features && after.features[f].state == db.features[f].state
    && (forall a :: (a in db.attempts && db.attempts[a].feature == f)
               <==> (a in after.attempts && after.attempts[a].feature == f))
    && (forall a :: a in db.attempts && db.attempts[a].feature == f ==>
          db.attempts[a].status == after.attempts[a].status && db.attempts[a].approval == after.attempts[a].approval)
    && (forall p :: IsActiveApprovalOf(db, p, f) <==> IsActiveApprovalOf(after, p, f))
  }

  lemma CoupledFrame(db: Db, after: Db, f: FeatureId)
    requires SameFor(db, after, f) && CoupledAt(db, f)
    ensures CoupledAt(after, f)
  {
    assert forall a :: IsLiveOf(db, a, f) <==> IsLiveOf(after, a, f);
  }

  /** References stay good when rows are only added and keep what others refer to. */
  lemma LinksFrame(db: Db, after: Db)
    requires Linked(db)
    requires forall f :: f in db.features ==> f in after.features && after.features[f].project == db.features[f].project
    requires forall p :: p in db.approvals ==>
      p in after.approvals && after.approvals[p].feature == db.approvals[p].feature
    requires forall k :: k in db.records ==> k in after.records && after.records[k] == db.records[k]
    requires forall p :: p in after.approvals && p !in db.approvals ==> after.approvals[p].feature in after.features
    requires forall a :: a in after.attempts ==>
      (a in db.attempts && SameReferences(db.attempts[a], after.attempts[a])) || LinkedAttempt(after, a)
    ensures Linked(after)
  {
    forall a | a in after.attempts ensures LinkedAttempt(after, a) {
      if a in db.attempts { assert LinkedAttempt(db, a); }
    }
  }

  predicate SameReferences(u: Attempt, t: Attempt) {
    t.project == u.project && t.feature == u.feature && t.approval == u.approval && t.operationKey == u.operationKey
  }

  /** The invariant follows from its instance at the one feature that a write touches. */
  lemma TouchingOne(db: Db, after: Db, f: FeatureId)
    requires Coupled(db) && Linked(after) && f in after.features && CoupledAt(after, f)
    requires forall g {:trigger SameFor(db, after, g)} :: g in after.features && g != f ==> SameFor(db, after, g)
    ensures Coupled(after)
  {
    forall g | g in after.features ensures CoupledAt(after, g) {
      if g != f { CoupledFrame(db, after, g); }
    }
  }

  /** A new row for the attempt's feature and a new status for the attempt. */
  function Closing(db: Db, a: AttemptId, row: Feature, s: AttemptStatus): Db
    requires a in db.attempts
  {
    SetStatus(SetFeature(db, db.attempts[a].feature, row), a, s)
  }

  /** Closing the live attempt of a feature while moving the feature out of development. */
  lemma ClosingKeeps(db: Db, a: AttemptId, row: Feature, s: AttemptStatus)
    requires Coupled(db) && a in db.attempts && IsLive(db.attempts[a].status) && !IsLive(s)
    requires db.attempts[a].feature in db.features && row.project == db.features[db.attempts[a].feature].project
    requires !InDevelopment(row.state) && row.state != Planned && row.state != TasksReview
    requires s == Succeeded ==> IsPastDevelopment(row.state)
    ensures Coupled(Closing(db, a, row, s))
  {
    assert LinkedAttempt(db, a);
    var f := db.attempts[a].feature;
    var after := Closing(db, a, row, s);
    assert CoupledAt(db, f);
    ClosingAt(db, a, row, s);
    ClosingElsewhere(db, a, row, s);
    TouchingOne(db, after, f);
  }

  /** What such a write leaves alone. */
  lemma ClosingElsewhere(db: Db, a: AttemptId, row: Feature, s: AttemptStatus)
    requires Linked(db) && a in db.attempts && db.attempts[a].feature in db.features
    requires row.project == db.features[db.attempts[a].feature].project
    ensures Linked(Closing(db, a, row, s))
    ensures forall g {:trigger SameFor(db, Closing(db, a, row, s), g)} ::
              g in Closing(db, a, row, s).features && g != db.attempts[a].feature ==>
              SameFor(db, Closing(db, a, row, s), g)
  {
    assert LinkedAttempt(db, a);
    LinksFrame(db, Closing(db, a, row, s));
  }

  lemma ClosingAt(db: Db, a: AttemptId, row: Feature, s: AttemptStatus)
    requires a in db.attempts && IsLive(db.attempts[a].status) && !IsLive(s)
    requires db.attempts[a].feature in db.features && CoupledAt(db, db.attempts[a].feature)
    requires !InDevelopment(row.state) && row.state != Planned && row.state != TasksReview
    requires s == Succeeded ==> IsPastDevelopment(row.state)
    ensures CoupledAt(Closing(db, a, row, s), db.attempts[a].feature)
  {
    var f := db.attempts[a].feature;
    var after := Closing(db, a, row, s);
    assert IsLiveOf(db, a, f);
    assert forall b :: IsLiveOf(after, b, f) ==> IsLiveOf(db, b, f) && b != a;
    assert forall p :: IsActiveApprovalOf(after, p, f) ==> IsActiveApprovalOf(db, p, f);
  }

  /** Rewriting an attempt without closing it or moving it back to the queue. */
  lemma RelabellingKeeps(db: Db, a: AttemptId, t: Attempt)
    requires Coupled(db) && a in db.attempts
    requires IsRelabelling(db.attempts[a], t)
    ensures Coupled(db.(attempts := db.attempts[a := t]))
  {
    var after := db.(attempts := db.attempts[a := t]);
    assert LinkedAttempt(db, a);
    RelabellingAt(db, a, t);
    LinksFrame(db, after);
    forall g | g in after.features && g != t.feature ensures SameFor(db, after, g) {}
    TouchingOne(db, after, t.feature);
  }

  predicate IsRelabelling(u: Attempt, t: Attempt) {
    && SameReferences(u, t)
    && (t.status == u.status || (IsLive(u.status) && IsActive(t.status)))
  }

  lemma RelabellingAt(db: Db, a: AttemptId, t: Attempt)
    requires a in db.attempts && t.feature in db.features && CoupledAt(db, t.feature)
    requires IsRelabelling(db.attempts[a], t)
    ensures CoupledAt(db.(attempts := db.attempts[a := t]), t.feature)
  {
    var after := db.(attempts := db.attempts[a := t]);
    assert forall b :: IsLiveOf(after, b, t.feature) <==> IsLiveOf(db, b, t.feature);
    assert forall p :: IsActiveApprovalOf(after, p, t.feature) <==> IsActiveApprovalOf(db, p, t.feature);
  }

  /** Moving a feature from and to a state out of development. */
  lemma MovingKeeps(db: Db, f: FeatureId, row: Feature)
    requires Coupled(db) && f in db.features && row.project == db.features[f].project
    requires !InDevelopment(db.features[f].state) && !InDevelopment(row.state)
    requires IsPastDevelopment(db.features[f].state) ==> IsPastDevelopment(row.state)
    requires row.state == Planned || row.state == TasksReview ==> !HasActiveApproval(db, f)
    ensures Coupled(SetFeature(db, f, row))
  {
    var after := SetFeature(db, f, row);
    LinksFrame(db, after);
    assert CoupledAt(db, f);
    MovingAt(db, f, row);
    forall g | g in after.features && g != f ensures SameFor(db, after, g) {}
    TouchingOne(db, after, f);
  }

  lemma MovingAt(db: Db, f: FeatureId, row: Feature)
    requires f in db.features && CoupledAt(db, f)
    requires !InDevelopment(db.features[f].state) && !InDevelopment(row.state)
    requires IsPastDevelopment(db.features[f].state) ==> IsPastDevelopment(row.state)
    requires row.state == Planned || row.state == TasksReview ==> !HasActiveApproval(db, f)
    ensures CoupledAt(SetFeature(db, f, row), f)
  {
    var after := SetFeature(db, f, row);
    assert forall b :: IsLiveOf(after, b, f) <==> IsLiveOf(db, b, f);
    assert forall p :: IsActiveApprovalOf(after, p, f) <==> IsActiveApprovalOf(db, p, f);
  }

  lemma CreatingKeeps(db: Db, f: FeatureId, row: Feature)
    requires Coupled(db) && f !in db.features && row.state == Planned
    ensures Coupled(SetFeature(db, f, row))
  {
    var after := SetFeature(db, f, row);
    LinksFrame(db, after);
    forall b | b in db.attempts ensures db.attempts[b].feature != f { assert LinkedAttempt(db, b); }
    assert CoupledAt(after, f) by {
      assert forall b :: !IsLiveOf(after, b, f);
      assert forall p :: !IsActiveApprovalOf(after, p, f);
    }
    forall g | g in after.features && g != f ensures SameFor(db, after, g) {}
    TouchingOne(db, after, f);
  }

  /** `approvals` lets the queued attempt `t` run: under the feature's active approval, or its first one. */
  ghost predicate MayQueue(db: Db, t: Attempt, approvals: map<ApprovalId, Approval>) {
    && t.status == AttemptQueued && t.feature in db.features && t.project == db.features[t.feature].project
    && ((&& db.features[t.feature].state == TasksReview && t.approval !in db.approvals
         && approvals == db.approvals[t.approval := Approval(t.project, t.feature, true)])
        || (&& IsReattachState(db.features[t.feature].state) && IsActiveApprovalOf(db, t.approval, t.feature)
            && approvals == db.approvals))
  }

  function Queueing(db: Db, a: AttemptId, t: Attempt, row: Feature, approvals: map<ApprovalId, Approval>,
        record: Record): Db
  {
    Db(db.features[t.feature := row], db.attempts[a := t], approvals, db.records[t.operationKey := record], db.outbox)
  }

  lemma QueueingKeeps(db: Db, a: AttemptId, t: Attempt, row: Feature, approvals: map<ApprovalId, Approval>,
        record: Record)
    requires Coupled(db) && a !in db.attempts && t.operationKey !in db.records && MayQueue(db, t, approvals)
    requires row.project == t.project && row.state == Queued && record.attempt == Some(a)
    ensures Coupled(Queueing(db, a, t, row, approvals, record))
  {
    var after := Queueing(db, a, t, row, approvals, record);
    QueueingAt(db, a, t, row, approvals, record);
    QueueingLinks(db, a, t, row, approvals, record);
    forall g | g in after.features && g != t.feature ensures SameFor(db, after, g) {
      QueueingElsewhere(db, a, t, row, approvals, record, g);
    }
    TouchingOne(db, after, t.feature);
  }

  lemma QueueingLinks(db: Db, a: AttemptId, t: Attempt, row: Feature, approvals: map<ApprovalId, Approval>,
        record: Record)
    requires Linked(db) && a !in db.attempts && t.operationKey !in db.records && MayQueue(db, t, approvals)
    requires row.project == t.project && record.attempt == Some(a)
    ensures Linked(Queueing(db, a, t, row, approvals, record))
  {
    LinksFrame(db, Queueing(db, a, t, row, approvals, record));
  }

  lemma QueueingElsewhere(db: Db, a: AttemptId, t: Attempt, row: Feature, approvals: map<ApprovalId, Approval>,
        record: Record, g: FeatureId)
    requires a !in db.attempts && MayQueue(db, t, approvals) && g in db.features && g != t.feature
    ensures SameFor(db, Queueing(db, a, t, row, approvals, record), g)
  {}

  lemma QueueingAt(db: Db, a: AttemptId, t: Attempt, row: Feature, approvals: map<ApprovalId, Approval>, record: Record)
    requires a !in db.attempts && MayQueue(db, t, approvals) && CoupledAt(db, t.feature) && row.state == Queued
    ensures CoupledAt(Queueing(db, a, t, row, approvals, record), t.feature)
  {
    var f, after := t.feature, Queueing(db, a, t, row, approvals, record);
    assert IsLiveOf(after, a, f);
    assert forall b :: IsLiveOf(after, b, f) <==> b == a;
    assert forall p :: IsActiveApprovalOf(after, p, f) ==> p == t.approval || IsActiveApprovalOf(db, p, f);
  }

  function Invalidating(db: Db, p: ApprovalId): Db
    requires p in db.approvals
  {
    db.(approvals := db.approvals[p := db.approvals[p].(active := false)])
  }

  /** Invalidating the active approval of a feature that is out of development. */
  lemma InvalidatingKeeps(db: Db, f: FeatureId, p: ApprovalId)
    requires Coupled(db) && IsActiveApprovalOf(db, p, f) && f in db.features && !InDevelopment(db.features[f].state)
    ensures Coupled(Invalidating(db, p)) && !HasActiveApproval(Invalidating(db, p), f)
  {
    var after := Invalidating(db, p);
    InvalidatingAt(db, f, p);
    LinksFrame(db, after);
    forall g | g in after.features && g != f ensures SameFor(db, after, g) {}
    TouchingOne(db, after, f);
  }

  lemma InvalidatingAt(db: Db, f: FeatureId, p: ApprovalId)
    requires IsActiveApprovalOf(db, p, f) && f in db.features && CoupledAt(db, f)
    requires !InDevelopment(db.features[f].state)
    ensures CoupledAt(Invalidating(db, p), f) && !HasActiveApproval(Invalidating(db, p), f)
  {
    var after := Invalidating(db, p);
    assert forall b :: IsLiveOf(after, b, f) <==> IsLiveOf(db, b, f);
    assert forall q :: IsActiveApprovalOf(after, q, f) ==> IsActiveApprovalOf(db, q, f) && q != p;
  }

  /** Records and intents may be added freely, as long as no record is overwritten. */
  lemma RecordingKeeps(db: Db, key: OperationKey, record: Record, outbox: seq<Intent>)
    requires Coupled(db) && key !in db.records
    ensures Coupled(db.(records := db.records[key := record], outbox := outbox))
  {
    var after := db.(records := db.records[key := record], outbox := outbox);
    forall g | g in after.features ensures CoupledAt(after, g) {
      assert CoupledAt(db, g);
      CoupledFrame(db, after, g);
    }
    LinksFrame(db, after);
  }

  // ---------------------------------------------------------------------
  // What every step may change
  // ---------------------------------------------------------------------

  /** Attempt statuses only advance, and the closed ones stay. */
  predicate Advances(s: AttemptStatus, t: AttemptStatus) {
    || s == t
    || (s == AttemptQueued && (t == Running || t == Cancelled))
    || (s == Running && (t == CancelRequested || t == Succeeded || t == Failed || t == Interrupted))
    || (s == CancelRequested && (t == Cancelled || t == Failed || t == Interrupted))
  }

  ghost predicate FeatureProgress(u: Feature, v: Feature) {
    && v.project == u.project
    && if u.version == v.version then u.state == v.state
       else u.version < v.version && (u.state == v.state || IsLawful(u.state, v.state))
  }

  predicate AttemptProgress(u: Attempt, v: Attempt) {
    && SameReferences(u, v) && u.enqueuedAt == v.enqueuedAt && u.predecessor == v.predecessor
    && Advances(u.status, v.status)
  }

  /** Leaving CANCEL_REQUESTED always comes with a new version of the feature's row. */
  predicate CancelKeptOrMoved(db: Db, after: Db, a: AttemptId)
    requires a in db.attempts && a in after.attempts
  {
    var f := db.attempts[a].feature;
    (&& db.attempts[a].status == CancelRequested && after.attempts[a].status != CancelRequested
     && f in db.features && f in after.features) ==> db.features[f].version < after.features[f].version
  }

  /** Approvals keep their feature, and idempotency records are permanent. */
  predicate RowsKept(db: Db, after: Db) {
    && (forall p :: p in db.approvals ==> p in after.approvals && after.approvals[p].feature == db.approvals[p].feature)
    && (forall k :: k in db.records ==> k in after.records && after.records[k] == db.records[k])
  }

  ghost predicate Progress(db: Db, after: Db) {
    && RowsKept(db, after)
    && (forall f :: f in db.features ==> f in after.features && FeatureProgress(db.features[f], after.features[f]))
    && (forall a :: a in db.attempts ==>
          a in after.attempts && AttemptProgress(db.attempts[a], after.attempts[a]) && CancelKeptOrMoved(db, after, a))
    && (forall f :: f in after.features && f !in db.features ==> after.features[f].state == Planned)
    && (forall a :: a in after.attempts && a !in db.attempts ==> after.attempts[a].status == AttemptQueued)
  }

  lemma NoProgress(db: Db)
    ensures Progress(db, db)
  {}

  lemma ClosingProgress(db: Db, a: AttemptId, row: Feature, s: AttemptStatus)
    requires a in db.attempts && db.attempts[a].feature in db.features
    requires FeatureProgress(db.features[db.attempts[a].feature], row) && Advances(db.attempts[a].status, s)
    requires db.features[db.attempts[a].feature].version < row.version
    ensures Progress(db, Closing(db, a, row, s))
  {}

  lemma RelabellingProgress(db: Db, a: AttemptId, t: Attempt)
    requires a in db.attempts && AttemptProgress(db.attempts[a], t)
    requires db.attempts[a].status == CancelRequested ==> t.status == CancelRequested
    ensures Progress(db, db.(attempts := db.attempts[a := t]))
  {}

  lemma MovingProgress(db: Db, f: FeatureId, row: Feature)
    requires if f in db.features then FeatureProgress(db.features[f], row) else row.state == Planned
    ensures Progress(db, SetFeature(db, f, row))
  {}

  lemma QueueingProgress(db: Db, a: AttemptId, t: Attempt, row: Feature, approvals: map<ApprovalId, Approval>,
        record: Record)
    requires a !in db.attempts && t.status == AttemptQueued
    requires t.operationKey !in db.records && MayQueue(db, t, approvals)
    requires t.feature in db.features && FeatureProgress(db.features[t.feature], row)
    ensures Progress(db, Queueing(db, a, t, row, approvals, record))
  {}

  // ---------------------------------------------------------------------
  // Every operation keeps the invariant and makes progress
  // ---------------------------------------------------------------------

  ghost predicate Good(db: Db, after: Db) { Coupled(after) && Progress(db, after) }

  lemma AllowedIsProgress(row: Feature, to: FeatureState, owner: TransitionOwner)
    requires Move(row, to, owner).Some?
    ensures FeatureProgress(row, Move(row, to, owner).value)
    ensures IsAllowed(row.state, to, owner)
    ensures Move(row, to, owner).value == row.(state := to, version := row.version + 1)
  {}

  /** Any closing move of a live attempt. */
  lemma CloseIsGood(db: Db, a: AttemptId, to: FeatureState, owner: TransitionOwner, s: AttemptStatus)
    requires Coupled(db) && a in db.attempts && IsLive(db.attempts[a].status)
    requires !IsLive(s) && Advances(db.attempts[a].status, s)
    requires !InDevelopment(to) && to != Planned && to != TasksReview && (s == Succeeded ==> IsPastDevelopment(to))
    ensures Good(db, MoveAndSet(db, a, to, owner, s).db)
  {
    assert LinkedAttempt(db, a);
    var row := db.features[db.attempts[a].feature];
    var moved := Move(row, to, owner);
    MovingIsProgress(row, to, owner);
    assert MoveAndSet(db, a, to, owner, s) == StoreMoveAndSet(db, a, moved, s);
    ClosingMoveIsGood(db, a, moved, s);
  }

  lemma MovingIsProgress(row: Feature, to: FeatureState, owner: TransitionOwner)
    ensures var moved := Move(row, to, owner);
      moved.Some? ==>
        moved.value.state == to && moved.value.version == row.version + 1 && FeatureProgress(row, moved.value)
  {
    if Move(row, to, owner).Some? { AllowedIsProgress(row, to, owner); }
  }

  lemma ClosingMoveIsGood(db: Db, a: AttemptId, moved: Option<Feature>, s: AttemptStatus)
    requires Coupled(db) && a in db.attempts && IsLive(db.attempts[a].status)
    requires !IsLive(s) && Advances(db.attempts[a].status, s)
    requires db.attempts[a].feature in db.features
    requires moved.Some? ==>
      var row := db.features[db.attempts[a].feature];
      && FeatureProgress(row, moved.value) && row.version < moved.value.version
      && !InDevelopment(moved.value.state) && moved.value.state != Planned && moved.value.state != TasksReview
      && (s == Succeeded ==> IsPastDevelopment(moved.value.state))
    ensures Good(db, StoreMoveAndSet(db, a, moved, s).db)
  {
    NoProgress(db);
    if moved.Some? {
      ClosingKeeps(db, a, moved.value, s);
      ClosingProgress(db, a, moved.value, s);
    }
  }

  /** Any guarded move of a feature whose development is over. */
  lemma TransitionIsGood(db: Db, f: FeatureId, from: FeatureState, to: FeatureState, owner: TransitionOwner)
    requires Coupled(db) && IsPastDevelopment(from) && IsPastDevelopment(to)
    ensures Good(db, TransitionFeature(db, f, from, to, owner).db)
  {
    NoProgress(db);
    if TransitionFeature(db, f, from, to, owner).outcome == Done {
      var row := TransitionFeature(db, f, from, to, owner).db.features[f];
      AllowedIsProgress(db.features[f], to, owner);
      MovingKeeps(db, f, row);
      MovingProgress(db, f, row);
    }
  }

  lemma FailHandoffIsGood(db: Db, f: FeatureId)
    requires Coupled(db)
    ensures Good(db, FailHandoff(db, f).db)
  {
    NoProgress(db);
    if f in db.features {
      if db.features[f].state == PrCreating {
        TransitionIsGood(db, f, PrCreating, PrCreationFailed, GithubAdapter);
      } else {
        assert !IsAllowed(db.features[f].state, PrCreationFailed, GithubAdapter);
      }
    }
  }

  lemma PollIsGood(db: Db, f: FeatureId, target: FeatureState)
    requires Coupled(db)
    ensures Good(db, Poll(db, f, target).db)
  {
    NoProgress(db);
    if Poll(db, f, target).outcome == Done {
      var from, owner := db.features[f].state, if target == Blocked then Guard else Poller;
      AllowedFromPullRequest(from, target, owner);
      TransitionIsGood(db, f, from, target, owner);
    }
  }

  lemma AllowedFromPullRequest(from: FeatureState, to: FeatureState, owner: TransitionOwner)
    requires IsPullRequestState(from) && IsAllowed(from, to, owner)
    ensures IsPullRequestState(to) || to == Blocked
  {}

  lemma AttachIsGood(db: Db, f: FeatureId, path: string, parses: bool)
    requires Coupled(db)
    ensures Good(db, AttachTask(db, f, path, parses).db)
  {
    NoProgress(db);
    if AttachTask(db, f, path, parses).outcome == Done {
      assert CoupledAt(db, f);
      var row := AttachTask(db, f, path, parses).db.features[f];
      assert IsAllowed(Planned, TasksReview, HumanAndValidation);
      MovingKeeps(db, f, row);
      MovingProgress(db, f, row);
    }
  }

  lemma RemoveIsGood(db: Db, f: FeatureId)
    requires Coupled(db)
    ensures Good(db, RemoveTask(db, f).db)
  {
    NoProgress(db);
    if RemoveTask(db, f).outcome == Done {
      assert CoupledAt(db, f);
      var row := RemoveTask(db, f).db.features[f];
      assert IsAllowed(TasksReview, Planned, Human);
      MovingKeeps(db, f, row);
      MovingProgress(db, f, row);
    }
  }

  lemma ApproveIsGood(db: Db, r: ApproveRequest)
    requires Coupled(db) && r.approval !in db.approvals && r.attempt !in db.attempts
    ensures Good(db, ApproveAndQueue(db, r).db)
  {
    NoProgress(db);
    if ApproveAndQueue(db, r).outcome == Done {
      var after := ApproveAndQueue(db, r).db;
      AllowedIsProgress(db.features[r.feature], Queued, Human);
      var attempt, row, record := after.attempts[r.attempt], after.features[r.feature], after.records[r.key];
      QueueingKeeps(db, r.attempt, attempt, row, after.approvals, record);
      QueueingProgress(db, r.attempt, attempt, row, after.approvals, record);
    }
  }

  lemma RetryIsGood(db: Db, r: RetryRequest, latest: Option<AttemptId>, alive: bool)
    requires Coupled(db) && r.attempt !in db.attempts && (latest.Some? ==> latest.value in db.attempts)
    ensures Good(db, Retry(db, r, latest, alive).db)
  {
    NoProgress(db);
    if Retry(db, r, latest, alive).outcome == Done {
      var after := Retry(db, r, latest, alive).db;
      AllowedIsProgress(db.features[r.feature], Queued, Human);
      var attempt, row, record := after.attempts[r.attempt], after.features[r.feature], after.records[r.key];
      QueueingKeeps(db, r.attempt, attempt, row, db.approvals, record);
      QueueingProgress(db, r.attempt, attempt, row, db.approvals, record);
    }
  }

  lemma InvalidateIsGood(db: Db, f: FeatureId, project: Option<ProjectId>, p: ApprovalId)
    requires Coupled(db)
    ensures Good(db, InvalidateApproval(db, f, project, p).db)
  {
    NoProgress(db);
    if InvalidateApproval(db, f, project, p).outcome == Done {
      InvalidatingKeeps(db, f, p);
    }
  }

  lemma ReplaceWriteIsGood(db: Db, r: ReplaceRequest)
    requires Coupled(db) && r.feature in db.features && ReplaceWrite(db, r).outcome == Done
    requires IsReattachState(db.features[r.feature].state)
    ensures Good(db, ReplaceWrite(db, r).db)
  {
    var after, mid := ReplaceWrite(db, r).db, Invalidating(db, r.approval);
    InvalidatingKeeps(db, r.feature, r.approval);
    MovingKeeps(mid, r.feature, after.features[r.feature]);
    var moved := SetFeature(mid, r.feature, after.features[r.feature]);
    RecordingKeeps(moved, r.key, after.records[r.key], moved.outbox);
    assert after == moved.(records := moved.records[r.key := after.records[r.key]], outbox := moved.outbox);
    ReplacingProgress(db, r);
  }

  lemma ReplacingProgress(db: Db, r: ReplaceRequest)
    requires r.feature in db.features && ReplaceWrite(db, r).outcome == Done
    requires IsReattachState(db.features[r.feature].state)
    ensures Progress(db, ReplaceWrite(db, r).db)
  {
    assert IsReattachJump(db.features[r.feature].state, TasksReview);
  }

  lemma ReplaceIsGood(db: Db, r: ReplaceRequest)
    requires Coupled(db)
    ensures Good(db, ReplaceTask(db, r).db)
  {
    NoProgress(db);
    if ReplaceTask(db, r).outcome == Done { ReplaceWriteIsGood(db, r); }
  }

  lemma ClaimIsGood(db: Db, target: AttemptId, w: WorkerId, lease: Time)
    requires Coupled(db) && target in db.attempts && db.attempts[target].status == AttemptQueued
    ensures Good(db, Claimed(db, target, w, lease))
  {
    var t := db.attempts[target].(status := Running, worker := Some(w), lease := Some(lease));
    RelabellingKeeps(db, target, t);
    RelabellingProgress(db, target, t);
  }

  lemma MarkDevelopingIsGood(db: Db, a: AttemptId, w: WorkerId)
    requires Coupled(db)
    ensures Good(db, MarkDeveloping(db, a, w).db)
  {
    NoProgress(db);
    if MarkDeveloping(db, a, w).outcome == Done {
      var row := db.features[db.attempts[a].feature];
      MovingIsProgress(row, Developing, Worker);
      var moved := Move(row, Developing, Worker).value;
      assert MarkDeveloping(db, a, w).db == Closing(db, a, moved, Running);
      ClosingProgress(db, a, moved, Running);
      DevelopingKeeps(db, a, moved);
    }
  }

  lemma DevelopingKeeps(db: Db, a: AttemptId, row: Feature)
    requires Coupled(db) && a in db.attempts && db.attempts[a].status == Running && row.state == Developing
    requires db.attempts[a].feature in db.features && row.project == db.features[db.attempts[a].feature].project
    ensures Coupled(Closing(db, a, row, Running))
  {
    var f, after := db.attempts[a].feature, Closing(db, a, row, Running);
    assert CoupledAt(db, f);
    DevelopingAt(db, a, row);
    ClosingElsewhere(db, a, row, Running);
    TouchingOne(db, after, f);
  }

  lemma DevelopingAt(db: Db, a: AttemptId, row: Feature)
    requires a in db.attempts && db.attempts[a].status == Running && row.state == Developing
    requires db.attempts[a].feature in db.features && CoupledAt(db, db.attempts[a].feature)
    ensures CoupledAt(Closing(db, a, row, Running), db.attempts[a].feature)
  {
    var f, after := db.attempts[a].feature, Closing(db, a, row, Running);
    assert IsLiveOf(db, a, f);
    assert forall b :: IsLiveOf(after, b, f) <==> IsLiveOf(db, b, f);
    assert forall p :: IsActiveApprovalOf(after, p, f) <==> IsActiveApprovalOf(db, p, f);
  }

  lemma SucceedIsGood(db: Db, a: AttemptId, w: WorkerId)
    requires Coupled(db)
    ensures Good(db, PersistSuccess(db, a, w).db)
  {
    if Owns(db, a, w) {
      CloseIsGood(db, a, DevelopmentComplete, AgentResultAndVerification, Succeeded);
      SuccessIsCloseAndIntent(db, a, w);
      OutboxIsIrrelevant(db, MoveAndSet(db, a, DevelopmentComplete, AgentResultAndVerification, Succeeded).db,
                         PersistSuccess(db, a, w).db.outbox);
    } else {
      NoProgress(db);
    }
  }

  lemma SuccessIsCloseAndIntent(db: Db, a: AttemptId, w: WorkerId)
    requires Owns(db, a, w)
    ensures var closed := MoveAndSet(db, a, DevelopmentComplete, AgentResultAndVerification, Succeeded).db;
      PersistSuccess(db, a, w).db == closed.(outbox := PersistSuccess(db, a, w).db.outbox)
  {}

  lemma OutboxIsIrrelevant(db: Db, after: Db, outbox: seq<Intent>)
    requires Good(db, after)
    ensures Good(db, after.(outbox := outbox))
  {
    OutboxKeeps(after, outbox);
  }

  lemma OutboxKeeps(db: Db, outbox: seq<Intent>)
    requires Coupled(db)
    ensures Coupled(db.(outbox := outbox))
  {
    var after := db.(outbox := outbox);
    forall g | g in after.features ensures CoupledAt(after, g) {
      assert CoupledAt(db, g);
      CoupledFrame(db, after, g);
    }
    LinksFrame(db, after);
  }

  lemma FailIsGood(db: Db, a: AttemptId, w: WorkerId, blocks: bool)
    requires Coupled(db)
    ensures Good(db, PersistFailure(db, a, w, blocks).db)
  {
    NoProgress(db);
    if Owns(db, a, w) {
      CloseIsGood(db, a, Blocked, Guard, Failed);
      CloseIsGood(db, a, DevelopmentFailed, Worker, Failed);
    }
  }

  lemma CancelQueuedIsGood(db: Db, a: AttemptId)
    requires Coupled(db)
    ensures Good(db, CancelQueued(db, a).db)
  {
    NoProgress(db);
    if CancelQueued(db, a).outcome == Done {
      CloseIsGood(db, a, DevelopmentCancelled, Human, Cancelled);
    }
  }

  lemma ReconcileIsGood(db: Db, a: AttemptId, observedAt: Time)
    requires Coupled(db)
    ensures Good(db, ReconcileOrphan(db, a, observedAt).db)
  {
    NoProgress(db);
    if IsOrphan(db, a, observedAt) {
      CloseIsGood(db, a, DevelopmentInterrupted, Reconciliation, Interrupted);
    }
  }

  lemma StoreResultIsGood(db: Db, key: OperationKey, project: ProjectId, f: Option<FeatureId>, a: Option<AttemptId>)
    requires Coupled(db)
    ensures Good(db, StoreResult(db, key, project, f, a).db)
  {
    NoProgress(db);
    if key !in db.records {
      RecordingKeeps(db, key, Record(project, f, a, OtherResult), db.outbox);
      assert db.outbox == StoreResult(db, key, project, f, a).db.outbox;
    }
  }

  lemma CreateIsGood(db: Db, f: FeatureId, project: ProjectId, branch: string)
    requires Coupled(db)
    ensures Good(db, CreateFeature(db, f, project, branch).db)
  {
    NoProgress(db);
    if f !in db.features {
      CreatingKeeps(db, f, Feature(project, Planned, 1, None, branch));
      MovingProgress(db, f, Feature(project, Planned, 1, None, branch));
    }
  }
}
