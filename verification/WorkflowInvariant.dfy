// The joint invariant over runs. A cancellation's two final writes are separate
// statements, so a feature can be moved while its attempt is still open, and the
// second write may never come. The invariant says that everything is coupled but
// for the attempts left behind in this way, and what is known of those.
module WorkflowInvariant {
  import opened Wrappers
  import opened FeatureStateMachine
  import opened Workflow
  import opened WorkflowSafety

  /** The rows without the attempts left behind. */
  function Attached(db: Db, left: set<AttemptId>): Db { db.(attempts := db.attempts - left) }

  /** Every other live attempt of the feature still waits in the queue. */
  ghost predicate OthersWait(db: Db, left: set<AttemptId>, f: FeatureId) {
    forall b :: b !in left && IsLiveOf(db, b, f) ==> db.attempts[b].status == AttemptQueued
  }

  /** An attempt left behind waits to be cancelled, unless its feature is blocked. */
  ghost predicate LeftFits(db: Db, left: set<AttemptId>, a: AttemptId) {
    && a in db.attempts && IsLive(db.attempts[a].status) && db.attempts[a].feature in db.features
    && (|| db.features[db.attempts[a].feature].state == Blocked
        || (db.attempts[a].status == CancelRequested && OthersWait(db, left, db.attempts[a].feature)))
  }

  ghost predicate Sound(db: Db, left: set<AttemptId>) {
    && Linked(db) && Coupled(Attached(db, left))
    && forall a {:trigger LeftFits(db, left, a)} :: a in left ==> LeftFits(db, left, a)
  }

  lemma AttachedIsLinked(db: Db, left: set<AttemptId>)
    requires Linked(db)
    ensures Linked(Attached(db, left))
  {
    var rest := Attached(db, left);
    forall a | a in rest.attempts ensures LinkedAttempt(rest, a) { assert LinkedAttempt(db, a); }
  }

  /** A developing feature has no attempt left behind. */
  lemma DevelopingLeavesNone(db: Db, left: set<AttemptId>, a: AttemptId)
    requires Sound(db, left) && a in left
    ensures a in db.attempts && db.attempts[a].feature in db.features
    ensures db.features[db.attempts[a].feature].state != Developing
  {
    assert LeftFits(db, left, a);
    var f, rest := db.attempts[a].feature, Attached(db, left);
    assert CoupledAt(rest, f);
    assert forall b :: IsLiveOf(rest, b, f) ==> b !in left && IsLiveOf(db, b, f);
  }

  // ---------------------------------------------------------------------
  // Writes that leave the attempts left behind alone
  // ---------------------------------------------------------------------

  ghost predicate SameLeft(db: Db, after: Db, left: set<AttemptId>) {
    forall a :: a in left ==> a in db.attempts && a in after.attempts && after.attempts[a] == db.attempts[a]
  }

  /** An attempt becomes RUNNING only while no attempt of its project is active. */
  predicate ClaimsIdle(db: Db, after: Db) {
    forall b :: b in db.attempts && b in after.attempts
      && !IsActive(db.attempts[b].status) && IsActive(after.attempts[b].status)
      ==> !ProjectIsBusy(db, db.attempts[b].project)
  }

  lemma AttachedStaysSound(db: Db, after: Db, left: set<AttemptId>)
    requires Sound(db, left) && Good(Attached(db, left), Attached(after, left))
    requires SameLeft(db, after, left) && ClaimsIdle(db, after)
    ensures Sound(after, left) && Progress(db, after)
  {
    AttachedProgresses(db, after, left);
    forall a | a in after.attempts ensures LinkedAttempt(after, a) {
      if a in left { assert LinkedAttempt(db, a); } else { assert LinkedAttempt(Attached(after, left), a); }
    }
    forall a | a in left ensures LeftFits(after, left, a) {
      LeftStillFits(db, after, left, a);
    }
  }

  lemma AttachedProgresses(db: Db, after: Db, left: set<AttemptId>)
    requires Sound(db, left) && Good(Attached(db, left), Attached(after, left)) && SameLeft(db, after, left)
    ensures Progress(db, after)
  {
    var u, v := Attached(db, left), Attached(after, left);
    forall a | a in db.attempts
      ensures a in after.attempts
      ensures AttemptProgress(db.attempts[a], after.attempts[a]) && CancelKeptOrMoved(db, after, a)
    {
      if a !in left { assert a in u.attempts && a in v.attempts && CancelKeptOrMoved(u, v, a); }
    }
    forall a | a in after.attempts && a !in db.attempts ensures after.attempts[a].status == AttemptQueued {
      assert a !in left && a in v.attempts && a !in u.attempts;
    }
  }

  lemma LeftStillFits(db: Db, after: Db, left: set<AttemptId>, a: AttemptId)
    requires Sound(db, left) && Progress(db, after) && SameLeft(db, after, left) && ClaimsIdle(db, after) && a in left
    ensures LeftFits(after, left, a)
  {
    assert LeftFits(db, left, a) && LinkedAttempt(db, a);
    var f := db.attempts[a].feature;
    assert FeatureProgress(db.features[f], after.features[f]);
    if db.features[f].state != Blocked {
      forall b | b !in left && IsLiveOf(after, b, f) ensures after.attempts[b].status == AttemptQueued {
        if b in db.attempts {
          assert AttemptProgress(db.attempts[b], after.attempts[b]) && LinkedAttempt(db, b);
          assert IsLiveOf(db, b, f);
          assert IsActive(db.attempts[a].status) && db.attempts[a].project == db.attempts[b].project;
          assert ProjectIsBusy(db, db.attempts[b].project);
        }
      }
    }
  }

  // ---------------------------------------------------------------------
  // Writes to attempts left behind
  // ---------------------------------------------------------------------

  /** Rewriting an attempt that is left behind without closing it. */
  lemma RelabellingLeftIsSound(db: Db, left: set<AttemptId>, a: AttemptId, t: Attempt)
    requires Sound(db, left) && a in left && a in db.attempts && SameReferences(db.attempts[a], t) && IsLive(t.status)
    requires db.attempts[a].status == CancelRequested ==> t.status == CancelRequested
    ensures Sound(db.(attempts := db.attempts[a := t]), left)
  {
    var after := db.(attempts := db.attempts[a := t]);
    assert Attached(after, left) == Attached(db, left);
    assert LeftFits(db, left, a) && LinkedAttempt(db, a);
    LinksFrame(db, after);
    forall b | b in left ensures LeftFits(after, left, b) {
      assert LeftFits(db, left, b);
      assert OthersWait(db, left, db.attempts[b].feature) ==> OthersWait(after, left, db.attempts[b].feature);
    }
  }

  /** An attempt that is added closed, or rewritten from one closed status to another, disturbs nothing. */
  lemma SettingClosedKeeps(db: Db, a: AttemptId, t: Attempt)
    requires Coupled(db) && !IsLive(t.status) && t.status != Succeeded
    requires a in db.attempts ==> !IsLive(db.attempts[a].status) && SameReferences(db.attempts[a], t)
    requires LinkedAttempt(db.(attempts := db.attempts[a := t]), a)
    ensures Coupled(db.(attempts := db.attempts[a := t]))
  {
    var after := db.(attempts := db.attempts[a := t]);
    LinksFrame(db, after);
    forall f | f in after.features ensures CoupledAt(after, f) {
      assert CoupledAt(db, f);
      SettingClosedAt(db, a, t, f);
    }
  }

  lemma SettingClosedAt(db: Db, a: AttemptId, t: Attempt, f: FeatureId)
    requires f in db.features && CoupledAt(db, f) && !IsLive(t.status) && t.status != Succeeded
    requires a in db.attempts ==> !IsLive(db.attempts[a].status)
    ensures CoupledAt(db.(attempts := db.attempts[a := t]), f)
  {
    var after := db.(attempts := db.attempts[a := t]);
    assert forall b :: IsLiveOf(after, b, f) <==> IsLiveOf(db, b, f);
    assert forall p :: IsActiveApprovalOf(after, p, f) <==> IsActiveApprovalOf(db, p, f);
  }

  /** The second final write closes an attempt that is left behind, or rewrites a closed one. */
  lemma ClosingLeftIsSound(db: Db, left: set<AttemptId>, a: AttemptId, s: AttemptStatus)
    requires Sound(db, left) && a in db.attempts && (a in left || !IsLive(db.attempts[a].status))
    requires !IsLive(s) && s != Succeeded
    ensures Sound(SetStatus(db, a, s), left - {a})
  {
    var after, rest := SetStatus(db, a, s), left - {a};
    var t := after.attempts[a];
    assert LinkedAttempt(db, a);
    LinksFrame(db, after);
    var attached := Attached(db, left);
    assert Attached(after, rest) == attached.(attempts := attached.attempts[a := t]);
    AttachedIsLinked(after, rest);
    assert LinkedAttempt(Attached(after, rest), a);
    SettingClosedKeeps(attached, a, t);
    forall b | b in rest ensures LeftFits(after, rest, b) {
      assert LeftFits(db, left, b);
      assert OthersWait(db, left, db.attempts[b].feature) ==> OthersWait(after, rest, db.attempts[b].feature);
    }
  }

  /** A blocked feature's row may get a new version. */
  lemma BlockedRowIsSound(db: Db, left: set<AttemptId>, f: FeatureId, row: Feature)
    requires Sound(db, left) && f in db.features && db.features[f].state == Blocked == row.state
    requires row.project == db.features[f].project
    ensures Sound(SetFeature(db, f, row), left)
  {
    var after := SetFeature(db, f, row);
    MovingKeeps(Attached(db, left), f, row);
    assert Attached(after, left) == SetFeature(Attached(db, left), f, row);
    LinksFrame(db, after);
    forall b | b in left ensures LeftFits(after, left, b) {
      assert LeftFits(db, left, b);
      assert OthersWait(db, left, db.attempts[b].feature) ==> OthersWait(after, left, db.attempts[b].feature);
    }
  }

  // ---------------------------------------------------------------------
  // The first final write of a cancellation
  // ---------------------------------------------------------------------

  /** Moving a feature out of development and leaving its live attempts behind. */
  lemma LeavingKeeps(db: Db, left: set<AttemptId>, f: FeatureId, row: Feature)
    requires Sound(db, left) && f in db.features && row.project == db.features[f].project
    requires row.state == Blocked || (row.state == DevelopmentCancelled && db.features[f].state == Developing)
    ensures Coupled(Attached(SetFeature(db, f, row), left + LiveOf(db, f)))
  {
    var after := Attached(SetFeature(db, f, row), left + LiveOf(db, f));
    var before := Attached(db, left);
    AttachedIsLinked(SetFeature(db, f, row), left + LiveOf(db, f)) by { LinksFrame(db, SetFeature(db, f, row)); }
    assert CoupledAt(before, f);
    LeavingAt(before, after, f);
    forall g | g in after.features && g != f ensures SameFor(before, after, g) {
      LeavingElsewhere(db, left, f, row, g);
    }
    TouchingOne(before, after, f);
  }

  lemma LeavingElsewhere(db: Db, left: set<AttemptId>, f: FeatureId, row: Feature, g: FeatureId)
    requires f in db.features && g in db.features && g != f
    ensures SameFor(Attached(db, left), Attached(SetFeature(db, f, row), left + LiveOf(db, f)), g)
  {}

  lemma LeavingAt(before: Db, after: Db, f: FeatureId)
    requires f in before.features && f in after.features && CoupledAt(before, f)
    requires after.features[f].state == Blocked
          || (after.features[f].state == DevelopmentCancelled && before.features[f].state == Developing)
    requires after.approvals == before.approvals && forall a :: !IsLiveOf(after, a, f)
    requires forall a :: a in after.attempts ==> a in before.attempts && after.attempts[a] == before.attempts[a]
    ensures CoupledAt(after, f)
  {
    assert forall p :: IsActiveApprovalOf(after, p, f) <==> IsActiveApprovalOf(before, p, f);
  }

  /** The feature is blocked, or developing and about to be cancelled with its attempt `a`. */
  predicate MayLeave(db: Db, a: AttemptId, f: FeatureId, row: Feature)
    requires f in db.features
  {
    || row.state == Blocked
    || (&& row.state == DevelopmentCancelled && db.features[f].state == Developing && IsLiveOf(db, a, f)
        && db.attempts[a].status == CancelRequested)
  }

  lemma SwapIsSound(db: Db, left: set<AttemptId>, a: AttemptId, f: FeatureId, row: Feature)
    requires Sound(db, left) && f in db.features && row.project == db.features[f].project && MayLeave(db, a, f, row)
    ensures Sound(SetFeature(db, f, row), left + LiveOf(db, f))
  {
    var after, more := SetFeature(db, f, row), left + LiveOf(db, f);
    LinksFrame(db, after);
    LeavingKeeps(db, left, f, row);
    forall b | b in more ensures LeftFits(after, more, b) {
      if b in left { assert LeftFits(db, left, b); }
      if db.attempts[b].feature == f {
        NewlyLeftFits(db, left, a, f, row, b);
      } else {
        LeftElsewhereFits(db, left, f, row, b);
      }
    }
  }

  lemma LeftElsewhereFits(db: Db, left: set<AttemptId>, f: FeatureId, row: Feature, b: AttemptId)
    requires f in db.features && LeftFits(db, left, b) && db.attempts[b].feature != f
    ensures LeftFits(SetFeature(db, f, row), left + LiveOf(db, f), b)
  {
    var g := db.attempts[b].feature;
    assert OthersWait(db, left, g) ==> OthersWait(SetFeature(db, f, row), left + LiveOf(db, f), g);
  }

  lemma NewlyLeftFits(db: Db, left: set<AttemptId>, a: AttemptId, f: FeatureId, row: Feature, b: AttemptId)
    requires Sound(db, left) && f in db.features && MayLeave(db, a, f, row) && IsLiveOf(db, b, f)
    ensures LeftFits(SetFeature(db, f, row), left + LiveOf(db, f), b)
  {
    if row.state == DevelopmentCancelled {
      if a in left { DevelopingLeavesNone(db, left, a); }
      NoOtherIsLive(db, left, a, b);
      assert OthersWait(SetFeature(db, f, row), left + LiveOf(db, f), f);
    }
  }

  // ---------------------------------------------------------------------
  // Every ordinary step
  // ---------------------------------------------------------------------

  /** All steps but the two final writes of a cancellation. */
  predicate IsOrdinary(s: Step) { !s.DoSwapCancel? && !s.DoCloseCancel? }

  predicate IsTaskStep(s: Step) {
    match s
    case DoCreateFeature(_, _, _) | DoAttach(_, _, _) | DoRemove(_) | DoApprove(_) => true
    case DoInvalidate(_, _, _) | DoReplace(_) | DoRetry(_, _, _) => true
    case _ => false
  }

  /** The steps that go by an attempt. */
  predicate IsAttemptStep(s: Step) {
    match s
    case DoClaim(_, _, _) | DoMarkDeveloping(_, _) | DoPersistIdentity(_, _, _, _) | DoRenewLease(_, _, _) => true
    case DoSucceed(_, _) | DoFail(_, _, _) | DoRequestCancel(_) | DoCancelQueued(_) => true
    case DoBeginCancel(_, _, _, _) | DoReconcile(_, _) => true
    case _ => false
  }

  function AttemptOf(s: Step): AttemptId
    requires IsAttemptStep(s)
  {
    if s.DoClaim? then s.claimed else s.a
  }

  /** What an ordinary step does to the rows of `db`, if it does not go by an attempt left behind. */
  ghost predicate IsUndisturbed(db: Db, after: Db, left: set<AttemptId>) {
    Good(Attached(db, left), Attached(after, left)) && SameLeft(db, after, left) && ClaimsIdle(db, after)
  }

  lemma LeftExist(db: Db, left: set<AttemptId>)
    requires Sound(db, left)
    ensures forall a :: a in left ==> a in db.attempts && IsLive(db.attempts[a].status)
  {
    forall a | a in left ensures a in db.attempts && IsLive(db.attempts[a].status) { assert LeftFits(db, left, a); }
  }

  lemma NothingIsUndisturbed(db: Db, left: set<AttemptId>)
    requires Sound(db, left)
    ensures IsUndisturbed(db, db, left)
  {
    NoProgress(Attached(db, left));
    LeftExist(db, left);
  }

  /** Writes that touch no attempt. */
  lemma SameAttemptsIsUndisturbed(db: Db, after: Db, left: set<AttemptId>)
    requires Sound(db, left) && after.attempts == db.attempts && Good(Attached(db, left), Attached(after, left))
    ensures IsUndisturbed(db, after, left)
  {
    LeftExist(db, left);
  }

  /** Writes that add one queued attempt. */
  lemma QueueingIsUndisturbed(db: Db, after: Db, left: set<AttemptId>, a: AttemptId, t: Attempt)
    requires Sound(db, left) && after.attempts == db.attempts[a := t] && a !in db.attempts
    requires Good(Attached(db, left), Attached(after, left))
    ensures IsUndisturbed(db, after, left)
  {
    LeftExist(db, left);
  }

  /** Writes to one attempt that do not make it active. */
  lemma RewritingIsUndisturbed(db: Db, after: Db, left: set<AttemptId>, a: AttemptId, t: Attempt)
    requires Sound(db, left) && a in db.attempts && a !in left && after.attempts == db.attempts[a := t]
    requires IsActive(t.status) ==> IsActive(db.attempts[a].status)
    requires Good(Attached(db, left), Attached(after, left))
    ensures IsUndisturbed(db, after, left)
  {
    LeftExist(db, left);
  }

  // These operations commute with setting the attempts left behind aside.

  lemma AttachCommutes(db: Db, left: set<AttemptId>, f: FeatureId, path: string, parses: bool)
    ensures Attached(AttachTask(db, f, path, parses).db, left) == AttachTask(Attached(db, left), f, path, parses).db
    ensures AttachTask(db, f, path, parses).db.attempts == db.attempts
  {}

  lemma RemoveCommutes(db: Db, left: set<AttemptId>, f: FeatureId)
    ensures Attached(RemoveTask(db, f).db, left) == RemoveTask(Attached(db, left), f).db
    ensures RemoveTask(db, f).db.attempts == db.attempts
  {}

  lemma InvalidateCommutes(db: Db, left: set<AttemptId>, f: FeatureId, project: Option<ProjectId>, p: ApprovalId)
    ensures Attached(InvalidateApproval(db, f, project, p).db, left)
         == InvalidateApproval(Attached(db, left), f, project, p).db
    ensures InvalidateApproval(db, f, project, p).db.attempts == db.attempts
  {}

  lemma ApproveCommutes(db: Db, left: set<AttemptId>, r: ApproveRequest)
    requires r.approval !in db.approvals && r.attempt !in db.attempts && r.attempt !in left
    ensures Attached(ApproveAndQueue(db, r).db, left) == ApproveAndQueue(Attached(db, left), r).db
  {}

  lemma RetryCommutes(db: Db, left: set<AttemptId>, r: RetryRequest, latest: Option<AttemptId>, alive: bool)
    requires r.attempt !in db.attempts && r.attempt !in left
    requires latest.Some? ==> latest.value in db.attempts && latest.value !in left
    requires Retry(db, r, latest, alive).outcome == Done
    ensures Attached(Retry(db, r, latest, alive).db, left) == Retry(Attached(db, left), r, latest, alive).db
  {}

  lemma ReplaceCommutes(db: Db, left: set<AttemptId>, r: ReplaceRequest)
    ensures Attached(ReplaceTask(db, r).db, left) == ReplaceTask(Attached(db, left), r).db
    ensures ReplaceTask(db, r).db.attempts == db.attempts
  {}

  lemma AttachIsUndisturbed(db: Db, left: set<AttemptId>, f: FeatureId, path: string, parses: bool)
    requires Sound(db, left)
    ensures IsUndisturbed(db, AttachTask(db, f, path, parses).db, left)
  {
    AttachIsGood(Attached(db, left), f, path, parses);
    AttachCommutes(db, left, f, path, parses);
    SameAttemptsIsUndisturbed(db, AttachTask(db, f, path, parses).db, left);
  }

  lemma RemoveIsUndisturbed(db: Db, left: set<AttemptId>, f: FeatureId)
    requires Sound(db, left)
    ensures IsUndisturbed(db, RemoveTask(db, f).db, left)
  {
    RemoveIsGood(Attached(db, left), f);
    RemoveCommutes(db, left, f);
    SameAttemptsIsUndisturbed(db, RemoveTask(db, f).db, left);
  }

  lemma ApproveIsUndisturbed(db: Db, left: set<AttemptId>, r: ApproveRequest)
    requires Sound(db, left) && r.approval !in db.approvals && r.attempt !in db.attempts
    ensures IsUndisturbed(db, ApproveAndQueue(db, r).db, left)
  {
    LeftExist(db, left);
    var e := ApproveAndQueue(db, r);
    ApproveIsGood(Attached(db, left), r);
    ApproveCommutes(db, left, r);
    if e.outcome == Done {
      QueueingIsUndisturbed(db, e.db, left, r.attempt, e.db.attempts[r.attempt]);
    } else {
      NothingIsUndisturbed(db, left);
    }
  }

  lemma RetryIsUndisturbed(db: Db, left: set<AttemptId>, r: RetryRequest, latest: Option<AttemptId>, alive: bool)
    requires Sound(db, left) && r.attempt !in db.attempts && (latest.Some? ==> latest.value in db.attempts)
    ensures IsUndisturbed(db, Retry(db, r, latest, alive).db, left)
  {
    LeftExist(db, left);
    var e := Retry(db, r, latest, alive);
    if e.outcome == Done {
      RetryIsGood(Attached(db, left), r, latest, alive);
      RetryCommutes(db, left, r, latest, alive);
      QueueingIsUndisturbed(db, e.db, left, r.attempt, e.db.attempts[r.attempt]);
    } else {
      assert e.db == db;
      NothingIsUndisturbed(db, left);
    }
  }

  lemma InvalidateIsUndisturbed(db: Db, left: set<AttemptId>, f: FeatureId, project: Option<ProjectId>, p: ApprovalId)
    requires Sound(db, left)
    ensures IsUndisturbed(db, InvalidateApproval(db, f, project, p).db, left)
  {
    InvalidateIsGood(Attached(db, left), f, project, p);
    InvalidateCommutes(db, left, f, project, p);
    SameAttemptsIsUndisturbed(db, InvalidateApproval(db, f, project, p).db, left);
  }

  lemma ReplaceIsUndisturbed(db: Db, left: set<AttemptId>, r: ReplaceRequest)
    requires Sound(db, left)
    ensures IsUndisturbed(db, ReplaceTask(db, r).db, left)
  {
    ReplaceIsGood(Attached(db, left), r);
    ReplaceCommutes(db, left, r);
    SameAttemptsIsUndisturbed(db, ReplaceTask(db, r).db, left);
  }

  lemma TaskStepIsUndisturbed(w: World, s: Step, maxConcurrent: nat)
    requires IsTaskStep(s) && Sound(w.db, w.left) && Enabled(w, s, maxConcurrent)
    ensures IsUndisturbed(w.db, Write(w, s, maxConcurrent).db, w.left)
  {
    match s
    case DoCreateFeature(f, project, branch) =>
      CreateIsGood(Attached(w.db, w.left), f, project, branch);
      SameAttemptsIsUndisturbed(w.db, CreateFeature(w.db, f, project, branch).db, w.left);
    case DoAttach(f, path, parses) => AttachIsUndisturbed(w.db, w.left, f, path, parses);
    case DoRemove(f) => RemoveIsUndisturbed(w.db, w.left, f);
    case DoApprove(r) => ApproveIsUndisturbed(w.db, w.left, r);
    case DoInvalidate(f, onProject, p) => InvalidateIsUndisturbed(w.db, w.left, f, onProject, p);
    case DoReplace(r) => ReplaceIsUndisturbed(w.db, w.left, r);
    case DoRetry(r, latest, alive) => RetryIsUndisturbed(w.db, w.left, r, latest, alive);
    case _ =>
  }

  // ---------------------------------------------------------------------
  // Steps that go by an attempt
  // ---------------------------------------------------------------------

  lemma ClaimIsUndisturbed(db: Db, left: set<AttemptId>, a: AttemptId, w: WorkerId, lease: Time)
    requires Sound(db, left) && a !in left && IsEligible(db, a)
    ensures IsUndisturbed(db, Claimed(db, a, w, lease), left)
  {
    ClaimIsGood(Attached(db, left), a, w, lease);
    assert Attached(Claimed(db, a, w, lease), left) == Claimed(Attached(db, left), a, w, lease);
    LeftExist(db, left);
  }

  /** A guarded move of a feature that closes the attempt or marks it developing. */
  lemma MoveAndSetAttached(db: Db, left: set<AttemptId>, a: AttemptId, to: FeatureState, owner: TransitionOwner,
        s: AttemptStatus)
    requires a in db.attempts && a !in left
    ensures Attached(MoveAndSet(db, a, to, owner, s).db, left) == MoveAndSet(Attached(db, left), a, to, owner, s).db
    ensures MoveAndSet(db, a, to, owner, s).db == db
         || MoveAndSet(db, a, to, owner, s).db.attempts == db.attempts[a := db.attempts[a].(status := s)]
  {
    var f := db.attempts[a].feature;
    if f in db.features {
      StoreMoveAndSetAttached(db, left, a, Move(db.features[f], to, owner), s);
    }
  }

  lemma StoreMoveAndSetAttached(db: Db, left: set<AttemptId>, a: AttemptId, moved: Option<Feature>, s: AttemptStatus)
    requires a in db.attempts && a !in left
    ensures Attached(StoreMoveAndSet(db, a, moved, s).db, left) == StoreMoveAndSet(Attached(db, left), a, moved, s).db
    ensures StoreMoveAndSet(db, a, moved, s).db == db
         || StoreMoveAndSet(db, a, moved, s).db.attempts == db.attempts[a := db.attempts[a].(status := s)]
  {}

  lemma MoveIsUndisturbed(db: Db, left: set<AttemptId>, a: AttemptId, to: FeatureState, owner: TransitionOwner,
        s: AttemptStatus)
    requires Sound(db, left) && a in db.attempts && a !in left
    requires Good(Attached(db, left), MoveAndSet(Attached(db, left), a, to, owner, s).db)
    requires IsActive(s) ==> IsActive(db.attempts[a].status)
    ensures IsUndisturbed(db, MoveAndSet(db, a, to, owner, s).db, left)
  {
    MoveAndSetAttached(db, left, a, to, owner, s);
    var after := MoveAndSet(db, a, to, owner, s).db;
    if after == db {
      NothingIsUndisturbed(db, left);
    } else {
      RewritingIsUndisturbed(db, after, left, a, db.attempts[a].(status := s));
    }
  }

  lemma MarkDevelopingIsUndisturbed(db: Db, left: set<AttemptId>, a: AttemptId, w: WorkerId)
    requires Sound(db, left) && a !in left
    ensures IsUndisturbed(db, MarkDeveloping(db, a, w).db, left)
  {
    if Owns(db, a, w) {
      MarkDevelopingIsGood(Attached(db, left), a, w);
      MoveIsUndisturbed(db, left, a, Developing, Worker, Running);
    } else {
      NothingIsUndisturbed(db, left);
    }
  }

  lemma SucceedIsUndisturbed(db: Db, left: set<AttemptId>, a: AttemptId, w: WorkerId)
    requires Sound(db, left) && a !in left
    ensures IsUndisturbed(db, PersistSuccess(db, a, w).db, left)
  {
    var e := PersistSuccess(db, a, w);
    if e.outcome == Done {
      SucceedIsGood(Attached(db, left), a, w);
      MoveAndSetAttached(db, left, a, DevelopmentComplete, AgentResultAndVerification, Succeeded);
      assert Attached(e.db, left) == PersistSuccess(Attached(db, left), a, w).db;
      RewritingIsUndisturbed(db, e.db, left, a, e.db.attempts[a]);
    } else {
      assert e.db == db;
      NothingIsUndisturbed(db, left);
    }
  }

  lemma FailIsUndisturbed(db: Db, left: set<AttemptId>, a: AttemptId, w: WorkerId, blocks: bool)
    requires Sound(db, left) && a !in left
    ensures IsUndisturbed(db, PersistFailure(db, a, w, blocks).db, left)
  {
    if Owns(db, a, w) {
      FailIsGood(Attached(db, left), a, w, blocks);
      if blocks {
        MoveIsUndisturbed(db, left, a, Blocked, Guard, Failed);
      } else {
        MoveIsUndisturbed(db, left, a, DevelopmentFailed, Worker, Failed);
      }
    } else {
      NothingIsUndisturbed(db, left);
    }
  }

  lemma CancelQueuedIsUndisturbed(db: Db, left: set<AttemptId>, a: AttemptId)
    requires Sound(db, left) && a !in left
    ensures IsUndisturbed(db, CancelQueued(db, a).db, left)
  {
    if a in db.attempts && db.attempts[a].status == AttemptQueued {
      CancelQueuedIsGood(Attached(db, left), a);
      MoveIsUndisturbed(db, left, a, DevelopmentCancelled, Human, Cancelled);
    } else {
      NothingIsUndisturbed(db, left);
    }
  }

  lemma ReconcileIsUndisturbed(db: Db, left: set<AttemptId>, a: AttemptId, observedAt: Time)
    requires Sound(db, left) && a !in left
    ensures IsUndisturbed(db, ReconcileOrphan(db, a, observedAt).db, left)
  {
    if IsOrphan(db, a, observedAt) {
      ReconcileIsGood(Attached(db, left), a, observedAt);
      MoveIsUndisturbed(db, left, a, DevelopmentInterrupted, Reconciliation, Interrupted);
    } else {
      NothingIsUndisturbed(db, left);
    }
  }

  /** The steps that only rewrite an attempt which stays as live and as active as it was. */
  lemma RelabelIsUndisturbed(db: Db, left: set<AttemptId>, a: AttemptId, t: Attempt)
    requires Sound(db, left) && a in db.attempts && a !in left && AttemptProgress(db.attempts[a], t)
    requires IsRelabelling(db.attempts[a], t) && (IsActive(t.status) ==> IsActive(db.attempts[a].status))
    requires db.attempts[a].status == CancelRequested ==> t.status == CancelRequested
    ensures IsUndisturbed(db, db.(attempts := db.attempts[a := t]), left)
  {
    var attached, after := Attached(db, left), db.(attempts := db.attempts[a := t]);
    RelabellingKeeps(attached, a, t);
    RelabellingProgress(attached, a, t);
    assert Attached(after, left) == attached.(attempts := attached.attempts[a := t]);
    RewritingIsUndisturbed(db, after, left, a, t);
  }

  lemma AttemptStepIsUndisturbed(w: World, s: Step, maxConcurrent: nat)
    requires IsAttemptStep(s) && AttemptOf(s) !in w.left && Sound(w.db, w.left) && Enabled(w, s, maxConcurrent)
    ensures IsUndisturbed(w.db, Write(w, s, maxConcurrent).db, w.left)
  {
    match s
    case DoClaim(a, worker, lease) => ClaimIsUndisturbed(w.db, w.left, a, worker, lease);
    case DoMarkDeveloping(a, worker) => MarkDevelopingIsUndisturbed(w.db, w.left, a, worker);
    case DoSucceed(a, worker) => SucceedIsUndisturbed(w.db, w.left, a, worker);
    case DoFail(a, worker, blocks) => FailIsUndisturbed(w.db, w.left, a, worker, blocks);
    case DoCancelQueued(a) => CancelQueuedIsUndisturbed(w.db, w.left, a);
    case DoReconcile(a, observedAt) => ReconcileIsUndisturbed(w.db, w.left, a, observedAt);
    case _ => RelabelStepIsUndisturbed(w, s, maxConcurrent);
  }

  predicate IsRelabelStep(s: Step) {
    s.DoPersistIdentity? || s.DoRenewLease? || s.DoRequestCancel? || s.DoBeginCancel?
  }

  lemma RelabelStepIsUndisturbed(w: World, s: Step, maxConcurrent: nat)
    requires IsRelabelStep(s) && s.a !in w.left && Sound(w.db, w.left) && Enabled(w, s, maxConcurrent)
    ensures IsUndisturbed(w.db, Write(w, s, maxConcurrent).db, w.left)
  {
    var e := Write(w, s, maxConcurrent);
    if e.outcome == Done && s.a in w.db.attempts {
      var t := e.db.attempts[s.a];
      assert e.db == w.db.(attempts := w.db.attempts[s.a := t]);
      RelabelIsUndisturbed(w.db, w.left, s.a, t);
    } else {
      NothingIsUndisturbed(w.db, w.left);
    }
  }

  // ---------------------------------------------------------------------
  // Steps on features past development, and stored results
  // ---------------------------------------------------------------------

  lemma OtherStepIsUndisturbed(w: World, s: Step, maxConcurrent: nat)
    requires IsOrdinary(s) && !IsTaskStep(s) && !IsAttemptStep(s) && Sound(w.db, w.left) && Enabled(w, s, maxConcurrent)
    ensures IsUndisturbed(w.db, Write(w, s, maxConcurrent).db, w.left)
  {
    match s
    case DoAbandonCancel(_) => NothingIsUndisturbed(w.db, w.left);
    case DoStartHandoff(f) => TransitionIsUndisturbed(w.db, w.left, f, DevelopmentComplete, PrCreating, Worker);
    case DoFinishHandoff(f) => TransitionIsUndisturbed(w.db, w.left, f, PrCreating, CiRunning, GithubAdapter);
    case DoFailHandoff(f) => FailHandoffIsUndisturbed(w.db, w.left, f);
    case DoRetryPr(f, project, a, key) => RetryPrIsUndisturbed(w.db, w.left, f, project, a, key);
    case DoPoll(f, target) => PollIsUndisturbed(w.db, w.left, f, target);
    case DoStoreResult(key, project, f, a) => StoreResultIsUndisturbed(w.db, w.left, key, project, f, a);
    case _ =>
  }

  lemma FailHandoffIsUndisturbed(db: Db, left: set<AttemptId>, f: FeatureId)
    requires Sound(db, left)
    ensures IsUndisturbed(db, FailHandoff(db, f).db, left)
  {
    FailHandoffIsGood(Attached(db, left), f);
    FeatureWriteIsUndisturbed(db, left, FailHandoff(db, f).db, FailHandoff(Attached(db, left), f).db);
  }

  lemma PollIsUndisturbed(db: Db, left: set<AttemptId>, f: FeatureId, target: FeatureState)
    requires Sound(db, left)
    ensures IsUndisturbed(db, Poll(db, f, target).db, left)
  {
    PollIsGood(Attached(db, left), f, target);
    PollCommutes(db, left, f, target);
    FeatureWriteIsUndisturbed(db, left, Poll(db, f, target).db, Poll(Attached(db, left), f, target).db);
  }

  lemma PollCommutes(db: Db, left: set<AttemptId>, f: FeatureId, target: FeatureState)
    ensures Attached(Poll(db, f, target).db, left) == Poll(Attached(db, left), f, target).db
    ensures Poll(db, f, target).db.attempts == db.attempts
  {
    if f in db.features {
      var state, owner := db.features[f].state, if target == Blocked then Guard else Poller;
      if IsReconcilable(state) && target != state { TransitionCommutes(db, left, f, state, target, owner); }
    }
  }

  lemma StoreResultIsUndisturbed(db: Db, left: set<AttemptId>, key: OperationKey, project: ProjectId,
        f: Option<FeatureId>, a: Option<AttemptId>)
    requires Sound(db, left)
    ensures IsUndisturbed(db, StoreResult(db, key, project, f, a).db, left)
  {
    StoreResultIsGood(Attached(db, left), key, project, f, a);
    FeatureWriteIsUndisturbed(db, left, StoreResult(db, key, project, f, a).db,
                              StoreResult(Attached(db, left), key, project, f, a).db);
  }

  /** Writes that do not read or write attempts. */
  lemma FeatureWriteIsUndisturbed(db: Db, left: set<AttemptId>, after: Db, attached: Db)
    requires Sound(db, left) && Good(Attached(db, left), attached)
    requires after.attempts == db.attempts && attached == Attached(after, left)
    ensures IsUndisturbed(db, after, left)
  {
    SameAttemptsIsUndisturbed(db, after, left);
  }

  lemma TransitionCommutes(db: Db, left: set<AttemptId>, f: FeatureId, from: FeatureState, to: FeatureState,
        owner: TransitionOwner)
    ensures Attached(TransitionFeature(db, f, from, to, owner).db, left)
         == TransitionFeature(Attached(db, left), f, from, to, owner).db
    ensures TransitionFeature(db, f, from, to, owner).db.attempts == db.attempts
  {}

  lemma TransitionIsUndisturbed(db: Db, left: set<AttemptId>, f: FeatureId, from: FeatureState, to: FeatureState,
        owner: TransitionOwner)
    requires Sound(db, left) && IsPastDevelopment(from) && IsPastDevelopment(to)
    ensures IsUndisturbed(db, TransitionFeature(db, f, from, to, owner).db, left)
  {
    TransitionIsGood(Attached(db, left), f, from, to, owner);
    TransitionCommutes(db, left, f, from, to, owner);
    FeatureWriteIsUndisturbed(db, left, TransitionFeature(db, f, from, to, owner).db,
                              TransitionFeature(Attached(db, left), f, from, to, owner).db);
  }

  lemma RetryPrIsUndisturbed(db: Db, left: set<AttemptId>, f: FeatureId, project: ProjectId, a: AttemptId,
        key: OperationKey)
    requires Sound(db, left)
    ensures IsUndisturbed(db, RetryPrCreation(db, f, project, a, key).db, left)
  {
    var after := RetryPrCreation(db, f, project, a, key).db;
    if RetryPrCreation(db, f, project, a, key).outcome == Done {
      PrRetryKeeps(Attached(db, left), f, after.features[f], key, after.records[key], after.outbox);
      SameAttemptsIsUndisturbed(db, after, left);
    } else {
      NothingIsUndisturbed(db, left);
    }
  }

  lemma PrRetryKeeps(db: Db, f: FeatureId, row: Feature, key: OperationKey, record: Record, outbox: seq<Intent>)
    requires Coupled(db) && f in db.features && db.features[f].state == PrCreationFailed && key !in db.records
    requires row == db.features[f].(state := PrCreating, version := db.features[f].version + 1)
    ensures Good(db, Db(db.features[f := row], db.attempts, db.approvals, db.records[key := record], outbox))
  {
    assert IsAllowed(PrCreationFailed, PrCreating, Human);
    MovingKeeps(db, f, row);
    RecordingKeeps(SetFeature(db, f, row), key, record, outbox);
  }

  // ---------------------------------------------------------------------
  // Steps that go by an attempt left behind
  // ---------------------------------------------------------------------

  /** Such an attempt that is not waiting to be cancelled belongs to a blocked feature. */
  lemma LeftIsBlockedOrWaiting(db: Db, left: set<AttemptId>, a: AttemptId)
    requires Sound(db, left) && a in left
    ensures a in db.attempts && db.attempts[a].feature in db.features && IsLive(db.attempts[a].status)
    ensures db.attempts[a].status != CancelRequested ==> db.features[db.attempts[a].feature].state == Blocked
    ensures db.features[db.attempts[a].feature].state != Developing
  {
    assert LeftFits(db, left, a);
    DevelopingLeavesNone(db, left, a);
  }

  /** All that an ordinary step can do to such an attempt: rewrite it, or close it along with its blocked feature. */
  lemma LeftStepShape(w: World, s: Step, maxConcurrent: nat)
    requires IsAttemptStep(s) && AttemptOf(s) in w.left && Sound(w.db, w.left) && Enabled(w, s, maxConcurrent)
    ensures var a, after := AttemptOf(s), Write(w, s, maxConcurrent).db;
      a in w.db.attempts && w.db.attempts[a].feature in w.db.features && IsLeftWrite(w.db, after, a)
  {
    LeftIsBlockedOrWaiting(w.db, w.left, AttemptOf(s));
    if s.DoFail? {
      LeftFailShape(w.db, w.left, s.a, s.w, s.blocks);
    } else if s.DoClaim? || IsRelabelStep(s) {
      LeftRelabelShape(w, s, maxConcurrent);
    } else {
      LeftMoveIsRefused(w, s, maxConcurrent);
    }
  }

  lemma LeftRelabelShape(w: World, s: Step, maxConcurrent: nat)
    requires (s.DoClaim? || IsRelabelStep(s)) && Enabled(w, s, maxConcurrent)
    requires AttemptOf(s) in w.db.attempts && w.db.attempts[AttemptOf(s)].feature in w.db.features
    requires IsLive(w.db.attempts[AttemptOf(s)].status)
    ensures IsLeftWrite(w.db, Write(w, s, maxConcurrent).db, AttemptOf(s))
  {
    var a, after := AttemptOf(s), Write(w, s, maxConcurrent).db;
    if after != w.db {
      var t := after.attempts[a];
      assert IsLeftRelabelling(w.db.attempts[a], t) && after == w.db.(attempts := w.db.attempts[a := t]);
    }
  }

  lemma LeftMoveIsRefused(w: World, s: Step, maxConcurrent: nat)
    requires IsMoveStep(s) && !s.DoFail?
    requires s.a in w.left && Sound(w.db, w.left) && Enabled(w, s, maxConcurrent)
    ensures Write(w, s, maxConcurrent).db == w.db
  {
    LeftIsBlockedOrWaiting(w.db, w.left, s.a);
    HeldMoveIsRefused(w, s, maxConcurrent);
  }

  lemma HeldMoveIsRefused(w: World, s: Step, maxConcurrent: nat)
    requires IsMoveStep(s) && !s.DoFail? && Enabled(w, s, maxConcurrent)
    requires s.a in w.db.attempts && w.db.attempts[s.a].feature in w.db.features
    requires var state := w.db.features[w.db.attempts[s.a].feature].state;
      state == Blocked || (w.db.attempts[s.a].status == CancelRequested && state != Developing)
    ensures Write(w, s, maxConcurrent).db == w.db
  {
    match s
    case DoMarkDeveloping(a, worker) => RunningLeftIsBlocked(w.db, a, Developing, Worker, Running);
    case DoSucceed(a, worker) => SuccessIsRefused(w.db, a, worker);
    case DoCancelQueued(a) => RunningLeftIsBlocked(w.db, a, DevelopmentCancelled, Human, Cancelled);
    case DoReconcile(a, _) => InterruptedFromDeveloping(w.db, a);
    case _ =>
  }

  lemma SuccessIsRefused(db: Db, a: AttemptId, w: WorkerId)
    requires a in db.attempts && db.attempts[a].feature in db.features
    requires db.features[db.attempts[a].feature].state == Blocked || db.attempts[a].status == CancelRequested
    ensures PersistSuccess(db, a, w).db == db
  {
    RunningLeftIsBlocked(db, a, DevelopmentComplete, AgentResultAndVerification, Succeeded);
  }

  lemma RunningLeftIsBlocked(db: Db, a: AttemptId, to: FeatureState, owner: TransitionOwner, s: AttemptStatus)
    requires a in db.attempts && db.attempts[a].feature in db.features && owner != Guard
    ensures db.features[db.attempts[a].feature].state == Blocked ==>
      MoveAndSet(db, a, to, owner, s) == Refuse(db, TransitionRefused)
  {}

  lemma InterruptedFromDeveloping(db: Db, a: AttemptId)
    requires a in db.attempts && db.attempts[a].feature in db.features
    ensures db.features[db.attempts[a].feature].state != Developing ==>
      MoveAndSet(db, a, DevelopmentInterrupted, Reconciliation, Interrupted) == Refuse(db, TransitionRefused)
  {}

  predicate IsLeftRelabelling(u: Attempt, t: Attempt) {
    && AttemptProgress(u, t) && IsLive(u.status) && IsLive(t.status)
    && (u.status == CancelRequested ==> t.status == CancelRequested)
  }

  predicate IsBlockedClosing(db: Db, a: AttemptId, row: Feature) {
    && a in db.attempts && db.attempts[a].status == Running && db.attempts[a].feature in db.features
    && db.features[db.attempts[a].feature].state == Blocked
    && row == db.features[db.attempts[a].feature].(version := db.features[db.attempts[a].feature].version + 1)
  }

  lemma LeftFailShape(db: Db, left: set<AttemptId>, a: AttemptId, w: WorkerId, blocks: bool)
    requires Sound(db, left) && a in left
    ensures a in db.attempts
    ensures var after := PersistFailure(db, a, w, blocks).db;
      after == db || exists row :: IsBlockedClosing(db, a, row) && after == Closing(db, a, row, Failed)
  {
    LeftIsBlockedOrWaiting(db, left, a);
    if Owns(db, a, w) && blocks {
      var u := db.features[db.attempts[a].feature];
      var row := u.(version := u.version + 1);
      assert IsAllowed(Blocked, Blocked, Guard) && Move(u, Blocked, Guard) == Some(row);
      assert IsBlockedClosing(db, a, row) && PersistFailure(db, a, w, blocks).db == Closing(db, a, row, Failed);
    }
  }

  ghost predicate IsLeftWrite(db: Db, after: Db, a: AttemptId)
    requires a in db.attempts && db.attempts[a].feature in db.features
  {
    || after == db
    || (exists t :: IsLeftRelabelling(db.attempts[a], t) && after == db.(attempts := db.attempts[a := t]))
    || (exists row :: IsBlockedClosing(db, a, row) && after == Closing(db, a, row, Failed))
  }

  lemma LeftStepIsSound(w: World, s: Step, maxConcurrent: nat)
    requires IsAttemptStep(s) && AttemptOf(s) in w.left && Sound(w.db, w.left) && Enabled(w, s, maxConcurrent)
    ensures var after := Write(w, s, maxConcurrent).db; Sound(after, StillLive(after, w.left)) && Progress(w.db, after)
  {
    LeftStepShape(w, s, maxConcurrent);
    LeftWriteIsSound(w.db, Write(w, s, maxConcurrent).db, w.left, AttemptOf(s));
  }

  lemma LeftWriteIsSound(db: Db, after: Db, left: set<AttemptId>, a: AttemptId)
    requires Sound(db, left) && a in left && a in db.attempts && db.attempts[a].feature in db.features
    requires IsLeftWrite(db, after, a)
    ensures Sound(after, StillLive(after, left)) && Progress(db, after)
  {
    if after == db {
      StayingIsSound(db, left);
    } else if t :| IsLeftRelabelling(db.attempts[a], t) && after == db.(attempts := db.attempts[a := t]) {
      LeftRelabellingIsSound(db, left, a, t);
    } else {
      var row :| IsBlockedClosing(db, a, row) && after == Closing(db, a, row, Failed);
      BlockedClosingIsSound(db, left, a, row);
    }
  }

  lemma StayingIsSound(db: Db, left: set<AttemptId>)
    requires Sound(db, left)
    ensures Sound(db, StillLive(db, left)) && Progress(db, db)
  {
    LeftExist(db, left);
    assert StillLive(db, left) == left;
  }

  lemma LeftRelabellingIsSound(db: Db, left: set<AttemptId>, a: AttemptId, t: Attempt)
    requires Sound(db, left) && a in left && a in db.attempts && IsLeftRelabelling(db.attempts[a], t)
    ensures var after := db.(attempts := db.attempts[a := t]);
      Sound(after, StillLive(after, left)) && Progress(db, after)
  {
    LeftExist(db, left);
    RelabellingLeftIsSound(db, left, a, t);
    RelabellingProgress(db, a, t);
    assert StillLive(db.(attempts := db.attempts[a := t]), left) == left;
  }

  lemma BlockedClosingIsSound(db: Db, left: set<AttemptId>, a: AttemptId, row: Feature)
    requires Sound(db, left) && a in left && IsBlockedClosing(db, a, row)
    ensures var after := Closing(db, a, row, Failed);
      Sound(after, StillLive(after, left)) && Progress(db, after)
  {
    var f, after := db.attempts[a].feature, Closing(db, a, row, Failed);
    BlockedRowIsSound(db, left, f, row);
    ClosingLeftIsSound(SetFeature(db, f, row), left, a, Failed);
    ClosingProgress(db, a, row, Failed);
    LeftExist(db, left);
    assert StillLive(after, left) == left - {a};
  }

  lemma OrdinaryIsSound(w: World, s: Step, maxConcurrent: nat)
    requires IsOrdinary(s) && Sound(w.db, w.left) && Enabled(w, s, maxConcurrent)
    ensures var after := Write(w, s, maxConcurrent).db; Sound(after, StillLive(after, w.left)) && Progress(w.db, after)
  {
    if IsAttemptStep(s) && AttemptOf(s) in w.left {
      LeftStepIsSound(w, s, maxConcurrent);
    } else {
      var after := Write(w, s, maxConcurrent).db;
      if IsTaskStep(s) {
        TaskStepIsUndisturbed(w, s, maxConcurrent);
      } else if IsAttemptStep(s) {
        AttemptStepIsUndisturbed(w, s, maxConcurrent);
      } else {
        OtherStepIsUndisturbed(w, s, maxConcurrent);
      }
      UndisturbedIsSound(w.db, after, w.left);
    }
  }

  lemma UndisturbedIsSound(db: Db, after: Db, left: set<AttemptId>)
    requires Sound(db, left) && IsUndisturbed(db, after, left)
    ensures Sound(after, StillLive(after, left)) && Progress(db, after)
  {
    AttachedStaysSound(db, after, left);
    LeftExist(db, left);
    assert StillLive(after, left) == left;
  }

  // ---------------------------------------------------------------------
  // What becomes of an attempt that waits to be cancelled
  // ---------------------------------------------------------------------

  /** The task steps that write no attempt. */
  predicate IsDocumentStep(s: Step) { s.DoCreateFeature? || s.DoAttach? || s.DoRemove? || s.DoInvalidate? }

  /** Operations on tasks write no feature in development and no old attempt. */
  ghost predicate SparesTheRest(db: Db, after: Db) {
    && (forall a :: a in db.attempts ==> a in after.attempts && after.attempts[a] == db.attempts[a])
    && (forall f :: f in db.features ==> f in after.features && SparesDevelopment(db.features[f], after.features[f]))
  }

  predicate SparesDevelopment(u: Feature, v: Feature) { InDevelopment(u.state) ==> v == u }

  lemma TaskStepsSpareTheRest(w: World, s: Step, maxConcurrent: nat)
    requires IsTaskStep(s) && Enabled(w, s, maxConcurrent)
    ensures SparesTheRest(w.db, Write(w, s, maxConcurrent).db)
  {
    match s
    case DoApprove(r) => ApprovalSparesTheRest(w.db, r);
    case DoReplace(r) => ReplacementSparesTheRest(w.db, r);
    case DoRetry(r, latest, alive) => RetrySparesTheRest(w.db, r, latest, alive);
    case _ => DocumentStepsSpareTheRest(w, s, maxConcurrent);
  }

  lemma DocumentStepsSpareTheRest(w: World, s: Step, maxConcurrent: nat)
    requires IsDocumentStep(s) && Enabled(w, s, maxConcurrent)
    ensures SparesTheRest(w.db, Write(w, s, maxConcurrent).db)
  {}

  lemma ApprovalSparesTheRest(db: Db, r: ApproveRequest)
    requires r.approval !in db.approvals && r.attempt !in db.attempts
    ensures SparesTheRest(db, ApproveAndQueue(db, r).db)
  {}

  lemma ReplacementSparesTheRest(db: Db, r: ReplaceRequest)
    ensures SparesTheRest(db, ReplaceTask(db, r).db)
  {}

  lemma RetrySparesTheRest(db: Db, r: RetryRequest, latest: Option<AttemptId>, alive: bool)
    requires r.attempt !in db.attempts && (latest.Some? ==> latest.value in db.attempts)
    ensures SparesTheRest(db, Retry(db, r, latest, alive).db)
  {}

  lemma OtherStepsSpareDevelopment(w: World, s: Step, maxConcurrent: nat, f: FeatureId)
    requires IsOrdinary(s) && !IsTaskStep(s) && !IsAttemptStep(s) && Enabled(w, s, maxConcurrent) && f in w.db.features
    ensures var after := Write(w, s, maxConcurrent).db;
      && after.attempts == w.db.attempts && f in after.features
      && (InDevelopment(w.db.features[f].state) ==> after.features[f] == w.db.features[f])
  {
    match s
    case DoPoll(g, target) => PollSparesDevelopment(w.db, g, target, f);
    case DoRetryPr(g, project, a, key) => PrRetrySparesDevelopment(w.db, g, project, a, key, f);
    case DoFailHandoff(g) => FailureSparesDevelopment(w.db, g, f);
    case _ => HandoffStepsSpareDevelopment(w, s, maxConcurrent, f);
  }

  lemma PollSparesDevelopment(db: Db, g: FeatureId, target: FeatureState, f: FeatureId)
    requires f in db.features
    ensures var after := Poll(db, g, target).db;
      && after.attempts == db.attempts && f in after.features
      && (InDevelopment(db.features[f].state) ==> after.features[f] == db.features[f])
  {}

  lemma FailureSparesDevelopment(db: Db, g: FeatureId, f: FeatureId)
    requires f in db.features
    ensures var after := FailHandoff(db, g).db;
      && after.attempts == db.attempts && f in after.features
      && (InDevelopment(db.features[f].state) ==> after.features[f] == db.features[f])
  {}

  lemma PrRetrySparesDevelopment(db: Db, g: FeatureId, project: ProjectId, a: AttemptId, key: OperationKey,
        f: FeatureId)
    requires f in db.features
    ensures var after := RetryPrCreation(db, g, project, a, key).db;
      && after.attempts == db.attempts && f in after.features
      && (InDevelopment(db.features[f].state) ==> after.features[f] == db.features[f])
  {}

  lemma HandoffStepsSpareDevelopment(w: World, s: Step, maxConcurrent: nat, f: FeatureId)
    requires IsOrdinary(s) && !IsTaskStep(s) && !IsAttemptStep(s)
    requires !s.DoPoll? && !s.DoRetryPr? && !s.DoFailHandoff?
    requires Enabled(w, s, maxConcurrent) && f in w.db.features
    ensures var after := Write(w, s, maxConcurrent).db;
      && after.attempts == w.db.attempts && f in after.features
      && (InDevelopment(w.db.features[f].state) ==> after.features[f] == w.db.features[f])
  {}

  /** The steps that may move the attempt's feature. */
  predicate IsMoveStep(s: Step) {
    s.DoMarkDeveloping? || s.DoSucceed? || s.DoFail? || s.DoCancelQueued? || s.DoReconcile?
  }

  /** A step by an attempt writes no other attempt, and no feature but its own, for which it has to be live. */
  ghost predicate WritesItsOwn(db: Db, after: Db, b: AttemptId, a: AttemptId, f: FeatureId)
    requires a in db.attempts && f in db.features
  {
    && a in after.attempts && (a != b ==> after.attempts[a] == db.attempts[a])
    && f in after.features && (after.features[f] != db.features[f] ==> IsLiveOf(db, b, f))
  }

  lemma AttemptStepsWriteTheirOwn(w: World, s: Step, maxConcurrent: nat, a: AttemptId, f: FeatureId)
    requires IsAttemptStep(s) && Enabled(w, s, maxConcurrent) && a in w.db.attempts && f in w.db.features
    ensures WritesItsOwn(w.db, Write(w, s, maxConcurrent).db, AttemptOf(s), a, f)
  {
    if IsMoveStep(s) {
      MoveStepsWriteTheirOwn(w, s, maxConcurrent, a, f);
    } else {
      RelabelStepsWriteTheirOwn(w, s, maxConcurrent, a, f);
    }
  }

  lemma RelabelStepsWriteTheirOwn(w: World, s: Step, maxConcurrent: nat, a: AttemptId, f: FeatureId)
    requires IsRelabelStep(s) || s.DoClaim?
    requires Enabled(w, s, maxConcurrent) && a in w.db.attempts && f in w.db.features
    ensures WritesItsOwn(w.db, Write(w, s, maxConcurrent).db, AttemptOf(s), a, f)
  {
    if s.DoBeginCancel? {
      BeginningWritesItsOwn(w.db, s.a, s.w, s.identityOk, a, f);
    } else if s.DoPersistIdentity? || s.DoRenewLease? {
      WorkerWritesItsOwn(w, s, maxConcurrent, a, f);
    }
  }

  lemma BeginningWritesItsOwn(db: Db, b: AttemptId, w: WorkerId, identityOk: bool, a: AttemptId, f: FeatureId)
    requires a in db.attempts && f in db.features
    ensures WritesItsOwn(db, BeginCancel(db, b, w, identityOk).db, b, a, f)
  {}

  lemma WorkerWritesItsOwn(w: World, s: Step, maxConcurrent: nat, a: AttemptId, f: FeatureId)
    requires s.DoPersistIdentity? || s.DoRenewLease?
    requires Enabled(w, s, maxConcurrent) && a in w.db.attempts && f in w.db.features
    ensures WritesItsOwn(w.db, Write(w, s, maxConcurrent).db, s.a, a, f)
  {}

  lemma MoveStepsWriteTheirOwn(w: World, s: Step, maxConcurrent: nat, a: AttemptId, f: FeatureId)
    requires IsMoveStep(s) && Enabled(w, s, maxConcurrent) && a in w.db.attempts && f in w.db.features
    ensures WritesItsOwn(w.db, Write(w, s, maxConcurrent).db, AttemptOf(s), a, f)
  {
    match s
    case DoMarkDeveloping(b, _) => MovesWriteTheirOwn(w.db, b, Developing, Worker, Running, a, f);
    case DoSucceed(b, worker) => SuccessWritesItsOwn(w.db, b, worker, a, f);
    case DoFail(b, worker, blocks) => FailureWritesItsOwn(w.db, b, worker, blocks, a, f);
    case DoCancelQueued(b) => MovesWriteTheirOwn(w.db, b, DevelopmentCancelled, Human, Cancelled, a, f);
    case DoReconcile(b, _) => MovesWriteTheirOwn(w.db, b, DevelopmentInterrupted, Reconciliation, Interrupted, a, f);
    case _ =>
  }

  lemma SuccessWritesItsOwn(db: Db, b: AttemptId, w: WorkerId, a: AttemptId, f: FeatureId)
    requires a in db.attempts && f in db.features
    ensures WritesItsOwn(db, PersistSuccess(db, b, w).db, b, a, f)
  {
    MovesWriteTheirOwn(db, b, DevelopmentComplete, AgentResultAndVerification, Succeeded, a, f);
  }

  lemma FailureWritesItsOwn(db: Db, b: AttemptId, w: WorkerId, blocks: bool, a: AttemptId, f: FeatureId)
    requires a in db.attempts && f in db.features
    ensures WritesItsOwn(db, PersistFailure(db, b, w, blocks).db, b, a, f)
  {
    MovesWriteTheirOwn(db, b, Blocked, Guard, Failed, a, f);
    MovesWriteTheirOwn(db, b, DevelopmentFailed, Worker, Failed, a, f);
  }

  lemma MovesWriteTheirOwn(db: Db, b: AttemptId, to: FeatureState, owner: TransitionOwner, s: AttemptStatus,
        a: AttemptId, f: FeatureId)
    requires a in db.attempts && f in db.features
    ensures b in db.attempts ==>
      var after := MoveAndSet(db, b, to, owner, s).db;
      && a in after.attempts && (a != b ==> after.attempts[a] == db.attempts[a])
      && f in after.features && (db.attempts[b].feature != f ==> after.features[f] == db.features[f])
  {}

  /** Only reconciliation closes an attempt that waits to be cancelled. */
  lemma OnlyReconciliationInterrupts(w: World, s: Step, maxConcurrent: nat)
    requires IsAttemptStep(s) && Enabled(w, s, maxConcurrent)
    requires AttemptOf(s) in w.db.attempts && w.db.attempts[AttemptOf(s)].status == CancelRequested
    ensures var a, after := AttemptOf(s), Write(w, s, maxConcurrent).db;
      && a in after.attempts && (after.attempts[a].status == CancelRequested || after.attempts[a].status == Interrupted)
      && (after.attempts[a].status == CancelRequested ==> after.features == w.db.features)
  {}

  /**
   * Until it is reconciled it waits, and its feature is held as well; one that
   * has been left behind is never reconciled.
   */
  ghost predicate IsHeld(db: Db, after: Db, left: set<AttemptId>, a: AttemptId)
    requires a in db.attempts
  {
    var f := db.attempts[a].feature;
    && a in after.attempts && (after.attempts[a].status == CancelRequested || after.attempts[a].status == Interrupted)
    && (a in left ==> after.attempts[a].status == CancelRequested)
    && f in db.features && f in after.features
    && (a !in left && after.attempts[a].status == CancelRequested ==> after.features[f] == db.features[f])
  }

  lemma WaitingIsHeld(w: World, s: Step, maxConcurrent: nat, a: AttemptId)
    requires IsOrdinary(s) && Sound(w.db, w.left) && Enabled(w, s, maxConcurrent)
    requires a in w.db.attempts && w.db.attempts[a].status == CancelRequested
    ensures IsHeld(w.db, Write(w, s, maxConcurrent).db, w.left, a)
  {
    if IsTaskStep(s) {
      WaitingIsHeldByTasks(w, s, maxConcurrent, a);
    } else if IsAttemptStep(s) {
      WaitingIsHeldByAttempts(w, s, maxConcurrent, a);
    } else {
      WaitingIsInDevelopment(w.db, w.left, a);
      OtherStepsSpareDevelopment(w, s, maxConcurrent, w.db.attempts[a].feature);
    }
  }

  lemma WaitingIsInDevelopment(db: Db, left: set<AttemptId>, a: AttemptId)
    requires Sound(db, left) && a in db.attempts && db.attempts[a].status == CancelRequested
    ensures db.attempts[a].feature in db.features
    ensures a !in left ==> InDevelopment(db.features[db.attempts[a].feature].state)
  {
    assert LinkedAttempt(db, a);
    var f, rest := db.attempts[a].feature, Attached(db, left);
    assert CoupledAt(rest, f);
    if a !in left { assert IsLiveOf(rest, a, f); }
  }

  lemma WaitingIsHeldByTasks(w: World, s: Step, maxConcurrent: nat, a: AttemptId)
    requires IsTaskStep(s) && Sound(w.db, w.left) && Enabled(w, s, maxConcurrent)
    requires a in w.db.attempts && w.db.attempts[a].status == CancelRequested
    ensures IsHeld(w.db, Write(w, s, maxConcurrent).db, w.left, a)
  {
    var f := w.db.attempts[a].feature;
    WaitingIsInDevelopment(w.db, w.left, a);
    TaskStepsSpareTheRest(w, s, maxConcurrent);
    assert SparesDevelopment(w.db.features[f], Write(w, s, maxConcurrent).db.features[f]);
  }

  lemma WaitingIsHeldByAttempts(w: World, s: Step, maxConcurrent: nat, a: AttemptId)
    requires IsAttemptStep(s) && Sound(w.db, w.left) && Enabled(w, s, maxConcurrent)
    requires a in w.db.attempts && w.db.attempts[a].status == CancelRequested
    ensures IsHeld(w.db, Write(w, s, maxConcurrent).db, w.left, a)
  {
    assert LinkedAttempt(w.db, a);
    var f, b := w.db.attempts[a].feature, AttemptOf(s);
    AttemptStepsWriteTheirOwn(w, s, maxConcurrent, a, f);
    if a == b {
      OnlyReconciliationInterrupts(w, s, maxConcurrent);
      if a in w.left { LeftStaysWaiting(w, s, maxConcurrent); }
    } else if a !in w.left && IsLiveOf(w.db, b, f) {
      NoOtherIsLive(w.db, w.left, a, b);
    }
  }

  lemma LeftStaysWaiting(w: World, s: Step, maxConcurrent: nat)
    requires IsAttemptStep(s) && AttemptOf(s) in w.left && Sound(w.db, w.left) && Enabled(w, s, maxConcurrent)
    requires AttemptOf(s) in w.db.attempts && w.db.attempts[AttemptOf(s)].status == CancelRequested
    ensures var a, after := AttemptOf(s), Write(w, s, maxConcurrent).db;
      a in after.attempts && after.attempts[a].status == CancelRequested
  {
    LeftStepShape(w, s, maxConcurrent);
  }

  /** An attempt that waits to be cancelled and is not left behind is the only live one of its feature. */
  lemma NoOtherIsLive(db: Db, left: set<AttemptId>, a: AttemptId, b: AttemptId)
    requires Sound(db, left) && a !in left && a in db.attempts && db.attempts[a].status == CancelRequested
    requires IsLiveOf(db, b, db.attempts[a].feature)
    ensures a == b
  {
    assert LinkedAttempt(db, a);
    var f, attached := db.attempts[a].feature, Attached(db, left);
    assert CoupledAt(attached, f) && IsLiveOf(attached, a, f);
    if b in left {
      assert LeftFits(db, left, b) && IsLiveOf(db, a, f);
    } else {
      assert IsLiveOf(attached, b, f);
    }
  }

  // ---------------------------------------------------------------------
  // Cancellations in progress
  // ---------------------------------------------------------------------

  /**
   * A cancellation that has not written yet matches the stored row as long as
   * its attempt waits; one between its final writes has left its attempt behind,
   * unless it found the row changed, and then the attempt has been interrupted.
   */
  ghost predicate TicketFits(db: Db, left: set<AttemptId>, t: Ticket) {
    && t.attempt in db.attempts && db.attempts[t.attempt].feature == t.feature && t.feature in db.features
    && t.row.version <= db.features[t.feature].version
    && var status := db.attempts[t.attempt].status;
    match t.stage
    case Loaded =>
      t.alive ==>
        && (status == CancelRequested || status == Interrupted)
        && (t.row.version == db.features[t.feature].version ==>
              status == CancelRequested && t.row.state == db.features[t.feature].state)
        && (status == CancelRequested && t.attempt !in left ==> t.row.version == db.features[t.feature].version)
    case Swapped => (IsLive(status) ==> t.attempt in left) && (t.alive ==> status == CancelRequested)
    case Missed => t.replaced && (t.alive ==> (status == CancelRequested && t.attempt in left) || status == Interrupted)
  }

  /** A cancellation stands between its final writes, in progress or for good. */
  ghost predicate StandsBetween(w: World, a: AttemptId) {
    exists id :: id in w.cancels && w.cancels[id].attempt == a && w.cancels[id].stage == Swapped
  }

  predicate IsSameAttempt(t: Ticket, u: Ticket) { t.alive && u.alive && t.attempt == u.attempt }

  ghost predicate IsSerial(cancels: map<nat, Ticket>) {
    forall i, j :: i in cancels && j in cancels && IsSameAttempt(cancels[i], cancels[j]) ==> i == j
  }

  ghost predicate LeftIsExplained(w: World, a: AttemptId) {
    && a in w.db.attempts && w.db.attempts[a].feature in w.db.features
    && (w.db.features[w.db.attempts[a].feature].state == Blocked || StandsBetween(w, a))
  }

  ghost predicate Inv(w: World) {
    && Sound(w.db, w.left) && IsSerial(w.cancels)
    && (forall id {:trigger TicketFits(w.db, w.left, w.cancels[id])} :: id in w.cancels ==>
          TicketFits(w.db, w.left, w.cancels[id]))
    && (forall a {:trigger LeftIsExplained(w, a)} :: a in w.left ==> LeftIsExplained(w, a))
  }

  lemma TicketSurvivesOrdinary(w: World, s: Step, maxConcurrent: nat, t: Ticket)
    requires IsOrdinary(s) && Sound(w.db, w.left) && Enabled(w, s, maxConcurrent) && TicketFits(w.db, w.left, t)
    ensures var after := Write(w, s, maxConcurrent).db; TicketFits(after, StillLive(after, w.left), t)
  {
    OrdinaryIsSound(w, s, maxConcurrent);
    var after := Write(w, s, maxConcurrent).db;
    assert FeatureProgress(w.db.features[t.feature], after.features[t.feature]);
    assert AttemptProgress(w.db.attempts[t.attempt], after.attempts[t.attempt]);
    assert CancelKeptOrMoved(w.db, after, t.attempt);
    if w.db.attempts[t.attempt].status == CancelRequested { WaitingIsHeld(w, s, maxConcurrent, t.attempt); }
  }

  // ---------------------------------------------------------------------
  // The final writes
  // ---------------------------------------------------------------------

  /** What the first final write does when it finds its row. */
  lemma SwapFacts(w: World, id: nat, maxConcurrent: nat)
    requires Inv(w) && Enabled(w, DoSwapCancel(id), maxConcurrent) && SwapCancel(w.db, w.cancels[id]).outcome == Done
    ensures var t, after := w.cancels[id], SwapCancel(w.db, w.cancels[id]).db;
      && IsLiveOf(w.db, t.attempt, t.feature) && w.db.attempts[t.attempt].status == CancelRequested
      && t.feature in w.db.features && t.feature in after.features
      && FeatureProgress(w.db.features[t.feature], after.features[t.feature])
      && w.db.features[t.feature].version < after.features[t.feature].version
      && after == SetFeature(w.db, t.feature, after.features[t.feature])
      && after.features[t.feature].state == CancelTarget(t)
      && (CancelTarget(t) == DevelopmentCancelled ==> w.db.features[t.feature].state == Developing)
  {
    var t := w.cancels[id];
    assert TicketFits(w.db, w.left, w.cancels[id]);
    AllowedIsProgress(t.row, CancelTarget(t), CancelOwner(t));
    if !t.replaced { CancelledFromDeveloping(t.row.state); }
  }

  lemma CancelledFromDeveloping(from: FeatureState)
    requires IsAllowed(from, DevelopmentCancelled, HumanAndProcessControl)
    ensures from == Developing
  {}

  lemma SwapKeepsSound(w: World, id: nat, maxConcurrent: nat)
    requires Inv(w) && Enabled(w, DoSwapCancel(id), maxConcurrent) && SwapCancel(w.db, w.cancels[id]).outcome == Done
    ensures var t, after := w.cancels[id], SwapCancel(w.db, w.cancels[id]).db;
      && Sound(after, w.left + LiveOf(w.db, t.feature)) && Progress(w.db, after)
      && StillLive(after, w.left + LiveOf(w.db, t.feature)) == w.left + LiveOf(w.db, t.feature)
  {
    SwapFacts(w, id, maxConcurrent);
    var t, after := w.cancels[id], SwapCancel(w.db, w.cancels[id]).db;
    SwapIsSound(w.db, w.left, t.attempt, t.feature, after.features[t.feature]);
    MovingProgress(w.db, t.feature, after.features[t.feature]);
    LeftExist(w.db, w.left);
  }

  /** Another ticket sees its row get a new version, or nothing at all. */
  lemma TicketSurvivesSwap(db: Db, left: set<AttemptId>, f: FeatureId, row: Feature, t: Ticket)
    requires TicketFits(db, left, t) && f in db.features && db.features[f].version < row.version
    ensures TicketFits(SetFeature(db, f, row), left + LiveOf(db, f), t)
  {
    assert t.feature == f && IsLive(db.attempts[t.attempt].status) ==> t.attempt in LiveOf(db, f);
  }

  lemma TicketSurvivesClose(db: Db, left: set<AttemptId>, a: AttemptId, s: AttemptStatus, t: Ticket)
    requires TicketFits(db, left, t) && a in db.attempts && !IsLive(s) && (t.attempt == a ==> !t.alive)
    ensures TicketFits(SetStatus(db, a, s), left - {a}, t)
  {}

  lemma SwapKeepsInv(w: World, id: nat, maxConcurrent: nat)
    requires Inv(w) && Enabled(w, DoSwapCancel(id), maxConcurrent) && SwapCancel(w.db, w.cancels[id]).outcome == Done
    ensures Inv(Next(w, DoSwapCancel(id), maxConcurrent))
  {
    SwapKeepsSound(w, id, maxConcurrent);
    var after := Next(w, DoSwapCancel(id), maxConcurrent);
    forall i | i in after.cancels ensures TicketFits(after.db, after.left, after.cancels[i]) {
      SwappedTicketFits(w, id, maxConcurrent, i);
    }
    SwappingIsSerial(w, id, maxConcurrent);
    forall a | a in after.left ensures LeftIsExplained(after, a) {
      SwappedIsExplained(w, id, maxConcurrent, a);
    }
  }

  lemma SwappedTicketFits(w: World, id: nat, maxConcurrent: nat, i: nat)
    requires Inv(w) && Enabled(w, DoSwapCancel(id), maxConcurrent) && SwapCancel(w.db, w.cancels[id]).outcome == Done
    requires i in Next(w, DoSwapCancel(id), maxConcurrent).cancels
    ensures var after := Next(w, DoSwapCancel(id), maxConcurrent); TicketFits(after.db, after.left, after.cancels[i])
  {
    SwapFacts(w, id, maxConcurrent);
    SwapKeepsSound(w, id, maxConcurrent);
    var after, t := Next(w, DoSwapCancel(id), maxConcurrent), w.cancels[id];
    assert TicketFits(w.db, w.left, w.cancels[i]);
    TicketSurvivesSwap(w.db, w.left, t.feature, after.db.features[t.feature], w.cancels[i]);
  }

  lemma SwappedIsExplained(w: World, id: nat, maxConcurrent: nat, a: AttemptId)
    requires Inv(w) && Enabled(w, DoSwapCancel(id), maxConcurrent) && SwapCancel(w.db, w.cancels[id]).outcome == Done
    requires a in Next(w, DoSwapCancel(id), maxConcurrent).left
    ensures LeftIsExplained(Next(w, DoSwapCancel(id), maxConcurrent), a)
  {
    if a in w.left {
      SwapKeepsSound(w, id, maxConcurrent);
      assert LeftIsExplained(w, a);
      StandingSurvives(w, Next(w, DoSwapCancel(id), maxConcurrent), a);
    } else {
      NewlyLeftIsExplained(w, id, maxConcurrent, a);
    }
  }

  lemma StandingSurvives(w: World, after: World, a: AttemptId)
    requires LeftIsExplained(w, a) && Progress(w.db, after.db)
    requires forall id :: id in w.cancels && w.cancels[id].attempt == a && w.cancels[id].stage == Swapped ==>
      id in after.cancels && after.cancels[id].attempt == a && after.cancels[id].stage == Swapped
    ensures LeftIsExplained(after, a)
  {
    var f := w.db.attempts[a].feature;
    assert AttemptProgress(w.db.attempts[a], after.db.attempts[a]);
    assert FeatureProgress(w.db.features[f], after.db.features[f]);
    if w.db.features[f].state != Blocked {
      var id :| id in w.cancels && w.cancels[id].attempt == a && w.cancels[id].stage == Swapped;
      assert after.cancels[id].stage == Swapped;
    }
  }

  /** Unless the feature is blocked, the attempt that is newly left behind is the cancelled one. */
  lemma NewlyLeftIsExplained(w: World, id: nat, maxConcurrent: nat, a: AttemptId)
    requires Inv(w) && Enabled(w, DoSwapCancel(id), maxConcurrent) && SwapCancel(w.db, w.cancels[id]).outcome == Done
    requires a !in w.left && IsLiveOf(w.db, a, w.cancels[id].feature)
    ensures LeftIsExplained(Next(w, DoSwapCancel(id), maxConcurrent), a)
  {
    SwapFacts(w, id, maxConcurrent);
    var after, t := Next(w, DoSwapCancel(id), maxConcurrent), w.cancels[id];
    if !t.replaced {
      if t.attempt in w.left { DevelopingLeavesNone(w.db, w.left, t.attempt); }
      NoOtherIsLive(w.db, w.left, t.attempt, a);
      assert after.cancels[id].stage == Swapped;
    }
  }

  /** A first final write that is refused changes no row. */
  lemma MissChangesNothing(w: World, id: nat, maxConcurrent: nat)
    requires Inv(w) && Enabled(w, DoSwapCancel(id), maxConcurrent) && SwapCancel(w.db, w.cancels[id]).outcome != Done
    ensures var after := Next(w, DoSwapCancel(id), maxConcurrent); after.db == w.db && after.left == w.left
  {
    LeftExist(w.db, w.left);
    assert StillLive(w.db, w.left) == w.left;
  }

  lemma MissKeepsInv(w: World, id: nat, maxConcurrent: nat)
    requires Inv(w) && Enabled(w, DoSwapCancel(id), maxConcurrent) && SwapCancel(w.db, w.cancels[id]).outcome != Done
    ensures Inv(Next(w, DoSwapCancel(id), maxConcurrent)) && Next(w, DoSwapCancel(id), maxConcurrent).db == w.db
  {
    var after := Next(w, DoSwapCancel(id), maxConcurrent);
    MissChangesNothing(w, id, maxConcurrent);
    forall i | i in after.cancels ensures TicketFits(after.db, after.left, after.cancels[i]) {
      MissedTicketFits(w, id, maxConcurrent, i);
    }
    SwappingIsSerial(w, id, maxConcurrent);
    forall a | a in after.left ensures LeftIsExplained(after, a) {
      MissedIsExplained(w, id, maxConcurrent, a);
    }
  }

  lemma MissedTicketFits(w: World, id: nat, maxConcurrent: nat, i: nat)
    requires Inv(w) && Enabled(w, DoSwapCancel(id), maxConcurrent) && SwapCancel(w.db, w.cancels[id]).outcome != Done
    requires i in Next(w, DoSwapCancel(id), maxConcurrent).cancels
    ensures TicketFits(w.db, w.left, Next(w, DoSwapCancel(id), maxConcurrent).cancels[i])
  {
    assert i in w.cancels && TicketFits(w.db, w.left, w.cancels[i]);
  }

  lemma SwappingIsSerial(w: World, id: nat, maxConcurrent: nat)
    requires IsSerial(w.cancels) && Enabled(w, DoSwapCancel(id), maxConcurrent)
    ensures IsSerial(Next(w, DoSwapCancel(id), maxConcurrent).cancels)
  {
    var after := Next(w, DoSwapCancel(id), maxConcurrent).cancels;
    forall i, j | i in after && j in after && IsSameAttempt(after[i], after[j]) ensures i == j {
      assert IsSameAttempt(w.cancels[i], w.cancels[j]);
    }
  }

  lemma MissedIsExplained(w: World, id: nat, maxConcurrent: nat, a: AttemptId)
    requires Inv(w) && Enabled(w, DoSwapCancel(id), maxConcurrent) && SwapCancel(w.db, w.cancels[id]).outcome != Done
    requires a in w.left && Next(w, DoSwapCancel(id), maxConcurrent).db == w.db
    ensures LeftIsExplained(Next(w, DoSwapCancel(id), maxConcurrent), a)
  {
    assert LeftIsExplained(w, a);
    NoProgress(w.db);
    StandingSurvives(w, Next(w, DoSwapCancel(id), maxConcurrent), a);
  }

  lemma CloseKeepsInv(w: World, id: nat, maxConcurrent: nat)
    requires Inv(w) && Enabled(w, DoCloseCancel(id), maxConcurrent)
    ensures Inv(Next(w, DoCloseCancel(id), maxConcurrent))
  {
    var after, t := Next(w, DoCloseCancel(id), maxConcurrent), w.cancels[id];
    var a := t.attempt;
    assert TicketFits(w.db, w.left, w.cancels[id]);
    LeftExist(w.db, w.left);
    ClosingLeftIsSound(w.db, w.left, a, CancelStatus(t));
    assert after.left == w.left - {a};
    forall i | i in after.cancels ensures TicketFits(after.db, after.left, after.cancels[i]) {
      assert TicketFits(w.db, w.left, w.cancels[i]);
      assert i != id && !IsSameAttempt(w.cancels[i], w.cancels[id]);
      TicketSurvivesClose(w.db, w.left, a, CancelStatus(t), w.cancels[i]);
    }
    forall b | b in after.left ensures LeftIsExplained(after, b) {
      assert LeftIsExplained(w, b);
      ExplainedAfterClose(w, after, id, b);
    }
  }

  lemma ExplainedAfterClose(w: World, after: World, id: nat, b: AttemptId)
    requires LeftIsExplained(w, b) && id in w.cancels && b != w.cancels[id].attempt
    requires after.cancels == w.cancels - {id} && after.db.features == w.db.features
    requires b in after.db.attempts && after.db.attempts[b].feature == w.db.attempts[b].feature
    ensures LeftIsExplained(after, b)
  {
    if w.db.features[w.db.attempts[b].feature].state != Blocked {
      var i :| i in w.cancels && w.cancels[i].attempt == b && w.cancels[i].stage == Swapped;
      assert after.cancels[i].stage == Swapped;
    }
  }

  lemma OrdinaryKeepsInv(w: World, s: Step, maxConcurrent: nat)
    requires IsOrdinary(s) && Inv(w) && Enabled(w, s, maxConcurrent)
    ensures Inv(Next(w, s, maxConcurrent))
  {
    var after := Next(w, s, maxConcurrent);
    OrdinaryIsSound(w, s, maxConcurrent);
    forall i | i in after.cancels ensures TicketFits(after.db, after.left, after.cancels[i]) {
      OrdinaryTicketFits(w, s, maxConcurrent, i);
    }
    OrdinaryIsSerial(w, s, maxConcurrent);
    forall a | a in after.left ensures LeftIsExplained(after, a) {
      OrdinaryIsExplained(w, s, maxConcurrent, a);
    }
  }

  lemma OrdinaryTicketFits(w: World, s: Step, maxConcurrent: nat, i: nat)
    requires IsOrdinary(s) && Inv(w) && Enabled(w, s, maxConcurrent) && i in Next(w, s, maxConcurrent).cancels
    ensures var after := Next(w, s, maxConcurrent); TicketFits(after.db, after.left, after.cancels[i])
  {
    if i in w.cancels {
      assert TicketFits(w.db, w.left, w.cancels[i]);
      TicketSurvivesOrdinary(w, s, maxConcurrent, w.cancels[i]);
    } else {
      FreshTicketFits(w, s, maxConcurrent);
    }
  }

  lemma OrdinaryIsSerial(w: World, s: Step, maxConcurrent: nat)
    requires IsOrdinary(s) && IsSerial(w.cancels) && Enabled(w, s, maxConcurrent)
    ensures IsSerial(Next(w, s, maxConcurrent).cancels)
  {
    var after := Next(w, s, maxConcurrent).cancels;
    if s.DoBeginCancel? || s.DoAbandonCancel? {
      forall i, j | i in after && j in after && IsSameAttempt(after[i], after[j]) ensures i == j {
        if i in w.cancels && j in w.cancels { assert IsSameAttempt(w.cancels[i], w.cancels[j]); }
      }
    }
  }

  lemma OrdinaryIsExplained(w: World, s: Step, maxConcurrent: nat, a: AttemptId)
    requires IsOrdinary(s) && Inv(w) && Enabled(w, s, maxConcurrent) && a in Next(w, s, maxConcurrent).left
    ensures LeftIsExplained(Next(w, s, maxConcurrent), a)
  {
    OrdinaryIsSound(w, s, maxConcurrent);
    assert LeftIsExplained(w, a);
    StandingSurvives(w, Next(w, s, maxConcurrent), a);
  }

  lemma FreshTicketFits(w: World, s: Step, maxConcurrent: nat)
    requires s.DoBeginCancel? && Inv(w) && Enabled(w, s, maxConcurrent)
    requires s.id in Next(w, s, maxConcurrent).cancels
    ensures var after := Next(w, s, maxConcurrent); TicketFits(after.db, after.left, after.cancels[s.id])
  {}

  /** Every step of every writer keeps the invariant. */
  lemma StepKeepsInv(w: World, s: Step, maxConcurrent: nat)
    requires Inv(w) && Enabled(w, s, maxConcurrent)
    ensures Inv(Next(w, s, maxConcurrent))
  {
    if IsOrdinary(s) {
      OrdinaryKeepsInv(w, s, maxConcurrent);
    } else if s.DoCloseCancel? {
      CloseKeepsInv(w, s.id, maxConcurrent);
    } else if SwapCancel(w.db, w.cancels[s.id]).outcome == Done {
      SwapKeepsInv(w, s.id, maxConcurrent);
    } else {
      MissKeepsInv(w, s.id, maxConcurrent);
    }
  }

  // ---------------------------------------------------------------------
  // What a step may change
  // ---------------------------------------------------------------------

  /** A late write of a cancellation that found its process replaced may rewrite INTERRUPTED. */
  predicate Moves(s: AttemptStatus, t: AttemptStatus) { Advances(s, t) || (s == Interrupted && t == Failed) }

  predicate AttemptMoves(u: Attempt, v: Attempt) {
    SameReferences(u, v) && u.enqueuedAt == v.enqueuedAt && u.predecessor == v.predecessor && Moves(u.status, v.status)
  }

  ghost predicate MovesOn(db: Db, after: Db) {
    && RowsKept(db, after)
    && (forall f :: f in db.features ==> f in after.features && FeatureProgress(db.features[f], after.features[f]))
    && (forall a :: a in db.attempts ==> a in after.attempts && AttemptMoves(db.attempts[a], after.attempts[a]))
    && (forall f :: f in after.features && f !in db.features ==> after.features[f].state == Planned)
    && (forall a :: a in after.attempts && a !in db.attempts ==> after.attempts[a].status == AttemptQueued)
  }

  /** Every step but the late closing makes progress in the strict sense. */
  lemma StepProgresses(w: World, s: Step, maxConcurrent: nat)
    requires Inv(w) && Enabled(w, s, maxConcurrent) && !s.DoCloseCancel?
    ensures Progress(w.db, Next(w, s, maxConcurrent).db)
  {
    if IsOrdinary(s) {
      OrdinaryIsSound(w, s, maxConcurrent);
    } else if SwapCancel(w.db, w.cancels[s.id]).outcome == Done {
      SwapKeepsSound(w, s.id, maxConcurrent);
    } else {
      MissKeepsInv(w, s.id, maxConcurrent);
      NoProgress(w.db);
    }
  }

  /** The late closing changes one status, from CANCEL_REQUESTED or, if it found the row changed, from INTERRUPTED. */
  lemma CloseWrites(w: World, s: Step, maxConcurrent: nat)
    requires Inv(w) && Enabled(w, s, maxConcurrent) && s.DoCloseCancel?
    ensures var t, after := w.cancels[s.id], Next(w, s, maxConcurrent).db;
      && t.attempt in w.db.attempts && after == SetStatus(w.db, t.attempt, CancelStatus(t))
      && (|| w.db.attempts[t.attempt].status == CancelRequested
          || (w.db.attempts[t.attempt].status == Interrupted && t.stage == Missed))
      && (t.stage == Missed ==> t.replaced)
  {
    assert TicketFits(w.db, w.left, w.cancels[s.id]);
  }

  lemma StepMovesOn(w: World, s: Step, maxConcurrent: nat)
    requires Inv(w) && Enabled(w, s, maxConcurrent)
    ensures MovesOn(w.db, Next(w, s, maxConcurrent).db)
  {
    if s.DoCloseCancel? {
      CloseWrites(w, s, maxConcurrent);
    } else {
      StepProgresses(w, s, maxConcurrent);
      var after := Next(w, s, maxConcurrent).db;
      forall a | a in w.db.attempts ensures a in after.attempts && AttemptMoves(w.db.attempts[a], after.attempts[a]) {
        assert AttemptProgress(w.db.attempts[a], after.attempts[a]);
      }
    }
  }
}
