// Writes that do not look at the state they were decided on. Each operation checks
// first; here is exactly when its write is still safe if other writers came between.
module WorkflowStaleWrites {
  import opened Wrappers
  import opened FeatureStateMachine
  import opened Workflow
  import opened WorkflowSafety

  /**
   * cancelRunning writes CANCEL_REQUESTED without looking at the stored status.
   * On an attempt that has been claimed this keeps the rows coupled if and only
   * if the attempt is still active when the write lands.
   */
  lemma UnguardedRequestIsSafeIffActive(db: Db, a: AttemptId)
    requires Coupled(db) && a in db.attempts && db.attempts[a].status != AttemptQueued
    ensures Coupled(SetStatus(db, a, CancelRequested)) <==> IsActive(db.attempts[a].status)
  {
    var f, after := db.attempts[a].feature, SetStatus(db, a, CancelRequested);
    assert LinkedAttempt(db, a) && CoupledAt(db, f);
    if IsActive(db.attempts[a].status) {
      RelabellingKeeps(db, a, after.attempts[a]);
    } else if Coupled(after) {
      assert CoupledAt(after, f) && IsLiveOf(after, a, f);
      var b :| IsLiveOf(db, b, f);
      assert IsLiveOf(after, b, f);
      assert false;
    }
  }

  /**
   * attachTask reads the state again in its transaction, but relies on an
   * earlier look at the approvals. Its write is safe if and only if the feature
   * is not a failed, interrupted or cancelled one whose approval is still active.
   */
  lemma AttachWriteIsSafeIff(db: Db, f: FeatureId, path: string)
    requires Coupled(db) && f in db.features
    ensures Good(db, AttachWrite(db, f, path).db)
      <==> !(IsReattachState(db.features[f].state) && HasActiveApproval(db, f))
  {
    var state, e := db.features[f].state, AttachWrite(db, f, path);
    assert CoupledAt(db, f);
    NoProgress(db);
    if e.outcome == Done {
      if HasActiveApproval(db, f) {
        var p :| p in db.approvals && IsActiveApprovalOf(db, p, f);
        assert IsActiveApprovalOf(e.db, p, f);
        assert !CoupledAt(e.db, f);
      } else {
        assert IsAllowed(Planned, TasksReview, HumanAndValidation);
        MovingKeeps(db, f, e.db.features[f]);
        MovingProgress(db, f, e.db.features[f]);
      }
    }
  }

  /**
   * removeTask writes PLANNED by the feature's id alone. That keeps the rows
   * coupled and takes an edge of the table, or stays, if and only if the feature
   * is in planning or review when the write lands.
   */
  lemma RemoveWriteIsSafeIff(db: Db, f: FeatureId)
    requires Coupled(db) && f in db.features
    ensures Good(db, RemoveWrite(db, f).db)
      <==> db.features[f].state == Planned || db.features[f].state == TasksReview
    ensures InDevelopment(db.features[f].state) ==> !Coupled(RemoveWrite(db, f).db)
  {
    var state, after := db.features[f].state, RemoveWrite(db, f).db;
    assert CoupledAt(db, f);
    if state == Planned || state == TasksReview {
      assert IsAllowed(TasksReview, Planned, Human);
      MovingKeeps(db, f, after.features[f]);
      MovingProgress(db, f, after.features[f]);
    } else {
      UnlawfulIsNotGood(db, after, f);
    }
    if InDevelopment(state) { LeavingDevelopmentUncouples(db, after, f); }
  }

  /** No write may change a feature's state against the law. */
  lemma UnlawfulIsNotGood(db: Db, after: Db, f: FeatureId)
    requires f in db.features && f in after.features && after.features[f].state != db.features[f].state
    requires !IsLawful(db.features[f].state, after.features[f].state)
    ensures !Good(db, after)
  {
    assert !FeatureProgress(db.features[f], after.features[f]);
  }

  /** A write that takes a feature out of development and leaves its attempts open. */
  lemma LeavingDevelopmentUncouples(db: Db, after: Db, f: FeatureId)
    requires Coupled(db) && f in db.features && InDevelopment(db.features[f].state)
    requires f in after.features && !InDevelopment(after.features[f].state) && after.attempts == db.attempts
    ensures !Coupled(after)
  {
    assert CoupledAt(db, f);
    var a :| IsLiveOf(db, a, f);
    assert IsLiveOf(after, a, f);
    assert !CoupledAt(after, f);
  }

  /**
   * replaceTask writes TASKS_REVIEW by the feature's id, once it has found the
   * approval active. That is safe if and only if the last run of the feature has
   * failed, been interrupted or been cancelled when the write lands.
   */
  lemma ReplaceWriteIsSafeIff(db: Db, r: ReplaceRequest)
    requires Coupled(db) && r.feature in db.features && ReplaceWrite(db, r).outcome == Done
    ensures Good(db, ReplaceWrite(db, r).db) <==> IsReattachState(db.features[r.feature].state)
    ensures InDevelopment(db.features[r.feature].state) ==> !Coupled(ReplaceWrite(db, r).db)
  {
    var f, after := r.feature, ReplaceWrite(db, r).db;
    ReplaceWriteShape(db, r);
    if IsReattachState(db.features[f].state) {
      ReplaceWriteIsGood(db, r);
    } else {
      IntoReviewIsNotGood(db, after, f);
    }
    if InDevelopment(db.features[f].state) { LeavingDevelopmentUncouples(db, after, f); }
  }

  lemma IntoReviewIsNotGood(db: Db, after: Db, f: FeatureId)
    requires f in db.features && f in after.features && after.features[f].state == TasksReview
    requires var state := db.features[f].state; state != Planned && state != TasksReview && !IsReattachState(state)
    ensures !Good(db, after)
  {
    UnlawfulIsNotGood(db, after, f);
  }

  /** It finds an active approval, so the feature is not in planning or review. */
  lemma ReplaceWriteShape(db: Db, r: ReplaceRequest)
    requires Coupled(db) && r.feature in db.features && ReplaceWrite(db, r).outcome == Done
    ensures var state, after := db.features[r.feature].state, ReplaceWrite(db, r).db;
      && state != Planned && state != TasksReview && after.attempts == db.attempts
      && r.feature in after.features && after.features[r.feature].state == TasksReview
  {
    assert CoupledAt(db, r.feature);
  }

  /**
   * invalidateApproval deactivates the approval whatever the feature's state.
   * That is safe if and only if the feature is not in development.
   */
  lemma InvalidateWriteIsSafeIff(db: Db, f: FeatureId, p: ApprovalId)
    requires Coupled(db) && f in db.features && IsActiveApprovalOf(db, p, f)
    ensures Coupled(InvalidateWrite(db, f, p).db) <==> !InDevelopment(db.features[f].state)
  {
    var after := InvalidateWrite(db, f, p).db;
    assert CoupledAt(db, f);
    if InDevelopment(db.features[f].state) {
      var a :| IsLiveOf(db, a, f);
      assert IsLiveOf(after, a, f);
      assert !IsActiveApprovalOf(after, db.attempts[a].approval, f);
      assert !CoupledAt(after, f);
    } else {
      InvalidatingKeeps(db, f, p);
    }
  }
}
