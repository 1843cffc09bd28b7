// The workflow's writers as they run: each reads rows, decides, and updates the
// tables one after the other. A transaction that fails after its first write
// puts the tables back.
module WorkflowStore {
  import opened Wrappers
  import opened FeatureStateMachine
  import opened Workflow
  import opened WorkflowSafety

  class Store {
    var features: map<FeatureId, Feature>
    var attempts: map<AttemptId, Attempt>
    var approvals: map<ApprovalId, Approval>
    var records: map<OperationKey, Record>
    var outbox: seq<Intent>

    constructor ()
      ensures View() == INITIAL.db
    {
      features, attempts, approvals, records, outbox := map[], map[], map[], map[], [];
    }

    function View(): Db
      reads this
    {
      Db(features, attempts, approvals, records, outbox)
    }

    /** Put every table back to what it was when the transaction began. */
    method Rollback(saved: Db)
      modifies this
      ensures View() == saved
    {
      features, attempts, approvals, records, outbox :=
        saved.features, saved.attempts, saved.approvals, saved.records, saved.outbox;
    }

    /** Ask the table, then UPDATE ... WHERE state and row_version are those that were read. */
    method PersistFeatureTransition(f: FeatureId, to: FeatureState, owner: TransitionOwner, op: OperationId)
      returns (ok: bool)
      requires f in features
      modifies this`features
      ensures ok <==> Move(old(features[f]), to, owner).Some?
      ensures features == if ok then old(features)[f := Move(old(features[f]), to, owner).value] else old(features)
    {
      var read := features[f];
      var result := ApplyFeatureTransition(
        TransitionCommand(read.state, to, owner, op, read.version, read.version, Some(read.state), None, None));
      if !result.Applied? { return false; }
      var t := result.transition;
      ok := features[f].state == t.prior && features[f].version == t.priorVersion;
      if ok {
        features := features[f := features[f].(state := t.next, version := t.nextVersion)];
      }
    }

    method UpdateAttemptStatus(a: AttemptId, s: AttemptStatus)
      requires a in attempts
      modifies this`attempts
      ensures attempts == old(attempts)[a := old(attempts[a]).(status := s)]
    {
      attempts := attempts[a := attempts[a].(status := s)];
    }

    method AttachTask(f: FeatureId, path: string, parses: bool) returns (outcome: Outcome)
      modifies this
      ensures Effect(View(), outcome) == Workflow.AttachTask(old(View()), f, path, parses)
    {
      if f !in features { return Refused(FeatureNotFound); }
      if !IsAttachState(features[f].state) { return Refused(IllegalState); }
      if IsReattachState(features[f].state) {
        if HasActiveApproval(View(), f) { return Refused(ApprovalActive); }
      }
      if !parses { return Refused(ValidationFailed); }
      outcome := AttachInReview(f, path);
    }

    /** The transaction: back to PLANNED first if the last run failed, then the transition unless it is in review. */
    method AttachInReview(f: FeatureId, path: string) returns (outcome: Outcome)
      requires f in features && IsAttachState(features[f].state)
      modifies this`features
      ensures Effect(View(), outcome) == AttachWrite(old(View()), f, path)
    {
      ghost var expected := AttachWrite(View(), f, path);
      var row := features[f];
      var alreadyInReview := row.state == TasksReview;
      if IsReattachState(row.state) {
        row := row.(state := Planned, taskPath := Some(path), version := row.version + 1);
        features := features[f := row];
      }
      if !alreadyInReview {
        var transition := ApplyFeatureTransition(
          TransitionCommand(Planned, TasksReview, HumanAndValidation, OfFeature(OpAttach, f),
                            row.version, row.version, None, None, None));
        assert transition.Applied?;
        row := row.(state := TasksReview, taskPath := Some(path), version := row.version + 1);
      } else {
        row := row.(taskPath := Some(path), version := row.version + 1);
      }
      features := features[f := row];
      assert features == expected.db.features;
      outcome := Done;
    }

    method RemoveTask(f: FeatureId) returns (outcome: Outcome)
      modifies this
      ensures Effect(View(), outcome) == Workflow.RemoveTask(old(View()), f)
    {
      if f !in features { return Refused(FeatureNotFound); }
      if features[f].state != TasksReview { return Refused(IllegalState); }
      var read := features[f];
      var result := ApplyFeatureTransition(
        TransitionCommand(TasksReview, Planned, Human, OfFeature(OpRemove, f),
                          read.version, read.version, None, None, None));
      assert result.Applied?;
      features := features[f := read.(state := Planned, taskPath := None, version := read.version + 1)];
      outcome := Done;
    }

    method ApproveAndQueue(r: ApproveRequest) returns (outcome: Outcome)
      requires r.approval !in approvals && r.attempt !in attempts
      modifies this
      ensures Effect(View(), outcome) == Workflow.ApproveAndQueue(old(View()), r)
    {
      if r.feature !in features { return Refused(FeatureNotFound); }
      var read := features[r.feature];
      if r.project.Some? && read.project != r.project.value { return Refused(NotFound); }
      if r.key in records && records[r.key].body.ApproveResult? {
        return Replayed(Some(records[r.key].body.attempt));
      }
      if read.state != TasksReview { return Refused(IllegalState); }
      if read.taskPath.None? || !r.parses { return Refused(ValidationFailed); }
      if !r.checksumMatches { return Refused(StaleChecksum); }

      var saved := View();
      var ok := PersistFeatureTransition(r.feature, Queued, Human, Keyed(r.key));
      if !ok { return Refused(IllegalState); }
      approvals := approvals[r.approval := Approval(read.project, r.feature, true)];
      attempts := attempts[r.attempt :=
        Attempt(read.project, r.feature, r.approval, read.branch, r.key, AttemptQueued, None, None, None, None, r.now)];
      if r.key in records {
        Rollback(saved);
        return Refused(IllegalState);
      }
      var result := ApproveResult(r.approval, r.attempt);
      records := records[r.key := Record(read.project, Some(r.feature), Some(r.attempt), result)];
      outcome := Done;
    }

    method InvalidateApproval(f: FeatureId, project: Option<ProjectId>, p: ApprovalId) returns (outcome: Outcome)
      modifies this
      ensures Effect(View(), outcome) == Workflow.InvalidateApproval(old(View()), f, project, p)
    {
      if f !in features { return Refused(FeatureNotFound); }
      if project.Some? && features[f].project != project.value { return Refused(NotFound); }
      if features[f].state != TasksReview && !IsReattachState(features[f].state) { return Refused(IllegalState); }
      if !IsActiveApprovalOf(View(), p, f) { return Refused(NotFound); }
      approvals := approvals[p := approvals[p].(active := false)];
      outcome := Done;
    }

    method ReplaceTask(r: ReplaceRequest) returns (outcome: Outcome)
      modifies this
      ensures Effect(View(), outcome) == Workflow.ReplaceTask(old(View()), r)
    {
      if r.feature !in features || features[r.feature].project != r.project { return Refused(FeatureNotFound); }
      if r.key in records {
        if records[r.key].body != ReplaceResult(r.approval) { return Refused(ValidationFailed); }
        return Replayed(None);
      }
      if !IsReattachState(features[r.feature].state) { return Refused(IllegalState); }
      if !r.parses { return Refused(ValidationFailed); }
      if !IsActiveApprovalOf(View(), r.approval, r.feature) || approvals[r.approval].project != r.project {
        return Refused(NotFound);
      }
      approvals := approvals[r.approval := approvals[r.approval].(active := false)];
      var row := features[r.feature];
      row := row.(state := TasksReview, taskPath := Some(r.path), version := row.version + 1);
      features := features[r.feature := row];
      records := records[r.key := Record(r.project, Some(r.feature), None, ReplaceResult(r.approval))];
      outcome := Done;
    }

    method Retry(r: RetryRequest, latest: Option<AttemptId>, alive: bool) returns (outcome: Outcome)
      requires r.attempt !in attempts && (latest.Some? ==> latest.value in attempts)
      modifies this
      ensures Effect(View(), outcome) == Workflow.Retry(old(View()), r, latest, alive)
    {
      if r.key in records {
        var record := records[r.key];
        if record.project != r.project || record.feature != Some(r.feature) { return Refused(KeyReused); }
        if record.attempt.None? || record.attempt.value !in attempts { return Refused(NoAttempt); }
        return Replayed(record.attempt);
      }
      if r.feature !in features { return Refused(FeatureNotFound); }
      var read := features[r.feature];
      if read.project != r.project { return Refused(NotFound); }
      if !IsReattachState(read.state) { return Refused(NotRetryable); }
      if !IsActiveApprovalOf(View(), r.approval, r.feature) || approvals[r.approval].project != r.project {
        return Refused(NotFound);
      }
      if latest.None? { return Refused(NoAttempt); }
      var last := attempts[latest.value];
      if !IsRetryableStatus(last.status) { return Refused(NotRetryable); }
      if last.branch != read.branch || r.branch != read.branch { return Refused(BranchMismatch); }
      if last.pid.Some? {
        if alive { return Refused(ProcessAlive); }
      }
      var ok := PersistFeatureTransition(r.feature, Queued, Human, Keyed(r.key));
      if !ok { return Refused(TransitionRefused); }
      attempts := attempts[r.attempt :=
        Attempt(r.project, r.feature, r.approval, read.branch, r.key, AttemptQueued, latest, None, None, None, r.now)];
      records := records[r.key := Record(r.project, Some(r.feature), Some(r.attempt), RetryResult)];
      outcome := Done;
    }

    /** ORDER BY enqueued_at, id LIMIT 1 over the eligible attempts. */
    method OldestEligible() returns (best: Option<AttemptId>)
      ensures best.None? ==> forall a :: !IsEligible(View(), a)
      ensures best.Some? ==> IsClaimTarget(View(), best.value)
    {
      best := None;
      var rest := attempts.Keys;
      while rest != {}
        invariant rest <= attempts.Keys
        invariant best.None? ==> forall a :: IsEligible(View(), a) ==> a in rest
        invariant best.Some? ==> IsEligible(View(), best.value) && best.value !in rest
        invariant best.Some? ==> forall a :: IsEligible(View(), a) && a !in rest && a != best.value ==>
          Older(attempts[best.value], best.value, attempts[a], a)
        decreases rest
      {
        var a :| a in rest;
        rest := rest - {a};
        if IsEligible(View(), a) {
          if best.None? || Older(attempts[a], a, attempts[best.value], best.value) {
            best := Some(a);
          }
        }
      }
    }

    /** Claim for a registered worker: nothing at capacity, otherwise the oldest eligible attempt. */
    method ClaimNextAttempt(registration: Option<WorkerId>, maxConcurrent: nat, leaseExpires: Time)
      returns (claimed: Option<AttemptId>)
      modifies this`attempts
      ensures claimed.Some? ==>
        && registration.Some?
        && IsClaimTarget(old(View()), claimed.value) && |ActiveAttempts(old(View()))| < maxConcurrent
        && View() == Claimed(old(View()), claimed.value, registration.value, leaseExpires)
      ensures claimed.None? ==>
        && View() == old(View())
        && (registration.None? || |ActiveAttempts(View())| >= maxConcurrent || forall a :: !IsEligible(View(), a))
    {
      if registration.None? { return None; }
      if |ActiveAttempts(View())| >= maxConcurrent { return None; }
      claimed := OldestEligible();
      if claimed.None? { return None; }
      var t := attempts[claimed.value];
      attempts := attempts[claimed.value := t.(status := Running, worker := registration, lease := Some(leaseExpires))];
    }

    method MarkDeveloping(a: AttemptId, w: WorkerId) returns (outcome: Outcome)
      modifies this
      ensures Effect(View(), outcome) == Workflow.MarkDeveloping(old(View()), a, w)
    {
      if !Owns(View(), a, w) { return Refused(OwnershipLost); }
      var f := attempts[a].feature;
      if f !in features { return Refused(FeatureNotFound); }
      var ok := PersistFeatureTransition(f, Developing, Worker, OfAttempt(OpDeveloping, a));
      if !ok { return Refused(TransitionRefused); }
      assert attempts == attempts[a := attempts[a].(status := Running)];
      outcome := Done;
    }

    method PersistProcessIdentity(a: AttemptId, w: WorkerId, pid: nat, leaseExpires: Time) returns (outcome: Outcome)
      modifies this
      ensures Effect(View(), outcome) == Workflow.PersistProcessIdentity(old(View()), a, w, pid, leaseExpires)
    {
      if !Owns(View(), a, w) { return Refused(OwnershipLost); }
      if attempts[a].pid.Some? { return Refused(HasProcess); }
      attempts := attempts[a := attempts[a].(pid := Some(pid), lease := Some(leaseExpires))];
      outcome := Done;
    }

    method PersistSuccess(a: AttemptId, w: WorkerId) returns (outcome: Outcome)
      modifies this
      ensures Effect(View(), outcome) == Workflow.PersistSuccess(old(View()), a, w)
    {
      if !Owns(View(), a, w) { return Refused(OwnershipLost); }
      var f := attempts[a].feature;
      if f !in features { return Refused(FeatureNotFound); }
      var ok := PersistFeatureTransition(f, DevelopmentComplete, AgentResultAndVerification, OfAttempt(OpComplete, a));
      if !ok { return Refused(TransitionRefused); }
      UpdateAttemptStatus(a, Succeeded);
      outbox := outbox + [Intent(CompletionKey(f), f, a)];
      outcome := Done;
    }

    method PersistFailure(a: AttemptId, w: WorkerId, blocks: bool) returns (outcome: Outcome)
      modifies this
      ensures Effect(View(), outcome) == Workflow.PersistFailure(old(View()), a, w, blocks)
    {
      if !Owns(View(), a, w) { return Refused(OwnershipLost); }
      var f := attempts[a].feature;
      if f !in features { return Refused(FeatureNotFound); }
      var ok;
      if blocks {
        ok := PersistFeatureTransition(f, Blocked, Guard, OfAttempt(OpFailure, a));
      } else {
        ok := PersistFeatureTransition(f, DevelopmentFailed, Worker, OfAttempt(OpFailure, a));
      }
      if !ok { return Refused(TransitionRefused); }
      UpdateAttemptStatus(a, Failed);
      outcome := Done;
    }

    method RequestCancel(a: AttemptId) returns (outcome: Outcome)
      modifies this
      ensures Effect(View(), outcome) == Workflow.RequestCancel(old(View()), a)
    {
      if a !in attempts { return Refused(NotFound); }
      if attempts[a].status != Running { return Replayed(Some(a)); }
      UpdateAttemptStatus(a, CancelRequested);
      outcome := Done;
    }

    method CancelQueued(a: AttemptId, key: OperationKey) returns (outcome: Outcome)
      modifies this
      ensures Effect(View(), outcome) == Workflow.CancelQueued(old(View()), a)
    {
      if a !in attempts { return Refused(NotFound); }
      if attempts[a].status == Cancelled { return Replayed(Some(a)); }
      if attempts[a].status != AttemptQueued { return Refused(IllegalState); }
      var f := attempts[a].feature;
      if f !in features { return Refused(FeatureNotFound); }
      var ok := PersistFeatureTransition(f, DevelopmentCancelled, Human, Keyed(key));
      if !ok { return Refused(TransitionRefused); }
      UpdateAttemptStatus(a, Cancelled);
      outcome := Done;
    }

    /** cancelRunning up to the stored request, or up to the discovery that the process was replaced. */
    method BeginCancel(a: AttemptId, w: WorkerId, identityOk: bool) returns (outcome: Outcome, ticket: Option<Ticket>)
      modifies this
      ensures Effect(View(), outcome) == Workflow.BeginCancel(old(View()), a, w, identityOk)
      ensures ticket.Some? <==> outcome == Done
      ensures ticket.Some? ==> OwnsCancel(View(), a, w) && ticket.value == TicketFor(View(), a, identityOk)
    {
      ticket := None;
      if !OwnsCancel(View(), a, w) { outcome := Refused(OwnershipLost); return; }
      if attempts[a].pid.None? { outcome := Refused(NoProcess); return; }
      if identityOk { UpdateAttemptStatus(a, CancelRequested); }
      var f := attempts[a].feature;
      ticket := Some(Ticket(a, f, features[f], !identityOk, Loaded, true));
      outcome := Done;
    }

    /**
     * The compare-and-swap on the row that was loaded. A cancellation throws when
     * it finds no row; the blocking of a replaced process goes on regardless.
     */
    method SwapCancel(t: Ticket) returns (outcome: Outcome)
      modifies this
      ensures Effect(View(), outcome) == Workflow.SwapCancel(old(View()), t)
    {
      if t.feature !in features { return Refused(FeatureNotFound); }
      var op := OfAttempt(if t.replaced then OpCancelBlocked else OpCancel, t.attempt);
      var result := ApplyFeatureTransition(
        TransitionCommand(t.row.state, CancelTarget(t), CancelOwner(t), op,
                          t.row.version, t.row.version, Some(t.row.state), None, None));
      if !result.Applied? { return Refused(TransitionRefused); }
      var row := features[t.feature];
      if row.state != result.transition.prior || row.version != result.transition.priorVersion {
        return Refused(RowChanged);
      }
      row := row.(state := result.transition.next, version := result.transition.nextVersion);
      features := features[t.feature := row];
      outcome := Done;
    }

    method CloseCancel(t: Ticket) returns (outcome: Outcome)
      modifies this
      ensures Effect(View(), outcome) == Workflow.CloseCancel(old(View()), t)
    {
      if t.attempt !in attempts { return Refused(NotFound); }
      UpdateAttemptStatus(t.attempt, CancelStatus(t));
      outcome := Done;
    }

    method ReconcileOne(a: AttemptId, observedAt: Time) returns (outcome: Outcome)
      modifies this
      ensures Effect(View(), outcome) == Workflow.ReconcileOrphan(old(View()), a, observedAt)
    {
      if !IsOrphan(View(), a, observedAt) { return Refused(LeaseHeld); }
      var f := attempts[a].feature;
      if f !in features { return Refused(FeatureNotFound); }
      var ok := PersistFeatureTransition(f, DevelopmentInterrupted, Reconciliation, OfAttempt(OpInterrupted, a));
      if !ok { return Refused(TransitionRefused); }
      UpdateAttemptStatus(a, Interrupted);
      outcome := Done;
    }

    method ReconcileOrphansAtStartup(candidates: seq<AttemptId>, observedAt: Time) returns (reconciled: nat)
      modifies this
      ensures (View(), reconciled) == ReconcileAll(old(View()), candidates, observedAt)
    {
      ghost var before := View();
      reconciled := 0;
      for i := 0 to |candidates|
        invariant (View(), reconciled) == ReconcileAll(before, candidates[..i], observedAt)
      {
        ghost var e := ReconcileOrphan(View(), candidates[i], observedAt);
        ReconcilingOneMore(before, View(), reconciled, candidates, i, observedAt);
        var outcome := ReconcileOne(candidates[i], observedAt);
        assert View() == e.db && outcome == e.outcome;
        if outcome == Done { reconciled := reconciled + 1; }
      }
      assert candidates[..|candidates|] == candidates;
    }

    method MoveFeature(f: FeatureId, to: FeatureState, owner: TransitionOwner, op: OperationId)
      returns (outcome: Outcome)
      requires f in features
      modifies this`features
      ensures Effect(View(), outcome) == StoreMove(old(View()), f, Move(old(features[f]), to, owner))
    {
      var ok := PersistFeatureTransition(f, to, owner, op);
      outcome := if ok then Done else Refused(TransitionRefused);
    }

    method TransitionFeature(f: FeatureId, from: FeatureState, to: FeatureState, owner: TransitionOwner,
          op: OperationId)
      returns (outcome: Outcome)
      modifies this`features
      ensures Effect(View(), outcome) == Workflow.TransitionFeature(old(View()), f, from, to, owner)
    {
      ghost var expected := Workflow.TransitionFeature(View(), f, from, to, owner);
      if f !in features {
        outcome := Refused(FeatureNotFound);
      } else if features[f].state != from {
        outcome := Refused(TransitionRefused);
      } else {
        assert expected == StoreMove(View(), f, Move(features[f], to, owner));
        outcome := MoveFeature(f, to, owner, op);
      }
      assert Effect(View(), outcome) == expected;
    }

    method RetryPrCreation(f: FeatureId, project: ProjectId, a: AttemptId, key: OperationKey) returns (outcome: Outcome)
      modifies this
      ensures Effect(View(), outcome) == Workflow.RetryPrCreation(old(View()), f, project, a, key)
    {
      if f !in features { return Refused(FeatureNotFound); }
      if features[f].project != project { return Refused(ValidationFailed); }
      if key in records { return Replayed(records[key].attempt); }
      if features[f].state != PrCreationFailed { return Refused(IllegalState); }
      if a !in attempts || attempts[a].feature != f { return Refused(NotFound); }
      var ok := PersistFeatureTransition(f, PrCreating, Human, Keyed(key));
      if !ok { return Refused(TransitionRefused); }
      outbox := outbox + [Intent(key, f, a)];
      records := records[key := Record(project, Some(f), Some(a), PrRetryResult)];
      outcome := Done;
    }
  }

  lemma ReconcilingOneMore(db: Db, before: Db, count: nat, candidates: seq<AttemptId>, i: nat, observedAt: Time)
    requires i < |candidates| && (before, count) == ReconcileAll(db, candidates[..i], observedAt)
    ensures var e := ReconcileOrphan(before, candidates[i], observedAt);
      ReconcileAll(db, candidates[..i + 1], observedAt) == (e.db, if e.outcome == Done then count + 1 else count)
  {
    assert candidates[..i + 1][..i] == candidates[..i];
  }
}
