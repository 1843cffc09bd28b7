// The outbox of pull-request intents: why each intent is there, that no completed
// feature lacks one, and when a completion key is free.
module WorkflowOutbox {
  import opened FeatureStateMachine
  import opened Workflow
  import opened WorkflowSafety
  import opened WorkflowInvariant
  import opened WorkflowRuns

  predicate UsesKey(outbox: seq<Intent>, key: string) {
    exists i :: 0 <= i < |outbox| && outbox[i].dedupeKey == key
  }

  predicate IsPrRetryKey(db: Db, key: OperationKey) {
    key in db.records && db.records[key].body == PrRetryResult
  }

  /** An intent stems from its feature's completion or from a PR-creation retry under that key. */
  ghost predicate Explained(db: Db, i: Intent) {
    || IsPrRetryKey(db, i.dedupeKey)
    || (&& i.dedupeKey == CompletionKey(i.feature) && i.feature in db.features
        && IsPastDevelopment(db.features[i.feature].state))
  }

  ghost predicate OutboxExplained(db: Db) {
    && (forall i :: 0 <= i < |db.outbox| ==> Explained(db, db.outbox[i]))
    && (forall key :: IsPrRetryKey(db, key) ==> UsesKey(db.outbox, key))
  }

  lemma CompletionKeyIsInjective(f: FeatureId, g: FeatureId)
    requires CompletionKey(f) == CompletionKey(g)
    ensures f == g
  {
    assert f == CompletionKey(f)[|"create_pr:"|..];
    assert g == CompletionKey(g)[|"create_pr:"|..];
  }

  /** Intents are only ever added, and records of retries with them. */
  lemma IntentsGrow(w: World, s: Step, maxConcurrent: nat)
    requires Enabled(w, s, maxConcurrent)
    ensures var after := Write(w, s, maxConcurrent).db;
      && w.db.outbox <= after.outbox
      && (!(s.DoSucceed? || s.DoRetryPr?) ==>
            && after.outbox == w.db.outbox
            && forall key :: IsPrRetryKey(after, key) ==> IsPrRetryKey(w.db, key))
  {
    if IsTaskStep(s) {
      TaskStepsAddNone(w, s, maxConcurrent);
    } else if IsAttemptStep(s) {
      AttemptStepsAddNone(w, s, maxConcurrent);
    }
  }

  lemma TaskStepsAddNone(w: World, s: Step, maxConcurrent: nat)
    requires IsTaskStep(s) && Enabled(w, s, maxConcurrent)
    ensures var after := Write(w, s, maxConcurrent).db;
      after.outbox == w.db.outbox && forall key :: IsPrRetryKey(after, key) ==> IsPrRetryKey(w.db, key)
  {}

  lemma AttemptStepsAddNone(w: World, s: Step, maxConcurrent: nat)
    requires IsAttemptStep(s) && Enabled(w, s, maxConcurrent)
    ensures var after := Write(w, s, maxConcurrent).db;
      after.records == w.db.records && w.db.outbox <= after.outbox && (!s.DoSucceed? ==> after.outbox == w.db.outbox)
  {}

  lemma {:induction false} OutboxIsExplained(worlds: seq<World>, steps: seq<Step>, maxConcurrent: nat, i: nat)
    requires IsRun(worlds, steps, maxConcurrent) && i < |worlds|
    ensures OutboxExplained(worlds[i].db)
  {
    if i > 0 {
      OutboxIsExplained(worlds, steps, maxConcurrent, i - 1);
      EveryStepMovesOn(worlds, steps, maxConcurrent, i - 1);
      OutboxStaysExplained(worlds[i - 1], steps[i - 1], maxConcurrent);
    }
  }

  lemma PastIsClosed(s: FeatureState, t: FeatureState)
    requires IsPastDevelopment(s) && IsLawful(s, t)
    ensures IsPastDevelopment(t)
  {}

  lemma ExplanationsLast(db: Db, after: Db, i: Intent)
    requires Explained(db, i) && MovesOn(db, after)
    ensures Explained(after, i)
  {
    if !IsPrRetryKey(db, i.dedupeKey) {
      var u, v := db.features[i.feature], after.features[i.feature];
      assert FeatureProgress(u, v);
      if u.state != v.state { PastIsClosed(u.state, v.state); }
    }
  }

  /** Appending one explained intent, under the only new retry key if there is one. */
  lemma AppendingKeepsExplained(db: Db, after: Db, i: Intent)
    requires OutboxExplained(db) && MovesOn(db, after)
    requires after.outbox == db.outbox + [i] && Explained(after, i)
    requires forall key :: IsPrRetryKey(after, key) ==> IsPrRetryKey(db, key) || key == i.dedupeKey
    ensures OutboxExplained(after)
  {
    forall k | 0 <= k < |after.outbox| ensures Explained(after, after.outbox[k]) {
      if k < |db.outbox| { ExplanationsLast(db, after, db.outbox[k]); }
    }
    assert after.outbox[|db.outbox|] == i;
    forall key | IsPrRetryKey(after, key) ensures UsesKey(after.outbox, key) {
      if IsPrRetryKey(db, key) {
        var k :| 0 <= k < |db.outbox| && db.outbox[k].dedupeKey == key;
        assert after.outbox[k].dedupeKey == key;
      }
    }
  }

  lemma OutboxStaysExplained(w: World, s: Step, maxConcurrent: nat)
    requires Inv(w) && Enabled(w, s, maxConcurrent) && OutboxExplained(w.db)
    ensures OutboxExplained(Next(w, s, maxConcurrent).db)
  {
    var after := Next(w, s, maxConcurrent).db;
    StepMovesOn(w, s, maxConcurrent);
    IntentsGrow(w, s, maxConcurrent);
    if s.DoSucceed? {
      SuccessStaysExplained(w.db, after, s.a, s.w);
    } else if s.DoRetryPr? {
      RetryStaysExplained(w.db, after, s.f, s.project, s.a, s.key);
    } else {
      SameOutboxStaysExplained(w.db, after);
    }
  }

  lemma SuccessStaysExplained(db: Db, after: Db, a: AttemptId, w: WorkerId)
    requires OutboxExplained(db) && MovesOn(db, after) && after == PersistSuccess(db, a, w).db
    ensures OutboxExplained(after)
  {
    if PersistSuccess(db, a, w).outcome == Done {
      CompletionMoves(db, a, w);
      AppendingKeepsExplained(db, after, CompletionIntent(db, a));
    } else {
      SameOutboxStaysExplained(db, after);
    }
  }

  lemma RetryStaysExplained(db: Db, after: Db, f: FeatureId, project: ProjectId, a: AttemptId, key: OperationKey)
    requires OutboxExplained(db) && MovesOn(db, after) && after == RetryPrCreation(db, f, project, a, key).db
    ensures OutboxExplained(after)
  {
    if RetryPrCreation(db, f, project, a, key).outcome == Done {
      AppendingKeepsExplained(db, after, Intent(key, f, a));
    } else {
      SameOutboxStaysExplained(db, after);
    }
  }

  lemma SameOutboxStaysExplained(db: Db, after: Db)
    requires OutboxExplained(db) && MovesOn(db, after) && after.outbox == db.outbox
    requires forall key :: IsPrRetryKey(after, key) ==> IsPrRetryKey(db, key)
    ensures OutboxExplained(after)
  {
    forall k | 0 <= k < |after.outbox| ensures Explained(after, after.outbox[k]) {
      ExplanationsLast(db, after, db.outbox[k]);
    }
  }

  function CompletionIntent(db: Db, a: AttemptId): Intent
    requires a in db.attempts
  {
    Intent(CompletionKey(db.attempts[a].feature), db.attempts[a].feature, a)
  }

  /**
   * When a feature completes, the dedupe key of its pull-request intent is
   * unused if and only if no PR-creation retry was stored under that very key.
   */
  lemma CompletionKeyIsFresh(worlds: seq<World>, steps: seq<Step>, maxConcurrent: nat, k: nat, f: FeatureId)
    requires IsRun(worlds, steps, maxConcurrent) && Completes(worlds, steps, k, f)
    ensures UsesKey(worlds[k].db.outbox, CompletionKey(f)) <==> IsPrRetryKey(worlds[k].db, CompletionKey(f))
  {
    var db := worlds[k].db;
    OutboxIsExplained(worlds, steps, maxConcurrent, k);
    CompletionMoves(db, steps[k].a, steps[k].w);
    if UsesKey(db.outbox, CompletionKey(f)) {
      var i :| 0 <= i < |db.outbox| && db.outbox[i].dedupeKey == CompletionKey(f);
      assert Explained(db, db.outbox[i]);
      if !IsPrRetryKey(db, CompletionKey(f)) {
        CompletionKeyIsInjective(db.outbox[i].feature, f);
      }
    }
  }

  /**
   * The operator chooses the key of a PR-creation retry. Choosing the
   * completion key of another feature makes that feature's own intent collide.
   */
  lemma RetryKeyCanCollide(db: Db, g: FeatureId, b: AttemptId, a: AttemptId, w: WorkerId)
    requires b in db.attempts && a in db.attempts && g in db.features && db.attempts[a].feature != g
    ensures var retried := RetryPrCreation(db, g, db.features[g].project, b, CompletionKey(db.attempts[a].feature));
      var completed := PersistSuccess(retried.db, a, w);
      retried.outcome == Done && completed.outcome == Done ==> HasCollision(completed.db.outbox)
  {
    var key := CompletionKey(db.attempts[a].feature);
    var retried := RetryPrCreation(db, g, db.features[g].project, b, key);
    if retried.outcome == Done && PersistSuccess(retried.db, a, w).outcome == Done {
      var outbox := PersistSuccess(retried.db, a, w).db.outbox;
      assert outbox == db.outbox + [Intent(key, g, b)] + [CompletionIntent(db, a)];
      assert outbox[|db.outbox|].dedupeKey == outbox[|db.outbox| + 1].dedupeKey;
    }
  }

  predicate HasCollision(outbox: seq<Intent>) {
    exists i, j :: 0 <= i < j < |outbox| && outbox[i].dedupeKey == outbox[j].dedupeKey
  }

  // ---------------------------------------------------------------------
  // Every completed feature has its intent
  // ---------------------------------------------------------------------

  /** Development succeeded. */
  predicate IsCompleted(s: FeatureState) { s == DevelopmentComplete || IsPullRequestState(s) }

  /** The intent under the feature's completion key, for an attempt of it that succeeded. */
  predicate IsCompletionOf(db: Db, i: Intent, f: FeatureId) {
    && i.dedupeKey == CompletionKey(f) && i.feature == f
    && i.attempt in db.attempts && db.attempts[i.attempt].feature == f && db.attempts[i.attempt].status == Succeeded
  }

  ghost predicate HasCompletionIntent(db: Db, f: FeatureId) {
    exists i :: 0 <= i < |db.outbox| && IsCompletionOf(db, db.outbox[i], f)
  }

  /** In every world a feature that is complete or has got as far as its pull request has its intent in the outbox. */
  lemma {:induction false} CompletedHasItsIntent(worlds: seq<World>, steps: seq<Step>, maxConcurrent: nat,
        n: nat, f: FeatureId)
    requires IsRun(worlds, steps, maxConcurrent) && n < |worlds|
    requires f in worlds[n].db.features && IsCompleted(worlds[n].db.features[f].state)
    ensures HasCompletionIntent(worlds[n].db, f)
  {
    EveryStepMovesOn(worlds, steps, maxConcurrent, n - 1);
    if f in worlds[n - 1].db.features && IsCompleted(worlds[n - 1].db.features[f].state) {
      CompletedHasItsIntent(worlds, steps, maxConcurrent, n - 1, f);
    }
    IntentKept(worlds[n - 1], steps[n - 1], maxConcurrent, f);
  }

  lemma IntentKept(w: World, s: Step, maxConcurrent: nat, f: FeatureId)
    requires Inv(w) && Enabled(w, s, maxConcurrent)
    requires f in w.db.features && IsCompleted(w.db.features[f].state) ==> HasCompletionIntent(w.db, f)
    requires f in Write(w, s, maxConcurrent).db.features && IsCompleted(Write(w, s, maxConcurrent).db.features[f].state)
    ensures HasCompletionIntent(Write(w, s, maxConcurrent).db, f)
  {
    StepMovesOn(w, s, maxConcurrent);
    IntentsGrow(w, s, maxConcurrent);
    if f in w.db.features && IsCompleted(w.db.features[f].state) {
      IntentLasts(w.db, Write(w, s, maxConcurrent).db, f);
    } else {
      EntersByCompleting(w.db, Write(w, s, maxConcurrent).db, f);
      OnlySuccessCompletes(w, s, maxConcurrent, f);
      SuccessAddsIntent(w.db, s.a, s.w);
    }
  }

  lemma EntersByCompleting(db: Db, after: Db, f: FeatureId)
    requires MovesOn(db, after) && f in after.features && IsCompleted(after.features[f].state)
    requires f in db.features ==> !IsCompleted(db.features[f].state)
    ensures f in db.features && after.features[f].state == DevelopmentComplete
  {
    assert f in db.features && FeatureProgress(db.features[f], after.features[f]);
    OnlyWayIn(db.features[f].state, after.features[f].state);
  }

  lemma IntentLasts(db: Db, after: Db, f: FeatureId)
    requires HasCompletionIntent(db, f) && MovesOn(db, after) && db.outbox <= after.outbox
    ensures HasCompletionIntent(after, f)
  {
    var i :| 0 <= i < |db.outbox| && IsCompletionOf(db, db.outbox[i], f);
    assert after.outbox[i] == db.outbox[i];
    assert AttemptMoves(db.attempts[db.outbox[i].attempt], after.attempts[db.outbox[i].attempt]);
  }

  lemma SuccessAddsIntent(db: Db, a: AttemptId, w: WorkerId)
    requires PersistSuccess(db, a, w).outcome == Done
    ensures HasCompletionIntent(PersistSuccess(db, a, w).db, db.attempts[a].feature)
  {
    var after := PersistSuccess(db, a, w).db;
    assert after.outbox[|db.outbox|] == CompletionIntent(db, a);
    assert IsCompletionOf(after, CompletionIntent(db, a), db.attempts[a].feature);
  }

  /** The worker's success is the only way into DEVELOPMENT_COMPLETE. */
  lemma OnlySuccessCompletes(w: World, s: Step, maxConcurrent: nat, f: FeatureId)
    requires Enabled(w, s, maxConcurrent) && f in w.db.features && w.db.features[f].state != DevelopmentComplete
    requires f in Write(w, s, maxConcurrent).db.features
    requires Write(w, s, maxConcurrent).db.features[f].state == DevelopmentComplete
    ensures s.DoSucceed? && PersistSuccess(w.db, s.a, s.w).outcome == Done && w.db.attempts[s.a].feature == f
  {
    if s.DoSucceed? {
      SuccessMovesItsOwn(w.db, s.a, s.w, f);
    } else {
      NoOtherStepCompletes(w, s, maxConcurrent, f);
      assert false;
    }
  }

  lemma SuccessMovesItsOwn(db: Db, a: AttemptId, w: WorkerId, f: FeatureId)
    requires f in db.features && f in PersistSuccess(db, a, w).db.features
    requires PersistSuccess(db, a, w).db.features[f] != db.features[f]
    ensures PersistSuccess(db, a, w).outcome == Done && db.attempts[a].feature == f
  {}

  lemma NoOtherStepCompletes(w: World, s: Step, maxConcurrent: nat, f: FeatureId)
    requires Enabled(w, s, maxConcurrent) && f in w.db.features && w.db.features[f].state != DevelopmentComplete
    requires !s.DoSucceed?
    ensures f in Write(w, s, maxConcurrent).db.features
    ensures Write(w, s, maxConcurrent).db.features[f].state != DevelopmentComplete
  {
    if IsTaskStep(s) {
      TaskStepsDoNotComplete(w, s, maxConcurrent, f);
    } else if IsAttemptStep(s) {
      AttemptStepsStayOut(w, s, maxConcurrent, f, DevelopmentComplete);
    } else {
      OtherStepsStayOut(w, s, maxConcurrent, f, DevelopmentComplete);
    }
  }

  lemma TaskStepsDoNotComplete(w: World, s: Step, maxConcurrent: nat, f: FeatureId)
    requires IsTaskStep(s) && Enabled(w, s, maxConcurrent)
    requires f in w.db.features && w.db.features[f].state != DevelopmentComplete
    ensures f in Write(w, s, maxConcurrent).db.features
    ensures Write(w, s, maxConcurrent).db.features[f].state != DevelopmentComplete
  {}
}
