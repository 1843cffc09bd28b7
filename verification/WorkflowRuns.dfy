// What the joint invariant means for whole runs of the workflow.
module WorkflowRuns {
  import opened Wrappers
  import opened FeatureStateMachine
  import opened Workflow
  import opened WorkflowSafety
  import opened WorkflowInvariant

  lemma {:induction false} EveryWorldIsGood(worlds: seq<World>, steps: seq<Step>, maxConcurrent: nat, i: nat)
    requires IsRun(worlds, steps, maxConcurrent) && i < |worlds|
    ensures Inv(worlds[i])
  {
    if i == 0 {
      InitialIsGood();
    } else {
      EveryWorldIsGood(worlds, steps, maxConcurrent, i - 1);
      assert Enabled(worlds[i - 1], steps[i - 1], maxConcurrent);
      StepKeepsInv(worlds[i - 1], steps[i - 1], maxConcurrent);
    }
  }

  lemma InitialIsGood()
    ensures Inv(INITIAL)
  {
    assert Attached(INITIAL.db, {}) == INITIAL.db;
  }

  lemma EveryStepMovesOn(worlds: seq<World>, steps: seq<Step>, maxConcurrent: nat, i: nat)
    requires IsRun(worlds, steps, maxConcurrent) && i < |steps|
    ensures Inv(worlds[i]) && Enabled(worlds[i], steps[i], maxConcurrent)
    ensures worlds[i + 1] == Next(worlds[i], steps[i], maxConcurrent)
    ensures MovesOn(worlds[i].db, worlds[i + 1].db)
  {
    EveryWorldIsGood(worlds, steps, maxConcurrent, i);
    StepMovesOn(worlds[i], steps[i], maxConcurrent);
  }

  lemma RowsMoveOn(worlds: seq<World>, steps: seq<Step>, maxConcurrent: nat, i: nat)
    requires IsRun(worlds, steps, maxConcurrent) && i < |steps|
    ensures MovesOn(worlds[i].db, worlds[i + 1].db)
  {
    EveryStepMovesOn(worlds, steps, maxConcurrent, i);
  }

  // ---------------------------------------------------------------------
  // Features, attempts and approvals move together
  // ---------------------------------------------------------------------

  /**
   * The feature has a live attempt exactly when it is QUEUED or DEVELOPING; it
   * then has one, whose approval is the feature's one active approval.
   */
  ghost predicate LivesInDevelopment(db: Db, f: FeatureId)
    requires f in db.features
  {
    && (InDevelopment(db.features[f].state) <==> exists a :: IsLiveOf(db, a, f))
    && (forall a, b :: IsLiveOf(db, a, f) && IsLiveOf(db, b, f) ==> a == b)
    && (forall a, p :: IsLiveOf(db, a, f) ==> (IsActiveApprovalOf(db, p, f) <==> p == db.attempts[a].approval))
  }

  /** Some attempt of the feature has been left behind by the first final write of a cancellation. */
  ghost predicate HasLeft(w: World, f: FeatureId) {
    exists a :: a in w.left && IsLiveOf(w.db, a, f)
  }

  /**
   * In every world of every run this holds of a feature if and only if none of
   * its attempts is left behind. The approvals never come apart: features in
   * planning or review have none that is active, and no feature has two.
   */
  lemma LiveExactlyInDevelopment(worlds: seq<World>, steps: seq<Step>, maxConcurrent: nat, i: nat, f: FeatureId)
    requires IsRun(worlds, steps, maxConcurrent) && i < |worlds| && f in worlds[i].db.features
    ensures var db := worlds[i].db;
      var s := db.features[f].state;
      && (LivesInDevelopment(db, f) <==> !HasLeft(worlds[i], f))
      && (s == Planned || s == TasksReview ==> !HasActiveApproval(db, f))
      && (forall p, q :: IsActiveApprovalOf(db, p, f) && IsActiveApprovalOf(db, q, f) ==> p == q)
  {
    EveryWorldIsGood(worlds, steps, maxConcurrent, i);
    SoundMeansCoupled(worlds[i].db, worlds[i].left, f);
  }

  lemma SoundMeansCoupled(db: Db, left: set<AttemptId>, f: FeatureId)
    requires Sound(db, left) && f in db.features
    ensures LivesInDevelopment(db, f) <==> !exists a :: a in left && IsLiveOf(db, a, f)
    ensures db.features[f].state == Planned || db.features[f].state == TasksReview ==> !HasActiveApproval(db, f)
    ensures forall p, q :: IsActiveApprovalOf(db, p, f) && IsActiveApprovalOf(db, q, f) ==> p == q
  {
    var rest := Attached(db, left);
    assert CoupledAt(rest, f);
    assert forall p :: IsActiveApprovalOf(rest, p, f) <==> IsActiveApprovalOf(db, p, f);
    assert forall a :: IsLiveOf(rest, a, f) <==> a !in left && IsLiveOf(db, a, f);
    if a :| a in left && IsLiveOf(db, a, f) {
      if InDevelopment(db.features[f].state) {
        var b :| IsLiveOf(rest, b, f);
        assert IsLiveOf(db, b, f) && b != a;
      }
      assert !LivesInDevelopment(db, f);
    } else {
      assert forall a :: IsLiveOf(rest, a, f) <==> IsLiveOf(db, a, f);
    }
  }

  /** A cancellation of the feature has made the first of its final writes, and its attempt is still open. */
  ghost predicate IsHalfCancelled(w: World, f: FeatureId) {
    exists a :: StandsBetween(w, a) && IsLiveOf(w.db, a, f)
  }

  /**
   * The same from the rows and the cancellations alone: unless it is blocked, a
   * feature is coupled if and only if none of its cancellations stands between
   * its two final writes, in progress or for good. A blocked feature is coupled
   * if and only if it has no live attempt.
   */
  lemma CoupledIffNotHalfCancelled(worlds: seq<World>, steps: seq<Step>, maxConcurrent: nat, i: nat, f: FeatureId)
    requires IsRun(worlds, steps, maxConcurrent) && i < |worlds| && f in worlds[i].db.features
    ensures var w := worlds[i];
      LivesInDevelopment(w.db, f) <==>
      (if w.db.features[f].state == Blocked then forall a :: !IsLiveOf(w.db, a, f) else !IsHalfCancelled(w, f))
  {
    var w := worlds[i];
    EveryWorldIsGood(worlds, steps, maxConcurrent, i);
    SoundMeansCoupled(w.db, w.left, f);
    if w.db.features[f].state != Blocked {
      if HasLeft(w, f) {
        var a :| a in w.left && IsLiveOf(w.db, a, f);
        assert LeftIsExplained(w, a);
      }
      if IsHalfCancelled(w, f) {
        var a :| StandsBetween(w, a) && IsLiveOf(w.db, a, f);
        var id :| id in w.cancels && w.cancels[id].attempt == a && w.cancels[id].stage == Swapped;
        assert TicketFits(w.db, w.left, w.cancels[id]);
      }
    }
  }

  /** Every attempt left behind has its own cancellation at work on it. */
  ghost predicate LeftIsAttended(w: World) {
    forall a {:trigger IsAttended(w, a)} :: a in w.left ==> IsAttended(w, a)
  }

  ghost predicate IsAttended(w: World, a: AttemptId) {
    exists id :: id in w.cancels && w.cancels[id].attempt == a && w.cancels[id].stage == Swapped && w.cancels[id].alive
  }

  /** While no cancellation dies, a feature is uncoupled only until its own cancellation makes its second write. */
  lemma {:induction false} WithoutDeathsLeftIsAttended(worlds: seq<World>, steps: seq<Step>, maxConcurrent: nat, i: nat)
    requires IsRun(worlds, steps, maxConcurrent) && i < |worlds|
    requires forall k :: 0 <= k < i ==> !steps[k].DoAbandonCancel?
    ensures LeftIsAttended(worlds[i])
  {
    if i > 0 {
      WithoutDeathsLeftIsAttended(worlds, steps, maxConcurrent, i - 1);
      EveryStepMovesOn(worlds, steps, maxConcurrent, i - 1);
      AttendedKept(worlds[i - 1], steps[i - 1], maxConcurrent);
    }
  }

  lemma AttendedKept(w: World, s: Step, maxConcurrent: nat)
    requires Inv(w) && Enabled(w, s, maxConcurrent) && LeftIsAttended(w) && !s.DoAbandonCancel?
    ensures LeftIsAttended(Next(w, s, maxConcurrent))
  {
    var after := Next(w, s, maxConcurrent);
    forall a | a in after.left ensures IsAttended(after, a) {
      if a in w.left {
        StaysAttended(w, s, maxConcurrent, a);
      } else {
        OnlyTheCancelledIsLeft(w, s.id, maxConcurrent, a);
        assert after.cancels[s.id].stage == Swapped;
      }
    }
  }

  lemma StaysAttended(w: World, s: Step, maxConcurrent: nat, a: AttemptId)
    requires Inv(w) && Enabled(w, s, maxConcurrent) && a in w.left && IsAttended(w, a) && !s.DoAbandonCancel?
    requires a in Next(w, s, maxConcurrent).left
    ensures IsAttended(Next(w, s, maxConcurrent), a)
  {
    var after := Next(w, s, maxConcurrent);
    var id :| id in w.cancels && w.cancels[id].attempt == a && w.cancels[id].stage == Swapped && w.cancels[id].alive;
    if s.DoCloseCancel? { ClosedIsNotLeft(w, s, maxConcurrent); }
    assert id in after.cancels && after.cancels[id] == w.cancels[id];
  }

  lemma ClosedIsNotLeft(w: World, s: Step, maxConcurrent: nat)
    requires Inv(w) && Enabled(w, s, maxConcurrent) && s.DoCloseCancel?
    ensures w.cancels[s.id].attempt !in Next(w, s, maxConcurrent).left
  {
    CloseWrites(w, s, maxConcurrent);
  }

  lemma OnlyTheCancelledIsLeft(w: World, id: nat, maxConcurrent: nat, a: AttemptId)
    requires Inv(w) && Enabled(w, DoSwapCancel(id), maxConcurrent) && LeftIsAttended(w)
    requires SwapCancel(w.db, w.cancels[id]).outcome == Done && IsLiveOf(w.db, a, w.cancels[id].feature)
    ensures a == w.cancels[id].attempt
  {
    SwapFacts(w, id, maxConcurrent);
    var t := w.cancels[id];
    if t.attempt in w.left {
      assert IsAttended(w, t.attempt);
      var other :| other in w.cancels && w.cancels[other].attempt == t.attempt
        && w.cancels[other].stage == Swapped && w.cancels[other].alive;
      assert IsSameAttempt(w.cancels[other], w.cancels[id]);
      assert false;
    }
    NoOtherIsLive(w.db, w.left, t.attempt, a);
  }

  /** The cancellation of an attempt left behind has died, and none that found its process replaced is at work. */
  ghost predicate IsAbandoned(w: World, a: AttemptId) {
    && a in w.left && a in w.db.attempts && w.db.attempts[a].status == CancelRequested
    && forall id :: id in w.cancels && w.cancels[id].attempt == a && w.cancels[id].alive ==>
         w.cancels[id].stage == Loaded && !w.cancels[id].replaced
  }

  /**
   * Such an attempt stays open for good, whatever its feature does in the
   * meantime, unless a later cancellation of it finds its process replaced.
   */
  lemma {:induction false} AbandonedForGood(worlds: seq<World>, steps: seq<Step>, maxConcurrent: nat,
        i: nat, j: nat, a: AttemptId)
    requires IsRun(worlds, steps, maxConcurrent) && i <= j < |worlds| && IsAbandoned(worlds[i], a)
    requires forall k :: i <= k < j && steps[k].DoBeginCancel? && steps[k].a == a ==> steps[k].identityOk
    ensures IsAbandoned(worlds[j], a)
    decreases j
  {
    if i < j {
      AbandonedForGood(worlds, steps, maxConcurrent, i, j - 1, a);
      EveryStepMovesOn(worlds, steps, maxConcurrent, j - 1);
      AbandonedKept(worlds[j - 1], steps[j - 1], maxConcurrent, a);
    }
  }

  lemma AbandonedKept(w: World, s: Step, maxConcurrent: nat, a: AttemptId)
    requires Inv(w) && Enabled(w, s, maxConcurrent) && IsAbandoned(w, a)
    requires s.DoBeginCancel? && s.a == a ==> s.identityOk
    ensures IsAbandoned(Next(w, s, maxConcurrent), a)
  {
    if IsOrdinary(s) {
      WaitingIsHeld(w, s, maxConcurrent, a);
    } else if s.DoCloseCancel? {
      assert w.cancels[s.id].attempt != a;
    } else if SwapCancel(w.db, w.cancels[s.id]).outcome == Done {
      SwapFacts(w, s.id, maxConcurrent);
      if w.cancels[s.id].attempt == a {
        DevelopingLeavesNone(w.db, w.left, a);
        assert false;
      }
    }
  }

  /** An operation key creates at most one attempt. */
  lemma OneAttemptPerKey(worlds: seq<World>, steps: seq<Step>, maxConcurrent: nat, i: nat, a: AttemptId, b: AttemptId)
    requires IsRun(worlds, steps, maxConcurrent) && i < |worlds|
    requires a in worlds[i].db.attempts && b in worlds[i].db.attempts
    requires worlds[i].db.attempts[a].operationKey == worlds[i].db.attempts[b].operationKey
    ensures a == b
  {
    EveryWorldIsGood(worlds, steps, maxConcurrent, i);
    assert LinkedAttempt(worlds[i].db, a) && LinkedAttempt(worlds[i].db, b);
  }

  // ---------------------------------------------------------------------
  // Attempt statuses
  // ---------------------------------------------------------------------

  /** The statuses an attempt can still end up in. */
  predicate Reaches(s: AttemptStatus, t: AttemptStatus) {
    match s
    case AttemptQueued => true
    case Running => t != AttemptQueued
    case CancelRequested => t != AttemptQueued && t != Running && t != Succeeded
    case Interrupted => t == Interrupted || t == Failed
    case _ => s == t
  }

  /**
   * QUEUED, RUNNING, CANCEL_REQUESTED, closed: never backwards, and never from
   * CANCEL_REQUESTED to SUCCEEDED. A closed attempt stays as it is, but for one
   * that was interrupted, which may still be called failed.
   */
  lemma {:induction false} StatusesOnlyAdvance(worlds: seq<World>, steps: seq<Step>, maxConcurrent: nat,
        i: nat, j: nat, a: AttemptId)
    requires IsRun(worlds, steps, maxConcurrent) && i <= j < |worlds| && a in worlds[i].db.attempts
    ensures a in worlds[j].db.attempts
    ensures Reaches(worlds[i].db.attempts[a].status, worlds[j].db.attempts[a].status)
    decreases j
  {
    if i < j {
      StatusesOnlyAdvance(worlds, steps, maxConcurrent, i, j - 1, a);
      RowsMoveOn(worlds, steps, maxConcurrent, j - 1);
      StatusMoves(worlds[j - 1].db, worlds[j].db, a);
      ReachesFurther(worlds[i].db.attempts[a].status, worlds[j - 1].db.attempts[a].status,
                     worlds[j].db.attempts[a].status);
    }
  }

  lemma StatusMoves(db: Db, after: Db, a: AttemptId)
    requires MovesOn(db, after) && a in db.attempts
    ensures a in after.attempts && Moves(db.attempts[a].status, after.attempts[a].status)
  {
    assert AttemptMoves(db.attempts[a], after.attempts[a]);
  }

  lemma ReachesFurther(s: AttemptStatus, t: AttemptStatus, u: AttemptStatus)
    requires Reaches(s, t) && Moves(t, u)
    ensures Reaches(s, u)
  {}

  /** The second write of a cancellation that found its process replaced and then its row changed. */
  predicate IsLateBlock(w: World, s: Step, a: AttemptId) {
    s.DoCloseCancel? && s.id in w.cancels && w.cancels[s.id].attempt == a && w.cancels[s.id].stage == Missed
  }

  /**
   * A step changes the status of a closed attempt if and only if it is such a
   * write and the attempt was interrupted.
   */
  lemma ClosedIsRewrittenIff(w: World, s: Step, maxConcurrent: nat, a: AttemptId)
    requires Inv(w) && Enabled(w, s, maxConcurrent) && a in w.db.attempts && !IsLive(w.db.attempts[a].status)
    ensures a in Next(w, s, maxConcurrent).db.attempts
    ensures Next(w, s, maxConcurrent).db.attempts[a].status != w.db.attempts[a].status
      <==> IsLateBlock(w, s, a) && w.db.attempts[a].status == Interrupted
  {
    if s.DoCloseCancel? {
      CloseWrites(w, s, maxConcurrent);
    } else {
      StepProgresses(w, s, maxConcurrent);
      assert AttemptProgress(w.db.attempts[a], Next(w, s, maxConcurrent).db.attempts[a]);
    }
  }

  // ---------------------------------------------------------------------
  // Feature histories
  // ---------------------------------------------------------------------

  lemma {:induction false} FeaturesStay(worlds: seq<World>, steps: seq<Step>, maxConcurrent: nat, i: nat, j: nat,
        f: FeatureId)
    requires IsRun(worlds, steps, maxConcurrent) && i <= j < |worlds| && f in worlds[i].db.features
    ensures f in worlds[j].db.features
    decreases j
  {
    if i < j {
      FeaturesStay(worlds, steps, maxConcurrent, i, j - 1, f);
      RowsMoveOn(worlds, steps, maxConcurrent, j - 1);
    }
  }

  /** The stored states of `f` from world `i` to world `j`. */
  ghost function StatesOf(worlds: seq<World>, f: FeatureId, i: nat, j: nat): (h: seq<FeatureState>)
    requires i <= j < |worlds|
    requires forall k :: i <= k <= j ==> f in worlds[k].db.features
    ensures |h| == j - i + 1
    ensures forall k :: 0 <= k <= j - i ==> h[k] == worlds[i + k].db.features[f].state
  {
    seq(j - i + 1, k requires 0 <= k <= j - i => worlds[i + k].db.features[f].state)
  }

  /** All writers together keep every feature on the table's edges and the re-attach jumps. */
  lemma StoredStatesAreAHistory(worlds: seq<World>, steps: seq<Step>, maxConcurrent: nat, f: FeatureId, i: nat, j: nat)
    requires IsRun(worlds, steps, maxConcurrent) && i <= j < |worlds| && f in worlds[i].db.features
    ensures forall k :: i <= k <= j ==> f in worlds[k].db.features
    ensures IsHistory(StatesOf(worlds, f, i, j))
  {
    forall k | i <= k <= j ensures f in worlds[k].db.features {
      FeaturesStay(worlds, steps, maxConcurrent, i, k, f);
    }
    var h := StatesOf(worlds, f, i, j);
    forall k | 0 < k < |h| ensures FollowsLawfully(h, k) {
      EntryFollows(worlds, steps, maxConcurrent, f, i, j, k);
    }
  }

  lemma EntryFollows(worlds: seq<World>, steps: seq<Step>, maxConcurrent: nat, f: FeatureId, i: nat, j: nat, k: nat)
    requires IsRun(worlds, steps, maxConcurrent) && i <= j < |worlds| && 0 < k <= j - i
    requires forall n :: i <= n <= j ==> f in worlds[n].db.features
    ensures FollowsLawfully(StatesOf(worlds, f, i, j), k)
  {
    var h, n := StatesOf(worlds, f, i, j), i + k - 1;
    StateFollows(worlds, steps, maxConcurrent, f, n);
    assert h[k] == worlds[n + 1].db.features[f].state && h[k - 1] == worlds[n].db.features[f].state;
  }

  lemma StateFollows(worlds: seq<World>, steps: seq<Step>, maxConcurrent: nat, f: FeatureId, k: nat)
    requires IsRun(worlds, steps, maxConcurrent) && k < |steps|
    requires f in worlds[k].db.features && f in worlds[k + 1].db.features
    ensures var s, t := worlds[k].db.features[f].state, worlds[k + 1].db.features[f].state; s == t || IsLawful(s, t)
  {
    RowsMoveOn(worlds, steps, maxConcurrent, k);
    assert FeatureProgress(worlds[k].db.features[f], worlds[k + 1].db.features[f]);
  }

  /** Every feature enters a run in PLANNED. */
  lemma {:induction false} EntersPlanned(worlds: seq<World>, steps: seq<Step>, maxConcurrent: nat, f: FeatureId, n: nat)
    returns (i: nat)
    requires IsRun(worlds, steps, maxConcurrent) && n < |worlds| && f in worlds[n].db.features
    ensures i <= n && f in worlds[i].db.features && worlds[i].db.features[f].state == Planned
    decreases n
  {
    RowsMoveOn(worlds, steps, maxConcurrent, n - 1);
    if f in worlds[n - 1].db.features {
      i := EntersPlanned(worlds, steps, maxConcurrent, f, n - 1);
    } else {
      i := n;
    }
  }

  predicate StateAt(worlds: seq<World>, k: int, f: FeatureId, s: FeatureState) {
    0 <= k < |worlds| && f in worlds[k].db.features && worlds[k].db.features[f].state == s
  }

  predicate Milestones(worlds: seq<World>, f: FeatureId, q: int, d: int, c: int, p: int) {
    && StateAt(worlds, q, f, Queued) && StateAt(worlds, d, f, Developing)
    && StateAt(worlds, c, f, DevelopmentComplete) && StateAt(worlds, p, f, PrCreating)
  }

  /** A merged feature was queued, then developed, then complete, then given its pull request. */
  lemma MergedWentThroughDevelopment(worlds: seq<World>, steps: seq<Step>, maxConcurrent: nat, f: FeatureId, n: nat)
    requires IsRun(worlds, steps, maxConcurrent) && StateAt(worlds, n, f, DevelopmentMerged)
    ensures exists q, d, c, p :: q < d < c < p < n && Milestones(worlds, f, q, d, c, p)
  {
    var i := EntersPlanned(worlds, steps, maxConcurrent, f, n);
    StoredStatesAreAHistory(worlds, steps, maxConcurrent, f, i, n);
    var q, d, c, p := MilestonesFrom(worlds, f, i, n);
    assert q < d < c < p < n && Milestones(worlds, f, q, d, c, p);
  }

  lemma MilestonesFrom(worlds: seq<World>, f: FeatureId, i: nat, n: nat) returns (q: nat, d: nat, c: nat, p: nat)
    requires i <= n < |worlds| && forall k :: i <= k <= n ==> f in worlds[k].db.features
    requires IsHistory(StatesOf(worlds, f, i, n))
    requires StateAt(worlds, i, f, Planned) && StateAt(worlds, n, f, DevelopmentMerged)
    ensures q < d < c < p < n && Milestones(worlds, f, q, d, c, p)
  {
    HistoryEnds(worlds, f, i, n);
    q, d, c, p := MilestonesOf(StatesOf(worlds, f, i, n), n - i);
    assert q < d < c < p < n - i;
    HistoryMilestones(worlds, f, i, n, q, d, c, p);
    q, d, c, p := i + q, i + d, i + c, i + p;
  }

  lemma HistoryEnds(worlds: seq<World>, f: FeatureId, i: nat, n: nat)
    requires i <= n < |worlds| && forall k :: i <= k <= n ==> f in worlds[k].db.features
    ensures StatesOf(worlds, f, i, n)[0] == worlds[i].db.features[f].state
    ensures StatesOf(worlds, f, i, n)[n - i] == worlds[n].db.features[f].state
  {
    HistoryIsStateAt(worlds, f, i, n, 0);
    HistoryIsStateAt(worlds, f, i, n, n - i);
  }

  lemma MilestonesOf(h: seq<FeatureState>, n: nat) returns (q: nat, d: nat, c: nat, p: nat)
    requires IsHistory(h) && n < |h| && h[0] == Planned && h[n] == DevelopmentMerged
    ensures PassedInOrder(h, q, d, c, p, n)
  {
    MergedPassedEveryMilestone(h, n);
    q, d, c, p :| PassedInOrder(h, q, d, c, p, n);
  }

  lemma HistoryMilestones(worlds: seq<World>, f: FeatureId, i: nat, n: nat, q: nat, d: nat, c: nat, p: nat)
    requires i <= n < |worlds| && forall k :: i <= k <= n ==> f in worlds[k].db.features
    requires PassedInOrder(StatesOf(worlds, f, i, n), q, d, c, p, n - i)
    ensures Milestones(worlds, f, i + q, i + d, i + c, i + p)
  {
    HistoryIsStateAt(worlds, f, i, n, q);
    HistoryIsStateAt(worlds, f, i, n, d);
    HistoryIsStateAt(worlds, f, i, n, c);
    HistoryIsStateAt(worlds, f, i, n, p);
  }

  lemma HistoryIsStateAt(worlds: seq<World>, f: FeatureId, i: nat, n: nat, k: nat)
    requires i <= n < |worlds| && forall m :: i <= m <= n ==> f in worlds[m].db.features
    requires k <= n - i
    ensures StateAt(worlds, i + k, f, StatesOf(worlds, f, i, n)[k])
  {}

  /** Development is over for good: no later world has the feature in planning, review or development. */
  lemma DevelopmentIsOver(worlds: seq<World>, steps: seq<Step>, maxConcurrent: nat, f: FeatureId, i: nat, j: nat)
    requires IsRun(worlds, steps, maxConcurrent) && i <= j < |worlds| && f in worlds[i].db.features
    requires IsPastDevelopment(worlds[i].db.features[f].state)
    ensures f in worlds[j].db.features && IsPastDevelopment(worlds[j].db.features[f].state)
  {
    StoredStatesAreAHistory(worlds, steps, maxConcurrent, f, i, j);
    DevelopmentNeverResumes(StatesOf(worlds, f, i, j), 0, j - i);
  }

  ghost predicate Completes(worlds: seq<World>, steps: seq<Step>, k: int, f: FeatureId) {
    && 0 <= k < |steps| && |worlds| == |steps| + 1 && steps[k].DoSucceed?
    && PersistSuccess(worlds[k].db, steps[k].a, steps[k].w).outcome == Done
    && worlds[k].db.attempts[steps[k].a].feature == f
  }

  /** A feature completes at most once in a run. */
  lemma CompletesAtMostOnce(worlds: seq<World>, steps: seq<Step>, maxConcurrent: nat, f: FeatureId, i: nat, j: nat)
    requires IsRun(worlds, steps, maxConcurrent)
    requires Completes(worlds, steps, i, f) && Completes(worlds, steps, j, f)
    ensures i == j
  {
    if i < j {
      CompletesNotAgain(worlds, steps, maxConcurrent, f, i, j);
    } else if j < i {
      CompletesNotAgain(worlds, steps, maxConcurrent, f, j, i);
    }
  }

  lemma CompletesNotAgain(worlds: seq<World>, steps: seq<Step>, maxConcurrent: nat, f: FeatureId, i: nat, j: nat)
    requires IsRun(worlds, steps, maxConcurrent) && Completes(worlds, steps, i, f) && i < j < |steps|
    ensures !Completes(worlds, steps, j, f)
  {
    CompletionIsStored(worlds, steps, maxConcurrent, i, f);
    DevelopmentIsOver(worlds, steps, maxConcurrent, f, i + 1, j);
    if Completes(worlds, steps, j, f) { CompletionMoves(worlds[j].db, steps[j].a, steps[j].w); }
  }

  lemma CompletionIsStored(worlds: seq<World>, steps: seq<Step>, maxConcurrent: nat, k: nat, f: FeatureId)
    requires IsRun(worlds, steps, maxConcurrent) && Completes(worlds, steps, k, f)
    ensures StateAt(worlds, k + 1, f, DevelopmentComplete)
  {
    EveryStepMovesOn(worlds, steps, maxConcurrent, k);
    CompletionMoves(worlds[k].db, steps[k].a, steps[k].w);
  }

  lemma CompletionMoves(db: Db, a: AttemptId, w: WorkerId)
    requires PersistSuccess(db, a, w).outcome == Done
    ensures var f := db.attempts[a].feature;
      && f in db.features && db.features[f].state == Developing
      && PersistSuccess(db, a, w).db.features[f].state == DevelopmentComplete
  {
    var f := db.attempts[a].feature;
  }

  // ---------------------------------------------------------------------
  // Exactly which writes leave the table
  // ---------------------------------------------------------------------

  /** Attaching or replacing the task of a feature whose last run failed, was interrupted or was cancelled. */
  predicate IsReattachStep(db: Db, s: Step, f: FeatureId)
    requires f in db.features
  {
    && IsReattachState(db.features[f].state)
    && ((s.DoAttach? && s.f == f) || (s.DoReplace? && s.replace.feature == f))
  }

  /**
   * A step that changes a feature's state follows an edge of the F-5 table if
   * and only if it is not such a re-attachment.
   */
  lemma TableHoldsExceptOnReattach(w: World, s: Step, maxConcurrent: nat, f: FeatureId)
    requires Inv(w) && Enabled(w, s, maxConcurrent) && f in w.db.features
    requires f in Next(w, s, maxConcurrent).db.features
    requires Next(w, s, maxConcurrent).db.features[f].state != w.db.features[f].state
    ensures IsF5Edge(w.db.features[f].state, Next(w, s, maxConcurrent).db.features[f].state)
      <==> !IsReattachStep(w.db, s, f)
  {
    var after := Next(w, s, maxConcurrent).db;
    StateFollowsLaw(w, s, maxConcurrent, f);
    if IsReattachStep(w.db, s, f) {
      ReattachStepsJump(w, s, maxConcurrent, f);
    } else if after.features[f].state == TasksReview {
      OnlyTaskStepsEnterReview(w, s, maxConcurrent, f);
    }
    if IsReattachJump(w.db.features[f].state, after.features[f].state) {
      ReattachJumpIsNotAnEdge(w.db.features[f].state, TasksReview);
    }
  }

  lemma StateFollowsLaw(w: World, s: Step, maxConcurrent: nat, f: FeatureId)
    requires Inv(w) && Enabled(w, s, maxConcurrent) && f in w.db.features
    requires f in Next(w, s, maxConcurrent).db.features
    ensures var u, v := w.db.features[f].state, Next(w, s, maxConcurrent).db.features[f].state; u == v || IsLawful(u, v)
  {
    StepMovesOn(w, s, maxConcurrent);
    assert FeatureProgress(w.db.features[f], Next(w, s, maxConcurrent).db.features[f]);
  }

  lemma ReattachStepsJump(w: World, s: Step, maxConcurrent: nat, f: FeatureId)
    requires Enabled(w, s, maxConcurrent) && f in w.db.features && IsReattachStep(w.db, s, f)
    ensures f in Write(w, s, maxConcurrent).db.features
    ensures var t := Write(w, s, maxConcurrent).db.features[f].state; t == w.db.features[f].state || t == TasksReview
  {}

  lemma TaskStepsEnterReview(w: World, s: Step, maxConcurrent: nat, f: FeatureId)
    requires IsTaskStep(s)
    requires Enabled(w, s, maxConcurrent) && f in w.db.features && w.db.features[f].state != TasksReview
    ensures var after := Write(w, s, maxConcurrent).db;
      f in after.features && after.features[f].state == TasksReview ==>
        (s.DoAttach? && s.f == f) || (s.DoReplace? && s.replace.feature == f)
  {}

  lemma AttemptStepsStayOut(w: World, s: Step, maxConcurrent: nat, f: FeatureId, target: FeatureState)
    requires IsAttemptStep(s) && (target == TasksReview || (target == DevelopmentComplete && !s.DoSucceed?))
    requires Enabled(w, s, maxConcurrent) && f in w.db.features && w.db.features[f].state != target
    ensures f in Write(w, s, maxConcurrent).db.features && Write(w, s, maxConcurrent).db.features[f].state != target
  {
    if IsMoveStep(s) {
      MoveStepsStayOut(w, s, maxConcurrent, f, target);
    } else {
      RelabelStepsKeepFeatures(w, s, maxConcurrent);
    }
  }

  lemma MoveStepsStayOut(w: World, s: Step, maxConcurrent: nat, f: FeatureId, target: FeatureState)
    requires IsMoveStep(s) && (target == TasksReview || (target == DevelopmentComplete && !s.DoSucceed?))
    requires Enabled(w, s, maxConcurrent) && f in w.db.features && w.db.features[f].state != target
    ensures f in Write(w, s, maxConcurrent).db.features && Write(w, s, maxConcurrent).db.features[f].state != target
  {
    match s
    case DoMarkDeveloping(a, worker) => MovesStayOut(w.db, a, Developing, Worker, Running, f, target);
    case DoSucceed(a, worker) => SuccessStaysOutOfReview(w.db, a, worker, f);
    case DoFail(a, worker, blocks) => FailureStaysOut(w.db, a, worker, blocks, f, target);
    case DoCancelQueued(a) => MovesStayOut(w.db, a, DevelopmentCancelled, Human, Cancelled, f, target);
    case DoReconcile(a, _) => MovesStayOut(w.db, a, DevelopmentInterrupted, Reconciliation, Interrupted, f, target);
    case _ =>
  }

  lemma SuccessStaysOutOfReview(db: Db, a: AttemptId, w: WorkerId, f: FeatureId)
    requires f in db.features && db.features[f].state != TasksReview
    ensures f in PersistSuccess(db, a, w).db.features && PersistSuccess(db, a, w).db.features[f].state != TasksReview
  {
    MovesStayOut(db, a, DevelopmentComplete, AgentResultAndVerification, Succeeded, f, TasksReview);
  }

  lemma FailureStaysOut(db: Db, a: AttemptId, w: WorkerId, blocks: bool, f: FeatureId, target: FeatureState)
    requires target == TasksReview || target == DevelopmentComplete
    requires f in db.features && db.features[f].state != target
    ensures var after := PersistFailure(db, a, w, blocks).db;
      f in after.features && after.features[f].state != target
  {
    MovesStayOut(db, a, Blocked, Guard, Failed, f, target);
    MovesStayOut(db, a, DevelopmentFailed, Worker, Failed, f, target);
  }

  lemma RelabelStepsKeepFeatures(w: World, s: Step, maxConcurrent: nat)
    requires (IsRelabelStep(s) || s.DoClaim?) && Enabled(w, s, maxConcurrent)
    ensures Write(w, s, maxConcurrent).db.features == w.db.features
  {}

  lemma MovesStayOut(db: Db, a: AttemptId, to: FeatureState, owner: TransitionOwner, s: AttemptStatus,
        f: FeatureId, target: FeatureState)
    requires to != target && f in db.features && db.features[f].state != target
    ensures a in db.attempts ==>
      var after := MoveAndSet(db, a, to, owner, s).db; f in after.features && after.features[f].state != target
  {}

  lemma SwapsStayOut(db: Db, t: Ticket, f: FeatureId, target: FeatureState)
    requires target == TasksReview || target == DevelopmentComplete
    requires f in db.features && db.features[f].state != target
    ensures f in SwapCancel(db, t).db.features && SwapCancel(db, t).db.features[f].state != target
  {}

  lemma OnlyTaskStepsEnterReview(w: World, s: Step, maxConcurrent: nat, f: FeatureId)
    requires Enabled(w, s, maxConcurrent) && f in w.db.features && w.db.features[f].state != TasksReview
    ensures var after := Write(w, s, maxConcurrent).db;
      f in after.features && after.features[f].state == TasksReview ==>
        (s.DoAttach? && s.f == f) || (s.DoReplace? && s.replace.feature == f)
  {
    if IsTaskStep(s) {
      TaskStepsEnterReview(w, s, maxConcurrent, f);
    } else if IsAttemptStep(s) {
      AttemptStepsStayOut(w, s, maxConcurrent, f, TasksReview);
    } else {
      OtherStepsStayOut(w, s, maxConcurrent, f, TasksReview);
    }
  }

  lemma OtherStepsStayOut(w: World, s: Step, maxConcurrent: nat, f: FeatureId, target: FeatureState)
    requires !IsTaskStep(s) && !IsAttemptStep(s) && (target == TasksReview || target == DevelopmentComplete)
    requires Enabled(w, s, maxConcurrent) && f in w.db.features && w.db.features[f].state != target
    ensures f in Write(w, s, maxConcurrent).db.features && Write(w, s, maxConcurrent).db.features[f].state != target
  {
    match s
    case DoSwapCancel(id) => SwapsStayOut(w.db, w.cancels[id], f, target);
    case DoPoll(g, to) => PollsStayOut(w.db, g, to, f, target);
    case _ => HandoffStepsStayOut(w, s, maxConcurrent, f, target);
  }

  lemma PollsStayOut(db: Db, g: FeatureId, to: FeatureState, f: FeatureId, target: FeatureState)
    requires target == TasksReview || target == DevelopmentComplete
    requires f in db.features && db.features[f].state != target
    ensures f in Poll(db, g, to).db.features && Poll(db, g, to).db.features[f].state != target
  {
    if g in db.features {
      TransitionsStayOut(db, g, db.features[g].state, to, if to == Blocked then Guard else Poller, f, target);
    }
  }

  lemma TransitionsStayOut(db: Db, g: FeatureId, from: FeatureState, to: FeatureState, owner: TransitionOwner,
        f: FeatureId, target: FeatureState)
    requires target == TasksReview || target == DevelopmentComplete
    requires owner != HumanAndValidation && owner != AgentResultAndVerification
    requires f in db.features && db.features[f].state != target
    ensures var after := TransitionFeature(db, g, from, to, owner).db;
      f in after.features && after.features[f].state != target
  {
    AllowedInto(from, target, owner);
  }

  lemma HandoffStepsStayOut(w: World, s: Step, maxConcurrent: nat, f: FeatureId, target: FeatureState)
    requires !IsTaskStep(s) && !IsAttemptStep(s) && !s.DoSwapCancel? && !s.DoPoll?
    requires target == TasksReview || target == DevelopmentComplete
    requires Enabled(w, s, maxConcurrent) && f in w.db.features && w.db.features[f].state != target
    ensures f in Write(w, s, maxConcurrent).db.features && Write(w, s, maxConcurrent).db.features[f].state != target
  {}

  lemma AllowedInto(from: FeatureState, to: FeatureState, owner: TransitionOwner)
    requires to == TasksReview || to == DevelopmentComplete
    ensures IsAllowed(from, to, owner) ==> owner == HumanAndValidation || owner == AgentResultAndVerification
  {}

  // ---------------------------------------------------------------------
  // Startup reconciliation
  // ---------------------------------------------------------------------

  /** An expired attempt whose process had been started. */
  predicate IsInterruptible(db: Db, a: AttemptId, observedAt: Time) {
    && IsOrphan(db, a, observedAt)
    && db.attempts[a].feature in db.features && db.features[db.attempts[a].feature].state == Developing
  }

  function Interruptible(db: Db, candidates: seq<AttemptId>, observedAt: Time): set<AttemptId> {
    set a | a in candidates && IsInterruptible(db, a, observedAt)
  }

  predicate IsDistinct(candidates: seq<AttemptId>) {
    forall i, j :: 0 <= i < j < |candidates| ==> candidates[i] != candidates[j]
  }

  /** `after` is `db` with the attempts `hits` interrupted, and only their features touched. */
  ghost predicate IsInterrupted(db: Db, after: Db, hits: set<AttemptId>) {
    && after.attempts.Keys == db.attempts.Keys
    && (forall a :: a in db.attempts ==>
          after.attempts[a] == (if a in hits then db.attempts[a].(status := Interrupted) else db.attempts[a]))
    && (forall f :: f in db.features ==> f in after.features)
    && (forall f :: f in db.features && after.features[f] != db.features[f] ==>
          exists a :: a in hits && a in db.attempts && db.attempts[a].feature == f)
  }

  /**
   * Reconciliation interrupts the expired attempts of developing features, no
   * other, and reports how many; it leaves every other attempt as it was.
   */
  lemma {:induction false} ReconciliationIsExact(db: Db, left: set<AttemptId>,
        candidates: seq<AttemptId>, observedAt: Time)
    requires Sound(db, left) && IsDistinct(candidates)
    ensures var (after, count) := ReconcileAll(db, candidates, observedAt);
      && Sound(after, left) && IsInterrupted(db, after, Interruptible(db, candidates, observedAt))
      && count == |Interruptible(db, candidates, observedAt)|
  {
    if candidates != [] {
      var n := |candidates| - 1;
      var c := candidates[n];
      InterruptibleGrows(db, candidates, observedAt);
      ReconciliationIsExact(db, left, candidates[..n], observedAt);
      var (before, _) := ReconcileAll(db, candidates[..n], observedAt);
      ReconcilingKeepsSound(before, left, c, observedAt);
      OneMoreInterrupted(db, left, before, Interruptible(db, candidates[..n], observedAt), c, observedAt);
    }
  }

  lemma ReconcilingKeepsSound(db: Db, left: set<AttemptId>, a: AttemptId, observedAt: Time)
    requires Sound(db, left)
    ensures Sound(ReconcileOrphan(db, a, observedAt).db, left)
  {
    if a in left {
      LeftIsNotReconciled(db, left, a, observedAt);
    } else {
      ReconcileIsUndisturbed(db, left, a, observedAt);
      AttachedStaysSound(db, ReconcileOrphan(db, a, observedAt).db, left);
    }
  }

  lemma LeftIsNotReconciled(db: Db, left: set<AttemptId>, a: AttemptId, observedAt: Time)
    requires Sound(db, left) && a in left
    ensures ReconcileOrphan(db, a, observedAt).db == db
  {
    LeftIsBlockedOrWaiting(db, left, a);
  }

  lemma InterruptibleGrows(db: Db, candidates: seq<AttemptId>, observedAt: Time)
    requires candidates != [] && IsDistinct(candidates)
    ensures var c, init := candidates[|candidates| - 1], candidates[..|candidates| - 1];
      var hits := Interruptible(db, init, observedAt);
      && IsDistinct(init) && c !in hits
      && (forall a :: a in hits ==> IsInterruptible(db, a, observedAt))
      && Interruptible(db, candidates, observedAt) == (if IsInterruptible(db, c, observedAt) then hits + {c} else hits)
      && |Interruptible(db, candidates, observedAt)| == |hits| + (if IsInterruptible(db, c, observedAt) then 1 else 0)
  {
    var c, init := candidates[|candidates| - 1], candidates[..|candidates| - 1];
    assert candidates == init + [c] && c !in init;
  }

  lemma OneMoreInterrupted(db: Db, left: set<AttemptId>, before: Db, hits: set<AttemptId>, c: AttemptId,
        observedAt: Time)
    requires Sound(db, left) && IsInterrupted(db, before, hits) && c !in hits
    requires forall a :: a in hits ==> IsInterruptible(db, a, observedAt)
    ensures var e := ReconcileOrphan(before, c, observedAt);
      && (e.outcome == Done <==> IsInterruptible(db, c, observedAt))
      && IsInterrupted(db, e.db, if e.outcome == Done then hits + {c} else hits)
  {
    UntouchedByOthers(db, left, before, hits, c, observedAt);
    if ReconcileOrphan(before, c, observedAt).outcome == Done {
      var row := before.features[before.attempts[c].feature];
      StillInterrupted(db, before, hits, c, Move(row, DevelopmentInterrupted, Reconciliation).value);
    }
  }

  lemma StillInterrupted(db: Db, before: Db, hits: set<AttemptId>, c: AttemptId, row: Feature)
    requires IsInterrupted(db, before, hits) && c in db.attempts && c !in hits
    ensures IsInterrupted(db, Closing(before, c, row, Interrupted), hits + {c})
  {
    var after := Closing(before, c, row, Interrupted);
    forall f | f in db.features && after.features[f] != db.features[f]
      ensures exists a :: a in hits + {c} && a in db.attempts && db.attempts[a].feature == f
    {
      if before.features[f] == db.features[f] { assert c in hits + {c}; }
    }
  }

  /** Interrupting other attempts does not change whether `c` is one to interrupt. */
  lemma UntouchedByOthers(db: Db, left: set<AttemptId>, before: Db, hits: set<AttemptId>, c: AttemptId,
        observedAt: Time)
    requires Sound(db, left) && IsInterrupted(db, before, hits) && c !in hits
    requires forall a :: a in hits ==> IsInterruptible(db, a, observedAt)
    ensures ReconcileOrphan(before, c, observedAt).outcome == Done <==> IsInterruptible(db, c, observedAt)
  {
    ReconciledIffInterruptible(before, c, observedAt);
    if IsOrphan(db, c, observedAt) {
      RowIsUntouched(db, left, before, hits, c, observedAt);
    }
  }

  lemma ReconciledIffInterruptible(db: Db, a: AttemptId, observedAt: Time)
    ensures ReconcileOrphan(db, a, observedAt).outcome == Done <==> IsInterruptible(db, a, observedAt)
  {}

  lemma RowIsUntouched(db: Db, left: set<AttemptId>, before: Db, hits: set<AttemptId>, c: AttemptId, observedAt: Time)
    requires Sound(db, left) && IsInterrupted(db, before, hits) && c !in hits && IsOrphan(db, c, observedAt)
    requires forall a :: a in hits ==> IsInterruptible(db, a, observedAt)
    ensures var f := db.attempts[c].feature;
      f in db.features && f in before.features && before.features[f] == db.features[f]
  {
    assert LinkedAttempt(db, c);
    var f := db.attempts[c].feature;
    var rest := Attached(db, left);
    assert CoupledAt(rest, f);
    if before.features[f] != db.features[f] {
      var a :| a in hits && a in db.attempts && db.attempts[a].feature == f;
      assert IsInterruptible(db, a, observedAt);
      if a in left { DevelopingLeavesNone(db, left, a); }
      if c in left { DevelopingLeavesNone(db, left, c); }
      assert IsLiveOf(rest, a, f) && IsLiveOf(rest, c, f);
      assert false;
    }
  }

  // ---------------------------------------------------------------------
  // The queue
  // ---------------------------------------------------------------------

  /** Only a claim makes an attempt active. */
  lemma OnlyClaimsActivate(w: World, s: Step, maxConcurrent: nat, a: AttemptId)
    requires Enabled(w, s, maxConcurrent) && a in Write(w, s, maxConcurrent).db.attempts
    requires IsActive(Write(w, s, maxConcurrent).db.attempts[a].status)
    ensures a in w.db.attempts && (IsActive(w.db.attempts[a].status) || (s.DoClaim? && s.claimed == a))
  {
    if IsTaskStep(s) {
      TaskStepsActivateNone(w, s, maxConcurrent, a);
    } else if IsAttemptStep(s) {
      AttemptStepsActivateClaimed(w, s, maxConcurrent, a);
    }
  }

  lemma TaskStepsActivateNone(w: World, s: Step, maxConcurrent: nat, a: AttemptId)
    requires IsTaskStep(s) && Enabled(w, s, maxConcurrent) && a in Write(w, s, maxConcurrent).db.attempts
    ensures Write(w, s, maxConcurrent).db.attempts[a].status == AttemptQueued
         || (a in w.db.attempts && Write(w, s, maxConcurrent).db.attempts[a] == w.db.attempts[a])
  {}

  lemma AttemptStepsActivateClaimed(w: World, s: Step, maxConcurrent: nat, a: AttemptId)
    requires IsAttemptStep(s) && Enabled(w, s, maxConcurrent) && a in Write(w, s, maxConcurrent).db.attempts
    requires IsActive(Write(w, s, maxConcurrent).db.attempts[a].status)
    ensures a in w.db.attempts && (IsActive(w.db.attempts[a].status) || (s.DoClaim? && s.claimed == a))
  {
    if IsMoveStep(s) {
      MoveStepsActivateNone(w, s, maxConcurrent, a);
    } else {
      RelabelStepsActivateClaimed(w, s, maxConcurrent, a);
    }
  }

  lemma MoveStepsActivateNone(w: World, s: Step, maxConcurrent: nat, a: AttemptId)
    requires IsMoveStep(s) && Enabled(w, s, maxConcurrent) && a in Write(w, s, maxConcurrent).db.attempts
    requires IsActive(Write(w, s, maxConcurrent).db.attempts[a].status)
    ensures a in w.db.attempts && IsActive(w.db.attempts[a].status)
  {
    match s
    case DoMarkDeveloping(b, worker) => MovesActivateNone(w.db, b, Developing, Worker, Running, a);
    case DoSucceed(b, worker) => SuccessActivatesNone(w.db, b, worker, a);
    case DoFail(b, worker, blocks) => FailureActivatesNone(w.db, b, worker, blocks, a);
    case DoCancelQueued(b) => MovesActivateNone(w.db, b, DevelopmentCancelled, Human, Cancelled, a);
    case DoReconcile(b, _) => MovesActivateNone(w.db, b, DevelopmentInterrupted, Reconciliation, Interrupted, a);
    case _ =>
  }

  lemma MovesActivateNone(db: Db, b: AttemptId, to: FeatureState, owner: TransitionOwner, s: AttemptStatus,
        a: AttemptId)
    ensures b in db.attempts && (IsActive(s) ==> IsActive(db.attempts[b].status)) ==>
      var after := MoveAndSet(db, b, to, owner, s).db.attempts;
      a in after && IsActive(after[a].status) ==> a in db.attempts && IsActive(db.attempts[a].status)
  {}

  lemma SuccessActivatesNone(db: Db, b: AttemptId, w: WorkerId, a: AttemptId)
    requires a in PersistSuccess(db, b, w).db.attempts && IsActive(PersistSuccess(db, b, w).db.attempts[a].status)
    ensures a in db.attempts && IsActive(db.attempts[a].status)
  {}

  lemma FailureActivatesNone(db: Db, b: AttemptId, w: WorkerId, blocks: bool, a: AttemptId)
    requires a in PersistFailure(db, b, w, blocks).db.attempts
    requires IsActive(PersistFailure(db, b, w, blocks).db.attempts[a].status)
    ensures a in db.attempts && IsActive(db.attempts[a].status)
  {}

  lemma RelabelStepsActivateClaimed(w: World, s: Step, maxConcurrent: nat, a: AttemptId)
    requires (IsRelabelStep(s) || s.DoClaim?) && Enabled(w, s, maxConcurrent)
    requires a in Write(w, s, maxConcurrent).db.attempts && IsActive(Write(w, s, maxConcurrent).db.attempts[a].status)
    ensures a in w.db.attempts && (IsActive(w.db.attempts[a].status) || (s.DoClaim? && s.claimed == a))
  {}

  ghost predicate OnePerProject(db: Db) {
    forall a, b ::
      a in ActiveAttempts(db) && b in ActiveAttempts(db) && db.attempts[a].project == db.attempts[b].project ==> a == b
  }

  /** At most one attempt of a project is active, and at most `maxConcurrent` are in all. */
  lemma {:induction false} ActiveAttemptsAreBounded(worlds: seq<World>, steps: seq<Step>, maxConcurrent: nat, i: nat)
    requires IsRun(worlds, steps, maxConcurrent) && i < |worlds|
    ensures OnePerProject(worlds[i].db) && |ActiveAttempts(worlds[i].db)| <= maxConcurrent
  {
    if i == 0 {
      assert ActiveAttempts(worlds[0].db) == {};
    } else {
      ActiveAttemptsAreBounded(worlds, steps, maxConcurrent, i - 1);
      EveryStepMovesOn(worlds, steps, maxConcurrent, i - 1);
      BoundKept(worlds[i - 1], steps[i - 1], maxConcurrent);
    }
  }

  lemma BoundKept(w: World, s: Step, maxConcurrent: nat)
    requires Inv(w) && Enabled(w, s, maxConcurrent)
    requires OnePerProject(w.db) && |ActiveAttempts(w.db)| <= maxConcurrent
    ensures var after := Next(w, s, maxConcurrent).db; OnePerProject(after) && |ActiveAttempts(after)| <= maxConcurrent
  {
    var after := Next(w, s, maxConcurrent).db;
    forall a | a in ActiveAttempts(after)
      ensures IsFromOrClaimed(w.db, after, a, if s.DoClaim? then {s.claimed} else {})
    {
      ActiveIsFromOrClaimed(w, s, maxConcurrent, a);
    }
    BoundFollows(w.db, after, if s.DoClaim? then {s.claimed} else {}, maxConcurrent);
  }

  /** An attempt that is active after a step was so before, or has just been claimed. */
  ghost predicate IsFromOrClaimed(db: Db, after: Db, a: AttemptId, claimed: set<AttemptId>) {
    && a in ActiveAttempts(db) + claimed
    && a in db.attempts && a in after.attempts && after.attempts[a].project == db.attempts[a].project
  }

  lemma ActiveIsFromOrClaimed(w: World, s: Step, maxConcurrent: nat, a: AttemptId)
    requires Inv(w) && Enabled(w, s, maxConcurrent) && a in ActiveAttempts(Next(w, s, maxConcurrent).db)
    ensures IsFromOrClaimed(w.db, Next(w, s, maxConcurrent).db, a, if s.DoClaim? then {s.claimed} else {})
  {
    StepMovesOn(w, s, maxConcurrent);
    OnlyClaimsActivate(w, s, maxConcurrent, a);
    assert AttemptMoves(w.db.attempts[a], Next(w, s, maxConcurrent).db.attempts[a]);
  }

  lemma BoundFollows(db: Db, after: Db, claimed: set<AttemptId>, maxConcurrent: nat)
    requires OnePerProject(db) && |ActiveAttempts(db)| <= maxConcurrent
    requires claimed == {} || exists c :: claimed == {c} && IsEligible(db, c) && |ActiveAttempts(db)| < maxConcurrent
    requires forall a :: a in ActiveAttempts(after) ==> IsFromOrClaimed(db, after, a, claimed)
    ensures OnePerProject(after) && |ActiveAttempts(after)| <= maxConcurrent
  {
    SubsetIsSmaller(ActiveAttempts(after), ActiveAttempts(db) + claimed);
    forall a, b | a in ActiveAttempts(after) && b in ActiveAttempts(after)
      && after.attempts[a].project == after.attempts[b].project
      ensures a == b
    {
      assert IsFromOrClaimed(db, after, a, claimed) && IsFromOrClaimed(db, after, b, claimed);
    }
  }

  /**
   * A claim takes a queued attempt. It passes over one that was queued earlier, or
   * at the same time with a lower id, only if another attempt of that one's
   * project is RUNNING or CANCEL_REQUESTED.
   */
  lemma ClaimsAreFifo(w: World, s: Step, maxConcurrent: nat, b: AttemptId)
    requires s.DoClaim? && Enabled(w, s, maxConcurrent) && b in w.db.attempts
    ensures s.claimed in w.db.attempts && w.db.attempts[s.claimed].status == AttemptQueued
    ensures var t, u := w.db.attempts[s.claimed], w.db.attempts[b];
      && u.status == AttemptQueued
      && (u.enqueuedAt < t.enqueuedAt || (u.enqueuedAt == t.enqueuedAt && b < s.claimed))
      ==> exists c :: c in w.db.attempts && w.db.attempts[c].project == u.project
                      && (w.db.attempts[c].status == Running || w.db.attempts[c].status == CancelRequested)
  {
    assert IsEligible(w.db, b) || w.db.attempts[b].status != AttemptQueued
      || ProjectIsBusy(w.db, w.db.attempts[b].project);
  }

  // ---------------------------------------------------------------------
  // Repeated requests
  // ---------------------------------------------------------------------

  lemma StepKeepsRecord(worlds: seq<World>, steps: seq<Step>, maxConcurrent: nat, k: nat, key: OperationKey)
    requires IsRun(worlds, steps, maxConcurrent) && k < |steps| && key in worlds[k].db.records
    ensures key in worlds[k + 1].db.records && worlds[k + 1].db.records[key] == worlds[k].db.records[key]
  {
    RowsMoveOn(worlds, steps, maxConcurrent, k);
  }

  /** Idempotency records are permanent. */
  lemma {:induction false} RecordsStay(worlds: seq<World>, steps: seq<Step>, maxConcurrent: nat, i: nat, j: nat,
        key: OperationKey)
    requires IsRun(worlds, steps, maxConcurrent) && i <= j < |worlds| && key in worlds[i].db.records
    ensures key in worlds[j].db.records && worlds[j].db.records[key] == worlds[i].db.records[key]
    decreases j
  {
    if i < j {
      RecordsStay(worlds, steps, maxConcurrent, i, j - 1, key);
      StepKeepsRecord(worlds, steps, maxConcurrent, j - 1, key);
    }
  }

  /**
   * Once an approval has queued an attempt, approving again under the same key
   * returns that attempt and changes nothing, at any later time and whatever
   * became of the attempt. The feature named in the repeated request is not
   * compared: the attempt is its own if and only if it is the feature approved.
   */
  lemma ApprovalsReplay(worlds: seq<World>, steps: seq<Step>, maxConcurrent: nat, i: nat, j: nat, again: ApproveRequest)
    requires IsRun(worlds, steps, maxConcurrent) && i < j < |worlds| && steps[i].DoApprove?
    requires Write(worlds[i], steps[i], maxConcurrent).outcome == Done && again.key == steps[i].approve.key
    requires var db := worlds[j].db;
      && again.approval !in db.approvals && again.attempt !in db.attempts && again.feature in db.features
      && (again.project.Some? ==> again.project.value == db.features[again.feature].project)
    ensures var db, first := worlds[j].db, steps[i].approve;
      && ApproveAndQueue(db, again) == Effect(db, Replayed(Some(first.attempt)))
      && first.attempt in db.attempts
      && (db.attempts[first.attempt].feature == again.feature <==> again.feature == first.feature)
  {
    var first := steps[i].approve;
    ApprovalIsRecorded(worlds, steps, maxConcurrent, i);
    RecordsStay(worlds, steps, maxConcurrent, i + 1, j, first.key);
    AttemptsStay(worlds, steps, maxConcurrent, i + 1, j, first.attempt);
  }

  lemma ApprovalIsRecorded(worlds: seq<World>, steps: seq<Step>, maxConcurrent: nat, i: nat)
    requires IsRun(worlds, steps, maxConcurrent) && i < |steps| && steps[i].DoApprove?
    requires Write(worlds[i], steps[i], maxConcurrent).outcome == Done
    ensures var db, r := worlds[i + 1].db, steps[i].approve;
      && r.key in db.records && db.records[r.key].body == ApproveResult(r.approval, r.attempt)
      && r.attempt in db.attempts && db.attempts[r.attempt].feature == r.feature
  {
    EveryStepMovesOn(worlds, steps, maxConcurrent, i);
  }

  lemma {:induction false} AttemptsStay(worlds: seq<World>, steps: seq<Step>, maxConcurrent: nat, i: nat, j: nat,
        a: AttemptId)
    requires IsRun(worlds, steps, maxConcurrent) && i <= j < |worlds| && a in worlds[i].db.attempts
    ensures a in worlds[j].db.attempts && SameReferences(worlds[i].db.attempts[a], worlds[j].db.attempts[a])
    decreases j
  {
    if i < j {
      AttemptsStay(worlds, steps, maxConcurrent, i, j - 1, a);
      RowsMoveOn(worlds, steps, maxConcurrent, j - 1);
      assert AttemptMoves(worlds[j - 1].db.attempts[a], worlds[j].db.attempts[a]);
    }
  }

  lemma RetryIsRecorded(worlds: seq<World>, steps: seq<Step>, maxConcurrent: nat, i: nat)
    requires IsRun(worlds, steps, maxConcurrent) && i < |steps| && steps[i].DoRetry?
    requires Write(worlds[i], steps[i], maxConcurrent).outcome == Done
    ensures var db, r := worlds[i + 1].db, steps[i].retry;
      && r.key in db.records && db.records[r.key] == Record(r.project, Some(r.feature), Some(r.attempt), RetryResult)
      && r.attempt in db.attempts
  {
    EveryStepMovesOn(worlds, steps, maxConcurrent, i);
    RetryRecords(worlds[i].db, steps[i].retry, steps[i].latest, steps[i].alive);
  }

  lemma RetryRecords(db: Db, r: RetryRequest, latest: Option<AttemptId>, alive: bool)
    requires r.attempt !in db.attempts && (latest.Some? ==> latest.value in db.attempts)
    requires Retry(db, r, latest, alive).outcome == Done
    ensures var after := Retry(db, r, latest, alive).db;
      && r.key in after.records && r.attempt in after.attempts
      && after.records[r.key] == Record(r.project, Some(r.feature), Some(r.attempt), RetryResult)
  {}

  /** What a retry under a used key answers: the recorded attempt, or a refusal for any other feature or project. */
  function RetryReplay(record: Record, again: RetryRequest): Outcome {
    if Some(again.feature) == record.feature && again.project == record.project
    then Replayed(record.attempt) else Refused(KeyReused)
  }

  lemma RecordedRetryReplays(worlds: seq<World>, steps: seq<Step>, maxConcurrent: nat, i: nat, j: nat,
        again: RetryRequest, latest: Option<AttemptId>, alive: bool)
    requires IsRun(worlds, steps, maxConcurrent) && i <= j < |worlds| && again.key in worlds[i].db.records
    requires var record := worlds[i].db.records[again.key];
      record.attempt.Some? && record.attempt.value in worlds[i].db.attempts
    requires again.attempt !in worlds[j].db.attempts && (latest.Some? ==> latest.value in worlds[j].db.attempts)
    ensures Retry(worlds[j].db, again, latest, alive) ==
            Effect(worlds[j].db, RetryReplay(worlds[i].db.records[again.key], again))
  {
    RecordsStay(worlds, steps, maxConcurrent, i, j, again.key);
    AttemptsStay(worlds, steps, maxConcurrent, i, j, worlds[i].db.records[again.key].attempt.value);
  }

  /** Retrying again under the same key returns the same attempt, and is refused for any other feature or project. */
  lemma RetriesReplay(worlds: seq<World>, steps: seq<Step>, maxConcurrent: nat, i: nat, j: nat,
        again: RetryRequest, latest: Option<AttemptId>, alive: bool)
    requires IsRun(worlds, steps, maxConcurrent) && i < j < |worlds| && steps[i].DoRetry?
    requires Write(worlds[i], steps[i], maxConcurrent).outcome == Done && again.key == steps[i].retry.key
    requires again.attempt !in worlds[j].db.attempts && (latest.Some? ==> latest.value in worlds[j].db.attempts)
    ensures var db, first := worlds[j].db, steps[i].retry;
      Retry(db, again, latest, alive) ==
      Effect(db, if again.feature == first.feature && again.project == first.project then Replayed(Some(first.attempt))
                 else Refused(KeyReused))
  {
    RetryIsRecorded(worlds, steps, maxConcurrent, i);
    RecordedRetryReplays(worlds, steps, maxConcurrent, i + 1, j, again, latest, alive);
  }

  /**
   * The cancel route stores its result for the attempt it cancelled. A retry
   * that reuses the key of a cancellation of the same feature queues nothing: it
   * returns the attempt that was cancelled.
   */
  lemma RetryUnderCancelKeyReplays(worlds: seq<World>, steps: seq<Step>, maxConcurrent: nat, i: nat, j: nat,
        again: RetryRequest, latest: Option<AttemptId>, alive: bool)
    requires IsRun(worlds, steps, maxConcurrent) && i < j < |worlds| && steps[i].DoStoreResult?
    requires steps[i].onFeature.Some? && steps[i].onAttempt.Some? && steps[i].onAttempt.value in worlds[i].db.attempts
    requires Write(worlds[i], steps[i], maxConcurrent).outcome == Done && again.key == steps[i].key
    requires again.attempt !in worlds[j].db.attempts && (latest.Some? ==> latest.value in worlds[j].db.attempts)
    ensures var db, stored := worlds[j].db, steps[i];
      Retry(db, again, latest, alive) ==
      Effect(db, if Some(again.feature) == stored.onFeature && again.project == stored.project
                 then Replayed(stored.onAttempt) else Refused(KeyReused))
  {
    EveryStepMovesOn(worlds, steps, maxConcurrent, i);
    RecordedRetryReplays(worlds, steps, maxConcurrent, i + 1, j, again, latest, alive);
  }
}
