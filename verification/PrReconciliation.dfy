// Polling of open pull requests: apps/worker/src/github/pr-reconciliation-worker.ts
// and the store behind it.
module PrReconciliation {
  import opened Wrappers
  import opened FeatureStateMachine

  type FeatureId = nat
  type RowId = nat
  type Time = int

  datatype Lifecycle = PrOpen | PrClosed | PrMerged
  datatype Checks = ChecksPending | ChecksPassing | ChecksFailing | NoChecks
  datatype Review = Approved | ChangesRequested | ReviewRequired | NoReview
  datatype Status = Status(lifecycle: Lifecycle, head: string, checks: Checks, review: Review)

  datatype Observation = Observation(lifecycle: Lifecycle, head: string, at: Time)
  datatype Feature = Feature(state: FeatureState, version: nat)
  datatype PrRow = PrRow(feature: FeatureId, observed: Option<Observation>)
  datatype Db = Db(features: map<FeatureId, Feature>, prs: map<RowId, PrRow>)

  // What listing the open pull requests remembers of one of them.
  datatype View = View(feature: FeatureId, state: FeatureState, lastObserved: Option<Time>)

  function Resolve(status: Status): FeatureState {
    if status.lifecycle == PrMerged then DevelopmentMerged
    else if status.lifecycle == PrClosed then Blocked
    else if status.checks == ChecksPending then CiRunning
    else if status.checks == ChecksFailing then CiFailed
    else if status.review == ChangesRequested then PrChangesRequested
    else PrReview
  }

  predicate IsReconcilable(state: FeatureState) { IsPullRequestState(state) && state != DevelopmentMerged }

  // ---------------------------------------------------------------------
  // The observation of a row
  // ---------------------------------------------------------------------

  /** The guarded update: an observation replaces an older one. */
  function Offer(stored: Option<Observation>, o: Observation): Option<Observation> {
    if stored.None? || stored.value.at < o.at then Some(o) else stored
  }

  function OfferAll(offers: seq<Observation>): Option<Observation> {
    if offers == [] then None else Offer(OfferAll(offers[..|offers| - 1]), offers[|offers| - 1])
  }

  /** `i` is the newest of the offers, and the first of those as new. */
  predicate IsNewest(offers: seq<Observation>, i: nat) {
    && i < |offers|
    && (forall j :: 0 <= j < |offers| ==> offers[j].at <= offers[i].at)
    && (forall j :: 0 <= j < i ==> offers[j].at < offers[i].at)
  }

  lemma {:induction false} NewestWins(offers: seq<Observation>) returns (i: nat)
    requires offers != []
    ensures IsNewest(offers, i) && OfferAll(offers) == Some(offers[i])
  {
    var init := offers[..|offers| - 1];
    if init == [] {
      i := 0;
    } else {
      i := NewestWins(init);
      assert forall j :: 0 <= j < |init| ==> offers[j] == init[j];
      if offers[i].at < offers[|offers| - 1].at { i := |offers| - 1; }
    }
  }

  /** With distinct timestamps the stored observation does not depend on the order of arrival. */
  lemma ArrivalOrderIsIrrelevant(offers: seq<Observation>, permuted: seq<Observation>)
    requires forall o :: o in offers <==> o in permuted
    requires forall i, j :: 0 <= i < |offers| && 0 <= j < |offers| && offers[i].at == offers[j].at ==>
      offers[i] == offers[j]
    ensures OfferAll(offers) == OfferAll(permuted)
  {
    assert permuted == [] || permuted[0] in offers;
    if offers != [] {
      assert offers[0] in permuted;
      var i := NewestWins(offers);
      var j := NewestWins(permuted);
      assert offers[i] in permuted && permuted[j] in offers;
    }
  }

  /** UPDATE pull_requests for one feature: all its rows are offered the observation. */
  function Observe(db: Db, f: FeatureId, o: Observation): Db {
    db.(prs := map r | r in db.prs ::
      if db.prs[r].feature == f then db.prs[r].(observed := Offer(db.prs[r].observed, o)) else db.prs[r])
  }

  function ObserveAll(db: Db, offers: seq<(FeatureId, Observation)>): Db {
    if offers == [] then db
    else Observe(ObserveAll(db, offers[..|offers| - 1]), offers[|offers| - 1].0, offers[|offers| - 1].1)
  }

  function OffersTo(offers: seq<(FeatureId, Observation)>, f: FeatureId): seq<Observation> {
    if offers == [] then []
    else
      var last := offers[|offers| - 1];
      OffersTo(offers[..|offers| - 1], f) + if last.0 == f then [last.1] else []
  }

  /** After any offers to any features, a row that started unobserved holds what was offered to its own feature. */
  lemma {:induction false} RowHoldsItsOffers(db: Db, offers: seq<(FeatureId, Observation)>, r: RowId)
    requires r in db.prs && db.prs[r].observed.None?
    ensures var after := ObserveAll(db, offers);
      && r in after.prs && after.prs[r].feature == db.prs[r].feature
      && after.prs[r].observed == OfferAll(OffersTo(offers, db.prs[r].feature))
  {
    if offers != [] {
      var init, last := offers[..|offers| - 1], offers[|offers| - 1];
      RowHoldsItsOffers(db, init, r);
      var mine := OffersTo(init, db.prs[r].feature);
      assert (mine + [last.1])[..|mine|] == mine;
      assert mine + [] == mine;
    }
  }

  // ---------------------------------------------------------------------
  // One poll
  // ---------------------------------------------------------------------

  predicate IsListed(db: Db, r: RowId) {
    && r in db.prs && db.prs[r].feature in db.features
    && !(db.prs[r].observed.Some? && db.prs[r].observed.value.lifecycle == PrMerged)
    && db.features[db.prs[r].feature].state != DevelopmentMerged
    && db.features[db.prs[r].feature].state != Blocked
  }

  function ViewOf(db: Db, r: RowId): View
    requires IsListed(db, r)
  {
    var row := db.prs[r];
    View(row.feature, db.features[row.feature].state, if row.observed.Some? then Some(row.observed.value.at) else None)
  }

  function OwnerFor(target: FeatureState): TransitionOwner { if target == Blocked then Guard else Poller }

  /** transitionFeatureInStore, from the state the view remembers. */
  function MoveFrom(db: Db, view: View, target: FeatureState): Db {
    if view.feature !in db.features || target == view.state then db
    else
      var row := db.features[view.feature];
      if row.state == view.state && IsAllowed(row.state, target, OwnerFor(target))
      then db.(features := db.features[view.feature := Feature(target, row.version + 1)])
      else db
  }

  predicate IsStale(view: View, at: Time) { view.lastObserved.Some? && at <= view.lastObserved.value }

  /** One turn of the loop, for a view whose status was fetched. */
  function PollFrom(db: Db, view: View, status: Status, at: Time): Db {
    if !IsReconcilable(view.state) || IsStale(view, at) then db
    else MoveFrom(Observe(db, view.feature, Observation(status.lifecycle, status.head, at)), view, Resolve(status))
  }

  /** The resolved states that the table lets the poller reach. */
  predicate CanFollow(state: FeatureState, target: FeatureState) {
    || target == state || target == DevelopmentMerged || target == Blocked
    || (state == CiRunning && (target == CiFailed || target == PrReview))
    || (state == CiFailed && (target == CiRunning || target == PrReview))
    || (state == PrReview && target == PrChangesRequested)
    || (state == PrChangesRequested && (target == CiRunning || target == PrReview))
  }

  /** The row is listed, its feature is at its pull request, and nothing as new as `at` has been observed of it. */
  predicate IsDue(db: Db, r: RowId, at: Time) {
    && IsListed(db, r) && IsPullRequestState(db.features[db.prs[r].feature].state)
    && (db.prs[r].observed.Some? ==> db.prs[r].observed.value.at < at)
  }

  /**
   * A fresh poll leaves the feature in the resolved state exactly when the table
   * lets it follow, one version on if that is another state. It does not, for
   * instance, when checks fail under PR_REVIEW, when changes are requested under
   * CI_RUNNING, or while PR_CREATING.
   */
  lemma PollFollowsIff(db: Db, r: RowId, status: Status, at: Time)
    requires IsDue(db, r, at)
    ensures var f := db.prs[r].feature;
      var after := PollFrom(db, ViewOf(db, r), status, at);
      && f in after.features
      && (after.features[f].state != db.features[f].state ==>
            after.features[f].version == db.features[f].version + 1)
      && (after.features[f].state == Resolve(status) <==> CanFollow(db.features[f].state, Resolve(status)))
      && (after.features[f].state != Resolve(status) ==> after.features[f] == db.features[f])
      && (forall g :: g in db.features && g != f ==> g in after.features && after.features[g] == db.features[g])
      && r in after.prs
      && after.prs[r].observed == Some(Observation(status.lifecycle, status.head, at))
  {}

  /**
   * Exactly which fresh polls move a feature where: what GitHub says of the pull
   * request, its checks and its review, and the state the feature was in.
   */
  lemma PollMovesExactly(db: Db, r: RowId, status: Status, at: Time)
    requires IsDue(db, r, at)
    ensures var f := db.prs[r].feature;
      var s, after := db.features[f].state, PollFrom(db, ViewOf(db, r), status, at);
      && f in after.features
      && var t := after.features[f].state;
      var open, settled := status.lifecycle == PrOpen, status.checks == ChecksPassing || status.checks == NoChecks;
      && (t == DevelopmentMerged <==> status.lifecycle == PrMerged)
      && (t == Blocked <==> status.lifecycle == PrClosed)
      && (s != t == CiFailed <==> open && status.checks == ChecksFailing && s == CiRunning)
      && (s != t == CiRunning <==> open && status.checks == ChecksPending && (s == CiFailed || s == PrChangesRequested))
      && (s != t == PrChangesRequested <==> open && settled && status.review == ChangesRequested && s == PrReview)
      && (s != t == PrReview <==>
            && open && settled && status.review != ChangesRequested
            && (s == CiRunning || s == CiFailed || s == PrChangesRequested))
      && (t == PrCreating || t == PrCreationFailed ==> s == t)
  {
    PollFollowsIff(db, r, status, at);
  }

  // ---------------------------------------------------------------------
  // Runs in which polls are atomic
  // ---------------------------------------------------------------------

  datatype Step =
    | Store(r: RowId, f: FeatureId)
    | Poll(r: RowId, status: Status, at: Time)
    | Others(f: FeatureId, to: FeatureState, owner: TransitionOwner)

  /** The writers of feature states other than the poller. */
  predicate OthersMay(state: FeatureState, to: FeatureState, owner: TransitionOwner) {
    IsReattachJump(state, to) || (IsAllowed(state, to, owner) && owner != Poller)
  }

  function Next(db: Db, step: Step): Db {
    match step
    case Store(r, f) =>
      if r in db.prs || f !in db.features then db else db.(prs := db.prs[r := PrRow(f, None)])
    case Poll(r, status, at) => if IsListed(db, r) then PollFrom(db, ViewOf(db, r), status, at) else db
    case Others(f, to, owner) =>
      if f in db.features && OthersMay(db.features[f].state, to, owner)
      then db.(features := db.features[f := Feature(to, db.features[f].version + 1)])
      else db
  }

  function Run(start: Db, steps: seq<Step>): Db {
    if steps == [] then start else Next(Run(start, steps[..|steps| - 1]), steps[|steps| - 1])
  }

  predicate SeenMerged(db: Db, r: RowId) {
    r in db.prs && db.prs[r].observed.Some? && db.prs[r].observed.value.lifecycle == PrMerged
  }

  predicate IsMerged(db: Db, f: FeatureId) { f in db.features && db.features[f].state == DevelopmentMerged }

  ghost predicate Inv(db: Db) {
    forall r :: r in db.prs ==>
      db.prs[r].feature in db.features && (SeenMerged(db, r) ==> IsMerged(db, db.prs[r].feature))
  }

  lemma StepKeepsInv(db: Db, step: Step)
    requires Inv(db)
    ensures Inv(Next(db, step))
  {
    var after := Next(db, step);
    forall r | r in after.prs
      ensures after.prs[r].feature in after.features && (SeenMerged(after, r) ==> IsMerged(after, after.prs[r].feature))
    {
      if r in db.prs { assert SeenMerged(db, r) ==> IsMerged(db, db.prs[r].feature); }
    }
  }

  lemma {:induction false} EveryRunKeepsInv(start: Db, steps: seq<Step>)
    requires start.prs == map[]
    ensures Inv(Run(start, steps))
  {
    if steps != [] {
      EveryRunKeepsInv(start, steps[..|steps| - 1]);
      StepKeepsInv(Run(start, steps[..|steps| - 1]), steps[|steps| - 1]);
    }
  }

  /**
   * With atomic polls, a row observed merged belongs to a merged feature, so the
   * filter on merged rows drops nothing that the filter on features would keep.
   */
  lemma MergedRowsAreDone(start: Db, steps: seq<Step>, r: RowId)
    requires start.prs == map[] && r in Run(start, steps).prs
    ensures var db := Run(start, steps);
      var f := db.prs[r].feature;
      && (SeenMerged(db, r) ==> IsMerged(db, f))
      && f in db.features
      && (IsListed(db, r) <==> db.features[f].state != DevelopmentMerged && db.features[f].state != Blocked)
  {
    EveryRunKeepsInv(start, steps);
  }

  // ---------------------------------------------------------------------
  // Polls from a list that has aged
  // ---------------------------------------------------------------------

  /**
   * The list, the observation and the transition are separate reads and writes.
   * When a merge has been observed, the feature ends up merged if and only if
   * its state at the transition is still the listed one, or merged already.
   */
  lemma MergeIsKeptIffUnmoved(db: Db, view: View)
    requires view.feature in db.features && IsReconcilable(view.state)
    ensures IsMerged(MoveFrom(db, view, DevelopmentMerged), view.feature) <==>
            db.features[view.feature].state == view.state || IsMerged(db, view.feature)
  {}

  ghost predicate IsLost(db: Db, f: FeatureId) {
    f in db.features && !IsMerged(db, f) && forall r :: r in db.prs && db.prs[r].feature == f ==> SeenMerged(db, r)
  }

  /** Once the merge is lost, no later polls and no other writer make the feature merged. */
  lemma {:induction false} LostMergeStaysLost(db: Db, f: FeatureId, steps: seq<Step>)
    requires IsLost(db, f)
    requires forall i :: 0 <= i < |steps| && steps[i].Store? ==> steps[i].f != f
    ensures IsLost(Run(db, steps), f)
  {
    if steps != [] {
      var init := steps[..|steps| - 1];
      LostMergeStaysLost(db, f, init);
      LostStep(Run(db, init), f, steps[|steps| - 1]);
    }
  }

  lemma LostStep(db: Db, f: FeatureId, step: Step)
    requires IsLost(db, f) && (step.Store? ==> step.f != f)
    ensures IsLost(Next(db, step), f)
  {
    var after := Next(db, step);
    forall r | r in after.prs && after.prs[r].feature == f ensures SeenMerged(after, r) {
      assert r in db.prs && SeenMerged(db, r);
    }
  }

  /** A retry of PR creation between the list and the poll of a merged pull request loses the merge. */
  lemma RetryLosesMerge(db: Db, r: RowId, f: FeatureId, head: string, at: Time)
    requires IsListed(db, r) && db.prs == map[r := PrRow(f, None)] && db.features[f].state == PrCreationFailed
    ensures var moved := Next(db, Others(f, PrCreating, Human));
      && moved.features[f].state == PrCreating
      && IsLost(PollFrom(moved, ViewOf(db, r), Status(PrMerged, head, ChecksPassing, Approved), at), f)
  {
    var moved := Next(db, Others(f, PrCreating, Human));
    var after := PollFrom(moved, ViewOf(db, r), Status(PrMerged, head, ChecksPassing, Approved), at);
    assert after.prs[r].observed == Some(Observation(PrMerged, head, at));
  }

  // ---------------------------------------------------------------------
  // A whole pass
  // ---------------------------------------------------------------------

  // What happened at one view: backed off, the fetch failed, a status came back, or
  // one came back and was observed and the catch block was entered before the
  // transition was stored. Entered after that, it makes no difference to the rows.
  datatype Answer =
    | BackedOff
    | FetchFailed
    | Fetched(status: Status, at: Time)
    | OnlyObserved(status: Status, at: Time)

  function Turn(db: Db, view: View, answer: Answer): Db {
    match answer
    case BackedOff | FetchFailed => db
    case Fetched(status, at) => PollFrom(db, view, status, at)
    case OnlyObserved(status, at) => ObserveFrom(db, view, status, at)
  }

  function ObserveFrom(db: Db, view: View, status: Status, at: Time): Db {
    if !IsReconcilable(view.state) || IsStale(view, at) then db
    else Observe(db, view.feature, Observation(status.lifecycle, status.head, at))
  }

  /** A throw between observing a merge and storing the transition loses the merge, if no newer observation is there. */
  lemma ThrowLosesMerge(db: Db, r: RowId, status: Status, at: Time)
    requires IsListed(db, r) && IsReconcilable(ViewOf(db, r).state) && status.lifecycle == PrMerged
    requires forall q :: q in db.prs && db.prs[q].feature == db.prs[r].feature && db.prs[q].observed.Some? ==>
      db.prs[q].observed.value.at < at
    ensures IsLost(Turn(db, ViewOf(db, r), OnlyObserved(status, at)), db.prs[r].feature)
  {
    var f, after := db.prs[r].feature, Turn(db, ViewOf(db, r), OnlyObserved(status, at));
    forall q | q in after.prs && after.prs[q].feature == f ensures SeenMerged(after, q) {
      assert q in db.prs && db.prs[q].feature == f;
    }
  }

  function Pass(db: Db, views: seq<View>, answers: seq<Answer>): Db
    requires |views| == |answers|
  {
    if views == [] then db
    else Turn(Pass(db, views[..|views| - 1], answers[..|views| - 1]), views[|views| - 1], answers[|views| - 1])
  }

  /** The views a pass counts: everything of a reconcilable feature that is not backing off, errors included. */
  predicate IsPolled(view: View, answer: Answer) { IsReconcilable(view.state) && answer != BackedOff }

  function CountPolled(views: seq<View>, answers: seq<Answer>): (n: nat)
    requires |views| == |answers|
    ensures n <= |views|
    ensures n == |views| <==> forall i :: 0 <= i < |views| ==> IsPolled(views[i], answers[i])
  {
    if views == [] then 0
    else
      var last := |views| - 1;
      CountPolled(views[..last], answers[..last]) + if IsPolled(views[last], answers[last]) then 1 else 0
  }

  /** The count is that of the features at their pull requests that are not backing off. */
  lemma {:induction false} CountIsExact(views: seq<View>, answers: seq<Answer>)
    requires |views| == |answers|
    ensures CountPolled(views, answers) == |Polled(views, answers)|
  {
    if views != [] {
      var last := |views| - 1;
      CountIsExact(views[..last], answers[..last]);
      var before, after := Polled(views[..last], answers[..last]), Polled(views, answers);
      assert forall i :: i in after <==> i in before || (i == last && IsPolled(views[last], answers[last]));
      assert after == before || after == before + {last};
    }
  }

  function Polled(views: seq<View>, answers: seq<Answer>): set<nat>
    requires |views| == |answers|
  {
    set i: nat | i < |views| && IsPullRequestState(views[i].state) && views[i].state != DevelopmentMerged
                 && !answers[i].BackedOff?
  }

  /**
   * A turn changes nothing unless its feature is at its pull request and a status
   * came back that is newer than what was known when the list was made.
   */
  lemma OnlyNewsMatters(db: Db, view: View, answer: Answer)
    ensures Turn(db, view, answer) != db ==>
      && IsPullRequestState(view.state) && view.state != DevelopmentMerged
      && (answer.Fetched? || answer.OnlyObserved?)
      && (view.lastObserved.Some? ==> view.lastObserved.value < answer.at)
  {}

  class Poller {
    var features: map<FeatureId, Feature>
    var prs: map<RowId, PrRow>

    function Stored(): Db
      reads this
    {
      Db(features, prs)
    }

    method UpdatePrObservation(f: FeatureId, o: Observation)
      modifies this`prs
      ensures Stored() == Observe(old(Stored()), f, o)
    {
      var left := prs.Keys;
      ghost var before := prs;
      while left != {}
        invariant left <= before.Keys && prs.Keys == before.Keys
        invariant forall r :: r in left ==> prs[r] == before[r]
        invariant forall r :: r in before && r !in left ==> prs[r] == Observe(old(Stored()), f, o).prs[r]
        decreases |left|
      {
        var r :| r in left;
        var row := prs[r];
        if row.feature == f && (row.observed.None? || row.observed.value.at < o.at) {
          prs := prs[r := row.(observed := Some(o))];
        }
        left := left - {r};
      }
      assert prs == Observe(old(Stored()), f, o).prs;
    }

    method TransitionFeature(view: View, target: FeatureState)
      modifies this`features
      ensures Stored() == (if target == view.state then old(Stored()) else MoveFrom(old(Stored()), view, target))
    {
      if view.feature in features && target != view.state {
        var row := features[view.feature];
        if row.state == view.state && IsAllowed(row.state, target, OwnerFor(target)) {
          features := features[view.feature := Feature(target, row.version + 1)];
        }
      }
    }

    /** One pass over the listed pull requests, with nobody else writing. */
    method PollAll(views: seq<View>, answers: seq<Answer>) returns (polled: nat)
      requires |views| == |answers|
      modifies this
      ensures Stored() == Pass(old(Stored()), views, answers)
      ensures polled == |Polled(views, answers)|
    {
      CountIsExact(views, answers);
      polled := 0;
      for i := 0 to |views|
        invariant Stored() == Pass(old(Stored()), views[..i], answers[..i])
        invariant polled == CountPolled(views[..i], answers[..i])
      {
        assert views[..i + 1][..i] == views[..i] && answers[..i + 1][..i] == answers[..i];
        if !IsReconcilable(views[i].state) || answers[i] == BackedOff { continue; }
        if answers[i] != FetchFailed && !IsStale(views[i], answers[i].at) {
          var status := answers[i].status;
          UpdatePrObservation(views[i].feature, Observation(status.lifecycle, status.head, answers[i].at));
          if answers[i].Fetched? { TransitionFeature(views[i], Resolve(status)); }
        }
        polled := polled + 1;
      }
      assert views[..|views|] == views && answers[..|answers|] == answers;
    }
  }

  /** The views are what listing `rows` of `db` shows, each of another feature. */
  ghost predicate AreViews(db: Db, rows: seq<RowId>, views: seq<View>) {
    && |rows| == |views|
    && (forall i :: 0 <= i < |rows| ==> IsListed(db, rows[i]) && views[i] == ViewOf(db, rows[i]))
    && (forall i, j :: 0 <= i < j < |rows| ==> views[i].feature != views[j].feature)
  }

  /** A pass over an unaged list polls each feature as if it alone were polled. */
  lemma {:induction false} PassIsPollByPoll(db: Db, rows: seq<RowId>, views: seq<View>, answers: seq<Answer>, i: nat)
    requires AreViews(db, rows, views) && |answers| == |views| && i < |views|
    ensures var f := views[i].feature;
      var after, alone := Pass(db, views, answers), Turn(db, views[i], answers[i]);
      && f in after.features && f in alone.features && after.features[f] == alone.features[f]
      && rows[i] in after.prs && rows[i] in alone.prs && after.prs[rows[i]] == alone.prs[rows[i]]
    decreases |views|
  {
    var last := |views| - 1;
    var f, r := views[i].feature, rows[i];
    assert IsListed(db, r) && db.prs[r].feature == f;
    if i < last {
      assert AreViews(db, rows[..last], views[..last]);
      PassIsPollByPoll(db, rows[..last], views[..last], answers[..last], i);
      TurnElsewhere(Pass(db, views[..last], answers[..last]), views[last], answers[last], f, r);
    } else {
      UntouchedByPass(db, views[..last], answers[..last], f, r);
      SameTurn(db, Pass(db, views[..last], answers[..last]), views[i], answers[i], r);
    }
  }

  lemma TurnElsewhere(db: Db, view: View, answer: Answer, f: FeatureId, r: RowId)
    requires view.feature != f && f in db.features && r in db.prs && db.prs[r].feature == f
    ensures var after := Turn(db, view, answer);
      && f in after.features && after.features[f] == db.features[f]
      && r in after.prs && after.prs[r] == db.prs[r]
  {}

  lemma {:induction false} UntouchedByPass(db: Db, views: seq<View>, answers: seq<Answer>, f: FeatureId, r: RowId)
    requires |answers| == |views| && f in db.features && r in db.prs && db.prs[r].feature == f
    requires forall i :: 0 <= i < |views| ==> views[i].feature != f
    ensures var after := Pass(db, views, answers);
      && f in after.features && after.features[f] == db.features[f]
      && r in after.prs && after.prs[r] == db.prs[r]
  {
    if views != [] {
      var last := |views| - 1;
      UntouchedByPass(db, views[..last], answers[..last], f, r);
      TurnElsewhere(Pass(db, views[..last], answers[..last]), views[last], answers[last], f, r);
    }
  }

  /** A turn reads and writes only its own feature and rows. */
  lemma SameTurn(db: Db, other: Db, view: View, answer: Answer, r: RowId)
    requires r in db.prs && db.prs[r].feature == view.feature && view.feature in db.features
    requires r in other.prs && other.prs[r] == db.prs[r]
    requires view.feature in other.features && other.features[view.feature] == db.features[view.feature]
    ensures var a, b := Turn(db, view, answer), Turn(other, view, answer);
      && r in a.prs && r in b.prs && a.prs[r] == b.prs[r]
      && view.feature in a.features && view.feature in b.features
      && a.features[view.feature] == b.features[view.feature]
  {}

  // ---------------------------------------------------------------------
  // Observation times
  // ---------------------------------------------------------------------

  // A step of a run with atomic polls, or a turn of the loop at any view, however
  // old, with any answer.
  datatype AnyStep = Atomic(step: Step) | Turned(view: View, answer: Answer)

  function NextOfAny(db: Db, step: AnyStep): Db {
    match step
    case Atomic(s) => Next(db, s)
    case Turned(view, answer) => Turn(db, view, answer)
  }

  function RunOfAny(start: Db, steps: seq<AnyStep>): Db {
    if steps == [] then start else NextOfAny(RunOfAny(start, steps[..|steps| - 1]), steps[|steps| - 1])
  }

  /** A row that has an observation keeps one that is as new. */
  predicate KeepsTime(db: Db, after: Db, r: RowId) {
    r in db.prs && db.prs[r].observed.Some? ==>
      && r in after.prs && after.prs[r].observed.Some?
      && db.prs[r].observed.value.at <= after.prs[r].observed.value.at
  }

  lemma StepKeepsTime(db: Db, step: AnyStep, r: RowId)
    ensures KeepsTime(db, NextOfAny(db, step), r)
  {}

  /** Over any run, stored observation times only grow. */
  lemma {:induction false} TimesOnlyGrow(start: Db, steps: seq<AnyStep>, n: nat, r: RowId)
    requires n <= |steps|
    ensures KeepsTime(RunOfAny(start, steps[..n]), RunOfAny(start, steps), r)
    decreases |steps|
  {
    if n < |steps| {
      var init := steps[..|steps| - 1];
      assert init[..n] == steps[..n];
      TimesOnlyGrow(start, init, n, r);
      StepKeepsTime(RunOfAny(start, init), steps[|steps| - 1], r);
    } else {
      assert steps[..n] == steps;
    }
  }

  /**
   * The worker's own staleness test, against a list made at any earlier point of
   * the run, never drops an observation that the store would have taken.
   */
  lemma SkippingLosesNothing(start: Db, steps: seq<AnyStep>, n: nat, r: RowId, o: Observation)
    requires n <= |steps| && IsListed(RunOfAny(start, steps[..n]), r)
    requires IsStale(ViewOf(RunOfAny(start, steps[..n]), r), o.at)
    ensures var db := RunOfAny(start, steps); r in db.prs && Offer(db.prs[r].observed, o) == db.prs[r].observed
  {
    TimesOnlyGrow(start, steps, n, r);
  }
}
