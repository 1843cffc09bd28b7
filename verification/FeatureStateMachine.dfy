// The F-5 feature lifecycle: packages/domain/src/feature/feature-state-machine.ts.
//
// `IsAllowed` is the legality relation, written as a case split on the source
// state. The declarative table and the two lookup structures that the program
// derives from it are built here by the same loops and proved to agree with it.
module FeatureStateMachine {
  import opened Wrappers

  datatype FeatureState =
    | Planned
    | TasksReview
    | Queued
    | Developing
    | DevelopmentFailed
    | DevelopmentInterrupted
    | DevelopmentCancelled
    | DevelopmentComplete
    | PrCreating
    | PrCreationFailed
    | CiRunning
    | CiFailed
    | PrReview
    | PrChangesRequested
    | DevelopmentMerged
    | Blocked

  datatype TransitionOwner =
    | Human
    | HumanAndValidation
    | HumanAndProcessControl
    | Worker
    | AgentResultAndVerification
    | Reconciliation
    | GithubAdapter
    | Poller
    | Guard

  datatype Edge = Edge(from: FeatureState, to: FeatureState, owner: TransitionOwner)

  const FEATURE_STATES: seq<FeatureState> :=
    [ Planned, TasksReview, Queued, Developing, DevelopmentFailed, DevelopmentInterrupted,
      DevelopmentCancelled, DevelopmentComplete, PrCreating, PrCreationFailed, CiRunning,
      CiFailed, PrReview, PrChangesRequested, DevelopmentMerged, Blocked ]

  const EXPLICIT_EDGES: seq<Edge> :=
    [ Edge(Planned, TasksReview, HumanAndValidation),
      Edge(TasksReview, Planned, Human),
      Edge(TasksReview, Queued, Human),
      Edge(Queued, Developing, Worker),
      Edge(Queued, DevelopmentCancelled, Human),
      Edge(Developing, DevelopmentComplete, AgentResultAndVerification),
      Edge(Developing, DevelopmentFailed, Worker),
      Edge(Developing, DevelopmentInterrupted, Reconciliation),
      Edge(Developing, DevelopmentCancelled, HumanAndProcessControl),
      Edge(DevelopmentFailed, Queued, Human),
      Edge(DevelopmentInterrupted, Queued, Human),
      Edge(DevelopmentCancelled, Queued, Human),
      Edge(DevelopmentComplete, PrCreating, Worker),
      Edge(PrCreating, CiRunning, GithubAdapter),
      Edge(PrCreating, PrCreationFailed, GithubAdapter),
      Edge(PrCreationFailed, PrCreating, Human),
      Edge(CiRunning, CiFailed, Poller),
      Edge(CiRunning, PrReview, Poller),
      Edge(CiFailed, CiRunning, Poller),
      Edge(CiFailed, PrReview, Poller),
      Edge(PrReview, PrChangesRequested, Poller),
      Edge(PrChangesRequested, CiRunning, Poller),
      Edge(PrChangesRequested, PrReview, Poller),
      Edge(PrCreating, DevelopmentMerged, Poller),
      Edge(PrCreationFailed, DevelopmentMerged, Poller),
      Edge(CiRunning, DevelopmentMerged, Poller),
      Edge(CiFailed, DevelopmentMerged, Poller),
      Edge(PrReview, DevelopmentMerged, Poller),
      Edge(PrChangesRequested, DevelopmentMerged, Poller) ]

  predicate IsTerminal(state: FeatureState) {
    state == DevelopmentMerged
  }

  /** May `owner` move a feature from `from` to `to`? */
  predicate IsAllowed(from: FeatureState, to: FeatureState, owner: TransitionOwner) {
    && !IsTerminal(from)
    && ((to == Blocked && owner == Guard) || ExplicitlyAllowed(from, to, owner))
  }

  predicate ExplicitlyAllowed(from: FeatureState, to: FeatureState, owner: TransitionOwner) {
    match from
    case Planned => to == TasksReview && owner == HumanAndValidation
    case TasksReview => (to == Planned || to == Queued) && owner == Human
    case Queued =>
      || (to == Developing && owner == Worker)
      || (to == DevelopmentCancelled && owner == Human)
    case Developing =>
      || (to == DevelopmentComplete && owner == AgentResultAndVerification)
      || (to == DevelopmentFailed && owner == Worker)
      || (to == DevelopmentInterrupted && owner == Reconciliation)
      || (to == DevelopmentCancelled && owner == HumanAndProcessControl)
    case DevelopmentFailed => to == Queued && owner == Human
    case DevelopmentInterrupted => to == Queued && owner == Human
    case DevelopmentCancelled => to == Queued && owner == Human
    case DevelopmentComplete => to == PrCreating && owner == Worker
    case PrCreating =>
      || ((to == CiRunning || to == PrCreationFailed) && owner == GithubAdapter)
      || (to == DevelopmentMerged && owner == Poller)
    case PrCreationFailed =>
      || (to == PrCreating && owner == Human)
      || (to == DevelopmentMerged && owner == Poller)
    case CiRunning => (to == CiFailed || to == PrReview || to == DevelopmentMerged) && owner == Poller
    case CiFailed => (to == CiRunning || to == PrReview || to == DevelopmentMerged) && owner == Poller
    case PrReview => (to == PrChangesRequested || to == DevelopmentMerged) && owner == Poller
    case PrChangesRequested => (to == CiRunning || to == PrReview || to == DevelopmentMerged) && owner == Poller
    case DevelopmentMerged => false
    case Blocked => false
  }

  /** EDGE_LOOKUP: the explicit rows, then one guard edge per nonterminal state. */
  method BuildEdgeLookup() returns (lookup: set<Edge>)
    ensures forall e :: e in lookup <==> IsAllowed(e.from, e.to, e.owner)
  {
    lookup := CollectEdges(EXPLICIT_EDGES, FEATURE_STATES);
    forall e ensures e in lookup <==> IsAllowed(e.from, e.to, e.owner) {
      TableIsTheRelation(e);
    }
  }

  method CollectEdges(edges: seq<Edge>, states: seq<FeatureState>) returns (lookup: set<Edge>)
    ensures forall e :: e in lookup <==> e in edges || IsGuardEdge(e, states)
  {
    lookup := {};
    for i := 0 to |edges|
      invariant forall e :: e in lookup <==> e in edges[..i]
    {
      lookup := lookup + {edges[i]};
    }
    assert edges[..|edges|] == edges;
    for i := 0 to |states|
      invariant forall e :: e in lookup <==> e in edges || IsGuardEdge(e, states[..i])
    {
      if states[i] != DevelopmentMerged {
        lookup := lookup + {Edge(states[i], Blocked, Guard)};
      }
    }
    assert states[..|states|] == states;
  }

  predicate IsGuardEdge(e: Edge, states: seq<FeatureState>) {
    e.from in states && e.from != DevelopmentMerged && e.to == Blocked && e.owner == Guard
  }

  type Outbound = seq<(FeatureState, TransitionOwner)>

  /** EDGES_BY_FROM: the same rows grouped by their source state. */
  method BuildEdgesByFrom() returns (table: map<FeatureState, Outbound>)
    ensures forall from :: from in table
    ensures forall from, to, owner :: (to, owner) in table[from] <==> IsAllowed(from, to, owner)
  {
    forall s ensures s in FEATURE_STATES { EveryStateIsListed(s); }
    table := GroupEdges(EXPLICIT_EDGES, FEATURE_STATES);
    forall from, to, owner
      ensures (to, owner) in table[from] <==> IsAllowed(from, to, owner)
    {
      TableIsTheRelation(Edge(from, to, owner));
    }
  }

  method GroupEdges(edges: seq<Edge>, states: seq<FeatureState>) returns (table: map<FeatureState, Outbound>)
    requires forall e :: e in edges ==> e.from in states
    ensures forall s :: s in table <==> s in states
    ensures forall s, to, owner :: s in table ==>
      ((to, owner) in table[s] <==> Edge(s, to, owner) in edges || IsGuardEdge(Edge(s, to, owner), states))
  {
    table := map[];
    for i := 0 to |states|
      invariant forall s :: s in table <==> s in states[..i]
      invariant forall s :: s in table ==> table[s] == []
    {
      table := table[states[i] := []];
    }
    assert states[..|states|] == states;
    for i := 0 to |edges|
      invariant forall s :: s in table <==> s in states
      invariant forall s, to, owner :: s in table ==>
        ((to, owner) in table[s] <==> Edge(s, to, owner) in edges[..i])
    {
      var e := edges[i];
      assert edges[..i + 1] == edges[..i] + [e];
      table := table[e.from := table[e.from] + [(e.to, e.owner)]];
    }
    assert edges[..|edges|] == edges;
    for i := 0 to |states|
      invariant forall s :: s in table <==> s in states
      invariant forall s, to, owner :: s in table ==>
        ((to, owner) in table[s] <==> Edge(s, to, owner) in edges || IsGuardEdge(Edge(s, to, owner), states[..i]))
    {
      var s := states[i];
      assert states[..i + 1] == states[..i] + [s];
      if s != DevelopmentMerged {
        table := table[s := table[s] + [(Blocked, Guard)]];
      }
    }
    assert states[..|states|] == states;
  }

  lemma EveryStateIsListed(s: FeatureState)
    ensures s in FEATURE_STATES
  {
    var k :=
      match s
      case Planned => 0 case TasksReview => 1 case Queued => 2 case Developing => 3
      case DevelopmentFailed => 4 case DevelopmentInterrupted => 5 case DevelopmentCancelled => 6
      case DevelopmentComplete => 7 case PrCreating => 8 case PrCreationFailed => 9
      case CiRunning => 10 case CiFailed => 11 case PrReview => 12
      case PrChangesRequested => 13 case DevelopmentMerged => 14 case Blocked => 15;
    assert FEATURE_STATES[k] == s;
  }

  /** The declarative table, closed under the guard edges, is the legality relation. */
  lemma TableIsTheRelation(e: Edge)
    ensures e in EXPLICIT_EDGES || IsGuardEdge(e, FEATURE_STATES) <==> IsAllowed(e.from, e.to, e.owner)
  {
    EveryStateIsListed(e.from);
    if ExplicitlyAllowed(e.from, e.to, e.owner) {
      RowIsListed(e);
    }
    if e in EXPLICIT_EDGES {
      var k :| 0 <= k < |EXPLICIT_EDGES| && EXPLICIT_EDGES[k] == e;
      RowIsAllowed(k);
    }
  }

  lemma RowIsAllowed(k: nat)
    requires k < |EXPLICIT_EDGES|
    ensures var e := EXPLICIT_EDGES[k]; ExplicitlyAllowed(e.from, e.to, e.owner)
  {
    var e := EXPLICIT_EDGES[k];
    if k < 6 {
    } else if k < 12 {
    } else if k < 18 {
    } else if k < 24 {
    } else {
    }
  }

  lemma RowIsListed(e: Edge)
    requires ExplicitlyAllowed(e.from, e.to, e.owner)
    ensures EXPLICIT_EDGES[RowOf(e)] == e
  {
    if RowOf(e) < 12 {
      DevelopmentRowIsListed(e);
    } else {
      PullRequestRowIsListed(e);
    }
  }

  lemma DevelopmentRowIsListed(e: Edge)
    requires ExplicitlyAllowed(e.from, e.to, e.owner) && RowOf(e) < 12
    ensures EXPLICIT_EDGES[RowOf(e)] == e
  {}

  lemma PullRequestRowIsListed(e: Edge)
    requires ExplicitlyAllowed(e.from, e.to, e.owner) && RowOf(e) >= 12
    ensures EXPLICIT_EDGES[RowOf(e)] == e
  {}

  ghost function RowOf(e: Edge): (k: nat)
    requires ExplicitlyAllowed(e.from, e.to, e.owner)
    ensures k < |EXPLICIT_EDGES|
  {
    match e.from
    case Planned => 0
    case TasksReview => if e.to == Planned then 1 else 2
    case Queued => if e.to == Developing then 3 else 4
    case Developing =>
      if e.to == DevelopmentComplete then 5 else if e.to == DevelopmentFailed then 6
      else if e.to == DevelopmentInterrupted then 7 else 8
    case DevelopmentFailed => 9
    case DevelopmentInterrupted => 10
    case DevelopmentCancelled => 11
    case DevelopmentComplete => 12
    case PrCreating => if e.to == CiRunning then 13 else if e.to == PrCreationFailed then 14 else 23
    case PrCreationFailed => if e.to == PrCreating then 15 else 24
    case CiRunning => if e.to == CiFailed then 16 else if e.to == PrReview then 17 else 25
    case CiFailed => if e.to == CiRunning then 18 else if e.to == PrReview then 19 else 26
    case PrReview => if e.to == PrChangesRequested then 20 else 27
    case PrChangesRequested => if e.to == CiRunning then 21 else if e.to == PrReview then 22 else 28
  }

  // ---------------------------------------------------------------------
  // applyFeatureTransition
  // ---------------------------------------------------------------------

  // What an operation id is made of: a key chosen by the caller, or the kind of
  // operation and the attempt or feature that it concerns.
  datatype OperationId =
    | Keyed(key: string)
    | OfAttempt(kind: OperationKind, attempt: nat)
    | OfFeature(kind: OperationKind, feature: string)

  datatype OperationKind =
    | OpAttach | OpRemove | OpDeveloping | OpComplete | OpFailure | OpInterrupted | OpCancel | OpCancelBlocked
    | OpPrCreating | OpCiRunning | OpPrFail | OpReconcile

  datatype AppliedTransition = AppliedTransition(
    prior: FeatureState, next: FeatureState, owner: TransitionOwner,
    operationId: OperationId, priorVersion: nat, nextVersion: nat)

  datatype RejectionReason = VersionConflict | StateConflict | ForbiddenTransition

  datatype TransitionResult =
    | Applied(transition: AppliedTransition)
    | Idempotent(original: AppliedTransition)
    | Rejected(reason: RejectionReason, observed: FeatureState)

  datatype TransitionCommand = TransitionCommand(
    from: FeatureState, to: FeatureState, owner: TransitionOwner, operationId: OperationId,
    expectedVersion: nat, currentVersion: nat, observedState: Option<FeatureState>,
    priorOperationId: Option<OperationId>, priorResult: Option<AppliedTransition>)

  function ApplyFeatureTransition(c: TransitionCommand): TransitionResult {
    if c.priorOperationId == Some(c.operationId) && c.priorResult.Some? then
      Idempotent(c.priorResult.value)
    else if c.expectedVersion != c.currentVersion then
      Rejected(VersionConflict, c.from)
    else if c.observedState.Some? && c.observedState.value != c.from then
      Rejected(StateConflict, c.observedState.value)
    else if !IsAllowed(c.from, c.to, c.owner) then
      Rejected(ForbiddenTransition, c.from)
    else
      Applied(AppliedTransition(c.from, c.to, c.owner, c.operationId, c.currentVersion, c.currentVersion + 1))
  }

  // ---------------------------------------------------------------------
  // The law over whole histories
  // ---------------------------------------------------------------------

  /** Some owner may take this edge. */
  ghost predicate IsF5Edge(from: FeatureState, to: FeatureState) {
    exists owner :: IsAllowed(from, to, owner)
  }

  predicate IsReattachState(s: FeatureState) {
    s == DevelopmentFailed || s == DevelopmentInterrupted || s == DevelopmentCancelled
  }

  /** Attaching or replacing a task after a failed run writes this change without consulting the table. */
  predicate IsReattachJump(from: FeatureState, to: FeatureState) {
    IsReattachState(from) && to == TasksReview
  }

  /** The changes of state that occur in the program: the table's, and the re-attach jumps. */
  ghost predicate IsLawful(from: FeatureState, to: FeatureState) {
    IsF5Edge(from, to) || IsReattachJump(from, to)
  }

  /** None of the re-attach jumps is a row of the table, for any owner. */
  lemma ReattachJumpIsNotAnEdge(from: FeatureState, to: FeatureState)
    requires IsReattachJump(from, to)
    ensures !IsF5Edge(from, to)
  {}

  /** A history of stored states: every entry repeats its predecessor or follows it lawfully. */
  ghost predicate IsHistory(h: seq<FeatureState>) {
    && |h| > 0
    && forall i {:trigger FollowsLawfully(h, i)} :: 0 < i < |h| ==> FollowsLawfully(h, i)
  }

  ghost predicate FollowsLawfully(h: seq<FeatureState>, i: int)
    requires 0 < i < |h|
  {
    h[i] == h[i - 1] || IsLawful(h[i - 1], h[i])
  }

  /** Development is over: the states from DEVELOPMENT_COMPLETE on, and BLOCKED. */
  predicate IsPastDevelopment(s: FeatureState) {
    s == DevelopmentComplete || s == Blocked || IsPullRequestState(s)
  }

  const PULL_REQUEST_STATES: set<FeatureState> :=
    { PrCreating, PrCreationFailed, CiRunning, CiFailed, PrReview, PrChangesRequested, DevelopmentMerged }

  predicate IsPullRequestState(s: FeatureState) {
    match s
    case PrCreating | PrCreationFailed | CiRunning | CiFailed => true
    case PrReview | PrChangesRequested | DevelopmentMerged => true
    case _ => false
  }

  lemma {:induction false} DevelopmentNeverResumes(h: seq<FeatureState>, i: nat, j: nat)
    requires IsHistory(h) && i <= j < |h|
    requires IsPastDevelopment(h[i])
    ensures IsPastDevelopment(h[j])
    decreases j
  {
    if i < j {
      DevelopmentNeverResumes(h, i, j - 1);
      assert FollowsLawfully(h, j);
    }
  }

  /** A feature that left DEVELOPMENT_COMPLETE does not come back to it, so it completes once. */
  lemma {:induction false} CompletesOnce(h: seq<FeatureState>, i: nat, j: nat)
    requires IsHistory(h) && i < j < |h|
    requires h[i] == DevelopmentComplete && h[j] == DevelopmentComplete
    ensures forall k :: i <= k <= j ==> h[k] == DevelopmentComplete
    decreases j - i
  {
    assert FollowsLawfully(h, i + 1);
    if h[i + 1] == DevelopmentComplete {
      if i + 1 < j {
        CompletesOnce(h, i + 1, j);
      }
    } else {
      StaysOutOfComplete(h, i + 1, j);
    }
  }

  lemma {:induction false} StaysOutOfComplete(h: seq<FeatureState>, i: nat, j: nat)
    requires IsHistory(h) && i <= j < |h|
    requires IsPullRequestState(h[i]) || h[i] == Blocked
    ensures IsPullRequestState(h[j]) || h[j] == Blocked
    decreases j
  {
    if i < j {
      StaysOutOfComplete(h, i, j - 1);
      assert FollowsLawfully(h, j);
    }
  }

  /** A history that ends inside a region it started outside of has a step that enters it. */
  lemma {:induction false} EntersRegion(h: seq<FeatureState>, region: set<FeatureState>, n: nat) returns (k: nat)
    requires IsHistory(h) && n < |h| && h[0] !in region && h[n] in region
    ensures k < n && h[k] !in region && h[k + 1] in region && IsLawful(h[k], h[k + 1])
    decreases n
  {
    if h[n - 1] in region {
      k := EntersRegion(h, region, n - 1);
    } else {
      k := n - 1;
      assert FollowsLawfully(h, n);
    }
  }

  /** Every history from PLANNED to DEVELOPMENT_MERGED passed the four milestones, in this order. */
  lemma MergedPassedEveryMilestone(h: seq<FeatureState>, n: nat)
    requires IsHistory(h) && n < |h|
    requires h[0] == Planned && h[n] == DevelopmentMerged
    ensures exists q, d, c, p :: PassedInOrder(h, q, d, c, p, n)
  {
    var c := EntersRegion(h, PULL_REQUEST_STATES, n);
    OnlyWayIn(h[c], h[c + 1]);
    var d := EntersRegion(h, {DevelopmentComplete}, c);
    OnlyWayIn(h[d], h[d + 1]);
    var q := EntersRegion(h, {Developing}, d);
    OnlyWayIn(h[q], h[q + 1]);
    assert PassedInOrder(h, q, d, c, c + 1, n);
  }

  /** Each milestone has one way in. */
  lemma OnlyWayIn(from: FeatureState, to: FeatureState)
    requires IsLawful(from, to)
    ensures to in PULL_REQUEST_STATES && from !in PULL_REQUEST_STATES ==>
      from == DevelopmentComplete && to == PrCreating
    ensures to == DevelopmentComplete ==> from == Developing
    ensures to == Developing ==> from == Queued
  {}

  predicate PassedInOrder(h: seq<FeatureState>, q: int, d: int, c: int, p: int, n: nat)
    requires n < |h|
  {
    && 0 < q < d < c < p < n
    && h[q] == Queued && h[d] == Developing && h[c] == DevelopmentComplete && h[p] == PrCreating
  }
}
