// Task dependencies: packages/autopilot/src/task/task-semantic-validator.ts.
//
// The graph search is the white/gray/black depth-first search of the program,
// over a color map, a stack and an error list that it updates in place.
module TaskGraph {
  import opened Wrappers

  type Id = string

  datatype Requirement = Requirement(id: Id, dependsOn: seq<Id>, passes: bool)

  datatype Error =
    | MissingDependency(id: Id, dependency: Id)
    | DependencyCycle(path: seq<Id>)

  datatype Color = White | Gray | Black

  // ---------------------------------------------------------------------
  // The graph
  // ---------------------------------------------------------------------

  type Graph = map<Id, seq<Id>>

  predicate Edge(adj: Graph, a: Id, b: Id) { a in adj && b in adj[a] }

  predicate IsWalk(adj: Graph, p: seq<Id>) {
    forall i :: 0 <= i < |p| - 1 ==> Edge(adj, p[i], p[i + 1])
  }

  predicate IsCycle(adj: Graph, p: seq<Id>) {
    |p| >= 2 && p[0] == p[|p| - 1] && IsWalk(adj, p)
  }

  ghost predicate IsAcyclic(adj: Graph) { forall p :: !IsCycle(adj, p) }

  predicate IsClosed(adj: Graph) { forall a, b :: a in adj && b in adj[a] ==> b in adj }

  function Ids(rs: seq<Requirement>): set<Id> { set i | 0 <= i < |rs| :: rs[i].id }

  predicate DistinctIds(rs: seq<Requirement>) { forall i, j :: 0 <= i < j < |rs| ==> rs[i].id != rs[j].id }

  predicate AllListed(rs: seq<Requirement>) {
    forall i, d :: 0 <= i < |rs| && d in rs[i].dependsOn ==> d in Ids(rs)
  }

  /** Every listed id with its dependencies; an id that is listed again replaces its earlier entry. */
  ghost function Dependencies(rs: seq<Requirement>): (adj: Graph)
    ensures adj.Keys == Ids(rs)
  {
    map a | a in Ids(rs) :: rs[LastIndex(rs, a)].dependsOn
  }

  ghost function LastIndex(rs: seq<Requirement>, a: Id): (k: nat)
    requires a in Ids(rs)
    ensures k < |rs| && rs[k].id == a && forall i :: k < i < |rs| ==> rs[i].id != a
  {
    if rs[|rs| - 1].id == a then |rs| - 1 else LastIndex(rs[..|rs| - 1], a)
  }

  // ---------------------------------------------------------------------
  // Orders
  // ---------------------------------------------------------------------

  /** Everything an entry depends on stands before it. */
  ghost predicate IsDependencyOrder(adj: Graph, order: seq<Id>) {
    forall i {:trigger DependsEarlier(adj, order, i)} :: 0 <= i < |order| ==> DependsEarlier(adj, order, i)
  }

  predicate DependsEarlier(adj: Graph, order: seq<Id>, i: nat)
    requires i < |order|
  {
    order[i] in adj && forall b :: b in adj[order[i]] ==> b in order[..i]
  }

  function FirstIndex(s: seq<Id>, a: Id): (k: nat)
    requires a in s
    ensures k < |s| && s[k] == a && a !in s[..k]
  {
    if s[0] == a then 0 else 1 + FirstIndex(s[1..], a)
  }

  /** Along a walk through ordered nodes the positions only decrease. */
  lemma {:induction false} WalksDescend(adj: Graph, order: seq<Id>, p: seq<Id>)
    requires IsDependencyOrder(adj, order) && IsWalk(adj, p) && |p| >= 2 && p[0] in order
    ensures p[|p| - 1] in order && FirstIndex(order, p[|p| - 1]) < FirstIndex(order, p[0])
    decreases |p|
  {
    var k := FirstIndex(order, p[0]);
    assert Edge(adj, p[0], p[1]);
    assert DependsEarlier(adj, order, k) && p[1] in order[..k];
    if |p| > 2 {
      var rest := p[1..];
      forall i | 0 <= i < |rest| - 1 ensures Edge(adj, rest[i], rest[i + 1]) {
        assert Edge(adj, p[i + 1], p[i + 2]);
      }
      WalksDescend(adj, order, rest);
    }
  }

  lemma OrderedMeansAcyclic(adj: Graph, order: seq<Id>)
    requires IsDependencyOrder(adj, order) && forall a :: a in adj ==> a in order
    ensures IsAcyclic(adj)
  {
    forall p ensures !IsCycle(adj, p) {
      if IsCycle(adj, p) {
        assert Edge(adj, p[0], p[1]);
        WalksDescend(adj, order, p);
      }
    }
  }

  // ---------------------------------------------------------------------
  // The search
  // ---------------------------------------------------------------------

  ghost function WhitesOf(color: map<Id, Color>): set<Id> { set a | a in color && color[a] == White }

  /** The gray nodes are those of the stack, each there once; the black ones are those finished. */
  ghost predicate AreColored(color: map<Id, Color>, stack: seq<Id>, finished: seq<Id>) {
    && IsRepeatFree(stack)
    && forall a {:trigger IsColored(color, stack, finished, a)} :: IsColored(color, stack, finished, a)
  }

  predicate IsRepeatFree(stack: seq<Id>) { forall i, j :: 0 <= i < j < |stack| ==> stack[i] != stack[j] }

  predicate IsColored(color: map<Id, Color>, stack: seq<Id>, finished: seq<Id>, a: Id) {
    && (a in stack || a in finished ==> a in color)
    && (a in color ==> (color[a] == Gray <==> a in stack) && (color[a] == Black <==> a in finished))
  }

  lemma EnteringColors(color: map<Id, Color>, stack: seq<Id>, finished: seq<Id>, node: Id)
    requires AreColored(color, stack, finished) && node in color && color[node] == White
    ensures AreColored(color[node := Gray], stack + [node], finished)
    ensures WhitesOf(color[node := Gray]) == WhitesOf(color) - {node}
  {
    assert IsColored(color, stack, finished, node);
    var grayed, longer := color[node := Gray], stack + [node];
    forall a ensures IsColored(grayed, longer, finished, a) {
      assert IsColored(color, stack, finished, a);
    }
  }

  lemma LeavingColors(color: map<Id, Color>, stack: seq<Id>, finished: seq<Id>, node: Id)
    requires AreColored(color, stack + [node], finished) && node in color
    ensures AreColored(color[node := Black], stack, finished + [node])
    ensures WhitesOf(color[node := Black]) <= WhitesOf(color)
  {
    var longer := stack + [node];
    assert longer[|stack|] == node && IsColored(color, longer, finished, node);
    forall i, j | 0 <= i < j < |stack| ensures stack[i] != stack[j] { assert longer[i] != longer[j]; }
    var blackened, more := color[node := Black], finished + [node];
    forall a ensures IsColored(blackened, stack, more, a) {
      assert IsColored(color, longer, finished, a);
      if i :| 0 <= i < |stack| && stack[i] == a {
        assert longer[i] == a && longer[i] != longer[|stack|];
      }
    }
  }

  class Search {
    const adj: Graph
    var color: map<Id, Color>
    var stack: seq<Id>
    var errors: seq<Error>
    // the black nodes, in the order in which they were finished
    ghost var finished: seq<Id>

    ghost predicate Valid()
      reads this
    {
      IsClosed(adj) && color.Keys == adj.Keys && AreColored(color, stack, finished) && IsDependencyOrder(adj, finished)
    }

    ghost function Whites(): set<Id>
      reads this
    {
      WhitesOf(color)
    }

    constructor (adj: Graph, errors: seq<Error>)
      requires IsClosed(adj)
      ensures Valid() && stack == [] && finished == [] && this.adj == adj && this.errors == errors
      ensures Whites() == adj.Keys
    {
      this.adj := adj;
      this.errors := errors;
      color := map a | a in adj :: White;
      stack := [];
      finished := [];
    }

    /**
     * Returns whether a cycle was reported. If so exactly one error was added:
     * the loop that the search's own `walk` from the node closes at `target`,
     * a node of the stack. The stack and the gray nodes are then left as they
     * are, with the walk on top. If not, the node and all it reaches are finished.
     * The report is a cycle of the graph if and only if it closes within the
     * search's own walk, or the stack below was a walk from there to the node.
     */
    method Dfs(node: Id) returns (found: bool, ghost walk: seq<Id>, ghost target: Id)
      requires Valid() && node in color && color[node] == White
      modifies this
      ensures Valid() && Whites() <= old(Whites()) - {node}
      ensures old(finished) <= finished
      ensures !found ==> errors == old(errors) && stack == old(stack) && color[node] == Black
      ensures found ==> IsAbandoned(adj, node, walk, target) && stack == old(stack) + walk && target in stack
      ensures found ==> errors == old(errors) + [DependencyCycle(LoopTo(stack, target))]
      ensures found ==> (IsCycle(adj, LoopTo(stack, target)) <==> ClosesCycle(adj, old(stack), node, target, walk))
      decreases |Whites()|
    {
      ghost var white := Whites();
      Enter(node);
      walk, target := [], node;
      var i := 0;
      while i < |adj[node]|
        invariant i <= |adj[node]| && Valid() && Whites() <= white - {node}
        invariant stack == old(stack) + [node] && errors == old(errors) && old(finished) <= finished
        invariant forall k :: 0 <= k < i ==> adj[node][k] in finished
      {
        var following := adj[node][i];
        assert IsColored(color, stack, finished, following);
        if color[following] == Gray {
          errors := errors + [DependencyCycle(LoopTo(stack, following))];
          LoopIsCycleIff(adj, old(stack), [node], following);
          return true, [node], following;
        }
        if color[following] == White {
          ExcludingOneIsSmaller(Whites(), white, node);
          found, walk, target := Dfs(following);
          if found {
            WalkExtends(adj, old(stack), node, walk, target);
            walk := [node] + walk;
            return;
          }
          assert IsColored(color, stack, finished, following);
        }
        i := i + 1;
      }
      Leave(node);
      found, walk, target := false, [], node;
    }

    method Enter(node: Id)
      requires Valid() && node in color && color[node] == White
      modifies this`color, this`stack
      ensures Valid() && Whites() == old(Whites()) - {node}
      ensures color == old(color)[node := Gray] && stack == old(stack) + [node]
    {
      EnteringColors(color, stack, finished, node);
      color := color[node := Gray];
      stack := stack + [node];
    }

    method Leave(node: Id)
      requires Valid() && stack != [] && stack[|stack| - 1] == node && node in adj
      requires forall k :: 0 <= k < |adj[node]| ==> adj[node][k] in finished
      modifies this`color, this`stack, this`finished
      ensures Valid() && Whites() <= old(Whites())
      ensures color == old(color)[node := Black] && stack == old(stack)[..|old(stack)| - 1]
      ensures finished == old(finished) + [node]
    {
      assert stack == stack[..|stack| - 1] + [node];
      LeavingColors(color, stack[..|stack| - 1], finished, node);
      OrderGrows(adj, finished, node);
      stack := stack[..|stack| - 1];
      color := color[node := Black];
      finished := finished + [node];
    }
  }

  /** The part of the stack from `following` on, closed by it. */
  function LoopTo(stack: seq<Id>, following: Id): seq<Id> {
    if following in stack then stack[FirstIndex(stack, following)..] + [following] else [following]
  }

  /** A search from `node` that stopped: its walk through the graph, and the gray node that its end depends on. */
  predicate IsAbandoned(adj: Graph, node: Id, walk: seq<Id>, target: Id) {
    walk != [] && walk[0] == node && IsWalk(adj, walk) && Edge(adj, walk[|walk| - 1], target)
  }

  /** The loop lies within the walk, or what lies below is a walk to the node as well. */
  predicate ClosesCycle(adj: Graph, below: seq<Id>, node: Id, target: Id, walk: seq<Id>)
    requires target in below + walk
  {
    var k := FirstIndex(below + walk, target);
    k >= |below| || IsWalk(adj, below[k..] + [node])
  }

  /** A search that stopped, as seen from the node it was called from. */
  lemma WalkExtends(adj: Graph, below: seq<Id>, node: Id, walk: seq<Id>, target: Id)
    requires walk != [] && Edge(adj, node, walk[0]) && IsAbandoned(adj, walk[0], walk, target)
    requires target in below + [node] + walk
    ensures below + [node] + walk == below + ([node] + walk)
    ensures IsAbandoned(adj, node, [node] + walk, target)
    ensures IsCycle(adj, LoopTo(below + [node] + walk, target))
      <==> ClosesCycle(adj, below, node, target, [node] + walk)
  {
    assert below + [node] + walk == below + ([node] + walk);
    JoinedWalk(adj, [node], walk);
    LoopIsCycleIff(adj, below, [node] + walk, target);
  }

  /** Two walks make one if and only if the end of the first depends on the start of the second. */
  lemma JoinedWalk(adj: Graph, p: seq<Id>, q: seq<Id>)
    requires p != [] && q != []
    ensures IsWalk(adj, p + q) <==> IsWalk(adj, p) && IsWalk(adj, q) && Edge(adj, p[|p| - 1], q[0])
  {
    var whole := p + q;
    if IsWalk(adj, whole) {
      forall i | 0 <= i < |p| - 1 ensures Edge(adj, p[i], p[i + 1]) { assert Edge(adj, whole[i], whole[i + 1]); }
      forall i | 0 <= i < |q| - 1 ensures Edge(adj, q[i], q[i + 1]) {
        assert Edge(adj, whole[|p| + i], whole[|p| + i + 1]);
      }
      assert Edge(adj, whole[|p| - 1], whole[|p| - 1 + 1]);
    }
    if IsWalk(adj, p) && IsWalk(adj, q) && Edge(adj, p[|p| - 1], q[0]) {
      forall i | 0 <= i < |whole| - 1 ensures Edge(adj, whole[i], whole[i + 1]) {
        if i < |p| - 1 {
          assert Edge(adj, p[i], p[i + 1]);
        } else if i >= |p| {
          assert Edge(adj, q[i - |p|], q[i - |p| + 1]);
        }
      }
    }
  }

  lemma SuffixIsWalk(adj: Graph, p: seq<Id>, k: nat)
    requires IsWalk(adj, p) && k <= |p|
    ensures IsWalk(adj, p[k..])
  {
    forall i | 0 <= i < |p[k..]| - 1 ensures Edge(adj, p[k..][i], p[k..][i + 1]) {
      assert Edge(adj, p[k + i], p[k + i + 1]);
    }
  }

  /** The reported loop is a cycle if and only if the part of the stack that it runs through is a walk. */
  lemma LoopIsCycleIffWalk(adj: Graph, stack: seq<Id>, target: Id)
    requires target in stack && Edge(adj, stack[|stack| - 1], target)
    ensures IsCycle(adj, LoopTo(stack, target)) <==> IsWalk(adj, stack[FirstIndex(stack, target)..])
  {
    JoinedWalk(adj, stack[FirstIndex(stack, target)..], [target]);
  }

  lemma LoopIsCycleIff(adj: Graph, below: seq<Id>, walk: seq<Id>, target: Id)
    requires walk != [] && IsAbandoned(adj, walk[0], walk, target) && target in below + walk
    ensures IsCycle(adj, LoopTo(below + walk, target)) <==> ClosesCycle(adj, below, walk[0], target, walk)
  {
    var k := FirstIndex(below + walk, target);
    LoopIsCycleIffWalk(adj, below + walk, target);
    if k >= |below| {
      SuffixWithin(adj, below, walk, k);
    } else {
      SuffixBelow(adj, below, walk, k);
    }
  }

  lemma SuffixWithin(adj: Graph, below: seq<Id>, walk: seq<Id>, k: nat)
    requires IsWalk(adj, walk) && |below| <= k <= |below| + |walk|
    ensures IsWalk(adj, (below + walk)[k..])
  {
    assert (below + walk)[k..] == walk[k - |below|..];
    SuffixIsWalk(adj, walk, k - |below|);
  }

  lemma SuffixBelow(adj: Graph, below: seq<Id>, walk: seq<Id>, k: nat)
    requires walk != [] && IsWalk(adj, walk) && k < |below|
    ensures IsWalk(adj, (below + walk)[k..]) <==> IsWalk(adj, below[k..] + [walk[0]])
  {
    assert (below + walk)[k..] == below[k..] + walk;
    JoinedWalk(adj, below[k..], walk);
    JoinedWalk(adj, below[k..], [walk[0]]);
  }

  lemma OrderGrows(adj: Graph, order: seq<Id>, node: Id)
    requires IsDependencyOrder(adj, order) && node in adj && forall b :: b in adj[node] ==> b in order
    ensures IsDependencyOrder(adj, order + [node])
  {
    var longer := order + [node];
    forall i | 0 <= i < |longer| ensures DependsEarlier(adj, longer, i) {
      if i < |order| {
        assert DependsEarlier(adj, order, i) && longer[..i] == order[..i];
      } else {
        assert longer[..i] == order;
      }
    }
  }

  lemma ExcludingOneIsSmaller(a: set<Id>, b: set<Id>, x: Id)
    requires a <= b - {x} && x in b
    ensures |a| < |b|
  {
    SubsetIsSmaller(a, b - {x});
  }

  // ---------------------------------------------------------------------
  // validateDependencyGraph
  // ---------------------------------------------------------------------

  /** Requirement `e.id` names a dependency that is not listed. */
  ghost predicate IsMissing(rs: seq<Requirement>, ids: set<Id>, e: Error) {
    e.MissingDependency? && e.dependency !in ids &&
    exists i :: 0 <= i < |rs| && rs[i].id == e.id && e.dependency in rs[i].dependsOn
  }

  /** The graph without the dependencies that are not listed. */
  ghost predicate IsRestriction(adj: Graph, full: Graph) {
    adj.Keys == full.Keys && forall a, b :: Edge(adj, a, b) <==> Edge(full, a, b) && b in full
  }

  /** The ids in the order in which they are first listed. */
  function ListedIds(rs: seq<Requirement>): (ids: seq<Id>)
    ensures forall a :: a in ids <==> a in Ids(rs)
  {
    if rs == [] then []
    else
      var init, last := rs[..|rs| - 1], rs[|rs| - 1];
      assert init + [last] == rs;
      IdsGrow(init, last);
      ListedIds(init) + if last.id in ListedIds(init) then [] else [last.id]
  }

  method CollectIds(rs: seq<Requirement>) returns (ids: seq<Id>)
    ensures ids == ListedIds(rs)
  {
    ids := [];
    for i := 0 to |rs|
      invariant ids == ListedIds(rs[..i])
    {
      assert rs[..i + 1][..i] == rs[..i];
      if rs[i].id !in ids { ids := ids + [rs[i].id]; }
    }
    assert rs[..|rs|] == rs;
  }

  lemma IdsGrow(rs: seq<Requirement>, r: Requirement)
    ensures Ids(rs + [r]) == Ids(rs) + {r.id}
  {
    var more := rs + [r];
    forall a | a in Ids(rs) ensures a in Ids(more) {
      var i :| 0 <= i < |rs| && rs[i].id == a;
      assert more[i].id == a;
    }
    assert more[|rs|].id == r.id;
  }

  /** Of some dependencies those that are listed, in order. */
  function Listed(deps: seq<Id>, known: set<Id>): seq<Id> {
    if deps == [] then []
    else
      var last := deps[|deps| - 1];
      Listed(deps[..|deps| - 1], known) + if last in known then [last] else []
  }

  /** An error for each of the others, in order. */
  function MissingFrom(id: Id, deps: seq<Id>, known: set<Id>): seq<Error> {
    if deps == [] then []
    else
      var last := deps[|deps| - 1];
      MissingFrom(id, deps[..|deps| - 1], known) + if last in known then [] else [MissingDependency(id, last)]
  }

  function MissingOf(rs: seq<Requirement>, known: set<Id>): seq<Error> {
    if rs == [] then []
    else
      var last := rs[|rs| - 1];
      MissingOf(rs[..|rs| - 1], known) + MissingFrom(last.id, last.dependsOn, known)
  }

  method ResolveDependencies(r: Requirement, ids: seq<Id>, ghost known: set<Id>)
    returns (resolved: seq<Id>, missing: seq<Error>)
    requires forall a :: a in ids <==> a in known
    ensures resolved == Listed(r.dependsOn, known) && missing == MissingFrom(r.id, r.dependsOn, known)
    ensures forall b :: b in resolved <==> b in r.dependsOn && b in ids
    ensures forall e :: e in missing <==>
              e.MissingDependency? && e.id == r.id && e.dependency in r.dependsOn && e.dependency !in ids
  {
    resolved, missing := [], [];
    for j := 0 to |r.dependsOn|
      invariant resolved == Listed(r.dependsOn[..j], known)
      invariant missing == MissingFrom(r.id, r.dependsOn[..j], known)
      invariant forall b :: b in resolved <==> b in r.dependsOn[..j] && b in ids
      invariant forall e :: e in missing <==>
                  e.MissingDependency? && e.id == r.id && e.dependency in r.dependsOn[..j] && e.dependency !in ids
    {
      var dep := r.dependsOn[j];
      assert r.dependsOn[..j + 1] == r.dependsOn[..j] + [dep];
      assert r.dependsOn[..j + 1][..j] == r.dependsOn[..j];
      if dep !in ids {
        missing := missing + [MissingDependency(r.id, dep)];
      } else {
        resolved := resolved + [dep];
      }
    }
    assert r.dependsOn[..|r.dependsOn|] == r.dependsOn;
  }

  /** What the first `i` requirements contribute to the adjacency map. */
  ghost predicate IsBuilt(adj: Graph, rs: seq<Requirement>, ids: seq<Id>) {
    && adj.Keys == Ids(rs)
    && forall a {:trigger adj[a]} :: a in adj ==> forall b :: b in adj[a] <==> b in Dependencies(rs)[a] && b in ids
  }

  /** Each node leads to its listed dependencies, in their order. */
  ghost predicate IsInOrder(adj: Graph, rs: seq<Requirement>, known: set<Id>) {
    forall a :: a in adj && a in Dependencies(rs) ==> adj[a] == Listed(Dependencies(rs)[a], known)
  }

  lemma OrderAdds(adj: Graph, rs: seq<Requirement>, known: set<Id>, r: Requirement)
    requires adj.Keys == Ids(rs) && IsInOrder(adj, rs, known)
    ensures IsInOrder(adj[r.id := Listed(r.dependsOn, known)], rs + [r], known)
  {
    IdsGrow(rs, r);
    var after := adj[r.id := Listed(r.dependsOn, known)];
    forall a | a in after && a in Dependencies(rs + [r])
      ensures after[a] == Listed(Dependencies(rs + [r])[a], known)
    {
      DependenciesGrow(rs, r, a);
    }
  }

  method BuildAdjacency(rs: seq<Requirement>, ids: seq<Id>) returns (adj: Graph, missing: seq<Error>)
    requires forall a :: a in ids <==> a in Ids(rs)
    ensures IsRestriction(adj, Dependencies(rs)) && IsInOrder(adj, rs, Ids(rs))
    ensures missing == MissingOf(rs, Ids(rs))
    ensures forall e :: e in missing <==> IsMissing(rs, Ids(rs), e)
  {
    adj, missing := map[], [];
    for i := 0 to |rs|
      invariant IsBuilt(adj, rs[..i], ids) && IsInOrder(adj, rs[..i], Ids(rs))
      invariant missing == MissingOf(rs[..i], Ids(rs))
      invariant forall e :: e in missing <==> IsMissing(rs[..i], Ids(rs), e)
    {
      var resolved, more := ResolveDependencies(rs[i], ids, Ids(rs));
      assert rs[..i + 1] == rs[..i] + [rs[i]] && rs[..i + 1][..i] == rs[..i];
      OrderAdds(adj, rs[..i], Ids(rs), rs[i]);
      BuildingAdds(adj, rs[..i], ids, rs[i], resolved);
      forall e ensures e in missing + more <==> IsMissing(rs[..i] + [rs[i]], Ids(rs), e) {
        MissingGrows(rs[..i], Ids(rs), rs[i], e);
      }
      missing := missing + more;
      adj := adj[rs[i].id := resolved];
    }
    assert rs[..|rs|] == rs;
  }

  lemma BuildingAdds(adj: Graph, rs: seq<Requirement>, ids: seq<Id>, r: Requirement, resolved: seq<Id>)
    requires IsBuilt(adj, rs, ids) && forall b :: b in resolved <==> b in r.dependsOn && b in ids
    ensures IsBuilt(adj[r.id := resolved], rs + [r], ids)
  {
    IdsGrow(rs, r);
    var after := adj[r.id := resolved];
    forall a | a in after ensures forall b :: b in after[a] <==> b in Dependencies(rs + [r])[a] && b in ids {
      DependenciesGrow(rs, r, a);
      if a != r.id { assert adj[a] == after[a]; }
    }
  }

  lemma DependenciesGrow(rs: seq<Requirement>, r: Requirement, a: Id)
    requires a in Ids(rs + [r])
    ensures a == r.id ==> Dependencies(rs + [r])[a] == r.dependsOn
    ensures a != r.id ==> a in Ids(rs) && Dependencies(rs + [r])[a] == Dependencies(rs)[a]
  {
    IdsGrow(rs, r);
    var more := rs + [r];
    assert more[..|more| - 1] == rs && more[|rs|] == r;
  }

  lemma MissingGrows(rs: seq<Requirement>, ids: set<Id>, r: Requirement, e: Error)
    ensures IsMissing(rs + [r], ids, e) <==>
            IsMissing(rs, ids, e) || IsMissing([r], ids, e)
  {
    var more := rs + [r];
    if IsMissing(rs, ids, e) {
      var i :| 0 <= i < |rs| && rs[i].id == e.id && e.dependency in rs[i].dependsOn;
      assert more[i] == rs[i];
    }
    if IsMissing([r], ids, e) {
      assert more[|rs|] == r;
    }
  }

  lemma RestrictionIsClosed(adj: Graph, full: Graph)
    requires IsRestriction(adj, full)
    ensures IsClosed(adj)
  {
    forall a, b | a in adj && b in adj[a] ensures b in adj { assert Edge(adj, a, b); }
  }

  lemma RestrictionHasSameCycles(adj: Graph, full: Graph, p: seq<Id>)
    requires IsRestriction(adj, full)
    ensures IsCycle(adj, p) <==> IsCycle(full, p)
  {
    if IsCycle(full, p) {
      forall i | 0 <= i < |p| - 1 ensures Edge(adj, p[i], p[i + 1]) {
        assert Edge(full, p[i], p[i + 1]);
        if i + 1 < |p| - 1 { assert Edge(full, p[i + 1], p[i + 2]); } else { assert Edge(full, p[0], p[1]); }
      }
    }
    if IsCycle(adj, p) {
      forall i | 0 <= i < |p| - 1 ensures Edge(full, p[i], p[i + 1]) { assert Edge(adj, p[i], p[i + 1]); }
    }
  }

  /** The first of the errors that reports a cycle, if any does. */
  predicate IsFirstCycle(errors: seq<Error>, i: nat) {
    i < |errors| && errors[i].DependencyCycle? && forall j :: 0 <= j < i ==> errors[j].MissingDependency?
  }

  // What the search did: from which of the `ids` it stopped, on which walk and at
  // which gray node, and the nodes it finished in their order.
  datatype Trace = Trace(roots: seq<nat>, walks: seq<seq<Id>>, targets: seq<Id>, finished: seq<Id>)

  /** The stack after the first `n` searches that stopped. */
  function StackOf(walks: seq<seq<Id>>, n: nat): seq<Id>
    requires n <= |walks|
  {
    if n == 0 then [] else StackOf(walks, n - 1) + walks[n - 1]
  }

  /** Search `j` stopped on its walk from its root, and every id listed before the root had been dealt with. */
  predicate IsStop(adj: Graph, ids: seq<Id>, t: Trace, j: nat)
    requires j < |t.walks| == |t.roots| == |t.targets|
  {
    && t.roots[j] < |ids| && (j > 0 ==> t.roots[j - 1] < t.roots[j])
    && IsAbandoned(adj, ids[t.roots[j]], t.walks[j], t.targets[j])
    && t.targets[j] in StackOf(t.walks, j + 1)
    && forall k :: 0 <= k < t.roots[j] ==> ids[k] in StackOf(t.walks, j) || ids[k] in t.finished
  }

  ghost predicate IsTrace(adj: Graph, ids: seq<Id>, t: Trace) {
    && |t.walks| == |t.roots| == |t.targets|
    && (forall j :: 0 <= j < |t.walks| ==> IsStop(adj, ids, t, j))
    && IsRepeatFree(StackOf(t.walks, |t.walks|)) && IsDependencyOrder(adj, t.finished)
  }

  /** Each of the ids was finished or is on the stack. */
  ghost predicate AreDealtWith(ids: seq<Id>, t: Trace) {
    forall a :: a in ids ==> a in StackOf(t.walks, |t.walks|) || a in t.finished
  }

  /** What search `i` reported. */
  function Reported(t: Trace, i: nat): seq<Id>
    requires i < |t.walks| == |t.targets|
  {
    LoopTo(StackOf(t.walks, i + 1), t.targets[i])
  }

  function Reports(t: Trace): (errors: seq<Error>)
    requires |t.walks| == |t.targets|
    ensures |errors| == |t.walks|
  {
    seq(|t.walks|, i requires 0 <= i < |t.walks| => DependencyCycle(Reported(t, i)))
  }

  /** Report `i` closes in the walk of search `h`, which is its own or an earlier one. */
  predicate ClosesIn(t: Trace, i: nat, h: nat) {
    h <= i < |t.walks| == |t.targets| && t.targets[i] in t.walks[h]
  }

  /** From search `h` to search `i` each stopped at a node that depends on the root of the next. */
  predicate AreBridged(adj: Graph, walks: seq<seq<Id>>, h: nat, i: nat)
    requires h <= i < |walks|
  {
    forall m :: h <= m < i ==> IsBridge(adj, walks, m)
  }

  predicate IsBridge(adj: Graph, walks: seq<seq<Id>>, m: nat)
    requires m + 1 < |walks|
  {
    walks[m] != [] && walks[m + 1] != [] && Edge(adj, walks[m][|walks[m]| - 1], walks[m + 1][0])
  }

  /**
   * A report is a cycle of the graph if and only if every search that was
   * abandoned inside its loop stopped at a node that depends on the root of the
   * next one. One that closes within its own search always is, the first report
   * in particular.
   */
  lemma ReportIsCycleIff(adj: Graph, ids: seq<Id>, t: Trace, i: nat, h: nat)
    requires IsTrace(adj, ids, t) && ClosesIn(t, i, h)
    ensures IsCycle(adj, Reported(t, i)) <==> AreBridged(adj, t.walks, h, i)
  {
    assert IsStop(adj, ids, t, i);
    var stack, target := StackOf(t.walks, i + 1), t.targets[i];
    StacksGrow(t.walks, i + 1, |t.walks|);
    var q :| 0 <= q < |t.walks[h]| && t.walks[h][q] == target;
    var k := |StackOf(t.walks, h)| + q;
    StackFrom(t.walks, h, i, k);
    assert stack[|stack| - 1] == t.walks[i][|t.walks[i]| - 1];
    PositionIsFirst(stack, k);
    LoopIsCycleIffWalk(adj, stack, target);
    SuffixIsWalkIff(adj, ids, t, i, h, k);
  }

  /** Some search holds the node at which a report closes. */
  lemma {:induction false} ReportClosesSomewhere(walks: seq<seq<Id>>, n: nat, target: Id) returns (h: nat)
    requires n <= |walks| && target in StackOf(walks, n)
    ensures h < n && target in walks[h]
  {
    if target in walks[n - 1] {
      h := n - 1;
    } else {
      h := ReportClosesSomewhere(walks, n - 1, target);
    }
  }

  lemma {:induction false} StacksGrow(walks: seq<seq<Id>>, m: nat, n: nat)
    requires m <= n <= |walks|
    ensures StackOf(walks, m) <= StackOf(walks, n)
    decreases n
  {
    if m < n { StacksGrow(walks, m, n - 1); }
  }

  /** What stands at position `k` of the stack, which is in the walk of search `h`. */
  lemma {:induction false} StackFrom(walks: seq<seq<Id>>, h: nat, i: nat, k: nat)
    requires h <= i < |walks| && |StackOf(walks, h)| <= k < |StackOf(walks, h)| + |walks[h]|
    ensures k < |StackOf(walks, i + 1)|
    ensures StackOf(walks, i + 1)[k] == walks[h][k - |StackOf(walks, h)|]
    decreases i
  {
    if h < i { StackFrom(walks, h, i - 1, k); }
  }

  lemma PositionIsFirst(stack: seq<Id>, k: nat)
    requires IsRepeatFree(stack) && k < |stack|
    ensures FirstIndex(stack, stack[k]) == k
  {
    var first := FirstIndex(stack, stack[k]);
  }

  lemma {:induction false} SuffixIsWalkIff(adj: Graph, ids: seq<Id>, t: Trace, i: nat, h: nat, k: nat)
    requires IsTrace(adj, ids, t) && h <= i < |t.walks|
    requires |StackOf(t.walks, h)| <= k < |StackOf(t.walks, h)| + |t.walks[h]| && k < |StackOf(t.walks, i + 1)|
    ensures IsWalk(adj, StackOf(t.walks, i + 1)[k..]) <==> AreBridged(adj, t.walks, h, i)
    decreases i
  {
    assert IsStop(adj, ids, t, i);
    var below, walk := StackOf(t.walks, i), t.walks[i];
    if i == h {
      assert (below + walk)[k..] == walk[k - |below|..];
      SuffixIsWalk(adj, walk, k - |below|);
    } else {
      StackFrom(t.walks, h, i - 1, k);
      SuffixIsWalkIff(adj, ids, t, i - 1, h, k);
      assert (below + walk)[k..] == below[k..] + walk;
      JoinedWalk(adj, below[k..], walk);
      assert IsStop(adj, ids, t, i - 1);
      var last := t.walks[i - 1];
      assert below[|below| - 1] == last[|last| - 1];
      BridgesGrow(adj, t.walks, h, i);
    }
  }

  lemma BridgesGrow(adj: Graph, walks: seq<seq<Id>>, h: nat, i: nat)
    requires h < i < |walks|
    ensures AreBridged(adj, walks, h, i) <==> AreBridged(adj, walks, h, i - 1) && IsBridge(adj, walks, i - 1)
  {}

  /**
   * The errors are the missing dependencies, one by one in their order, followed
   * by a cycle report if and only if the graph has a cycle. The reports are those of a search whose trace
   * says of each exactly when it names a cycle of the graph; the first one does.
   */
  method ValidateDependencyGraph(rs: seq<Requirement>)
    returns (errors: seq<Error>, ghost adj: Graph, ghost trace: Trace)
    ensures forall e: Error :: e.MissingDependency? ==> (e in errors <==> IsMissing(rs, Ids(rs), e))
    ensures (exists i: nat :: IsFirstCycle(errors, i)) <==> !IsAcyclic(Dependencies(rs))
    ensures forall i: nat :: IsFirstCycle(errors, i) ==> IsCycle(Dependencies(rs), errors[i].path)
    ensures errors == [] <==> AllListed(rs) && IsAcyclic(Dependencies(rs))
    ensures IsRestriction(adj, Dependencies(rs)) && IsInOrder(adj, rs, Ids(rs))
    ensures IsTrace(adj, ListedIds(rs), trace) && AreDealtWith(ListedIds(rs), trace)
    ensures ReportsFollow(errors, trace) && errors == MissingOf(rs, Ids(rs)) + Reports(trace)
    ensures forall i: nat, h: nat :: ClosesIn(trace, i, h) ==>
              (IsCycle(Dependencies(rs), Reported(trace, i)) <==> AreBridged(Dependencies(rs), trace.walks, h, i))
  {
    var ids := CollectIds(rs);
    var graph, missing := BuildAdjacency(rs, ids);
    RestrictionIsClosed(graph, Dependencies(rs));
    errors, trace := FindCycles(graph, ids, missing);
    JudgeErrors(rs, graph, missing, trace);
    forall i: nat, h: nat | ClosesIn(trace, i, h)
      ensures IsCycle(Dependencies(rs), Reported(trace, i)) <==> AreBridged(Dependencies(rs), trace.walks, h, i)
    {
      ReportIsCycleInFullIff(graph, Dependencies(rs), ids, trace, i, h);
    }
    adj := graph;
  }

  /** After the missing dependencies come the reports of the trace. */
  predicate ReportsFollow(errors: seq<Error>, t: Trace) {
    && |t.walks| == |t.targets| <= |errors|
    && errors[|errors| - |t.walks|..] == Reports(t)
    && forall k :: 0 <= k < |errors| - |t.walks| ==> errors[k].MissingDependency?
  }

  /** The search from every id that is still white, and the reports it adds to the errors. */
  method FindCycles(adj: Graph, ids: seq<Id>, missing: seq<Error>) returns (errors: seq<Error>, ghost t: Trace)
    requires IsClosed(adj) && forall a :: a in ids <==> a in adj
    ensures IsTrace(adj, ids, t) && AreDealtWith(ids, t)
    ensures errors == missing + Reports(t)
  {
    var search := new Search(adj, missing);
    var i := 0;
    t := Trace([], [], [], []);
    while i < |ids|
      invariant i <= |ids| && fresh(search) && search.adj == adj && IsAt(search, ids, missing, i, t)
    {
      if search.color[ids[i]] == White {
        t := SearchFrom(search, ids, missing, i, t);
      } else {
        SkippingKeepsPlace(search, ids, missing, i, t);
      }
      i := i + 1;
    }
    assert ids[..|ids|] == ids;
    errors := search.errors;
  }

  /** The trace of the searches from the first `i` ids, and where they left the search. */
  ghost predicate IsAt(search: Search, ids: seq<Id>, missing: seq<Error>, i: nat, t: Trace)
    requires i <= |ids|
    reads search
  {
    && search.Valid() && (forall k :: 0 <= k < |ids| ==> ids[k] in search.adj)
    && IsTraceOf(search.adj, ids, i, t, search.stack, search.finished)
    && search.errors == missing + Reports(t)
  }

  ghost predicate IsTraceOf(adj: Graph, ids: seq<Id>, i: nat, t: Trace, stack: seq<Id>, finished: seq<Id>)
    requires i <= |ids|
  {
    && IsTrace(adj, ids, t) && AreDealtWith(ids[..i], t)
    && stack == StackOf(t.walks, |t.walks|) && finished == t.finished
    && (t.roots != [] ==> t.roots[|t.roots| - 1] < i)
  }

  method SearchFrom(search: Search, ids: seq<Id>, missing: seq<Error>, i: nat, ghost t0: Trace)
    returns (ghost t: Trace)
    requires i < |ids| && IsAt(search, ids, missing, i, t0) && search.color[ids[i]] == White
    modifies search
    ensures IsAt(search, ids, missing, i + 1, t)
  {
    var found;
    ghost var walk, target, below := [], ids[i], search.stack;
    found, walk, target := search.Dfs(ids[i]);
    assert IsColored(search.color, search.stack, search.finished, ids[i]);
    if found {
      StoppedFrom(search.adj, ids, i, t0, below, search.finished, walk, target);
      t := Stopping(t0.(finished := search.finished), i, walk, target);
    } else {
      FinishedFrom(search.adj, ids, i, t0, below, search.finished);
      t := t0.(finished := search.finished);
    }
  }

  lemma FinishedFrom(adj: Graph, ids: seq<Id>, i: nat, t: Trace, stack: seq<Id>, finished: seq<Id>)
    requires i < |ids| && IsTraceOf(adj, ids, i, t, stack, t.finished)
    requires t.finished <= finished && IsDependencyOrder(adj, finished)
    requires ids[i] in stack || ids[i] in finished
    ensures var after := t.(finished := finished);
      IsTraceOf(adj, ids, i + 1, after, stack, finished) && Reports(after) == Reports(t)
  {
    FinishingKeepsTrace(adj, ids, ids[..i], t, finished);
    OneMoreIsDealtWith(ids, i, t.(finished := finished));
  }

  lemma StoppedFrom(adj: Graph, ids: seq<Id>, i: nat, t: Trace, below: seq<Id>, finished: seq<Id>,
        walk: seq<Id>, target: Id)
    requires i < |ids| && IsTraceOf(adj, ids, i, t, below, t.finished)
    requires t.finished <= finished && IsDependencyOrder(adj, finished)
    requires IsAbandoned(adj, ids[i], walk, target) && target in below + walk && IsRepeatFree(below + walk)
    ensures var after := Stopping(t.(finished := finished), i, walk, target);
      && IsTraceOf(adj, ids, i + 1, after, below + walk, finished)
      && Reports(after) == Reports(t) + [DependencyCycle(LoopTo(below + walk, target))]
  {
    FinishingKeepsTrace(adj, ids, ids[..i], t, finished);
    StoppingKeepsTrace(adj, ids, t.(finished := finished), i, walk, target);
    assert walk[0] in below + walk;
    OneMoreIsDealtWith(ids, i, Stopping(t.(finished := finished), i, walk, target));
  }

  /** An id that is no longer white is on the stack or finished. */
  lemma SkippingKeepsPlace(search: Search, ids: seq<Id>, missing: seq<Error>, i: nat, t: Trace)
    requires i < |ids| && IsAt(search, ids, missing, i, t) && search.color[ids[i]] != White
    ensures IsAt(search, ids, missing, i + 1, t)
  {
    assert IsColored(search.color, search.stack, search.finished, ids[i]);
    OneMoreIsDealtWith(ids, i, t);
  }

  function Stopping(t: Trace, root: nat, walk: seq<Id>, target: Id): Trace {
    Trace(t.roots + [root], t.walks + [walk], t.targets + [target], t.finished)
  }

  lemma OneMoreIsDealtWith(ids: seq<Id>, i: nat, t: Trace)
    requires i < |ids| && AreDealtWith(ids[..i], t)
    requires ids[i] in StackOf(t.walks, |t.walks|) || ids[i] in t.finished
    ensures AreDealtWith(ids[..i + 1], t)
  {
    assert ids[..i + 1] == ids[..i] + [ids[i]];
  }

  lemma FinishingKeepsTrace(adj: Graph, ids: seq<Id>, done: seq<Id>, t: Trace, finished: seq<Id>)
    requires IsTrace(adj, ids, t) && t.finished <= finished && IsDependencyOrder(adj, finished)
    requires AreDealtWith(done, t)
    ensures var after := t.(finished := finished);
      IsTrace(adj, ids, after) && AreDealtWith(done, after) && Reports(after) == Reports(t)
  {
    var after := t.(finished := finished);
    forall j | 0 <= j < |t.walks| ensures IsStop(adj, ids, after, j) { assert IsStop(adj, ids, t, j); }
  }

  lemma {:induction false} StackOfPrefix(walks: seq<seq<Id>>, walk: seq<Id>, n: nat)
    requires n <= |walks|
    ensures StackOf(walks + [walk], n) == StackOf(walks, n)
  {
    if n > 0 { StackOfPrefix(walks, walk, n - 1); }
  }

  lemma StoppingKeepsTrace(adj: Graph, ids: seq<Id>, t: Trace, root: nat, walk: seq<Id>, target: Id)
    requires IsTrace(adj, ids, t) && root < |ids| && (t.roots != [] ==> t.roots[|t.roots| - 1] < root)
    requires IsAbandoned(adj, ids[root], walk, target) && AreDealtWith(ids[..root], t)
    requires var stack := StackOf(t.walks, |t.walks|) + walk; target in stack && IsRepeatFree(stack)
    ensures var after := Stopping(t, root, walk, target);
      && IsTrace(adj, ids, after)
      && StackOf(after.walks, |after.walks|) == StackOf(t.walks, |t.walks|) + walk
      && AreDealtWith(ids[..root], after)
      && Reports(after) == Reports(t) + [DependencyCycle(LoopTo(StackOf(t.walks, |t.walks|) + walk, target))]
  {
    StoppingReports(t, root, walk, target);
    var n, after := |t.walks|, Stopping(t, root, walk, target);
    StackOfPrefix(t.walks, walk, n);
    forall j | 0 <= j < |after.walks| ensures IsStop(adj, ids, after, j) {
      if j < n {
        assert IsStop(adj, ids, t, j);
        StackOfPrefix(t.walks, walk, j);
        StackOfPrefix(t.walks, walk, j + 1);
      } else {
        forall k | 0 <= k < root ensures ids[k] in StackOf(after.walks, n) || ids[k] in after.finished {
          assert ids[..root][k] in ids[..root];
        }
      }
    }
  }

  lemma StoppingReports(t: Trace, root: nat, walk: seq<Id>, target: Id)
    requires |t.walks| == |t.targets|
    ensures Reports(Stopping(t, root, walk, target)) ==
            Reports(t) + [DependencyCycle(LoopTo(StackOf(t.walks, |t.walks|) + walk, target))]
  {
    var after := Stopping(t, root, walk, target);
    StackOfPrefix(t.walks, walk, |t.walks|);
    forall i | 0 <= i < |t.walks| ensures Reports(after)[i] == Reports(t)[i] {
      StackOfPrefix(t.walks, walk, i + 1);
    }
  }

  /** The first report is a cycle, and without reports the finished nodes order the graph. */
  lemma TraceDecides(adj: Graph, ids: seq<Id>, t: Trace)
    requires IsTrace(adj, ids, t) && AreDealtWith(ids, t) && forall a :: a in ids <==> a in adj
    ensures t.walks == [] ==> IsAcyclic(adj)
    ensures t.walks != [] ==> IsCycle(adj, Reported(t, 0))
  {
    if t.walks == [] {
      OrderedMeansAcyclic(adj, t.finished);
    } else {
      assert IsStop(adj, ids, t, 0);
      var h := ReportClosesSomewhere(t.walks, 1, t.targets[0]);
      ReportIsCycleIff(adj, ids, t, 0, h);
    }
  }

  /** The same of the graph with all dependencies, listed or not. */
  lemma ReportIsCycleInFullIff(adj: Graph, full: Graph, ids: seq<Id>, t: Trace, i: nat, h: nat)
    requires IsRestriction(adj, full) && forall a :: a in ids ==> a in adj
    requires IsTrace(adj, ids, t) && ClosesIn(t, i, h)
    ensures IsCycle(full, Reported(t, i)) <==> AreBridged(full, t.walks, h, i)
  {
    ReportIsCycleIff(adj, ids, t, i, h);
    RestrictionHasSameCycles(adj, full, Reported(t, i));
    forall m | h <= m < i ensures IsBridge(full, t.walks, m) <==> IsBridge(adj, t.walks, m) {
      assert IsStop(adj, ids, t, m) && IsStop(adj, ids, t, m + 1);
      assert t.walks[m + 1][0] in ids;
      assert Edge(adj, t.walks[m][|t.walks[m]| - 1], t.walks[m + 1][0])
        <==> Edge(full, t.walks[m][|t.walks[m]| - 1], t.walks[m + 1][0]);
    }
  }

  lemma JudgeErrors(rs: seq<Requirement>, adj: Graph, missing: seq<Error>, t: Trace)
    requires IsRestriction(adj, Dependencies(rs))
    requires forall e :: e in missing <==> IsMissing(rs, Ids(rs), e)
    requires IsTrace(adj, ListedIds(rs), t) && AreDealtWith(ListedIds(rs), t)
    ensures var errors := missing + Reports(t);
      && (forall e: Error :: e.MissingDependency? ==> (e in errors <==> IsMissing(rs, Ids(rs), e)))
      && ((exists i: nat :: IsFirstCycle(errors, i)) <==> !IsAcyclic(Dependencies(rs)))
      && (forall i: nat :: IsFirstCycle(errors, i) ==> IsCycle(Dependencies(rs), errors[i].path))
      && (errors == [] <==> AllListed(rs) && IsAcyclic(Dependencies(rs)))
      && ReportsFollow(errors, t)
  {
    MissingAreReported(rs, missing, t);
    CyclesAreReported(rs, adj, missing, t);
    NothingIsReportedIff(rs, adj, missing, t);
  }

  lemma CyclesAreReported(rs: seq<Requirement>, adj: Graph, missing: seq<Error>, t: Trace)
    requires IsRestriction(adj, Dependencies(rs)) && forall e :: e in missing <==> IsMissing(rs, Ids(rs), e)
    requires IsTrace(adj, ListedIds(rs), t) && AreDealtWith(ListedIds(rs), t)
    ensures (exists i: nat :: IsFirstCycle(missing + Reports(t), i)) <==> !IsAcyclic(Dependencies(rs))
    ensures forall i: nat :: IsFirstCycle(missing + Reports(t), i) ==>
              IsCycle(Dependencies(rs), (missing + Reports(t))[i].path)
  {
    FirstCycleIsFirstReport(rs, missing, t);
    TraceDecidesInFull(rs, adj, t);
    if t.walks != [] { assert IsFirstCycle(missing + Reports(t), |missing|); }
  }

  lemma NothingIsReportedIff(rs: seq<Requirement>, adj: Graph, missing: seq<Error>, t: Trace)
    requires IsRestriction(adj, Dependencies(rs)) && forall e :: e in missing <==> IsMissing(rs, Ids(rs), e)
    requires IsTrace(adj, ListedIds(rs), t) && AreDealtWith(ListedIds(rs), t)
    ensures missing + Reports(t) == [] <==> AllListed(rs) && IsAcyclic(Dependencies(rs))
  {
    AllListedIff(rs, missing);
    TraceDecidesInFull(rs, adj, t);
    assert missing + Reports(t) == [] <==> missing == [] && t.walks == [];
  }

  lemma TraceDecidesInFull(rs: seq<Requirement>, adj: Graph, t: Trace)
    requires IsRestriction(adj, Dependencies(rs))
    requires IsTrace(adj, ListedIds(rs), t) && AreDealtWith(ListedIds(rs), t)
    ensures t.walks == [] <==> IsAcyclic(Dependencies(rs))
    ensures t.walks != [] ==> IsCycle(Dependencies(rs), Reported(t, 0))
  {
    TraceDecides(adj, ListedIds(rs), t);
    SameAcyclicity(adj, Dependencies(rs));
    if t.walks != [] { RestrictionHasSameCycles(adj, Dependencies(rs), Reported(t, 0)); }
  }

  lemma MissingAreReported(rs: seq<Requirement>, missing: seq<Error>, t: Trace)
    requires |t.walks| == |t.targets| && forall e :: e in missing <==> IsMissing(rs, Ids(rs), e)
    ensures forall e: Error :: e.MissingDependency? ==> (e in missing + Reports(t) <==> IsMissing(rs, Ids(rs), e))
    ensures ReportsFollow(missing + Reports(t), t)
  {
    forall j | 0 <= j < |missing| ensures missing[j].MissingDependency? { assert missing[j] in missing; }
  }

  lemma FirstCycleIsFirstReport(rs: seq<Requirement>, missing: seq<Error>, t: Trace)
    requires |t.walks| == |t.targets| && forall e :: e in missing <==> IsMissing(rs, Ids(rs), e)
    ensures forall i: nat :: IsFirstCycle(missing + Reports(t), i) <==> t.walks != [] && i == |missing|
    ensures t.walks != [] ==> (missing + Reports(t))[|missing|] == DependencyCycle(Reported(t, 0))
  {
    var errors := missing + Reports(t);
    forall j | 0 <= j < |missing| ensures errors[j].MissingDependency? { assert missing[j] in missing; }
    forall i: nat ensures IsFirstCycle(errors, i) <==> t.walks != [] && i == |missing| {
      if t.walks != [] { assert errors[|missing|].DependencyCycle?; }
    }
  }

  lemma SameAcyclicity(adj: Graph, full: Graph)
    requires IsRestriction(adj, full)
    ensures IsAcyclic(adj) <==> IsAcyclic(full)
  {
    forall p ensures IsCycle(adj, p) <==> IsCycle(full, p) { RestrictionHasSameCycles(adj, full, p); }
  }

  lemma AllListedIff(rs: seq<Requirement>, missing: seq<Error>)
    requires forall e :: e in missing <==> IsMissing(rs, Ids(rs), e)
    ensures missing == [] <==> AllListed(rs)
  {
    if missing != [] {
      assert missing[0] in missing;
    } else {
      forall i, d | 0 <= i < |rs| && d in rs[i].dependsOn ensures d in Ids(rs) {
        assert MissingDependency(rs[i].id, d) !in missing;
      }
    }
  }

  /** Without repeated ids the graph holds every requirement's own dependencies. */
  lemma {:induction false} DistinctIdsLoseNothing(rs: seq<Requirement>, i: nat)
    requires DistinctIds(rs) && i < |rs|
    ensures rs[i].id in Ids(rs) && Dependencies(rs)[rs[i].id] == rs[i].dependsOn
  {
    assert rs[i].id in Ids(rs);
    var k := LastIndex(rs, rs[i].id);
    assert k == i;
  }

  /** With a repeated id a requirement that depends on itself can go unnoticed. */
  lemma RepeatedIdHidesCycle(r: Requirement, later: Requirement)
    requires r.dependsOn == [r.id] && later.id == r.id && later.dependsOn == []
    ensures AllListed([r, later]) && IsAcyclic(Dependencies([r, later]))
  {
    var rs := [r, later];
    assert rs[0].id in Ids(rs);
    forall a | a in Ids(rs) ensures Dependencies(rs)[a] == [] { assert rs[1] == later; }
    forall p ensures !IsCycle(Dependencies(rs), p) {
      if |p| >= 2 { assert !Edge(Dependencies(rs), p[0], p[1]); }
    }
  }

  /** Two requirements, both of which depend on the first. */
  predicate DependOnFirst(rs: seq<Requirement>, a: Id, b: Id) {
    a != b && |rs| == 2 && rs[0].id == a && rs[1].id == b && rs[0].dependsOn == [a] && rs[1].dependsOn == [a]
  }

  /**
   * After the first report the search keeps its stack and its gray nodes, so a
   * later report can name a loop that is not in the graph.
   */
  method LaterReportIsSpurious(rs: seq<Requirement>, a: Id, b: Id) returns (errors: seq<Error>)
    requires DependOnFirst(rs, a, b)
    ensures errors == [DependencyCycle([a, a]), DependencyCycle([a, b, a])]
    ensures !IsCycle(Dependencies(rs), [a, b, a])
  {
    ghost var adj, trace;
    errors, adj, trace := ValidateDependencyGraph(rs);
    FirstGraph(rs, adj, a, b);
    SecondWalkIsCutOff(adj, a, b, trace);
    NothingIsMissing(rs, a, b, errors, |errors| - 2);
  }

  lemma FirstGraph(rs: seq<Requirement>, adj: Graph, a: Id, b: Id)
    requires DependOnFirst(rs, a, b) && IsRestriction(adj, Dependencies(rs))
    ensures ListedIds(rs) == [a, b] && Ids(rs) == {a, b}
    ensures forall x, y :: Edge(adj, x, y) <==> (x == a || x == b) && y == a
    ensures !IsCycle(Dependencies(rs), [a, b, a])
  {
    BothAreListed(rs, a, b);
    BothDependOnFirst(rs, a, b);
    assert !Edge(Dependencies(rs), [a, b, a][0], [a, b, a][1]);
  }

  lemma BothAreListed(rs: seq<Requirement>, a: Id, b: Id)
    requires DependOnFirst(rs, a, b)
    ensures ListedIds(rs) == [a, b] && Ids(rs) == {a, b}
  {
    assert rs[..1] == [rs[0]] && rs == [rs[0]] + [rs[1]];
    assert rs[0].id in Ids(rs) && rs[1].id in Ids(rs);
    assert rs[..1][..0] == [] && ListedIds(rs[..1]) == [a];
  }

  lemma BothDependOnFirst(rs: seq<Requirement>, a: Id, b: Id)
    requires DependOnFirst(rs, a, b) && Ids(rs) == {a, b}
    ensures forall x, y :: Edge(Dependencies(rs), x, y) <==> (x == a || x == b) && y == a
  {
    DistinctIdsLoseNothing(rs, 0);
    DistinctIdsLoseNothing(rs, 1);
  }

  /** Neither node is finished, so both searches stop, the second one on the stack of the first. */
  lemma SecondWalkIsCutOff(adj: Graph, a: Id, b: Id, t: Trace)
    requires a != b && forall x, y :: Edge(adj, x, y) <==> (x == a || x == b) && y == a
    requires IsTrace(adj, [a, b], t) && AreDealtWith([a, b], t)
    ensures Reports(t) == [DependencyCycle([a, a]), DependencyCycle([a, b, a])]
  {
    FirstWalkIsShort(adj, a, b, t);
    BothStop(adj, a, b, t);
    assert IsStop(adj, [a, b], t, 0) && IsStop(adj, [a, b], t, 1);
    var stack := StackOf(t.walks, 2);
    assert StackOf(t.walks, 1) == [a] && stack == [a] + t.walks[1];
    SecondWalkIsShort(adj, a, b, stack, t.walks[1]);
    assert stack == [a, b] && Reported(t, 0) == [a, a] && Reported(t, 1) == [a, b, a];
  }

  lemma FirstWalkIsShort(adj: Graph, a: Id, b: Id, t: Trace)
    requires a != b && forall x, y :: Edge(adj, x, y) <==> (x == a || x == b) && y == a
    requires IsTrace(adj, [a, b], t) && AreDealtWith([a, b], t)
    ensures |t.walks| > 0 && t.roots[0] == 0 && t.walks[0] == [a]
  {
    NeverFinished(adj, a, b, t.finished);
    SomeSearchStops([a, b], t, a);
    FirstRootIsFirst(adj, [a, b], t);
    FirstWalkIsStack(adj, [a, b], t);
    SecondOfWalk(adj, a, t.walks[0]);
  }

  lemma SomeSearchStops(ids: seq<Id>, t: Trace, a: Id)
    requires AreDealtWith(ids, t) && a in ids && a !in t.finished
    ensures |t.walks| > 0
  {
    var h := ReportClosesSomewhere(t.walks, |t.walks|, a);
  }

  lemma FirstRootIsFirst(adj: Graph, ids: seq<Id>, t: Trace)
    requires IsTrace(adj, ids, t) && |t.walks| > 0 && ids != [] && ids[0] !in t.finished
    ensures t.roots[0] == 0
  {
    assert IsStop(adj, ids, t, 0);
    assert StackOf(t.walks, 0) == [];
  }

  lemma FirstWalkIsStack(adj: Graph, ids: seq<Id>, t: Trace)
    requires IsTrace(adj, ids, t) && |t.walks| > 0 && ids != [] && t.roots[0] == 0
    ensures IsWalk(adj, t.walks[0]) && t.walks[0] != [] && t.walks[0][0] == ids[0] && IsRepeatFree(t.walks[0])
  {
    assert IsStop(adj, ids, t, 0);
    FirstWalkIsBelow(t.walks);
  }

  lemma FirstWalkIsBelow(walks: seq<seq<Id>>)
    requires walks != []
    ensures walks[0] <= StackOf(walks, |walks|)
  {
    assert StackOf(walks, 1) == walks[0];
    StacksGrow(walks, 1, |walks|);
  }

  lemma BothStop(adj: Graph, a: Id, b: Id, t: Trace)
    requires a != b && forall x, y :: Edge(adj, x, y) <==> (x == a || x == b) && y == a
    requires IsTrace(adj, [a, b], t) && AreDealtWith([a, b], t)
    requires |t.walks| > 0 && t.roots[0] == 0 && t.walks[0] == [a]
    ensures |t.walks| == 2 && t.roots[1] == 1
  {
    NeverFinished(adj, a, b, t.finished);
    assert b in [a, b];
    var g := ReportClosesSomewhere(t.walks, |t.walks|, b);
    assert g > 0;
    RootsGrow(adj, [a, b], t, 1);
    if |t.walks| > 2 { RootsGrow(adj, [a, b], t, 2); }
  }

  lemma {:induction false} RootsGrow(adj: Graph, ids: seq<Id>, t: Trace, j: nat)
    requires IsTrace(adj, ids, t) && j < |t.walks|
    ensures j <= t.roots[j] < |ids|
  {
    assert IsStop(adj, ids, t, j);
    if j > 0 { RootsGrow(adj, ids, t, j - 1); }
  }

  lemma NeverFinished(adj: Graph, a: Id, b: Id, order: seq<Id>)
    requires IsDependencyOrder(adj, order) && Edge(adj, a, a) && Edge(adj, b, a)
    ensures a !in order && b !in order
  {
    FinishedAfterDependency(adj, order, a, a);
    FinishedAfterDependency(adj, order, b, a);
  }

  lemma FinishedAfterDependency(adj: Graph, order: seq<Id>, b: Id, a: Id)
    requires IsDependencyOrder(adj, order) && Edge(adj, b, a)
    ensures b in order ==> a in order[..FirstIndex(order, b)]
  {
    if b in order { assert DependsEarlier(adj, order, FirstIndex(order, b)); }
  }

  lemma SecondOfWalk(adj: Graph, a: Id, walk: seq<Id>)
    requires IsWalk(adj, walk) && forall x, y :: Edge(adj, x, y) ==> y == a
    ensures |walk| > 1 ==> walk[1] == a
  {
    if |walk| > 1 { assert Edge(adj, walk[0], walk[0 + 1]); }
  }

  lemma SecondWalkIsShort(adj: Graph, a: Id, b: Id, stack: seq<Id>, walk: seq<Id>)
    requires stack == [a] + walk && IsRepeatFree(stack) && walk != [] && walk[0] == b && IsWalk(adj, walk)
    requires forall x, y :: Edge(adj, x, y) ==> y == a
    ensures walk == [b]
  {
    forall i | 0 <= i < |walk| ensures walk[i] != a { assert stack[i + 1] != stack[0]; }
    SecondOfWalk(adj, a, walk);
  }

  lemma NothingIsMissing(rs: seq<Requirement>, a: Id, b: Id, errors: seq<Error>, n: int)
    requires DependOnFirst(rs, a, b) && 0 <= n <= |errors|
    requires forall e: Error :: e.MissingDependency? ==> (e in errors <==> IsMissing(rs, Ids(rs), e))
    requires forall k :: 0 <= k < n ==> errors[k].MissingDependency?
    ensures n == 0
  {
    if n > 0 {
      var e := errors[0];
      IsNotMissing(rs, a, b, e);
      assert false;
    }
  }

  lemma IsNotMissing(rs: seq<Requirement>, a: Id, b: Id, e: Error)
    requires DependOnFirst(rs, a, b)
    ensures !IsMissing(rs, Ids(rs), e)
  {
    assert rs[0].id in Ids(rs);
  }

  // ---------------------------------------------------------------------
  // validateTaskDocument
  // ---------------------------------------------------------------------

  datatype RunMode = Fresh | Resumable | Complete

  predicate AllPass(rs: seq<Requirement>) { forall i :: 0 <= i < |rs| ==> rs[i].passes }

  predicate NonePass(rs: seq<Requirement>) { forall i :: 0 <= i < |rs| ==> !rs[i].passes }

  method DeriveRunMode(rs: seq<Requirement>) returns (mode: RunMode)
    ensures mode == Complete <==> rs != [] && AllPass(rs)
    ensures mode == Fresh <==> NonePass(rs)
  {
    if |rs| == 0 { return Fresh; }
    var anyPass, allPass := false, true;
    for i := 0 to |rs|
      invariant anyPass <==> !NonePass(rs[..i])
      invariant allPass <==> AllPass(rs[..i])
    {
      assert rs[..i + 1] == rs[..i] + [rs[i]];
      assert rs[..i + 1][i] == rs[i];
      if rs[i].passes { anyPass := true; } else { allPass := false; }
    }
    assert rs[..|rs|] == rs;
    if allPass {
      assert rs[0].passes;
      return Complete;
    }
    mode := if anyPass then Resumable else Fresh;
  }

  /** What an accepted document guarantees. */
  ghost predicate IsSound(rs: seq<Requirement>) {
    rs != [] && DistinctIds(rs) && AllListed(rs) && IsAcyclic(Dependencies(rs))
  }

  /** The id of each requirement whose id was listed before. */
  function Repeats(rs: seq<Requirement>): seq<Id> {
    if rs == [] then []
    else
      var init, last := rs[..|rs| - 1], rs[|rs| - 1];
      Repeats(init) + if last.id in Ids(init) then [last.id] else []
  }

  method FindRepeatedIds(rs: seq<Requirement>) returns (repeated: seq<Id>)
    ensures repeated == Repeats(rs) && |repeated| == |rs| - |Ids(rs)|
    ensures repeated == [] <==> DistinctIds(rs)
  {
    var seen: set<Id> := {};
    repeated := [];
    for i := 0 to |rs|
      invariant seen == Ids(rs[..i])
      invariant repeated == Repeats(rs[..i])
      invariant repeated == [] <==> DistinctIds(rs[..i])
    {
      assert rs[..i + 1] == rs[..i] + [rs[i]] && rs[..i + 1][..i] == rs[..i];
      IdsGrow(rs[..i], rs[i]);
      RepeatIsSeen(rs[..i], rs[i]);
      if rs[i].id in seen { repeated := repeated + [rs[i].id]; }
      seen := seen + {rs[i].id};
    }
    assert rs[..|rs|] == rs;
    RepeatsAreTheRest(rs);
  }

  lemma {:induction false} RepeatsAreTheRest(rs: seq<Requirement>)
    ensures |Repeats(rs)| == |rs| - |Ids(rs)|
  {
    if rs != [] {
      var init, last := rs[..|rs| - 1], rs[|rs| - 1];
      RepeatsAreTheRest(init);
      IdsGrow(init, last);
      assert init + [last] == rs;
      AddingOne(Ids(init), last.id);
    }
  }

  lemma AddingOne(ids: set<Id>, a: Id)
    ensures |ids + {a}| == |ids| + if a in ids then 0 else 1
  {
    if a in ids { assert ids + {a} == ids; }
  }

  lemma RepeatIsSeen(rs: seq<Requirement>, r: Requirement)
    ensures DistinctIds(rs + [r]) <==> DistinctIds(rs) && r.id !in Ids(rs)
  {
    var more := rs + [r];
    assert forall i :: 0 <= i < |rs| ==> more[i] == rs[i];
    assert more[|rs|] == r;
    if r.id in Ids(rs) {
      var i :| 0 <= i < |rs| && rs[i].id == r.id;
      assert more[i].id == more[|rs|].id;
    }
    if DistinctIds(more) {
      forall i, j | 0 <= i < j < |rs| ensures rs[i].id != rs[j].id { assert more[i].id != more[j].id; }
    }
  }

  /** `otherErrors` is whether the document's other fields or the shape of a requirement were faulted. */
  method ValidateTaskDocument(rs: seq<Requirement>, otherErrors: bool) returns (ok: bool, mode: RunMode)
    ensures ok <==> !otherErrors && IsSound(rs)
    ensures ok ==> (mode == Complete <==> AllPass(rs)) && (mode == Fresh <==> NonePass(rs))
  {
    var repeated := FindRepeatedIds(rs);
    var faults;
    ghost var adj, trace;
    faults, adj, trace := ValidateDependencyGraph(rs);
    ok := !otherErrors && repeated == [] && |rs| > 0 && faults == [];
    mode := DeriveRunMode(rs);
  }

  // ---------------------------------------------------------------------
  // An accepted task never deadlocks
  // ---------------------------------------------------------------------

  /** The progress observer's test: every dependency is among the requirements that pass. */
  predicate IsReady(rs: seq<Requirement>, r: Requirement) {
    forall d :: d in r.dependsOn ==> exists i :: 0 <= i < |rs| && rs[i].id == d && rs[i].passes
  }

  ghost predicate IsUnpassed(rs: seq<Requirement>, a: Id) {
    exists i :: 0 <= i < |rs| && rs[i].id == a && !rs[i].passes
  }

  ghost predicate IsDeadlocked(rs: seq<Requirement>) {
    forall i :: 0 <= i < |rs| && !rs[i].passes ==> !IsReady(rs, rs[i])
  }

  lemma DeadlockedWaitsForUnpassed(rs: seq<Requirement>, a: Id) returns (b: Id)
    requires IsSound(rs) && IsDeadlocked(rs) && IsUnpassed(rs, a)
    ensures Edge(Dependencies(rs), a, b) && IsUnpassed(rs, b)
  {
    var i :| 0 <= i < |rs| && rs[i].id == a && !rs[i].passes;
    DistinctIdsLoseNothing(rs, i);
    assert !IsReady(rs, rs[i]);
    b :| b in rs[i].dependsOn && !exists j :: 0 <= j < |rs| && rs[j].id == b && rs[j].passes;
    assert b in Ids(rs);
    var j :| 0 <= j < |rs| && rs[j].id == b;
    assert !rs[j].passes;
  }

  lemma {:induction false} DeadlockedWalk(rs: seq<Requirement>, a: Id, n: nat) returns (p: seq<Id>)
    requires IsSound(rs) && IsDeadlocked(rs) && IsUnpassed(rs, a)
    ensures |p| == n + 1 && IsWalk(Dependencies(rs), p) && forall i :: 0 <= i < |p| ==> IsUnpassed(rs, p[i])
  {
    if n == 0 {
      p := [a];
    } else {
      p := DeadlockedWalk(rs, a, n - 1);
      var b := DeadlockedWaitsForUnpassed(rs, p[|p| - 1]);
      JoinedWalk(Dependencies(rs), p, [b]);
      p := p + [b];
    }
  }

  lemma {:induction false} Pigeonhole(p: seq<Id>, s: set<Id>) returns (i: nat, j: nat)
    requires |p| > |s| && forall k :: 0 <= k < |p| ==> p[k] in s
    ensures i < j < |p| && p[i] == p[j]
    decreases |p|
  {
    if k :| 0 < k < |p| && p[k] == p[0] {
      i, j := 0, k;
    } else {
      assert p[0] in s;
      forall k | 0 <= k < |p[1..]| ensures p[1..][k] in s - {p[0]} { assert p[k + 1] in s; }
      i, j := Pigeonhole(p[1..], s - {p[0]});
      i, j := i + 1, j + 1;
    }
  }

  /** Whatever passes so far, some requirement that does not pass yet is ready to be worked on. */
  lemma AcceptedNeverDeadlocks(rs: seq<Requirement>)
    requires IsSound(rs) && !AllPass(rs)
    ensures exists i :: 0 <= i < |rs| && !rs[i].passes && IsReady(rs, rs[i])
  {
    if IsDeadlocked(rs) {
      var k :| 0 <= k < |rs| && !rs[k].passes;
      var p := DeadlockedWalk(rs, rs[k].id, |Ids(rs)|);
      forall m | 0 <= m < |p| ensures p[m] in Ids(rs) { assert IsUnpassed(rs, p[m]); }
      var i, j := Pigeonhole(p, Ids(rs));
      RepetitionClosesCycle(Dependencies(rs), p, i, j);
      assert false;
    }
  }

  lemma RepetitionClosesCycle(adj: Graph, p: seq<Id>, i: nat, j: nat)
    requires IsWalk(adj, p) && i < j < |p| && p[i] == p[j]
    ensures IsCycle(adj, p[i..j + 1])
  {
    var loop := p[i..j + 1];
    forall m | 0 <= m < |loop| - 1 ensures Edge(adj, loop[m], loop[m + 1]) { assert Edge(adj, p[i + m], p[i + m + 1]); }
  }
}
