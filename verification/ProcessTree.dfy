// Descendants of a process: getAllDescendants in apps/worker/src/process/process-tree.ts.
//
// The child relation is what /proc answers; it is fixed for the traversal and
// may hold cycles and repeats.
module ProcessTree {
  type Pid = int
  type Children = map<Pid, seq<Pid>>

  function ChildrenOf(c: Children, p: Pid): seq<Pid> { if p in c then c[p] else [] }

  /** `p` is at most `n` generations below the root. */
  ghost predicate IsWithin(c: Children, root: Pid, n: nat, p: Pid) {
    if n == 0 then p == root
    else IsWithin(c, root, n - 1, p) || exists q :: IsWithin(c, root, n - 1, q) && p in ChildrenOf(c, q)
  }

  ghost predicate IsReachable(c: Children, root: Pid, p: Pid) { exists n: nat :: IsWithin(c, root, n, p) }

  /** `a` is no further from the root than `b`. */
  ghost predicate IsNoFurther(c: Children, root: Pid, a: Pid, b: Pid) {
    forall n: nat :: IsWithin(c, root, n, b) ==> IsWithin(c, root, n, a)
  }

  lemma {:induction false} WithinGrows(c: Children, root: Pid, m: nat, n: nat, p: Pid)
    requires m <= n && IsWithin(c, root, m, p)
    ensures IsWithin(c, root, n, p)
    decreases n
  {
    if m < n { WithinGrows(c, root, m, n - 1, p); }
  }

  // ---------------------------------------------------------------------
  // The state of the traversal
  // ---------------------------------------------------------------------

  /** `p` is exactly `d` generations below the root. */
  ghost predicate IsExact(c: Children, root: Pid, p: Pid, d: nat) {
    IsWithin(c, root, d, p) && (d > 0 ==> !IsWithin(c, root, d - 1, p))
  }

  predicate IsLater(order: seq<Pid>, dist: seq<nat>, i: nat, j: nat)
    requires i < j < |order| == |dist|
  {
    order[i] != order[j] && dist[i] <= dist[j]
  }

  /** The root and the descendants found so far, by distance, none twice. */
  ghost predicate IsByDistance(c: Children, root: Pid, order: seq<Pid>, dist: seq<nat>) {
    && |order| == |dist| > 0 && order[0] == root
    && (forall i, j {:trigger IsLater(order, dist, i, j)} :: 0 <= i < j < |order| ==> IsLater(order, dist, i, j))
    && (forall i {:trigger IsExact(c, root, order[i], dist[i])} :: 0 <= i < |order| ==>
          IsExact(c, root, order[i], dist[i]))
  }

  ghost predicate IsExpanded(c: Children, order: seq<Pid>, i: nat)
    requires i < |order|
  {
    forall q :: q in ChildrenOf(c, order[i]) ==> q in order
  }

  /** The first `h` have been expanded. */
  ghost predicate AreExpanded(c: Children, order: seq<Pid>, h: nat) {
    h <= |order| && forall i {:trigger IsExpanded(c, order, i)} :: 0 <= i < h ==> IsExpanded(c, order, i)
  }

  /** Everything within `n` generations has been found. */
  ghost predicate IsComplete(c: Children, root: Pid, order: seq<Pid>, n: nat) {
    forall p {:trigger IsFound(c, root, order, n, p)} :: IsFound(c, root, order, n, p)
  }

  ghost predicate IsFound(c: Children, root: Pid, order: seq<Pid>, n: nat, p: Pid) {
    IsWithin(c, root, n, p) ==> p in order
  }

  /** Nothing as near as the next to be expanded is missing, and nothing is further than one generation beyond it. */
  ghost predicate IsFrontier(c: Children, root: Pid, order: seq<Pid>, dist: seq<nat>, h: nat) {
    |order| == |dist| && (h < |order| ==>
      && IsComplete(c, root, order, dist[h])
      && (forall i :: 0 <= i < |dist| ==> dist[i] <= dist[h] + 1))
  }

  /** A child of the process being expanded that was not known is one generation further. */
  lemma DiscoveryIsExact(c: Children, root: Pid, order: seq<Pid>, dist: seq<nat>, h: nat, q: Pid)
    requires IsByDistance(c, root, order, dist) && h < |order| && IsFrontier(c, root, order, dist, h)
    requires q in ChildrenOf(c, order[h]) && q !in order
    ensures IsByDistance(c, root, order + [q], dist + [dist[h] + 1])
    ensures IsFrontier(c, root, order + [q], dist + [dist[h] + 1], h)
  {
    assert IsExact(c, root, order[h], dist[h]);
    ChildIsNext(c, root, order, dist, h, q);
    AppendingIsByDistance(c, root, order, dist, q, dist[h] + 1);
    AppendingKeepsFrontier(c, root, order, dist, h, q);
  }

  lemma AppendingIsByDistance(c: Children, root: Pid, order: seq<Pid>, dist: seq<nat>, q: Pid, d: nat)
    requires IsByDistance(c, root, order, dist) && q !in order && IsExact(c, root, q, d)
    requires forall i :: 0 <= i < |dist| ==> dist[i] <= d
    ensures IsByDistance(c, root, order + [q], dist + [d])
  {
    var longer, further := order + [q], dist + [d];
    forall i | 0 <= i < |longer| ensures IsExact(c, root, longer[i], further[i]) {
      if i < |order| { assert IsExact(c, root, order[i], dist[i]); }
    }
    forall i, j | 0 <= i < j < |longer| ensures IsLater(longer, further, i, j) {
      if j < |order| { assert IsLater(order, dist, i, j); } else { assert order[i] in order; }
    }
  }

  lemma AppendingKeepsFrontier(c: Children, root: Pid, order: seq<Pid>, dist: seq<nat>, h: nat, q: Pid)
    requires h < |order| && IsFrontier(c, root, order, dist, h)
    ensures IsFrontier(c, root, order + [q], dist + [dist[h] + 1], h)
  {
    var longer := order + [q];
    forall p ensures IsFound(c, root, longer, dist[h], p) { assert IsFound(c, root, order, dist[h], p); }
  }

  lemma ChildIsNext(c: Children, root: Pid, order: seq<Pid>, dist: seq<nat>, h: nat, q: Pid)
    requires h < |order| == |dist| && IsExact(c, root, order[h], dist[h])
    requires IsComplete(c, root, order, dist[h])
    requires q in ChildrenOf(c, order[h]) && q !in order
    ensures IsExact(c, root, q, dist[h] + 1)
  {
    assert IsWithin(c, root, dist[h], order[h]) && IsFound(c, root, order, dist[h], q);
  }

  /** When a generation has been expanded, the next one is complete. */
  lemma FrontierAdvances(c: Children, root: Pid, order: seq<Pid>, dist: seq<nat>, h: nat)
    requires IsByDistance(c, root, order, dist) && h < |order| && IsFrontier(c, root, order, dist, h)
    requires AreExpanded(c, order, h + 1)
    ensures IsFrontier(c, root, order, dist, h + 1)
  {
    if h + 1 < |order| { assert IsLater(order, dist, h, h + 1); }
    if h + 1 < |order| && dist[h + 1] != dist[h] {
      var d, next := dist[h], dist[h + 1];
      forall p ensures IsFound(c, root, order, next, p) {
        assert IsFound(c, root, order, d, p);
        if IsWithin(c, root, next, p) && !IsWithin(c, root, d, p) {
          var parent :| IsWithin(c, root, d, parent) && p in ChildrenOf(c, parent);
          var i := NearIsExpanded(c, root, order, dist, h, parent);
          assert IsExpanded(c, order, i);
        }
      }
    }
  }

  lemma NearIsExpanded(c: Children, root: Pid, order: seq<Pid>, dist: seq<nat>, h: nat, p: Pid) returns (i: nat)
    requires IsByDistance(c, root, order, dist) && h + 1 < |order| && IsFrontier(c, root, order, dist, h)
    requires dist[h + 1] == dist[h] + 1 && IsWithin(c, root, dist[h], p)
    ensures i <= h && order[i] == p
  {
    assert IsFound(c, root, order, dist[h], p);
    i :| 0 <= i < |order| && order[i] == p;
    assert IsExact(c, root, order[i], dist[i]);
    if i > h {
      assert i > h + 1 ==> IsLater(order, dist, h + 1, i);
      WithinGrows(c, root, dist[h], dist[i] - 1, p);
      assert false;
    }
  }

  lemma {:induction false} ExpandedIsEverything(c: Children, root: Pid, order: seq<Pid>, n: nat, p: Pid)
    requires root in order && AreExpanded(c, order, |order|) && IsWithin(c, root, n, p)
    ensures p in order
  {
    if n > 0 && !IsWithin(c, root, n - 1, p) {
      var parent :| IsWithin(c, root, n - 1, parent) && p in ChildrenOf(c, parent);
      ExpandedIsEverything(c, root, order, n - 1, parent);
      var i :| 0 <= i < |order| && order[i] == parent;
      assert IsExpanded(c, order, i);
    } else if n > 0 {
      ExpandedIsEverything(c, root, order, n - 1, p);
    }
  }

  lemma NearerFirst(c: Children, root: Pid, order: seq<Pid>, dist: seq<nat>, i: nat, j: nat)
    requires IsByDistance(c, root, order, dist) && i < j < |order|
    ensures IsNoFurther(c, root, order[i], order[j])
  {
    forall n: nat | IsWithin(c, root, n, order[j]) ensures IsWithin(c, root, n, order[i]) {
      assert IsExact(c, root, order[i], dist[i]) && IsExact(c, root, order[j], dist[j]) && IsLater(order, dist, i, j);
      if n < dist[j] {
        WithinGrows(c, root, n, dist[j] - 1, order[j]);
        assert false;
      }
      WithinGrows(c, root, dist[i], n, order[i]);
    }
  }

  // ---------------------------------------------------------------------
  // Termination
  // ---------------------------------------------------------------------

  /** Every process the relation mentions, and the root. */
  ghost function Mentioned(c: Children, root: Pid): set<Pid> {
    {root} + set p, q | p in c && q in c[p] :: q
  }

  lemma {:induction false} RepeatFreeIsSmall(s: seq<Pid>, all: set<Pid>)
    requires (forall i, j :: 0 <= i < j < |s| ==> s[i] != s[j]) && forall p :: p in s ==> p in all
    ensures |s| <= |all|
    decreases |s|
  {
    if s != [] {
      var last := s[|s| - 1];
      forall p | p in s[..|s| - 1] ensures p in all - {last} {
        var i :| 0 <= i < |s| - 1 && s[i] == p;
      }
      RepeatFreeIsSmall(s[..|s| - 1], all - {last});
    }
  }

  lemma ByDistanceIsSmall(c: Children, root: Pid, order: seq<Pid>, dist: seq<nat>)
    requires IsByDistance(c, root, order, dist) && forall p :: p in order ==> p in Mentioned(c, root)
    ensures |order| <= |Mentioned(c, root)|
  {
    forall i, j | 0 <= i < j < |order| ensures order[i] != order[j] { assert IsLater(order, dist, i, j); }
    RepeatFreeIsSmall(order, Mentioned(c, root));
  }

  // ---------------------------------------------------------------------
  // The traversal
  // ---------------------------------------------------------------------

  /**
   * Every process reachable from the root, the root excluded, exactly once and
   * in non-decreasing distance from it.
   */
  method GetAllDescendants(root: Pid, c: Children) returns (result: seq<Pid>)
    ensures forall p :: p in result <==> p != root && IsReachable(c, root, p)
    ensures forall i, j :: 0 <= i < j < |result| ==> result[i] != result[j]
    ensures forall i, j :: 0 <= i < j < |result| ==> IsNoFurther(c, root, result[i], result[j])
  {
    result := [];
    var queue := [root];
    ghost var dist: seq<nat> := [0];
    ghost var h := 0;
    while |queue| > 0
      invariant h <= |result| + 1 && queue == ([root] + result)[h..]
      invariant IsByDistance(c, root, [root] + result, dist) && IsFrontier(c, root, [root] + result, dist, h)
      invariant AreExpanded(c, [root] + result, h)
      invariant forall p :: p in result ==> p in Mentioned(c, root)
      invariant h <= |Mentioned(c, root)|
      decreases |Mentioned(c, root)| - h
    {
      var current := queue[0];
      queue := queue[1..];
      assert ([root] + result)[h] == current;
      queue, result, dist := Expand(root, c, current, queue, result, dist, h);
      FrontierAdvances(c, root, [root] + result, dist, h);
      h := h + 1;
      ByDistanceIsSmall(c, root, [root] + result, dist);
    }
    Summarize(root, c, result, dist);
  }

  /** The inner loop: the unknown children of one process join the queue and the result. */
  method Expand(root: Pid, c: Children, current: Pid, queue0: seq<Pid>, result0: seq<Pid>, ghost dist0: seq<nat>,
        ghost h: nat)
    returns (queue: seq<Pid>, result: seq<Pid>, ghost dist: seq<nat>)
    requires h < |result0| + 1 && ([root] + result0)[h] == current && queue0 == ([root] + result0)[h + 1..]
    requires IsByDistance(c, root, [root] + result0, dist0) && IsFrontier(c, root, [root] + result0, dist0, h)
    requires AreExpanded(c, [root] + result0, h)
    requires forall p :: p in result0 ==> p in Mentioned(c, root)
    ensures result0 <= result && queue == ([root] + result)[h + 1..]
    ensures IsByDistance(c, root, [root] + result, dist) && IsFrontier(c, root, [root] + result, dist, h)
    ensures AreExpanded(c, [root] + result, h + 1)
    ensures forall p :: p in result ==> p in Mentioned(c, root)
  {
    queue, result, dist := queue0, result0, dist0;
    var children := ChildrenOf(c, current);
    for k := 0 to |children|
      invariant result0 <= result && queue == ([root] + result)[h + 1..] && ([root] + result)[h] == current
      invariant IsByDistance(c, root, [root] + result, dist) && IsFrontier(c, root, [root] + result, dist, h)
      invariant forall m :: 0 <= m < k ==> children[m] in [root] + result
      invariant forall p :: p in result ==> p in Mentioned(c, root)
    {
      var child := children[k];
      if child !in result && child != root {
        DiscoveryIsExact(c, root, [root] + result, dist, h, child);
        assert [root] + (result + [child]) == ([root] + result) + [child];
        dist := dist + [dist[h] + 1];
        result := result + [child];
        queue := queue + [child];
      }
    }
    ExpansionSurvives(c, [root] + result0, [root] + result, h);
    assert IsExpanded(c, [root] + result, h);
  }

  lemma ExpansionSurvives(c: Children, before: seq<Pid>, after: seq<Pid>, h: nat)
    requires before <= after && AreExpanded(c, before, h)
    ensures AreExpanded(c, after, h)
  {
    forall i | 0 <= i < h ensures IsExpanded(c, after, i) {
      assert IsExpanded(c, before, i) && after[i] == before[i];
    }
  }

  lemma Summarize(root: Pid, c: Children, result: seq<Pid>, dist: seq<nat>)
    requires IsByDistance(c, root, [root] + result, dist) && AreExpanded(c, [root] + result, |result| + 1)
    ensures forall p :: p in result <==> p != root && IsReachable(c, root, p)
    ensures forall i, j :: 0 <= i < j < |result| ==> result[i] != result[j]
    ensures forall i, j :: 0 <= i < j < |result| ==> IsNoFurther(c, root, result[i], result[j])
  {
    var order := [root] + result;
    forall i, j | 0 <= i < j < |result|
      ensures result[i] != result[j] && IsNoFurther(c, root, result[i], result[j])
    {
      assert order[i + 1] == result[i] && order[j + 1] == result[j] && IsLater(order, dist, i + 1, j + 1);
      NearerFirst(c, root, order, dist, i + 1, j + 1);
    }
    forall p ensures p in result <==> p != root && IsReachable(c, root, p) {
      if p in result {
        var i :| 0 <= i < |result| && result[i] == p;
        assert order[i + 1] == p && order[0] == root && IsLater(order, dist, 0, i + 1);
        assert IsExact(c, root, order[i + 1], dist[i + 1]);
      }
      if p != root && IsReachable(c, root, p) {
        var n: nat :| IsWithin(c, root, n, p);
        ExpandedIsEverything(c, root, order, n, p);
      }
    }
  }
}
