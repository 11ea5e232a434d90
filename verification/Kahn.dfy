/** Kahn's algorithm over the component graph, with the ready list kept in component-name order. */
module Kahn {
  import opened Graphs
  import opened Ordering

  ghost function Elements(s: seq<nat>): set<nat> {
    set x | x in s
  }

  /** Predecessors of c that are not yet in `done`. */
  ghost function Pending(edges: set<(nat, nat)>, done: set<nat>, c: nat): set<nat> {
    set e | e in edges && e.1 == c && e.0 !in done :: e.0
  }

  function Head(heads: seq<NodeId>, c: nat): NodeId {
    if c < |heads| then heads[c] else ""
  }

  function ByHead(heads: seq<NodeId>): (nat, nat) -> bool {
    (a: nat, b: nat) => StrLess(Head(heads, a), Head(heads, b))
  }

  function Targets(adjacency: map<nat, seq<nat>>, c: nat): seq<nat> {
    if c in adjacency then adjacency[c] else []
  }

  /** `adjacency` lists each successor once, and `edges` stays within the first n vertices. */
  ghost predicate Adjacent(edges: set<(nat, nat)>, n: nat, adjacency: map<nat, seq<nat>>) {
    && (forall p, c :: (p, c) in edges ==> p < n && c < n)
    && (forall p: nat, c :: c in Targets(adjacency, p) <==> (p, c) in edges)
    && (forall p: nat :: NoDuplicates(Targets(adjacency, p)))
  }

  ghost predicate IsReady(edges: set<(nat, nat)>, n: nat, done: set<nat>, c: nat) {
    c < n && c !in done && Pending(edges, done, c) == {}
  }

  /** Every vertex comes after all of its predecessors. */
  ghost predicate Topological(edges: set<(nat, nat)>, order: seq<nat>) {
    forall i, p :: 0 <= i < |order| && (p, order[i]) in edges ==> p in order[..i]
  }

  /** At each position the ready vertex with the smallest name is taken. */
  ghost predicate LeastReadyFirst(edges: set<(nat, nat)>, heads: seq<NodeId>, order: seq<nat>) {
    forall i, c :: 0 <= i < |order| && IsReady(edges, |heads|, Elements(order[..i]), c) ==>
                     !StrLess(Head(heads, c), Head(heads, order[i]))
  }

  ghost predicate Degrees(edges: set<(nat, nat)>, n: nat, done: set<nat>, indegree: seq<int>) {
    |indegree| == n && forall c :: 0 <= c < n ==> indegree[c] == |Pending(edges, done, c)|
  }

  lemma ByHeadIsOrder(heads: seq<NodeId>)
    ensures StrictWeakOrder(ByHead(heads))
  {
    StrLessIsTotalOrder();
    hide StrLess;
  }

  /** Completing `current` removes it from the pending set of each of its successors, and of nothing else. */
  lemma PendingAfter(edges: set<(nat, nat)>, done: set<nat>, current: nat, c: nat)
    requires current !in done
    ensures (current, c) in edges ==> |Pending(edges, done + {current}, c)| == |Pending(edges, done, c)| - 1
    ensures (current, c) !in edges ==> Pending(edges, done + {current}, c) == Pending(edges, done, c)
  {
    if (current, c) in edges {
      assert current in Pending(edges, done, c);
      assert Pending(edges, done + {current}, c) == Pending(edges, done, c) - {current};
    }
  }

  ghost predicate Blocked(edges: set<(nat, nat)>, done: set<nat>, c: nat) {
    Pending(edges, done, c) != {}
  }

  lemma BlockedHasPredecessor(edges: set<(nat, nat)>, n: nat, done: set<nat>, left: set<nat>, c: nat)
    requires forall p, c :: (p, c) in edges ==> p < n && c < n
    requires forall c: nat :: c in left <==> c < n && c !in done
    requires Blocked(edges, done, c)
    ensures HasPredecessor(edges, left, c)
  {
    var p :| p in Pending(edges, done, c);
    assert (p, c) in edges;
  }

  /** If some vertices never become ready, they contain a cycle. */
  lemma StuckMeansCycle(edges: set<(nat, nat)>, n: nat, done: set<nat>, left: set<nat>)
    requires forall p, c :: (p, c) in edges ==> p < n && c < n
    requires left != {} && forall c: nat :: c in left <==> c < n && c !in done
    requires forall c :: c in left ==> Blocked(edges, done, c)
    ensures HasCycle(edges)
  {
    hide HasCycle, Blocked, Pending, HasPredecessor;
    forall c | c in left ensures HasPredecessor(edges, left, c) {
      BlockedHasPredecessor(edges, n, done, left, c);
    }
    PredecessorsForceCycle(edges, left);
  }

  lemma TopologicalReach(edges: set<(nat, nat)>, order: seq<nat>, i: nat, p: nat)
    requires Topological(edges, order) && i < |order| && Reach(edges, p, order[i])
    ensures p in order[..i + 1]
  {
    hide Reach;
    var region := Elements(order[..i + 1]);
    forall x, y | (x, y) in edges && y in region ensures x in region {
      var k :| 0 <= k <= i && order[k] == y;
      var j :| 0 <= j < k && order[..k][j] == x;
      assert order[..i + 1][j] == x;
    }
    assert order[..i + 1][i] == order[i];
    ReachClosedBackward(edges, region, p, order[i]);
  }

  /** A complete topological order leaves no room for a cycle. */
  lemma TopologicalAcyclic(edges: set<(nat, nat)>, n: nat, order: seq<nat>)
    requires Topological(edges, order) && NoDuplicates(order)
    requires forall p, c :: (p, c) in edges ==> p < n && c < n
    requires forall c :: 0 <= c < n ==> c in order
    ensures !HasCycle(edges)
  {
    hide Reach;
    if HasCycle(edges) {
      var u, v :| (u, v) in edges && Reach(edges, v, u);
      assert v in order;
      var i :| 0 <= i < |order| && order[i] == v;
      var j :| 0 <= j < i && order[..i][j] == u;
      TopologicalReach(edges, order, j, v);
    }
  }

  method SortReady(heads: seq<NodeId>, ready: seq<nat>) returns (sorted: seq<nat>)
    requires NoDuplicates(ready)
    ensures NoDuplicates(sorted) && Elements(sorted) == Elements(ready) && |sorted| == |ready|
    ensures HeadSorted(heads, sorted)
  {
    ByHeadIsOrder(heads);
    sorted := Sort(ByHead(heads), ready);
    PermutationFacts(ready, sorted);
    hide StrLess;
    assert Elements(sorted) == Elements(ready);
    assert forall a, b :: ByHead(heads)(a, b) == StrLess(Head(heads, a), Head(heads, b));
  }

  ghost predicate HeadSorted(heads: seq<NodeId>, ready: seq<nat>) {
    forall i, j :: 0 <= i < j < |ready| ==> !StrLess(Head(heads, ready[j]), Head(heads, ready[i]))
  }

  /** The ready list holds exactly the vertices that could be taken next. */
  ghost predicate ReadyList(edges: set<(nat, nat)>, n: nat, done: set<nat>, ready: seq<nat>) {
    NoDuplicates(ready) && forall c: nat :: c in ready <==> IsReady(edges, n, done, c)
  }

  /** Everything in `done` came after its predecessors. */
  ghost predicate Settled(edges: set<(nat, nat)>, done: set<nat>) {
    forall p, c :: c in done && (p, c) in edges ==> p in done && p != c
  }

  lemma ReadyPermutes(edges: set<(nat, nat)>, n: nat, done: set<nat>, ready: seq<nat>, sorted: seq<nat>)
    requires ReadyList(edges, n, done, ready) && NoDuplicates(sorted) && Elements(sorted) == Elements(ready)
    ensures ReadyList(edges, n, done, sorted)
  {
    hide IsReady;
    forall c: nat ensures c in sorted <==> c in ready {
      assert c in Elements(sorted) <==> c in Elements(ready);
    }
  }

  /** Halfway through completing `current`: the first j of its successors have been decremented. */
  ghost predicate Releasing(edges: set<(nat, nat)>, n: nat, done: set<nat>, current: nat, targets: seq<nat>, j: nat,
                            indegree: seq<int>, ready: seq<nat>)
  {
    && |indegree| == n && j <= |targets| && NoDuplicates(ready)
    && (forall c :: 0 <= c < n ==>
          indegree[c] == |Pending(edges, if c in targets[..j] then done + {current} else done, c)|)
    && (forall c: nat :: c in ready <==>
          c != current && IsReady(edges, n, if c in targets[..j] then done + {current} else done, c))
  }

  lemma ReleaseStart(edges: set<(nat, nat)>, n: nat, done: set<nat>, current: nat, targets: seq<nat>,
                     indegree: seq<int>, ready: seq<nat>)
    requires Degrees(edges, n, done, indegree)
    requires ready != [] && ready[0] == current && ReadyList(edges, n, done, ready)
    ensures Releasing(edges, n, done, current, targets, 0, indegree, ready[1..])
  {
    hide Pending;
    assert ready == [current] + ready[1..];
    assert forall c :: c in ready[1..] ==> c != current;
  }

  lemma ReleaseEnd(edges: set<(nat, nat)>, n: nat, done: set<nat>, current: nat, adjacency: map<nat, seq<nat>>,
                   indegree: seq<int>, ready: seq<nat>)
    requires Adjacent(edges, n, adjacency) && current !in done
    requires Releasing(edges, n, done, current, Targets(adjacency, current), |Targets(adjacency, current)|, indegree,
               ready)
    ensures Degrees(edges, n, done + {current}, indegree)
    ensures ReadyList(edges, n, done + {current}, ready)
  {
    var targets := Targets(adjacency, current);
    assert targets[..|targets|] == targets;
    forall c: nat ensures c !in targets ==> Pending(edges, done + {current}, c) == Pending(edges, done, c) {
      PendingAfter(edges, done, current, c);
    }
    hide Pending, Targets;
    assert current !in targets ==> current !in ready;
  }

  lemma ReleaseStep(edges: set<(nat, nat)>, n: nat, done: set<nat>, current: nat, adjacency: map<nat, seq<nat>>,
                    j: nat, indegree: seq<int>, ready: seq<nat>)
    requires Adjacent(edges, n, adjacency) && current !in done && Settled(edges, done)
             && Settled(edges, done + {current})
    requires j < |Targets(adjacency, current)|
    requires Releasing(edges, n, done, current, Targets(adjacency, current), j, indegree, ready)
    ensures Targets(adjacency, current)[j] < n == |indegree|
    ensures var next := Targets(adjacency, current)[j];
            var lowered := indegree[next := indegree[next] - 1];
            && next < n && next !in ready
            && Releasing(edges, n, done, current, Targets(adjacency, current), j + 1, lowered,
                         if lowered[next] == 0 then ready + [next] else ready)
  {
    hide Pending, Targets, IsReady, Settled, Adjacent;
    var targets := Targets(adjacency, current);
    var next := targets[j];
    ReleaseTarget(edges, n, done, current, adjacency, j, indegree, ready);
    assert targets[..j + 1] == targets[..j] + [next];
  }

  /** The next successor loses one pending predecessor, and is ready if that was the last. */
  lemma ReleaseTarget(edges: set<(nat, nat)>, n: nat, done: set<nat>, current: nat, adjacency: map<nat, seq<nat>>,
                      j: nat, indegree: seq<int>, ready: seq<nat>)
    requires Adjacent(edges, n, adjacency) && current !in done && Settled(edges, done)
             && Settled(edges, done + {current})
    requires j < |Targets(adjacency, current)|
    requires Releasing(edges, n, done, current, Targets(adjacency, current), j, indegree, ready)
    ensures var next := Targets(adjacency, current)[j];
            && next < n && next != current && next !in Targets(adjacency, current)[..j] && next !in ready
            && indegree[next] - 1 == |Pending(edges, done + {current}, next)|
            && (IsReady(edges, n, done + {current}, next) <==> indegree[next] == 1)
  {
    var targets := Targets(adjacency, current);
    var next := targets[j];
    assert next !in targets[..j];
    PendingAfter(edges, done, current, next);
    assert current in Pending(edges, done, next);
    assert next !in done + {current};
    assert |Pending(edges, done + {current}, next)| == 0 <==> Pending(edges, done + {current}, next) == {};
  }

  method KahnOrder(n: nat, ghost edges: set<(nat, nat)>, adjacency: map<nat, seq<nat>>, indegree0: seq<int>,
                   heads: seq<NodeId>)
    returns (order: seq<nat>)
    requires Adjacent(edges, n, adjacency) && |heads| == n
    requires Degrees(edges, n, {}, indegree0)
    ensures NoDuplicates(order) && forall c :: c in order ==> c < n
    ensures Topological(edges, order)
    ensures LeastReadyFirst(edges, heads, order)
    ensures |order| == n <==> !HasCycle(edges)
  {
    hide Pending, Topological, LeastReadyFirst, HeadSorted, IsReady, HasCycle, StrLess;
    order := [];
    EmptyOrder(n, edges, heads);
    var indegree := indegree0;
    var ready := InitiallyReady(n, edges, indegree0);
    ghost var unsorted := ready;
    ready := SortReady(heads, ready);
    ReadyPermutes(edges, n, {}, unsorted, ready);
    while ready != []
      invariant Inv(n, edges, heads, order)
      invariant Degrees(edges, n, Elements(order), indegree)
      invariant ReadyList(edges, n, Elements(order), ready) && HeadSorted(heads, ready)
      decreases n - |order|
    {
      var current := ready[0];
      TakeReady(n, edges, heads, order, ready);
      ghost var done := Elements(order);
      ReleaseStart(edges, n, done, current, Targets(adjacency, current), indegree, ready);
      order := order + [current];
      indegree, ready := Release(n, edges, adjacency, heads, done, current, indegree, ready[1..]);
      ReleaseEnd(edges, n, done, current, adjacency, indegree, ready);
    }
    Finish(n, edges, heads, order);
  }

  /** Decrements every successor of `current`, queueing those that reach zero. */
  method Release(n: nat, ghost edges: set<(nat, nat)>, adjacency: map<nat, seq<nat>>, heads: seq<NodeId>,
                 ghost done: set<nat>,
                 current: nat, indegree0: seq<int>, ready0: seq<nat>)
    returns (indegree: seq<int>, ready: seq<nat>)
    requires Adjacent(edges, n, adjacency) && current !in done && Settled(edges, done)
             && Settled(edges, done + {current}) && HeadSorted(heads, ready0)
    requires Releasing(edges, n, done, current, Targets(adjacency, current), 0, indegree0, ready0)
    ensures Releasing(edges, n, done, current, Targets(adjacency, current), |Targets(adjacency, current)|, indegree,
              ready)
    ensures HeadSorted(heads, ready)
  {
    hide Pending, Adjacent, HeadSorted, StrLess, IsReady, Settled;
    indegree, ready := indegree0, ready0;
    var targets := Targets(adjacency, current);
    for j := 0 to |targets|
      invariant Releasing(edges, n, done, current, targets, j, indegree, ready)
      invariant HeadSorted(heads, ready)
    {
      var next := targets[j];
      ReleaseStep(edges, n, done, current, adjacency, j, indegree, ready);
      indegree := indegree[next := indegree[next] - 1];
      if indegree[next] == 0 {
        ready := ready + [next];
        ghost var unsorted := ready;
        ready := SortReady(heads, ready);
        ReleasingPermutes(edges, n, done, current, targets, j + 1, indegree, unsorted, ready);
      }
    }
  }

  lemma ReleasingPermutes(edges: set<(nat, nat)>, n: nat, done: set<nat>, current: nat, targets: seq<nat>, j: nat,
                          indegree: seq<int>, ready: seq<nat>, sorted: seq<nat>)
    requires Releasing(edges, n, done, current, targets, j, indegree, ready)
    requires NoDuplicates(sorted) && Elements(sorted) == Elements(ready)
    ensures Releasing(edges, n, done, current, targets, j, indegree, sorted)
  {
    hide Pending, IsReady;
    forall c: nat ensures c in sorted <==> c in ready {
      assert c in Elements(sorted) <==> c in Elements(ready);
    }
  }

  method InitiallyReady(n: nat, ghost edges: set<(nat, nat)>, indegree: seq<int>) returns (ready: seq<nat>)
    requires Degrees(edges, n, {}, indegree)
    ensures ReadyList(edges, n, {}, ready)
  {
    hide Pending;
    ready := [];
    for index := 0 to n
      invariant NoDuplicates(ready)
      invariant forall c: nat :: c in ready <==> c < index && IsReady(edges, n, {}, c)
    {
      assert index !in ready;
      if indegree[index] == 0 {
        ready := ready + [index];
      }
    }
  }

  /** What the prefix built so far satisfies. */
  ghost predicate Inv(n: nat, edges: set<(nat, nat)>, heads: seq<NodeId>, order: seq<nat>) {
    && NoDuplicates(order) && (forall c :: c in order ==> c < n)
    && |order| <= n
    && Topological(edges, order) && LeastReadyFirst(edges, heads, order)
  }

  lemma {:induction false} DistinctCount(s: seq<nat>)
    requires NoDuplicates(s)
    ensures |Elements(s)| == |s|
  {
    if s != [] {
      assert s == [s[0]] + s[1..];
      assert s[0] !in s[1..];
      DistinctCount(s[1..]);
      assert Elements(s) == Elements(s[1..]) + {s[0]};
    }
  }

  function Below(n: nat): (r: set<nat>)
    ensures forall c: nat :: c in r <==> c < n
    ensures |r| == n
  {
    if n == 0 then {} else Below(n - 1) + {n - 1}
  }

  lemma SubsetSize(a: set<nat>, b: set<nat>)
    requires a <= b
    ensures |a| <= |b|
    ensures |a| == |b| ==> a == b
  {
    assert b == a + (b - a);
  }

  /** Distinct vertices below n number at most n, and exactly n only when all of them occur. */
  lemma BoundedDistinct(s: seq<nat>, n: nat)
    requires NoDuplicates(s) && forall c :: c in s ==> c < n
    ensures |s| <= n
    ensures |s| == n <==> forall c :: 0 <= c < n ==> c in s
  {
    DistinctCount(s);
    SubsetSize(Elements(s), Below(n));
    if forall c :: 0 <= c < n ==> c in s {
      assert Elements(s) == Below(n);
    }
    if |s| == n {
      forall c | 0 <= c < n ensures c in s {
        assert c in Below(n);
      }
    }
  }

  lemma EmptyOrder(n: nat, edges: set<(nat, nat)>, heads: seq<NodeId>)
    ensures Inv(n, edges, heads, []) && Elements([]) == {}
  {
  }

  lemma TakeReady(n: nat, edges: set<(nat, nat)>, heads: seq<NodeId>, order: seq<nat>, ready: seq<nat>)
    requires Inv(n, edges, heads, order) && |heads| == n
    requires ready != [] && ReadyList(edges, n, Elements(order), ready) && HeadSorted(heads, ready)
    ensures Inv(n, edges, heads, order + [ready[0]])
    ensures ready[0] !in Elements(order) && Elements(order + [ready[0]]) == Elements(order) + {ready[0]}
    ensures HeadSorted(heads, ready[1..]) && |order| < n
    ensures Settled(edges, Elements(order)) && Settled(edges, Elements(order) + {ready[0]})
  {
    var current := ready[0];
    var longer := order + [current];
    assert IsReady(edges, n, Elements(order), current);
    BoundedDistinct(longer, n);
    assert forall i :: 0 <= i < |order| ==> longer[..i] == order[..i];
    assert longer[..|order|] == order;
    forall p | (p, current) in edges ensures p in order {
      assert p !in Pending(edges, Elements(order), current);
    }
    forall c | IsReady(edges, n, Elements(order), c) ensures !StrLess(Head(heads, c), Head(heads, current)) {
      assert c in ready;
      var k :| 0 <= k < |ready| && ready[k] == c;
      StrLessTotal(Head(heads, c), Head(heads, current));
    }
    forall p, c | c in Elements(order) && (p, c) in edges ensures p in Elements(order) && p != c {
      var k :| 0 <= k < |order| && order[k] == c;
      assert p in order[..k];
    }
    forall p, c | c in Elements(longer) && (p, c) in edges ensures p in Elements(longer) && p != c {
      var k :| 0 <= k < |longer| && longer[k] == c;
      assert p in longer[..k];
    }
    hide Pending, StrLess, IsReady;
  }

  lemma Finish(n: nat, edges: set<(nat, nat)>, heads: seq<NodeId>, order: seq<nat>)
    requires Inv(n, edges, heads, order)
    requires forall p, c :: (p, c) in edges ==> p < n && c < n
    requires forall c: nat :: !IsReady(edges, n, Elements(order), c)
    ensures |order| == n <==> !HasCycle(edges)
  {
    hide HasCycle, LeastReadyFirst;
    BoundedDistinct(order, n);
    if |order| == n {
      TopologicalAcyclic(edges, n, order);
    } else {
      var left := Below(n) - Elements(order);
      assert forall c: nat :: c in left <==> c in Below(n) && c !in Elements(order);
      forall c | c in left ensures Blocked(edges, Elements(order), c) {
        assert !IsReady(edges, n, Elements(order), c);
      }
      var missing :| 0 <= missing < n && missing !in order;
      assert missing in left;
      StuckMeansCycle(edges, n, Elements(order), left);
    }
  }

  // ---------------------------------------------------------------- there is only one such order

  /** A complete order in which every predecessor comes first and the ready vertex with the least name is next. */
  ghost predicate IsOrder(edges: set<(nat, nat)>, heads: seq<NodeId>, order: seq<nat>) {
    && NoDuplicates(order) && |order| == |heads| && (forall c :: c in order ==> c < |heads|)
    && Topological(edges, order) && LeastReadyFirst(edges, heads, order)
  }

  lemma NextIsReady(edges: set<(nat, nat)>, heads: seq<NodeId>, order: seq<nat>, i: nat)
    requires IsOrder(edges, heads, order) && i < |order|
    ensures IsReady(edges, |heads|, Elements(order[..i]), order[i])
  {
    assert order[i] in order;
    assert order[i] !in order[..i];
    assert forall e :: e in edges && e.1 == order[i] ==> e.0 in order[..i];
  }

  /** If no two vertices have the same name, the prefixes of two such orders are the same. */
  lemma {:induction false} PrefixUnique(edges: set<(nat, nat)>, heads: seq<NodeId>, one: seq<nat>, two: seq<nat>,
                                        n: nat)
    requires IsOrder(edges, heads, one) && IsOrder(edges, heads, two) && NoDuplicates(heads) && n <= |heads|
    ensures one[..n] == two[..n]
  {
    if n > 0 {
      var i := n - 1;
      PrefixUnique(edges, heads, one, two, i);
      NextIsReady(edges, heads, one, i);
      NextIsReady(edges, heads, two, i);
      hide StrLess, Topological, IsReady;
      assert one[i] in one && two[i] in two;
      StrLessTotal(heads[one[i]], heads[two[i]]);
      assert one[..n] == one[..i] + [one[i]] && two[..n] == two[..i] + [two[i]];
    }
  }

  /** If no two components have the same first node, a graph has only one such order. */
  lemma OrderUnique(edges: set<(nat, nat)>, heads: seq<NodeId>, one: seq<nat>, two: seq<nat>)
    requires IsOrder(edges, heads, one) && IsOrder(edges, heads, two)
    requires forall a, b :: 0 <= a < b < |heads| ==> heads[a] != heads[b]
    ensures one == two
  {
    hide IsOrder;
    PrefixUnique(edges, heads, one, two, |heads|);
    OrderLength(edges, heads, one);
    OrderLength(edges, heads, two);
  }

  lemma OrderLength(edges: set<(nat, nat)>, heads: seq<NodeId>, order: seq<nat>)
    requires IsOrder(edges, heads, order)
    ensures |order| == |heads| && order[..|heads|] == order
  {
  }
}
