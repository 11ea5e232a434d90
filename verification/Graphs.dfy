/** Directed graphs as finite sets of edges, with reachability by explicit paths. */
module Graphs {

  ghost predicate IsPath<V>(edges: set<(V, V)>, path: seq<V>) {
    |path| > 0 && forall i :: 0 <= i < |path| - 1 ==> (path[i], path[i + 1]) in edges
  }

  ghost predicate Connects<V>(edges: set<(V, V)>, path: seq<V>, u: V, v: V) {
    IsPath(edges, path) && path[0] == u && path[|path| - 1] == v
  }

  /** v can be reached from u in zero or more steps. */
  ghost predicate Reach<V(!new)>(edges: set<(V, V)>, u: V, v: V) {
    exists path: seq<V> :: Connects(edges, path, u, v)
  }

  ghost predicate Mutual<V(!new)>(edges: set<(V, V)>, u: V, v: V) {
    Reach(edges, u, v) && Reach(edges, v, u)
  }

  /** No edge leaves `region`. */
  ghost predicate Closed<V(!new)>(edges: set<(V, V)>, region: set<V>) {
    forall u, v :: (u, v) in edges && u in region ==> v in region
  }

  ghost predicate HasCycle<V(!new)>(edges: set<(V, V)>) {
    exists u, v :: (u, v) in edges && Reach(edges, v, u)
  }

  lemma ReachSelf<V(!new)>(edges: set<(V, V)>, u: V)
    ensures Reach(edges, u, u)
  {
    assert Connects(edges, [u], u, u);
  }

  lemma ReachTrans<V(!new)>(edges: set<(V, V)>, u: V, v: V, w: V)
    requires Reach(edges, u, v) && Reach(edges, v, w)
    ensures Reach(edges, u, w)
  {
    var p: seq<V> :| Connects(edges, p, u, v);
    var q: seq<V> :| Connects(edges, q, v, w);
    assert Connects(edges, p + q[1..], u, w);
  }

  lemma ReachEdge<V(!new)>(edges: set<(V, V)>, u: V, v: V)
    requires (u, v) in edges
    ensures Reach(edges, u, v)
  {
    assert Connects(edges, [u, v], u, v);
  }

  lemma ReachFirstStep<V(!new)>(edges: set<(V, V)>, u: V, v: V) returns (w: V)
    requires Reach(edges, u, v) && u != v
    ensures (u, w) in edges && Reach(edges, w, v)
  {
    var p: seq<V> :| Connects(edges, p, u, v);
    w := p[1];
    assert Connects(edges, p[1..], w, v);
  }

  lemma ReachMonotone<V(!new)>(small: set<(V, V)>, large: set<(V, V)>, u: V, v: V)
    requires small <= large && Reach(small, u, v)
    ensures Reach(large, u, v)
  {
    var p: seq<V> :| Connects(small, p, u, v);
    assert Connects(large, p, u, v);
  }

  /** A path that starts inside a closed region never leaves it. */
  lemma ReachClosed<V(!new)>(edges: set<(V, V)>, region: set<V>, u: V, v: V)
    requires Closed(edges, region) && u in region && Reach(edges, u, v)
    ensures v in region
  {
    var p: seq<V> :| Connects(edges, p, u, v);
    for i := 0 to |p|
      invariant forall j :: 0 <= j < i ==> p[j] in region
    {
      if i > 0 {
        assert (p[i - 1], p[i]) in edges;
      }
    }
  }

  /** A path that ends inside a region closed under predecessors started there. */
  lemma ReachClosedBackward<V(!new)>(edges: set<(V, V)>, region: set<V>, u: V, v: V)
    requires forall x, y :: (x, y) in edges && y in region ==> x in region
    requires v in region && Reach(edges, u, v)
    ensures u in region
  {
    var p: seq<V> :| Connects(edges, p, u, v);
    var i := |p| - 1;
    while i > 0
      invariant 0 <= i < |p| && p[i] in region
    {
      assert (p[i - 1], p[i]) in edges;
      i := i - 1;
    }
  }

  ghost predicate HasPredecessor<V(!new)>(edges: set<(V, V)>, region: set<V>, v: V) {
    exists u :: u in region && (u, v) in edges
  }

  /** Walking backwards `steps` times inside a region in which every vertex has a predecessor. */
  lemma BackwardWalk<V(!new)>(edges: set<(V, V)>, region: set<V>, start: V, steps: nat) returns (walk: seq<V>)
    requires start in region
    requires forall v :: v in region ==> HasPredecessor(edges, region, v)
    ensures |walk| == steps + 1 && IsPath(edges, walk)
    ensures forall i :: 0 <= i <= steps ==> walk[i] in region
  {
    walk := [start];
    for k := 0 to steps
      invariant |walk| == k + 1 && IsPath(edges, walk)
      invariant forall i :: 0 <= i <= k ==> walk[i] in region
    {
      assert HasPredecessor(edges, region, walk[0]);
      var u :| u in region && (u, walk[0]) in edges;
      walk := [u] + walk;
    }
  }

  lemma Pigeonhole<V>(region: set<V>, walk: seq<V>) returns (i: nat, j: nat)
    requires |walk| > |region|
    requires forall k :: 0 <= k < |walk| ==> walk[k] in region
    ensures i < j < |walk| && walk[i] == walk[j]
    decreases |walk|
  {
    var last := |walk| - 1;
    if k :| 0 <= k < last && walk[k] == walk[last] {
      i, j := k, last;
    } else {
      i, j := Pigeonhole(region - {walk[last]}, walk[..last]);
    }
  }

  /** A non-empty finite region in which every vertex has a predecessor contains a cycle. */
  lemma PredecessorsForceCycle<V(!new)>(edges: set<(V, V)>, region: set<V>)
    requires region != {}
    requires forall v :: v in region ==> HasPredecessor(edges, region, v)
    ensures HasCycle(edges)
  {
    var start :| start in region;
    var walk := BackwardWalk(edges, region, start, |region|);
    var i, j := Pigeonhole(region, walk);
    var tail := walk[i + 1..j + 1];
    assert (walk[i], walk[i + 1]) in edges;
    assert Connects(edges, tail, walk[i + 1], walk[i]);
  }
}
