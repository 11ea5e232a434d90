/** The compiler's strongly connected components: Tarjan's algorithm over the user graph. */
module Tarjan {
  import opened Graphs
  import opened Ordering

  function Successors(adjacency: map<NodeId, seq<NodeId>>, v: NodeId): seq<NodeId> {
    if v in adjacency then adjacency[v] else []
  }

  ghost function EdgesOf(adjacency: map<NodeId, seq<NodeId>>): set<(NodeId, NodeId)> {
    set u, v | u in adjacency && v in adjacency[u] :: (u, v)
  }

  lemma SuccessorEdges(adjacency: map<NodeId, seq<NodeId>>, v: NodeId)
    ensures forall w :: w in Successors(adjacency, v) <==> (v, w) in EdgesOf(adjacency)
    ensures forall k :: 0 <= k < |Successors(adjacency, v)| ==> (v, Successors(adjacency, v)[k]) in EdgesOf(adjacency)
  {
  }

  ghost function Members(s: seq<NodeId>): set<NodeId> {
    set x | x in s
  }

  /** `component` is a whole mutual-reachability class of `nodes`. */
  ghost predicate IsScc(edges: set<(NodeId, NodeId)>, nodes: set<NodeId>, component: set<NodeId>) {
    && component != {}
    && component <= nodes
    && forall u, v :: u in component && v in nodes ==> (v in component <==> Mutual(edges, u, v))
  }

  ghost function Union(components: seq<seq<NodeId>>): set<NodeId> {
    set c, x | c in components && x in c :: x
  }

  ghost predicate Disjoint(components: seq<seq<NodeId>>) {
    forall i, j :: 0 <= i < j < |components| ==> Members(components[i]) !! Members(components[j])
  }

  predicate HeadLess(a: seq<NodeId>, b: seq<NodeId>) {
    b != [] && (a == [] || StrLess(a[0], b[0]))
  }

  /** What the compiler promises of the component list, independently of the algorithm. */
  ghost predicate IsDecomposition(edges: set<(NodeId, NodeId)>, nodes: set<NodeId>, components: seq<seq<NodeId>>) {
    && (forall c :: c in components ==> IsScc(edges, nodes, Members(c)) && Sorted(StrLess, c) && NoDuplicates(c))
    && Disjoint(components)
    && Union(components) == nodes
    && Sorted(HeadLess, components)
  }

  ghost predicate FirstBefore(a: seq<NodeId>, b: seq<NodeId>) {
    a != [] && b != [] && StrLess(a[0], b[0])
  }

  /** Components follow the order of their first members, members that of their ids. */
  lemma DecompositionOrdered(edges: set<(NodeId, NodeId)>, nodes: set<NodeId>, components: seq<seq<NodeId>>)
    requires IsDecomposition(edges, nodes, components)
    ensures forall c, i, j :: c in components && 0 <= i < j < |c| ==> StrLess(c[i], c[j])
    ensures forall i, j :: 0 <= i < j < |components| ==> FirstBefore(components[i], components[j])
  {
    hide Reach, StrLess, IsScc, FirstBefore;
    forall c, i, j | c in components && 0 <= i < j < |c| ensures StrLess(c[i], c[j]) {
      assert Sorted(StrLess, c) && NoDuplicates(c);
      StrLessTotal(c[i], c[j]);
    }
    forall i, j | 0 <= i < j < |components| ensures FirstBefore(components[i], components[j]) {
      assert components[i] in components && components[j] in components;
      SccHasMember(edges, nodes, components[i]);
      SccHasMember(edges, nodes, components[j]);
      HeadsDiffer(components[i], components[j]);
    }
  }

  lemma HeadsDiffer(a: seq<NodeId>, b: seq<NodeId>)
    requires a != [] && b != [] && Members(a) !! Members(b) && !HeadLess(b, a)
    ensures FirstBefore(a, b)
  {
    hide StrLess;
    assert a[0] in Members(a) && b[0] in Members(b);
    StrLessTotal(a[0], b[0]);
  }

  lemma SccHasMember(edges: set<(NodeId, NodeId)>, nodes: set<NodeId>, c: seq<NodeId>)
    requires IsScc(edges, nodes, Members(c))
    ensures c != []
  {
    hide Reach;
    assert Members([]) == {};
  }

  // ---------------------------------------------------------------- search state

  /** The stack is ordered by discovery index, and every entry reaches all later ones. */
  ghost predicate StackOrdered(edges: set<(NodeId, NodeId)>, stack: seq<NodeId>, indices: map<NodeId, nat>) {
    && (forall i :: 0 <= i < |stack| ==> stack[i] in indices)
    && (forall i, j :: 0 <= i < j < |stack| ==> indices[stack[i]] < indices[stack[j]])
    && (forall x, y :: x in stack && y in stack && indices[x] <= indices[y] ==> Reach(edges, x, y))
  }

  /** Some vertex still being visited is no younger than y and is reachable from it. */
  ghost predicate Anchored(edges: set<(NodeId, NodeId)>, gray: set<NodeId>, indices: map<NodeId, nat>, y: NodeId)
    requires y in indices && gray <= indices.Keys
  {
    exists x :: x in gray && indices[x] <= indices[y] && Reach(edges, y, x)
  }

  lemma AnchorOf(edges: set<(NodeId, NodeId)>, gray: set<NodeId>, indices: map<NodeId, nat>, y: NodeId)
    returns (x: NodeId)
    requires y in indices && gray <= indices.Keys && Anchored(edges, gray, indices, y)
    ensures x in gray && indices[x] <= indices[y] && Reach(edges, y, x)
  {
    x :| x in gray && indices[x] <= indices[y] && Reach(edges, y, x);
  }

  lemma AnchorAt(edges: set<(NodeId, NodeId)>, gray: set<NodeId>, indices: map<NodeId, nat>, y: NodeId, x: NodeId)
    requires y in indices && gray <= indices.Keys
    requires x in gray && indices[x] <= indices[y] && Reach(edges, y, x)
    ensures Anchored(edges, gray, indices, y)
  {
  }

  /** The part of the search state that does not depend on which visits are still open. */
  ghost predicate Explored(edges: set<(NodeId, NodeId)>, nodes: set<NodeId>, index: nat,
                           stack: seq<NodeId>, indices: map<NodeId, nat>, done: set<NodeId>)
  {
    && indices.Keys <= nodes
    && (forall v :: v in indices ==> indices[v] < index)
    && StackOrdered(edges, stack, indices)
    && done == indices.Keys - Members(stack)
    && Closed(edges, done)
  }

  /** `gray` is the set of open visits: every other discovered vertex has been expanded completely. */
  ghost predicate Open(edges: set<(NodeId, NodeId)>, gray: set<NodeId>, stack: seq<NodeId>, indices: map<NodeId, nat>) {
    && gray <= Members(stack)
    && (forall y :: y in stack ==> y in indices)
    && (forall x, y :: x in indices && x !in gray && (x, y) in edges ==> y in indices)
    && (forall y :: y in stack ==> Anchored(edges, gray, indices, y))
  }

  ghost predicate Searching(edges: set<(NodeId, NodeId)>, nodes: set<NodeId>, gray: set<NodeId>, index: nat,
                            stack: seq<NodeId>, indices: map<NodeId, nat>, done: set<NodeId>)
  {
    && Explored(edges, nodes, index, stack, indices, done)
    && Open(edges, gray, stack, indices)
  }

  /** Every edge from `segment` back into `below` leads to an index of at least `bound`. */
  ghost predicate BackEdgesAtLeast(edges: set<(NodeId, NodeId)>, segment: seq<NodeId>, below: seq<NodeId>,
                                   indices: map<NodeId, nat>, bound: nat)
  {
    forall x, y :: x in segment && y in below && (x, y) in edges && y in indices ==> bound <= indices[y]
  }

  ghost predicate LowWitness(edges: set<(NodeId, NodeId)>, stack: seq<NodeId>, indices: map<NodeId, nat>,
                             v: NodeId, bound: nat)
  {
    exists y :: y in stack && y in indices && indices[y] == bound && Reach(edges, v, y)
  }

  ghost predicate Found(edges: set<(NodeId, NodeId)>, nodes: set<NodeId>, components: seq<seq<NodeId>>,
                        done: set<NodeId>) {
    && (forall c :: c in components ==> IsScc(edges, nodes, Members(c)) && Sorted(StrLess, c) && NoDuplicates(c))
    && Disjoint(components)
    && Union(components) == done
  }

  /** Every stack entry reaches whatever all open visits reach. */
  lemma StackReaches(edges: set<(NodeId, NodeId)>, gray: set<NodeId>, stack: seq<NodeId>, indices: map<NodeId, nat>,
                     v: NodeId)
    requires Open(edges, gray, stack, indices)
    requires forall g :: g in gray ==> Reach(edges, g, v)
    ensures forall y :: y in stack ==> Reach(edges, y, v)
  {
    hide Reach, Anchored;
    forall y | y in stack ensures Reach(edges, y, v) {
      var x := AnchorOf(edges, gray, indices, y);
      ReachTrans(edges, y, x, v);
    }
  }

  lemma DiscoverOpen(edges: set<(NodeId, NodeId)>, gray: set<NodeId>, stack: seq<NodeId>, indices: map<NodeId, nat>,
                     v: NodeId, index: nat)
    requires Open(edges, gray, stack, indices) && v !in indices
    ensures Open(edges, gray + {v}, stack + [v], indices[v := index])
  {
    hide Reach, Anchored;
    var stack', indices', gray' := stack + [v], indices[v := index], gray + {v};
    assert Members(stack') == Members(stack) + {v};
    assert gray' <= indices'.Keys;
    forall y | y in stack' ensures Anchored(edges, gray', indices', y) {
      if y in stack {
        var x := AnchorOf(edges, gray, indices, y);
        AnchorAt(edges, gray', indices', y, x);
      } else {
        ReachSelf(edges, v);
        AnchorAt(edges, gray', indices', v, v);
      }
    }
  }

  lemma DiscoverOrdered(edges: set<(NodeId, NodeId)>, stack: seq<NodeId>, indices: map<NodeId, nat>, v: NodeId,
                        index: nat)
    requires StackOrdered(edges, stack, indices) && v !in indices
    requires forall y :: y in indices ==> indices[y] < index
    requires forall y :: y in stack ==> Reach(edges, y, v)
    ensures StackOrdered(edges, stack + [v], indices[v := index])
  {
    ReachSelf(edges, v);
    hide Reach;
    assert forall i :: 0 <= i < |stack| ==> (stack + [v])[i] == stack[i] && stack[i] != v;
    assert v !in stack;
  }

  lemma Discover(edges: set<(NodeId, NodeId)>, nodes: set<NodeId>, gray: set<NodeId>, index: nat,
                 stack: seq<NodeId>, indices: map<NodeId, nat>, done: set<NodeId>, v: NodeId)
    requires Searching(edges, nodes, gray, index, stack, indices, done)
    requires v in nodes && v !in indices
    requires forall g :: g in gray ==> Reach(edges, g, v)
    ensures Searching(edges, nodes, gray + {v}, index + 1, stack + [v], indices[v := index], done)
  {
    hide Reach, Anchored;
    StackReaches(edges, gray, stack, indices, v);
    DiscoverOpen(edges, gray, stack, indices, v, index);
    DiscoverOrdered(edges, stack, indices, v, index);
    hide Open, StackOrdered;
    assert Members(stack + [v]) == Members(stack) + {v};
  }

  /** v is not a root: it leaves the visit with its segment anchored further down the stack. */
  lemma Retreat(edges: set<(NodeId, NodeId)>, gray: set<NodeId>, stack: seq<NodeId>, v: NodeId,
                indices: map<NodeId, nat>, bound: nat)
    requires v !in gray && Open(edges, gray + {v}, stack, indices)
    requires forall y :: (v, y) in edges ==> y in indices
    requires v in indices && LowWitness(edges, stack, indices, v, bound) && bound < indices[v]
    ensures Open(edges, gray, stack, indices)
  {
    hide Reach, Anchored;
    var y0 :| y0 in stack && y0 in indices && indices[y0] == bound && Reach(edges, v, y0);
    var x0 := AnchorOf(edges, gray + {v}, indices, y0);
    ReachTrans(edges, v, y0, x0);
    forall y | y in stack ensures Anchored(edges, gray, indices, y) {
      var x := AnchorOf(edges, gray + {v}, indices, y);
      if x == v {
        ReachTrans(edges, y, v, x0);
        AnchorAt(edges, gray, indices, y, x0);
      } else {
        AnchorAt(edges, gray, indices, y, x);
      }
    }
  }

  /** With no back edge below v, everything above it is closed together with the finished region. */
  lemma SegmentClosed(edges: set<(NodeId, NodeId)>, nodes: set<NodeId>, gray: set<NodeId>, index: nat,
                      below: seq<NodeId>, segment: seq<NodeId>, v: NodeId, indices: map<NodeId, nat>, done: set<NodeId>)
    requires v !in gray && segment != [] && segment[0] == v
    requires Searching(edges, nodes, gray + {v}, index, below + segment, indices, done)
    requires gray <= Members(below)
    requires forall y :: (v, y) in edges ==> y in indices
    requires BackEdgesAtLeast(edges, segment, below, indices, indices[v])
    ensures Closed(edges, done + Members(segment))
    ensures Members(below) !! Members(segment)
  {
    hide Reach, Anchored;
    var stack := below + segment;
    SegmentsApart(edges, below, segment, indices);
    forall x, y | (x, y) in edges && x in done + Members(segment) ensures y in done + Members(segment) {
      if x in segment {
        assert x in stack && x !in below;
        assert y in indices;
        assert y !in below;
      }
    }
  }

  lemma SegmentsApart(edges: set<(NodeId, NodeId)>, below: seq<NodeId>, segment: seq<NodeId>, indices: map<NodeId, nat>)
    requires segment != [] && StackOrdered(edges, below + segment, indices)
    ensures segment[0] in indices
    ensures forall x :: x in below ==> x in indices && indices[x] < indices[segment[0]]
    ensures Members(below) !! Members(segment)
    ensures NoDuplicates(segment)
    ensures StackOrdered(edges, below, indices)
  {
    hide Reach;
    var stack := below + segment;
    assert forall i :: 0 <= i < |below| ==> stack[i] == below[i];
    assert forall j :: 0 <= j < |segment| ==> stack[|below| + j] == segment[j];
    assert forall x :: x in below ==> x in stack;
  }

  lemma SegmentMutual(edges: set<(NodeId, NodeId)>, gray: set<NodeId>, below: seq<NodeId>, segment: seq<NodeId>,
                      v: NodeId,
                      indices: map<NodeId, nat>, done: set<NodeId>)
    requires segment != [] && segment[0] == v
    requires StackOrdered(edges, below + segment, indices) && Open(edges, gray + {v}, below + segment, indices)
    requires gray <= Members(below) && done !! Members(below + segment)
    requires Closed(edges, done + Members(segment)) && Members(below) !! Members(segment)
    ensures forall y :: y in segment ==> Mutual(edges, v, y)
  {
    hide Reach, Anchored, Closed;
    var stack := below + segment;
    forall y | y in segment ensures Mutual(edges, v, y) {
      assert y in stack && v in stack;
      var x := AnchorOf(edges, gray + {v}, indices, y);
      assert y in Members(segment);
      ReachClosed(edges, done + Members(segment), y, x);
      assert x in Members(stack);
      assert x == v;
      var j :| 0 <= j < |segment| && segment[j] == y;
      assert stack[|below|] == v && stack[|below| + j] == y;
    }
  }

  lemma SegmentIsScc(edges: set<(NodeId, NodeId)>, nodes: set<NodeId>, segment: seq<NodeId>, v: NodeId,
                     done: set<NodeId>)
    requires v in segment && Members(segment) <= nodes && done !! Members(segment)
    requires Closed(edges, done) && Closed(edges, done + Members(segment))
    requires forall y :: y in segment ==> Mutual(edges, v, y)
    ensures IsScc(edges, nodes, Members(segment))
  {
    hide Reach, Closed;
    forall x, y | x in Members(segment) && y in nodes ensures y in Members(segment) <==> Mutual(edges, x, y) {
      if y in segment {
        ReachTrans(edges, x, v, y);
        ReachTrans(edges, y, v, x);
      } else if Mutual(edges, x, y) {
        ReachClosed(edges, done + Members(segment), x, y);
        ReachClosed(edges, done, y, x);
      }
    }
    assert v in Members(segment);
  }

  lemma PopOpen(edges: set<(NodeId, NodeId)>, gray: set<NodeId>, below: seq<NodeId>, segment: seq<NodeId>, v: NodeId,
                indices: map<NodeId, nat>)
    requires v !in gray && segment != [] && segment[0] == v
    requires StackOrdered(edges, below + segment, indices) && Open(edges, gray + {v}, below + segment, indices)
    requires gray <= Members(below)
    requires forall y :: (v, y) in edges ==> y in indices
    ensures Open(edges, gray, below, indices)
  {
    hide Reach, Anchored;
    SegmentsApart(edges, below, segment, indices);
    forall y | y in below ensures y in indices && Anchored(edges, gray, indices, y) {
      assert y in below + segment;
      var x := AnchorOf(edges, gray + {v}, indices, y);
      assert x != v;
      AnchorAt(edges, gray, indices, y, x);
    }
  }

  /** Removing a segment from the top of the stack leaves the rest explored, with the segment among the finished. */
  lemma EmitExplored(edges: set<(NodeId, NodeId)>, nodes: set<NodeId>, index: nat, below: seq<NodeId>,
                     segment: seq<NodeId>,
                     indices: map<NodeId, nat>, done: set<NodeId>)
    requires segment != [] && Explored(edges, nodes, index, below + segment, indices, done)
    requires Closed(edges, done + Members(segment))
    ensures NoDuplicates(segment) && done !! Members(segment)
    ensures Explored(edges, nodes, index, below, indices, done + Members(segment))
  {
    SegmentsApart(edges, below, segment, indices);
    hide Reach, Closed, StackOrdered;
    assert Members(below + segment) == Members(below) + Members(segment);
    assert done + Members(segment) == indices.Keys - Members(below);
  }

  /** v is a root: its segment is exactly one strongly connected component and can be removed. */
  lemma Emit(edges: set<(NodeId, NodeId)>, nodes: set<NodeId>, gray: set<NodeId>, index: nat,
             below: seq<NodeId>, segment: seq<NodeId>, v: NodeId, indices: map<NodeId, nat>, done: set<NodeId>)
    requires v !in gray && segment != [] && segment[0] == v
    requires Searching(edges, nodes, gray + {v}, index, below + segment, indices, done)
    requires gray <= Members(below)
    requires forall y :: (v, y) in edges ==> y in indices
    requires BackEdgesAtLeast(edges, segment, below, indices, indices[v])
    ensures IsScc(edges, nodes, Members(segment))
    ensures NoDuplicates(segment) && done !! Members(segment)
    ensures Searching(edges, nodes, gray, index, below, indices, done + Members(segment))
  {
    hide Reach, Open, BackEdgesAtLeast, Explored, IsScc, Closed;
    SegmentClosed(edges, nodes, gray, index, below, segment, v, indices, done);
    EmitExplored(edges, nodes, index, below, segment, indices, done);
    EmitScc(edges, nodes, gray, index, below, segment, v, indices, done);
    ExploredOrdered(edges, nodes, index, below + segment, indices, done);
    PopOpen(edges, gray, below, segment, v, indices);
  }

  lemma ExploredOrdered(edges: set<(NodeId, NodeId)>, nodes: set<NodeId>, index: nat, stack: seq<NodeId>,
                        indices: map<NodeId, nat>, done: set<NodeId>)
    requires Explored(edges, nodes, index, stack, indices, done)
    ensures StackOrdered(edges, stack, indices)
  {
    hide StackOrdered;
  }

  lemma EmitScc(edges: set<(NodeId, NodeId)>, nodes: set<NodeId>, gray: set<NodeId>, index: nat,
                below: seq<NodeId>, segment: seq<NodeId>, v: NodeId, indices: map<NodeId, nat>, done: set<NodeId>)
    requires segment != [] && segment[0] == v && gray <= Members(below)
    requires Searching(edges, nodes, gray + {v}, index, below + segment, indices, done)
    requires Closed(edges, done + Members(segment)) && Members(below) !! Members(segment)
    ensures IsScc(edges, nodes, Members(segment))
  {
    hide Reach, Open, StackOrdered;
    assert Members(below + segment) == Members(below) + Members(segment);
    OpenIndexed(edges, gray + {v}, below + segment, indices);
    assert forall x :: x in segment ==> x in below + segment && x in indices;
    SegmentMutual(edges, gray, below, segment, v, indices, done);
    SegmentIsScc(edges, nodes, segment, v, done);
  }

  lemma OpenIndexed(edges: set<(NodeId, NodeId)>, gray: set<NodeId>, stack: seq<NodeId>, indices: map<NodeId, nat>)
    requires Open(edges, gray, stack, indices)
    ensures forall y :: y in stack ==> y in indices
  {
    hide Anchored;
  }

  lemma PopOne(before: seq<NodeId>, below: seq<NodeId>, v: NodeId, whole: seq<NodeId>)
    requires before <= whole && NoDuplicates(whole)
    requires |below| < |before| && before[..|below|] == below && before[|below|] == v
    ensures var stack, last := before[..|before| - 1], before[|before| - 1];
            && Members(stack) == Members(before) - {last}
            && before[|below|..] == stack[|below|..] + [last]
            && (last == v ==> stack == below)
            && (last != v ==> |below| < |stack| && stack[..|below|] == below && stack[|below|] == v)
  {
    var stack, last := before[..|before| - 1], before[|before| - 1];
    assert before == stack + [last];
    assert forall i :: 0 <= i < |before| ==> whole[i] == before[i];
    assert last !in stack;
    assert Members(before) == Members(stack) + {last};
  }

  lemma PopMore(component: seq<NodeId>, before: seq<NodeId>, n: nat, whole: multiset<NodeId>)
    requires n < |before| && multiset(component) + multiset(before[n..]) == whole
    ensures multiset(component + [before[|before| - 1]]) + multiset(before[..|before| - 1][n..]) == whole
  {
    var rest, last := before[..|before| - 1][n..], before[|before| - 1];
    assert before[n..] == rest + [last];
  }

  /** Emitting the sorted segment extends the list of finished components. */
  lemma FoundOneMore(edges: set<(NodeId, NodeId)>, nodes: set<NodeId>, components: seq<seq<NodeId>>, done: set<NodeId>,
                     segment: seq<NodeId>, component: seq<NodeId>)
    requires Found(edges, nodes, components, done)
    requires IsScc(edges, nodes, Members(segment)) && NoDuplicates(segment) && done !! Members(segment)
    requires multiset(segment) == multiset(component) && Sorted(StrLess, component)
    ensures Found(edges, nodes, components + [component], done + Members(segment))
  {
    PermutationFacts(segment, component);
    assert Members(component) == Members(segment);
    hide IsScc, StrLess;
    var all := components + [component];
    forall i, j | 0 <= i < j < |all| ensures Members(all[i]) !! Members(all[j]) {
      if j == |components| {
        assert Members(components[i]) <= Union(components);
      }
    }
    assert Union(all) == Union(components) + Members(component);
  }

  // ---------------------------------------------------------------- expanding one vertex

  /** The first i successors of v have been looked at; `bound` is the low link computed from them. */
  ghost predicate Expanding(edges: set<(NodeId, NodeId)>, below: seq<NodeId>, stack: seq<NodeId>,
                            indices: map<NodeId, nat>,
                            v: NodeId, bound: nat, successors: seq<NodeId>, i: nat)
  {
    && below + [v] <= stack && v in indices && bound <= indices[v] && i <= |successors|
    && (forall x :: x in stack ==> x in indices)
    && LowWitness(edges, stack, indices, v, bound)
    && BackEdgesAtLeast(edges, stack[|below| + 1..], below, indices, bound)
    && forall k :: 0 <= k < i ==>
        successors[k] in indices && (successors[k] in below ==> bound <= indices[successors[k]])
  }

  lemma BelowInStack(below: seq<NodeId>, stack: seq<NodeId>)
    requires below <= stack
    ensures forall y :: y in below ==> y in stack
  {
    assert forall k :: 0 <= k < |below| ==> stack[k] == below[k];
  }

  lemma GrayReaches(edges: set<(NodeId, NodeId)>, gray: set<NodeId>, v: NodeId, w: NodeId)
    requires forall g :: g in gray ==> Reach(edges, g, v)
    requires (v, w) in edges
    ensures forall g :: g in gray ==> Reach(edges, g, w)
  {
    hide Reach;
    ReachEdge(edges, v, w);
    forall g | g in gray ensures Reach(edges, g, w) {
      ReachTrans(edges, g, v, w);
    }
  }

  lemma ExpandFirst(edges: set<(NodeId, NodeId)>, below: seq<NodeId>, indices: map<NodeId, nat>, v: NodeId,
                    successors: seq<NodeId>)
    requires forall x :: x in below + [v] ==> x in indices
    ensures Expanding(edges, below, below + [v], indices, v, indices[v], successors, 0)
  {
    ReachSelf(edges, v);
    hide Reach;
    assert v in below + [v];
  }

  /** A child visit extends the stack above the current segment and returns the child's low link. */
  lemma ExpandChild(edges: set<(NodeId, NodeId)>, below: seq<NodeId>, stack: seq<NodeId>, indices: map<NodeId, nat>,
                    stack': seq<NodeId>, indices': map<NodeId, nat>, v: NodeId, bound: nat, successors: seq<NodeId>,
                        i: nat, childLow: nat)
    requires Expanding(edges, below, stack, indices, v, bound, successors, i) && i < |successors|
    requires (v, successors[i]) in edges
    requires stack <= stack' && successors[i] in indices' && (forall x :: x in stack' ==> x in indices')
    requires forall x :: x in indices ==> x in indices' && indices'[x] == indices[x]
    requires successors[i] !in indices
    requires BackEdgesAtLeast(edges, stack'[|stack|..], stack, indices', childLow)
    requires childLow < bound ==> LowWitness(edges, stack', indices', successors[i], childLow)
    ensures Expanding(edges, below, stack', indices', v, if childLow < bound then childLow else bound, successors, i
              + 1)
  {
    hide Reach;
    var w := successors[i];
    ReachEdge(edges, v, w);
    var bound' := if childLow < bound then childLow else bound;
    if childLow < bound {
      var y :| y in stack' && y in indices' && indices'[y] == childLow && Reach(edges, w, y);
      ReachTrans(edges, v, w, y);
    } else {
      var y :| y in stack && y in indices && indices[y] == bound && Reach(edges, v, y);
      assert y in stack';
    }
    assert LowWitness(edges, stack', indices', v, bound');
    var above := stack[|below| + 1..];
    assert stack'[|below| + 1..] == above + stack'[|stack|..];
    BelowInStack(below + [v], stack);
  }

  lemma ExpandSeen(edges: set<(NodeId, NodeId)>, below: seq<NodeId>, stack: seq<NodeId>, indices: map<NodeId, nat>,
                   v: NodeId, bound: nat, successors: seq<NodeId>, i: nat)
    requires Expanding(edges, below, stack, indices, v, bound, successors, i) && i < |successors|
    requires (v, successors[i]) in edges && successors[i] in indices
    ensures var w := successors[i];
            Expanding(edges, below, stack, indices, v, if w in Members(stack)
                && indices[w] < bound then indices[w] else bound, successors, i + 1)
  {
    ReachEdge(edges, v, successors[i]);
    hide Reach;
    BelowInStack(below + [v], stack);
  }

  lemma ExpandDone(edges: set<(NodeId, NodeId)>, below: seq<NodeId>, stack: seq<NodeId>, indices: map<NodeId, nat>,
                   v: NodeId, bound: nat, successors: seq<NodeId>)
    requires v in indices && Expanding(edges, below, stack, indices, v, bound, successors, |successors|)
    requires forall w :: (v, w) in edges ==> w in successors
    ensures stack == below + stack[|below|..] && v in Members(stack) && stack[|below|..][0] == v
    ensures LowWitness(edges, stack, indices, v, bound) && bound <= indices[v]
    ensures BackEdgesAtLeast(edges, stack[|below|..], below, indices, bound)
    ensures forall x :: x in stack ==> x in indices
    ensures forall w :: (v, w) in edges ==> w in indices
  {
    hide Reach;
    assert stack[|below|] == v;
    assert stack[|below|..] == [v] + stack[|below| + 1..];
  }

  lemma StackDistinct(edges: set<(NodeId, NodeId)>, nodes: set<NodeId>, index: nat, stack: seq<NodeId>,
                      indices: map<NodeId, nat>, done: set<NodeId>)
    requires Explored(edges, nodes, index, stack, indices, done)
    ensures NoDuplicates(stack)
  {
  }

  lemma BackEdgesFromNothing(edges: set<(NodeId, NodeId)>, below: seq<NodeId>, indices: map<NodeId, nat>, bound: nat)
    ensures BackEdgesAtLeast(edges, [], below, indices, bound)
  {
  }

  lemma EnterFacts(edges: set<(NodeId, NodeId)>, nodes: set<NodeId>, gray: set<NodeId>, index: nat,
                   stack: seq<NodeId>, indices: map<NodeId, nat>, done: set<NodeId>, v: NodeId, successors: seq<NodeId>)
    requires Searching(edges, nodes, gray, index, stack, indices, done)
    requires v in nodes && v !in indices
    requires forall g :: g in gray ==> Reach(edges, g, v)
    ensures Searching(edges, nodes, gray + {v}, index + 1, stack + [v], indices[v := index], done)
    ensures gray <= Members(stack) && v !in gray && v !in stack && Reach(edges, v, v)
    ensures Members(stack + [v]) == Members(stack) + {v}
    ensures Expanding(edges, stack, stack + [v], indices[v := index], v, index, successors, 0)
  {
    Discover(edges, nodes, gray, index, stack, indices, done, v);
    ReachSelf(edges, v);
    hide Reach, Anchored;
    ExpandFirst(edges, stack, indices[v := index], v, successors);
  }

  // ---------------------------------------------------------------- the search itself

  class Search {
    const adjacency: map<NodeId, seq<NodeId>>
    ghost const nodes: set<NodeId>
    var index: nat
    var stack: seq<NodeId>
    var onStack: set<NodeId>
    var indices: map<NodeId, nat>
    var low: map<NodeId, nat>
    var components: seq<seq<NodeId>>
    ghost var gray: set<NodeId>
    ghost var done: set<NodeId>

    constructor (adjacency: map<NodeId, seq<NodeId>>, ghost nodes: set<NodeId>)
      ensures this.adjacency == adjacency && this.nodes == nodes
      ensures Valid() && gray == {} && indices == map[]
    {
      this.adjacency := adjacency;
      this.nodes := nodes;
      index := 0;
      stack := [];
      onStack := {};
      indices := map[];
      low := map[];
      components := [];
      gray := {};
      done := {};
    }

    ghost predicate Valid()
      reads this
    {
      && Searching(EdgesOf(adjacency), nodes, gray, index, stack, indices, done)
      && Found(EdgesOf(adjacency), nodes, components, done)
      && onStack == Members(stack)
      && low.Keys == indices.Keys
    }

    /** Removes the top of the stack down to v as one sorted component. */
    method PopComponent(v: NodeId, ghost below: seq<NodeId>)
      requires onStack == Members(stack) && NoDuplicates(stack)
      requires |stack| > |below| && stack[..|below|] == below && stack[|below|] == v
      modifies this`stack, this`onStack, this`components
      ensures stack == below && onStack == Members(below)
      ensures |components| == |old(components)| + 1 && components[..|old(components)|] == old(components)
      ensures Sorted(StrLess, components[|old(components)|])
      ensures multiset(components[|old(components)|]) == multiset(old(stack[|below|..]))
    {
      hide StrLess, StrictWeakOrder, TiesAreEqual, Sorted, NoDuplicates, Members;
      var component := [];
      StrLessIsTotalOrder();
      while true
        invariant |below| < |stack| && stack <= old(stack) && stack[..|below|] == below && stack[|below|] == v
        invariant onStack == Members(stack)
        invariant components == old(components)
        invariant multiset(component) + multiset(stack[|below|..]) == multiset(old(stack[|below|..]))
        decreases |stack|
      {
        var last := stack[|stack| - 1];
        ghost var before := stack;
        stack := stack[..|stack| - 1];
        PopOne(before, below, v, old(stack));
        PopMore(component, before, |below|, multiset(old(stack[|below|..])));
        onStack := onStack - {last};
        component := component + [last];
        if last == v {
          break;
        }
      }
      component := Sort(StrLess, component);
      components := components + [component];
    }

    /** Looks at every successor of v in turn, visiting the undiscovered ones. */
    method Expand(v: NodeId, ghost below: seq<NodeId>)
      requires Valid() && v in gray && v in indices && low[v] <= indices[v] < index && below + [v] <= stack
      requires forall u, w :: (u, w) in EdgesOf(adjacency) ==> w in nodes
      requires forall g :: g in gray ==> Reach(EdgesOf(adjacency), g, v)
      requires Expanding(EdgesOf(adjacency), below, stack, indices, v, low[v], Successors(adjacency, v), 0)
      modifies this
      ensures Valid() && gray == old(gray) && v in indices && old(index) <= index && below + [v] <= stack
      ensures forall x :: x in old(indices) ==>
                x in indices && indices[x] == old(indices[x]) && (x != v ==> low[x] == old(low[x]))
      ensures Expanding(EdgesOf(adjacency), below, stack, indices, v, low[v], Successors(adjacency, v),
                |Successors(adjacency, v)|)
      decreases nodes - indices.Keys, 1
    {
      ghost var edges := EdgesOf(adjacency);
      hide Reach, Explored, Open, Found, LowWitness, BackEdgesAtLeast, Expanding, EdgesOf, Members;
      var successors := Successors(adjacency, v);
      SuccessorEdges(adjacency, v);
      hide Successors;
      for i := 0 to |successors|
        invariant Valid() && gray == old(gray) && v in indices && old(index) <= index
        invariant low[v] <= indices[v] < old(index) && below + [v] <= stack
        invariant forall x :: x in old(indices) ==>
                    x in indices && indices[x] == old(indices[x]) && (x != v ==> low[x] == old(low[x]))
        invariant Expanding(edges, below, stack, indices, v, low[v], successors, i)
      {
        var w := successors[i];
        if w !in indices {
          ghost var stack0, indices0, low0 := stack, indices, low[v];
          GrayReaches(edges, gray, v, w);
          assert nodes - indices.Keys == nodes - old(indices.Keys) || nodes - indices.Keys < nodes - old(indices.Keys);
          Visit(w);
          ExpandChild(edges, below, stack0, indices0, stack, indices, v, low0, successors, i, low[w]);
          if low[w] < low[v] {
            low := low[v := low[w]];
          }
        } else {
          ExpandSeen(edges, below, stack, indices, v, low[v], successors, i);
          if w in onStack && indices[w] < low[v] {
            low := low[v := indices[w]];
          }
        }
      }
    }

    /** Assigns v its discovery index and puts it on the stack. */
    method Enter(v: NodeId)
      requires Valid() && v in nodes && v !in indices
      requires forall g :: g in gray ==> Reach(EdgesOf(adjacency), g, v)
      modifies this`index, this`stack, this`onStack, this`indices, this`low, this`gray
      ensures Valid() && gray == old(gray) + {v} && v !in old(gray) && v !in old(stack)
      ensures old(gray) <= Members(old(stack)) && Reach(EdgesOf(adjacency), v, v)
      ensures index == old(index) + 1 && stack == old(stack) + [v]
      ensures indices == old(indices)[v := old(index)] && low == old(low)[v := old(index)]
      ensures Expanding(EdgesOf(adjacency), old(stack), stack, indices, v, low[v], Successors(adjacency, v), 0)
    {
      hide Reach, Explored, Open, Found, LowWitness, BackEdgesAtLeast, Expanding, EdgesOf;
      ghost var edges := EdgesOf(adjacency);
      EnterFacts(edges, nodes, gray, index, stack, indices, done, v, Successors(adjacency, v));
      hide Members, Successors;
      indices, low := indices[v := index], low[v := index];
      index := index + 1;
      stack := stack + [v];
      onStack := onStack + {v};
      gray := gray + {v};
    }

    /** Discovers everything reachable from v; v ends either in an emitted component or below its own index. */
    method Visit(v: NodeId)
      requires Valid() && v in nodes && v !in indices
      requires forall u, w :: (u, w) in EdgesOf(adjacency) ==> w in nodes
      requires forall g :: g in gray ==> Reach(EdgesOf(adjacency), g, v)
      modifies this
      ensures Valid() && gray == old(gray) && v in indices && old(index) <= index
      ensures forall x :: x in old(indices) ==> x in indices && indices[x] == old(indices[x]) && low[x] == old(low[x])
      ensures old(stack) <= stack && forall x :: x in stack ==> x in indices
      ensures v !in onStack ==> low[v] >= old(index)
      ensures v in onStack ==> LowWitness(EdgesOf(adjacency), stack, indices, v, low[v])
      ensures BackEdgesAtLeast(EdgesOf(adjacency), stack[|old(stack)|..], old(stack), indices, low[v])
      decreases nodes - indices.Keys, 0
    {
      hide Reach, Anchored, Explored, Open, Searching, Found, LowWitness, BackEdgesAtLeast, Expanding, EdgesOf,
           Successors, Members;
      ghost var below := stack;
      Enter(v);
      assert nodes - indices.Keys < nodes - old(indices.Keys);
      Expand(v, below);
      Close(v, below);
      assert gray == old(gray);
    }

    /** The end of a visit: either v's low link leads further down, or its segment is a component. */
    method Close(v: NodeId, ghost below: seq<NodeId>)
      requires Valid() && v in gray && v in indices && gray - {v} <= Members(below) && v !in below
               && below + [v] <= stack
      requires Expanding(EdgesOf(adjacency), below, stack, indices, v, low[v], Successors(adjacency, v),
                 |Successors(adjacency, v)|)
      modifies this`stack, this`onStack, this`components, this`gray, this`done
      ensures Valid() && gray == old(gray) - {v}
      ensures below <= stack && forall x :: x in stack ==> x in indices
      ensures v !in onStack ==> low[v] == indices[v]
      ensures v in onStack ==> LowWitness(EdgesOf(adjacency), stack, indices, v, low[v])
      ensures BackEdgesAtLeast(EdgesOf(adjacency), stack[|below|..], below, indices, low[v])
    {
      hide Reach, Explored, Open, Found, LowWitness, BackEdgesAtLeast, Expanding, EdgesOf;
      ghost var edges := EdgesOf(adjacency);
      ghost var segment := stack[|below|..];
      SuccessorEdges(adjacency, v);
      ExpandDone(edges, below, stack, indices, v, low[v], Successors(adjacency, v));
      assert v !in Members(below);
      BackEdgesFromNothing(edges, below, indices, low[v]);
      hide Successors, Members;
      if low[v] == indices[v] {
        assert gray == (gray - {v}) + {v};
        Emit(edges, nodes, gray - {v}, index, below, segment, v, indices, done);
        StackDistinct(edges, nodes, index, stack, indices, done);
        ghost var found := components;
        PopComponent(v, below);
        FoundOneMore(edges, nodes, found, done, segment, components[|found|]);
        assert components == found + [components[|found|]];
        done := done + Members(segment);
        assert stack[|below|..] == [];
      } else {
        assert gray == (gray - {v}) + {v};
        Retreat(edges, gray - {v}, stack, v, indices, low[v]);
      }
      gray := gray - {v};
    }
  }

  /** Tarjan's algorithm as the compiler runs it: the result is exactly the decomposition into components. */
  method StronglyConnected(ids: seq<NodeId>, adjacency: map<NodeId, seq<NodeId>>) returns (components: seq<seq<NodeId>>)
    requires forall u, w :: (u, w) in EdgesOf(adjacency) ==> u in ids && w in ids
    ensures IsDecomposition(EdgesOf(adjacency), Members(ids), components)
  {
    hide Reach, Anchored, Closed, EdgesOf;
    ghost var edges := EdgesOf(adjacency);
    var search := new Search(adjacency, Members(ids));
    for i := 0 to |ids|
      invariant search.Valid() && search.gray == {}
      invariant search.adjacency == adjacency && search.nodes == Members(ids)
      invariant forall k :: 0 <= k < i ==> ids[k] in search.indices
    {
      if ids[i] !in search.indices {
        search.Visit(ids[i]);
      }
    }
    NothingLeft(edges, search.nodes, search.index, search.stack, search.indices, search.done);
    components := SortComponents(edges, Members(ids), search.components);
  }

  /** Without open visits the stack is empty, so everything discovered is finished. */
  lemma NothingLeft(edges: set<(NodeId, NodeId)>, nodes: set<NodeId>, index: nat, stack: seq<NodeId>,
                    indices: map<NodeId, nat>, done: set<NodeId>)
    requires Searching(edges, nodes, {}, index, stack, indices, done)
    ensures stack == [] && done == indices.Keys
  {
    hide Reach, Closed;
    if stack != [] {
      var x := AnchorOf(edges, {}, indices, stack[0]);
    }
  }

  lemma HeadLessIsOrder()
    ensures StrictWeakOrder(HeadLess)
  {
    StrLessIsTotalOrder();
    hide StrLess;
  }

  method SortComponents(ghost edges: set<(NodeId, NodeId)>, ghost nodes: set<NodeId>, components: seq<seq<NodeId>>)
    returns (sorted: seq<seq<NodeId>>)
    requires Found(edges, nodes, components, nodes)
    ensures IsDecomposition(edges, nodes, sorted)
  {
    HeadLessIsOrder();
    hide HeadLess, StrictWeakOrder, IsScc;
    sorted := Sort(HeadLess, components);
    FoundPermutes(edges, nodes, components, sorted);
  }

  lemma DisjointDistinct(components: seq<seq<NodeId>>)
    requires Disjoint(components) && forall c :: c in components ==> c != []
    ensures NoDuplicates(components)
  {
    forall i, j | 0 <= i < j < |components| ensures components[i] != components[j] {
      assert components[i] in components;
      assert components[i][0] in Members(components[i]);
    }
  }

  lemma FoundPermutes(edges: set<(NodeId, NodeId)>, nodes: set<NodeId>, components: seq<seq<NodeId>>,
                      sorted: seq<seq<NodeId>>)
    requires Found(edges, nodes, components, nodes) && multiset(components) == multiset(sorted)
    ensures Found(edges, nodes, sorted, nodes)
  {
    hide StrLess, Sorted, IsScc, Disjoint, Union;
    NonEmptyParts(edges, nodes, components);
    PartsApart(components, sorted);
    SameParts(components, sorted);
  }

  lemma NonEmptyParts(edges: set<(NodeId, NodeId)>, nodes: set<NodeId>, components: seq<seq<NodeId>>)
    requires forall c :: c in components ==> IsScc(edges, nodes, Members(c))
    ensures forall c :: c in components ==> Members(c) != {}
  {
    hide Reach, Members;
  }

  lemma PartsApart(components: seq<seq<NodeId>>, sorted: seq<seq<NodeId>>)
    requires Disjoint(components) && multiset(components) == multiset(sorted)
    requires forall c :: c in components ==> Members(c) != {}
    ensures Disjoint(sorted)
  {
    hide Members;
    assert NoDuplicates(components);
    PermutationFacts(components, sorted);
    forall i, j | 0 <= i < j < |sorted| ensures Members(sorted[i]) !! Members(sorted[j]) {
      assert sorted[i] in sorted && sorted[j] in sorted;
      var a :| 0 <= a < |components| && components[a] == sorted[i];
      var b :| 0 <= b < |components| && components[b] == sorted[j];
      assert a < b || b < a;
    }
  }

  lemma SameParts(components: seq<seq<NodeId>>, sorted: seq<seq<NodeId>>)
    requires multiset(components) == multiset(sorted)
    ensures Union(sorted) == Union(components) && forall c :: c in sorted <==> c in components
  {
    PermutationFacts(components, sorted);
  }

  /** Two decompositions of the same graph list the same component for each vertex. */
  lemma SharedComponent(edges: set<(NodeId, NodeId)>, nodes: set<NodeId>, c: seq<NodeId>, d: seq<NodeId>, x: NodeId)
    requires IsScc(edges, nodes, Members(c)) && Sorted(StrLess, c) && NoDuplicates(c)
    requires IsScc(edges, nodes, Members(d)) && Sorted(StrLess, d) && NoDuplicates(d)
    requires x in c && x in d
    ensures c == d
  {
    hide Reach, StrLess;
    assert x in Members(c) && x in Members(d);
    forall y ensures y in c <==> y in d {
      assert y in Members(c) <==> y in Members(d);
    }
    SameMembersSameMultiset(c, d);
    StrLessIsTotalOrder();
    SortedUnique(StrLess, c, d);
  }

  lemma DecompositionIncludes(edges: set<(NodeId, NodeId)>, nodes: set<NodeId>, one: seq<seq<NodeId>>,
                              two: seq<seq<NodeId>>)
    requires IsDecomposition(edges, nodes, one) && IsDecomposition(edges, nodes, two)
    ensures forall c :: c in one ==> c in two
  {
    hide Reach, StrLess, Disjoint, HeadLess;
    forall c | c in one ensures c in two {
      var x :| x in Members(c);
      assert x in Union(two);
      var d :| d in two && x in d;
      SharedComponent(edges, nodes, c, d, x);
    }
  }

  lemma HeadTies(edges: set<(NodeId, NodeId)>, nodes: set<NodeId>, components: seq<seq<NodeId>>)
    requires forall c :: c in components ==> IsScc(edges, nodes, Members(c)) && Sorted(StrLess, c) && NoDuplicates(c)
    ensures TiesAreEqual(HeadLess, components)
  {
    hide Reach, StrLess, Sorted, NoDuplicates;
    StrLessIsTotalOrder();
    forall c, d | c in components && d in components && !HeadLess(c, d) && !HeadLess(d, c) ensures c == d {
      var x :| x in Members(c);
      var y :| y in Members(d);
      assert TiesAreEqual(StrLess, [c[0], d[0]]);
      SharedComponent(edges, nodes, c, d, c[0]);
    }
  }

  /** The component list is determined by the graph alone, whatever order the search visited it in. */
  lemma DecompositionUnique(edges: set<(NodeId, NodeId)>, nodes: set<NodeId>, one: seq<seq<NodeId>>,
                            two: seq<seq<NodeId>>)
    requires IsDecomposition(edges, nodes, one) && IsDecomposition(edges, nodes, two)
    ensures one == two
  {
    hide IsScc;
    DecompositionIncludes(edges, nodes, one, two);
    DecompositionIncludes(edges, nodes, two, one);
    HeadTies(edges, nodes, one);
    HeadLessIsOrder();
    SccNonEmpty(edges, nodes, one);
    SccNonEmpty(edges, nodes, two);
    DisjointDistinct(one);
    DisjointDistinct(two);
    hide Disjoint, HeadLess, StrictWeakOrder, TiesAreEqual;
    SameMembersSameMultiset(one, two);
    SortedUnique(HeadLess, one, two);
  }

  lemma SccNonEmpty(edges: set<(NodeId, NodeId)>, nodes: set<NodeId>, components: seq<seq<NodeId>>)
    requires forall c :: c in components ==> IsScc(edges, nodes, Members(c))
    ensures forall c :: c in components ==> c != []
  {
    forall c | c in components ensures c != [] {
      assert Members(c) != {};
    }
  }
}
