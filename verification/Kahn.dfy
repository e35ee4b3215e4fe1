/** Kahn's algorithm as the workflow validator and the plugin resolver run it: a table of
    incoming counts, a sorted ready list, and one decrement per outgoing edge. */
module Kahn {
  import opened Wrappers
  import opened Order
  import opened Graph

  /** Every dependency of a finished node is finished. */
  ghost predicate Closed(g: Graph, done: set<Id>)
  {
    forall d :: d in done ==> Preds(g, d) <= done
  }

  /** The number of dependencies of n that are not finished. */
  ghost function Waiting(g: Graph, done: set<Id>, n: Id): nat { |Preds(g, n) - done| }

  ghost predicate CountsAre(g: Graph, done: set<Id>, incoming: map<Id, nat>)
  {
    incoming.Keys == g.nodes && forall n :: n in g.nodes ==> incoming[n] == Waiting(g, done, n)
  }

  /** The sorted ready list holds exactly the ready nodes. */
  ghost predicate ReadyListIs(g: Graph, done: set<Id>, ready: seq<Id>)
  {
    Ascending(IntLess, ready) && Elements(ready) == Ready(g, done)
  }

  lemma AppendAndSort(ready: seq<Id>, target: Id)
    requires Ascending(IntLess, ready) && target !in ready
    ensures Ascending(IntLess, SortBy(IntLess, ready + [target]))
    ensures Elements(SortBy(IntLess, ready + [target])) == Elements(ready) + {target}
  {
    SortNats(ready + [target]);
  }

  /** Finishing current drops by one the count of each of its targets, and only those. */
  lemma FinishDropsCounts(g: Graph, done: set<Id>, current: Id, n: Id)
    requires WellFormed(g) && current !in done
    ensures Edge(current, n) in g.edges ==> Waiting(g, done, n) == Waiting(g, done + {current}, n) + 1
    ensures Edge(current, n) !in g.edges ==> Waiting(g, done, n) == Waiting(g, done + {current}, n)
  {
    var after := Preds(g, n) - (done + {current});
    if Edge(current, n) in g.edges {
      assert current in Preds(g, n);
      assert Preds(g, n) - done == after + {current};
    } else {
      assert Preds(g, n) - done == after;
    }
  }

  lemma ReadyIffNoneWaiting(g: Graph, done: set<Id>, n: Id)
    requires n in g.nodes && n !in done
    ensures n in Ready(g, done) <==> Waiting(g, done, n) == 0
  {
    var open := Preds(g, n) - done;
    if Preds(g, n) <= done {
      assert open == {};
    } else {
      var s :| s in Preds(g, n) && s !in done;
      assert s in open;
    }
  }

  lemma TargetIsFresh(g: Graph, done: set<Id>, current: Id, target: Id)
    requires WellFormed(g) && Closed(g, done) && current in Ready(g, done) && Edge(current, target) in g.edges
    ensures target !in done && target != current && target !in Ready(g, done)
    ensures Closed(g, done + {current})
  {
    assert current in Preds(g, target);
  }

  /** The nodes ready after current: those ready before, without current, and its released targets. */
  lemma ReadyAfter(g: Graph, done: set<Id>, current: Id, released: set<Id>)
    requires WellFormed(g) && Closed(g, done) && current in Ready(g, done)
    requires forall t :: t in released <==> t in g.nodes && Edge(current, t) in g.edges && Waiting(g, done + {current}, t) == 0
    ensures Ready(g, done + {current}) == Ready(g, done) - {current} + released
  {
    var after := done + {current};
    forall n ensures n in Ready(g, after) <==> n in Ready(g, done) - {current} + released {
      if n in g.nodes {
        FinishDropsCounts(g, done, current, n);
        if Edge(current, n) in g.edges { TargetIsFresh(g, done, current, n); }
        if n !in after { ReadyIffNoneWaiting(g, after, n); ReadyIffNoneWaiting(g, done, n); }
      }
    }
  }

  /** Targets of current whose last open dependency was current. */
  ghost function Released(g: Graph, done: set<Id>, current: Id, handled: set<Id>): set<Id>
  {
    set t | t in handled && Waiting(g, done + {current}, t) == 0
  }

  /** The tables half way through the inner loop. */
  ghost predicate Partial(g: Graph, done: set<Id>, current: Id, handled: set<Id>, counts: map<Id, nat>, next: seq<Id>)
  {
    && counts.Keys == g.nodes
    && (forall n :: n in g.nodes ==>
         counts[n] == if n in handled then Waiting(g, done + {current}, n) else Waiting(g, done, n))
    && Ascending(IntLess, next)
    && Elements(next) == Ready(g, done) - {current} + Released(g, done, current, handled)
  }

  lemma CountStep(g: Graph, done: set<Id>, current: Id, handled: set<Id>, target: Id,
                  counts: map<Id, nat>, next: seq<Id>)
    requires WellFormed(g) && current in Ready(g, done)
    requires Partial(g, done, current, handled, counts, next)
    requires target in g.nodes && target !in handled && Edge(current, target) in g.edges
    ensures counts[target] > 0
    ensures counts[target] - 1 == Waiting(g, done + {current}, target)
    ensures forall n :: n in g.nodes ==>
      counts[target := counts[target] - 1][n]
        == (if n in handled + {target} then Waiting(g, done + {current}, n) else Waiting(g, done, n))
  {
    FinishDropsCounts(g, done, current, target);
    hide Ascending, Closed, Ready, WellFormed, Preds, Released, Waiting;
  }

  lemma ListStep(g: Graph, done: set<Id>, current: Id, handled: set<Id>, target: Id,
                 counts: map<Id, nat>, next: seq<Id>)
    requires WellFormed(g) && Closed(g, done) && current in Ready(g, done)
    requires Partial(g, done, current, handled, counts, next)
    requires target !in handled && Edge(current, target) in g.edges
    ensures Waiting(g, done + {current}, target) != 0 ==>
      Elements(next) == Ready(g, done) - {current} + Released(g, done, current, handled + {target})
    ensures Waiting(g, done + {current}, target) == 0 ==>
      && Ascending(IntLess, SortBy(IntLess, next + [target]))
      && Elements(SortBy(IntLess, next + [target])) == Ready(g, done) - {current} + Released(g, done, current, handled + {target})
  {
    TargetIsFresh(g, done, current, target);
    hide Ascending, Closed, Ready, SortBy, WellFormed, Preds, Released, Waiting;
    ReleasedStep(g, done, current, handled, target);
    ReleasedHandled(g, done, current, handled, target);
    if Waiting(g, done + {current}, target) == 0 {
      assert target !in Elements(next);
      AppendAndSort(next, target);
    }
  }

  lemma ReleasedStep(g: Graph, done: set<Id>, current: Id, handled: set<Id>, target: Id)
    ensures Released(g, done, current, handled + {target}) == Released(g, done, current, handled)
            + if Waiting(g, done + {current}, target) == 0 then {target} else {}
  {
    hide Waiting;
  }

  lemma ReleasedHandled(g: Graph, done: set<Id>, current: Id, handled: set<Id>, target: Id)
    requires target !in handled
    ensures target !in Released(g, done, current, handled)
  {
  }

  /** The inner loop: one decrement per outgoing edge, and a re-sort per released node. */
  method Release(ghost g: Graph, ghost done: set<Id>, current: Id, targets: seq<Id>,
                 incoming: map<Id, nat>, ready: seq<Id>)
    returns (counts: map<Id, nat>, next: seq<Id>)
    requires WellFormed(g) && Closed(g, done) && current in Ready(g, done)
    requires Distinct(targets) && forall t :: t in targets <==> Edge(current, t) in g.edges
    requires CountsAre(g, done, incoming)
    requires Ascending(IntLess, ready) && Elements(ready) == Ready(g, done) - {current}
    ensures CountsAre(g, done + {current}, counts)
    ensures ReadyListIs(g, done + {current}, next)
  {
    hide Distinct, Ascending, Waiting, Closed, Ready, SortBy;
    counts, next := incoming, ready;
    assert Released(g, done, current, Elements(targets[..0])) == {};
    for i := 0 to |targets|
      invariant Partial(g, done, current, Elements(targets[..i]), counts, next)
    {
      var target := targets[i];
      assert target in targets;
      DistinctPrefix(targets, i);
      assert Elements(targets[..i + 1]) == Elements(targets[..i]) + {target};
      CountStep(g, done, current, Elements(targets[..i]), target, counts, next);
      ListStep(g, done, current, Elements(targets[..i]), target, counts, next);
      counts := counts[target := counts[target] - 1];
      if counts[target] == 0 {
        next := SortBy(IntLess, next + [target]);
      }
    }
    assert targets[..|targets|] == targets;
    ReleaseDone(g, done, current, Elements(targets), counts, next);
  }

  lemma ReleaseDone(g: Graph, done: set<Id>, current: Id, handled: set<Id>, counts: map<Id, nat>, next: seq<Id>)
    requires WellFormed(g) && Closed(g, done) && current in Ready(g, done)
    requires forall t :: t in handled <==> Edge(current, t) in g.edges
    requires Partial(g, done, current, handled, counts, next)
    ensures CountsAre(g, done + {current}, counts)
    ensures ReadyListIs(g, done + {current}, next)
  {
    forall n | n in g.nodes ensures counts[n] == Waiting(g, done + {current}, n) {
      FinishDropsCounts(g, done, current, n);
    }
    ReadyAfter(g, done, current, Released(g, done, current, handled));
  }

  /** The nodes whose count is zero, in table order. */
  function Unblocked(nodes: seq<Id>, incoming: map<Id, nat>): (r: seq<Id>)
    requires forall n :: n in nodes ==> n in incoming
    ensures forall n :: n in r <==> n in nodes && incoming[n] == 0
  {
    if nodes == [] then []
    else
      var rest := Unblocked(nodes[1..], incoming);
      assert nodes == [nodes[0]] + nodes[1..];
      if incoming[nodes[0]] == 0 then [nodes[0]] + rest else rest
  }

  lemma {:induction false} UnblockedDistinct(nodes: seq<Id>, incoming: map<Id, nat>)
    requires forall n :: n in nodes ==> n in incoming
    requires Distinct(nodes)
    ensures Distinct(Unblocked(nodes, incoming))
  {
    if nodes != [] {
      UnblockedDistinct(nodes[1..], incoming);
      assert nodes[0] !in nodes[1..];
      var rest := Unblocked(nodes[1..], incoming);
      assert nodes[0] !in rest;
    }
  }

  /** The adjacency lists hold every edge once. */
  ghost predicate AdjacencyIs(g: Graph, outgoing: map<Id, seq<Id>>)
  {
    && outgoing.Keys == g.nodes
    && (forall n :: n in g.nodes ==> Distinct(outgoing[n]))
    && (forall n, t :: n in g.nodes ==> (t in outgoing[n] <==> Edge(n, t) in g.edges))
  }

  /** The tables describe the graph built so far. */
  ghost predicate TablesAre(g: Graph, incoming: map<Id, nat>, outgoing: map<Id, seq<Id>>)
  {
    && incoming.Keys == g.nodes
    && (forall n :: n in g.nodes ==> incoming[n] == |Preds(g, n)|)
    && AdjacencyIs(g, outgoing)
  }

  lemma DistinctAppend<T>(xs: seq<T>, x: T)
    requires Distinct(xs) && x !in xs
    ensures Distinct(xs + [x])
  {
  }

  lemma PredsAfter(g: Graph, e: Edge, n: Id)
    requires WellFormed(g) && e !in g.edges && e.source in g.nodes && e.target in g.nodes
    ensures |Preds(Graph(g.nodes, g.edges + {e}), n)| == |Preds(g, n)| + if n == e.target then 1 else 0
  {
    var after := Preds(Graph(g.nodes, g.edges + {e}), n);
    if n == e.target {
      assert e.source !in Preds(g, n);
      assert after == Preds(g, n) + {e.source};
    } else {
      assert after == Preds(g, n);
    }
  }

  lemma AddEdge(g: Graph, e: Edge, incoming: map<Id, nat>, outgoing: map<Id, seq<Id>>)
    requires WellFormed(g) && TablesAre(g, incoming, outgoing)
    requires e !in g.edges && e.source in g.nodes && e.target in g.nodes
    ensures TablesAre(Graph(g.nodes, g.edges + {e}), incoming[e.target := incoming[e.target] + 1],
                      outgoing[e.source := outgoing[e.source] + [e.target]])
  {
    hide Distinct, WellFormed, Preds;
    DistinctAppend(outgoing[e.source], e.target);
    forall n | n in g.nodes { PredsAfter(g, e, n); }
  }

  lemma DistinctPrefix<T>(xs: seq<T>, k: nat)
    requires Distinct(xs) && k < |xs|
    ensures xs[k] !in xs[..k]
  {
  }

  lemma InitialTables(nodes: seq<Id>)
    ensures TablesAre(Graph(Elements(nodes), {}), map n | n in nodes :: 0, map n | n in nodes :: [])
  {
  }

  /** Counts and adjacency lists built from the dependency list. */
  method Tables(nodes: seq<Id>, deps: seq<Edge>) returns (incoming: map<Id, nat>, outgoing: map<Id, seq<Id>>)
    requires Distinct(deps)
    requires forall e :: e in deps ==> e.source in nodes && e.target in nodes
    ensures TablesAre(Graph(Elements(nodes), Elements(deps)), incoming, outgoing)
  {
    hide Distinct, Preds;
    InitialTables(nodes);
    incoming := map n | n in nodes :: 0;
    outgoing := map n | n in nodes :: [];
    assert Elements(deps[..0]) == {};
    for i := 0 to |deps|
      invariant TablesAre(Graph(Elements(nodes), Elements(deps[..i])), incoming, outgoing)
    {
      var e := deps[i];
      assert e in deps;
      DistinctPrefix(deps, i);
      assert Elements(deps[..i + 1]) == Elements(deps[..i]) + {e};
      AddEdge(Graph(Elements(nodes), Elements(deps[..i])), e, incoming, outgoing);
      incoming := incoming[e.target := incoming[e.target] + 1];
      outgoing := outgoing[e.source := outgoing[e.source] + [e.target]];
    }
    assert deps[..|deps|] == deps;
  }

  lemma InitialCounts(g: Graph, incoming: map<Id, nat>)
    requires incoming.Keys == g.nodes
    requires forall n :: n in g.nodes ==> incoming[n] == |Preds(g, n)|
    ensures CountsAre(g, {}, incoming)
  {
    forall n | n in g.nodes ensures incoming[n] == Waiting(g, {}, n) {
      assert Preds(g, n) - {} == Preds(g, n);
    }
  }

  lemma InitialReady(nodes: seq<Id>, g: Graph, incoming: map<Id, nat>)
    requires Distinct(nodes) && Elements(nodes) == g.nodes && CountsAre(g, {}, incoming)
    ensures ReadyListIs(g, {}, SortBy(IntLess, Unblocked(nodes, incoming)))
  {
    hide Waiting, Preds, Distinct, Ascending;
    UnblockedDistinct(nodes, incoming);
    SortNats(Unblocked(nodes, incoming));
    forall n | n in g.nodes ensures n in Ready(g, {}) <==> incoming[n] == 0 {
      assert n !in {};
      ReadyIffNoneWaiting(g, {}, n);
    }
    hide Ready;
    ReadyInNodes(g, {});
    forall n ensures n in Elements(Unblocked(nodes, incoming)) <==> n in Ready(g, {}) {}
  }

  lemma ReadyInNodes(g: Graph, done: set<Id>)
    ensures forall n :: n in Ready(g, done) ==> n in g.nodes
  {
  }

  /** Popping the head of the ready list takes the next node of the greedy order. */
  lemma PopStep(g: Graph, order: seq<Id>, ready: seq<Id>)
    requires Closed(g, Elements(order)) && ready != [] && ReadyListIs(g, Elements(order), ready)
    ensures ready[0] in Ready(g, Elements(order))
    ensures Elements(order + [ready[0]]) == Elements(order) + {ready[0]}
    ensures Closed(g, Elements(order + [ready[0]]))
    ensures order + [ready[0]] + Greedy(g, Elements(order + [ready[0]])) == order + Greedy(g, Elements(order))
    ensures Ascending(IntLess, ready[1..]) && Elements(ready[1..]) == Ready(g, Elements(order)) - {ready[0]}
    ensures g.nodes - Elements(order + [ready[0]]) < g.nodes - Elements(order)
  {
    var done, current := Elements(order), ready[0];
    HeadIsLeast(ready, Ready(g, done));
    TailElements(IntLess, ready);
    assert Elements(order + [current]) == done + {current};
    assert Greedy(g, done) == [current] + Greedy(g, done + {current});
    assert current in g.nodes - done;
  }

  lemma SortedTargets(g: Graph, outgoing: map<Id, seq<Id>>, current: Id)
    requires AdjacencyIs(g, outgoing) && current in g.nodes
    ensures current in outgoing
    ensures var targets := SortBy(IntLess, outgoing[current]);
            Distinct(targets) && forall t :: t in targets <==> Edge(current, t) in g.edges
  {
    var targets := SortBy(IntLess, outgoing[current]);
    SortNats(outgoing[current]);
    AscendingDistinct(IntLess, targets);
    forall t ensures t in targets <==> Edge(current, t) in g.edges {
      assert t in Elements(targets) <==> t in Elements(outgoing[current]);
    }
  }

  /** When nothing is ready, exactly the nodes never taken have a count left. */
  lemma CountsLeft(g: Graph, done: set<Id>, incoming: map<Id, nat>)
    requires CountsAre(g, done, incoming) && Closed(g, done) && Ready(g, done) == {}
    ensures forall n :: n in g.nodes ==> (incoming[n] != 0 <==> n !in done)
  {
    forall n | n in g.nodes ensures incoming[n] != 0 <==> n !in done {
      if n in done { assert Preds(g, n) - done == {}; } else { ReadyIffNoneWaiting(g, done, n); }
    }
  }

  /** Kahn's loop: pop the least ready node, then release its targets. */
  method Drain(ghost g: Graph, outgoing: map<Id, seq<Id>>, counts: map<Id, nat>, first: seq<Id>)
    returns (order: seq<Id>, incoming: map<Id, nat>)
    requires WellFormed(g) && AdjacencyIs(g, outgoing)
    requires CountsAre(g, {}, counts) && ReadyListIs(g, {}, first)
    ensures order == Greedy(g, {})
    ensures incoming.Keys == g.nodes && forall n :: n in g.nodes ==> (incoming[n] != 0 <==> n in Blocked(g))
  {
    hide Ascending, Distinct, Ready, Closed, Preds, WellFormed, SortBy, Greedy, Waiting, AdjacencyIs;
    var ready := first;
    incoming, order := counts, [];
    assert Elements(order) == {};
    ClosedEmpty(g);
    assert order + Greedy(g, {}) == Greedy(g, {});
    while ready != []
      invariant Closed(g, Elements(order))
      invariant CountsAre(g, Elements(order), incoming)
      invariant ReadyListIs(g, Elements(order), ready)
      invariant order + Greedy(g, Elements(order)) == Greedy(g, {})
      decreases g.nodes - Elements(order)
    {
      PopStep(g, order, ready);
      var current := ready[0];
      ghost var done := Elements(order);
      ready := ready[1..];
      order := order + [current];
      ReadyInNodes(g, done);
      SortedTargets(g, outgoing, current);
      var targets := SortBy(IntLess, outgoing[current]);
      incoming, ready := Release(g, done, current, targets, incoming, ready);
    }
    GreedyEmpty(g, Elements(order));
    assert order + [] == order;
    CountsLeft(g, Elements(order), incoming);
  }

  /** The validator's order: present exactly when no dependency cycle exists, and then greedy; and
      the incoming counts the loop leaves, which are zero exactly for the nodes it took. */
  method TopologicalOrder(nodes: seq<Id>, deps: seq<Edge>) returns (result: Option<seq<Id>>, counts: map<Id, nat>)
    requires Distinct(nodes) && Distinct(deps)
    requires forall e :: e in deps ==> e.source in nodes && e.target in nodes
    ensures result.Some? <==> Acyclic(Graph(Elements(nodes), Elements(deps)))
    ensures result.Some? ==> result.value == Greedy(Graph(Elements(nodes), Elements(deps)), {})
    ensures counts.Keys == Elements(nodes)
    ensures forall n :: n in nodes ==> (counts[n] != 0 <==> n in Blocked(Graph(Elements(nodes), Elements(deps))))
  {
    ghost var g := Graph(Elements(nodes), Elements(deps));
    GraphWellFormed(nodes, deps);
    hide Ascending, Distinct, Preds, WellFormed, SortBy, Greedy, Waiting, Unblocked, Acyclic, Blocked;
    var incoming, outgoing := Tables(nodes, deps);
    InitialCounts(g, incoming);
    InitialReady(nodes, g, incoming);
    var order, left := Drain(g, outgoing, incoming, SortBy(IntLess, Unblocked(nodes, incoming)));
    counts := left;
    KahnDone(g, nodes);
    if |order| != |nodes| {
      result := None;
    } else {
      result := Some(order);
    }
  }

  lemma GreedyEmpty(g: Graph, done: set<Id>)
    requires Ready(g, done) == {}
    ensures Greedy(g, done) == []
  {
  }

  lemma GraphWellFormed(nodes: seq<Id>, deps: seq<Edge>)
    requires forall e :: e in deps ==> e.source in nodes && e.target in nodes
    ensures WellFormed(Graph(Elements(nodes), Elements(deps)))
  {
  }

  lemma ClosedEmpty(g: Graph)
    ensures Closed(g, {})
  {
  }

  /** The loop collects as many nodes as there are exactly when there is no cycle. */
  lemma KahnDone(g: Graph, nodes: seq<Id>)
    requires WellFormed(g) && Distinct(nodes) && Elements(nodes) == g.nodes
    ensures |Greedy(g, {})| == |nodes| <==> Acyclic(g)
  {
    GreedyElements(g, {});
    OrderLength(Greedy(g, {}), nodes);
    SortableIffAcyclic(g);
  }

  /** A repetition-free list of nodes is complete exactly when it is as long as the node list. */
  lemma OrderLength(order: seq<Id>, nodes: seq<Id>)
    requires Distinct(order) && Distinct(nodes) && Elements(order) <= Elements(nodes)
    ensures |order| == |nodes| <==> Elements(order) == Elements(nodes)
  {
    DistinctCard(order);
    DistinctCard(nodes);
    if |order| == |nodes| && Elements(order) != Elements(nodes) {
      var missing :| missing in Elements(nodes) && missing !in Elements(order);
      assert Elements(order) <= Elements(nodes) - {missing};
      Subset(Elements(order), Elements(nodes) - {missing});
    }
  }

  lemma {:induction false} Subset<T>(a: set<T>, b: set<T>)
    requires a <= b
    ensures |a| <= |b|
  {
    assert b == a + (b - a);
  }
}
