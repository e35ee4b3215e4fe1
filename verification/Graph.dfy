/** Dependency graphs, the deterministic order both schedulers follow, and Kahn's algorithm.

    The greedy order takes the least ready node again and again. It is the meeting
    point of three pieces of code: the validator's Kahn loop computes it, the plugin
    resolver's Kahn loop computes it, and the incremental scheduler walks along it. */
module Graph {
  import opened Order

  /** Node and plugin identifiers, standing for their ranks: see RankEmbedsIdentifiers. */
  type Id = nat

  datatype Edge = Edge(source: Id, target: Id)

  datatype Graph = Graph(nodes: set<Id>, edges: set<Edge>)

  predicate WellFormed(g: Graph)
  {
    forall e :: e in g.edges ==> e.source in g.nodes && e.target in g.nodes
  }

  function Preds(g: Graph, n: Id): set<Id>
  {
    set s | s in g.nodes && Edge(s, n) in g.edges
  }

  /** Nodes not yet done whose dependencies all are. */
  function Ready(g: Graph, done: set<Id>): set<Id>
  {
    set n | n in g.nodes && n !in done && Preds(g, n) <= done
  }

  // ---------------------------------------------------------------- least element

  ghost predicate IsLeast(s: set<Id>, m: Id) { m in s && forall x :: x in s ==> m <= x }

  lemma {:induction false} LeastExists(s: set<Id>)
    requires s != {}
    ensures exists m :: IsLeast(s, m)
  {
    var a :| a in s;
    var rest := s - {a};
    if rest == {} {
      assert s == {a};
      assert IsLeast(s, a);
    } else {
      LeastExists(rest);
      var m :| IsLeast(rest, m);
      assert forall x :: x in s ==> x == a || x in rest;
      assert IsLeast(s, if a < m then a else m);
    }
  }

  ghost function Least(s: set<Id>): (m: Id)
    requires s != {}
    ensures IsLeast(s, m)
  {
    LeastExists(s);
    var m :| IsLeast(s, m);
    m
  }

  /** The head of an ascending list is the least of its elements. */
  lemma HeadIsLeast(xs: seq<Id>, s: set<Id>)
    requires xs != [] && Ascending(IntLess, xs) && Elements(xs) == s
    ensures s != {} && xs[0] == Least(s)
  {
    assert xs[0] in s;
  }

  // ---------------------------------------------------------------- the greedy order

  /** Take the least ready node until none is ready. */
  ghost function Greedy(g: Graph, done: set<Id>): (order: seq<Id>)
    decreases g.nodes - done
  {
    if Ready(g, done) == {} then []
    else
      var m := Least(Ready(g, done));
      assert g.nodes - (done + {m}) < g.nodes - done by {
        assert m in g.nodes - done && m !in g.nodes - (done + {m});
      }
      [m] + Greedy(g, done + {m})
  }

  /** The greedy order leaves no node out. */
  ghost predicate Sortable(g: Graph) { Elements(Greedy(g, {})) == g.nodes }

  /** p lists the nodes outside done, each once and after everything it depends on. */
  ghost predicate ExtendsFrom(g: Graph, done: set<Id>, p: seq<Id>)
    decreases p
  {
    if p == [] then g.nodes <= done
    else p[0] in Ready(g, done) && ExtendsFrom(g, done + {p[0]}, p[1..])
  }

  /** A permutation of the nodes in which every edge points forward. */
  ghost predicate IsTopologicalOrder(g: Graph, p: seq<Id>)
  {
    && Elements(p) == g.nodes
    && Distinct(p)
    && (forall i, j :: 0 <= i < |p| && 0 <= j < |p| && Edge(p[i], p[j]) in g.edges ==> i < j)
  }

  lemma {:induction false} ExtensionOfSuffix(g: Graph, p: seq<Id>, k: nat)
    requires WellFormed(g) && IsTopologicalOrder(g, p) && k <= |p|
    ensures ExtendsFrom(g, Elements(p[..k]), p[k..])
    decreases |p| - k
  {
    var done := Elements(p[..k]);
    if k == |p| {
      assert p[..k] == p;
    } else {
      assert p[k] in p;
      assert p[k] !in done;
      forall s | s in Preds(g, p[k]) ensures s in done {
        assert Edge(s, p[k]) in g.edges;
        assert s in p;
        var i :| 0 <= i < |p| && p[i] == s;
        assert p[..k][i] == s;
      }
      ExtensionOfSuffix(g, p, k + 1);
      assert Elements(p[..k + 1]) == done + {p[k]};
      assert p[k..][1..] == p[k + 1..];
    }
  }

  lemma {:induction false} GreedyElements(g: Graph, done: set<Id>)
    ensures forall x :: x in Greedy(g, done) ==> x in g.nodes && x !in done
    ensures Distinct(Greedy(g, done))
    ensures Ready(g, done + Elements(Greedy(g, done))) == {}
    decreases g.nodes - done
  {
    if Ready(g, done) != {} {
      var m := Least(Ready(g, done));
      assert m in g.nodes - done && m !in g.nodes - (done + {m});
      GreedyElements(g, done + {m});
      var rest := Greedy(g, done + {m});
      assert Greedy(g, done) == [m] + rest;
      assert done + Elements([m] + rest) == done + {m} + Elements(rest);
    } else {
      assert done + Elements(Greedy(g, done)) == done;
    }
  }

  /** Stopping and restarting the greedy choice after any prefix gives the remaining suffix. */
  lemma {:induction false} GreedySuffix(g: Graph, done: set<Id>, k: nat)
    requires k <= |Greedy(g, done)|
    ensures Greedy(g, done + Elements(Greedy(g, done)[..k])) == Greedy(g, done)[k..]
    decreases k
  {
    var order := Greedy(g, done);
    if k == 0 {
      assert done + Elements(order[..0]) == done;
    } else {
      var m := order[0];
      GreedySuffix(g, done + {m}, k - 1);
      assert order == [m] + order[1..];
      assert order[..k] == [m] + order[1..][..k - 1];
      assert done + Elements(order[..k]) == done + {m} + Elements(order[1..][..k - 1]);
    }
  }

  /** Every entry of the greedy order was ready when it was taken. */
  lemma GreedyRespectsEdges(g: Graph, k: nat)
    requires k < |Greedy(g, {})|
    ensures Greedy(g, {})[k] in Ready(g, Elements(Greedy(g, {})[..k]))
    ensures Greedy(g, {})[k] == Least(Ready(g, Elements(Greedy(g, {})[..k])))
  {
    var order := Greedy(g, {});
    GreedySuffix(g, {}, k);
    assert {} + Elements(order[..k]) == Elements(order[..k]);
    assert order[k..][0] == order[k];
  }

  lemma GreedyIsTopological(g: Graph)
    requires WellFormed(g) && Sortable(g)
    ensures IsTopologicalOrder(g, Greedy(g, {}))
  {
    var order := Greedy(g, {});
    GreedyElements(g, {});
    forall i, j | 0 <= i < |order| && 0 <= j < |order| && Edge(order[i], order[j]) in g.edges ensures i < j {
      GreedyRespectsEdges(g, j);
      assert order[i] in Preds(g, order[j]);
      var k :| 0 <= k < j && order[..j][k] == order[i];
      assert order[k] == order[i];
    }
  }

  lemma {:induction false} GreedyBelowExtension(g: Graph, done: set<Id>, p: seq<Id>)
    requires ExtendsFrom(g, done, p)
    ensures Greedy(g, done) == p || LexLess(IntLess, Greedy(g, done), p)
    decreases |p|
  {
    if p == [] {
      assert Ready(g, done) == {};
    } else {
      var m := Least(Ready(g, done));
      if m == p[0] {
        GreedyBelowExtension(g, done + {m}, p[1..]);
        assert p == [m] + p[1..];
      } else {
        assert m < p[0];
      }
    }
  }

  /** The greedy order is the lexicographically least topological order. */
  lemma GreedyIsLeast(g: Graph, p: seq<Id>)
    requires WellFormed(g) && IsTopologicalOrder(g, p)
    ensures Greedy(g, {}) == p || LexLess(IntLess, Greedy(g, {}), p)
  {
    ExtensionOfSuffix(g, p, 0);
    assert p[0..] == p && Elements(p[..0]) == {};
    GreedyBelowExtension(g, {}, p);
  }

  // ---------------------------------------------------------------- cycles

  ghost predicate IsWalk(g: Graph, w: seq<Id>)
  {
    forall i :: 0 <= i < |w| - 1 ==> Edge(w[i], w[i + 1]) in g.edges
  }

  ghost predicate IsCycle(g: Graph, w: seq<Id>)
  {
    |w| >= 2 && IsWalk(g, w) && w[0] == w[|w| - 1]
  }

  ghost predicate Acyclic(g: Graph) { forall w :: !IsCycle(g, w) }

  lemma {:induction false} DistinctLength(w: seq<Id>, s: set<Id>)
    requires forall x :: x in w ==> x in s
    requires Distinct(w)
    ensures |w| <= |s|
  {
    if w != [] {
      var last := w[|w| - 1];
      assert last in w;
      var init := w[..|w| - 1];
      forall x | x in init ensures x in s - {last} {
        var i :| 0 <= i < |init| && init[i] == x;
        assert w[i] == x;
      }
      DistinctLength(init, s - {last});
    }
  }

  ghost predicate HasPredIn(g: Graph, region: set<Id>, n: Id)
  {
    exists s :: s in region && Edge(s, n) in g.edges
  }

  /** Where every node of a non-empty region has a predecessor in the region, walking
      backwards must revisit a node. */
  lemma {:induction false} WalkBack(g: Graph, region: set<Id>, w: seq<Id>) returns (cycle: seq<Id>)
    requires forall n :: n in region ==> HasPredIn(g, region, n)
    requires w != [] && IsWalk(g, w) && forall x :: x in w ==> x in region
    requires Distinct(w)
    ensures IsCycle(g, cycle)
    decreases |region| - |w|
  {
    assert w[0] in w;
    assert HasPredIn(g, region, w[0]);
    var s :| s in region && Edge(s, w[0]) in g.edges;
    if s in w {
      var k :| 0 <= k < |w| && w[k] == s;
      cycle := [s] + w[..k + 1];
    } else {
      DistinctLength([s] + w, region);
      cycle := WalkBack(g, region, [s] + w);
    }
  }

  lemma {:induction false} PositionsIncrease(g: Graph, p: seq<Id>, w: seq<Id>, a: nat, b: nat)
    requires WellFormed(g) && IsTopologicalOrder(g, p) && IsWalk(g, w) && |w| >= 2
    requires a < |p| && b < |p| && p[a] == w[0] && p[b] == w[|w| - 1]
    ensures a < b
    decreases |w|
  {
    assert Edge(w[0], w[1]) in g.edges;
    assert w[1] in p;
    var c :| 0 <= c < |p| && p[c] == w[1];
    if |w| > 2 {
      assert IsWalk(g, w[1..]) by {
        forall i | 0 <= i < |w[1..]| - 1 ensures Edge(w[1..][i], w[1..][i + 1]) in g.edges {
          assert Edge(w[i + 1], w[i + 1 + 1]) in g.edges;
        }
      }
      PositionsIncrease(g, p, w[1..], c, b);
    }
  }

  lemma TopologicalOrderForbidsCycle(g: Graph, order: seq<Id>, w: seq<Id>)
    requires WellFormed(g) && IsTopologicalOrder(g, order)
    ensures !IsCycle(g, w)
  {
    if IsCycle(g, w) {
      assert Edge(w[0], w[1]) in g.edges;
      assert w[0] in order;
      var a :| 0 <= a < |order| && order[a] == w[0];
      PositionsIncrease(g, order, w, a, a);
    }
  }

  lemma StuckRegionHasCycle(g: Graph, done: set<Id>) returns (cycle: seq<Id>)
    requires WellFormed(g) && done < g.nodes && Ready(g, done) == {}
    ensures IsCycle(g, cycle)
  {
    var region := g.nodes - done;
    forall n | n in region ensures HasPredIn(g, region, n) {
      assert n !in Ready(g, done);
      var s :| s in Preds(g, n) && s !in done;
      assert Edge(s, n) in g.edges;
    }
    assert region != {} by {
      var n :| n in g.nodes && n !in done;
      assert n in region;
    }
    var n :| n in region;
    cycle := WalkBack(g, region, [n]);
  }

  /** The greedy order is complete exactly on graphs without a cycle. */
  lemma SortableIffAcyclic(g: Graph)
    requires WellFormed(g)
    ensures Sortable(g) <==> Acyclic(g)
  {
    var order := Greedy(g, {});
    if Sortable(g) {
      GreedyIsTopological(g);
      forall w ensures !IsCycle(g, w) { TopologicalOrderForbidsCycle(g, order, w); }
    } else {
      GreedyElements(g, {});
      assert {} + Elements(order) == Elements(order) < g.nodes;
      var cycle := StuckRegionHasCycle(g, Elements(order));
    }
  }
  // ---------------------------------------------------------------- what a cycle blocks

  /** The nodes the greedy order never reaches. */
  ghost function Blocked(g: Graph): set<Id> { g.nodes - Elements(Greedy(g, {})) }

  /** A walk that ends in n and meets a node twice on its way. */
  ghost predicate LoopsInto(g: Graph, w: seq<Id>, n: Id)
  {
    w != [] && IsWalk(g, w) && w[|w| - 1] == n && !Distinct(w)
  }

  lemma {:induction false} LoopBack(g: Graph, region: set<Id>, w: seq<Id>) returns (loop: seq<Id>)
    requires forall n :: n in region ==> HasPredIn(g, region, n)
    requires w != [] && IsWalk(g, w) && forall x :: x in w ==> x in region
    requires Distinct(w)
    ensures LoopsInto(g, loop, w[|w| - 1])
    decreases |region| - |w|
  {
    assert w[0] in w;
    assert HasPredIn(g, region, w[0]);
    var s :| s in region && Edge(s, w[0]) in g.edges;
    if s in w {
      var k :| 0 <= k < |w| && w[k] == s;
      loop := [s] + w;
      assert loop[0] == loop[k + 1];
    } else {
      DistinctLength([s] + w, region);
      loop := LoopBack(g, region, [s] + w);
    }
  }

  /** A walk that ends in the greedy order stays in it, and goes forward. */
  lemma {:induction false} WalkStaysBehind(g: Graph, w: seq<Id>, k: nat)
    requires WellFormed(g) && k < |Greedy(g, {})| && w != [] && IsWalk(g, w) && w[|w| - 1] == Greedy(g, {})[k]
    ensures Distinct(w) && forall x :: x in w ==> x in Greedy(g, {})[..k + 1]
    decreases k
  {
    var order, n := Greedy(g, {}), |w| - 1;
    GreedyElements(g, {});
    if n > 0 {
      var init := w[..n];
      assert IsWalk(g, init) by {
        forall i | 0 <= i < n - 1 ensures Edge(init[i], init[i + 1]) in g.edges { assert Edge(w[i], w[i + 1]) in g.edges; }
      }
      assert Edge(w[n - 1], w[n]) in g.edges;
      GreedyRespectsEdges(g, k);
      assert w[n - 1] in Preds(g, order[k]) && w[n - 1] in order[..k];
      var j :| 0 <= j < k && order[..k][j] == w[n - 1];
      WalkStaysBehind(g, init, j);
      assert order[k] !in order[..j + 1];
      assert w == init + [order[k]] && order[k] !in init;
    }
  }

  lemma BlockedWaits(g: Graph, m: Id)
    requires WellFormed(g) && m in Blocked(g)
    ensures HasPredIn(g, Blocked(g), m)
  {
    var order := Greedy(g, {});
    GreedyElements(g, {});
    assert {} + Elements(order) == Elements(order);
    assert m !in Ready(g, Elements(order));
    hide Greedy;
    var s :| s in Preds(g, m) && s !in Elements(order);
    assert Edge(s, m) in g.edges;
  }

  /** Exactly the nodes on a cycle, or reached from one, are blocked. */
  lemma BlockedExactly(g: Graph, n: Id)
    requires WellFormed(g) && n in g.nodes
    ensures n in Blocked(g) <==> exists w :: LoopsInto(g, w, n)
  {
    var order := Greedy(g, {});
    hide Greedy, LoopsInto;
    if n in order {
      var k :| 0 <= k < |order| && order[k] == n;
      forall w ensures !LoopsInto(g, w, n) { NoLoopBehind(g, w, n, k); }
    } else {
      var region := Blocked(g);
      forall m | m in region ensures HasPredIn(g, region, m) { BlockedWaits(g, m); }
      var loop := LoopBack(g, region, [n]);
    }
  }

  lemma NoLoopBehind(g: Graph, w: seq<Id>, n: Id, k: nat)
    requires WellFormed(g) && k < |Greedy(g, {})| && Greedy(g, {})[k] == n
    ensures !LoopsInto(g, w, n)
  {
    hide Greedy;
    if LoopsInto(g, w, n) { WalkStaysBehind(g, w, k); }
  }
}
