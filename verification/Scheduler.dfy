/** The incremental one-at-a-time scheduler of the workflow driver. */
module Scheduler {
  import opened Wrappers
  import opened Order
  import opened Graph
  import opened Kahn

  /** The nodes of xs that satisfy the scheduler's readiness test, in the order of xs. */
  function FilterReady(g: Graph, completed: set<Id>, xs: seq<Id>): seq<Id>
  {
    if xs == [] then []
    else if xs[0] !in completed && Preds(g, xs[0]) <= completed
    then [xs[0]] + FilterReady(g, completed, xs[1..])
    else FilterReady(g, completed, xs[1..])
  }

  lemma {:induction false} FilterReadyElements(g: Graph, completed: set<Id>, xs: seq<Id>)
    requires Ascending(IntLess, xs)
    ensures Ascending(IntLess, FilterReady(g, completed, xs))
    ensures forall n :: n in FilterReady(g, completed, xs) <==> n in xs && n !in completed && Preds(g, n) <= completed
  {
    if xs != [] {
      FilterReadyElements(g, completed, xs[1..]);
      assert xs == [xs[0]] + xs[1..];
      var rest := FilterReady(g, completed, xs[1..]);
      forall j | 0 <= j < |rest| ensures xs[0] < rest[j] {
        assert rest[j] in xs[1..];
      }
    }
  }

  /** Filtering the sorted nodes lists exactly the ready ones; its head is the greedy choice. */
  lemma ReadyListMeaning(g: Graph, completed: set<Id>, nodes: seq<Id>)
    requires Distinct(nodes) && Elements(nodes) == g.nodes
    ensures var ready := FilterReady(g, completed, SortBy(IntLess, nodes));
            && ReadyListIs(g, completed, ready)
            && (ready == [] <==> Greedy(g, completed) == [])
            && (ready != [] ==> ready[0] == Greedy(g, completed)[0])
  {
    var sorted := SortBy(IntLess, nodes);
    SortNats(nodes);
    FilterReadyElements(g, completed, sorted);
    var ready := FilterReady(g, completed, sorted);
    forall n ensures n in ready <==> n in Ready(g, completed) {
      assert n in sorted <==> n in Elements(sorted);
    }
    assert Elements(ready) == Ready(g, completed);
    if ready != [] {
      HeadIsLeast(ready, Ready(g, completed));
    } else {
      assert Ready(g, completed) == {};
    }
  }

  class DeterministicScheduler {
    const nodes: seq<Id>
    const deps: seq<Edge>
    var completed: set<Id>

    ghost predicate Valid()
      reads this
    {
      Distinct(nodes) && completed <= Elements(nodes)
    }

    function View(): Graph { Graph(Elements(nodes), Elements(deps)) }

    constructor (nodes: seq<Id>, deps: seq<Edge>, completed: set<Id>)
      requires Distinct(nodes) && completed <= Elements(nodes)
      ensures Valid() && this.nodes == nodes && this.deps == deps && this.completed == completed
    {
      this.nodes := nodes;
      this.deps := deps;
      this.completed := completed;
    }

    /** The source's constructor raises for a completed node the definition does not have. */
    static method Create(nodes: seq<Id>, deps: seq<Edge>, completed: set<Id>) returns (s: DeterministicScheduler?)
      requires Distinct(nodes)
      ensures s == null <==> exists n :: n in completed && n !in nodes
      ensures s != null ==> s.Valid() && fresh(s) && s.View() == Graph(Elements(nodes), Elements(deps)) && s.completed == completed
    {
      if forall n :: n in completed ==> n in nodes {
        s := new DeterministicScheduler(nodes, deps, completed);
      } else {
        s := null;
      }
    }

    function ReadyNodes(): seq<Id>
      reads this
    {
      FilterReady(View(), completed, SortBy(IntLess, nodes))
    }

    /** The next node is the first entry of the greedy order that continues from completed. */
    method Next() returns (node: Option<Id>)
      requires Valid()
      ensures node == if Greedy(View(), completed) == [] then None else Some(Greedy(View(), completed)[0])
    {
      ReadyListMeaning(View(), completed, nodes);
      var ready := ReadyNodes();
      node := if ready != [] then Some(ready[0]) else None;
    }

    /** Completing a completed node changes nothing; any other node must be ready. */
    method MarkCompleted(node: Id) returns (ok: bool)
      requires Valid()
      modifies this
      ensures Valid()
      ensures ok <==> node in old(completed) || node in Ready(View(), old(completed))
      ensures completed == if ok then old(completed) + {node} else old(completed)
    {
      if node in completed {
        return true;
      }
      ReadyListMeaning(View(), completed, nodes);
      assert node in Elements(ReadyNodes()) <==> node in Ready(View(), completed);
      if node !in ReadyNodes() {
        return false;
      }
      completed := completed + {node};
      ok := true;
    }

    method Done() returns (done: bool)
      requires Valid()
      ensures done <==> completed == Elements(nodes)
    {
      DistinctCard(nodes);
      done := |completed| == |nodes|;
      if |completed| == |nodes| && completed != Elements(nodes) {
        ProperSubset(completed, Elements(nodes));
      }
    }

    /** The driver's loop: from any start it walks the rest of the greedy order, and it
        stalls before the end exactly when that order does not reach every node. */
    method RunToEnd() returns (walked: seq<Id>, stalled: bool)
      requires Valid()
      modifies this
      ensures Valid() && walked == Greedy(View(), old(completed))
      ensures completed == old(completed) + Elements(walked)
      ensures stalled <==> completed != Elements(nodes)
    {
      hide Ready, Preds, Distinct, Greedy;
      walked, stalled := [], false;
      assert Elements(walked) == {};
      ghost var start := completed;
      var done := Done();
      while !done
        invariant Valid() && walked + Greedy(View(), completed) == Greedy(View(), start)
        invariant completed == start + Elements(walked)
        invariant done <==> completed == Elements(nodes)
        decreases Elements(nodes) - completed
      {
        var node := Next();
        if node == None {
          assert walked + [] == walked;
          stalled := true;
          return;
        }
        GreedyUnfold(View(), completed);
        var ok := MarkCompleted(node.value);
        Append(walked, node.value, Greedy(View(), completed));
        walked := walked + [node.value];
        done := Done();
      }
      AllDone(View(), completed);
      assert walked + [] == walked;
    }
  }

  lemma ProperSubset<T>(a: set<T>, b: set<T>)
    requires a <= b && a != b
    ensures |a| < |b|
  {
    var x :| x in b && x !in a;
    ProperSubsetCard(a, b, x);
  }

  lemma Append(walked: seq<Id>, node: Id, rest: seq<Id>)
    ensures Elements(walked + [node]) == Elements(walked) + {node}
    ensures walked + ([node] + rest) == walked + [node] + rest
  {
  }

  lemma GreedyUnfold(g: Graph, done: set<Id>)
    requires Greedy(g, done) != []
    ensures Greedy(g, done)[0] in Ready(g, done)
    ensures Greedy(g, done)[0] in g.nodes && Greedy(g, done)[0] !in done
    ensures Greedy(g, done) == [Greedy(g, done)[0]] + Greedy(g, done + {Greedy(g, done)[0]})
  {
  }

  lemma AllDone(g: Graph, done: set<Id>)
    requires done == g.nodes
    ensures Greedy(g, done) == []
  {
    assert Ready(g, done) == {};
  }

  /** Scheduler and validator agree: restarted after any prefix of the validator's order,
      the scheduler walks exactly the remaining suffix. */
  lemma SchedulerFollowsOrder(g: Graph, k: nat)
    requires WellFormed(g) && Acyclic(g) && k <= |Greedy(g, {})|
    ensures Elements(Greedy(g, {})) == g.nodes
    ensures Greedy(g, Elements(Greedy(g, {})[..k])) == Greedy(g, {})[k..]
  {
    SortableIffAcyclic(g);
    GreedySuffix(g, {}, k);
    assert {} + Elements(Greedy(g, {})[..k]) == Elements(Greedy(g, {})[..k]);
  }
}
