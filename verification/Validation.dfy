/** The structural part of workflow validation: identities, dependencies, order, reachability. */
module Validation {
  import opened Wrappers
  import opened Order
  import opened Graph
  import opened Kahn

  datatype Error = DuplicateNode | DuplicateDependency | DependencyNodeMissing | Cycle | OutputUnreachable

  datatype Result<+T> = Ok(value: T) | Err(error: Error)

  lemma {:induction false} CardDistinct<T>(xs: seq<T>)
    requires |Elements(xs)| == |xs|
    ensures Distinct(xs)
  {
    if xs != [] {
      var tail := Elements(xs[1..]);
      ElementsAtMost(xs[1..]);
      assert Elements(xs) == tail + {xs[0]};
      CardDistinct(xs[1..]);
      forall j | 0 < j < |xs| ensures xs[0] != xs[j] {
        assert xs[j] == xs[1..][j - 1];
      }
    }
  }

  lemma {:induction false} ElementsAtMost<T>(xs: seq<T>)
    ensures |Elements(xs)| <= |xs|
  {
    if xs != [] {
      ElementsAtMost(xs[1..]);
      assert Elements(xs) == Elements(xs[1..]) + {xs[0]};
    }
  }

  /** The uniqueness test of the source: as many distinct values as values. */
  method AllUnique<T(==)>(xs: seq<T>) returns (unique: bool)
    ensures unique <==> Distinct(xs)
  {
    unique := |Elements(xs)| == |xs|;
    if unique { CardDistinct(xs); }
    if Distinct(xs) { DistinctCard(xs); }
  }

  // ---------------------------------------------------------------- reachability

  /** n is reached from an input-bound node along the dependencies. */
  ghost predicate ReachedBy(g: Graph, roots: set<Id>, w: seq<Id>, n: Id)
  {
    w != [] && w[0] in roots && w[|w| - 1] == n && IsWalk(g, w)
  }

  ghost predicate Reachable(g: Graph, roots: set<Id>, n: Id) { exists w :: ReachedBy(g, roots, w, n) }

  lemma {:induction false} ClosedContainsWalk(g: Graph, roots: set<Id>, closed: set<Id>, w: seq<Id>)
    requires roots <= closed && forall e :: e in g.edges && e.source in closed ==> e.target in closed
    requires w != [] && w[0] in closed && IsWalk(g, w)
    ensures w[|w| - 1] in closed
  {
    if |w| > 1 {
      assert Edge(w[0], w[1]) in g.edges;
      forall i | 0 <= i < |w[1..]| - 1 ensures Edge(w[1..][i], w[1..][i + 1]) in g.edges {
        assert Edge(w[i + 1], w[i + 1 + 1]) in g.edges;
      }
      ClosedContainsWalk(g, roots, closed, w[1..]);
    }
  }

  lemma StepReachable(g: Graph, roots: set<Id>, e: Edge)
    requires e in g.edges && Reachable(g, roots, e.source)
    ensures Reachable(g, roots, e.target)
  {
    var w :| ReachedBy(g, roots, w, e.source);
    var longer := w + [e.target];
    forall i | 0 <= i < |longer| - 1 ensures Edge(longer[i], longer[i + 1]) in g.edges {
      if i < |w| - 1 { assert Edge(w[i], w[i + 1]) in g.edges; }
    }
    assert ReachedBy(g, roots, longer, e.target);
  }

  /** One pass over the dependencies; it reports whether anything was added. */
  method GrowOnce(deps: seq<Edge>, roots: set<Id>, start: set<Id>) returns (grown: set<Id>, changed: bool)
    requires forall n :: n in start ==> Reachable(Graph({}, Elements(deps)), roots, n)
    ensures start <= grown
    ensures forall n :: n in grown ==> Reachable(Graph({}, Elements(deps)), roots, n)
    ensures changed <==> grown != start
    ensures !changed ==> forall e :: e in deps && e.source in grown ==> e.target in grown
    ensures grown <= start + set e | e in deps :: e.target
  {
    grown, changed := start, false;
    for i := 0 to |deps|
      invariant start <= grown && (changed <==> grown != start)
      invariant forall n :: n in grown ==> Reachable(Graph({}, Elements(deps)), roots, n)
      invariant !changed ==> forall e :: e in deps[..i] && e.source in start ==> e.target in start
      invariant grown <= start + set e | e in deps :: e.target
    {
      var e := deps[i];
      assert e in deps && e in Elements(deps);
      if e.source in grown && e.target !in grown {
        StepReachable(Graph({}, Elements(deps)), roots, e);
        grown := grown + {e.target};
        changed := true;
      }
      assert deps[..i + 1] == deps[..i] + [e];
    }
    assert deps[..|deps|] == deps;
  }

  /** The fixpoint loop: it collects exactly the nodes a walk from an input-bound node reaches. */
  method ReachableFrom(deps: seq<Edge>, roots: set<Id>) returns (reachable: set<Id>)
    ensures forall n :: n in reachable <==> Reachable(Graph({}, Elements(deps)), roots, n)
  {
    ghost var g := Graph({}, Elements(deps));
    reachable := roots;
    forall n | n in roots ensures Reachable(g, roots, n) {
      assert ReachedBy(g, roots, [n], n);
    }
    ghost var all := roots + set e | e in deps :: e.target;
    var changed := true;
    while changed
      invariant roots <= reachable <= all
      invariant forall n :: n in reachable ==> Reachable(g, roots, n)
      invariant !changed ==> forall e :: e in deps && e.source in reachable ==> e.target in reachable
      decreases all - reachable, changed
    {
      ghost var before := reachable;
      reachable, changed := GrowOnce(deps, roots, reachable);
      if changed {
        ghost var added :| added in reachable && added !in before;
        assert added in all - before;
      }
    }
    forall n | Reachable(g, roots, n) ensures n in reachable {
      var w :| ReachedBy(g, roots, w, n);
      ClosedContainsWalk(g, roots, reachable, w);
    }
  }

  /** The checks in the order the validator makes them. */
  method Validate(nodes: seq<Id>, deps: seq<Edge>, inputBound: set<Id>, output: Id) returns (result: Result<seq<Id>>)
    ensures result == Err(DuplicateNode) <==> !Distinct(nodes)
    ensures result == Err(DuplicateDependency) <==> Distinct(nodes) && !Distinct(deps)
    ensures result == Err(DependencyNodeMissing) <==>
      Distinct(nodes) && Distinct(deps) && !WellFormed(Graph(Elements(nodes), Elements(deps)))
    ensures result == Err(Cycle) <==>
      && Distinct(nodes) && Distinct(deps) && WellFormed(Graph(Elements(nodes), Elements(deps)))
      && !Acyclic(Graph(Elements(nodes), Elements(deps)))
    ensures result.Ok? <==>
      && Distinct(nodes) && Distinct(deps) && WellFormed(Graph(Elements(nodes), Elements(deps)))
      && Acyclic(Graph(Elements(nodes), Elements(deps)))
      && Reachable(Graph({}, Elements(deps)), inputBound, output)
    ensures result.Ok? ==> result.value == Greedy(Graph(Elements(nodes), Elements(deps)), {})
  {
    hide Distinct, Acyclic, Greedy, Reachable, Blocked;
    var unique := AllUnique(nodes);
    if !unique { return Err(DuplicateNode); }
    unique := AllUnique(deps);
    if !unique { return Err(DuplicateDependency); }
    if exists e :: e in deps && (e.source !in nodes || e.target !in nodes) {
      return Err(DependencyNodeMissing);
    }
    var order, counts := TopologicalOrder(nodes, deps);
    if order == None { return Err(Cycle); }
    var reachable := ReachableFrom(deps, inputBound);
    if output !in reachable { return Err(OutputUnreachable); }
    result := Ok(order.value);
  }
}
