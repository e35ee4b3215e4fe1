/** What a resolution plan guarantees, and why the input order cannot matter. */
module ResolverLaws {
  import opened Wrappers
  import opened Order
  import opened Graph
  import opened Resolver
  import SemVer

  // ---------------------------------------------------------------- bindings

  ghost predicate Bound(b: Binding, m: Manifest, d: Dependency, candidates: seq<Manifest>, catalog: Catalog)
  {
    ResolveOne(d, candidates, catalog) == Chosen(Provider(b.provider, b.capability)) && b == Binding(Ref(m), d, b.provider, b.capability)
  }

  lemma {:induction false} BoundDeps(m: Manifest, needs: seq<Dependency>, candidates: seq<Manifest>, catalog: Catalog, b: Binding)
    requires BindDeps(m, needs, candidates, catalog).Ok?
    ensures b in BindDeps(m, needs, candidates, catalog).value <==> b.dependency in needs && Bound(b, m, b.dependency, candidates, catalog)
  {
    if needs != [] {
      BoundDeps(m, needs[1..], candidates, catalog, b);
      assert needs == [needs[0]] + needs[1..];
    }
  }

  ghost predicate BoundIn(b: Binding, manifests: seq<Manifest>, candidates: seq<Manifest>, catalog: Catalog)
  {
    exists m :: m in manifests && b.dependency in m.needs && Bound(b, m, b.dependency, candidates, catalog)
  }

  /** The bindings are exactly the resolved dependencies of the manifests. */
  lemma {:induction false} BoundAll(sorted: seq<Manifest>, candidates: seq<Manifest>, catalog: Catalog, b: Binding)
    requires BindAll(sorted, candidates, catalog).Ok?
    ensures b in BindAll(sorted, candidates, catalog).value <==> BoundIn(b, sorted, candidates, catalog)
  {
    if sorted != [] {
      var m := sorted[0];
      var needs := SortBy(ByStableKey, m.needs);
      var own, rest := BindDeps(m, needs, candidates, catalog), BindAll(sorted[1..], candidates, catalog);
      BoundDeps(m, needs, candidates, catalog, b);
      BoundAll(sorted[1..], candidates, catalog, b);
      MultisetMember(needs, m.needs, b.dependency);
      assert sorted == [m] + sorted[1..];
      assert b in own.value + rest.value <==> b in own.value || b in rest.value;
      if b in own.value { assert BoundIn(b, sorted, candidates, catalog); }
      if BoundIn(b, sorted[1..], candidates, catalog) {
        var n :| n in sorted[1..] && b.dependency in n.needs && Bound(b, n, b.dependency, candidates, catalog);
        assert n in sorted;
      }
    }
  }

  lemma {:induction false} FilterMembers<T>(p: T -> bool, xs: seq<T>, x: T)
    ensures x in Filter(p, xs) <==> x in xs && p(x)
  {
    if xs != [] {
      FilterMembers(p, xs[1..], x);
      assert xs == [xs[0]] + xs[1..];
    }
  }

  /** A plugin dependency is bound to a version inside its range, and to no capability. */
  lemma PluginProviderMatches(d: Dependency, candidates: seq<Manifest>, catalog: Catalog, provider: Provider)
    requires d.OnPlugin? && ResolveOne(d, candidates, catalog) == Chosen(provider)
    ensures provider.plugin.name == d.plugin && SemVer.RangeMatches(d.range, provider.plugin.version)
    ensures provider.plugin in Refs(candidates) + catalog.plugins && provider.capability.None?
  {
    var plugins := Refs(candidates) + catalog.plugins;
    FilterMembers(FitsPlugin(d), plugins, Filter(FitsPlugin(d), plugins)[0]);
  }

  /** At most one entry satisfies p. */
  ghost predicate AtMostOne<T(!new)>(p: T -> bool, xs: seq<T>)
  {
    forall i, j :: 0 <= i < |xs| && 0 <= j < |xs| && p(xs[i]) && p(xs[j]) ==> i == j
  }

  lemma {:induction false} FilterLength<T(!new)>(p: T -> bool, xs: seq<T>)
    ensures |Filter(p, xs)| <= 1 <==> AtMostOne(p, xs)
    ensures Filter(p, xs) == [] <==> forall i :: 0 <= i < |xs| ==> !p(xs[i])
  {
    if xs != [] {
      var rest := xs[1..];
      FilterLength(p, rest);
      assert forall i :: 0 <= i < |rest| ==> rest[i] == xs[i + 1];
      if AtMostOne(p, xs) {
        assert forall i, j :: 0 <= i < |rest| && 0 <= j < |rest| && p(rest[i]) && p(rest[j]) ==> i + 1 == j + 1;
        if p(xs[0]) { assert forall i :: 0 <= i < |rest| ==> !p(rest[i]); }
      } else {
        var i, j :| 0 <= i < |xs| && 0 <= j < |xs| && p(xs[i]) && p(xs[j]) && i != j;
        if i > 0 { assert rest[i - 1] == xs[i]; }
        if j > 0 { assert rest[j - 1] == xs[j]; }
      }
    }
  }

  /** Which answer a dependency gets: the one compatible provider if there is exactly one; ambiguous
      if there are several; otherwise incompatible or missing, by whether any has the name. */
  ghost predicate IsChoice<T(!new)>(named: T -> bool, compatible: T -> bool, xs: seq<T>, r: Choice<T>)
  {
    && (r.Chosen? <==> AtMostOne(compatible, xs) && exists i :: 0 <= i < |xs| && compatible(xs[i]))
    && (r.Chosen? ==> r.value in xs && forall i :: 0 <= i < |xs| && compatible(xs[i]) ==> xs[i] == r.value)
    && (r == NotChosen(Ambiguous) <==> !AtMostOne(compatible, xs))
    && (r == NotChosen(Missing) <==> forall i :: 0 <= i < |xs| ==> !named(xs[i]))
    && (r == NotChosen(Incompatible) <==> (exists i :: 0 <= i < |xs| && named(xs[i])) && forall i :: 0 <= i < |xs| ==> !compatible(xs[i]))
  }

  lemma ChoiceExactly<T(!new)>(named: T -> bool, compatible: T -> bool, xs: seq<T>)
    requires forall x :: compatible(x) ==> named(x)
    ensures IsChoice(named, compatible, xs, Select(Filter(named, xs), Filter(compatible, xs)))
  {
    FilterLength(named, xs);
    FilterLength(compatible, xs);
    var found := Filter(compatible, xs);
    if |found| == 1 {
      forall i | 0 <= i < |xs| && compatible(xs[i]) ensures xs[i] == found[0] {
        FilterMembers(compatible, xs, xs[i]);
      }
    }
  }

  /** A plugin dependency resolves if and only if exactly one known plugin of that name is in range,
      and then to it; every other outcome has its exact cause. */
  lemma PluginChoiceExactly(d: Dependency, candidates: seq<Manifest>, catalog: Catalog) returns (chosen: Choice<PluginRef>)
    requires d.OnPlugin?
    ensures IsChoice(NamesPlugin(d), FitsPlugin(d), Refs(candidates) + catalog.plugins, chosen)
    ensures ResolveOne(d, candidates, catalog) ==
      if chosen.Chosen? then Chosen(Provider(chosen.value, None)) else NotChosen(chosen.cause)
  {
    var xs := Refs(candidates) + catalog.plugins;
    ChoiceExactly(NamesPlugin(d), FitsPlugin(d), xs);
    chosen := Select(Filter(NamesPlugin(d), xs), Filter(FitsPlugin(d), xs));
    hide AtMostOne, Filter, SemVer.RangeMatches, Refs, IsChoice;
  }

  /** The same for a capability: exactly one compatible offer, its owner and its declaration. */
  lemma CapabilityChoiceExactly(d: Dependency, candidates: seq<Manifest>, catalog: Catalog) returns (chosen: Choice<Offer>)
    requires d.OnCapability?
    ensures IsChoice(NamesOffer(d), FitsOffer(d), catalog.offers + Offers(candidates), chosen)
    ensures ResolveOne(d, candidates, catalog) ==
      if chosen.Chosen? then Chosen(Provider(chosen.value.owner, Some(chosen.value.declaration))) else NotChosen(chosen.cause)
  {
    var xs := catalog.offers + Offers(candidates);
    ChoiceExactly(NamesOffer(d), FitsOffer(d), xs);
    chosen := Select(Filter(NamesOffer(d), xs), Filter(FitsOffer(d), xs));
    hide AtMostOne, Filter, SemVer.RangeMatches, Offers, IsChoice;
  }

  predicate Answers(o: Offer, d: Dependency)
    requires d.OnCapability?
  {
    && o.declaration.kind == d.kind && o.declaration.id == d.capability
    && SemVer.RangeMatches(d.range, o.declaration.version)
  }

  /** A capability dependency is bound to the owner and the declaration of a compatible offer. */
  lemma CapabilityProviderMatches(d: Dependency, candidates: seq<Manifest>, catalog: Catalog, provider: Provider)
    requires d.OnCapability? && ResolveOne(d, candidates, catalog) == Chosen(provider)
    ensures exists o :: o in catalog.offers + Offers(candidates) && Answers(o, d) && provider == Provider(o.owner, Some(o.declaration))
  {
    var offers := catalog.offers + Offers(candidates);
    FilterMembers(FitsOffer(d), offers, Filter(FitsOffer(d), offers)[0]);
  }

  // ---------------------------------------------------------------- soundness of a plan

  lemma {:induction false} LookupUnique(candidates: seq<Manifest>, m: Manifest)
    requires m in candidates
    requires forall i, j :: 0 <= i < j < |candidates| ==> candidates[i].name != candidates[j].name
    ensures m.name in Names(candidates) && Lookup(candidates, m.name) == m
  {
    if candidates[0] != m {
      assert m in candidates[1..];
      var k :| 0 <= k < |candidates| && candidates[k] == m;
      LookupUnique(candidates[1..], m);
    }
  }

  lemma NameCount(candidates: seq<Manifest>)
    requires forall i, j :: 0 <= i < j < |candidates| ==> candidates[i].name != candidates[j].name
    ensures |Names(candidates)| == |candidates|
  {
    assert Distinct(NameList(candidates));
    DistinctCard(NameList(candidates));
  }

  /** The plan follows a topological order of the provider graph. */
  lemma PlanOrder(candidates: seq<Manifest>, catalog: Catalog, plan: Plan) returns (g: Graph, order: seq<Id>)
    requires Resolve(candidates, catalog) == Ok(plan)
    ensures IsTopologicalOrder(g, order) && g.nodes == Names(candidates)
    ensures plan.ordered == RefsInOrder(order, candidates)
    ensures forall b :: b in plan.bindings && b.provider.name in g.nodes && b.provider.name != b.consumer.name
              ==> Edge(b.provider.name, b.consumer.name) in g.edges
  {
    var bindings := BindAll(SortBy(ByName, candidates), candidates, catalog).value;
    g := PlanGraph(candidates, bindings);
    EndpointsAreNames(candidates, catalog, bindings);
    SortableIffAcyclic(g);
    GreedyElements(g, {});
    GreedyIsTopological(g);
    order := Greedy(g, {});
    hide Acyclic, Greedy, BindAll, SortBy, IsTopologicalOrder, UniqueNames;
    forall b | b in plan.bindings ensures b in bindings { MultisetMember(plan.bindings, bindings, b); }
  }

  lemma RefsNames(order: seq<Id>, candidates: seq<Manifest>, i: nat)
    requires i < |order| && forall n :: n in order ==> n in Names(candidates)
    ensures RefsInOrder(order, candidates)[i].name == order[i]
  {
  }

  /** Looking a permutation of the names up gives every candidate once. */
  lemma RefsListCandidates(order: seq<Id>, candidates: seq<Manifest>)
    requires Distinct(order) && Elements(order) == Names(candidates)
    requires forall i, j :: 0 <= i < j < |candidates| ==> candidates[i].name != candidates[j].name
    ensures forall n :: n in order ==> n in Names(candidates)
    ensures |RefsInOrder(order, candidates)| == |candidates| && Distinct(RefsInOrder(order, candidates))
    ensures forall m :: m in candidates ==> Ref(m) in RefsInOrder(order, candidates)
  {
    assert forall n :: n in order <==> n in Elements(order);
    DistinctCard(order);
    NameCount(candidates);
    hide Names, Elements, Lookup;
    forall m | m in candidates ensures Ref(m) in RefsInOrder(order, candidates) {
      LookupUnique(candidates, m);
      var i :| 0 <= i < |order| && order[i] == m.name;
      assert RefsInOrder(order, candidates)[i] == Ref(m);
    }
    RefsAreDistinct(order, candidates);
  }

  lemma RefsAreDistinct(order: seq<Id>, candidates: seq<Manifest>)
    requires Distinct(order) && forall n :: n in order ==> n in Names(candidates)
    ensures Distinct(RefsInOrder(order, candidates))
  {
    var refs := RefsInOrder(order, candidates);
    forall i | 0 <= i < |order| ensures refs[i].name == order[i] { RefsNames(order, candidates, i); }
    hide Names, RefsInOrder;
  }

  /** A successful plan lists every candidate exactly once. */
  lemma PlanListsCandidates(candidates: seq<Manifest>, catalog: Catalog, plan: Plan)
    requires Resolve(candidates, catalog) == Ok(plan)
    ensures |plan.ordered| == |candidates| && Distinct(plan.ordered)
    ensures forall m :: m in candidates ==> Ref(m) in plan.ordered
  {
    hide Resolve, RefsInOrder, Distinct, Elements, Names;
    var g, order := PlanOrder(candidates, catalog, plan);
    UniqueWhenResolved(candidates, catalog);
    RefsListCandidates(order, candidates);
  }

  lemma UniqueWhenResolved(candidates: seq<Manifest>, catalog: Catalog)
    requires Resolve(candidates, catalog).Ok?
    ensures UniqueNames(candidates, catalog)
    ensures forall i, j :: 0 <= i < j < |candidates| ==> candidates[i].name != candidates[j].name
  {
    UniqueExactly(candidates, catalog);
    hide BindAll, Acyclic, Greedy, FirstRepeat;
  }

  /** Every candidate provider comes before its consumers. */
  lemma PlanOrdersProviders(candidates: seq<Manifest>, catalog: Catalog, plan: Plan, b: Binding, i: nat, j: nat)
    requires Resolve(candidates, catalog) == Ok(plan)
    requires b in plan.bindings && b.provider.name in Names(candidates) && b.provider.name != b.consumer.name
    requires i < |plan.ordered| && plan.ordered[i].name == b.provider.name
    requires j < |plan.ordered| && plan.ordered[j].name == b.consumer.name
    ensures i < j
  {
    var g, order := PlanOrder(candidates, catalog, plan);
    assert forall n :: n in order ==> n in Elements(order);
    RefsNames(order, candidates, i);
    RefsNames(order, candidates, j);
  }

  // ---------------------------------------------------------------- cycles

  ghost predicate Resolvable(candidates: seq<Manifest>, catalog: Catalog)
  {
    forall m, d :: m in candidates && d in m.needs ==> ResolveOne(d, candidates, catalog).Chosen?
  }

  ghost predicate NamesItself(candidates: seq<Manifest>)
  {
    exists m :: m in candidates && ItselfIn(m, m.needs)
  }

  /** Candidate provider to candidate consumer, straight from the manifests. */
  ghost predicate Provides(candidates: seq<Manifest>, catalog: Catalog, e: Edge)
  {
    exists m, d :: m in candidates && d in m.needs && ProvidesFor(candidates, catalog, m, d, e)
  }

  ghost predicate ProvidesFor(candidates: seq<Manifest>, catalog: Catalog, m: Manifest, d: Dependency, e: Edge)
  {
    && ResolveOne(d, candidates, catalog).Chosen?
    && e == Edge(ResolveOne(d, candidates, catalog).value.plugin.name, m.name)
    && e.source in Names(candidates) && e.source != m.name
  }

  ghost function ProviderGraph(candidates: seq<Manifest>, catalog: Catalog): Graph
  {
    var names := Names(candidates);
    Graph(names, set s, t | s in names && t in names && Provides(candidates, catalog, Edge(s, t)) :: Edge(s, t))
  }

  predicate ItselfIn(m: Manifest, needs: seq<Dependency>) { exists d :: d in needs && d.OnPlugin? && d.plugin == m.name }

  lemma {:induction false} DepsBindable(m: Manifest, needs: seq<Dependency>, candidates: seq<Manifest>, catalog: Catalog)
    requires forall d :: d in needs ==> ResolveOne(d, candidates, catalog).Chosen?
    ensures BindDeps(m, needs, candidates, catalog).Ok? <==> !ItselfIn(m, needs)
    ensures BindDeps(m, needs, candidates, catalog).Err? ==> BindDeps(m, needs, candidates, catalog).error == DependsOnItself(m.name)
  {
    if needs != [] {
      DepsBindable(m, needs[1..], candidates, catalog);
      assert needs == [needs[0]] + needs[1..];
      var provider := ResolveOne(needs[0], candidates, catalog).value;
      if needs[0].OnPlugin? { PluginProviderMatches(needs[0], candidates, catalog, provider); }
    }
  }

  /** The first manifest that names itself stops the binding loop. */
  ghost predicate StopsAt(sorted: seq<Manifest>, i: int)
  {
    0 <= i < |sorted| && ItselfIn(sorted[i], sorted[i].needs) && forall j :: 0 <= j < i ==> !ItselfIn(sorted[j], sorted[j].needs)
  }

  lemma {:induction false} AllBindable(sorted: seq<Manifest>, candidates: seq<Manifest>, catalog: Catalog)
    requires forall m, d :: m in sorted && d in m.needs ==> ResolveOne(d, candidates, catalog).Chosen?
    ensures var r := BindAll(sorted, candidates, catalog);
            && (r.Ok? <==> !NamesItself(sorted))
            && (r.Err? ==> exists i :: StopsAt(sorted, i) && r.error == DependsOnItself(sorted[i].name))
  {
    if sorted != [] {
      var m := sorted[0];
      var needs := SortBy(ByStableKey, m.needs);
      forall d ensures d in needs <==> d in m.needs { MultisetMember(needs, m.needs, d); }
      DepsBindable(m, needs, candidates, catalog);
      AllBindable(sorted[1..], candidates, catalog);
      assert sorted == [m] + sorted[1..];
      assert ItselfIn(m, needs) <==> ItselfIn(m, m.needs);
      hide SortBy, ResolveOne, ItselfIn, BindDeps;
      if ItselfIn(m, m.needs) {
        assert StopsAt(sorted, 0);
      } else if NamesItself(sorted[1..]) {
        var i :| StopsAt(sorted[1..], i) && BindAll(sorted[1..], candidates, catalog).error == DependsOnItself(sorted[1..][i].name);
        assert StopsAt(sorted, i + 1);
      }
    }
  }

  lemma EdgeFromBinding(candidates: seq<Manifest>, catalog: Catalog, bindings: seq<Binding>, b: Binding)
    requires BindAll(SortBy(ByName, candidates), candidates, catalog) == Ok(bindings)
    requires b in bindings && b.provider.name in Names(candidates) && b.provider.name != b.consumer.name
    ensures Provides(candidates, catalog, Edge(b.provider.name, b.consumer.name))
    ensures b.consumer.name in Names(candidates)
  {
    var sorted := SortBy(ByName, candidates);
    BoundAll(sorted, candidates, catalog, b);
    hide BindAll, SortBy, ResolveOne;
    var m :| m in sorted && b.dependency in m.needs && Bound(b, m, b.dependency, candidates, catalog);
    MultisetMember(sorted, candidates, m);
    assert ProvidesFor(candidates, catalog, m, b.dependency, Edge(b.provider.name, b.consumer.name));
  }

  lemma BindingFromEdge(candidates: seq<Manifest>, catalog: Catalog, bindings: seq<Binding>, e: Edge)
    requires BindAll(SortBy(ByName, candidates), candidates, catalog) == Ok(bindings)
    requires Provides(candidates, catalog, e)
    ensures e in Edges(bindings, Names(candidates))
  {
    var sorted := SortBy(ByName, candidates);
    var m, d :| m in candidates && d in m.needs && ProvidesFor(candidates, catalog, m, d, e);
    var b := Bind(m, d, ResolveOne(d, candidates, catalog).value);
    MultisetMember(sorted, candidates, m);
    assert BoundIn(b, sorted, candidates, catalog);
    BoundAll(sorted, candidates, catalog, b);
  }

  lemma GraphsAgree(candidates: seq<Manifest>, catalog: Catalog, bindings: seq<Binding>)
    requires BindAll(SortBy(ByName, candidates), candidates, catalog) == Ok(bindings)
    ensures PlanGraph(candidates, bindings) == ProviderGraph(candidates, catalog)
  {
    hide BindAll, SortBy, Provides;
    var g, h := PlanGraph(candidates, bindings), ProviderGraph(candidates, catalog);
    forall e ensures e in g.edges <==> e in h.edges {
      if e in g.edges {
        var b :| b in bindings && b.provider.name in g.nodes && b.provider.name != b.consumer.name
                 && e == Edge(b.provider.name, b.consumer.name);
        EdgeFromBinding(candidates, catalog, bindings, b);
      }
      if e in h.edges {
        assert Provides(candidates, catalog, Edge(e.source, e.target));
        BindingFromEdge(candidates, catalog, bindings, e);
      }
    }
  }

  /** A resolvable set is resolved unless a plugin names itself or the provider graph has a cycle, and
      the error says which: the first plugin that names itself, or everything that is blocked. */
  lemma CycleReportedExactly(candidates: seq<Manifest>, catalog: Catalog)
    requires UniqueNames(candidates, catalog) && Resolvable(candidates, catalog)
    ensures var r, g := Resolve(candidates, catalog), ProviderGraph(candidates, catalog);
            && (r.Ok? <==> !NamesItself(candidates) && Acyclic(g))
            && (r.Err? && NamesItself(candidates) ==>
                 var sorted := SortBy(ByName, candidates);
                 exists i :: StopsAt(sorted, i) && r.error == DependsOnItself(sorted[i].name))
            && (r.Err? && !NamesItself(candidates) ==> r.error == DependencyCycle(Blocked(g)))
  {
    var sorted := SortBy(ByName, candidates);
    BindableExactly(candidates, catalog);
    ResolveBinds(candidates, catalog);
    var bound := BindAll(sorted, candidates, catalog);
    hide *;
    if bound.Ok? {
      GraphsAgree(candidates, catalog, bound.value);
      PlannedIs(candidates, bound.value);
    }
  }

  lemma BindableExactly(candidates: seq<Manifest>, catalog: Catalog)
    requires Resolvable(candidates, catalog)
    ensures var sorted := SortBy(ByName, candidates);
            var r := BindAll(sorted, candidates, catalog);
            && (r.Ok? <==> !NamesItself(candidates))
            && (r.Err? ==> exists i :: StopsAt(sorted, i) && r.error == DependsOnItself(sorted[i].name))
  {
    var sorted := SortBy(ByName, candidates);
    forall m ensures m in sorted <==> m in candidates { MultisetMember(sorted, candidates, m); }
    hide SortBy, BindAll, ResolveOne, ItselfIn;
    AllBindable(sorted, candidates, catalog);
    assert NamesItself(sorted) <==> NamesItself(candidates);
  }

  /** Without a repeated name, resolution is binding and then planning. */
  lemma ResolveBinds(candidates: seq<Manifest>, catalog: Catalog)
    ensures var bound := BindAll(SortBy(ByName, candidates), candidates, catalog);
            UniqueNames(candidates, catalog) ==>
              Resolve(candidates, catalog) == if bound.Err? then Err(bound.error) else Planned(candidates, bound.value)
    ensures !UniqueNames(candidates, catalog) ==>
              FirstRepeat(candidates, catalog, 0).Some?
              && Resolve(candidates, catalog) == Err(DuplicateName(FirstRepeat(candidates, catalog, 0).value))
  {
    UniqueExactly(candidates, catalog);
    hide BindAll, SortBy, Planned, FirstRepeat, UniqueNames;
  }

  lemma PlanNodes(candidates: seq<Manifest>, bindings: seq<Binding>)
    ensures PlanGraph(candidates, bindings).nodes == Names(candidates)
  {
  }

  /** The cycle report names exactly the plugins on a cycle of providers, or depending on one. */
  lemma ReportNamesLoops(candidates: seq<Manifest>, catalog: Catalog, left: set<Id>, n: Id)
    requires Resolve(candidates, catalog) == Err(DependencyCycle(left)) && n in Names(candidates)
    ensures n in left <==> exists w :: LoopsInto(ProviderGraph(candidates, catalog), w, n)
  {
    ResolveBinds(candidates, catalog);
    BindsNoCycle(SortBy(ByName, candidates), candidates, catalog);
    hide *;
    var bindings := BindAll(SortBy(ByName, candidates), candidates, catalog).value;
    PlanNodes(candidates, bindings);
    EndpointsAreNames(candidates, catalog, bindings);
    GraphsAgree(candidates, catalog, bindings);
    PlannedIs(candidates, bindings);
    BlockedExactly(PlanGraph(candidates, bindings), n);
  }

  lemma {:induction false} DepsNoCycle(m: Manifest, needs: seq<Dependency>, candidates: seq<Manifest>, catalog: Catalog)
    ensures BindDeps(m, needs, candidates, catalog).Err? ==> !BindDeps(m, needs, candidates, catalog).error.DependencyCycle?
  {
    if needs != [] { DepsNoCycle(m, needs[1..], candidates, catalog); }
  }

  lemma {:induction false} BindsNoCycle(sorted: seq<Manifest>, candidates: seq<Manifest>, catalog: Catalog)
    ensures BindAll(sorted, candidates, catalog).Err? ==> !BindAll(sorted, candidates, catalog).error.DependencyCycle?
  {
    if sorted != [] {
      DepsNoCycle(sorted[0], SortBy(ByStableKey, sorted[0].needs), candidates, catalog);
      BindsNoCycle(sorted[1..], candidates, catalog);
    }
  }

  // ---------------------------------------------------------------- what makes a resolution fail

  /** Exactly one entry satisfies p. */
  ghost predicate ExactlyOne<T(!new)>(p: T -> bool, xs: seq<T>)
  {
    AtMostOne(p, xs) && exists i :: 0 <= i < |xs| && p(xs[i])
  }

  /** Exactly one known plugin, or one offer, is what the dependency asks for. */
  ghost predicate HasOneProvider(d: Dependency, candidates: seq<Manifest>, catalog: Catalog)
  {
    if d.OnPlugin? then ExactlyOne(FitsPlugin(d), Refs(candidates) + catalog.plugins)
    else ExactlyOne(FitsOffer(d), catalog.offers + Offers(candidates))
  }

  /** Nothing known has the dependency's name. */
  ghost predicate Unknown(d: Dependency, candidates: seq<Manifest>, catalog: Catalog)
  {
    if d.OnPlugin? then forall p :: p in Refs(candidates) + catalog.plugins ==> p.name != d.plugin
    else forall o :: o in catalog.offers + Offers(candidates) ==> !NamesOffer(d)(o)
  }

  /** Several known plugins or offers fit the dependency. */
  ghost predicate Contested(d: Dependency, candidates: seq<Manifest>, catalog: Catalog)
  {
    if d.OnPlugin? then !AtMostOne(FitsPlugin(d), Refs(candidates) + catalog.plugins)
    else !AtMostOne(FitsOffer(d), catalog.offers + Offers(candidates))
  }

  ghost function CauseOf(d: Dependency, candidates: seq<Manifest>, catalog: Catalog): Cause
  {
    if Contested(d, candidates, catalog) then Ambiguous else if Unknown(d, candidates, catalog) then Missing else Incompatible
  }

  lemma PluginCause(d: Dependency, candidates: seq<Manifest>, catalog: Catalog)
    requires d.OnPlugin?
    ensures var r := ResolveOne(d, candidates, catalog);
            && (r.Chosen? <==> HasOneProvider(d, candidates, catalog))
            && (r.NotChosen? ==> r.cause == CauseOf(d, candidates, catalog))
  {
    var chosen := PluginChoiceExactly(d, candidates, catalog);
    hide ResolveOne, AtMostOne, Refs, SemVer.RangeMatches;
  }

  lemma OfferCause(d: Dependency, candidates: seq<Manifest>, catalog: Catalog)
    requires d.OnCapability?
    ensures var r := ResolveOne(d, candidates, catalog);
            && (r.Chosen? <==> HasOneProvider(d, candidates, catalog))
            && (r.NotChosen? ==> r.cause == CauseOf(d, candidates, catalog))
  {
    var chosen := CapabilityChoiceExactly(d, candidates, catalog);
    hide ResolveOne, AtMostOne, Offers, SemVer.RangeMatches;
  }

  lemma DependencyExactly(d: Dependency, candidates: seq<Manifest>, catalog: Catalog)
    ensures var r := ResolveOne(d, candidates, catalog);
            && (r.Chosen? <==> HasOneProvider(d, candidates, catalog))
            && (r.NotChosen? ==> r.cause == CauseOf(d, candidates, catalog))
  {
    hide ResolveOne, HasOneProvider, CauseOf;
    if d.OnPlugin? { PluginCause(d, candidates, catalog); } else { OfferCause(d, candidates, catalog); }
  }

  predicate OnItself(m: Manifest, d: Dependency) { d.OnPlugin? && d.plugin == m.name }

  /** The dependency can be bound. */
  ghost predicate Fine(m: Manifest, d: Dependency, candidates: seq<Manifest>, catalog: Catalog)
  {
    HasOneProvider(d, candidates, catalog) && !OnItself(m, d)
  }

  ghost function FaultOf(m: Manifest, d: Dependency, candidates: seq<Manifest>, catalog: Catalog): Error
  {
    if HasOneProvider(d, candidates, catalog) then DependsOnItself(m.name)
    else Unavailable(CauseOf(d, candidates, catalog), m.name, d)
  }

  /** The first dependency of the list that cannot be bound. */
  ghost predicate FirstNeed(m: Manifest, needs: seq<Dependency>, k: int, candidates: seq<Manifest>, catalog: Catalog)
  {
    && 0 <= k < |needs| && !Fine(m, needs[k], candidates, catalog)
    && forall j :: 0 <= j < k ==> Fine(m, needs[j], candidates, catalog)
  }

  lemma BindStep(m: Manifest, needs: seq<Dependency>, candidates: seq<Manifest>, catalog: Catalog)
    requires needs != []
    ensures var r, rest := BindDeps(m, needs, candidates, catalog), BindDeps(m, needs[1..], candidates, catalog);
            if !Fine(m, needs[0], candidates, catalog) then r == Err(FaultOf(m, needs[0], candidates, catalog))
            else (r.Ok? <==> rest.Ok?) && (r.Err? ==> r == rest)
  {
    DependencyExactly(needs[0], candidates, catalog);
    var one := ResolveOne(needs[0], candidates, catalog);
    if one.Chosen? && needs[0].OnPlugin? { PluginProviderMatches(needs[0], candidates, catalog, one.value); }
    hide ResolveOne, HasOneProvider, CauseOf, SemVer.RangeMatches;
  }

  lemma {:induction false} DepsExactly(m: Manifest, needs: seq<Dependency>, candidates: seq<Manifest>, catalog: Catalog)
    ensures var r := BindDeps(m, needs, candidates, catalog);
            && (r.Ok? <==> forall d :: d in needs ==> Fine(m, d, candidates, catalog))
            && (r.Err? ==> exists k :: FirstNeed(m, needs, k, candidates, catalog) && r.error == FaultOf(m, needs[k], candidates, catalog))
  {
    if needs != [] {
      BindStep(m, needs, candidates, catalog);
      DepsExactly(m, needs[1..], candidates, catalog);
      assert needs == [needs[0]] + needs[1..];
      hide BindDeps, Fine, FaultOf;
      var r := BindDeps(m, needs, candidates, catalog);
      if !Fine(m, needs[0], candidates, catalog) {
        assert FirstNeed(m, needs, 0, candidates, catalog);
      } else if r.Err? {
        var k :| FirstNeed(m, needs[1..], k, candidates, catalog) && r.error == FaultOf(m, needs[1..][k], candidates, catalog);
        assert FirstNeed(m, needs, k + 1, candidates, catalog);
      }
    }
  }

  ghost predicate AllFine(m: Manifest, candidates: seq<Manifest>, catalog: Catalog)
  {
    forall d :: d in m.needs ==> Fine(m, d, candidates, catalog)
  }

  /** The first manifest, and in stable-key order its first dependency, that cannot be bound. */
  ghost predicate FirstFault(sorted: seq<Manifest>, i: int, k: int, candidates: seq<Manifest>, catalog: Catalog)
  {
    && 0 <= i < |sorted| && (forall j :: 0 <= j < i ==> AllFine(sorted[j], candidates, catalog))
    && FirstNeed(sorted[i], SortBy(ByStableKey, sorted[i].needs), k, candidates, catalog)
  }

  ghost predicate FaultIs(sorted: seq<Manifest>, error: Error, candidates: seq<Manifest>, catalog: Catalog)
  {
    exists i, k :: FirstFault(sorted, i, k, candidates, catalog)
                   && error == FaultOf(sorted[i], SortBy(ByStableKey, sorted[i].needs)[k], candidates, catalog)
  }

  lemma SortedNeedsFine(m: Manifest, candidates: seq<Manifest>, catalog: Catalog)
    ensures AllFine(m, candidates, catalog) <==>
      forall d :: d in SortBy(ByStableKey, m.needs) ==> Fine(m, d, candidates, catalog)
  {
    var needs := SortBy(ByStableKey, m.needs);
    hide Fine, SortBy;
    forall d ensures d in needs <==> d in m.needs { MultisetMember(needs, m.needs, d); }
  }

  lemma FaultLater(sorted: seq<Manifest>, error: Error, candidates: seq<Manifest>, catalog: Catalog)
    requires sorted != [] && AllFine(sorted[0], candidates, catalog) && FaultIs(sorted[1..], error, candidates, catalog)
    ensures FaultIs(sorted, error, candidates, catalog)
  {
    hide AllFine, Fine, FaultOf, SortBy;
    var i, k :| FirstFault(sorted[1..], i, k, candidates, catalog)
                && error == FaultOf(sorted[1..][i], SortBy(ByStableKey, sorted[1..][i].needs)[k], candidates, catalog);
    assert sorted[i + 1] == sorted[1..][i];
    assert FirstFault(sorted, i + 1, k, candidates, catalog) by {
      forall j | 0 <= j < i + 1 ensures AllFine(sorted[j], candidates, catalog) { if j > 0 { assert sorted[1..][j - 1] == sorted[j]; } }
    }
  }

  lemma {:induction false} BindsExactly(sorted: seq<Manifest>, candidates: seq<Manifest>, catalog: Catalog)
    ensures var r := BindAll(sorted, candidates, catalog);
            && (r.Ok? <==> forall m :: m in sorted ==> AllFine(m, candidates, catalog))
            && (r.Err? ==> FaultIs(sorted, r.error, candidates, catalog))
  {
    if sorted != [] {
      var m := sorted[0];
      var needs := SortBy(ByStableKey, m.needs);
      DepsExactly(m, needs, candidates, catalog);
      SortedNeedsFine(m, candidates, catalog);
      BindsExactly(sorted[1..], candidates, catalog);
      assert sorted == [m] + sorted[1..];
      hide SortBy, BindDeps, AllFine, Fine, FaultOf, FirstNeed, FaultIs;
      var own := BindDeps(m, needs, candidates, catalog);
      if own.Err? {
        var k :| FirstNeed(m, needs, k, candidates, catalog) && own.error == FaultOf(m, needs[k], candidates, catalog);
        FaultHere(sorted, k, candidates, catalog);
      } else if BindAll(sorted[1..], candidates, catalog).Err? {
        FaultLater(sorted, BindAll(sorted[1..], candidates, catalog).error, candidates, catalog);
      }
    }
  }

  lemma FaultHere(sorted: seq<Manifest>, k: int, candidates: seq<Manifest>, catalog: Catalog)
    requires sorted != [] && FirstNeed(sorted[0], SortBy(ByStableKey, sorted[0].needs), k, candidates, catalog)
    ensures FaultIs(sorted, FaultOf(sorted[0], SortBy(ByStableKey, sorted[0].needs)[k], candidates, catalog), candidates, catalog)
  {
    hide SortBy, FirstNeed, FaultOf;
    assert FirstFault(sorted, 0, k, candidates, catalog);
  }

  /** Every dependency of every candidate has exactly one provider, and nobody names itself. */
  ghost predicate Satisfiable(candidates: seq<Manifest>, catalog: Catalog)
  {
    forall m :: m in candidates ==> AllFine(m, candidates, catalog)
  }

  lemma SortedSatisfiable(candidates: seq<Manifest>, catalog: Catalog)
    ensures Satisfiable(candidates, catalog) <==>
      forall m :: m in SortBy(ByName, candidates) ==> AllFine(m, candidates, catalog)
  {
    var sorted := SortBy(ByName, candidates);
    hide AllFine, SortBy;
    forall m ensures m in sorted <==> m in candidates { MultisetMember(sorted, candidates, m); }
  }

  /** The first candidate, in input order, whose name an earlier one or an active plugin has. */
  ghost predicate IsFirstRepeat(candidates: seq<Manifest>, catalog: Catalog, i: int)
  {
    0 <= i < |candidates| && Repeats(candidates, catalog, i) && forall j :: 0 <= j < i ==> !Repeats(candidates, catalog, j)
  }

  lemma {:induction false} FirstRepeatIsFirst(candidates: seq<Manifest>, catalog: Catalog, k: nat) returns (i: nat)
    requires k <= |candidates| && FirstRepeat(candidates, catalog, k).Some? && forall j :: 0 <= j < k ==> !Repeats(candidates, catalog, j)
    ensures IsFirstRepeat(candidates, catalog, i) && FirstRepeat(candidates, catalog, k) == Some(candidates[i].name)
    decreases |candidates| - k
  {
    hide Repeats;
    if Repeats(candidates, catalog, k) { i := k; } else { i := FirstRepeatIsFirst(candidates, catalog, k + 1); }
  }

  /** A plan is made if and only if the names are unique, every dependency of every candidate has
      exactly one provider, nobody names itself, and the provider graph is acyclic. Otherwise the
      error is, in this order: the first repeated name; the first dependency, by consumer name and
      stable key, that cannot be bound, with its cause; or everything a cycle blocks. */
  lemma ResolvesExactly(candidates: seq<Manifest>, catalog: Catalog)
    ensures var r, g := Resolve(candidates, catalog), ProviderGraph(candidates, catalog);
            && (r.Ok? <==> UniqueNames(candidates, catalog) && Satisfiable(candidates, catalog) && Acyclic(g))
            && (r.Err? ==>
                 if !UniqueNames(candidates, catalog) then
                   exists i :: IsFirstRepeat(candidates, catalog, i) && r.error == DuplicateName(candidates[i].name)
                 else if !Satisfiable(candidates, catalog) then FaultIs(SortBy(ByName, candidates), r.error, candidates, catalog)
                 else r.error == DependencyCycle(Blocked(g)))
  {
    var bound := BindAll(SortBy(ByName, candidates), candidates, catalog);
    ResolveBinds(candidates, catalog);
    BindsExactly(SortBy(ByName, candidates), candidates, catalog);
    SortedSatisfiable(candidates, catalog);
    if !UniqueNames(candidates, catalog) { var i := FirstRepeatIsFirst(candidates, catalog, 0); }
    hide *;
    if bound.Ok? {
      GraphsAgree(candidates, catalog, bound.value);
      PlannedIs(candidates, bound.value);
    }
  }

  // ---------------------------------------------------------------- input order

  lemma {:induction false} FilterCount<T>(p: T -> bool, xs: seq<T>, x: T)
    ensures multiset(Filter(p, xs))[x] == if p(x) then multiset(xs)[x] else 0
  {
    if xs != [] {
      FilterCount(p, xs[1..], x);
      assert xs == [xs[0]] + xs[1..];
    }
  }

  lemma FilterPermuted<T(!new)>(p: T -> bool, a: seq<T>, b: seq<T>)
    requires multiset(a) == multiset(b)
    ensures multiset(Filter(p, a)) == multiset(Filter(p, b))
  {
    var pa, pb := Filter(p, a), Filter(p, b);
    forall x ensures multiset(pa)[x] == multiset(pb)[x] {
      FilterCount(p, a, x);
      FilterCount(p, b, x);
    }
  }

  lemma SelectPermuted<T(!new)>(p: T -> bool, q: T -> bool, a: seq<T>, b: seq<T>)
    requires multiset(a) == multiset(b)
    ensures Select(Filter(p, a), Filter(q, a)) == Select(Filter(p, b), Filter(q, b))
  {
    FilterPermuted(p, a, b);
    FilterPermuted(q, a, b);
    SameSize(Filter(p, a), Filter(p, b));
    SameSize(Filter(q, a), Filter(q, b));
  }

  lemma SameSize<T>(a: seq<T>, b: seq<T>)
    requires multiset(a) == multiset(b)
    ensures |a| == |b| && (|a| == 1 ==> a == b)
  {
    assert |multiset(a)| == |a| && |multiset(b)| == |b|;
    if |a| == 1 {
      assert a[0] in multiset(b);
      assert b == [b[0]];
    }
  }

  lemma {:induction false} OffersAppend(a: seq<Manifest>, b: seq<Manifest>)
    ensures Offers(a + b) == Offers(a) + Offers(b)
    ensures Refs(a + b) == Refs(a) + Refs(b)
  {
    if a != [] {
      OffersAppend(a[1..], b);
      assert (a + b)[1..] == a[1..] + b;
    } else {
      assert a + b == b;
    }
  }

  lemma RemoveSame(a: seq<Manifest>, b: seq<Manifest>, k: nat)
    requires multiset(a) == multiset(b) && a != [] && k < |b| && b[k] == a[0]
    ensures multiset(a[1..]) == multiset(b[..k] + b[k + 1..])
  {
    assert a == [a[0]] + a[1..];
    assert b == b[..k] + [b[k]] + b[k + 1..];
    var p, q := multiset(a[1..]), multiset(b[..k] + b[k + 1..]);
    assert multiset(a) == multiset{a[0]} + p;
    assert multiset(b) == multiset(b[..k]) + multiset{b[k]} + multiset(b[k + 1..]);
    assert q == multiset(b[..k]) + multiset(b[k + 1..]);
    assert p == multiset(a) - multiset{a[0]};
    assert q == multiset(b) - multiset{a[0]};
  }

  /** Taking the same candidate out of both lists and putting it back. */
  lemma PutBack(a: seq<Manifest>, b: seq<Manifest>, k: nat)
    requires a != [] && k < |b| && b[k] == a[0]
    requires multiset(Offers(a[1..])) == multiset(Offers(b[..k] + b[k + 1..])) && multiset(Refs(a[1..])) == multiset(Refs(b[..k] + b[k + 1..]))
    ensures multiset(Offers(a)) == multiset(Offers(b)) && multiset(Refs(a)) == multiset(Refs(b))
  {
    hide Offers, Refs;
    OffersAround([], a[0], a[1..]);
    OffersAround(b[..k], b[k], b[k + 1..]);
    assert [] + [a[0]] + a[1..] == a && [] + a[1..] == a[1..];
    assert b == b[..k] + [b[k]] + b[k + 1..];
  }

  lemma {:induction false} OffersPermuted(a: seq<Manifest>, b: seq<Manifest>)
    requires multiset(a) == multiset(b)
    ensures multiset(Offers(a)) == multiset(Offers(b)) && multiset(Refs(a)) == multiset(Refs(b))
    decreases |a|
  {
    if a == [] {
      SameSize(a, b);
    } else {
      hide Offers, Refs;
      MultisetMember(a, b, a[0]);
      var k :| 0 <= k < |b| && b[k] == a[0];
      RemoveSame(a, b, k);
      OffersPermuted(a[1..], b[..k] + b[k + 1..]);
      PutBack(a, b, k);
    }
  }

  lemma OffersAround(before: seq<Manifest>, m: Manifest, after: seq<Manifest>)
    ensures multiset(Offers(before + [m] + after)) == multiset(Offers([m])) + multiset(Offers(before + after))
    ensures multiset(Refs(before + [m] + after)) == multiset(Refs([m])) + multiset(Refs(before + after))
  {
    OffersAppend(before + [m], after);
    OffersAppend(before, [m]);
    OffersAppend(before, after);
    hide Offers, Refs;
    assert multiset(Offers(before + [m] + after)) == multiset(Offers(before)) + multiset(Offers([m])) + multiset(Offers(after));
    assert multiset(Refs(before + [m] + after)) == multiset(Refs(before)) + multiset(Refs([m])) + multiset(Refs(after));
  }

  /** One dependency resolves alike under permuted candidates. */
  lemma ResolveOnePermuted(d: Dependency, a: seq<Manifest>, b: seq<Manifest>, catalog: Catalog)
    requires multiset(a) == multiset(b)
    ensures ResolveOne(d, a, catalog) == ResolveOne(d, b, catalog)
  {
    OffersPermuted(a, b);
    if d.OnPlugin? {
      SelectPermuted(NamesPlugin(d), FitsPlugin(d),
                     Refs(a) + catalog.plugins, Refs(b) + catalog.plugins);
    } else {
      SelectPermuted(NamesOffer(d), FitsOffer(d),
                     catalog.offers + Offers(a), catalog.offers + Offers(b));
    }
  }

  lemma {:induction false} BindDepsPermuted(m: Manifest, needs: seq<Dependency>, a: seq<Manifest>, b: seq<Manifest>, catalog: Catalog)
    requires multiset(a) == multiset(b)
    ensures BindDeps(m, needs, a, catalog) == BindDeps(m, needs, b, catalog)
  {
    if needs != [] {
      ResolveOnePermuted(needs[0], a, b, catalog);
      BindDepsPermuted(m, needs[1..], a, b, catalog);
    }
  }

  lemma {:induction false} BindAllPermuted(sorted: seq<Manifest>, a: seq<Manifest>, b: seq<Manifest>, catalog: Catalog)
    requires multiset(a) == multiset(b)
    ensures BindAll(sorted, a, catalog) == BindAll(sorted, b, catalog)
  {
    if sorted != [] {
      BindDepsPermuted(sorted[0], SortBy(ByStableKey, sorted[0].needs), a, b, catalog);
      BindAllPermuted(sorted[1..], a, b, catalog);
    }
  }

  lemma SortedAlike(a: seq<Manifest>, b: seq<Manifest>, catalog: Catalog)
    requires multiset(a) == multiset(b) && UniqueNames(a, catalog) && UniqueNames(b, catalog)
    ensures SortBy(ByName, a) == SortBy(ByName, b)
  {
    forall m ensures m in a <==> m in b { MultisetMember(a, b, m); }
    SortPermutation(ByName, a, b);
  }

  lemma UniqueNamesPermuted(a: seq<Manifest>, b: seq<Manifest>, catalog: Catalog)
    requires multiset(a) == multiset(b) && UniqueNames(a, catalog)
    ensures UniqueNames(b, catalog)
  {
    forall m ensures m in a <==> m in b { MultisetMember(a, b, m); }
    forall i, j | 0 <= i < j < |b| ensures b[i].name != b[j].name {
      if b[i].name == b[j].name {
        assert b[i] in a && b[j] in a;
        var x :| 0 <= x < |a| && a[x] == b[i];
        var y :| 0 <= y < |a| && a[y] == b[j];
        assert x == y;
        TwiceInMultiset(b, i, j);
        OnceInMultiset(a, x);
        assert false;
      }
    }
  }

  lemma TwiceInMultiset<T>(xs: seq<T>, i: nat, j: nat)
    requires i < j < |xs| && xs[i] == xs[j]
    ensures multiset(xs)[xs[i]] >= 2
  {
    assert xs == xs[..j] + [xs[j]] + xs[j + 1..];
    assert xs[..j][i] == xs[i];
    assert xs[i] in multiset(xs[..j]);
  }

  lemma OnceInMultiset<T>(xs: seq<T>, i: nat)
    requires i < |xs| && Distinct(xs)
    ensures multiset(xs)[xs[i]] == 1
  {
    assert xs == xs[..i] + [xs[i]] + xs[i + 1..];
    assert xs[i] !in xs[..i] && xs[i] !in xs[i + 1..];
  }

  lemma RefsInOrderPermuted(order: seq<Id>, a: seq<Manifest>, b: seq<Manifest>, catalog: Catalog)
    requires multiset(a) == multiset(b) && UniqueNames(a, catalog) && UniqueNames(b, catalog)
    requires forall n :: n in order ==> n in Names(a) && n in Names(b)
    ensures RefsInOrder(order, a) == RefsInOrder(order, b)
  {
    forall i | 0 <= i < |order| ensures Lookup(a, order[i]) == Lookup(b, order[i]) {
      var m := Lookup(a, order[i]);
      MultisetMember(a, b, m);
      LookupUnique(b, m);
    }
  }

  lemma NamesPermuted(a: seq<Manifest>, b: seq<Manifest>)
    requires multiset(a) == multiset(b)
    ensures Names(a) == Names(b)
  {
    forall m ensures m in a <==> m in b { MultisetMember(a, b, m); }
  }

  lemma PlannedPermuted(a: seq<Manifest>, b: seq<Manifest>, catalog: Catalog, bindings: seq<Binding>)
    requires multiset(a) == multiset(b) && UniqueNames(a, catalog) && UniqueNames(b, catalog)
    ensures Planned(a, bindings) == Planned(b, bindings)
  {
    NamesPermuted(a, b);
    PlannedIs(a, bindings);
    PlannedIs(b, bindings);
    assert PlanGraph(a, bindings) == PlanGraph(b, bindings);
    hide Acyclic, Greedy, SortBy, Edges, UniqueNames, Planned, PlanGraph, Names, RefsInOrder, Blocked;
    var g := PlanGraph(a, bindings);
    if Acyclic(g) { RefsInOrderPermuted(Greedy(g, {}), a, b, catalog); }
  }

  lemma UniqueResolveAlike(a: seq<Manifest>, b: seq<Manifest>, catalog: Catalog)
    requires multiset(a) == multiset(b) && UniqueNames(a, catalog)
    ensures Resolve(a, catalog) == Resolve(b, catalog)
  {
    UniqueNamesPermuted(a, b, catalog);
    SortedAlike(a, b, catalog);
    BindAllPermuted(SortBy(ByName, a), a, b, catalog);
    ResolveBinds(a, catalog);
    ResolveBinds(b, catalog);
    hide *;
    var bound := BindAll(SortBy(ByName, a), a, catalog);
    if bound.Ok? { PlannedPermuted(a, b, catalog, bound.value); }
  }

  // ---------------------------------------------------------------- which duplicate is reported

  function Named(n: Id): Manifest -> bool { (m: Manifest) => m.name == n }

  function OtherThan(n: Id): Manifest -> bool { (m: Manifest) => m.name != n }

  /** Two candidates have the name, or a candidate and an active plugin do. */
  predicate Taken(candidates: seq<Manifest>, catalog: Catalog, n: Id)
  {
    var own := |Filter(Named(n), candidates)|;
    own >= 2 || (own == 1 && exists p :: p in catalog.plugins && p.name == n)
  }

  lemma RepeatIsTaken(candidates: seq<Manifest>, catalog: Catalog, i: nat)
    requires i < |candidates| && Repeats(candidates, catalog, i)
    ensures Taken(candidates, catalog, candidates[i].name)
  {
    var n := candidates[i].name;
    FilterLength(Named(n), candidates);
    FilterMembers(Named(n), candidates, candidates[i]);
    if !exists p :: p in catalog.plugins && p.name == n {
      var j :| 0 <= j < i && candidates[j].name == n;
      assert Named(n)(candidates[i]) && Named(n)(candidates[j]);
    }
  }

  lemma {:induction false} ReportIsTaken(candidates: seq<Manifest>, catalog: Catalog, k: nat)
    requires k <= |candidates| && FirstRepeat(candidates, catalog, k).Some?
    ensures Taken(candidates, catalog, FirstRepeat(candidates, catalog, k).value)
    decreases |candidates| - k
  {
    hide Repeats, Taken;
    if Repeats(candidates, catalog, k) { RepeatIsTaken(candidates, catalog, k); } else { ReportIsTaken(candidates, catalog, k + 1); }
  }

  lemma TakenPermuted(a: seq<Manifest>, b: seq<Manifest>, catalog: Catalog, n: Id)
    requires multiset(a) == multiset(b)
    ensures Taken(a, catalog, n) == Taken(b, catalog, n)
  {
    FilterPermuted(Named(n), a, b);
    SameSize(Filter(Named(n), a), Filter(Named(n), b));
  }

  /** The resolution reports that the name is taken. */
  ghost predicate Reports(r: Result<Plan>, candidates: seq<Manifest>, catalog: Catalog)
  {
    r.Err? && r.error.DuplicateName? && Taken(candidates, catalog, r.error.plugin)
  }

  /** Permuting the candidates changes neither the plan nor the error, with the consumer, dependency or
      cycle it reports, except that of several taken names another may be reported. */
  lemma ResolutionIgnoresInputOrder(a: seq<Manifest>, b: seq<Manifest>, catalog: Catalog)
    requires multiset(a) == multiset(b)
    ensures UniqueNames(a, catalog) ==> Resolve(a, catalog) == Resolve(b, catalog)
    ensures !UniqueNames(a, catalog) ==> Reports(Resolve(a, catalog), a, catalog) && Reports(Resolve(b, catalog), a, catalog)
  {
    hide Taken, UniqueNames, FirstRepeat, Resolve;
    if UniqueNames(a, catalog) {
      UniqueResolveAlike(a, b, catalog);
    } else {
      if UniqueNames(b, catalog) { UniqueNamesPermuted(b, a, catalog); }
      ResolveBinds(a, catalog);
      ResolveBinds(b, catalog);
      ReportIsTaken(a, catalog, 0);
      ReportIsTaken(b, catalog, 0);
      TakenPermuted(a, b, catalog, FirstRepeat(b, catalog, 0).value);
    }
  }

  /** The candidates with the name first. */
  function Promoted(candidates: seq<Manifest>, n: Id): seq<Manifest>
  {
    Filter(Named(n), candidates) + Filter(OtherThan(n), candidates)
  }

  lemma PromotedPermutes(candidates: seq<Manifest>, n: Id)
    ensures multiset(Promoted(candidates, n)) == multiset(candidates)
  {
    var own, rest := Filter(Named(n), candidates), Filter(OtherThan(n), candidates);
    forall m ensures multiset(own + rest)[m] == multiset(candidates)[m] {
      FilterCount(Named(n), candidates, m);
      FilterCount(OtherThan(n), candidates, m);
    }
  }

  /** Any taken name is the one reported for some order of the candidates. */
  lemma PromotedIsReported(candidates: seq<Manifest>, catalog: Catalog, n: Id)
    requires Taken(candidates, catalog, n)
    ensures FirstRepeat(Promoted(candidates, n), catalog, 0) == Some(n)
  {
    var own, b := Filter(Named(n), candidates), Promoted(candidates, n);
    forall i | 0 <= i < |own| ensures b[i].name == n { FilterMembers(Named(n), candidates, own[i]); }
    hide Filter, FirstRepeat, Promoted;
    RepeatStep(b, catalog, 0);
    if !Repeats(b, catalog, 0) {
      RepeatStep(b, catalog, 1);
      assert b[0].name == b[1].name;
    }
  }

  ghost predicate OneTaken(candidates: seq<Manifest>, catalog: Catalog)
  {
    forall m, n :: Taken(candidates, catalog, m) && Taken(candidates, catalog, n) ==> m == n
  }

  ghost predicate AnyOrder(candidates: seq<Manifest>, catalog: Catalog)
  {
    forall b: seq<Manifest> :: multiset(b) == multiset(candidates) ==> Resolve(b, catalog) == Resolve(candidates, catalog)
  }

  /** Two orders of the same candidates with one taken name get the same answer. */
  lemma OneTakenAgrees(a: seq<Manifest>, b: seq<Manifest>, catalog: Catalog)
    requires multiset(a) == multiset(b) && OneTaken(a, catalog)
    ensures Resolve(a, catalog) == Resolve(b, catalog)
  {
    hide Taken, UniqueNames, FirstRepeat, Resolve;
    ResolutionIgnoresInputOrder(a, b, catalog);
    if !UniqueNames(a, catalog) {
      assert Taken(a, catalog, Resolve(a, catalog).error.plugin) && Taken(a, catalog, Resolve(b, catalog).error.plugin);
    }
  }

  lemma PromotedResolves(candidates: seq<Manifest>, catalog: Catalog, n: Id)
    requires Taken(candidates, catalog, n)
    ensures Resolve(Promoted(candidates, n), catalog) == Err(DuplicateName(n))
  {
    PromotedIsReported(candidates, catalog, n);
    hide FirstRepeat, Promoted, Taken;
  }

  /** The order of the candidates changes neither the plan nor the reported error if and only if at
      most one name is taken: with two, either can be the one reported. */
  lemma OrderIgnoredExactly(candidates: seq<Manifest>, catalog: Catalog)
    ensures AnyOrder(candidates, catalog) <==> OneTaken(candidates, catalog)
  {
    hide Taken, Resolve, Promoted;
    if OneTaken(candidates, catalog) {
      forall b: seq<Manifest> | multiset(b) == multiset(candidates) ensures Resolve(b, catalog) == Resolve(candidates, catalog) {
        OneTakenAgrees(candidates, b, catalog);
      }
    }
    if AnyOrder(candidates, catalog) {
      forall m, n | Taken(candidates, catalog, m) && Taken(candidates, catalog, n) ensures m == n {
        PromotedPermutes(candidates, m);
        PromotedPermutes(candidates, n);
        PromotedResolves(candidates, catalog, m);
        PromotedResolves(candidates, catalog, n);
      }
    }
  }

  /** Two plugins offered twice each, in two orders: the errors name different plugins. */
  lemma DuplicateReportsDiffer(version: SemVer.Version)
    ensures var a, b := Manifest(0, version, [], []), Manifest(1, version, [], []);
            && Resolve([a, a, b, b], Catalog([], [])) == Err(DuplicateName(0))
            && Resolve([b, b, a, a], Catalog([], [])) == Err(DuplicateName(1))
  {
    var a, b := Manifest(0, version, [], []), Manifest(1, version, [], []);
    RepeatStep([a, a, b, b], Catalog([], []), 0);
    RepeatStep([a, a, b, b], Catalog([], []), 1);
    RepeatStep([b, b, a, a], Catalog([], []), 0);
    RepeatStep([b, b, a, a], Catalog([], []), 1);
    hide FirstRepeat;
    assert [a, a, b, b][0].name == [a, a, b, b][1].name && [b, b, a, a][0].name == [b, b, a, a][1].name;
  }

  // ---------------------------------------------------------------- binding order

  lemma {:induction false} DepsAscending(m: Manifest, needs: seq<Dependency>, candidates: seq<Manifest>, catalog: Catalog)
    requires Ascending(ByStableKey, needs) && BindDeps(m, needs, candidates, catalog).Ok?
    ensures Ascending(ByBindingKey, BindDeps(m, needs, candidates, catalog).value)
  {
    if needs != [] {
      DepsAscending(m, needs[1..], candidates, catalog);
      var rest := BindDeps(m, needs[1..], candidates, catalog).value;
      forall j | 0 <= j < |rest| ensures ByBindingKey(Bind(m, needs[0], ResolveOne(needs[0], candidates, catalog).value), rest[j]) {
        BoundDeps(m, needs[1..], candidates, catalog, rest[j]);
        var k :| 0 <= k < |needs[1..]| && needs[1..][k] == rest[j].dependency;
        assert needs[k + 1] == rest[j].dependency;
        assert ByStableKey(needs[0], needs[k + 1]);
        PrefixLess(m.name, StableKey(needs[0]), StableKey(rest[j].dependency));
      }
    }
  }

  lemma PrefixLess(n: nat, a: seq<nat>, b: seq<nat>)
    requires TupleLess(a, b)
    ensures TupleLess([n] + a, [n] + b)
  {
    assert ([n] + a)[1..] == a && ([n] + b)[1..] == b;
  }

  lemma RestConsumer(sorted: seq<Manifest>, candidates: seq<Manifest>, catalog: Catalog, b: Binding)
    requires sorted != [] && Ascending(ByName, sorted) && BindAll(sorted[1..], candidates, catalog).Ok?
    requires b in BindAll(sorted[1..], candidates, catalog).value
    ensures sorted[0].name < b.consumer.name
  {
    ConsumersAreCandidates(sorted[1..], candidates, catalog);
    hide BindAll;
    var n :| n in sorted[1..] && b.consumer == Ref(n);
    var k :| 0 <= k < |sorted[1..]| && sorted[1..][k] == n;
    assert ByName(sorted[0], sorted[k + 1]);
  }

  /** The bindings of the first consumer come before all others. */
  lemma OwnBeforeRest(sorted: seq<Manifest>, needs: seq<Dependency>, candidates: seq<Manifest>, catalog: Catalog, own: Binding, other: Binding)
    requires sorted != [] && Ascending(ByName, sorted) && BindAll(sorted[1..], candidates, catalog).Ok?
    requires BindDeps(sorted[0], needs, candidates, catalog).Ok?
    requires own in BindDeps(sorted[0], needs, candidates, catalog).value && other in BindAll(sorted[1..], candidates, catalog).value
    ensures ByBindingKey(own, other)
  {
    OwnConsumer(sorted[0], needs, candidates, catalog);
    RestConsumer(sorted, candidates, catalog, other);
    hide BindAll, BindDeps, Ascending;
  }

  lemma AscendingJoined(own: seq<Binding>, rest: seq<Binding>)
    requires Ascending(ByBindingKey, own) && Ascending(ByBindingKey, rest)
    requires forall i, j :: 0 <= i < |own| && 0 <= j < |rest| ==> ByBindingKey(own[i], rest[j])
    ensures Ascending(ByBindingKey, own + rest)
  {
    hide ByBindingKey;
  }

  /** The loop already emits bindings in key order, so the final sort keeps them as they are. */
  lemma {:induction false} BindingsAscending(sorted: seq<Manifest>, candidates: seq<Manifest>, catalog: Catalog)
    requires Ascending(ByName, sorted) && forall m :: m in sorted ==> ValidManifest(m)
    requires BindAll(sorted, candidates, catalog).Ok?
    ensures Ascending(ByBindingKey, BindAll(sorted, candidates, catalog).value)
  {
    if sorted != [] {
      var m := sorted[0];
      var needs := SortBy(ByStableKey, m.needs);
      assert m in sorted;
      assert Ascending(ByName, sorted[1..]) && BindAll(sorted[1..], candidates, catalog).Ok? && BindDeps(m, needs, candidates, catalog).Ok?;
      var own, rest := BindDeps(m, needs, candidates, catalog).value, BindAll(sorted[1..], candidates, catalog).value;
      assert BindAll(sorted, candidates, catalog).value == own + rest;
      hide BindAll, BindDeps, Ascending, SortBy, ByBindingKey, ByName, ByStableKey;
      StableKeyOrder();
      SortIsAscending(ByStableKey, m.needs);
      DepsAscending(m, needs, candidates, catalog);
      BindingsAscending(sorted[1..], candidates, catalog);
      forall i, j | 0 <= i < |own| && 0 <= j < |rest| ensures ByBindingKey(own[i], rest[j]) {
        OwnBeforeRest(sorted, needs, candidates, catalog, own[i], rest[j]);
      }
      AscendingJoined(own, rest);
    }
  }

  lemma StableKeyOrder()
    ensures StrictOrder(ByStableKey)
  {
    TupleOrder();
  }

  lemma BindingKeyOrder()
    ensures StrictOrder(ByBindingKey)
  {
    TupleOrder();
  }

  lemma NameOrder(candidates: seq<Manifest>)
    requires forall i, j :: 0 <= i < j < |candidates| ==> candidates[i].name != candidates[j].name
    ensures Ascending(ByName, SortBy(ByName, candidates))
  {
    SortIsAscending(ByName, candidates);
  }

  lemma PlannedSorts(candidates: seq<Manifest>, catalog: Catalog, plan: Plan)
    requires Resolve(candidates, catalog) == Ok(plan)
    ensures var bound := BindAll(SortBy(ByName, candidates), candidates, catalog);
            UniqueNames(candidates, catalog) && bound.Ok? && plan.bindings == SortBy(ByBindingKey, bound.value)
  {
    ResolveBinds(candidates, catalog);
    var bound := BindAll(SortBy(ByName, candidates), candidates, catalog);
    hide *;
    if bound.Ok? { PlannedIs(candidates, bound.value); }
  }

  lemma FinalSortIsIdentity(candidates: seq<Manifest>, catalog: Catalog, plan: Plan)
    requires Resolve(candidates, catalog) == Ok(plan) && forall m :: m in candidates ==> ValidManifest(m)
    ensures BindAll(SortBy(ByName, candidates), candidates, catalog) == Ok(plan.bindings)
  {
    var sorted := SortBy(ByName, candidates);
    UniqueWhenResolved(candidates, catalog);
    NameOrder(candidates);
    hide *;
    forall m | m in sorted ensures ValidManifest(m) { MultisetMember(sorted, candidates, m); }
    BindingsAscending(sorted, candidates, catalog);
    BindingKeyOrder();
    PlannedSorts(candidates, catalog, plan);
    SortAscending(ByBindingKey, BindAll(sorted, candidates, catalog).value);
  }
}
