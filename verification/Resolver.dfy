/** Deterministic plugin dependency resolution. */
module Resolver {
  import opened Wrappers
  import opened Order
  import opened Graph
  import Kahn
  import SemVer

  datatype PluginRef = PluginRef(name: Id, version: SemVer.Version)

  datatype Capability = Capability(kind: nat, id: Id, version: SemVer.Version)

  datatype Offer = Offer(owner: PluginRef, declaration: Capability)

  datatype Dependency =
    | OnPlugin(range: seq<SemVer.Comparator>, plugin: Id)
    | OnCapability(range: seq<SemVer.Comparator>, kind: nat, capability: Id)

  datatype Manifest = Manifest(name: Id, version: SemVer.Version, offered: seq<Capability>, needs: seq<Dependency>)

  datatype Catalog = Catalog(plugins: seq<PluginRef>, offers: seq<Offer>)

  /** What a dependency resolves to; a capability dependency also to the declaration it selected. */
  datatype Provider = Provider(plugin: PluginRef, capability: Option<Capability>)

  datatype Binding = Binding(consumer: PluginRef, dependency: Dependency, provider: PluginRef, capability: Option<Capability>)

  datatype Plan = Plan(ordered: seq<PluginRef>, bindings: seq<Binding>)

  datatype Cause = Ambiguous | Missing | Incompatible

  datatype Choice<+T> = Chosen(value: T) | NotChosen(cause: Cause)

  /** Each error with what it reports: the plugin at fault, and for a cycle the plugins left over. */
  datatype Error =
    | DuplicateName(plugin: Id)
    | Unavailable(cause: Cause, consumer: Id, dependency: Dependency)
    | DependsOnItself(plugin: Id)
    | DependencyCycle(left: set<Id>)

  datatype Result<+T> = Ok(value: T) | Err(error: Error)

  function Ref(m: Manifest): PluginRef { PluginRef(m.name, m.version) }

  /** The dependency's sort key; capability dependencies sort before plugin dependencies. */
  function StableKey(d: Dependency): seq<nat>
  {
    match d
    case OnCapability(_, kind, capability) => [0, kind + 1, capability]
    case OnPlugin(_, plugin) => [1, 0, plugin]
  }

  predicate ByName(a: Manifest, b: Manifest) { a.name < b.name }

  predicate ByStableKey(a: Dependency, b: Dependency) { TupleLess(StableKey(a), StableKey(b)) }

  /** The bindings' sort key. Consumer and dependency already tell any two bindings of a plan
      apart, so the later components of the source's key never decide. */
  predicate ByBindingKey(a: Binding, b: Binding)
  {
    TupleLess([a.consumer.name] + StableKey(a.dependency), [b.consumer.name] + StableKey(b.dependency))
  }

  /** What the manifest and catalog constructors enforce. */
  ghost predicate ValidManifest(m: Manifest) { Comparable(ByStableKey, m.needs) }

  ghost predicate UniqueNames(candidates: seq<Manifest>, catalog: Catalog)
  {
    && (forall i, j :: 0 <= i < j < |candidates| ==> candidates[i].name != candidates[j].name)
    && (forall m, p :: m in candidates && p in catalog.plugins ==> m.name != p.name)
  }

  /** The name is taken: by an earlier candidate or by an active plugin. */
  predicate Repeats(candidates: seq<Manifest>, catalog: Catalog, i: nat)
    requires i < |candidates|
  {
    || (exists j :: 0 <= j < i && candidates[j].name == candidates[i].name)
    || (exists p :: p in catalog.plugins && p.name == candidates[i].name)
  }

  /** The first taken name from position k on. */
  function FirstRepeat(candidates: seq<Manifest>, catalog: Catalog, k: nat): Option<Id>
    requires k <= |candidates|
    decreases |candidates| - k
  {
    if k == |candidates| then None
    else if Repeats(candidates, catalog, k) then Some(candidates[k].name) else FirstRepeat(candidates, catalog, k + 1)
  }

  lemma {:induction false} NoRepeatFrom(candidates: seq<Manifest>, catalog: Catalog, k: nat)
    requires k <= |candidates|
    ensures FirstRepeat(candidates, catalog, k).None? <==> forall i :: k <= i < |candidates| ==> !Repeats(candidates, catalog, i)
    decreases |candidates| - k
  {
    hide Repeats;
    if k < |candidates| { NoRepeatFrom(candidates, catalog, k + 1); }
  }

  lemma UniqueExactly(candidates: seq<Manifest>, catalog: Catalog)
    ensures UniqueNames(candidates, catalog) <==> FirstRepeat(candidates, catalog, 0).None?
  {
    NoRepeatFrom(candidates, catalog, 0);
    hide FirstRepeat;
    if UniqueNames(candidates, catalog) {
      forall i | 0 <= i < |candidates| ensures !Repeats(candidates, catalog, i) { assert candidates[i] in candidates; }
    } else if forall i :: 0 <= i < |candidates| ==> !Repeats(candidates, catalog, i) {
      forall i, j | 0 <= i < j < |candidates| ensures candidates[i].name != candidates[j].name { assert !Repeats(candidates, catalog, j); }
      forall m, p | m in candidates && p in catalog.plugins ensures m.name != p.name {
        var i :| 0 <= i < |candidates| && candidates[i] == m;
        assert !Repeats(candidates, catalog, i);
      }
    }
  }

  // ---------------------------------------------------------------- selecting a provider

  function Filter<T>(p: T -> bool, xs: seq<T>): seq<T>
  {
    if xs == [] then [] else (if p(xs[0]) then [xs[0]] else []) + Filter(p, xs[1..])
  }

  function Offers(candidates: seq<Manifest>): seq<Offer>
  {
    if candidates == [] then [] else OffersOf(Ref(candidates[0]), candidates[0].offered) + Offers(candidates[1..])
  }

  function OffersOf(owner: PluginRef, offered: seq<Capability>): seq<Offer>
  {
    if offered == [] then [] else [Offer(owner, offered[0])] + OffersOf(owner, offered[1..])
  }

  function Refs(candidates: seq<Manifest>): seq<PluginRef>
  {
    if candidates == [] then [] else [Ref(candidates[0])] + Refs(candidates[1..])
  }

  /** Exactly one compatible provider is required. */
  function Select<T>(matches: seq<T>, compatible: seq<T>): Choice<T>
  {
    if compatible == [] then NotChosen(if matches != [] then Incompatible else Missing)
    else if |compatible| > 1 then NotChosen(Ambiguous)
    else Chosen(compatible[0])
  }

  function NamesPlugin(d: Dependency): PluginRef -> bool
    requires d.OnPlugin?
  {
    (p: PluginRef) => p.name == d.plugin
  }

  function FitsPlugin(d: Dependency): PluginRef -> bool
    requires d.OnPlugin?
  {
    (p: PluginRef) => p.name == d.plugin && SemVer.RangeMatches(d.range, p.version)
  }

  function NamesOffer(d: Dependency): Offer -> bool
    requires d.OnCapability?
  {
    (o: Offer) => o.declaration.kind == d.kind && o.declaration.id == d.capability
  }

  function FitsOffer(d: Dependency): Offer -> bool
    requires d.OnCapability?
  {
    (o: Offer) => o.declaration.kind == d.kind && o.declaration.id == d.capability
                  && SemVer.RangeMatches(d.range, o.declaration.version)
  }

  function SelectPlugin(d: Dependency, plugins: seq<PluginRef>): Choice<Provider>
    requires d.OnPlugin?
  {
    match Select(Filter(NamesPlugin(d), plugins), Filter(FitsPlugin(d), plugins))
    case NotChosen(cause) => NotChosen(cause)
    case Chosen(p) => Chosen(Provider(p, None))
  }

  function SelectOffer(d: Dependency, offers: seq<Offer>): Choice<Provider>
    requires d.OnCapability?
  {
    match Select(Filter(NamesOffer(d), offers), Filter(FitsOffer(d), offers))
    case NotChosen(cause) => NotChosen(cause)
    case Chosen(o) => Chosen(Provider(o.owner, Some(o.declaration)))
  }

  function ResolveOne(d: Dependency, candidates: seq<Manifest>, catalog: Catalog): Choice<Provider>
  {
    if d.OnPlugin? then SelectPlugin(d, Refs(candidates) + catalog.plugins)
    else SelectOffer(d, catalog.offers + Offers(candidates))
  }

  // ---------------------------------------------------------------- the resolution, as a function

  predicate SelfDependency(m: Manifest, d: Dependency, provider: Provider) { d.OnPlugin? && provider.plugin.name == m.name }

  function Bind(m: Manifest, d: Dependency, provider: Provider): Binding { Binding(Ref(m), d, provider.plugin, provider.capability) }

  function BindDeps(m: Manifest, needs: seq<Dependency>, candidates: seq<Manifest>, catalog: Catalog): Result<seq<Binding>>
  {
    if needs == [] then Ok([])
    else
      match ResolveOne(needs[0], candidates, catalog)
      case NotChosen(cause) => Err(Unavailable(cause, m.name, needs[0]))
      case Chosen(provider) =>
        if SelfDependency(m, needs[0], provider) then Err(DependsOnItself(m.name))
        else
          match BindDeps(m, needs[1..], candidates, catalog)
          case Err(e) => Err(e)
          case Ok(rest) => Ok([Bind(m, needs[0], provider)] + rest)
  }

  function BindAll(sorted: seq<Manifest>, candidates: seq<Manifest>, catalog: Catalog): Result<seq<Binding>>
  {
    if sorted == [] then Ok([])
    else
      match BindDeps(sorted[0], SortBy(ByStableKey, sorted[0].needs), candidates, catalog)
      case Err(e) => Err(e)
      case Ok(own) =>
        match BindAll(sorted[1..], candidates, catalog)
        case Err(e) => Err(e)
        case Ok(rest) => Ok(own + rest)
  }

  function Names(candidates: seq<Manifest>): set<Id> { set m | m in candidates :: m.name }

  /** Candidate provider to candidate consumer. */
  function Edges(bindings: seq<Binding>, names: set<Id>): set<Edge>
  {
    set b | b in bindings && b.provider.name in names && b.provider.name != b.consumer.name
      :: Edge(b.provider.name, b.consumer.name)
  }

  ghost function PlanGraph(candidates: seq<Manifest>, bindings: seq<Binding>): Graph
  {
    Graph(Names(candidates), Edges(bindings, Names(candidates)))
  }

  function Lookup(candidates: seq<Manifest>, name: Id): (m: Manifest)
    requires name in Names(candidates)
    ensures m in candidates && m.name == name
  {
    if candidates[0].name == name then candidates[0] else Lookup(candidates[1..], name)
  }

  function RefsInOrder(order: seq<Id>, candidates: seq<Manifest>): (refs: seq<PluginRef>)
    requires forall n :: n in order ==> n in Names(candidates)
    ensures |refs| == |order|
    ensures forall i :: 0 <= i < |order| ==> refs[i] == Ref(Lookup(candidates, order[i]))
  {
    if order == [] then [] else [Ref(Lookup(candidates, order[0]))] + RefsInOrder(order[1..], candidates)
  }

  /** The plan for resolved bindings, or what a cycle leaves over. */
  ghost function Planned(candidates: seq<Manifest>, bindings: seq<Binding>): Result<Plan>
  {
    var g := PlanGraph(candidates, bindings);
    if !Acyclic(g) then Err(DependencyCycle(Blocked(g)))
    else
      GreedyElements(g, {});
      Ok(Plan(RefsInOrder(Greedy(g, {}), candidates), SortBy(ByBindingKey, bindings)))
  }

  lemma PlannedIs(candidates: seq<Manifest>, bindings: seq<Binding>)
    ensures var g, r := PlanGraph(candidates, bindings), Planned(candidates, bindings);
            && (!Acyclic(g) ==> r == Err(DependencyCycle(Blocked(g))))
            && (Acyclic(g) ==>
                 && (forall n :: n in Greedy(g, {}) ==> n in Names(candidates))
                 && r == Ok(Plan(RefsInOrder(Greedy(g, {}), candidates), SortBy(ByBindingKey, bindings))))
  {
    GreedyElements(PlanGraph(candidates, bindings), {});
    hide Acyclic, Greedy, Blocked, SortBy, RefsInOrder, Edges, Names;
  }

  ghost function Resolve(candidates: seq<Manifest>, catalog: Catalog): Result<Plan>
  {
    if FirstRepeat(candidates, catalog, 0).Some? then Err(DuplicateName(FirstRepeat(candidates, catalog, 0).value))
    else
      match BindAll(SortBy(ByName, candidates), candidates, catalog)
      case Err(e) => Err(e)
      case Ok(bindings) => Planned(candidates, bindings)
  }

  // ---------------------------------------------------------------- the loops

  /** The duplicate-name loop: the first name that is taken already, if any. */
  method CheckNames(candidates: seq<Manifest>, catalog: Catalog) returns (taken: Option<Id>)
    ensures taken == FirstRepeat(candidates, catalog, 0)
  {
    var byName: map<Id, Manifest> := map[];
    hide FirstRepeat;
    for i := 0 to |candidates|
      invariant byName.Keys == Names(candidates[..i])
      invariant FirstRepeat(candidates, catalog, 0) == FirstRepeat(candidates, catalog, i)
    {
      var m := candidates[i];
      NamesBefore(candidates, i, m.name);
      RepeatStep(candidates, catalog, i);
      if m.name in byName || exists p :: p in catalog.plugins && p.name == m.name {
        return Some(m.name);
      }
      byName := byName[m.name := m];
      assert candidates[..i + 1] == candidates[..i] + [m];
    }
    RepeatStep(candidates, catalog, |candidates|);
    taken := None;
  }

  lemma NamesBefore(candidates: seq<Manifest>, i: nat, name: Id)
    requires i <= |candidates|
    ensures name in Names(candidates[..i]) <==> exists j :: 0 <= j < i && candidates[j].name == name
  {
    if name in Names(candidates[..i]) {
      var m :| m in candidates[..i] && m.name == name;
      var j :| 0 <= j < i && candidates[..i][j] == m;
      assert candidates[j].name == name;
    } else if exists j :: 0 <= j < i && candidates[j].name == name {
      var j :| 0 <= j < i && candidates[j].name == name;
      assert candidates[j] in candidates[..i];
    }
  }

  lemma RepeatStep(candidates: seq<Manifest>, catalog: Catalog, i: nat)
    requires i <= |candidates|
    ensures FirstRepeat(candidates, catalog, i) ==
      if i == |candidates| then None
      else if Repeats(candidates, catalog, i) then Some(candidates[i].name) else FirstRepeat(candidates, catalog, i + 1)
  {
    hide Repeats;
  }

  /** One manifest's dependencies, in stable-key order. */
  method BindManifest(m: Manifest, candidates: seq<Manifest>, catalog: Catalog) returns (r: Result<seq<Binding>>)
    ensures r == BindDeps(m, SortBy(ByStableKey, m.needs), candidates, catalog)
  {
    var needs := SortBy(ByStableKey, m.needs);
    var own: seq<Binding> := [];
    ghost var whole := BindDeps(m, needs, candidates, catalog);
    assert needs[0..] == needs;
    assert whole.Ok? ==> [] + whole.value == whole.value;
    hide SortBy, ResolveOne, SelfDependency;
    for i := 0 to |needs|
      invariant whole == Prepend(own, BindDeps(m, needs[i..], candidates, catalog))
    {
      assert needs[i..][0] == needs[i] && needs[i..][1..] == needs[i + 1..];
      match ResolveOne(needs[i], candidates, catalog) {
        case NotChosen(cause) => return Err(Unavailable(cause, m.name, needs[i]));
        case Chosen(provider) =>
          if SelfDependency(m, needs[i], provider) { return Err(DependsOnItself(m.name)); }
          PrependOne(own, Bind(m, needs[i], provider), BindDeps(m, needs[i + 1..], candidates, catalog));
          own := own + [Bind(m, needs[i], provider)];
      }
    }
    assert own + [] == own;
    r := Ok(own);
  }

  ghost function Prepend(own: seq<Binding>, rest: Result<seq<Binding>>): Result<seq<Binding>>
  {
    if rest.Err? then rest else Ok(own + rest.value)
  }

  lemma PrependOne(own: seq<Binding>, b: Binding, rest: Result<seq<Binding>>)
    ensures Prepend(own, Prepend([b], rest)) == Prepend(own + [b], rest)
  {
    if rest.Ok? { assert own + ([b] + rest.value) == own + [b] + rest.value; }
  }

  method BindCandidates(candidates: seq<Manifest>, catalog: Catalog) returns (r: Result<seq<Binding>>)
    ensures r == BindAll(SortBy(ByName, candidates), candidates, catalog)
  {
    var sorted := SortBy(ByName, candidates);
    var bindings: seq<Binding> := [];
    ghost var whole := BindAll(sorted, candidates, catalog);
    assert sorted[0..] == sorted;
    assert whole == Prepend([], whole) by { if whole.Ok? { assert [] + whole.value == whole.value; } }
    hide SortBy, BindDeps, Prepend;
    for i := 0 to |sorted|
      invariant whole == Prepend(bindings, BindAll(sorted[i..], candidates, catalog))
    {
      BindAllStep(sorted, i, candidates, catalog);
      var own := BindManifest(sorted[i], candidates, catalog);
      if own.Err? { PrependErr(bindings, own.error); return Err(own.error); }
      PrependMany(bindings, own.value, BindAll(sorted[i + 1..], candidates, catalog));
      bindings := bindings + own.value;
    }
    PrependNone(bindings);
    r := Ok(bindings);
  }

  lemma BindAllStep(sorted: seq<Manifest>, i: nat, candidates: seq<Manifest>, catalog: Catalog)
    requires i < |sorted|
    ensures var own := BindDeps(sorted[i], SortBy(ByStableKey, sorted[i].needs), candidates, catalog);
            BindAll(sorted[i..], candidates, catalog) ==
              if own.Err? then Err(own.error) else Prepend(own.value, BindAll(sorted[i + 1..], candidates, catalog))
  {
    hide SortBy, BindDeps;
    assert sorted[i..][0] == sorted[i] && sorted[i..][1..] == sorted[i + 1..];
  }

  lemma PrependErr(own: seq<Binding>, e: Error)
    ensures Prepend(own, Err(e)) == Err(e)
  {
  }

  lemma PrependNone(own: seq<Binding>)
    ensures Prepend(own, Ok([])) == Ok(own)
  {
    assert own + [] == own;
  }

  lemma PrependMany(a: seq<Binding>, b: seq<Binding>, rest: Result<seq<Binding>>)
    ensures Prepend(a, Prepend(b, rest)) == Prepend(a + b, rest)
  {
    if rest.Ok? { assert a + (b + rest.value) == a + b + rest.value; }
  }

  /** Edge collection: repeated provider and consumer pairs count once. */
  method CollectEdges(bindings: seq<Binding>, names: set<Id>) returns (edges: seq<Edge>)
    ensures Distinct(edges) && Elements(edges) == Edges(bindings, names)
  {
    edges := [];
    for i := 0 to |bindings|
      invariant Distinct(edges) && Elements(edges) == Edges(bindings[..i], names)
    {
      var b := bindings[i];
      var e := Edge(b.provider.name, b.consumer.name);
      assert bindings[..i + 1] == bindings[..i] + [b];
      EdgesStep(bindings[..i], b, names);
      if b.provider.name in names && b.provider.name != b.consumer.name && e !in edges {
        assert Elements(edges + [e]) == Elements(edges) + {e};
        edges := edges + [e];
      }
    }
    assert bindings[..|bindings|] == bindings;
  }

  lemma EdgesStep(bindings: seq<Binding>, b: Binding, names: set<Id>)
    ensures Edges(bindings + [b], names) == Edges(bindings, names)
            + if b.provider.name in names && b.provider.name != b.consumer.name then {Edge(b.provider.name, b.consumer.name)} else {}
  {
    var longer := bindings + [b];
    assert forall x :: x in longer <==> x in bindings || x == b;
  }

  function NameList(candidates: seq<Manifest>): (names: seq<Id>)
    ensures |names| == |candidates|
    ensures forall i :: 0 <= i < |names| ==> names[i] == candidates[i].name
    ensures Elements(names) == Names(candidates)
  {
    if candidates == [] then []
    else
      assert candidates == [candidates[0]] + candidates[1..];
      [candidates[0].name] + NameList(candidates[1..])
  }

  /** Activation order from the bindings: Kahn's algorithm over candidate names. */
  method Schedule(candidates: seq<Manifest>, bindings: seq<Binding>) returns (r: Result<Plan>)
    requires forall i, j :: 0 <= i < j < |candidates| ==> candidates[i].name != candidates[j].name
    requires WellFormed(PlanGraph(candidates, bindings))
    ensures r == Planned(candidates, bindings)
  {
    hide Names, Edges, Distinct, Acyclic, Greedy, Blocked, PlanGraph, Planned, WellFormed, SortBy, RefsInOrder, Elements;
    ghost var g := PlanGraph(candidates, bindings);
    var names := NameList(candidates);
    var edges := CollectEdges(bindings, Names(candidates));
    TablesDescribe(candidates, bindings, names, edges);
    PlannedIs(candidates, bindings);
    var order, counts := Kahn.TopologicalOrder(names, edges);
    if order.None? {
      var left := set n | n in counts && counts[n] != 0;
      LeftOver(g, names, counts, left);
      return Err(DependencyCycle(left));
    }
    r := Ok(Plan(RefsInOrder(order.value, candidates), SortBy(ByBindingKey, bindings)));
  }

  lemma TablesDescribe(candidates: seq<Manifest>, bindings: seq<Binding>, names: seq<Id>, edges: seq<Edge>)
    requires forall i, j :: 0 <= i < j < |candidates| ==> candidates[i].name != candidates[j].name
    requires |names| == |candidates| && forall i :: 0 <= i < |names| ==> names[i] == candidates[i].name
    requires Elements(names) == Names(candidates) && Elements(edges) == Edges(bindings, Names(candidates))
    requires WellFormed(PlanGraph(candidates, bindings))
    ensures Distinct(names) && Graph(Elements(names), Elements(edges)) == PlanGraph(candidates, bindings)
    ensures forall e :: e in edges ==> e.source in names && e.target in names
  {
    hide Names, Edges;
    forall e | e in edges ensures e.source in names && e.target in names { assert e in Elements(edges); }
  }

  lemma LeftOver(g: Graph, names: seq<Id>, counts: map<Id, nat>, left: set<Id>)
    requires Elements(names) == g.nodes && counts.Keys == Elements(names)
    requires forall n :: n in names ==> (counts[n] != 0 <==> n in Blocked(g))
    requires forall n :: n in left <==> n in counts && counts[n] != 0
    ensures left == Blocked(g)
  {
    assert forall n :: n in names <==> n in Elements(names);
    hide Greedy, Elements;
  }

  method ResolvePlan(candidates: seq<Manifest>, catalog: Catalog) returns (r: Result<Plan>)
    ensures r == Resolve(candidates, catalog)
  {
    hide FirstRepeat, BindAll, Planned, PlanGraph, WellFormed, SortBy;
    var taken := CheckNames(candidates, catalog);
    if taken.Some? { return Err(DuplicateName(taken.value)); }
    UniqueExactly(candidates, catalog);
    var bound := BindCandidates(candidates, catalog);
    if bound.Err? { return Err(bound.error); }
    EndpointsAreNames(candidates, catalog, bound.value);
    r := Schedule(candidates, bound.value);
  }

  lemma {:induction false} ConsumersAreCandidates(sorted: seq<Manifest>, candidates: seq<Manifest>, catalog: Catalog)
    requires BindAll(sorted, candidates, catalog).Ok?
    ensures forall b :: b in BindAll(sorted, candidates, catalog).value ==> exists m :: m in sorted && b.consumer == Ref(m)
  {
    if sorted != [] {
      var own := BindDeps(sorted[0], SortBy(ByStableKey, sorted[0].needs), candidates, catalog);
      OwnConsumer(sorted[0], SortBy(ByStableKey, sorted[0].needs), candidates, catalog);
      ConsumersAreCandidates(sorted[1..], candidates, catalog);
      var rest := BindAll(sorted[1..], candidates, catalog);
      forall b | b in own.value + rest.value ensures exists m :: m in sorted && b.consumer == Ref(m) {
        if b in own.value {
          assert sorted[0] in sorted && b.consumer == Ref(sorted[0]);
        } else {
          var m :| m in sorted[1..] && b.consumer == Ref(m);
          assert m in sorted;
        }
      }
    }
  }

  lemma {:induction false} OwnConsumer(m: Manifest, needs: seq<Dependency>, candidates: seq<Manifest>, catalog: Catalog)
    requires BindDeps(m, needs, candidates, catalog).Ok?
    ensures forall b :: b in BindDeps(m, needs, candidates, catalog).value ==> b.consumer == Ref(m)
  {
    if needs != [] { OwnConsumer(m, needs[1..], candidates, catalog); }
  }

  lemma EndpointsAreNames(candidates: seq<Manifest>, catalog: Catalog, bindings: seq<Binding>)
    requires BindAll(SortBy(ByName, candidates), candidates, catalog) == Ok(bindings)
    ensures WellFormed(PlanGraph(candidates, bindings))
  {
    ConsumersAreCandidates(SortBy(ByName, candidates), candidates, catalog);
    var sorted := SortBy(ByName, candidates);
    forall b | b in bindings ensures b.consumer.name in Names(candidates) {
      var m :| m in sorted && b.consumer == Ref(m);
      MultisetMember(sorted, candidates, m);
    }
  }
}
