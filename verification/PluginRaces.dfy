/** Two calls with one identity: a run of the plugin system that ends with an operation still at work
    after its plugin was unloaded. */
module PluginRaces {
  import opened Wrappers
  import opened Order
  import opened PluginRegistry
  import opened PluginLifecycle
  import opened PluginSystem
  import opened PluginSafety

  const CAP := Capability(0, 0)
  const ID := RegId(0, [0], 1)
  const REG := Registration(ID, 0, CAP)
  const RC := PluginRegistry.Receipt(ID, 0, 1, [0])

  const SERVING := Ledger(Registry(1, map[0 := REG], {}), {RC}, {RC}, 1)
  const WITHDRAWN := Ledger(Registry(2, map[], {ID}), {}, {RC}, 2)

  const IDLE: map<nat, Invocation> := map[0 := Over, 1 := Over]
  const LEASE := Lease(LeaseId(0, 1, 0, 0, 0), 0)
  const LOOKED := Looked(0, 0, REG, 0, 0)
  const HOLDING := Holding(LEASE, REG)

  function RecordAt(phase: Phase, version: nat, receipt: Option<PluginRegistry.Receipt>, epoch: nat): Record
  {
    Record(0, phase, version, receipt, epoch, {})
  }

  /** The system with one plugin, before it has published anything. */
  function Young(record: Record, prepared: map<PluginId, seq<Capability>>, ops: map<PluginId, Operation>): State
  {
    State(EMPTY, map[0 := Book(record, map[], {})], prepared, map[], ops, IDLE)
  }

  /** The system with one plugin, after it has published. */
  function Grown(ledger: Ledger, book: Book, ops: map<PluginId, Operation>, calls: map<nat, Invocation>): State
  {
    State(ledger, map[0 := book], map[0 := [CAP]], map[0 := map[0 := REG]], ops, calls)
  }

  const REGISTERED := RecordAt(Registered, 3, Some(RC), 0)
  const ACTIVE := RecordAt(Active, 4, Some(RC), 1)
  const DRAINING := RecordAt(Draining, 5, Some(RC), 1)
  const UNREGISTERED := RecordAt(Unregistered, 6, None, 1)
  const UNLOADED := RecordAt(Unloaded, 7, None, 1)

  // ---------------------------------------------------------------- pieces of a run

  ghost predicate Steps(states: seq<State>, actions: seq<Action>)
  {
    |states| == |actions| + 1 && forall i :: 0 <= i < |actions| ==> Does(states[i], states[i + 1], actions[i])
  }

  lemma Joined(a: seq<State>, x: seq<Action>, b: seq<State>, y: seq<Action>)
    requires Steps(a, x) && Steps(b, y) && a[|x|] == b[0]
    ensures Steps(a + b[1..], x + y)
    ensures (a + b[1..])[0] == a[0] && (a + b[1..])[|x| + |y|] == b[|y|]
  {
    hide Does;
    var states, actions := a + b[1..], x + y;
    forall i | 0 <= i < |actions| ensures Does(states[i], states[i + 1], actions[i]) {
      if i < |x| {
        assert states[i] == a[i] && states[i + 1] == a[i + 1] && actions[i] == x[i];
      } else {
        assert states[i] == b[i - |x|] && states[i + 1] == b[i + 1 - |x|] && actions[i] == y[i - |x|];
      }
    }
  }

  // ---------------------------------------------------------------- load and activate

  function Loads(): seq<State>
  {
    var d, v := RecordAt(Discovered, 0, None, 0), RecordAt(Validated, 1, None, 0);
    [ State(EMPTY, map[], map[], map[], map[], IDLE),
      Young(d, map[], map[0 := Operation(d, Loading)]),
      Young(v, map[], map[0 := Operation(v, Loading)]),
      Young(RecordAt(Loaded, 2, None, 0), map[0 := [CAP]], map[]) ]
  }

  const LOADING := [ALoadBegin(0, 0), ALoadValidate(0), ALoadFinish(0, [CAP], false)]

  lemma LoadsStep()
    ensures Steps(Loads(), LOADING)
  {
    assert Does(Loads()[0], Loads()[1], LOADING[0]);
    assert Does(Loads()[1], Loads()[2], LOADING[1]);
    assert KeysOf([CAP]) == [0];
    assert Does(Loads()[2], Loads()[3], LOADING[2]);
  }

  function Publishes(): seq<State>
  {
    var l := RecordAt(Loaded, 2, None, 0);
    [ Young(l, map[0 := [CAP]], map[]),
      Young(l, map[0 := [CAP]], map[0 := Operation(l, Activating)]),
      Grown(SERVING, Book(l, map[], {}), map[0 := Operation(l, Published(RC))], IDLE),
      Grown(SERVING, Book(REGISTERED, map[], {}), map[0 := Operation(REGISTERED, Activating)], IDLE) ]
  }

  const PUBLISHING := [AActivateBegin(0), AActivatePublish(0), AActivateRegister(0)]

  lemma Commits()
    ensures Commit(EMPTY.reg, 0, [CAP], 0) == Committed(SERVING.reg, RC)
    ensures PluginRegistry.After(EMPTY, CallCommit(0, [CAP], 0)) == SERVING
    ensures ShelfOf(RC, SERVING.reg.table) == map[0 := REG]
  {
    assert KeysOf([CAP]) == [0];
    assert SortBy(IntLess, [0]) == [0];
    assert Publish(map[], ID, 0, [CAP]) == map[0 := REG];
  }

  lemma PublishesStep()
    ensures Steps(Publishes(), PUBLISHING)
  {
    assert Does(Publishes()[0], Publishes()[1], PUBLISHING[0]);
    Commits();
    hide Commit, PluginRegistry.After, ShelfOf;
    assert Does(Publishes()[1], Publishes()[2], PUBLISHING[1]);
    assert Does(Publishes()[2], Publishes()[3], PUBLISHING[2]);
  }

  function Activates(): seq<State>
  {
    var b := Book(REGISTERED, map[], {});
    [ Grown(SERVING, b, map[0 := Operation(REGISTERED, Activating)], IDLE),
      Grown(SERVING, b, map[0 := Operation(REGISTERED, Primed)], IDLE),
      Grown(SERVING, Book(ACTIVE, map[], {}), map[], IDLE) ]
  }

  const ACTIVATING := [AActivateHook(0, false), AActivateFinish(0)]

  lemma ActivatesStep()
    ensures Steps(Activates(), ACTIVATING)
  {
    assert Does(Activates()[0], Activates()[1], ACTIVATING[0]);
    assert Does(Activates()[1], Activates()[2], ACTIVATING[1]);
  }

  // ---------------------------------------------------------------- two calls, one release

  const HELD := Book(ACTIVE, map[0 := LEASE], {})
  const FREED := Book(ACTIVE, map[], {LEASE.id})

  function Looks(): seq<State>
  {
    var b := Book(ACTIVE, map[], {});
    [ Grown(SERVING, b, map[], IDLE),
      Grown(SERVING, b, map[], map[0 := LOOKED, 1 := Over]),
      Grown(SERVING, b, map[], map[0 := LOOKED, 1 := LOOKED]) ]
  }

  const LOOKING := [ALook(0, 0, 0, 0, 0), ALook(1, 0, 0, 0, 0)]

  lemma LooksStep()
    ensures Steps(Looks(), LOOKING)
  {
    assert Does(Looks()[0], Looks()[1], LOOKING[0]);
    assert Does(Looks()[1], Looks()[2], LOOKING[1]);
  }

  function Enters(): seq<State>
  {
    [ Grown(SERVING, Book(ACTIVE, map[], {}), map[], map[0 := LOOKED, 1 := LOOKED]),
      Grown(SERVING, HELD, map[], map[0 := HOLDING, 1 := LOOKED]),
      Grown(SERVING, HELD, map[], map[0 := HOLDING, 1 := HOLDING]) ]
  }

  const ENTERING := [AEnter(0, 0), AEnter(1, 0)]

  lemma EntersStep()
    ensures Steps(Enters(), ENTERING)
  {
    assert Does(Enters()[0], Enters()[1], ENTERING[0]);
    assert Does(Enters()[1], Enters()[2], ENTERING[1]);
  }

  function Leaves(): seq<State>
  {
    [ Grown(SERVING, HELD, map[], map[0 := HOLDING, 1 := HOLDING]),
      Grown(SERVING, FREED, map[], map[0 := Over, 1 := HOLDING]) ]
  }

  const LEAVING := [ALeave(0)]

  lemma LeavesStep()
    ensures Steps(Leaves(), LEAVING)
  {
    assert HELD.leases - {LEASE.id.invocation} == map[];
    assert HELD.released + {LEASE.id} == {LEASE.id};
    assert Drop(HELD, LEASE) == Granted(FREED);
    assert map[0 := HELD][0 := FREED] == map[0 := FREED];
    hide Drop;
    assert Does(Leaves()[0], Leaves()[1], LEAVING[0]);
  }

  // ---------------------------------------------------------------- unload

  const LAST: map<nat, Invocation> := map[0 := Over, 1 := HOLDING]

  function Idles(record: Record): Book { Book(record, map[], {LEASE.id}) }

  function Drains(): seq<State>
  {
    [ Grown(SERVING, FREED, map[], LAST),
      Grown(SERVING, Idles(DRAINING), map[0 := Operation(DRAINING, Quiescing(true))], LAST),
      Grown(SERVING, Idles(DRAINING), map[0 := Operation(DRAINING, Waiting(true))], LAST),
      Grown(SERVING, Idles(DRAINING), map[0 := Operation(DRAINING, Withdrawing)], LAST) ]
  }

  const DRAINS := [ADrainBegin(0, true), ADrainHook(0, false), AWaitedForZero(0)]

  lemma Begins()
    ensures Does(Drains()[0], Drains()[1], DRAINS[0])
  {
  }

  lemma DrainsStep()
    ensures Steps(Drains(), DRAINS)
  {
    Begins();
    assert Does(Drains()[1], Drains()[2], DRAINS[1]);
    assert Does(Drains()[2], Drains()[3], DRAINS[2]);
  }

  function Withdraws(): seq<State>
  {
    [ Grown(SERVING, Idles(DRAINING), map[0 := Operation(DRAINING, Withdrawing)], LAST),
      Grown(WITHDRAWN, Idles(DRAINING), map[0 := Operation(DRAINING, PluginSystem.Withdrawn)], LAST) ]
  }

  const WITHDRAWS := [AUnloadWithdraw(0)]

  lemma Unregisters()
    ensures Unregister(SERVING.reg, RC) == Withdrew(WITHDRAWN.reg)
    ensures PluginRegistry.After(SERVING, CallUnregister(RC)) == WITHDRAWN
  {
    assert SERVING.reg.table - Elements(RC.keys) == map[];
    assert SERVING.live - {RC} == {};
  }

  lemma WithdrawsStep()
    ensures Steps(Withdraws(), WITHDRAWS)
  {
    Unregisters();
    hide Unregister, PluginRegistry.After;
    assert Does(Withdraws()[0], Withdraws()[1], WITHDRAWS[0]);
  }

  function Unloads(): seq<State>
  {
    [ Grown(WITHDRAWN, Idles(DRAINING), map[0 := Operation(DRAINING, PluginSystem.Withdrawn)], LAST),
      Grown(WITHDRAWN, Idles(UNREGISTERED), map[0 := Operation(UNREGISTERED, Unloading)], LAST),
      Grown(WITHDRAWN, Idles(UNLOADED), map[], LAST).(prepared := map[]) ]
  }

  const UNLOADS := [AUnloadMark(0), AUnloadFinish(0)]

  lemma Marks()
    ensures Does(Unloads()[0], Unloads()[1], UNLOADS[0])
  {
  }

  lemma Finishes()
    ensures Does(Unloads()[1], Unloads()[2], UNLOADS[1])
  {
  }

  lemma UnloadsStep()
    ensures Steps(Unloads(), UNLOADS)
  {
    Marks();
    Finishes();
    hide Does;
  }

  // ---------------------------------------------------------------- the whole run

  /** The first half: the plugin is up, and both calls have looked it up. */
  function Rising(): seq<State> { Loads() + Publishes()[1..] + Activates()[1..] + Looks()[1..] }

  function RisingActions(): seq<Action> { LOADING + PUBLISHING + ACTIVATING + LOOKING }

  lemma RisingSteps()
    ensures Steps(Rising(), RisingActions()) && |RisingActions()| == 10
    ensures Rising()[0] == Loads()[0] && Rising()[10] == Looks()[2]
  {
    LoadsStep(); PublishesStep(); ActivatesStep(); LooksStep();
    hide Does, Steps;
    var a, x := Loads(), LOADING;
    Joined(a, x, Publishes(), PUBLISHING);
    a, x := a + Publishes()[1..], x + PUBLISHING;
    Joined(a, x, Activates(), ACTIVATING);
    a, x := a + Activates()[1..], x + ACTIVATING;
    Joined(a, x, Looks(), LOOKING);
  }

  function Falling(): seq<State> { Enters() + Leaves()[1..] + Drains()[1..] + Withdraws()[1..] + Unloads()[1..] }

  function FallingActions(): seq<Action> { ENTERING + LEAVING + DRAINS + WITHDRAWS + UNLOADS }

  lemma FallingSteps()
    ensures Steps(Falling(), FallingActions()) && |FallingActions()| == 9
    ensures Falling()[0] == Enters()[0] && Falling()[9] == Unloads()[2]
  {
    EntersStep(); LeavesStep(); DrainsStep(); WithdrawsStep(); UnloadsStep();
    hide Does, Steps;
    var a, x := Enters(), ENTERING;
    Joined(a, x, Leaves(), LEAVING);
    a, x := a + Leaves()[1..], x + LEAVING;
    Joined(a, x, Drains(), DRAINS);
    a, x := a + Drains()[1..], x + DRAINS;
    Joined(a, x, Withdraws(), WITHDRAWS);
    a, x := a + Withdraws()[1..], x + WITHDRAWS;
    Joined(a, x, Unloads(), UNLOADS);
  }

  function TwinRun(): seq<State> { Rising() + Falling()[1..] }

  function TwinActions(): seq<Action> { RisingActions() + FallingActions() }

  lemma TwinRunSteps()
    ensures Steps(TwinRun(), TwinActions()) && |TwinActions()| == 19
    ensures TwinRun()[0] == Loads()[0] && TwinRun()[19] == Unloads()[2]
  {
    RisingSteps(); FallingSteps();
    hide Does, Steps, Rising, Falling, RisingActions, FallingActions;
    Joined(Rising(), RisingActions(), Falling(), FallingActions());
  }

  /** One of two calls with the same identity releases the lease they share; the plugin drains,
      unloads and withdraws its registration while the other call is still at work. */
  lemma UseAfterUnload()
    ensures IsRun(TwinRun(), TwinActions())
    ensures var s := TwinRun()[19];
            && s.calls[1] == HOLDING && s.books[0].record.phase.Unloaded?
            && HOLDING.lease.id.key !in s.ledger.reg.table && !InForce(s, HOLDING.lease, HOLDING.reg)
    ensures !LoneLeaves(TwinRun(), TwinActions(), 19)
  {
    TwinRunSteps();
    hide Does;
    var s := TwinRun()[19];
    assert !InForce(s, HOLDING.lease, HOLDING.reg);
    if LoneLeaves(TwinRun(), TwinActions(), 19) { NoUseAfterUnload(TwinRun(), TwinActions(), 19, 1); }
  }
}
