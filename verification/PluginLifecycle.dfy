/** Plugin lifecycle records, activation epochs and execution leases. */
module PluginLifecycle {
  import opened Wrappers
  import opened PluginRegistry

  datatype Phase = Discovered | Validated | Loaded | Registered | Active | Draining | Unregistered | Unloaded

  datatype Hook = OnLoad | OnActivate | OnDrain | OnUnload

  datatype Record = Record(manifest: nat, phase: Phase, version: nat, receipt: Option<PluginRegistry.Receipt>, epoch: nat, hooks: set<Hook>)

  /** The lease digest is injective in what it covers; the manifest fixes the plugin's version. */
  datatype LeaseId = LeaseId(plugin: PluginId, epoch: nat, key: CapKey, run: nat, invocation: nat)

  datatype Lease = Lease(id: LeaseId, acquiredAt: int)

  /** One plugin's share of the controller: its record, its leases by invocation, and every lease
      identity it has taken back. */
  datatype Book = Book(record: Record, leases: map<nat, Lease>, released: set<LeaseId>)

  predicate Quiet(leases: map<nat, Lease>) { leases == map[] }

  datatype Error = NotKnown | OtherManifest | StaleRecord | WrongPhase | MissingInvocation | LeaseConflict | Closing | NotActive

  datatype Answer<+T> = Granted(value: T) | Denied(error: Error)

  predicate MayMove(from: Phase, to: Phase)
  {
    match from
    case Discovered => to.Validated?
    case Validated => to.Loaded?
    case Loaded => to.Registered?
    case Registered => to.Active? || to.Unregistered?
    case Active => to.Draining?
    case Draining => to.Active? || to.Unregistered?
    case Unregistered => to.Unloaded?
    case Unloaded => false
  }

  function Move(r: Record, target: Phase, expected: Option<nat>, receipt: Option<PluginRegistry.Receipt>, clear: bool): Answer<Record>
  {
    if expected.Some? && r.version != expected.value then Denied(StaleRecord)
    else if r.phase == target then Granted(r)
    else if !MayMove(r.phase, target) then Denied(WrongPhase)
    else Granted(r.(phase := target, version := r.version + 1,
                    receipt := if clear then None else if receipt.Some? then receipt else r.receipt,
                    epoch := if target.Active? then r.epoch + 1 else r.epoch))
  }

  function Mark(r: Record, hook: Hook): Record
  {
    if hook in r.hooks then r else r.(version := r.version + 1, hooks := r.hooks + {hook})
  }

  datatype Taken = Taken(book: Book, lease: Lease)

  function Take(b: Book, p: PluginId, key: CapKey, run: nat, invocation: Option<nat>, now: int): Answer<Taken>
  {
    if invocation.None? then Denied(MissingInvocation)
    else
      var i := invocation.value;
      if i in b.leases then
        if b.leases[i].id.key == key && b.leases[i].id.run == run then Granted(Taken(b, b.leases[i])) else Denied(LeaseConflict)
      else if b.record.phase.Draining? then Denied(Closing)
      else if !b.record.phase.Active? then Denied(NotActive)
      else
        var id := LeaseId(p, b.record.epoch, key, run, i);
        if id in b.released then Denied(LeaseConflict)
        else Granted(Taken(b.(leases := b.leases[i := Lease(id, now)]), Lease(id, now)))
  }

  function Drop(b: Book, lease: Lease): Answer<Book>
  {
    var i := lease.id.invocation;
    if lease.id in b.released then Granted(b)
    else if i !in b.leases || b.leases[i] != lease then Denied(LeaseConflict)
    else Granted(Book(b.record, b.leases - {i}, b.released + {lease.id}))
  }

  /** What the controller keeps of each plugin: leases are filed under their own invocation, belong
      to this plugin and to an epoch that has been active, and are not among the released ones. */
  ghost predicate Filed(b: Book, p: PluginId)
  {
    && (forall i :: i in b.leases ==>
         && b.leases[i].id.invocation == i && b.leases[i].id.plugin == p && b.leases[i].id.epoch <= b.record.epoch
         && b.leases[i].id !in b.released)
    && (forall id :: id in b.released ==> id.epoch <= b.record.epoch)
  }

  class PluginLifecycleController {
    var records: map<PluginId, Record>
    var leases: map<PluginId, map<nat, Lease>>
    var released: map<PluginId, set<LeaseId>>

    ghost predicate Valid()
      reads this
    {
      && records.Keys == leases.Keys == released.Keys
      && forall p :: p in records ==> Filed(BookOf(p), p)
    }

    function BookOf(p: PluginId): Book
      requires p in records && p in leases && p in released
      reads this
    {
      Book(records[p], leases[p], released[p])
    }

    /** Nothing about other plugins changed. */
    twostate predicate OnlyTouches(p: PluginId)
      requires old(Valid()) && Valid()
      reads this
    {
      && records.Keys == old(records.Keys)
      && forall q :: q in records && q != p ==> BookOf(q) == old(BookOf(q))
    }

    constructor ()
      ensures Valid() && records == map[]
    {
      records, leases, released := map[], map[], map[];
    }

    method Discover(p: PluginId, manifest: nat) returns (result: Answer<Record>)
      requires Valid()
      modifies this
      ensures Valid()
      ensures p in old(records) ==>
        && records == old(records) && leases == old(leases) && released == old(released)
        && result == if old(records)[p].manifest == manifest then Granted(old(records)[p]) else Denied(OtherManifest)
      ensures p !in old(records) ==>
        && records.Keys == old(records.Keys) + {p} && BookOf(p) == Book(Record(manifest, Discovered, 0, None, 0, {}), map[], {})
        && result == Granted(records[p])
        && forall q :: q in old(records) ==> BookOf(q) == old(BookOf(q))
    {
      if p in records {
        if records[p].manifest == manifest { return Granted(records[p]); }
        return Denied(OtherManifest);
      }
      var record := Record(manifest, Discovered, 0, None, 0, {});
      ghost var before := records;
      records := records[p := record];
      leases := leases[p := map[]];
      released := released[p := {}];
      assert forall q :: q in before ==> Filed(old(BookOf(q)), q);
      result := Granted(record);
    }

    method Transition(p: PluginId, target: Phase, expected: Option<nat>, receipt: Option<PluginRegistry.Receipt>, clear: bool)
      returns (result: Answer<Record>)
      requires Valid()
      modifies this`records
      ensures Valid() && OnlyTouches(p)
      ensures result == if p in old(records) then Move(old(records)[p], target, expected, receipt, clear) else Denied(NotKnown)
      ensures p in records ==> BookOf(p) == old(BookOf(p)).(record := if result.Granted? then result.value else old(records)[p])
    {
      if p !in records { return Denied(NotKnown); }
      result := Move(records[p], target, expected, receipt, clear);
      if result.Granted? {
        MoveKeepsFiled(BookOf(p), p, target, expected, receipt, clear);
        SetRecord(p, result.value);
      }
    }

    method MarkHook(p: PluginId, hook: Hook) returns (result: Answer<Record>)
      requires Valid()
      modifies this`records
      ensures Valid() && OnlyTouches(p)
      ensures result == if p in old(records) then Granted(Mark(old(records)[p], hook)) else Denied(NotKnown)
      ensures p in records ==> BookOf(p) == old(BookOf(p)).(record := Mark(old(records)[p], hook))
    {
      if p !in records { return Denied(NotKnown); }
      MarkKeepsFiled(BookOf(p), p, hook);
      SetRecord(p, Mark(records[p], hook));
      result := Granted(records[p]);
    }

    method SetRecord(p: PluginId, record: Record)
      requires Valid() && p in records && Filed(Book(record, leases[p], released[p]), p)
      modifies this`records
      ensures Valid() && OnlyTouches(p) && BookOf(p) == old(BookOf(p)).(record := record)
    {
      hide Filed;
      records := records[p := record];
      forall q | q in records && q != p ensures BookOf(q) == old(BookOf(q)) && Filed(BookOf(q), q) {
        assert q in old(records) && Filed(old(BookOf(q)), q);
      }
      assert BookOf(p) == Book(record, leases[p], released[p]);
    }

    method Acquire(p: PluginId, key: CapKey, run: nat, invocation: Option<nat>, now: int) returns (result: Answer<Lease>)
      requires Valid()
      modifies this`leases, this`released
      ensures Valid() && OnlyTouches(p)
      ensures p !in records ==> result == Denied(if invocation.None? then MissingInvocation else NotKnown)
      ensures p in records ==>
        match Take(old(BookOf(p)), p, key, run, invocation, now)
        case Granted(taken) => BookOf(p) == taken.book && result == Granted(taken.lease)
        case Denied(e) => BookOf(p) == old(BookOf(p)) && result == Denied(e)
    {
      if invocation.None? { return Denied(MissingInvocation); }
      hide Take, Filed;
      if p !in records { return Denied(NotKnown); }
      TakeCases(BookOf(p), p, key, run, invocation.value, now);
      var i := invocation.value;
      if i in leases[p] {
        if leases[p][i].id.key == key && leases[p][i].id.run == run { return Granted(leases[p][i]); }
        return Denied(LeaseConflict);
      }
      if records[p].phase.Draining? { return Denied(Closing); }
      if !records[p].phase.Active? { return Denied(NotActive); }
      var id := LeaseId(p, records[p].epoch, key, run, i);
      if id in released[p] { return Denied(LeaseConflict); }
      TakeKeepsFiled(BookOf(p), p, key, run, invocation, now);
      File(p, leases[p][i := Lease(id, now)], released[p]);
      result := Granted(Lease(id, now));
    }

    /** Replace one plugin's leases and released identities. */
    method File(p: PluginId, held: map<nat, Lease>, gone: set<LeaseId>)
      requires Valid() && p in records && Filed(Book(records[p], held, gone), p)
      modifies this`leases, this`released
      ensures Valid() && OnlyTouches(p) && BookOf(p) == Book(records[p], held, gone)
    {
      hide Filed;
      leases := leases[p := held];
      released := released[p := gone];
      forall q | q in records && q != p ensures BookOf(q) == old(BookOf(q)) && Filed(BookOf(q), q) {
        assert q in old(records) && Filed(old(BookOf(q)), q);
      }
      assert BookOf(p) == Book(records[p], held, gone);
    }

    method Release(lease: Lease) returns (result: Answer<bool>)
      requires Valid()
      modifies this`leases, this`released
      ensures Valid() && OnlyTouches(lease.id.plugin)
      ensures lease.id.plugin !in records ==> result == Denied(NotKnown)
      ensures lease.id.plugin in records ==>
        match Drop(old(BookOf(lease.id.plugin)), lease)
        case Granted(book) => BookOf(lease.id.plugin) == book && result == Granted(true)
        case Denied(e) => BookOf(lease.id.plugin) == old(BookOf(lease.id.plugin)) && result == Denied(e)
    {
      hide Drop, Filed;
      var p := lease.id.plugin;
      if p !in records { return Denied(NotKnown); }
      DropCases(BookOf(p), lease);
      var i := lease.id.invocation;
      if lease.id in released[p] { return Granted(true); }
      if i !in leases[p] || leases[p][i] != lease { return Denied(LeaseConflict); }
      DropKeepsFiled(BookOf(p), p, lease);
      File(p, leases[p] - {i}, released[p] + {lease.id});
      result := Granted(true);
    }

    method ActiveLeaseCount(p: PluginId) returns (result: Answer<nat>)
      requires Valid()
      ensures result == if p in records then Granted(|leases[p]|) else Denied(NotKnown)
    {
      if p !in records { return Denied(NotKnown); }
      result := Granted(|leases[p]|);
    }
  }

  lemma MoveKeepsFiled(b: Book, p: PluginId, target: Phase, expected: Option<nat>, receipt: Option<PluginRegistry.Receipt>, clear: bool)
    requires Filed(b, p) && Move(b.record, target, expected, receipt, clear).Granted?
    ensures Filed(b.(record := Move(b.record, target, expected, receipt, clear).value), p)
  {
  }

  lemma MarkKeepsFiled(b: Book, p: PluginId, hook: Hook)
    requires Filed(b, p)
    ensures Filed(b.(record := Mark(b.record, hook)), p)
  {
  }

  lemma TakeCases(b: Book, p: PluginId, key: CapKey, run: nat, i: nat, now: int)
    ensures i in b.leases && b.leases[i].id.key == key && b.leases[i].id.run == run ==>
      Take(b, p, key, run, Some(i), now) == Granted(Taken(b, b.leases[i]))
    ensures i in b.leases && !(b.leases[i].id.key == key && b.leases[i].id.run == run) ==>
      Take(b, p, key, run, Some(i), now) == Denied(LeaseConflict)
    ensures i !in b.leases && b.record.phase.Draining? ==> Take(b, p, key, run, Some(i), now) == Denied(Closing)
    ensures i !in b.leases && !b.record.phase.Draining? && !b.record.phase.Active? ==>
      Take(b, p, key, run, Some(i), now) == Denied(NotActive)
    ensures i !in b.leases && b.record.phase.Active? ==>
      var id := LeaseId(p, b.record.epoch, key, run, i);
      Take(b, p, key, run, Some(i), now) ==
        if id in b.released then Denied(LeaseConflict)
        else Granted(Taken(Book(b.record, b.leases[i := Lease(id, now)], b.released), Lease(id, now)))
  {
  }

  lemma DropCases(b: Book, lease: Lease)
    ensures lease.id in b.released ==> Drop(b, lease) == Granted(b)
    ensures var i := lease.id.invocation;
            lease.id !in b.released ==>
              Drop(b, lease) == if i in b.leases && b.leases[i] == lease
                                then Granted(Book(b.record, b.leases - {i}, b.released + {lease.id})) else Denied(LeaseConflict)
  {
  }

  lemma TakeKeepsFiled(b: Book, p: PluginId, key: CapKey, run: nat, invocation: Option<nat>, now: int)
    requires Filed(b, p) && Take(b, p, key, run, invocation, now).Granted?
    ensures Filed(Take(b, p, key, run, invocation, now).value.book, p)
  {
  }

  lemma DropKeepsFiled(b: Book, p: PluginId, lease: Lease)
    requires Filed(b, p) && Drop(b, lease).Granted? && lease.id.plugin == p
    ensures Filed(Drop(b, lease).value, p)
  {
    if lease.id !in b.released {
      var after := Drop(b, lease).value;
      forall i | i in after.leases ensures after.leases[i].id !in after.released {
        assert after.leases[i].id.invocation == i;
      }
    }
  }

  // ---------------------------------------------------------------- histories of one plugin

  datatype Call =
    | CallMove(target: Phase, expected: Option<nat>, receipt: Option<PluginRegistry.Receipt>, clear: bool)
    | CallMark(hook: Hook)
    | CallTake(key: CapKey, run: nat, invocation: Option<nat>, now: int)
    | CallDrop(lease: Lease)

  function After(b: Book, p: PluginId, call: Call): Book
  {
    match call
    case CallMove(target, expected, receipt, clear) =>
      (match Move(b.record, target, expected, receipt, clear) case Granted(r) => b.(record := r) case Denied(_) => b)
    case CallMark(hook) => b.(record := Mark(b.record, hook))
    case CallTake(key, run, invocation, now) =>
      (match Take(b, p, key, run, invocation, now) case Granted(taken) => taken.book case Denied(_) => b)
    case CallDrop(lease) =>
      if lease.id.plugin != p then b else (match Drop(b, lease) case Granted(book) => book case Denied(_) => b)
  }

  function Execute(b: Book, p: PluginId, calls: seq<Call>): Book
    decreases |calls|
  {
    if calls == [] then b else Execute(After(b, p, calls[0]), p, calls[1..])
  }

  lemma {:induction false} ExecuteKeepsFiled(b: Book, p: PluginId, calls: seq<Call>)
    requires Filed(b, p)
    ensures Filed(Execute(b, p, calls), p) && b.released <= Execute(b, p, calls).released
    decreases |calls|
  {
    if calls != [] {
      var call := calls[0];
      if call.CallTake? && Take(b, p, call.key, call.run, call.invocation, call.now).Granted? {
        TakeKeepsFiled(b, p, call.key, call.run, call.invocation, call.now);
      }
      if call.CallDrop? && call.lease.id.plugin == p && Drop(b, call.lease).Granted? { DropKeepsFiled(b, p, call.lease); }
      ExecuteKeepsFiled(After(b, p, call), p, calls[1..]);
    }
  }

  /** A lease identity that has been released is never granted again, whatever happens in between. */
  lemma NeverGrantedAgain(b: Book, p: PluginId, lease: Lease, calls: seq<Call>, key: CapKey, run: nat, invocation: Option<nat>, now: int)
    requires Filed(b, p) && lease.id.plugin == p && Drop(b, lease).Granted?
    ensures var later := Execute(Drop(b, lease).value, p, calls);
            var taken := Take(later, p, key, run, invocation, now);
            && lease.id in later.released
            && (taken.Granted? ==> taken.value.lease.id != lease.id)
  {
    DropKeepsFiled(b, p, lease);
    ExecuteKeepsFiled(Drop(b, lease).value, p, calls);
  }

  /** A record version names one record: over any history it only grows, and the same version means
      the same record. Epochs never fall. */
  lemma {:induction false} VersionNamesRecord(b: Book, p: PluginId, calls: seq<Call>)
    ensures var later := Execute(b, p, calls).record;
            && later.version >= b.record.version && later.epoch >= b.record.epoch && later.manifest == b.record.manifest
            && (later.version == b.record.version ==> later == b.record)
    decreases |calls|
  {
    if calls != [] { VersionNamesRecord(After(b, p, calls[0]), p, calls[1..]); }
  }

  predicate Gone(r: Record) { r.phase.Unregistered? || r.phase.Unloaded? }

  /** Unregistering is final: no history brings the plugin back, and no new lease is ever granted. */
  lemma {:induction false} UnregisteredIsFinal(b: Book, p: PluginId, calls: seq<Call>, key: CapKey, run: nat, i: nat, now: int)
    requires Gone(b.record)
    ensures var later := Execute(b, p, calls);
            && Gone(later.record) && (b.record.phase.Unloaded? ==> later.record.phase.Unloaded?)
            && later.leases.Keys <= b.leases.Keys
            && (i !in later.leases ==> Take(later, p, key, run, Some(i), now) == Denied(NotActive))
    decreases |calls|
  {
    if calls != [] { UnregisteredIsFinal(After(b, p, calls[0]), p, calls[1..], key, run, i, now); }
  }

  /** Exactly when a lease is handed out: to a retry of the same call that is still in flight, or
      to a new call of an ACTIVE plugin whose identity was not released in this epoch. */
  lemma GrantedExactly(b: Book, p: PluginId, key: CapKey, run: nat, invocation: nat, now: int)
    requires Filed(b, p)
    ensures Take(b, p, key, run, Some(invocation), now).Granted? <==>
      if invocation in b.leases then
        exists e, at :: b.leases[invocation] == Lease(LeaseId(p, e, key, run, invocation), at)
      else b.record.phase.Active? && LeaseId(p, b.record.epoch, key, run, invocation) !in b.released
  {
    if invocation in b.leases {
      var held := b.leases[invocation];
      if held.id.key == key && held.id.run == run {
        assert held == Lease(LeaseId(p, held.id.epoch, key, run, invocation), held.acquiredAt);
      }
    }
  }

  /** Epochs keep activations apart: after a release, the same call is refused for the rest of the
      epoch, and granted a fresh identity once the plugin is activated again. */
  lemma ReactivationGrantsAgain(b: Book, p: PluginId, lease: Lease, now: int)
    requires Filed(b, p) && lease.id.plugin == p && lease.id !in b.released && Drop(b, lease).Granted?
    requires b.record.phase.Draining? && lease.id.epoch == b.record.epoch
    ensures var dropped := Drop(b, lease).value;
            var i := lease.id.invocation;
            var still := dropped.(record := b.record.(phase := Active));
            var again := Move(dropped.record, Active, None, None, false);
            && Take(still, p, lease.id.key, lease.id.run, Some(i), now) == Denied(LeaseConflict)
            && again.Granted?
            && var taken := Take(dropped.(record := again.value), p, lease.id.key, lease.id.run, Some(i), now);
               taken.Granted? && taken.value.lease.id == lease.id.(epoch := b.record.epoch + 1)
  {
    DropKeepsFiled(b, p, lease);
  }

  /** Two calls with the same key, Run and capability share one lease, and the first release
      drops it for both. */
  lemma SharedKeySharesLease(b: Book, p: PluginId, key: CapKey, run: nat, invocation: nat, now: int, later: int)
    requires Filed(b, p) && invocation !in b.leases && Take(b, p, key, run, Some(invocation), now).Granted?
    ensures var first := Take(b, p, key, run, Some(invocation), now).value;
            var second := Take(first.book, p, key, run, Some(invocation), later);
            && second == Granted(first)
            && Drop(first.book, first.lease).Granted?
            && Drop(first.book, first.lease).value.leases == b.leases
  {
    var first := Take(b, p, key, run, Some(invocation), now).value;
    assert first.book.leases - {invocation} == b.leases;
  }
}
