/** Plugin loading, activation, draining, unloading and capability calls, interleaved. Management
    operations hold a lock per plugin; calls do not. */
module PluginSystem {
  import opened Wrappers
  import opened Order
  import opened PluginRegistry
  import opened PluginLifecycle

  /** Where the operation that holds a plugin's lock stands between two awaits. */
  datatype Stage =
    | Loading
    | Activating | Published(receipt: PluginRegistry.Receipt) | Primed
    | Quiescing(unload: bool) | Waiting(unload: bool)
    | Withdrawing | Withdrawn | Unloading

  /** record is the lifecycle record the operation last read or wrote. */
  datatype Operation = Operation(record: Record, stage: Stage)

  /** A capability call: the registration is read before the lease is taken. */
  datatype Invocation =
    | Over
    | Looked(plugin: PluginId, key: CapKey, reg: Registration, run: nat, invocation: nat)
    | Holding(lease: Lease, reg: Registration)

  /** ops has an entry for a plugin exactly while its operation lock is held. shelf remembers what
      each plugin published. */
  datatype State = State(ledger: Ledger, books: map<PluginId, Book>, prepared: map<PluginId, seq<Capability>>,
                         shelf: map<PluginId, map<CapKey, Registration>>, ops: map<PluginId, Operation>,
                         calls: map<nat, Invocation>)

  ghost predicate Init(s: State)
  {
    && s.ledger == EMPTY
    && s.books == map[] && s.prepared == map[] && s.shelf == map[] && s.ops == map[]
    && forall c :: c in s.calls ==> s.calls[c].Over?
  }

  /** One plugin's book changes, and its operation continues or gives the lock back. */
  function Turn(s: State, p: PluginId, book: Book, op: Option<Operation>): State
  {
    s.(books := s.books[p := book], ops := if op.Some? then s.ops[p := op.value] else s.ops - {p})
  }

  predicate Unlocked(s: State, p: PluginId) { p in s.books && p !in s.ops }

  predicate In(s: State, p: PluginId, stage: Stage) { p in s.books && p in s.ops && s.ops[p].stage == stage }

  /** A transition at the version the operation holds. */
  function MoveTo(s: State, p: PluginId, target: Phase, receipt: Option<PluginRegistry.Receipt>, clear: bool): Answer<Record>
    requires p in s.books && p in s.ops
  {
    Move(s.books[p].record, target, Some(s.ops[p].record.version), receipt, clear)
  }

  // ---------------------------------------------------------------- load

  ghost predicate LoadBegin(s: State, t: State, p: PluginId, manifest: nat)
  {
    && p !in s.ops && p !in s.prepared
    && (p in s.books ==> s.books[p].record.manifest == manifest)
    && var book := if p in s.books then s.books[p] else Book(Record(manifest, Discovered, 0, None, 0, {}), map[], {});
       t == Turn(s, p, book, Some(Operation(book.record, Loading)))
  }

  ghost predicate LoadValidate(s: State, t: State, p: PluginId)
  {
    && In(s, p, Loading) && s.ops[p].record.phase.Discovered?
    && var moved := MoveTo(s, p, Validated, None, false);
       moved.Granted? && t == Turn(s, p, s.books[p].(record := moved.value), Some(Operation(moved.value, Loading)))
  }

  /** The loader answered and the hook ran. */
  ghost predicate LoadFinish(s: State, t: State, p: PluginId, caps: seq<Capability>, mark: bool)
  {
    && In(s, p, Loading) && s.ops[p].record.phase.Validated? && IsPlan(caps)
    && var marked := if mark then Mark(s.books[p].record, OnLoad) else s.books[p].record;
       var moved := Move(marked, Loaded, Some(marked.version), None, false);
       moved.Granted? && t == Turn(s, p, s.books[p].(record := moved.value), None).(prepared := s.prepared[p := caps])
  }

  // ---------------------------------------------------------------- activate

  ghost predicate ActivateBegin(s: State, t: State, p: PluginId)
  {
    && Unlocked(s, p) && p in s.prepared && !s.books[p].record.phase.Active?
    && t == Turn(s, p, s.books[p], Some(Operation(s.books[p].record, Activating)))
  }

  function ShelfOf(receipt: PluginRegistry.Receipt, table: map<CapKey, Registration>): map<CapKey, Registration>
  {
    map k | k in receipt.keys && k in table :: table[k]
  }

  /** Publication comes before the REGISTERED state. */
  ghost predicate ActivatePublish(s: State, t: State, p: PluginId)
  {
    && In(s, p, Activating) && s.ops[p].record.phase.Loaded? && p in s.prepared
    && var done := Commit(s.ledger.reg, p, s.prepared[p], s.ledger.reg.version);
       && done.Committed?
       && t == Turn(s, p, s.books[p], Some(s.ops[p].(stage := Published(done.receipt)))).(
                 ledger := PluginRegistry.After(s.ledger, CallCommit(p, s.prepared[p], s.ledger.reg.version)),
                 shelf := s.shelf[p := ShelfOf(done.receipt, done.registry.table)])
  }

  /** A refused transition rolls the publication back. */
  ghost predicate ActivateRegister(s: State, t: State, p: PluginId)
  {
    && p in s.books && p in s.ops && s.ops[p].stage.Published?
    && var receipt := s.ops[p].stage.receipt;
       var moved := MoveTo(s, p, Registered, Some(receipt), false);
       t == if moved.Granted? then Turn(s, p, s.books[p].(record := moved.value), Some(Operation(moved.value, Activating)))
            else Turn(s, p, s.books[p], None).(ledger := PluginRegistry.After(s.ledger, CallUnregister(receipt)))
  }

  ghost predicate ActivateHook(s: State, t: State, p: PluginId, mark: bool)
  {
    && In(s, p, Activating) && s.ops[p].record.phase.Registered?
    && var record := if mark then Mark(s.books[p].record, OnActivate) else s.books[p].record;
       t == Turn(s, p, s.books[p].(record := record), Some(Operation(record, Primed)))
  }

  ghost predicate ActivateFinish(s: State, t: State, p: PluginId)
  {
    && In(s, p, Primed)
    && var moved := MoveTo(s, p, Active, None, false);
       t == Turn(s, p, if moved.Granted? then s.books[p].(record := moved.value) else s.books[p], None)
  }

  // ---------------------------------------------------------------- drain, cancel, unload

  /** Close lease admission before running plugin code. */
  ghost predicate DrainBegin(s: State, t: State, p: PluginId, unload: bool)
  {
    && Unlocked(s, p) && p in s.prepared && (s.books[p].record.phase.Active? || s.books[p].record.phase.Draining?)
    && var moved := Move(s.books[p].record, Draining, Some(s.books[p].record.version), None, false);
       moved.Granted? && t == Turn(s, p, s.books[p].(record := moved.value), Some(Operation(moved.value, Quiescing(unload))))
  }

  ghost predicate DrainHook(s: State, t: State, p: PluginId, mark: bool)
  {
    && p in s.books && p in s.ops && s.ops[p].stage.Quiescing?
    && var record := if mark then Mark(s.books[p].record, OnDrain) else s.books[p].record;
       t == Turn(s, p, s.books[p].(record := record), Some(Operation(record, Waiting(s.ops[p].stage.unload))))
  }

  ghost predicate WaitedForZero(s: State, t: State, p: PluginId)
  {
    && p in s.books && p in s.ops && s.ops[p].stage.Waiting? && Quiet(s.books[p].leases)
    && t == Turn(s, p, s.books[p], if s.ops[p].stage.unload then Some(Operation(s.books[p].record, Withdrawing)) else None)
  }

  ghost predicate CancelDrain(s: State, t: State, p: PluginId)
  {
    && Unlocked(s, p) && s.books[p].record.phase.Draining? && s.books[p].record.receipt.Some?
    && var moved := Move(s.books[p].record, Active, Some(s.books[p].record.version), None, false);
       moved.Granted? && t == Turn(s, p, s.books[p].(record := moved.value), None)
  }

  /** unload of a plugin that is not serving: it was never activated, or a former unload failed late. */
  ghost predicate UnloadBegin(s: State, t: State, p: PluginId)
  {
    && Unlocked(s, p) && p in s.prepared && (s.books[p].record.phase.Registered? || s.books[p].record.phase.Unregistered?)
    && t == Turn(s, p, s.books[p], Some(Operation(s.books[p].record,
                                                  if s.books[p].record.phase.Registered? then Withdrawing else Unloading)))
  }

  ghost predicate UnloadWithdraw(s: State, t: State, p: PluginId)
  {
    && In(s, p, Withdrawing) && s.ops[p].record.receipt.Some?
    && var receipt := s.ops[p].record.receipt.value;
       && Unregister(s.ledger.reg, receipt).Withdrew?
       && t == Turn(s, p, s.books[p], Some(s.ops[p].(stage := Withdrawn))).(ledger := PluginRegistry.After(s.ledger, CallUnregister(receipt)))
  }

  ghost predicate UnloadMark(s: State, t: State, p: PluginId)
  {
    && In(s, p, Withdrawn)
    && var moved := MoveTo(s, p, Unregistered, None, true);
       t == if moved.Granted? then Turn(s, p, s.books[p].(record := moved.value), Some(Operation(moved.value, Unloading)))
            else Turn(s, p, s.books[p], None)
  }

  ghost predicate UnloadHook(s: State, t: State, p: PluginId)
  {
    && In(s, p, Unloading)
    && var record := Mark(s.books[p].record, OnUnload);
       t == Turn(s, p, s.books[p].(record := record), Some(Operation(record, Unloading)))
  }

  ghost predicate UnloadFinish(s: State, t: State, p: PluginId)
  {
    && In(s, p, Unloading)
    && var moved := MoveTo(s, p, Unloaded, None, false);
       t == if moved.Granted? then Turn(s, p, s.books[p].(record := moved.value), None).(prepared := s.prepared - {p})
            else Turn(s, p, s.books[p], None)
  }

  /** A hook, the loader or an announcement failed. Publication and its REGISTERED state, and
      withdrawal and its UNREGISTERED state, have nothing between them that could. */
  ghost predicate GiveUp(s: State, t: State, p: PluginId)
  {
    && p in s.books && p in s.ops && !s.ops[p].stage.Published? && !s.ops[p].stage.Withdrawn?
    && t == Turn(s, p, s.books[p], None)
  }

  // ---------------------------------------------------------------- calls

  ghost predicate Look(s: State, t: State, c: nat, p: PluginId, key: CapKey, run: nat, invocation: nat)
  {
    && c in s.calls && s.calls[c].Over? && key in s.ledger.reg.table && s.ledger.reg.table[key].owner == p
    && t == s.(calls := s.calls[c := Looked(p, key, s.ledger.reg.table[key], run, invocation)])
  }

  ghost predicate Enter(s: State, t: State, c: nat, now: int)
  {
    && c in s.calls && s.calls[c].Looked? && s.calls[c].plugin in s.books
    && var call := s.calls[c];
       var taken := Take(s.books[call.plugin], call.plugin, call.key, call.run, Some(call.invocation), now);
       t == if taken.Granted?
            then s.(books := s.books[call.plugin := taken.value.book], calls := s.calls[c := Holding(taken.value.lease, call.reg)])
            else s.(calls := s.calls[c := Over])
  }

  /** Denied by authorization, or cancelled before the lease. */
  ghost predicate Refused(s: State, t: State, c: nat)
  {
    c in s.calls && s.calls[c].Looked? && t == s.(calls := s.calls[c := Over])
  }

  /** Every way out of the operation releases the lease. */
  ghost predicate Leave(s: State, t: State, c: nat)
  {
    && c in s.calls && s.calls[c].Holding? && s.calls[c].lease.id.plugin in s.books
    && var lease := s.calls[c].lease;
       var dropped := Drop(s.books[lease.id.plugin], lease);
       t == s.(books := if dropped.Granted? then s.books[lease.id.plugin := dropped.value] else s.books,
               calls := s.calls[c := Over])
  }

  // ---------------------------------------------------------------- runs of the system

  datatype Action =
    | ALoadBegin(p: PluginId, manifest: nat) | ALoadValidate(p: PluginId) | ALoadFinish(p: PluginId, caps: seq<Capability>, mark: bool)
    | AActivateBegin(p: PluginId) | AActivatePublish(p: PluginId) | AActivateRegister(p: PluginId)
    | AActivateHook(p: PluginId, mark: bool) | AActivateFinish(p: PluginId)
    | ADrainBegin(p: PluginId, unload: bool) | ADrainHook(p: PluginId, mark: bool) | AWaitedForZero(p: PluginId) | ACancelDrain(p: PluginId)
    | AUnloadBegin(p: PluginId) | AUnloadWithdraw(p: PluginId) | AUnloadMark(p: PluginId) | AUnloadHook(p: PluginId) | AUnloadFinish(p: PluginId)
    | AGiveUp(p: PluginId)
    | ALook(c: nat, p: PluginId, key: CapKey, run: nat, invocation: nat) | AEnter(c: nat, now: int) | ARefused(c: nat) | ALeave(c: nat)

  ghost predicate Does(s: State, t: State, action: Action)
  {
    match action
    case ALoadBegin(p, manifest) => LoadBegin(s, t, p, manifest)
    case ALoadValidate(p) => LoadValidate(s, t, p)
    case ALoadFinish(p, caps, mark) => LoadFinish(s, t, p, caps, mark)
    case AActivateBegin(p) => ActivateBegin(s, t, p)
    case AActivatePublish(p) => ActivatePublish(s, t, p)
    case AActivateRegister(p) => ActivateRegister(s, t, p)
    case AActivateHook(p, mark) => ActivateHook(s, t, p, mark)
    case AActivateFinish(p) => ActivateFinish(s, t, p)
    case ADrainBegin(p, unload) => DrainBegin(s, t, p, unload)
    case ADrainHook(p, mark) => DrainHook(s, t, p, mark)
    case AWaitedForZero(p) => WaitedForZero(s, t, p)
    case ACancelDrain(p) => CancelDrain(s, t, p)
    case AUnloadBegin(p) => UnloadBegin(s, t, p)
    case AUnloadWithdraw(p) => UnloadWithdraw(s, t, p)
    case AUnloadMark(p) => UnloadMark(s, t, p)
    case AUnloadHook(p) => UnloadHook(s, t, p)
    case AUnloadFinish(p) => UnloadFinish(s, t, p)
    case AGiveUp(p) => GiveUp(s, t, p)
    case ALook(c, p, key, run, invocation) => Look(s, t, c, p, key, run, invocation)
    case AEnter(c, now) => Enter(s, t, c, now)
    case ARefused(c) => Refused(s, t, c)
    case ALeave(c) => Leave(s, t, c)
  }

  ghost predicate IsRun(states: seq<State>, actions: seq<Action>)
  {
    && |states| == |actions| + 1 && Init(states[0])
    && forall i :: 0 <= i < |actions| ==> Does(states[i], states[i + 1], actions[i])
  }

  /** What two calls must not share: plugin, capability, Run and invocation key. */
  datatype Identity = Identity(plugin: PluginId, key: CapKey, run: nat, invocation: nat)

  function IdentityOf(call: Invocation): Option<Identity>
  {
    match call
    case Over => None
    case Looked(p, key, _, run, invocation) => Some(Identity(p, key, run, invocation))
    case Holding(lease, _) => Some(Identity(lease.id.plugin, lease.id.key, lease.id.run, lease.id.invocation))
  }

  /** Calls in flight at the same time have different identities. */
  ghost predicate NoTwins(calls: map<nat, Invocation>)
  {
    forall a, b :: a in calls && b in calls && a != b && IdentityOf(calls[a]).Some? ==> IdentityOf(calls[a]) != IdentityOf(calls[b])
  }
}
