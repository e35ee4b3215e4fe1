/** Agreement of lifecycle and registry over every interleaving, and exactly which interleavings keep
    every lease in use recorded: those in which no call releases a lease that another call still uses. */
module PluginSafety {
  import opened Wrappers
  import opened Order
  import opened PluginRegistry
  import opened PluginLifecycle
  import opened PluginSystem

  // ---------------------------------------------------------------- the invariant

  predicate Serving(r: Record) { r.phase.Registered? || r.phase.Active? || r.phase.Draining? }

  predicate Started(r: Record) { Serving(r) || r.phase.Unregistered? || r.phase.Unloaded? }

  /** What the lifecycle record and the live receipts say about each other, by stage. */
  ghost predicate Agree(live: set<PluginRegistry.Receipt>, p: PluginId, r: Record, stage: Option<Stage>)
  {
    match stage
    case Some(Published(receipt)) => r.phase.Loaded? && r.receipt.None? && receipt in live && receipt.owner == p
    case Some(Withdrawn) => (r.phase.Registered? || r.phase.Draining?) && r.receipt.Some? && r.receipt.value !in live && r.receipt.value.owner == p
    case _ => (Serving(r) <==> r.receipt.Some?) && (r.receipt.Some? ==> r.receipt.value in live && r.receipt.value.owner == p)
  }

  ghost predicate StageOk(book: Book, op: Operation)
  {
    && op.record == book.record
    && match op.stage
       case Primed => book.record.phase.Registered?
       case Quiescing(_) => book.record.phase.Draining?
       case Waiting(_) => book.record.phase.Draining?
       case Withdrawing => (book.record.phase.Registered? || book.record.phase.Draining?) && Quiet(book.leases)
       case Withdrawn => Quiet(book.leases)
       case Unloading => book.record.phase.Unregistered?
       case _ => true
  }

  /** One plugin's share of the invariant. */
  ghost predicate LocalOk(live: set<PluginRegistry.Receipt>, shelved: bool, p: PluginId, book: Book, op: Option<Operation>)
  {
    && Filed(book, p)
    && (op.Some? ==> StageOk(book, op.value))
    && Agree(live, p, book.record, if op.Some? then Some(op.value.stage) else None)
    && (!Quiet(book.leases) ==> book.record.phase.Active? || book.record.phase.Draining?)
    && (shelved <==> Started(book.record) || (op.Some? && op.value.stage.Published?))
  }

  function OpOf(ops: map<PluginId, Operation>, p: PluginId): Option<Operation> { if p in ops then Some(ops[p]) else None }

  ghost predicate PluginOk(s: State, p: PluginId)
    requires p in s.books
  {
    LocalOk(s.ledger.live, p in s.shelf, p, s.books[p], OpOf(s.ops, p))
  }

  /** A live receipt belongs to a known plugin whose record or operation holds it. */
  ghost predicate Claimed(s: State, rc: PluginRegistry.Receipt)
  {
    && rc.owner in s.books
    && (s.books[rc.owner].record.receipt == Some(rc) || (rc.owner in s.ops && s.ops[rc.owner].stage == Published(rc)))
  }

  /** While a receipt is live, the table holds what its owner put on the shelf. */
  ghost predicate Shelved(ledger: Ledger, shelf: map<PluginId, map<CapKey, Registration>>, rc: PluginRegistry.Receipt)
  {
    && rc.owner in shelf && shelf[rc.owner].Keys == Elements(rc.keys)
    && forall k :: k in rc.keys ==> k in ledger.reg.table && ledger.reg.table[k] == shelf[rc.owner][k]
  }

  ghost predicate OnShelf(shelf: map<PluginId, map<CapKey, Registration>>, p: PluginId, key: CapKey, reg: Registration)
  {
    p in shelf && key in shelf[p] && shelf[p][key] == reg
  }

  predicate Recorded(book: Book, lease: Lease)
  {
    lease.id.invocation in book.leases && book.leases[lease.id.invocation] == lease
  }

  /** A lease that was granted is recorded until it is released, and known as released from then on. */
  predicate Tracked(book: Book, lease: Lease) { Recorded(book, lease) || lease.id in book.released }

  ghost predicate CallOk(s: State, call: Invocation)
  {
    match call
    case Over => true
    case Looked(p, key, reg, _, _) => OnShelf(s.shelf, p, key, reg)
    case Holding(lease, reg) =>
      && OnShelf(s.shelf, lease.id.plugin, lease.id.key, reg)
      && lease.id.plugin in s.books && Tracked(s.books[lease.id.plugin], lease)
  }

  ghost predicate Inv(s: State)
  {
    && Conserved(s.ledger)
    && s.ops.Keys <= s.books.Keys
    && (forall p :: p in s.prepared ==> IsPlan(s.prepared[p]))
    && (forall p :: p in s.books ==> PluginOk(s, p))
    && (forall p :: p in s.shelf ==> p in s.books)
    && (forall rc :: rc in s.ledger.live ==> Claimed(s, rc) && Shelved(s.ledger, s.shelf, rc))
    && (forall c :: c in s.calls ==> CallOk(s, s.calls[c]))
  }

  // ---------------------------------------------------------------- steps inside one plugin

  /** A turn that leaves the registry, the shelf and the leases alone. */
  lemma TurnKeeps(s: State, t: State, p: PluginId, record: Record, op: Option<Operation>)
    requires Inv(s) && p in s.books && t == Turn(s, p, s.books[p].(record := record), op)
    requires LocalOk(s.ledger.live, p in s.shelf, p, s.books[p].(record := record), op)
    requires Keeps(s.books[p].record.receipt, OpOf(s.ops, p), record.receipt, op, s.ledger.live)
    ensures Inv(t)
  {
    hide Conserved, Shelved, LocalOk, OnShelf, IsPlan;
    forall q | q in t.books ensures PluginOk(t, q) {
      if q != p { assert PluginOk(s, q) && OpOf(t.ops, q) == OpOf(s.ops, q); }
    }
    forall rc | rc in t.ledger.live ensures Claimed(t, rc) && Shelved(t.ledger, t.shelf, rc) { assert Claimed(s, rc); }
    forall c | c in t.calls ensures CallOk(t, t.calls[c]) { assert CallOk(s, s.calls[c]); }
  }

  /** A live receipt held before is still held. */
  ghost predicate Keeps(before: Option<PluginRegistry.Receipt>, op: Option<Operation>, after: Option<PluginRegistry.Receipt>, next: Option<Operation>,
                        live: set<PluginRegistry.Receipt>)
  {
    forall rc :: rc in live && (before == Some(rc) || (op.Some? && op.value.stage == Published(rc))) ==>
      after == Some(rc) || (next.Some? && next.value.stage == Published(rc))
  }

  lemma PreparedKeeps(s: State, t: State)
    requires Inv(s) && t == s.(prepared := t.prepared)
    requires forall p :: p in t.prepared ==> IsPlan(t.prepared[p])
    ensures Inv(t)
  {
    hide Conserved, Shelved, LocalOk, OnShelf, IsPlan;
    forall q | q in t.books ensures PluginOk(t, q) { assert PluginOk(s, q); }
    forall rc | rc in t.ledger.live ensures Claimed(t, rc) && Shelved(t.ledger, t.shelf, rc) { assert Claimed(s, rc); }
    forall c | c in t.calls ensures CallOk(t, t.calls[c]) { assert CallOk(s, s.calls[c]); }
  }

  lemma NewBookLocal(live: set<PluginRegistry.Receipt>, p: PluginId, record: Record)
    requires record.phase.Discovered? && record.receipt.None?
    ensures LocalOk(live, false, p, Book(record, map[], {}), Some(Operation(record, Loading)))
  {
  }

  lemma NewBookKeeps(s: State, t: State, p: PluginId, record: Record)
    requires Inv(s) && p !in s.books && record.phase.Discovered? && record.receipt.None?
    requires t == Turn(s, p, Book(record, map[], {}), Some(Operation(record, Loading)))
    ensures Inv(t)
  {
    assert p !in s.shelf && p !in s.ops by { hide Conserved, Claimed, Shelved, CallOk, PluginOk, IsPlan; }
    NewBookLocal(s.ledger.live, p, record);
    NewBookClaims(s, t, p);
    hide Conserved, Shelved, OnShelf, IsPlan, LocalOk, Claimed, CallOk;
    forall q | q in t.books ensures PluginOk(t, q) {
      if q != p { assert PluginOk(s, q) && OpOf(t.ops, q) == OpOf(s.ops, q); }
    }
  }

  lemma NewBookClaims(s: State, t: State, p: PluginId)
    requires Inv(s) && p !in s.books && p in t.books && p in t.ops
    requires t == s.(books := s.books[p := t.books[p]], ops := s.ops[p := t.ops[p]])
    ensures forall rc :: rc in t.ledger.live ==> Claimed(t, rc) && Shelved(t.ledger, t.shelf, rc)
    ensures forall c :: c in t.calls ==> CallOk(t, t.calls[c])
  {
    hide Conserved, Shelved, OnShelf, IsPlan, LocalOk;
    forall rc | rc in t.ledger.live ensures Claimed(t, rc) && Shelved(t.ledger, t.shelf, rc) { assert Claimed(s, rc); }
    forall c | c in t.calls ensures CallOk(t, t.calls[c]) { assert CallOk(s, s.calls[c]); }
  }

  lemma LoadBeginKeeps(s: State, t: State, p: PluginId, manifest: nat)
    requires Inv(s) && LoadBegin(s, t, p, manifest)
    ensures Inv(t)
  {
    if p in s.books {
      assert PluginOk(s, p);
      hide Inv, Quiet;
      TurnKeeps(s, t, p, s.books[p].record, Some(t.ops[p]));
    } else {
      hide Inv;
      NewBookKeeps(s, t, p, Record(manifest, Discovered, 0, None, 0, {}));
    }
  }

  lemma LoadValidateLocal(live: set<PluginRegistry.Receipt>, shelved: bool, p: PluginId, book: Book, op: Operation)
    requires LocalOk(live, shelved, p, book, Some(op)) && op.stage.Loading? && op.record.phase.Discovered?
    ensures var moved := Move(book.record, Validated, Some(op.record.version), None, false);
            && moved.Granted? && moved.value.receipt == book.record.receipt
            && LocalOk(live, shelved, p, book.(record := moved.value), Some(Operation(moved.value, Loading)))
  {
  }

  lemma LoadValidateKeeps(s: State, t: State, p: PluginId)
    requires Inv(s) && LoadValidate(s, t, p)
    ensures Inv(t)
  {
    assert PluginOk(s, p);
    LoadValidateLocal(s.ledger.live, p in s.shelf, p, s.books[p], s.ops[p]);
    var moved := MoveTo(s, p, Validated, None, false);
    hide Inv, LocalOk, Move;
    TurnKeeps(s, t, p, moved.value, Some(Operation(moved.value, Loading)));
  }

  lemma LoadFinishLocal(live: set<PluginRegistry.Receipt>, shelved: bool, p: PluginId, book: Book, op: Operation, mark: bool)
    requires LocalOk(live, shelved, p, book, Some(op)) && op.stage.Loading? && book.record.phase.Validated?
    ensures var marked := if mark then Mark(book.record, OnLoad) else book.record;
            var moved := Move(marked, Loaded, Some(marked.version), None, false);
            && moved.Granted? && moved.value.receipt == book.record.receipt
            && LocalOk(live, shelved, p, book.(record := moved.value), None)
  {
  }

  lemma LoadFinishKeeps(s: State, t: State, p: PluginId, caps: seq<Capability>, mark: bool)
    requires Inv(s) && LoadFinish(s, t, p, caps, mark)
    ensures Inv(t)
  {
    assert PluginOk(s, p);
    assert s.books[p].record.phase.Validated? by { hide Filed, Agree; }
    LoadFinishLocal(s.ledger.live, p in s.shelf, p, s.books[p], s.ops[p], mark);
    var u := Turn(s, p, t.books[p], None);
    assert forall q :: q in t.prepared ==> IsPlan(t.prepared[q]);
    hide Inv, IsPlan, LocalOk;
    TurnKeeps(s, u, p, t.books[p].record, None);
    PreparedKeeps(u, t);
  }

  lemma ActivateBeginKeeps(s: State, t: State, p: PluginId)
    requires Inv(s) && ActivateBegin(s, t, p)
    ensures Inv(t)
  {
    assert PluginOk(s, p);
    hide Inv, Quiet;
    TurnKeeps(s, t, p, s.books[p].record, Some(t.ops[p]));
  }

  lemma ActivateHookKeeps(s: State, t: State, p: PluginId, mark: bool)
    requires Inv(s) && ActivateHook(s, t, p, mark)
    ensures Inv(t)
  {
    assert PluginOk(s, p);
    hide Inv, Quiet;
    TurnKeeps(s, t, p, t.books[p].record, Some(t.ops[p]));
  }

  lemma ActivateFinishKeeps(s: State, t: State, p: PluginId)
    requires Inv(s) && ActivateFinish(s, t, p)
    ensures Inv(t)
  {
    assert PluginOk(s, p);
    hide Inv, Quiet;
    TurnKeeps(s, t, p, t.books[p].record, None);
  }

  lemma DrainBeginKeeps(s: State, t: State, p: PluginId, unload: bool)
    requires Inv(s) && DrainBegin(s, t, p, unload)
    ensures Inv(t)
  {
    assert PluginOk(s, p);
    hide Inv, Quiet;
    TurnKeeps(s, t, p, t.books[p].record, Some(t.ops[p]));
  }

  lemma DrainHookKeeps(s: State, t: State, p: PluginId, mark: bool)
    requires Inv(s) && DrainHook(s, t, p, mark)
    ensures Inv(t)
  {
    assert PluginOk(s, p);
    hide Inv, Quiet;
    TurnKeeps(s, t, p, t.books[p].record, Some(t.ops[p]));
  }

  lemma WaitedForZeroKeeps(s: State, t: State, p: PluginId)
    requires Inv(s) && WaitedForZero(s, t, p)
    ensures Inv(t)
  {
    assert PluginOk(s, p);
    hide Inv, Quiet;
    TurnKeeps(s, t, p, s.books[p].record, if s.ops[p].stage.unload then Some(t.ops[p]) else None);
  }

  lemma CancelDrainKeeps(s: State, t: State, p: PluginId)
    requires Inv(s) && CancelDrain(s, t, p)
    ensures Inv(t)
  {
    assert PluginOk(s, p);
    hide Inv, Quiet;
    TurnKeeps(s, t, p, t.books[p].record, None);
  }

  lemma UnloadBeginKeeps(s: State, t: State, p: PluginId)
    requires Inv(s) && UnloadBegin(s, t, p)
    ensures Inv(t)
  {
    assert PluginOk(s, p);
    hide Inv, Quiet;
    TurnKeeps(s, t, p, s.books[p].record, Some(t.ops[p]));
  }

  lemma UnloadMarkLocal(live: set<PluginRegistry.Receipt>, shelved: bool, p: PluginId, book: Book, op: Operation)
    requires LocalOk(live, shelved, p, book, Some(op)) && op.stage.Withdrawn?
    ensures var moved := Move(book.record, Unregistered, Some(op.record.version), None, true);
            && moved.Granted? && LocalOk(live, shelved, p, book.(record := moved.value), Some(Operation(moved.value, Unloading)))
            && Keeps(book.record.receipt, Some(op), moved.value.receipt, Some(Operation(moved.value, Unloading)), live)
  {
  }

  /** Withdrawal done, the UNREGISTERED transition cannot be refused. */
  lemma UnloadMarkKeeps(s: State, t: State, p: PluginId)
    requires Inv(s) && UnloadMark(s, t, p)
    ensures Inv(t) && MoveTo(s, p, Unregistered, None, true).Granted?
  {
    assert PluginOk(s, p);
    UnloadMarkLocal(s.ledger.live, p in s.shelf, p, s.books[p], s.ops[p]);
    var moved := MoveTo(s, p, Unregistered, None, true);
    hide Inv, LocalOk, Move;
    TurnKeeps(s, t, p, moved.value, Some(Operation(moved.value, Unloading)));
  }

  lemma UnloadHookKeeps(s: State, t: State, p: PluginId)
    requires Inv(s) && UnloadHook(s, t, p)
    ensures Inv(t)
  {
    assert PluginOk(s, p);
    hide Inv, Quiet;
    TurnKeeps(s, t, p, t.books[p].record, Some(t.ops[p]));
  }

  lemma UnloadFinishLocal(live: set<PluginRegistry.Receipt>, shelved: bool, p: PluginId, book: Book, op: Operation)
    requires LocalOk(live, shelved, p, book, Some(op)) && op.stage.Unloading?
    ensures var moved := Move(book.record, Unloaded, Some(op.record.version), None, false);
            && moved.Granted? && moved.value.receipt == book.record.receipt
            && LocalOk(live, shelved, p, book.(record := moved.value), None)
  {
  }

  lemma UnloadFinishKeeps(s: State, t: State, p: PluginId)
    requires Inv(s) && UnloadFinish(s, t, p)
    ensures Inv(t)
  {
    assert PluginOk(s, p);
    UnloadFinishLocal(s.ledger.live, p in s.shelf, p, s.books[p], s.ops[p]);
    var moved := MoveTo(s, p, Unloaded, None, false);
    var u := Turn(s, p, s.books[p].(record := moved.value), None);
    assert forall q :: q in t.prepared ==> IsPlan(t.prepared[q]);
    hide Inv, LocalOk, IsPlan, Move;
    TurnKeeps(s, u, p, moved.value, None);
    PreparedKeeps(u, t);
  }

  lemma GiveUpKeeps(s: State, t: State, p: PluginId)
    requires Inv(s) && GiveUp(s, t, p)
    ensures Inv(t)
  {
    assert PluginOk(s, p);
    hide Inv, Quiet;
    TurnKeeps(s, t, p, s.books[p].record, None);
  }

  lemma ActivateRegisterLocal(live: set<PluginRegistry.Receipt>, shelved: bool, p: PluginId, book: Book, op: Operation)
    requires LocalOk(live, shelved, p, book, Some(op)) && op.stage.Published?
    ensures var moved := Move(book.record, Registered, Some(op.record.version), Some(op.stage.receipt), false);
            && moved.Granted? && moved.value.receipt == Some(op.stage.receipt) && book.record.receipt.None?
            && LocalOk(live, shelved, p, book.(record := moved.value), Some(Operation(moved.value, Activating)))
  {
  }

  /** The transition after a publication cannot be refused, so nothing is ever rolled back. */
  lemma ActivateRegisterKeeps(s: State, t: State, p: PluginId)
    requires Inv(s) && ActivateRegister(s, t, p)
    ensures Inv(t) && MoveTo(s, p, Registered, Some(s.ops[p].stage.receipt), false).Granted?
  {
    assert PluginOk(s, p);
    var receipt := s.ops[p].stage.receipt;
    ActivateRegisterLocal(s.ledger.live, p in s.shelf, p, s.books[p], s.ops[p]);
    var moved := MoveTo(s, p, Registered, Some(receipt), false);
    hide Inv, LocalOk, Move;
    TurnKeeps(s, t, p, moved.value, Some(Operation(moved.value, Activating)));
  }

  // ---------------------------------------------------------------- the registry moves

  /** Publishing or withdrawing receipts of one plugin leaves the others alone. */
  lemma OthersAgree(live: set<PluginRegistry.Receipt>, other: set<PluginRegistry.Receipt>, shelved: bool,
                    q: PluginId, book: Book, op: Option<Operation>, p: PluginId)
    requires LocalOk(live, shelved, q, book, op) && q != p
    requires forall rc: PluginRegistry.Receipt :: rc.owner != p ==> (rc in live <==> rc in other)
    ensures LocalOk(other, shelved, q, book, op)
  {
    hide Filed, StageOk;
  }

  lemma PublishLocal(live: set<PluginRegistry.Receipt>, p: PluginId, book: Book, op: Operation, rc: PluginRegistry.Receipt)
    requires LocalOk(live, false, p, book, Some(op)) && op.stage.Activating? && book.record.phase.Loaded?
    requires rc.owner == p
    ensures book.record.receipt.None?
    ensures LocalOk(live + {rc}, true, p, book, Some(op.(stage := Published(rc))))
  {
    hide Filed;
  }

  lemma PublishShelves(l: Ledger, p: PluginId, caps: seq<Capability>)
    requires Conserved(l) && IsPlan(caps) && Commit(l.reg, p, caps, l.reg.version).Committed?
    ensures var rc := Commit(l.reg, p, caps, l.reg.version).receipt;
            var after := PluginRegistry.After(l, CallCommit(p, caps, l.reg.version));
            && rc.owner == p && after.live == l.live + {rc} && Conserved(after)
            && after.reg == Commit(l.reg, p, caps, l.reg.version).registry
            && (forall k :: k in rc.keys ==> k in after.reg.table)
            && (forall k :: k in l.reg.table ==> k in after.reg.table && after.reg.table[k] == l.reg.table[k])
  {
    CommitMeaning(l.reg, p, caps, l.reg.version);
    CommitKeeps(l, p, caps, l.reg.version);
    hide Conserved, IsPlan;
  }

  lemma StillShelved(s: State, t: State, rc: PluginRegistry.Receipt, p: PluginId)
    requires Shelved(s.ledger, s.shelf, rc) && rc.owner != p && ShelfKept(s.shelf, t.shelf)
    requires forall k :: k in rc.keys && k in s.ledger.reg.table ==> k in t.ledger.reg.table && t.ledger.reg.table[k] == s.ledger.reg.table[k]
    ensures Shelved(t.ledger, t.shelf, rc)
  {
  }

  ghost predicate ShelfKept(before: map<PluginId, map<CapKey, Registration>>, after: map<PluginId, map<CapKey, Registration>>)
  {
    forall q :: q in before ==> q in after && after[q] == before[q]
  }

  /** The operation of p changed the registry: only receipts of p came or went. */
  lemma RegistryMoves(s: State, t: State, p: PluginId)
    requires Inv(s) && p in s.books && p in t.ops
    requires t == s.(ledger := t.ledger, shelf := t.shelf, ops := s.ops[p := t.ops[p]])
    requires Conserved(t.ledger) && ShelfKept(s.shelf, t.shelf) && t.shelf.Keys <= s.shelf.Keys + {p}
    requires LocalOk(t.ledger.live, p in t.shelf, p, s.books[p], Some(t.ops[p]))
    requires forall rc: PluginRegistry.Receipt :: rc.owner != p ==> (rc in s.ledger.live <==> rc in t.ledger.live)
    requires forall rc :: rc in t.ledger.live && rc.owner == p ==> Claimed(t, rc) && Shelved(t.ledger, t.shelf, rc)
    requires forall rc, k :: rc in t.ledger.live && rc.owner != p && k in rc.keys && k in s.ledger.reg.table ==>
               k in t.ledger.reg.table && t.ledger.reg.table[k] == s.ledger.reg.table[k]
    ensures Inv(t)
  {
    hide Conserved, Shelved, LocalOk, IsPlan;
    forall q | q in t.books ensures PluginOk(t, q) {
      if q != p {
        assert PluginOk(s, q) && OpOf(t.ops, q) == OpOf(s.ops, q);
        OthersAgree(s.ledger.live, t.ledger.live, q in s.shelf, q, s.books[q], OpOf(s.ops, q), p);
      }
    }
    forall x | x in t.ledger.live ensures Claimed(t, x) && Shelved(t.ledger, t.shelf, x) {
      if x.owner != p {
        assert Claimed(s, x);
        StillShelved(s, t, x, p);
      }
    }
    forall c | c in t.calls ensures CallOk(t, t.calls[c]) { assert CallOk(s, s.calls[c]); }
  }

  /** Before its publication a plugin has nothing on the shelf and no live receipt. */
  lemma NothingPublishedYet(s: State, p: PluginId)
    requires Inv(s) && In(s, p, Activating) && s.ops[p].record.phase.Loaded?
    ensures p !in s.shelf && s.ops[p].record == s.books[p].record
    ensures forall x :: x in s.ledger.live ==> x.owner != p
  {
    assert PluginOk(s, p);
    hide Filed, Conserved, IsPlan, Shelved;
    forall x | x in s.ledger.live ensures x.owner != p { assert Claimed(s, x); }
  }

  lemma NewShelf(ledger: Ledger, shelf: map<PluginId, map<CapKey, Registration>>, p: PluginId, rc: PluginRegistry.Receipt)
    requires rc.owner == p && forall k :: k in rc.keys ==> k in ledger.reg.table
    ensures Shelved(ledger, shelf[p := ShelfOf(rc, ledger.reg.table)], rc)
  {
    assert ShelfOf(rc, ledger.reg.table).Keys == Elements(rc.keys);
  }

  /** What publication changes: one more live receipt, its keys, and p's shelf. */
  ghost predicate IsPublication(s: State, t: State, p: PluginId, rc: PluginRegistry.Receipt)
  {
    && rc.owner == p && p in t.ops && t == s.(ledger := t.ledger, shelf := t.shelf, ops := s.ops[p := t.ops[p]])
    && p in s.ops && t.ops[p] == s.ops[p].(stage := Published(rc))
    && t.ledger.live == s.ledger.live + {rc} && Conserved(t.ledger)
    && t.shelf == s.shelf[p := ShelfOf(rc, t.ledger.reg.table)]
    && (forall k :: k in rc.keys ==> k in t.ledger.reg.table)
    && (forall k :: k in s.ledger.reg.table ==> k in t.ledger.reg.table && t.ledger.reg.table[k] == s.ledger.reg.table[k])
  }

  lemma PublishFacts(s: State, t: State, p: PluginId) returns (rc: PluginRegistry.Receipt)
    requires Inv(s) && ActivatePublish(s, t, p)
    ensures IsPublication(s, t, p, rc)
  {
    rc := Commit(s.ledger.reg, p, s.prepared[p], s.ledger.reg.version).receipt;
    assert Conserved(s.ledger) && IsPlan(s.prepared[p]);
    hide Inv, Commit, IsPlan, Conserved, PluginRegistry.After, Publish, ShelfOf;
    PublishShelves(s.ledger, p, s.prepared[p]);
  }

  lemma PublishesUnderLock(s: State, t: State, p: PluginId)
    requires Inv(s) && ActivatePublish(s, t, p)
    ensures In(s, p, Activating) && s.ops[p].record.phase.Loaded? && PluginOk(s, p)
  {
    hide Conserved, LocalOk, Claimed, Shelved, CallOk, Commit, IsPlan;
  }

  lemma PublicationKeeps(s: State, t: State, p: PluginId, rc: PluginRegistry.Receipt)
    requires Inv(s) && IsPublication(s, t, p, rc)
    requires In(s, p, Activating) && s.ops[p].record.phase.Loaded? && PluginOk(s, p)
    ensures Inv(t)
  {
    hide Inv, LocalOk, Shelved, Conserved, ShelfOf;
    NothingPublishedYet(s, p);
    PublishLocal(s.ledger.live, p, s.books[p], s.ops[p], rc);
    NewShelf(t.ledger, s.shelf, p, rc);
    RegistryMoves(s, t, p);
  }

  lemma ActivatePublishKeeps(s: State, t: State, p: PluginId)
    requires Inv(s) && ActivatePublish(s, t, p)
    ensures Inv(t)
  {
    hide Inv, ActivatePublish, IsPublication, PluginOk;
    var rc := PublishFacts(s, t, p);
    PublishesUnderLock(s, t, p);
    PublicationKeeps(s, t, p, rc);
  }

  lemma WithdrawLocal(live: set<PluginRegistry.Receipt>, shelved: bool, p: PluginId, book: Book, op: Operation)
    requires LocalOk(live, shelved, p, book, Some(op)) && op.stage.Withdrawing? && book.record.receipt.Some?
    ensures book.record.receipt.value in live && book.record.receipt.value.owner == p && op.record == book.record
    ensures LocalOk(live - {book.record.receipt.value}, shelved, p, book, Some(op.(stage := Withdrawn)))
  {
    hide Filed;
  }

  /** A withdrawal is never refused: the operation's receipt is live. */
  lemma WithdrawTakes(s: State, p: PluginId)
    requires Inv(s) && In(s, p, Withdrawing)
    ensures s.ops[p].record.receipt.Some?
    ensures var rc := s.ops[p].record.receipt.value;
            var after := PluginRegistry.After(s.ledger, CallUnregister(rc));
            && s.ops[p].record == s.books[p].record && rc in s.ledger.live && rc.owner == p
            && Unregister(s.ledger.reg, rc).Withdrew?
            && Conserved(after) && after.live == s.ledger.live - {rc}
            && (forall x, k :: x in after.live && k in x.keys ==>
                 k in after.reg.table && k in s.ledger.reg.table && after.reg.table[k] == s.ledger.reg.table[k])
  {
    assert PluginOk(s, p);
    assert Serving(s.books[p].record) && s.books[p].record.receipt.Some? && s.ops[p].record == s.books[p].record by { hide Filed; }
    WithdrawLocal(s.ledger.live, p in s.shelf, p, s.books[p], s.ops[p]);
    var rc := s.ops[p].record.receipt.value;
    hide LocalOk;
    LiveReceiptTakesItsKeys(s.ledger, rc);
    UnregisterKeeps(s.ledger, rc);
    assert rc.id !in s.ledger.reg.retired;
  }

  lemma UnloadWithdrawKeeps(s: State, t: State, p: PluginId)
    requires Inv(s) && UnloadWithdraw(s, t, p)
    ensures Inv(t)
  {
    WithdrawTakes(s, p);
    var rc := s.ops[p].record.receipt.value;
    assert PluginOk(s, p);
    WithdrawLocal(s.ledger.live, p in s.shelf, p, s.books[p], s.ops[p]);
    forall x | x in t.ledger.live ensures x.owner != p {
      assert Claimed(s, x);
    }
    hide Inv, LocalOk, Unregister, PluginRegistry.After;
    RegistryMoves(s, t, p);
  }

  // ---------------------------------------------------------------- calls move

  /** Only one call changed. */
  lemma CallMoves(s: State, t: State, c: nat)
    requires Inv(s) && c in s.calls && c in t.calls && t == s.(calls := s.calls[c := t.calls[c]]) && CallOk(s, t.calls[c])
    ensures Inv(t)
  {
    hide Conserved, Shelved, LocalOk, OnShelf, IsPlan;
    forall q | q in t.books ensures PluginOk(t, q) { assert PluginOk(s, q); }
    forall rc | rc in t.ledger.live ensures Claimed(t, rc) && Shelved(t.ledger, t.shelf, rc) { assert Claimed(s, rc); }
    forall d | d in t.calls ensures CallOk(t, t.calls[d]) { assert d != c ==> CallOk(s, s.calls[d]); }
  }

  /** What a look-up finds is what its owner put on the shelf. */
  lemma LookKeeps(s: State, t: State, c: nat, p: PluginId, key: CapKey, run: nat, invocation: nat)
    requires Inv(s) && Look(s, t, c, p, key, run, invocation)
    ensures Inv(t)
  {
    assert Backed(s.ledger, key);
    var rc :| rc in s.ledger.live && key in rc.keys && Owns(s.ledger.reg, rc, key);
    assert Shelved(s.ledger, s.shelf, rc);
    CallMoves(s, t, c);
  }

  /** One plugin's leases changed. */
  lemma LeasesMove(s: State, t: State, p: PluginId)
    requires Inv(s) && p in s.books && p in t.books && t == s.(books := s.books[p := t.books[p]])
    requires t.books[p].record == s.books[p].record
    requires LocalOk(s.ledger.live, p in s.shelf, p, t.books[p], OpOf(s.ops, p))
    requires forall lease :: Tracked(s.books[p], lease) ==> Tracked(t.books[p], lease)
    ensures Inv(t)
  {
    hide Conserved, Shelved, LocalOk, OnShelf, IsPlan, Tracked;
    forall q | q in t.books ensures PluginOk(t, q) { assert PluginOk(s, q); }
    forall rc | rc in t.ledger.live ensures Claimed(t, rc) && Shelved(t.ledger, t.shelf, rc) { assert Claimed(s, rc); }
    forall d | d in t.calls ensures CallOk(t, t.calls[d]) { assert CallOk(s, s.calls[d]); }
  }

  lemma TakeLocal(live: set<PluginRegistry.Receipt>, shelved: bool, p: PluginId, book: Book, op: Option<Operation>,
                  key: CapKey, run: nat, i: nat, now: int)
    requires LocalOk(live, shelved, p, book, op) && Take(book, p, key, run, Some(i), now).Granted?
    ensures var taken := Take(book, p, key, run, Some(i), now).value;
            && LocalOk(live, shelved, p, taken.book, op) && taken.book.record == book.record
            && Recorded(taken.book, taken.lease)
            && taken.lease.id.plugin == p && taken.lease.id.key == key && taken.lease.id.invocation == i
            && (forall lease :: Tracked(book, lease) ==> Tracked(taken.book, lease))
            && (forall lease :: Recorded(book, lease) ==> Recorded(taken.book, lease))
  {
    TakeKeepsFiled(book, p, key, run, Some(i), now);
    if i !in book.leases { assert i in Take(book, p, key, run, Some(i), now).value.book.leases; }
  }

  lemma LeaseTaken(s: State, p: PluginId, key: CapKey, run: nat, i: nat, now: int)
    requires Inv(s) && p in s.books && Take(s.books[p], p, key, run, Some(i), now).Granted?
    ensures var taken := Take(s.books[p], p, key, run, Some(i), now).value;
            && Inv(s.(books := s.books[p := taken.book])) && Tracked(taken.book, taken.lease)
            && taken.lease.id.plugin == p && taken.lease.id.key == key
  {
    assert PluginOk(s, p);
    hide Inv;
    TakeLocal(s.ledger.live, p in s.shelf, p, s.books[p], OpOf(s.ops, p), key, run, i, now);
    var taken := Take(s.books[p], p, key, run, Some(i), now).value;
    hide LocalOk, Take, Recorded, OnShelf;
    LeasesMove(s, s.(books := s.books[p := taken.book]), p);
  }

  lemma EnterKeeps(s: State, t: State, c: nat, now: int)
    requires Inv(s) && Enter(s, t, c, now)
    ensures Inv(t)
  {
    var call := s.calls[c];
    var p := call.plugin;
    assert CallOk(s, call);
    var taken := Take(s.books[p], p, call.key, call.run, Some(call.invocation), now);
    hide Inv;
    if taken.Granted? {
      LeaseTaken(s, p, call.key, call.run, call.invocation, now);
      hide Take, Tracked;
      CallMoves(s.(books := s.books[p := taken.value.book]), t, c);
    } else {
      CallMoves(s, t, c);
    }
  }

  lemma DropLocal(live: set<PluginRegistry.Receipt>, shelved: bool, p: PluginId, book: Book, op: Option<Operation>, lease: Lease)
    requires LocalOk(live, shelved, p, book, op) && lease.id.plugin == p && Tracked(book, lease)
    ensures Drop(book, lease).Granted?
    ensures var after := Drop(book, lease).value;
            && LocalOk(live, shelved, p, after, op) && after.record == book.record
            && (forall other :: Tracked(book, other) ==> Tracked(after, other))
  {
    DropKeepsFiled(book, p, lease);
    assert lease.id !in book.released ==> lease.id.invocation in book.leases && !Quiet(book.leases);
  }

  /** A lease in use can always be given back, also when another call has released it already. */
  lemma LeaveKeeps(s: State, t: State, c: nat)
    requires Inv(s) && Leave(s, t, c)
    ensures Inv(t) && Drop(s.books[s.calls[c].lease.id.plugin], s.calls[c].lease).Granted?
  {
    var lease := s.calls[c].lease;
    var p := lease.id.plugin;
    assert CallOk(s, s.calls[c]) && PluginOk(s, p);
    DropLocal(s.ledger.live, p in s.shelf, p, s.books[p], OpOf(s.ops, p), lease);
    var v := s.(calls := s.calls[c := Over]);
    hide Tracked;
    CallMoves(s, v, c);
    hide Inv, LocalOk, Drop;
    LeasesMove(v, t, p);
  }

  // ---------------------------------------------------------------- the leases in use

  ghost predicate HeldCall(s: State, call: Invocation)
  {
    call.Holding? ==> call.lease.id.plugin in s.books && Recorded(s.books[call.lease.id.plugin], call.lease)
  }

  /** The controller still counts every lease that a call uses. */
  ghost predicate Held(s: State) { forall c :: c in s.calls ==> HeldCall(s, s.calls[c]) }

  /** No other call uses c's lease. */
  ghost predicate Lone(s: State, c: nat)
    requires c in s.calls && s.calls[c].Holding?
  {
    forall d :: d in s.calls && d != c && s.calls[d].Holding? ==> s.calls[d].lease != s.calls[c].lease
  }

  lemma DropRecorded(book: Book, p: PluginId, lease: Lease, other: Lease)
    requires Filed(book, p) && Recorded(book, lease) && Recorded(book, other)
    ensures Drop(book, lease).Granted?
    ensures Recorded(Drop(book, lease).value, other) <==> other != lease
  {
  }

  /** A release leaves every lease in use recorded if and only if no other call uses the lease. */
  lemma LeaveExactly(s: State, t: State, c: nat)
    requires Inv(s) && Held(s) && Leave(s, t, c)
    ensures Held(t) <==> Lone(s, c)
  {
    var lease := s.calls[c].lease;
    var p := lease.id.plugin;
    assert HeldCall(s, s.calls[c]) && PluginOk(s, p) && Filed(s.books[p], p);
    hide Inv, PluginOk, Filed, Recorded, Drop;
    forall d | d in s.calls && d != c && s.calls[d].Holding?
      ensures HeldCall(t, t.calls[d]) <==> s.calls[d].lease != lease
    {
      assert HeldCall(s, s.calls[d]);
      if s.calls[d].lease.id.plugin == p { DropRecorded(s.books[p], p, lease, s.calls[d].lease); }
      else { DropRecorded(s.books[p], p, lease, lease); }
    }
    assert t.calls[c] == Over;
    if Lone(s, c) {
      forall d | d in t.calls ensures HeldCall(t, t.calls[d]) { assert d != c && s.calls[d].Holding? ==> HeldCall(t, t.calls[d]); }
    }
    if Held(t) {
      forall d | d in s.calls && d != c && s.calls[d].Holding? ensures s.calls[d].lease != lease { assert HeldCall(t, t.calls[d]); }
    }
  }

  /** Loading, activating, draining and unloading never touch a lease. */
  ghost predicate SameLeases(s: State, t: State)
  {
    t.calls == s.calls && forall p :: p in s.books ==> p in t.books && t.books[p].leases == s.books[p].leases
  }

  predicate ByManagement(action: Action) { !action.ALook? && !action.AEnter? && !action.ARefused? && !action.ALeave? }

  predicate Raises(action: Action)
  {
    || action.ALoadBegin? || action.ALoadValidate? || action.ALoadFinish? || action.AActivateBegin? || action.AActivatePublish?
    || action.AActivateRegister? || action.AActivateHook? || action.AActivateFinish?
  }

  lemma RaisingKeepsLeases(s: State, t: State, action: Action)
    requires Does(s, t, action) && Raises(action)
    ensures SameLeases(s, t)
  {
    hide Move, Mark, Commit, Unregister, PluginRegistry.After, IsPlan;
  }

  lemma LoweringKeepsLeases(s: State, t: State, action: Action)
    requires Does(s, t, action) && ByManagement(action) && !Raises(action)
    ensures SameLeases(s, t)
  {
    hide Move, Mark, Commit, Unregister, PluginRegistry.After, IsPlan;
  }

  lemma ManagementKeepsLeases(s: State, t: State, action: Action)
    requires Does(s, t, action) && ByManagement(action)
    ensures SameLeases(s, t)
  {
    hide Does, SameLeases;
    if Raises(action) { RaisingKeepsLeases(s, t, action); } else { LoweringKeepsLeases(s, t, action); }
  }

  lemma SameLeasesKeepsHeld(s: State, t: State)
    requires Held(s) && SameLeases(s, t)
    ensures Held(t)
  {
    forall c | c in t.calls ensures HeldCall(t, t.calls[c]) { assert HeldCall(s, s.calls[c]); }
  }

  // ---------------------------------------------------------------- whole runs

  lemma DoesKeeps(s: State, t: State, action: Action)
    requires Inv(s) && Does(s, t, action)
    ensures Inv(t)
  {
    hide Inv, LoadBegin, LoadValidate, LoadFinish, ActivateBegin, ActivatePublish, ActivateRegister, ActivateHook, ActivateFinish;
    hide DrainBegin, DrainHook, WaitedForZero, CancelDrain, UnloadBegin, UnloadWithdraw, UnloadMark, UnloadHook, UnloadFinish, GiveUp;
    hide Look, Enter, Refused, Leave;
    match action
    case ALoadBegin(p, manifest) => LoadBeginKeeps(s, t, p, manifest);
    case ALoadValidate(p) => LoadValidateKeeps(s, t, p);
    case ALoadFinish(p, caps, mark) => LoadFinishKeeps(s, t, p, caps, mark);
    case AActivateBegin(p) => ActivateBeginKeeps(s, t, p);
    case AActivatePublish(p) => ActivatePublishKeeps(s, t, p);
    case AActivateRegister(p) => ActivateRegisterKeeps(s, t, p);
    case AActivateHook(p, mark) => ActivateHookKeeps(s, t, p, mark);
    case AActivateFinish(p) => ActivateFinishKeeps(s, t, p);
    case ADrainBegin(p, unload) => DrainBeginKeeps(s, t, p, unload);
    case ADrainHook(p, mark) => DrainHookKeeps(s, t, p, mark);
    case AWaitedForZero(p) => WaitedForZeroKeeps(s, t, p);
    case ACancelDrain(p) => CancelDrainKeeps(s, t, p);
    case AUnloadBegin(p) => UnloadBeginKeeps(s, t, p);
    case AUnloadWithdraw(p) => UnloadWithdrawKeeps(s, t, p);
    case AUnloadMark(p) => UnloadMarkKeeps(s, t, p);
    case AUnloadHook(p) => UnloadHookKeeps(s, t, p);
    case AUnloadFinish(p) => UnloadFinishKeeps(s, t, p);
    case AGiveUp(p) => GiveUpKeeps(s, t, p);
    case ALook(c, p, key, run, invocation) => LookKeeps(s, t, c, p, key, run, invocation);
    case AEnter(c, now) => EnterKeeps(s, t, c, now);
    case ARefused(c) => RefusedKeeps(s, t, c);
    case ALeave(c) => LeaveKeeps(s, t, c);
  }

  lemma RefusedKeeps(s: State, t: State, c: nat)
    requires Inv(s) && Refused(s, t, c)
    ensures Inv(t)
  {
    CallMoves(s, t, c);
  }

  /** A step keeps every lease in use recorded if and only if it is not a release of a lease that
      another call still uses. */
  ghost predicate LoneStep(s: State, action: Action)
  {
    action.ALeave? && action.c in s.calls && s.calls[action.c].Holding? ==> Lone(s, action.c)
  }

  /** No recorded lease was dropped, and only call c moved. */
  ghost predicate OnlyAdds(s: State, t: State, c: nat)
  {
    && c in t.calls && t.calls == s.calls[c := t.calls[c]]
    && forall p, lease :: p in s.books && Recorded(s.books[p], lease) ==> p in t.books && Recorded(t.books[p], lease)
  }

  lemma OnlyAddsKeepsHeld(s: State, t: State, c: nat)
    requires Held(s) && OnlyAdds(s, t, c) && HeldCall(t, t.calls[c])
    ensures Held(t)
  {
    hide Recorded;
    forall d | d in t.calls ensures HeldCall(t, t.calls[d]) { assert d != c ==> HeldCall(s, s.calls[d]); }
  }

  lemma TakeAdds(book: Book, p: PluginId, key: CapKey, run: nat, i: nat, now: int)
    requires Take(book, p, key, run, Some(i), now).Granted? && Filed(book, p)
    ensures var taken := Take(book, p, key, run, Some(i), now).value;
            && taken.lease.id.plugin == p && Recorded(taken.book, taken.lease)
            && (forall lease :: Recorded(book, lease) ==> Recorded(taken.book, lease))
  {
  }

  lemma KnownIsFiled(s: State, p: PluginId)
    requires Inv(s) && p in s.books
    ensures Filed(s.books[p], p)
  {
    assert PluginOk(s, p);
  }

  lemma EnterAdds(s: State, t: State, c: nat, now: int)
    requires Enter(s, t, c, now) && Filed(s.books[s.calls[c].plugin], s.calls[c].plugin)
    ensures OnlyAdds(s, t, c) && HeldCall(t, t.calls[c])
  {
    var call := s.calls[c];
    var p := call.plugin;
    hide Filed, Recorded;
    if Take(s.books[p], p, call.key, call.run, Some(call.invocation), now).Granted? {
      TakeAdds(s.books[p], p, call.key, call.run, call.invocation, now);
      hide Take;
    }
  }

  lemma StepExactly(s: State, t: State, action: Action)
    requires Inv(s) && Held(s) && Does(s, t, action)
    ensures Held(t) <==> LoneStep(s, action)
  {
    if ByManagement(action) {
      ManagementKeepsLeases(s, t, action);
      hide Inv, Lone, Held, Does, SameLeases;
      SameLeasesKeepsHeld(s, t);
    } else {
      CallExactly(s, t, action);
    }
  }

  lemma CallExactly(s: State, t: State, action: Action)
    requires Inv(s) && Held(s) && Does(s, t, action) && !ByManagement(action)
    ensures Held(t) <==> LoneStep(s, action)
  {
    hide Inv, Held, Lone, Enter, Leave, HeldCall, Recorded;
    if action.AEnter? {
      EnterKnows(s, t, action.c, action.now);
      KnownIsFiled(s, s.calls[action.c].plugin);
      EnterAdds(s, t, action.c, action.now);
      OnlyAddsKeepsHeld(s, t, action.c);
    } else if action.ALeave? {
      LeaveExactly(s, t, action.c);
      assert Leave(s, t, action.c);
      LeaveHolds(s, t, action.c);
    } else {
      ReadsOnlyAdd(s, t, action);
      OnlyAddsKeepsHeld(s, t, action.c);
    }
  }

  lemma EnterKnows(s: State, t: State, c: nat, now: int)
    requires Enter(s, t, c, now)
    ensures c in s.calls && s.calls[c].Looked? && s.calls[c].plugin in s.books
  {
    hide Take;
  }

  lemma LeaveHolds(s: State, t: State, c: nat)
    requires Leave(s, t, c)
    ensures c in s.calls && s.calls[c].Holding?
  {
  }

  lemma ReadsOnlyAdd(s: State, t: State, action: Action)
    requires Does(s, t, action) && (action.ALook? || action.ARefused?)
    ensures OnlyAdds(s, t, action.c) && HeldCall(t, t.calls[action.c])
  {
    hide Recorded;
  }

  lemma {:induction false} RunKeepsInv(states: seq<State>, actions: seq<Action>, k: nat)
    requires IsRun(states, actions) && k < |states|
    ensures Inv(states[k])
  {
    if k > 0 {
      RunKeepsInv(states, actions, k - 1);
      DoesKeeps(states[k - 1], states[k], actions[k - 1]);
    }
  }

  /** In the first k steps no call releases a lease that another call still uses. */
  ghost predicate LoneLeaves(states: seq<State>, actions: seq<Action>, k: nat)
    requires k <= |actions| && |states| == |actions| + 1
  {
    forall i :: 0 <= i < k ==> LoneStep(states[i], actions[i])
  }

  ghost predicate AlwaysHeld(states: seq<State>, k: nat)
    requires k < |states|
  {
    forall i :: 0 <= i <= k ==> Held(states[i])
  }

  /** Over a whole run, every lease in use stays recorded if and only if every release is of a lease
      that no other call uses. */
  lemma {:induction false} LeasesHeldExactly(states: seq<State>, actions: seq<Action>, k: nat)
    requires IsRun(states, actions) && k < |states|
    ensures AlwaysHeld(states, k) <==> LoneLeaves(states, actions, k)
  {
    if k == 0 {
      assert Held(states[0]);
    } else {
      LeasesHeldExactly(states, actions, k - 1);
      RunKeepsInv(states, actions, k - 1);
      assert Does(states[k - 1], states[k], actions[k - 1]);
      hide Inv, Held, LoneStep, Does, IsRun;
      if AlwaysHeld(states, k - 1) { StepExactly(states[k - 1], states[k], actions[k - 1]); }
    }
  }

  /** Calls with different identities never share a lease. */
  lemma NoTwinsAreLone(states: seq<State>, actions: seq<Action>, k: nat)
    requires IsRun(states, actions) && k < |states|
    requires forall i :: 0 <= i < k ==> NoTwins(states[i].calls)
    ensures LoneLeaves(states, actions, k)
  {
    forall i | 0 <= i < k ensures LoneStep(states[i], actions[i]) { assert NoTwins(states[i].calls); }
  }

  /** While an operation runs under a lease, its plugin is ACTIVE or DRAINING and the registration it
      was handed is still committed, although it was read before the lease was taken. */
  lemma NoUseAfterUnload(states: seq<State>, actions: seq<Action>, k: nat, c: nat)
    requires IsRun(states, actions) && k < |states|
    requires LoneLeaves(states, actions, k)
    requires c in states[k].calls && states[k].calls[c].Holding?
    ensures InForce(states[k], states[k].calls[c].lease, states[k].calls[c].reg)
  {
    RunKeepsInv(states, actions, k);
    LeasesHeldExactly(states, actions, k);
    assert Held(states[k]);
    hide IsRun, LoneLeaves, AlwaysHeld;
    RecordedIsInForce(states[k], c);
  }

  ghost predicate InForce(s: State, lease: Lease, reg: Registration)
  {
    && lease.id.plugin in s.books
    && (s.books[lease.id.plugin].record.phase.Active? || s.books[lease.id.plugin].record.phase.Draining?)
    && lease.id.key in s.ledger.reg.table && s.ledger.reg.table[lease.id.key] == reg
  }

  lemma RecordedIsInForce(s: State, c: nat)
    requires Inv(s) && c in s.calls && s.calls[c].Holding? && HeldCall(s, s.calls[c])
    ensures InForce(s, s.calls[c].lease, s.calls[c].reg)
  {
    var lease := s.calls[c].lease;
    var p := lease.id.plugin;
    assert CallOk(s, s.calls[c]) && PluginOk(s, p);
    LeasedIsServing(s.ledger.live, p in s.shelf, p, s.books[p], OpOf(s.ops, p), lease.id.invocation);
    var rc := s.books[p].record.receipt.value;
    assert Shelved(s.ledger, s.shelf, rc);
    assert lease.id.key in Elements(rc.keys);
  }

  lemma LeasedIsServing(live: set<PluginRegistry.Receipt>, shelved: bool, p: PluginId, book: Book, op: Option<Operation>, i: nat)
    requires LocalOk(live, shelved, p, book, op) && i in book.leases
    ensures book.record.phase.Active? || book.record.phase.Draining?
    ensures book.record.receipt.Some? && book.record.receipt.value in live && book.record.receipt.value.owner == p
  {
    assert !Quiet(book.leases);
  }

  /** With the lock free: the plugin is REGISTERED, ACTIVE or DRAINING exactly when its record holds
      a receipt, and the registry's keys of this owner are exactly that receipt's. */
  lemma LifecycleAgreesWithRegistry(states: seq<State>, actions: seq<Action>, k: nat, p: PluginId)
    requires IsRun(states, actions) && k < |states|
    requires Unlocked(states[k], p)
    ensures var s, record := states[k], states[k].books[p].record;
            && (Serving(record) <==> record.receipt.Some?)
            && (forall key :: key in s.ledger.reg.table && s.ledger.reg.table[key].owner == p <==>
                 record.receipt.Some? && key in record.receipt.value.keys)
            && (!Quiet(s.books[p].leases) ==> record.phase.Active? || record.phase.Draining?)
  {
    RunKeepsInv(states, actions, k);
    var s, record := states[k], states[k].books[p].record;
    assert PluginOk(s, p);
    forall key | key in s.ledger.reg.table && s.ledger.reg.table[key].owner == p
      ensures record.receipt.Some? && key in record.receipt.value.keys
    {
      assert Backed(s.ledger, key);
      var rc :| rc in s.ledger.live && key in rc.keys && Owns(s.ledger.reg, rc, key);
      assert Claimed(s, rc);
    }
    if record.receipt.Some? {
      forall key | key in record.receipt.value.keys ensures key in s.ledger.reg.table && s.ledger.reg.table[key].owner == p {
        assert Owns(s.ledger.reg, record.receipt.value, key);
      }
    }
  }

  /** An operation in the middle of a publication or a withdrawal can go on. */
  ghost predicate CanGoOn(s: State, p: PluginId)
  {
    && (p in s.ops && s.ops[p].stage.Published? ==>
         p in s.books && MoveTo(s, p, Registered, Some(s.ops[p].stage.receipt), false).Granted?)
    && (p in s.ops && s.ops[p].stage.Withdrawn? ==> p in s.books && MoveTo(s, p, Unregistered, None, true).Granted?)
    && (p in s.ops && s.ops[p].stage.Withdrawing? ==>
         s.ops[p].record.receipt.Some? && Unregister(s.ledger.reg, s.ops[p].record.receipt.value).Withdrew?)
  }

  lemma OperationsGoOn(s: State, p: PluginId)
    requires Inv(s)
    ensures CanGoOn(s, p)
  {
    if p in s.ops {
      assert PluginOk(s, p);
      if s.ops[p].stage.Withdrawing? {
        hide LocalOk;
        WithdrawTakes(s, p);
      } else {
        hide Filed, Conserved;
      }
    }
  }

  /** The rollback branch and the refusals inside unload are unreachable, and a lease that is given
      back is always accepted, whichever calls share it. */
  lemma LockedStepsSucceed(states: seq<State>, actions: seq<Action>, k: nat, p: PluginId, c: nat)
    requires IsRun(states, actions) && k < |states|
    ensures CanGoOn(states[k], p)
    ensures c in states[k].calls && states[k].calls[c].Holding? ==>
      && states[k].calls[c].lease.id.plugin in states[k].books
      && Drop(states[k].books[states[k].calls[c].lease.id.plugin], states[k].calls[c].lease).Granted?
  {
    RunKeepsInv(states, actions, k);
    hide CanGoOn;
    OperationsGoOn(states[k], p);
    if c in states[k].calls && states[k].calls[c].Holding? { assert CallOk(states[k], states[k].calls[c]); }
  }
}
