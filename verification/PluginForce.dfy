/** Exactly when every operation at work keeps its plugin and its registration: when no withdrawal
    happens under one of them. */
module PluginForce {
  import opened Wrappers
  import opened Order
  import opened PluginRegistry
  import opened PluginLifecycle
  import opened PluginSystem
  import opened PluginSafety

  // ---------------------------------------------------------------- what is on the shelf is its owner's

  ghost predicate OwnShelf(s: State)
  {
    forall p, k :: p in s.shelf && k in s.shelf[p] ==> s.shelf[p][k].owner == p
  }

  lemma LiveKeysAreOwned(l: Ledger, rc: PluginRegistry.Receipt, k: CapKey)
    requires Conserved(l) && rc in l.live && k in rc.keys
    ensures k in l.reg.table && l.reg.table[k].owner == rc.owner
  {
    assert Owns(l.reg, rc, k);
  }

  lemma PublicationOwns(s: State, t: State, p: PluginId, rc: PluginRegistry.Receipt)
    requires OwnShelf(s) && IsPublication(s, t, p, rc)
    ensures OwnShelf(t)
  {
    hide Conserved;
    forall k | k in t.shelf[p] ensures t.shelf[p][k].owner == p { LiveKeysAreOwned(t.ledger, rc, k); }
  }

  lemma RaisingKeepsShelf(s: State, t: State, action: Action)
    requires Does(s, t, action) && Raises(action) && !action.AActivatePublish?
    ensures t.shelf == s.shelf
  {
    hide Move, Mark, Commit, Unregister, PluginRegistry.After, IsPlan;
  }

  lemma LoweringKeepsShelf(s: State, t: State, action: Action)
    requires Does(s, t, action) && !Raises(action)
    ensures t.shelf == s.shelf
  {
    hide Move, Mark, Unregister, PluginRegistry.After, Take, Drop, Quiet;
  }

  lemma StepOwnsShelf(s: State, t: State, action: Action)
    requires Inv(s) && OwnShelf(s) && Does(s, t, action)
    ensures OwnShelf(t)
  {
    hide Inv, IsPublication, ActivatePublish;
    if action.AActivatePublish? {
      var rc := PublishFacts(s, t, action.p);
      PublicationOwns(s, t, action.p, rc);
    } else {
      hide Does;
      if Raises(action) { RaisingKeepsShelf(s, t, action); } else { LoweringKeepsShelf(s, t, action); }
    }
  }

  // ---------------------------------------------------------------- plugins that are up

  /** The plugin serves, and its registration has not just been withdrawn. */
  predicate Up(book: Book, op: Option<Operation>)
  {
    (book.record.phase.Active? || book.record.phase.Draining?) && (op.Some? ==> !op.value.stage.Withdrawn?)
  }

  predicate IsUp(s: State, p: PluginId) { p in s.books && Up(s.books[p], OpOf(s.ops, p)) }

  lemma UpHoldsReceipt(live: set<PluginRegistry.Receipt>, shelved: bool, p: PluginId, book: Book, op: Option<Operation>)
    requires LocalOk(live, shelved, p, book, op)
    ensures Up(book, op) ==> book.record.receipt.Some? && book.record.receipt.value in live && book.record.receipt.value.owner == p
    ensures op.Some? && op.value.stage.Withdrawn? ==> book.record.receipt.Some? && book.record.receipt.value !in live
  {
    hide Filed, Quiet;
  }

  lemma CallIsOnShelf(s: State, c: nat)
    requires Inv(s) && c in s.calls && s.calls[c].Holding?
    ensures var lease := s.calls[c].lease;
            lease.id.plugin in s.books && PluginOk(s, lease.id.plugin) && OnShelf(s.shelf, lease.id.plugin, lease.id.key, s.calls[c].reg)
  {
    assert CallOk(s, s.calls[c]);
    hide Conserved, LocalOk, Claimed, Shelved, OnShelf;
  }

  lemma UpIsInForce(s: State, c: nat)
    requires Inv(s) && c in s.calls && s.calls[c].Holding? && IsUp(s, s.calls[c].lease.id.plugin)
    ensures InForce(s, s.calls[c].lease, s.calls[c].reg)
  {
    var lease := s.calls[c].lease;
    var p := lease.id.plugin;
    CallIsOnShelf(s, c);
    UpHoldsReceipt(s.ledger.live, p in s.shelf, p, s.books[p], OpOf(s.ops, p));
    var rc := s.books[p].record.receipt.value;
    hide LocalOk, Conserved, PluginOk, CallOk;
    assert Shelved(s.ledger, s.shelf, rc);
    assert lease.id.key in Elements(rc.keys);
  }

  lemma Claimant(s: State, key: CapKey) returns (rc: PluginRegistry.Receipt)
    requires Inv(s) && key in s.ledger.reg.table
    ensures rc in s.ledger.live && rc.owner == s.ledger.reg.table[key].owner && Claimed(s, rc)
  {
    assert Backed(s.ledger, key);
    rc :| rc in s.ledger.live && key in rc.keys && Owns(s.ledger.reg, rc, key);
  }

  lemma InForceIsUp(s: State, c: nat)
    requires Inv(s) && OwnShelf(s) && c in s.calls && s.calls[c].Holding?
    requires InForce(s, s.calls[c].lease, s.calls[c].reg)
    ensures IsUp(s, s.calls[c].lease.id.plugin)
  {
    var lease := s.calls[c].lease;
    var p := lease.id.plugin;
    CallIsOnShelf(s, c);
    UpHoldsReceipt(s.ledger.live, p in s.shelf, p, s.books[p], OpOf(s.ops, p));
    hide Inv, LocalOk;
    var rc := Claimant(s, lease.id.key);
  }

  ghost predicate Serves(s: State)
  {
    forall c :: c in s.calls && s.calls[c].Holding? ==> InForce(s, s.calls[c].lease, s.calls[c].reg)
  }

  // ---------------------------------------------------------------- steps

  ghost predicate StaysUp(s: State, t: State, p: PluginId) { IsUp(s, p) ==> IsUp(t, p) }

  predicate Loads(action: Action) { action.ALoadBegin? || action.ALoadValidate? || action.ALoadFinish? }

  lemma LoadingStaysUp(s: State, t: State, action: Action, p: PluginId)
    requires Does(s, t, action) && Loads(action) && (p in s.books ==> PluginOk(s, p))
    ensures StaysUp(s, t, p)
  {
    hide IsPlan, Filed, Quiet;
  }

  lemma ActivatingStaysUp(s: State, t: State, action: Action, p: PluginId)
    requires Does(s, t, action) && Raises(action) && !Loads(action) && (p in s.books ==> PluginOk(s, p))
    ensures StaysUp(s, t, p)
  {
    hide Commit, PluginRegistry.After, IsPlan, Filed, Quiet;
  }

  lemma LoweringStaysUp(s: State, t: State, action: Action, p: PluginId)
    requires Does(s, t, action) && ByManagement(action) && !Raises(action) && (p in s.books ==> PluginOk(s, p))
    requires action != AUnloadWithdraw(p)
    ensures StaysUp(s, t, p)
  {
    hide Unregister, PluginRegistry.After, Filed, Quiet;
  }
  lemma WithdrawalTakesDown(s: State, t: State, p: PluginId)
    requires UnloadWithdraw(s, t, p)
    ensures !IsUp(t, p)
  {
    hide Unregister, PluginRegistry.After;
  }

  /** A withdrawal of a plugin under one of its operations. */
  ghost predicate TakesAway(s: State, action: Action)
  {
    action.AUnloadWithdraw? && exists c :: c in s.calls && s.calls[c].Holding? && s.calls[c].lease.id.plugin == action.p
  }

  lemma KnownIsOk(s: State, p: PluginId)
    requires Inv(s) && p in s.books
    ensures PluginOk(s, p)
  {
  }

  lemma ManagementStaysUp(s: State, t: State, action: Action, p: PluginId)
    requires Inv(s) && Does(s, t, action) && ByManagement(action) && action != AUnloadWithdraw(p)
    ensures StaysUp(s, t, p)
  {
    if p in s.books { KnownIsOk(s, p); }
    hide Inv, PluginOk, StaysUp, Does;
    if Loads(action) {
      LoadingStaysUp(s, t, action, p);
    } else if Raises(action) {
      ActivatingStaysUp(s, t, action, p);
    } else {
      LoweringStaysUp(s, t, action, p);
    }
  }

  lemma UpExactly(s: State, t: State, action: Action, p: PluginId)
    requires Inv(s) && Does(s, t, action) && ByManagement(action) && IsUp(s, p)
    ensures IsUp(t, p) <==> action != AUnloadWithdraw(p)
  {
    hide Inv, IsUp, UnloadWithdraw;
    if action == AUnloadWithdraw(p) {
      WithdrawalTakesDown(s, t, p);
    } else {
      hide Does;
      ManagementStaysUp(s, t, action, p);
    }
  }

  lemma ServesExactly(s: State)
    requires Inv(s) && OwnShelf(s)
    ensures Serves(s) <==> forall c :: c in s.calls && s.calls[c].Holding? ==> IsUp(s, s.calls[c].lease.id.plugin)
  {
    hide Inv, OwnShelf, InForce, IsUp;
    forall c | c in s.calls && s.calls[c].Holding?
      ensures InForce(s, s.calls[c].lease, s.calls[c].reg) <==> IsUp(s, s.calls[c].lease.id.plugin)
    {
      if InForce(s, s.calls[c].lease, s.calls[c].reg) { InForceIsUp(s, c); }
      if IsUp(s, s.calls[c].lease.id.plugin) { UpIsInForce(s, c); }
    }
  }

  lemma ManagementExactly(s: State, t: State, action: Action)
    requires Inv(s) && Inv(t) && OwnShelf(s) && OwnShelf(t) && Serves(s) && Does(s, t, action) && ByManagement(action)
    ensures Serves(t) <==> !TakesAway(s, action)
  {
    ServesExactly(s);
    ServesExactly(t);
    ManagementKeepsLeases(s, t, action);
    hide Inv, OwnShelf, Serves, IsUp, Does;
    forall c | c in t.calls && t.calls[c].Holding?
      ensures IsUp(t, t.calls[c].lease.id.plugin) <==> action != AUnloadWithdraw(t.calls[c].lease.id.plugin)
    {
      UpExactly(s, t, action, t.calls[c].lease.id.plugin);
    }
  }

  /** Only call c moved, and no record, operation or publication did. */
  ghost predicate OnlyCall(s: State, t: State, c: nat)
  {
    && c in t.calls && t.calls == s.calls[c := t.calls[c]] && t.ops == s.ops && t.ledger == s.ledger
    && forall p :: p in s.books ==> p in t.books && t.books[p].record == s.books[p].record
  }

  lemma EntersAlone(s: State, t: State, c: nat, now: int)
    requires Enter(s, t, c, now)
    ensures OnlyCall(s, t, c)
  {
  }

  lemma LeavesAlone(s: State, t: State, c: nat)
    requires Leave(s, t, c)
    ensures OnlyCall(s, t, c) && !t.calls[c].Holding?
  {
  }

  lemma CallsMoveAlone(s: State, t: State, action: Action)
    requires Does(s, t, action) && !ByManagement(action)
    ensures OnlyCall(s, t, action.c)
    ensures !action.AEnter? ==> !t.calls[action.c].Holding?
  {
    hide Enter, Leave;
    if action.AEnter? {
      EntersAlone(s, t, action.c, action.now);
    } else if action.ALeave? {
      LeavesAlone(s, t, action.c);
    }
  }

  lemma OnlyCallServes(s: State, t: State, c: nat)
    requires Serves(s) && OnlyCall(s, t, c)
    requires t.calls[c].Holding? ==> InForce(t, t.calls[c].lease, t.calls[c].reg)
    ensures Serves(t)
  {
    forall d | d in t.calls && t.calls[d].Holding? ensures InForce(t, t.calls[d].lease, t.calls[d].reg) {
      if d != c { assert InForce(s, s.calls[d].lease, s.calls[d].reg); }
    }
  }

  lemma CallsServe(s: State, t: State, action: Action)
    requires Inv(s) && Inv(t) && Serves(s) && Does(s, t, action) && !ByManagement(action)
    ensures Serves(t)
  {
    CallsMoveAlone(s, t, action);
    hide Inv, Serves, Enter, OnlyCall, InForce, HeldCall;
    if action.AEnter? {
      EnterKnows(s, t, action.c, action.now);
      KnownIsFiled(s, s.calls[action.c].plugin);
      EnterAdds(s, t, action.c, action.now);
      assert action.c in t.calls;
      if t.calls[action.c].Holding? { RecordedIsInForce(t, action.c); }
    }
    OnlyCallServes(s, t, action.c);
  }

  lemma ForceStep(s: State, t: State, action: Action)
    requires Inv(s) && Inv(t) && OwnShelf(s) && OwnShelf(t) && Serves(s) && Does(s, t, action)
    ensures Serves(t) <==> !TakesAway(s, action)
  {
    if ByManagement(action) {
      hide Inv, OwnShelf, Serves, Does, TakesAway;
      ManagementExactly(s, t, action);
    } else {
      hide Inv, OwnShelf, Serves, Does;
      CallsServe(s, t, action);
    }
  }

  // ---------------------------------------------------------------- whole runs

  lemma {:induction false} RunOwnsShelf(states: seq<State>, actions: seq<Action>, k: nat)
    requires IsRun(states, actions) && k < |states|
    ensures OwnShelf(states[k])
  {
    hide Inv, Does, OwnShelf;
    if k == 0 {
      InitOwns(states[0]);
    } else {
      RunOwnsShelf(states, actions, k - 1);
      RunKeepsInv(states, actions, k - 1);
      StepOwnsShelf(states[k - 1], states[k], actions[k - 1]);
    }
  }

  lemma InitOwns(s: State)
    requires Init(s)
    ensures OwnShelf(s) && Serves(s)
  {
  }

  /** Over a whole run, every operation that runs under a lease keeps its plugin ACTIVE or DRAINING and
      its registration committed if and only if no plugin is withdrawn under one of its operations. */
  lemma {:induction false} InForceExactly(states: seq<State>, actions: seq<Action>, k: nat)
    requires IsRun(states, actions) && k < |states|
    ensures (forall i :: 0 <= i <= k ==> Serves(states[i])) <==> forall i :: 0 <= i < k ==> !TakesAway(states[i], actions[i])
  {
    hide Inv, OwnShelf, Does, Serves, TakesAway, Init;
    if k == 0 {
      InitOwns(states[0]);
    } else {
      InForceExactly(states, actions, k - 1);
      RunKeepsInv(states, actions, k - 1);
      RunKeepsInv(states, actions, k);
      RunOwnsShelf(states, actions, k - 1);
      RunOwnsShelf(states, actions, k);
      assert Does(states[k - 1], states[k], actions[k - 1]);
      if Serves(states[k - 1]) { ForceStep(states[k - 1], states[k], actions[k - 1]); }
    }
  }
}
