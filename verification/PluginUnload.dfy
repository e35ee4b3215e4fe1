/** What the manager can still do with a plugin, wherever a run of the system has got to. */
module PluginUnload {
  import opened Wrappers
  import opened Order
  import opened PluginRegistry
  import opened PluginLifecycle
  import opened PluginSystem
  import opened PluginSafety

  function Last(states: seq<State>): State
    requires states != []
  {
    states[|states| - 1]
  }

  /** A run, and one that goes on from where it ends. */
  ghost predicate Goes(states: seq<State>, actions: seq<Action>, longer: seq<State>, more: seq<Action>)
  {
    longer != [] && IsRun(longer, more) && states <= longer && actions <= more
  }

  lemma Step(states: seq<State>, actions: seq<Action>, t: State, action: Action) returns (longer: seq<State>, more: seq<Action>)
    requires states != [] && IsRun(states, actions) && Does(Last(states), t, action)
    ensures Goes(states, actions, longer, more) && IsRun(longer, more) && longer != [] && Last(longer) == t
  {
    hide Does, Init;
    longer, more := states + [t], actions + [action];
    forall i | 0 <= i < |more| ensures Does(longer[i], longer[i + 1], more[i]) {
      if i < |actions| { assert Does(states[i], states[i + 1], actions[i]); }
    }
  }

  lemma GoesOn(states: seq<State>, actions: seq<Action>, longer: seq<State>, more: seq<Action>, longest: seq<State>, most: seq<Action>)
    requires Goes(states, actions, longer, more) && Goes(longer, more, longest, most)
    ensures Goes(states, actions, longest, most)
  {
    hide IsRun;
  }

  // ---------------------------------------------------------------- steps

  /** Only plugin p has moved, and its record is this. */
  ghost predicate AtStage(s: State, t: State, p: PluginId, record: Record, stage: Option<Stage>)
    requires p in s.books
  {
    && t.ledger == s.ledger && t.shelf == s.shelf && t.calls == s.calls && t.prepared == s.prepared
    && t.books == s.books[p := s.books[p].(record := record)]
    && t.ops == if stage.Some? then s.ops[p := Operation(record, stage.value)] else s.ops - {p}
  }

  lemma DrainSteps(s: State, p: PluginId, unload: bool) returns (record: Record, u: State, v: State)
    requires Unlocked(s, p) && p in s.prepared && (s.books[p].record.phase.Active? || s.books[p].record.phase.Draining?)
    ensures record.phase.Draining? && record.receipt == s.books[p].record.receipt
    ensures Does(s, u, ADrainBegin(p, unload)) && Does(u, v, ADrainHook(p, false))
    ensures AtStage(s, v, p, record, Some(Waiting(unload)))
  {
    record := Move(s.books[p].record, Draining, Some(s.books[p].record.version), None, false).value;
    u := Turn(s, p, s.books[p].(record := record), Some(Operation(record, Quiescing(unload))));
    v := Turn(u, p, u.books[p].(record := record), Some(Operation(record, Waiting(unload))));
    assert v.books == s.books[p := s.books[p].(record := record)];
    assert v.ops == s.ops[p := Operation(record, Waiting(unload))];
  }

  lemma WaitStep(s: State, v: State, p: PluginId, record: Record) returns (t: State)
    requires p in s.books && AtStage(s, v, p, record, Some(Waiting(true))) && Quiet(s.books[p].leases)
    ensures Does(v, t, AWaitedForZero(p)) && AtStage(s, t, p, record, Some(Withdrawing))
  {
    t := Turn(v, p, v.books[p], Some(Operation(record, Withdrawing)));
    assert t.books == v.books;
    assert t.ops == s.ops[p := Operation(record, Withdrawing)];
  }

  lemma UnloadStep(s: State, p: PluginId) returns (t: State)
    requires Unlocked(s, p) && p in s.prepared && (s.books[p].record.phase.Registered? || s.books[p].record.phase.Unregistered?)
    ensures Does(s, t, AUnloadBegin(p))
    ensures var record := s.books[p].record;
            AtStage(s, t, p, record, Some(if record.phase.Registered? then Withdrawing else Unloading))
  {
    var record := s.books[p].record;
    t := Turn(s, p, s.books[p], Some(Operation(record, if record.phase.Registered? then Withdrawing else Unloading)));
    assert t.books == s.books[p := s.books[p].(record := record)];
  }

  /** What a withdrawal leaves. */
  function Withdrawal(u: State, p: PluginId, receipt: PluginRegistry.Receipt): State
    requires p in u.books && p in u.ops
  {
    Turn(u, p, u.books[p], Some(u.ops[p].(stage := Withdrawn))).(ledger := PluginRegistry.After(u.ledger, CallUnregister(receipt)))
  }

  lemma WithdrawDoes(u: State, p: PluginId) returns (v: State)
    requires Inv(u) && In(u, p, Withdrawing)
    ensures p in u.books && p in u.ops && u.ops[p].record.receipt.Some? && u.ops[p].record.receipt.value.owner == p
    ensures v == Withdrawal(u, p, u.ops[p].record.receipt.value) && Does(u, v, AUnloadWithdraw(p))
  {
    WithdrawTakes(u, p);
    hide Inv, Conserved, Unregister, PluginRegistry.After;
    v := Withdrawal(u, p, u.ops[p].record.receipt.value);
    assert UnloadWithdraw(u, v, p);
  }

  lemma MarkDoes(u: State, p: PluginId, receipt: PluginRegistry.Receipt) returns (record: Record, w: State)
    requires p in u.books && p in u.ops && u.ops[p].record == u.books[p].record
    requires u.books[p].record.phase.Registered? || u.books[p].record.phase.Draining?
    ensures Does(Withdrawal(u, p, receipt), w, AUnloadMark(p)) && In(w, p, Unloading)
    ensures w.books == u.books[p := u.books[p].(record := record)] && w.ledger == Withdrawal(u, p, receipt).ledger
  {
    hide PluginRegistry.After;
    var v := Withdrawal(u, p, receipt);
    record := Move(u.books[p].record, Unregistered, Some(u.ops[p].record.version), None, true).value;
    w := Turn(v, p, v.books[p].(record := record), Some(Operation(record, Unloading)));
    assert UnloadMark(v, w, p);
    assert w.books == u.books[p := u.books[p].(record := record)];
  }

  /** The withdrawal and its mark. */
  lemma WithdrawSteps(u: State, p: PluginId) returns (v: State, w: State)
    requires Inv(u) && In(u, p, Withdrawing)
    ensures Does(u, v, AUnloadWithdraw(p)) && Does(v, w, AUnloadMark(p)) && In(w, p, Unloading)
    ensures p in u.books && OthersStay(u, w, p)
    ensures w.books.Keys == u.books.Keys && forall q :: q in u.books && q != p ==> w.books[q] == u.books[q]
  {
    WithdrawingPhase(u, p);
    hide Inv, Does, In, PluginRegistry.After;
    v := WithdrawDoes(u, p);
    var record;
    record, w := MarkDoes(u, p, u.ops[p].record.receipt.value);
    TakesOwnKeys(u.ledger, u.ops[p].record.receipt.value);
  }

  lemma WithdrawingPhase(u: State, p: PluginId)
    requires Inv(u) && In(u, p, Withdrawing)
    ensures u.ops[p].record == u.books[p].record && (u.books[p].record.phase.Registered? || u.books[p].record.phase.Draining?)
  {
    assert PluginOk(u, p);
    hide Filed, Agree, Conserved;
  }

  /** Registrations of other plugins stay. */
  ghost predicate OthersStay(s: State, t: State, p: PluginId)
  {
    forall k :: k in s.ledger.reg.table && s.ledger.reg.table[k].owner != p ==>
      k in t.ledger.reg.table && t.ledger.reg.table[k] == s.ledger.reg.table[k]
  }

  lemma TakesOwnKeys(l: Ledger, receipt: PluginRegistry.Receipt)
    ensures var after := PluginRegistry.After(l, CallUnregister(receipt));
            forall k :: k in l.reg.table && l.reg.table[k].owner != receipt.owner ==> k in after.reg.table && after.reg.table[k] == l.reg.table[k]
  {
    ForeignKeysAreSafe(l.reg, receipt);
  }

  lemma HookStep(u: State, p: PluginId) returns (w: State)
    requires In(u, p, Unloading) && u.ops[p].record == u.books[p].record && u.books[p].record.phase.Unregistered?
    ensures Does(u, w, AUnloadHook(p)) && In(w, p, Unloading) && w.ledger == u.ledger
    ensures p in w.books && p in w.ops && w.ops[p].record == w.books[p].record && w.books[p].record.phase.Unregistered?
    ensures OnUnload in w.books[p].record.hooks
    ensures p in u.books && w.books.Keys == u.books.Keys && forall q :: q in u.books && q != p ==> w.books[q] == u.books[q]
  {
    var record := Mark(u.books[p].record, OnUnload);
    w := Turn(u, p, u.books[p].(record := record), Some(Operation(record, Unloading)));
    assert UnloadHook(u, w, p);
  }

  lemma FinishStep(w: State, p: PluginId) returns (t: State)
    requires In(w, p, Unloading) && w.ops[p].record == w.books[p].record && w.books[p].record.phase.Unregistered?
    ensures p in t.books && Does(w, t, AUnloadFinish(p)) && Unlocked(t, p) && t.books[p].record.phase.Unloaded? && t.ledger == w.ledger
    ensures t.books[p].record.hooks == w.books[p].record.hooks
    ensures t.books.Keys == w.books.Keys && (forall q :: q in w.books && q != p ==> t.books[q] == w.books[q])
  {
    var record := Move(w.books[p].record, Unloaded, Some(w.ops[p].record.version), None, false).value;
    t := Turn(w, p, w.books[p].(record := record), None).(prepared := w.prepared - {p});
  }

  // ---------------------------------------------------------------- whole runs

  /** The plugin is gone: its last hook has run, it is unloaded, its lock free and none of its keys
      registered; all else stays. */
  ghost predicate Gone(s: State, t: State, p: PluginId)
  {
    && Unlocked(t, p) && t.books[p].record.phase.Unloaded? && OnUnload in t.books[p].record.hooks && OthersStay(s, t, p)
    && (forall k :: k in t.ledger.reg.table ==> t.ledger.reg.table[k].owner != p)
    && t.books.Keys == s.books.Keys && forall q :: q in s.books && q != p ==> t.books[q] == s.books[q]
  }

  lemma RunStates(states: seq<State>, actions: seq<Action>)
    requires IsRun(states, actions)
    ensures |states| == |actions| + 1
  {
    hide Does, Init;
  }

  lemma LastKeepsInv(states: seq<State>, actions: seq<Action>)
    requires states != [] && IsRun(states, actions)
    ensures Inv(Last(states))
  {
    RunStates(states, actions);
    RunKeepsInv(states, actions, |states| - 1);
  }

  /** Nothing of an unloaded plugin is registered. */
  lemma UnloadedOwnsNothing(states: seq<State>, actions: seq<Action>, p: PluginId)
    requires states != [] && IsRun(states, actions) && Unlocked(Last(states), p) && Last(states).books[p].record.phase.Unloaded?
    ensures forall k :: k in Last(states).ledger.reg.table ==> Last(states).ledger.reg.table[k].owner != p
  {
    RunStates(states, actions);
    LifecycleAgreesWithRegistry(states, actions, |states| - 1, p);
  }

  lemma IsGone(s: State, t: State, p: PluginId)
    requires Unlocked(t, p) && t.books[p].record.phase.Unloaded? && OnUnload in t.books[p].record.hooks && OthersStay(s, t, p)
    requires forall k :: k in t.ledger.reg.table ==> t.ledger.reg.table[k].owner != p
    requires t.books.Keys == s.books.Keys && forall q :: q in s.books && q != p ==> t.books[q] == s.books[q]
    ensures Gone(s, t, p)
  {
  }

  lemma SameTable(s: State, t: State, p: PluginId)
    requires t.ledger == s.ledger
    ensures OthersStay(s, t, p)
  {
  }

  lemma UnloadingEnds(states: seq<State>, actions: seq<Action>, p: PluginId) returns (longer: seq<State>, more: seq<Action>)
    requires states != [] && IsRun(states, actions) && In(Last(states), p, Unloading)
    ensures Goes(states, actions, longer, more) && IsRun(longer, more) && longer != [] && Gone(Last(states), Last(longer), p)
  {
    var u := Last(states);
    LastKeepsInv(states, actions);
    UnloadingPhase(u, p);
    hide *;
    var w := HookStep(u, p);
    var t := FinishStep(w, p);
    var mid, done := Step(states, actions, w, AUnloadHook(p));
    longer, more := Step(mid, done, t, AUnloadFinish(p));
    GoesOn(states, actions, mid, done, longer, more);
    UnloadedOwnsNothing(longer, more, p);
    SameTable(u, t, p);
    IsGone(u, t, p);
  }

  lemma GoneOn(s: State, u: State, w: State, t: State, p: PluginId)
    requires OthersStay(s, u, p) && OthersStay(u, w, p) && Gone(w, t, p)
    requires p in s.books && s.books.Keys == u.books.Keys == w.books.Keys
    requires forall q :: q in s.books && q != p ==> u.books[q] == s.books[q] && w.books[q] == u.books[q]
    ensures Gone(s, t, p)
  {
  }

  lemma UnloadingPhase(w: State, p: PluginId)
    requires Inv(w) && In(w, p, Unloading)
    ensures p in w.ops && p in w.books && w.ops[p].record == w.books[p].record && w.books[p].record.phase.Unregistered?
  {
    assert PluginOk(w, p);
    hide Filed, Agree, Conserved;
  }

  lemma WithdrawingEnds(states: seq<State>, actions: seq<Action>, p: PluginId) returns (longer: seq<State>, more: seq<Action>)
    requires states != [] && IsRun(states, actions) && In(Last(states), p, Withdrawing)
    ensures Goes(states, actions, longer, more) && IsRun(longer, more) && longer != [] && Gone(Last(states), Last(longer), p)
  {
    var u := Last(states);
    LastKeepsInv(states, actions);
    hide *;
    var v, w := WithdrawSteps(u, p);
    var mid, done := Step(states, actions, v, AUnloadWithdraw(p));
    longer, more := Step(mid, done, w, AUnloadMark(p));
    GoesOn(states, actions, mid, done, longer, more);
    mid, done := longer, more;
    longer, more := UnloadingEnds(mid, done, p);
    GoesOn(states, actions, mid, done, longer, more);
    SameTable(u, u, p);
    GoneOn(u, u, w, Last(longer), p);
  }

  /** Up to where the withdrawal, or the end of the unload, is next. */
  lemma UnloadStarts(states: seq<State>, actions: seq<Action>, p: PluginId) returns (longer: seq<State>, more: seq<Action>)
    requires states != [] && IsRun(states, actions)
    requires var s := Last(states);
             && Unlocked(s, p) && p in s.prepared && Quiet(s.books[p].leases)
             && (Serving(s.books[p].record) || s.books[p].record.phase.Unregistered?)
    ensures Goes(states, actions, longer, more) && IsRun(longer, more) && longer != []
    ensures var s, t := Last(states), Last(longer);
            && t.ledger == s.ledger && p in s.books && t.books.Keys == s.books.Keys
            && (forall q :: q in s.books && q != p ==> t.books[q] == s.books[q])
            && (In(t, p, Withdrawing) || In(t, p, Unloading))
  {
    var s := Last(states);
    assert p in s.books && (s.books[p].record.phase.Active? || s.books[p].record.phase.Draining?
                            || s.books[p].record.phase.Registered? || s.books[p].record.phase.Unregistered?);
    hide *;
    if s.books[p].record.phase.Active? || s.books[p].record.phase.Draining? {
      var record, u, v := DrainSteps(s, p, true);
      var t := WaitStep(s, v, p, record);
      var mid, done := Step(states, actions, u, ADrainBegin(p, true));
      longer, more := Step(mid, done, v, ADrainHook(p, false));
      GoesOn(states, actions, mid, done, longer, more);
      mid, done := longer, more;
      longer, more := Step(mid, done, t, AWaitedForZero(p));
      GoesOn(states, actions, mid, done, longer, more);
      StageIs(s, t, p, record, Withdrawing);
    } else {
      var t := UnloadStep(s, p);
      longer, more := Step(states, actions, t, AUnloadBegin(p));
      StageIs(s, t, p, s.books[p].record, if s.books[p].record.phase.Registered? then Withdrawing else Unloading);
    }
  }

  lemma StageIs(s: State, t: State, p: PluginId, record: Record, stage: Stage)
    requires p in s.books && AtStage(s, t, p, record, Some(stage))
    ensures t.ledger == s.ledger && t.books.Keys == s.books.Keys && (forall q :: q in s.books && q != p ==> t.books[q] == s.books[q])
    ensures In(t, p, stage)
  {
  }

  /** A plugin that no operation is at work on and whose lock is free can be unloaded, wherever the run
      has got to: nothing of it stays registered, and nothing of the others is touched. */
  lemma IdleIsUnloaded(states: seq<State>, actions: seq<Action>, p: PluginId) returns (longer: seq<State>, more: seq<Action>)
    requires states != [] && IsRun(states, actions)
    requires var s := Last(states);
             && Unlocked(s, p) && p in s.prepared && Quiet(s.books[p].leases)
             && (Serving(s.books[p].record) || s.books[p].record.phase.Unregistered?)
    ensures Goes(states, actions, longer, more) && longer != [] && Gone(Last(states), Last(longer), p)
  {
    hide *;
    var mid, done := UnloadStarts(states, actions, p);
    var t := Last(mid);
    if In(t, p, Withdrawing) { longer, more := WithdrawingEnds(mid, done, p); }
    else { longer, more := UnloadingEnds(mid, done, p); }
    GoesOn(states, actions, mid, done, longer, more);
    SameTable(Last(states), t, p);
    SameTable(t, t, p);
    GoneOn(Last(states), t, t, Last(longer), p);
  }

  /** A drain that is cancelled takes the plugin back to ACTIVE in a new epoch, with the registration
      and the leases it had. */
  lemma DrainIsCancelled(states: seq<State>, actions: seq<Action>, p: PluginId) returns (longer: seq<State>, more: seq<Action>)
    requires states != [] && IsRun(states, actions) && Unlocked(Last(states), p) && Last(states).books[p].record.phase.Draining?
    ensures Goes(states, actions, longer, more) && longer != []
    ensures var s, t := Last(states), Last(longer);
            && t.ledger == s.ledger && Unlocked(t, p) && t.books[p].record.phase.Active?
            && t.books[p].record.epoch == s.books[p].record.epoch + 1 && t.books[p].record.receipt == s.books[p].record.receipt
            && t.books[p].leases == s.books[p].leases && t.books[p].released == s.books[p].released
  {
    var s := Last(states);
    RunStates(states, actions);
    LifecycleAgreesWithRegistry(states, actions, |states| - 1, p);
    var record := Move(s.books[p].record, Active, Some(s.books[p].record.version), None, false).value;
    var t := Turn(s, p, s.books[p].(record := record), None);
    assert Does(s, t, ACancelDrain(p));
    hide IsRun, Does, Goes;
    longer, more := Step(states, actions, t, ACancelDrain(p));
  }
}
