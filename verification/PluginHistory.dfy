/** What the lifecycle controller answers, and what its records and leases say after any history of
    calls. */
module PluginHistory {
  import opened Wrappers
  import PluginRegistry
  import opened PluginLifecycle

  type PluginId = PluginRegistry.PluginId
  type CapKey = PluginRegistry.CapKey
  type Given = Option<PluginRegistry.Receipt>

  // ---------------------------------------------------------------- one call

  /** The phases in the order a plugin passes through them. */
  function Rank(phase: Phase): nat
  {
    match phase
    case Discovered => 0 case Validated => 1 case Loaded => 2 case Registered => 3
    case Active => 4 case Draining => 5 case Unregistered => 6 case Unloaded => 7
  }

  /** One phase on; or back from a cancelled drain; or past activation, for a plugin never activated. */
  predicate OnTheWay(from: Phase, to: Phase)
  {
    Rank(to) == Rank(from) + 1 || (from.Draining? && to.Active?) || (from.Registered? && to.Unregistered?)
  }

  /** The expected version comes first, a repeated transition changes nothing, and only a transition
      on the way makes a new version: with the receipt cleared, given or kept, and a new epoch exactly
      on activation. */
  lemma MoveExactly(r: Record, target: Phase, expected: Option<nat>, receipt: Given, clear: bool)
    ensures var done := Move(r, target, expected, receipt, clear);
            var stale := expected.Some? && expected.value != r.version;
            && (done.Granted? <==> !stale && (r.phase == target || OnTheWay(r.phase, target)))
            && (done.Denied? ==> done.error == if stale then StaleRecord else WrongPhase)
            && (done.Granted? && r.phase == target ==> done.value == r)
            && (done.Granted? && r.phase != target ==>
                 && done.value.phase == target && done.value.version == r.version + 1
                 && done.value.epoch == r.epoch + (if target.Active? then 1 else 0)
                 && (clear ==> done.value.receipt.None?)
                 && (!clear && receipt.Some? ==> done.value.receipt == receipt)
                 && (!clear && receipt.None? ==> done.value.receipt == r.receipt)
                 && done.value.manifest == r.manifest && done.value.hooks == r.hooks)
  {
  }

  /** Exactly what an acquisition does: the lease a call in flight holds already, a new one of the
      current epoch, or the reason why not. */
  lemma TakeExactly(b: Book, p: PluginId, key: CapKey, run: nat, invocation: Option<nat>, now: int)
    ensures var done := Take(b, p, key, run, invocation, now);
            if invocation.None? then done == Denied(MissingInvocation)
            else
              var i, id := invocation.value, LeaseId(p, b.record.epoch, key, run, invocation.value);
              if i in b.leases && b.leases[i].id.key == key && b.leases[i].id.run == run then done == Granted(Taken(b, b.leases[i]))
              else if i !in b.leases && b.record.phase.Active? && id !in b.released then
                && done.Granted? && done.value.lease == Lease(id, now)
                && done.value.book.record == b.record && done.value.book.released == b.released
                && done.value.book.leases == b.leases[i := Lease(id, now)]
              else
                done == Denied(if i in b.leases then LeaseConflict else if b.record.phase.Draining? then Closing
                               else if !b.record.phase.Active? then NotActive else LeaseConflict)
  {
  }

  /** Exactly what a release does: nothing for a lease released before, the recorded lease goes and its
      identity is retired, anything else is refused. */
  lemma DropExactly(b: Book, p: PluginId, lease: Lease)
    requires Filed(b, p)
    ensures var done, i := Drop(b, lease), lease.id.invocation;
            && (done.Granted? <==> lease.id in b.released || (i in b.leases && b.leases[i] == lease))
            && (done.Denied? ==> done.error == LeaseConflict)
            && (done.Granted? && lease.id in b.released ==> done.value == b)
            && (done.Granted? && lease.id !in b.released ==>
                 && done.value.record == b.record && done.value.released == b.released + {lease.id}
                 && done.value.leases == map j | j in b.leases && b.leases[j] != lease :: b.leases[j])
  {
    if Drop(b, lease).Granted? && lease.id !in b.released {
      assert b.leases - {lease.id.invocation} == map j | j in b.leases && b.leases[j] != lease :: b.leases[j];
    }
  }

  // ---------------------------------------------------------------- histories

  /** The calls that activate the plugin. */
  function Activations(b: Book, p: PluginId, calls: seq<Call>): nat
    decreases |calls|
  {
    if calls == [] then 0
    else
      var next := After(b, p, calls[0]);
      (if next.record.phase.Active? && !b.record.phase.Active? then 1 else 0) + Activations(next, p, calls[1..])
  }

  /** The calls that change the record. */
  function RecordChanges(b: Book, p: PluginId, calls: seq<Call>): nat
    decreases |calls|
  {
    if calls == [] then 0
    else
      var next := After(b, p, calls[0]);
      (if next.record != b.record then 1 else 0) + RecordChanges(next, p, calls[1..])
  }

  ghost predicate Marked(calls: seq<Call>, hook: Hook) { exists i :: 0 <= i < |calls| && calls[i] == CallMark(hook) }

  /** After any history: the epoch counts the activations, the version counts the changes, and the
      hooks are those there were and those that were marked. */
  lemma {:induction false} RecordTellsTheCalls(b: Book, p: PluginId, calls: seq<Call>, hook: Hook)
    ensures var later := Execute(b, p, calls).record;
            && later.epoch == b.record.epoch + Activations(b, p, calls)
            && later.version == b.record.version + RecordChanges(b, p, calls)
            && (hook in later.hooks <==> hook in b.record.hooks || Marked(calls, hook))
    decreases |calls|
  {
    if calls != [] {
      var next := After(b, p, calls[0]);
      assert hook in next.record.hooks <==> hook in b.record.hooks || calls[0] == CallMark(hook);
      RecordTellsTheCalls(next, p, calls[1..], hook);
      assert calls == [calls[0]] + calls[1..];
      if i :| 0 <= i < |calls[1..]| && calls[1..][i] == CallMark(hook) { assert calls[i + 1] == CallMark(hook); }
      if i :| 0 <= i < |calls| && calls[i] == CallMark(hook) && i > 0 { assert calls[1..][i - 1] == CallMark(hook); }
    }
  }

  lemma {:induction false} ExecuteLast(b: Book, p: PluginId, calls: seq<Call>)
    requires calls != []
    ensures Execute(b, p, calls) == After(Execute(b, p, calls[..|calls| - 1]), p, calls[|calls| - 1])
    decreases |calls|
  {
    hide After;
    if |calls| > 1 {
      ExecuteLast(After(b, p, calls[0]), p, calls[1..]);
      assert calls[1..][..|calls| - 2] == calls[..|calls| - 1][1..];
    } else {
      assert calls[..0] == [] && calls[1..] == [];
    }
  }

  predicate InUse(b: Book, lease: Lease) { lease.id.invocation in b.leases && b.leases[lease.id.invocation] == lease }

  /** The call hands out the lease for the first time. */
  predicate Grants(b: Book, p: PluginId, call: Call, lease: Lease)
  {
    && call.CallTake? && call.invocation == Some(lease.id.invocation) && lease.id.invocation !in b.leases
    && lease == Lease(LeaseId(p, b.record.epoch, call.key, call.run, lease.id.invocation), call.now)
    && b.record.phase.Active? && lease.id !in b.released
  }

  lemma LeaseStep(b: Book, p: PluginId, call: Call, lease: Lease)
    requires Filed(b, p)
    ensures InUse(After(b, p, call), lease) <==> Grants(b, p, call, lease) || (InUse(b, lease) && call != CallDrop(lease))
  {
    match call {
      case CallMove(_, _, _, _) =>
      case CallMark(_) =>
      case CallTake(key, run, invocation, now) => TakeExactly(b, p, key, run, invocation, now);
      case CallDrop(other) => DropExactly(b, p, other);
    }
    hide Take, Drop, Move, Mark;
  }

  /** The lease was handed out by call j and not released since. */
  ghost predicate Outstanding(b: Book, p: PluginId, calls: seq<Call>, lease: Lease, j: int)
  {
    && 0 <= j < |calls| && Grants(Execute(b, p, calls[..j]), p, calls[j], lease)
    && forall i :: j < i < |calls| ==> calls[i] != CallDrop(lease)
  }

  lemma OutstandingOn(b: Book, p: PluginId, calls: seq<Call>, lease: Lease)
    requires calls != []
    ensures var front, last := calls[..|calls| - 1], calls[|calls| - 1];
            (exists j :: Outstanding(b, p, calls, lease, j)) <==>
              Grants(Execute(b, p, front), p, last, lease) || (last != CallDrop(lease) && exists j :: Outstanding(b, p, front, lease, j))
  {
    var n, front := |calls| - 1, calls[..|calls| - 1];
    forall i | 0 <= i < n ensures front[..i] == calls[..i] { }
    hide Execute, Grants;
    if j :| Outstanding(b, p, front, lease, j) && calls[n] != CallDrop(lease) { assert Outstanding(b, p, calls, lease, j); }
    if Grants(Execute(b, p, front), p, calls[n], lease) { assert Outstanding(b, p, calls, lease, n); }
    if j :| Outstanding(b, p, calls, lease, j) && j < n { assert Outstanding(b, p, front, lease, j); }
  }

  /** After any history of a plugin without leases: a lease is in use if and only if some call handed it
      out, while the plugin was ACTIVE in the lease's epoch, and no call has released it since. */
  lemma {:induction false} LeasesTellTheCalls(b: Book, p: PluginId, calls: seq<Call>, lease: Lease)
    requires Filed(b, p) && b.leases == map[]
    ensures InUse(Execute(b, p, calls), lease) <==> exists j :: Outstanding(b, p, calls, lease, j)
    decreases |calls|
  {
    if calls != [] {
      var front, last := calls[..|calls| - 1], calls[|calls| - 1];
      ExecuteKeepsFiled(b, p, front);
      ExecuteLast(b, p, calls);
      LeaseStep(Execute(b, p, front), p, last, lease);
      OutstandingOn(b, p, calls, lease);
      hide Execute, After, Filed, Outstanding, Grants, InUse;
      LeasesTellTheCalls(b, p, front, lease);
    }
  }
}
