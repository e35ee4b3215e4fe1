/** Durable side effects over every history of saves and deletions, by any clients: what a checkpoint
    records, its descendants record unchanged. */
module StoreHistory {
  import opened Wrappers
  import opened RunMachine
  import opened Checkpoints
  import opened CheckpointStore

  datatype Call = CallSave(c: Checkpoint) | CallDelete(ref: CheckpointRef)

  ghost function After(s: Store, call: Call): Store
  {
    match call
    case CallSave(c) => if Save(s, c).Saved? then Save(s, c).store else s
    case CallDelete(ref) => Remove(s, ref)
  }

  const EMPTY: Store := Store(map[], map[])

  /** The store after the first i calls. */
  ghost function At(calls: seq<Call>, i: nat): Store
    requires i <= |calls|
  {
    if i == 0 then EMPTY else After(At(calls, i - 1), calls[i - 1])
  }

  // ---------------------------------------------------------------- what is stored

  predicate Carries(a: Body, b: Body) { forall k :: k in a.effects ==> k in b.effects && b.effects[k] == a.effects[k] }

  /** p is the predecessor of r, stored for the same Run at an earlier sequence. A reference can be
      used again after a deletion, and then lies above those that named it before. */
  predicate Precedes(s: Store, p: CheckpointRef, r: CheckpointRef)
  {
    && p in s.checkpoints && r in s.checkpoints
    && var a, b := s.checkpoints[p].body, s.checkpoints[r].body;
       b.previous == Some(p) && a.run == b.run && a.sequence < b.sequence
  }

  ghost predicate AllCarried(s: Store)
  {
    forall p, r :: Precedes(s, p, r) ==> Carries(s.checkpoints[p].body, s.checkpoints[r].body)
  }

  lemma InsertCarries(s: Store, c: Checkpoint)
    requires Indexed(s) && AllCarried(s) && c.body.ref !in s.checkpoints && Save(s, c).Saved?
    ensures AllCarried(Save(s, c).store)
  {
    var t, added := Save(s, c).store, c.body.ref;
    SaveExactly(s, c);
    hide Save, Indexed;
    forall p, r | Precedes(t, p, r) ensures Carries(t.checkpoints[p].body, t.checkpoints[r].body) {
      if p != added && r != added { assert Precedes(s, p, r); }
    }
  }

  lemma StepCarries(s: Store, call: Call)
    requires Indexed(s) && AllCarried(s)
    ensures Indexed(After(s, call)) && AllCarried(After(s, call))
  {
    match call {
      case CallSave(c) =>
        if Save(s, c).Saved? {
          SaveKeepsIndex(s, c);
          if c.body.ref !in s.checkpoints { InsertCarries(s, c); } else { SaveAgainExactly(s, c); }
        }
      case CallDelete(ref) =>
        RemoveKeepsIndex(s, ref);
        hide Indexed;
        forall p, r | Precedes(After(s, call), p, r)
          ensures Carries(After(s, call).checkpoints[p].body, After(s, call).checkpoints[r].body)
        {
          assert Precedes(s, p, r);
        }
    }
  }

  lemma {:induction false} HistoryCarries(calls: seq<Call>, i: nat)
    requires i <= |calls|
    ensures Indexed(At(calls, i)) && AllCarried(At(calls, i))
  {
    if i > 0 {
      HistoryCarries(calls, i - 1);
      hide Indexed, AllCarried, After;
      StepCarries(At(calls, i - 1), calls[i - 1]);
    }
  }

  /** Stored checkpoints, each the predecessor of the next. */
  predicate IsChain(s: Store, chain: seq<CheckpointRef>)
  {
    && (forall i :: 0 <= i < |chain| ==> chain[i] in s.checkpoints)
    && forall i :: 0 <= i < |chain| - 1 ==> Precedes(s, chain[i], chain[i + 1])
  }

  lemma {:induction false} ChainCarries(s: Store, chain: seq<CheckpointRef>, i: nat, j: nat)
    requires AllCarried(s) && IsChain(s, chain) && i <= j < |chain|
    ensures Carries(s.checkpoints[chain[i]].body, s.checkpoints[chain[j]].body)
    decreases j
  {
    if i < j {
      ChainCarries(s, chain, i, j - 1);
      assert Precedes(s, chain[j - 1], chain[j]);
    }
  }

  /** After any history of saves and deletions, along any chain of stored checkpoints: a side effect
      that one of them records is recorded, unchanged, by all later ones. */
  lemma EffectsNeverLost(calls: seq<Call>, chain: seq<CheckpointRef>, i: nat, j: nat, key: nat)
    requires IsChain(At(calls, |calls|), chain) && i <= j < |chain|
    requires key in At(calls, |calls|).checkpoints[chain[i]].body.effects
    ensures var s := At(calls, |calls|);
            && key in s.checkpoints[chain[j]].body.effects
            && s.checkpoints[chain[j]].body.effects[key] == s.checkpoints[chain[i]].body.effects[key]
  {
    HistoryCarries(calls, |calls|);
    hide At, IsChain, AllCarried, Indexed;
    ChainCarries(At(calls, |calls|), chain, i, j);
  }

  // ---------------------------------------------------------------- what was saved

  /** The call stores a new checkpoint. */
  ghost predicate Stores(calls: seq<Call>, i: nat)
    requires i < |calls|
  {
    && calls[i].CallSave? && calls[i].c.body.ref !in At(calls, i).checkpoints && Save(At(calls, i), calls[i].c).Saved?
  }

  /** Saves of a history, each of a successor of the one before, which is still stored at that time. */
  ghost predicate IsLine(calls: seq<Call>, line: seq<nat>)
  {
    && (forall i :: 0 <= i < |line| ==> line[i] < |calls| && Stores(calls, line[i]))
    && forall i :: 0 <= i < |line| - 1 ==> Continues(calls, line[i], line[i + 1])
  }

  ghost predicate Continues(calls: seq<Call>, i: nat, j: nat)
    requires i < |calls| && j < |calls| && calls[i].CallSave? && calls[j].CallSave?
  {
    var a, b := calls[i].c, calls[j].c;
    b.body.previous == Some(a.body.ref) && a.body.ref in At(calls, j).checkpoints && At(calls, j).checkpoints[a.body.ref] == a
  }

  /** Along any line of saves nothing that was recorded is lost, also when what recorded it first is
      deleted later. */
  lemma {:induction false} SavesCarry(calls: seq<Call>, line: seq<nat>, i: nat, j: nat)
    requires IsLine(calls, line) && i <= j < |line|
    ensures Carries(calls[line[i]].c.body, calls[line[j]].c.body)
    decreases j
  {
    if i < j {
      SavesCarry(calls, line, i, j - 1);
      assert Continues(calls, line[j - 1], line[j]) && Stores(calls, line[j]);
      HistoryCarries(calls, line[j]);
      SaveExactly(At(calls, line[j]), calls[line[j]].c);
      hide At, Save, Indexed;
    }
  }
}
