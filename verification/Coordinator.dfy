/** Commit, orphan deletion and corrupt-marker fallback, one caller at a time. */
module Coordinator {
  import opened Wrappers
  import opened Order
  import opened RunMachine
  import opened RunStore
  import opened Checkpoints
  import opened CheckpointStore
  import Paging

  datatype Failure =
    | RunNotFound | RequiresWorkflowRun | IdentityMismatch | TerminalRun | StaleRunVersion
    | StaleMarkerOrSequence | IdentityConflictInStore | StoreRefused(error: StoreError) | CommitRefused
    | ChainCycle | NotOrphan | FallbackSourceMissing | FallbackUnavailable

  datatype Outcome<+T> = Done(value: T) | Raised(failure: Failure)

  // ---------------------------------------------------------------- chains in the store

  /** refs is followed by the predecessor links of the stored checkpoints. */
  ghost predicate Descends(s: Store, refs: seq<CheckpointRef>)
  {
    && refs != []
    && (forall i :: 0 <= i < |refs| ==> refs[i] in s.checkpoints)
    && (forall i :: 0 <= i < |refs| - 1 ==> s.checkpoints[refs[i]].body.previous == Some(refs[i + 1]))
  }

  /** The committed chain of a Run: every link stored, sequences falling by one to 1. */
  ghost predicate WholeChain(s: Store, run: RunId, scope: nat, marker: CheckpointRef, refs: seq<CheckpointRef>)
  {
    && Descends(s, refs) && refs[0] == marker
    && s.checkpoints[refs[|refs| - 1]].body.previous.None?
    && (forall i :: 0 <= i < |refs| ==>
         s.checkpoints[refs[i]].body.run == run && s.checkpoints[refs[i]].body.scope == scope
         && s.checkpoints[refs[i]].body.sequence == |refs| - i)
  }

  /** The checkpoint a gateway load hands out. */
  function GatewayLoad(s: Store, ref: CheckpointRef, run: RunId, scope: nat): Outcome<Checkpoint>
  {
    match Load(s, ref)
    case LoadRefused(e) => Raised(StoreRefused(e))
    case Loaded(c) => if c.body.ref != ref || c.body.run != run || c.body.scope != scope then Raised(IdentityMismatch) else Done(c)
  }

  // ---------------------------------------------------------------- save

  predicate FitsRun(c: Checkpoint, run: Run)
  {
    && c.body.run == run.id && c.body.definition == run.definition && c.body.graphVersion == run.graphVersion
    && c.body.attempt == run.attempt
  }

  /** What a save checks against the Run it read and the checkpoint that Run's marker names. */
  ghost predicate PassesChecks(s: Store, run: Run, c: Checkpoint, expected: nat)
  {
    && run.kind.Workflow? && Intact(c) && FitsRun(c, run) && !Terminal(run.status) && run.version == expected
    && c.body.previous == run.marker
    && (run.marker.None? ==> c.body.sequence == 1)
    && (run.marker.Some? ==>
         var previous := GatewayLoad(s, run.marker.value, run.id, c.body.scope);
         previous.Done? && c.body.sequence == previous.value.body.sequence + 1)
  }

  /** The checks and the store's decision, from the state they start in. */
  ghost predicate Admissible(s: Store, run: Run, c: Checkpoint, expected: nat)
  {
    PassesChecks(s, run, c, expected) && Save(s, c).Saved?
  }

  /** What stops a save, in the order in which it is noticed. */
  ghost function SaveFailure(s: Store, runs: map<RunId, Run>, c: Checkpoint, expected: nat): Option<Failure>
  {
    if c.body.run !in runs then Some(RunNotFound)
    else
      var run := runs[c.body.run];
      if !run.kind.Workflow? then Some(RequiresWorkflowRun)
      else if !Intact(c) then Some(StoreRefused(IntegrityFailure))
      else if !FitsRun(c, run) then Some(IdentityMismatch)
      else if Terminal(run.status) then Some(TerminalRun)
      else if run.marker == Some(c.body.ref) then
        var existing := GatewayLoad(s, c.body.ref, run.id, c.body.scope);
        if existing.Raised? then Some(existing.failure)
        else if existing.value.digest != c.digest then Some(IdentityConflictInStore) else None
      else if run.version != expected then Some(StaleRunVersion)
      else LinkFailure(s, run, c)
  }

  /** The same for the checks against the marker, and the store's own. */
  ghost function LinkFailure(s: Store, run: Run, c: Checkpoint): Option<Failure>
  {
    var previous := if run.marker.None? then None else Some(GatewayLoad(s, run.marker.value, run.id, c.body.scope));
    if previous.Some? && previous.value.Raised? then Some(previous.value.failure)
    else
      var next := if previous.None? then 1 else previous.value.value.body.sequence + 1;
      if c.body.previous != run.marker || c.body.sequence != next then Some(StaleMarkerOrSequence)
      else if Save(s, c).SaveRefused? then Some(StoreRefused(Save(s, c).error)) else None
  }

  class CheckpointCoordinator {
    const store: InMemoryCheckpointStore
    const runs: RunService

    constructor (store: InMemoryCheckpointStore, runs: RunService)
      ensures this.store == store && this.runs == runs
    {
      this.store := store;
      this.runs := runs;
    }

    ghost predicate Valid()
      reads store, runs.repository
    {
      store.Valid() && runs.repository.Valid()
    }

    method GetCheckpoint(ref: CheckpointRef, run: RunId, scope: nat) returns (result: Outcome<Checkpoint>)
      ensures result == GatewayLoad(store.View(), ref, run, scope)
    {
      var loaded := store.LoadCheckpoint(ref);
      match loaded {
        case LoadRefused(e) => result := Raised(StoreRefused(e));
        case Loaded(c) =>
          result := if c.body.ref != ref || c.body.run != run || c.body.scope != scope then Raised(IdentityMismatch) else Done(c);
      }
    }

    /** Store first, then move the Run's marker. A save either does both or leaves the marker. */
    method SaveAndCommit(c: Checkpoint, expected: nat, now: int) returns (result: Outcome<Run>)
      requires Valid() && c.body.sequence >= 1
      modifies store, runs.repository
      ensures Valid()
      ensures result.Done? <==>
        && c.body.run in old(runs.repository.runs)
        && var run := old(runs.repository.runs)[c.body.run];
           (Admissible(old(store.View()), run, c, expected) && run.marker != Some(c.body.ref))
           || AlreadyCommitted(old(store.View()), run, c)
      ensures result.Done? ==> result.value.marker == Some(c.body.ref) && c.body.ref in store.checkpoints
      ensures result.Done? && old(runs.repository.runs)[c.body.run].marker != Some(c.body.ref) ==>
        && store.View() == Save(old(store.View()), c).store
        && runs.repository.runs == old(runs.repository.runs)[c.body.run := result.value]
        && result.value.version == expected + 1
      ensures result.Raised? || old(runs.repository.runs)[c.body.run].marker == Some(c.body.ref) ==>
        runs.repository.runs == old(runs.repository.runs) && store.View() == old(store.View())
      ensures SaveFailure(old(store.View()), old(runs.repository.runs), c, expected) == if result.Done? then None else Some(result.failure)
    {
      hide Indexed, Apply, Save;
      var got := runs.repository.Get(c.body.run);
      if got.Refuse? { return Raised(RunNotFound); }
      var run := got.run;
      if !run.kind.Workflow? { return Raised(RequiresWorkflowRun); }
      if !Intact(c) { return Raised(StoreRefused(IntegrityFailure)); }
      if !FitsRun(c, run) { return Raised(IdentityMismatch); }
      if Terminal(run.status) { return Raised(TerminalRun); }
      if run.marker == Some(c.body.ref) {
        var existing := GetCheckpoint(c.body.ref, run.id, c.body.scope);
        if existing.Raised? { return Raised(existing.failure); }
        if existing.value.digest != c.digest { return Raised(IdentityConflictInStore); }
        return Done(run);
      }
      if run.version != expected { return Raised(StaleRunVersion); }
      var expectedSequence := 1;
      if run.marker.Some? {
        var previous := GetCheckpoint(run.marker.value, run.id, c.body.scope);
        if previous.Raised? { return Raised(previous.failure); }
        expectedSequence := previous.value.body.sequence + 1;
      }
      if c.body.previous != run.marker || c.body.sequence != expectedSequence { return Raised(StaleMarkerOrSequence); }
      var refused := store.SaveCheckpoint(c);
      if refused.Some? { return Raised(StoreRefused(refused.value)); }
      SavedIsStored(old(store.View()), c);
      CommitExactly(run, c.body.ref, run.marker, None, None, now);
      ApplyVersion(run, CommitCheckpoint(c.body.ref, run.marker, None, None), run.version, now);
      var reply := runs.Mutate(run.id, CommitCheckpoint(c.body.ref, run.marker, None, None), expected, now);
      result := Done(reply.run);
    }

    /** Walk the committed chain, then delete only what it does not contain. */
    method DeleteOrphan(run: RunId, scope: nat, target: CheckpointRef) returns (result: Outcome<bool>, ghost walked: seq<CheckpointRef>)
      requires Valid()
      modifies store
      ensures Valid()
      ensures store.View() == if result == Done(true) then Remove(old(store.View()), target) else old(store.View())
      ensures result.Done? ==> run in runs.repository.runs && target !in walked
      ensures result.Done? && runs.repository.runs[run].marker.Some? ==>
        && Descends(old(store.View()), walked) && walked[0] == runs.repository.runs[run].marker.value
        && old(store.View()).checkpoints[walked[|walked| - 1]].body.previous.None?
      ensures run in runs.repository.runs && runs.repository.runs[run].marker.Some? ==>
        forall refs :: WholeChain(old(store.View()), run, scope, runs.repository.runs[run].marker.value, refs) ==>
          && result != Raised(ChainCycle)
          && (result == Raised(NotOrphan) ==> target in refs)
          && (result.Done? ==> target !in refs)
          && (runs.repository.runs[run].kind.Workflow? && AllIntact(old(store.View()), refs) ==>
               result == Verdict(old(store.View()), run, scope, target, refs))
      ensures run in runs.repository.runs && runs.repository.runs[run].kind.Workflow? && runs.repository.runs[run].marker.None? ==>
        result == Verdict(old(store.View()), run, scope, target, [])
      ensures run !in runs.repository.runs ==> result == Raised(RunNotFound)
      ensures run in runs.repository.runs && !runs.repository.runs[run].kind.Workflow? ==> result == Raised(RequiresWorkflowRun)
    {
      hide Indexed;
      walked := [];
      var got := runs.repository.Get(run);
      if got.Refuse? { return Raised(RunNotFound), walked; }
      if !got.run.kind.Workflow? { return Raised(RequiresWorkflowRun), walked; }
      ghost var s := store.View();
      var reachable: set<CheckpointRef> := {};
      var current := got.run.marker;
      while current.Some?
        invariant store.View() == s && reachable == Elements(walked)
        invariant walked == [] ==> current == got.run.marker
        invariant walked != [] ==> Descends(s, walked) && got.run.marker == Some(walked[0])
        invariant walked != [] ==> current == s.checkpoints[walked[|walked| - 1]].body.previous
        decreases s.checkpoints.Keys - reachable
      {
        if current.value in reachable {
          CycleNeedsBrokenChain(s, run, scope, walked);
          return Raised(ChainCycle), walked;
        }
        var loaded := GetCheckpoint(current.value, run, scope);
        LoadsOnChain(s, run, scope, got.run.marker.value, walked, current.value);
        if loaded.Raised? { return Raised(loaded.failure), walked; }
        assert Elements(walked + [current.value]) == Elements(walked) + {current.value};
        walked := walked + [current.value];
        reachable := reachable + {current.value};
        current := loaded.value.body.previous;
      }
      if walked != [] { WalkIsChain(s, run, scope, walked); }
      if target in reachable { return Raised(NotOrphan), walked; }
      var error, deleted := store.DeleteCheckpoint(run, scope, target);
      if error.Some? { return Raised(StoreRefused(error.value)), walked; }
      result := Done(deleted);
    }
  }

  ghost predicate AllIntact(s: Store, refs: seq<CheckpointRef>)
  {
    forall i :: 0 <= i < |refs| ==> refs[i] in s.checkpoints && Intact(s.checkpoints[refs[i]])
  }

  /** What deleting the target is answered when refs is the committed chain: it is on the chain, it
      belongs to somebody else, or it is gone, and whether it was there. */
  function Verdict(s: Store, run: RunId, scope: nat, target: CheckpointRef, refs: seq<CheckpointRef>): Outcome<bool>
  {
    if target in refs then Raised(NotOrphan)
    else if target !in s.checkpoints then Done(false)
    else if s.checkpoints[target].body.run == run && s.checkpoints[target].body.scope == scope then Done(true)
    else Raised(StoreRefused(OwnershipMismatch))
  }

  /** On an intact committed chain every load of the walk answers. */
  lemma LoadsOnChain(s: Store, run: RunId, scope: nat, marker: CheckpointRef, walked: seq<CheckpointRef>, current: CheckpointRef)
    requires Indexed(s)
    requires walked == [] ==> current == marker
    requires walked != [] ==> walked[0] == marker && Descends(s, walked) && s.checkpoints[walked[|walked| - 1]].body.previous == Some(current)
    ensures forall refs :: WholeChain(s, run, scope, marker, refs) && AllIntact(s, refs) ==> GatewayLoad(s, current, run, scope).Done?
  {
    forall refs | WholeChain(s, run, scope, marker, refs) && AllIntact(s, refs) ensures GatewayLoad(s, current, run, scope).Done? {
      if walked == [] {
        assert refs[0] == current;
      } else {
        var last := |walked| - 1;
        WalkAgrees(s, run, scope, walked, refs, last);
        ChainStep(s, run, scope, marker, refs, last);
        assert refs[last + 1] == current;
      }
    }
  }

  /** The idempotent answer: the Run already names this checkpoint with this content. */
  ghost predicate AlreadyCommitted(s: Store, run: Run, c: Checkpoint)
  {
    && run.kind.Workflow? && Intact(c) && FitsRun(c, run) && !Terminal(run.status) && run.marker == Some(c.body.ref)
    && var existing := GatewayLoad(s, c.body.ref, run.id, c.body.scope);
       existing.Done? && existing.value.digest == c.digest
  }

  lemma SavedIsStored(s: Store, c: Checkpoint)
    requires Save(s, c).Saved?
    ensures c.body.ref in Save(s, c).store.checkpoints
  {
  }

  lemma ChainStep(s: Store, run: RunId, scope: nat, marker: CheckpointRef, refs: seq<CheckpointRef>, i: nat)
    requires WholeChain(s, run, scope, marker, refs) && i < |refs|
    ensures s.checkpoints[refs[i]].body.previous == if i + 1 < |refs| then Some(refs[i + 1]) else None
    ensures forall j :: 0 <= j < |refs| && refs[j] == refs[i] ==> j == i
  {
    forall j | 0 <= j < |refs| && refs[j] == refs[i] ensures j == i {
      assert s.checkpoints[refs[j]].body.sequence == |refs| - j;
    }
  }

  /** A walk along a whole chain is a prefix of it. */
  lemma {:induction false} WalkAgrees(s: Store, run: RunId, scope: nat, walked: seq<CheckpointRef>, refs: seq<CheckpointRef>, k: nat)
    requires Descends(s, walked) && WholeChain(s, run, scope, walked[0], refs) && k < |walked|
    ensures k < |refs| && walked[k] == refs[k]
  {
    if k > 0 {
      WalkAgrees(s, run, scope, walked, refs, k - 1);
      assert s.checkpoints[walked[k - 1]].body.previous == Some(walked[k]);
    }
  }

  /** On a whole chain the walk never comes back to a checkpoint it has seen. */
  lemma CycleNeedsBrokenChain(s: Store, run: RunId, scope: nat, walked: seq<CheckpointRef>)
    requires walked != [] && Descends(s, walked)
    requires var previous := s.checkpoints[walked[|walked| - 1]].body.previous;
             previous.Some? && previous.value in walked
    ensures forall refs :: !WholeChain(s, run, scope, walked[0], refs)
  {
    forall refs ensures !WholeChain(s, run, scope, walked[0], refs) {
      if WholeChain(s, run, scope, walked[0], refs) {
        var last := |walked| - 1;
        WalkAgrees(s, run, scope, walked, refs, last);
        var j :| 0 <= j < |walked| && walked[j] == s.checkpoints[walked[last]].body.previous.value;
        WalkAgrees(s, run, scope, walked, refs, j);
        ChainStep(s, run, scope, walked[0], refs, last);
      }
    }
  }

  /** A walk that ran to the end of a whole chain is the chain. */
  lemma WalkIsChain(s: Store, run: RunId, scope: nat, walked: seq<CheckpointRef>)
    requires walked != [] && Descends(s, walked) && s.checkpoints[walked[|walked| - 1]].body.previous.None?
    ensures forall refs :: WholeChain(s, run, scope, walked[0], refs) ==> walked == refs
  {
    forall refs | WholeChain(s, run, scope, walked[0], refs) ensures walked == refs {
      forall k | 0 <= k < |walked| ensures k < |refs| && walked[k] == refs[k] {
        WalkAgrees(s, run, scope, walked, refs, k);
      }
      var last := |walked| - 1;
      ChainStep(s, run, scope, walked[0], refs, last);
    }
  }
}
