/** Recovery's search for a usable checkpoint when the committed marker is corrupt. */
module Recovery {
  import opened Wrappers
  import opened Order
  import opened RunMachine
  import opened RunStore
  import opened Checkpoints
  import opened CheckpointStore
  import opened Coordinator
  import Paging

  datatype Found = Found(checkpoint: Checkpoint, fellBack: bool)

  /** The closest intact checkpoint at or below position k of a chain. */
  ghost function NearestOn(s: Store, refs: seq<CheckpointRef>, k: nat): (r: Outcome<Checkpoint>)
    requires forall i :: 0 <= i < |refs| ==> refs[i] in s.checkpoints
    ensures r.Raised? ==> r == Raised(FallbackUnavailable)
    decreases |refs| - k
  {
    if k >= |refs| then Raised(FallbackUnavailable)
    else if Intact(s.checkpoints[refs[k]]) then Done(s.checkpoints[refs[k]])
    else NearestOn(s, refs, k + 1)
  }

  /** What the search promises: a result is the first intact entry, and failure means none is. */
  lemma {:induction false} NearestMeaning(s: Store, refs: seq<CheckpointRef>, k: nat)
    requires forall i :: 0 <= i < |refs| ==> refs[i] in s.checkpoints
    ensures NearestOn(s, refs, k).Done? <==> exists i :: k <= i < |refs| && Intact(s.checkpoints[refs[i]])
    ensures NearestOn(s, refs, k).Done? ==>
      exists i :: k <= i < |refs| && NearestOn(s, refs, k).value == s.checkpoints[refs[i]]
        && Intact(s.checkpoints[refs[i]]) && forall j :: k <= j < i ==> !Intact(s.checkpoints[refs[j]])
    decreases |refs| - k
  {
    if k < |refs| && !Intact(s.checkpoints[refs[k]]) {
      NearestMeaning(s, refs, k + 1);
    }
  }

  /** The Run's checkpoints as the paging loop gathers them. */
  ghost function ByRef(s: Store, run: RunId, scope: nat): map<CheckpointRef, Checkpoint>
  {
    map r | r in s.checkpoints && s.checkpoints[r].body.run == run && s.checkpoints[r].body.scope == scope :: s.checkpoints[r]
  }

  /** The walk below a corrupt marker over any gathered table, with its cycle guard. */
  function FallbackWalk(byRef: map<CheckpointRef, Checkpoint>, candidate: Option<CheckpointRef>, seen: set<CheckpointRef>): Outcome<Checkpoint>
    decreases byRef.Keys - seen
  {
    if candidate.None? then Raised(FallbackUnavailable)
    else if candidate.value in seen then Raised(ChainCycle)
    else if candidate.value !in byRef then Raised(FallbackUnavailable)
    else if Intact(byRef[candidate.value]) then Done(byRef[candidate.value])
    else FallbackWalk(byRef, byRef[candidate.value].body.previous, seen + {candidate.value})
  }

  /** One step of the walk: refs[i] is on the chain, so the listing has it. */
  lemma ChainIsListed(s: Store, run: RunId, scope: nat, marker: CheckpointRef, refs: seq<CheckpointRef>, i: nat)
    requires WholeChain(s, run, scope, marker, refs) && i < |refs|
    ensures refs[0] == marker
    ensures refs[i] in ByRef(s, run, scope) && ByRef(s, run, scope)[refs[i]] == s.checkpoints[refs[i]]
    ensures s.checkpoints[refs[i]].body.previous == if i + 1 < |refs| then Some(refs[i + 1]) else None
    ensures forall j :: 0 <= j < i ==> refs[j] != refs[i]
  {
    ChainStep(s, run, scope, marker, refs, i);
  }

  /** From the k-th entry of a whole chain on, the walk is the search for the nearest intact entry. */
  lemma {:induction false} WalkIsSearch(s: Store, run: RunId, scope: nat, marker: CheckpointRef, refs: seq<CheckpointRef>, k: nat)
    requires WholeChain(s, run, scope, marker, refs) && 1 <= k <= |refs|
    ensures FallbackWalk(ByRef(s, run, scope), if k < |refs| then Some(refs[k]) else None, Elements(refs[..k])) == NearestOn(s, refs, k)
    decreases |refs| - k
  {
    if k < |refs| {
      ChainIsListed(s, run, scope, marker, refs, k);
      assert refs[k] !in refs[..k];
      assert refs[..k + 1] == refs[..k] + [refs[k]];
      assert Elements(refs[..k + 1]) == Elements(refs[..k]) + {refs[k]};
      hide WholeChain, ByRef;
      WalkIsSearch(s, run, scope, marker, refs, k + 1);
    }
  }

  /** The walk below a corrupt marker, over the gathered checkpoints. On a whole chain it is the
      nearest intact ancestor, and the cycle guard does not fire. */
  method WalkBack(byRef: map<CheckpointRef, Checkpoint>, marker: CheckpointRef, ghost s: Store, run: RunId, scope: nat)
    returns (result: Outcome<Checkpoint>)
    requires byRef == ByRef(s, run, scope)
    ensures result.Done? ==> Intact(result.value) && exists r :: r in byRef && byRef[r] == result.value
    ensures result == if marker !in byRef then Raised(FallbackSourceMissing)
                      else FallbackWalk(byRef, byRef[marker].body.previous, {marker})
    ensures forall refs :: WholeChain(s, run, scope, marker, refs) ==> result == NearestOn(s, refs, 1)
  {
    forall refs | WholeChain(s, run, scope, marker, refs)
      ensures marker in byRef && FallbackWalk(byRef, byRef[marker].body.previous, {marker}) == NearestOn(s, refs, 1)
    {
      ChainIsListed(s, run, scope, marker, refs, 0);
      WalkIsSearch(s, run, scope, marker, refs, 1);
      assert Elements(refs[..1]) == {marker};
    }
    hide WholeChain, ByRef, NearestOn;
    if marker !in byRef { return Raised(FallbackSourceMissing); }
    var candidate := byRef[marker].body.previous;
    var seen := {marker};
    while candidate.Some?
      invariant seen <= byRef.Keys
      invariant FallbackWalk(byRef, candidate, seen) == FallbackWalk(byRef, byRef[marker].body.previous, {marker})
      decreases byRef.Keys - seen
    {
      if candidate.value in seen { return Raised(ChainCycle); }
      if candidate.value !in byRef { return Raised(FallbackUnavailable); }
      var item := byRef[candidate.value];
      if Intact(item) { return Done(item); }
      seen := seen + {candidate.value};
      candidate := item.body.previous;
    }
    result := Raised(FallbackUnavailable);
  }

  /** The search on any store. */
  ghost function Searched(s: Store, run: RunId, scope: nat, marker: CheckpointRef): Outcome<Checkpoint>
  {
    var byRef := ByRef(s, run, scope);
    if marker !in byRef then Raised(FallbackSourceMissing) else FallbackWalk(byRef, byRef[marker].body.previous, {marker})
  }

  lemma {:induction false} WalkAvoids(byRef: map<CheckpointRef, Checkpoint>, candidate: Option<CheckpointRef>, seen: set<CheckpointRef>)
    requires forall r :: r in byRef ==> byRef[r].body.ref == r
    ensures var found := FallbackWalk(byRef, candidate, seen);
            found.Done? ==> found.value.body.ref !in seen && found.value.body.ref in byRef && byRef[found.value.body.ref] == found.value
    decreases byRef.Keys - seen
  {
    if candidate.Some? && candidate.value !in seen && candidate.value in byRef && !Intact(byRef[candidate.value]) {
      WalkAvoids(byRef, byRef[candidate.value].body.previous, seen + {candidate.value});
    }
  }

  /** What the search finds is stored, and is not the marker. */
  lemma SearchedIsOther(s: Store, run: RunId, scope: nat, marker: CheckpointRef)
    requires Indexed(s)
    ensures var found := Searched(s, run, scope, marker);
            found.Done? ==> found.value.body.ref != marker && found.value.body.ref in s.checkpoints
  {
    var byRef := ByRef(s, run, scope);
    if marker in byRef { WalkAvoids(byRef, byRef[marker].body.previous, {marker}); }
  }

  method Gather(store: InMemoryCheckpointStore, run: RunId, scope: nat) returns (byRef: map<CheckpointRef, Checkpoint>)
    requires store.Valid()
    ensures byRef == ByRef(store.View(), run, scope)
  {
    var listed := Paging.ListAll(store, run, scope, None, 1000, _ => 1000);
    var items := listed.value;
    ghost var s := store.View();
    var q := Query(Fingerprint(store.provider, run, scope, None, 1000), None);
    assert forall c :: c in items <==> c in Matching(s, q) by {
      forall c ensures c in items <==> c in Matching(s, q) { assert c in items <==> c in Elements(items); }
    }
    byRef := map c | c in items :: c.body.ref := c;
    forall r ensures r in byRef <==> r in ByRef(s, run, scope) {
      if r in ByRef(s, run, scope) { assert s.checkpoints[r] in Matching(s, q); }
    }
  }

  class RecoveryCoordinator {
    const checkpoints: CheckpointCoordinator

    constructor (checkpoints: CheckpointCoordinator)
      ensures this.checkpoints == checkpoints
    {
      this.checkpoints := checkpoints;
    }

    /** Load the marker, or fall back from a corrupt one and move the marker to the nearest intact
        ancestor. The fallback is announced first, and a refused announcement stops it. */
    method LoadWithFallback(run: Run, marker: CheckpointRef, scope: nat, allowFallback: bool, announced: bool, now: int)
      returns (result: Outcome<Found>)
      requires checkpoints.Valid() && run.id in checkpoints.runs.repository.runs
      requires checkpoints.runs.repository.runs[run.id] == run && run.marker == Some(marker) && run.kind.Workflow? && !Terminal(run.status)
      modifies checkpoints.runs.repository
      ensures checkpoints.Valid() && checkpoints.store.View() == old(checkpoints.store.View())
      ensures result.Done? ==> Intact(result.value.checkpoint)
      ensures result.Raised? || !result.value.fellBack ==> checkpoints.runs.repository.runs == old(checkpoints.runs.repository.runs)
      ensures forall refs :: WholeChain(checkpoints.store.View(), run.id, scope, marker, refs) ==>
        if Intact(checkpoints.store.checkpoints[marker]) then
          result == Done(Found(checkpoints.store.checkpoints[marker], false))
        else if !allowFallback then result == Raised(StoreRefused(IntegrityFailure))
        else
          var nearest := NearestOn(checkpoints.store.View(), refs, 1);
          && (nearest.Raised? ==> result == Raised(FallbackUnavailable))
          && (nearest.Done? && announced ==>
               && result == Done(Found(nearest.value, true)) && run.id in checkpoints.runs.repository.runs
               && checkpoints.runs.repository.runs[run.id].marker == Some(nearest.value.body.ref))
          && (nearest.Done? && !announced ==> result.Raised?)
      ensures var s, loaded := checkpoints.store.View(), GatewayLoad(checkpoints.store.View(), marker, run.id, scope);
        if loaded.Done? then result == Done(Found(loaded.value, false))
        else if loaded.failure != StoreRefused(IntegrityFailure) || !allowFallback then result == Raised(loaded.failure)
        else
          var found := Searched(s, run.id, scope, marker);
          if found.Raised? then result == Raised(found.failure)
          else if !announced then result == Raised(CommitRefused)
          else
            && result == Done(Found(found.value, true)) && run.id in checkpoints.runs.repository.runs
            && checkpoints.runs.repository.runs[run.id].marker == Some(found.value.body.ref)
            && checkpoints.runs.repository.runs[run.id].version == run.version + 1
            && checkpoints.runs.repository.runs == old(checkpoints.runs.repository.runs)[run.id := checkpoints.runs.repository.runs[run.id]]
    {
      hide Indexed, Apply, NearestOn;
      MarkerLoad(checkpoints.store.View(), run.id, scope, marker);
      var loaded := checkpoints.GetCheckpoint(marker, run.id, scope);
      if loaded.Done? { return Done(Found(loaded.value, false)); }
      if loaded.failure != StoreRefused(IntegrityFailure) || !allowFallback { return Raised(loaded.failure); }
      var byRef := Gather(checkpoints.store, run.id, scope);
      var candidate := WalkBack(byRef, marker, checkpoints.store.View(), run.id, scope);
      if candidate.Raised? { return Raised(candidate.failure); }
      if !announced { return Raised(CommitRefused); }
      SearchedIsOther(checkpoints.store.View(), run.id, scope, marker);
      var ref := candidate.value.body.ref;
      CommitExactly(run, ref, Some(marker), None, None, now);
      ApplyVersion(run, CommitCheckpoint(ref, Some(marker), None, None), run.version, now);
      var reply := checkpoints.runs.Mutate(run.id, CommitCheckpoint(ref, Some(marker), None, None), run.version, now);
      if reply.Refuse? { return Raised(CommitRefused); }
      result := Done(Found(candidate.value, true));
    }
  }

  lemma MarkerLoad(s: Store, run: RunId, scope: nat, marker: CheckpointRef)
    requires Indexed(s)
    ensures forall refs :: WholeChain(s, run, scope, marker, refs) ==>
      && marker in s.checkpoints
      && GatewayLoad(s, marker, run, scope)
           == if Intact(s.checkpoints[marker]) then Done(s.checkpoints[marker]) else Raised(StoreRefused(IntegrityFailure))
  {
    forall refs | WholeChain(s, run, scope, marker, refs)
      ensures marker in s.checkpoints
      ensures GatewayLoad(s, marker, run, scope)
           == if Intact(s.checkpoints[marker]) then Done(s.checkpoints[marker]) else Raised(StoreRefused(IntegrityFailure))
    {
      ChainIsListed(s, run, scope, marker, refs, 0);
    }
  }
}
