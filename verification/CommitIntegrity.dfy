/** When the markers head whole chains: exactly as long as no commit finds its checkpoint gone and no
    deletion hits a committed chain; and why that follows when nobody deletes what is being saved. */
module CommitIntegrity {
  import opened Wrappers
  import opened RunMachine
  import opened Checkpoints
  import opened CheckpointStore
  import opened Coordinator
  import opened Chains
  import opened CommitProtocol
  import opened CommitSafety

  // ---------------------------------------------------------------- whole markers

  ghost predicate MarkerWhole(s: State, id: RunId)
    requires id in s.runs
  {
    s.runs[id].marker.Some? ==> exists scope, refs :: WholeChain(s.store, id, scope, s.runs[id].marker.value, refs)
  }

  /** Every marker names a stored checkpoint of its Run whose predecessors are all stored and fall by
      one to sequence 1. */
  ghost predicate EveryMarkerWhole(s: State) { forall id :: id in s.runs ==> MarkerWhole(s, id) }

  /** The same through the record of links. */
  ghost predicate MarkerStored(s: State, id: RunId)
    requires id in s.runs
  {
    s.runs[id].marker.Some? ==> AllStored(s.store, s.links, s.runs[id].marker.value)
  }

  ghost predicate MarkersStored(s: State) { forall id :: id in s.runs ==> MarkerStored(s, id) }

  lemma {:induction false} ChainInRefs(store: Store, links: Links, run: RunId, scope: nat, marker: CheckpointRef,
                                       refs: seq<CheckpointRef>, i: nat, t: CheckpointRef)
    requires LinksOk(links) && StoredAgrees(store, links) && WholeChain(store, run, scope, marker, refs)
    requires i < |refs| && InChain(links, refs[i], t)
    ensures t in store.checkpoints
    decreases |refs| - i
  {
    assert SameLinks(store.checkpoints[refs[i]], links[refs[i]]);
    if t != refs[i] {
      PrevIsPrevious(links, refs[i]);
      assert i + 1 < |refs|;
      ChainInRefs(store, links, run, scope, marker, refs, i + 1, t);
    }
  }

  lemma WholeIffStored(s: State, id: RunId)
    requires Inv(s) && id in s.runs
    ensures MarkerWhole(s, id) <==> MarkerStored(s, id)
  {
    assert RunOk(s, id);
    hide Indexed, ClientOk;
    if s.runs[id].marker.Some? {
      var marker := s.runs[id].marker.value;
      if MarkerStored(s, id) {
        UnbrokenIsWhole(s.store, s.links, marker);
      }
      if MarkerWhole(s, id) {
        var scope, refs :| WholeChain(s.store, id, scope, marker, refs);
        forall t | InChain(s.links, marker, t) ensures t in s.store.checkpoints {
          ChainInRefs(s.store, s.links, id, scope, marker, refs, 0, t);
        }
      }
    }
  }

  // ---------------------------------------------------------------- one step

  /** A commit that goes through finds its checkpoint stored, and a deletion's target is on no
      current marker's chain. */
  ghost predicate Safe(s: State, action: Action)
  {
    match action
    case ACommit(a, now) =>
      a in s.clients && s.clients[a].Committing? && s.clients[a].run.id in s.runs
      && Apply(s.runs[s.clients[a].run.id], CommitOp(s.clients[a].run, s.clients[a].c, s.clients[a].migrate), s.clients[a].run.version, now).Ok?
      ==> s.clients[a].c.body.ref in s.store.checkpoints
    case ADeleteFinish(a) => a in s.clients && s.clients[a].Walking? ==> Spared(s, s.clients[a].target)
    case _ => true
  }

  ghost predicate Spared(s: State, target: CheckpointRef)
  {
    forall id :: id in s.runs && s.runs[id].marker.Some? ==> !InChain(s.links, s.runs[id].marker.value, target)
  }

  /** The Runs keep their markers, and the store loses nothing. */
  lemma SameMarkers(s: State, t: State)
    requires MarkersStored(s) && t.links == s.links && s.store.checkpoints.Keys <= t.store.checkpoints.Keys
    requires forall id :: id in t.runs && t.runs[id].marker.Some? ==> id in s.runs && s.runs[id].marker == t.runs[id].marker
    ensures MarkersStored(t)
  {
    forall id | id in t.runs ensures MarkerStored(t, id) {
      if t.runs[id].marker.Some? { assert MarkerStored(s, id); }
    }
  }

  lemma MutateStored(s: State, t: State, id: RunId, op: Op, expected: nat, now: int)
    requires MarkersStored(s) && Mutate(s, t, id, op, expected, now)
    ensures MarkersStored(t)
  {
    MarkerMovesByCommit(s.runs[id], op, expected, now);
    hide Apply;
    SameMarkers(s, t);
  }

  lemma StorePhaseStored(s: State, t: State, a: nat)
    requires Inv(s) && MarkersStored(s) && StorePhase(s, t, a) && PlacesKept(s, AStore(a))
    ensures MarkersStored(t)
  {
    assert ClientOk(s, s.clients[a]);
    StoreGrows(s, s.clients[a].c);
    hide Indexed, StoredAgrees, Save, ClientOk;
    forall id | id in t.runs ensures MarkerStored(t, id) {
      assert RunOk(s, id) && MarkerStored(s, id);
      if s.runs[id].marker.Some? {
        forall r | InChain(t.links, s.runs[id].marker.value, r) ensures r in t.store.checkpoints {
          ChainStable(s.links, t.links, s.runs[id].marker.value, r);
        }
      }
    }
  }

  /** One Run's marker moved. */
  lemma OneMarkerMoved(s: State, t: State, id: RunId)
    requires MarkersStored(s) && id in s.runs && id in t.runs && t.runs == s.runs[id := t.runs[id]]
    requires t.store == s.store && t.links == s.links
    ensures MarkersStored(t) <==> MarkerStored(t, id)
  {
    forall i | i in t.runs && i != id ensures MarkerStored(t, i) { assert MarkerStored(s, i); }
  }

  lemma CommitStoredExactly(s: State, t: State, a: nat, now: int)
    requires Inv(s) && MarkersStored(s) && Commit(s, t, a, now)
    ensures MarkersStored(t) <==> Safe(s, ACommit(a, now))
  {
    var run, c, migrate := s.clients[a].run, s.clients[a].c, s.clients[a].migrate;
    assert ClientOk(s, s.clients[a]);
    var done := Apply(s.runs[run.id], CommitOp(run, c, migrate), run.version, now);
    if done.Ok? {
      CommitReplacesRead(s, run, c.body.ref, CommitOp(run, c, migrate), now);
      hide Apply;
      assert RunOk(s, run.id) && MarkerStored(s, run.id);
      PlacedExtends(s, run, c);
      assert InChain(s.links, c.body.ref, c.body.ref);
      hide Unbroken, InChain, Indexed, LinksOk, StoredAgrees, ClientOk;
      OneMarkerMoved(s, t, run.id);
    } else {
      SameMarkers(s, t);
    }
  }

  lemma FallbackStored(s: State, t: State, a: nat, now: int)
    requires Inv(s) && MarkersStored(s) && FallbackCommit(s, t, a, now)
    ensures MarkersStored(t)
  {
    var run, candidate := s.clients[a].run, s.clients[a].candidate;
    assert ClientOk(s, s.clients[a]);
    var op := CommitCheckpoint(candidate.body.ref, run.marker, None, None);
    var done := Apply(s.runs[run.id], op, run.version, now);
    if done.Ok? {
      CommitReplacesRead(s, run, candidate.body.ref, op, now);
      hide Apply;
      assert RunOk(s, run.id) && MarkerStored(s, run.id);
      AncestorKeeps(s.links, run.marker.value, candidate.body.ref);
      hide Unbroken, InChain, Indexed, LinksOk, StoredAgrees, ClientOk;
      OneMarkerMoved(s, t, run.id);
    } else {
      SameMarkers(s, t);
    }
  }

  lemma DeleteStoredExactly(s: State, t: State, a: nat)
    requires MarkersStored(s) && DeleteFinish(s, t, a)
    ensures MarkersStored(t) <==> Safe(s, ADeleteFinish(a))
  {
    var target := s.clients[a].target;
    hide InChain;
    if Spared(s, target) {
      forall id | id in t.runs ensures MarkerStored(t, id) { assert MarkerStored(s, id); }
    } else {
      var id :| id in s.runs && s.runs[id].marker.Some? && InChain(s.links, s.runs[id].marker.value, target);
      assert MarkerStored(s, id) && !MarkerStored(t, id);
    }
  }

  lemma CorruptStored(s: State, t: State, r: CheckpointRef, c: Checkpoint)
    requires Inv(s) && MarkersStored(s) && Corrupt(s, t, r, c)
    ensures MarkersStored(t)
  {
    CorruptKeepsStore(s, t, r, c);
    hide Inv;
    SameMarkers(s, t);
  }

  predicate Quiet(action: Action)
  {
    !action.AMutate? && !action.AStore? && !action.ACommit? && !action.ADeleteFinish? && !action.AFallbackCommit? && !action.ACorrupt?
  }

  lemma QuietStored(s: State, t: State, action: Action)
    requires MarkersStored(s) && Does(s, t, action) && Quiet(action)
    ensures MarkersStored(t)
  {
    hide MarkersStored, Save, Apply;
    SameMarkers(s, t);
  }

  /** One step from whole markers leaves them whole if and only if it is safe. */
  lemma StepExactly(s: State, t: State, action: Action)
    requires Inv(s) && MarkersStored(s) && Does(s, t, action) && PlacesKept(s, action)
    ensures MarkersStored(t) <==> Safe(s, action)
  {
    hide Inv, MarkersStored, PlacesKept, Spared;
    if Quiet(action) {
      hide Does;
      QuietStored(s, t, action);
    } else {
      hide Mutate, StorePhase, Commit, DeleteFinish, FallbackCommit, Corrupt;
      match action {
        case AMutate(id, op, expected, now) => MutateStored(s, t, id, op, expected, now);
        case AStore(a) => StorePhaseStored(s, t, a);
        case ACommit(a, now) => CommitStoredExactly(s, t, a, now);
        case ADeleteFinish(a) => DeleteStoredExactly(s, t, a);
        case AFallbackCommit(a, now) => FallbackStored(s, t, a, now);
        case ACorrupt(r, c) => CorruptStored(s, t, r, c);
      }
    }
  }

  // ---------------------------------------------------------------- whole runs

  lemma {:induction false} SafeRunStored(states: seq<State>, actions: seq<Action>, k: nat)
    requires IsRun(states, actions) && AllPlacesKept(states, actions) && k < |states|
    requires forall i :: 0 <= i < k ==> Safe(states[i], actions[i])
    ensures MarkersStored(states[k])
  {
    if k > 0 {
      SafeRunStored(states, actions, k - 1);
      RunKeepsInv(states, actions, k - 1);
      StepExactly(states[k - 1], states[k], actions[k - 1]);
    }
  }

  /** Over any run: every marker is whole in every state if and only if every commit that goes
      through finds its checkpoint stored and no deletion hits a current marker's chain. */
  lemma MarkersWholeExactly(states: seq<State>, actions: seq<Action>)
    requires IsRun(states, actions) && AllPlacesKept(states, actions)
    ensures (forall k :: 0 <= k < |states| ==> EveryMarkerWhole(states[k]))
       <==> (forall i :: 0 <= i < |actions| ==> Safe(states[i], actions[i]))
  {
    forall k | 0 <= k < |states| ensures EveryMarkerWhole(states[k]) <==> MarkersStored(states[k]) {
      RunKeepsInv(states, actions, k);
      hide Inv, MarkerWhole, MarkerStored;
      forall id | id in states[k].runs ensures MarkerWhole(states[k], id) <==> MarkerStored(states[k], id) {
        WholeIffStored(states[k], id);
      }
    }
    hide EveryMarkerWhole, MarkersStored, Safe, PlacesKept, Does;
    if forall i :: 0 <= i < |actions| ==> Safe(states[i], actions[i]) {
      forall k | 0 <= k < |states| ensures EveryMarkerWhole(states[k]) { SafeRunStored(states, actions, k); }
    }
    if forall k :: 0 <= k < |states| ==> EveryMarkerWhole(states[k]) {
      forall i | 0 <= i < |actions| ensures Safe(states[i], actions[i]) {
        RunKeepsInv(states, actions, i);
        StepExactly(states[i], states[i + 1], actions[i]);
      }
    }
  }

  // ---------------------------------------------------------------- callers that do not clash

  /** What holds of clients while nobody deletes a reference that is being saved: a stored checkpoint
      stays until its commit, and a walk's target that is on the current chain is met or still below. */
  ghost predicate Covered(s: State, client: Client)
  {
    match client
    case Committing(_, c, _) => c.body.ref in s.store.checkpoints
    case Walking(id, _, target, reachable, current) =>
      id in s.runs && s.runs[id].marker.Some? && InChain(s.links, s.runs[id].marker.value, target) ==>
        target in reachable || (current.Some? && InChain(s.links, current.value, target))
    case _ => true
  }

  ghost predicate AllCovered(s: State) { forall a :: a in s.clients ==> Covered(s, s.clients[a]) }

  lemma EntersCovered(s: State, t: State, a: nat, client: Client)
    requires AllCovered(s) && Enters(s, t, a, client) && Covered(s, client)
    ensures AllCovered(t)
  {
    hide InChain;
    forall b | b in t.clients ensures Covered(t, t.clients[b]) { assert b != a ==> Covered(s, s.clients[b]); }
  }

  lemma DeleteWalkCovered(s: State, t: State, a: nat)
    requires Inv(s) && AllCovered(s) && DeleteWalk(s, t, a)
    ensures AllCovered(t)
  {
    var w := s.clients[a];
    assert ClientOk(s, w) && Covered(s, w);
    LoadAgrees(s, w.current.value, w.id, w.scope);
    PrevIsPrevious(s.links, w.current.value);
    hide Inv, ClientOk, LinksOk, AllCovered;
    EntersCovered(s, t, a, t.clients[a]);
  }

  /** A Run changed, and its chain brings no walk's target back. */
  lemma RunCovered(s: State, t: State, id: RunId)
    requires AllCovered(s) && id in s.runs && id in t.runs && t == s.(runs := s.runs[id := t.runs[id]])
    requires forall a :: a in s.clients && s.clients[a].Walking? && s.clients[a].id == id && t.runs[id].marker.Some?
               && InChain(s.links, t.runs[id].marker.value, s.clients[a].target)
               ==> s.runs[id].marker.Some? && InChain(s.links, s.runs[id].marker.value, s.clients[a].target)
    ensures AllCovered(t)
  {
    hide InChain;
    forall b | b in t.clients ensures Covered(t, t.clients[b]) { assert Covered(s, s.clients[b]); }
  }

  lemma MutateCovered(s: State, t: State, id: RunId, op: Op, expected: nat, now: int)
    requires AllCovered(s) && Mutate(s, t, id, op, expected, now)
    ensures AllCovered(t)
  {
    MarkerMovesByCommit(s.runs[id], op, expected, now);
    hide Apply, InChain, AllCovered;
    RunCovered(s, t, id);
  }

  lemma CreateCovered(s: State, t: State, run: Run)
    requires Inv(s) && AllCovered(s) && Create(s, t, run)
    ensures AllCovered(t)
  {
    hide InChain, Indexed, LinksOk, StoredAgrees, RunOk;
    forall b | b in t.clients ensures Covered(t, t.clients[b]) { assert Covered(s, s.clients[b]) && ClientOk(s, s.clients[b]); }
  }

  lemma CommitCovered(s: State, t: State, a: nat, now: int)
    requires Inv(s) && AllCovered(s) && NoClash(s.clients) && Commit(s, t, a, now)
    ensures AllCovered(t)
  {
    var run, c, migrate := s.clients[a].run, s.clients[a].c, s.clients[a].migrate;
    assert ClientOk(s, s.clients[a]);
    var done := Apply(s.runs[run.id], CommitOp(run, c, migrate), run.version, now);
    if done.Ok? {
      CommitReplacesRead(s, run, c.body.ref, CommitOp(run, c, migrate), now);
      hide Apply;
      assert RunOk(s, run.id);
      PlacedExtends(s, run, c);
      hide Unbroken, InChain, Inv, ClientOk, AllCovered;
      forall b | b in s.clients && s.clients[b].Walking? && s.clients[b].id == run.id
          && InChain(s.links, c.body.ref, s.clients[b].target)
        ensures run.marker.Some? && InChain(s.links, run.marker.value, s.clients[b].target)
      {
        assert Saves(s.clients[a]) != Deletes(s.clients[b]);
      }
      var u := s.(runs := s.runs[run.id := done.run]);
      RunCovered(s, u, run.id);
      EntersCovered(u, t, a, Idle);
    } else {
      EntersCovered(s, t, a, Idle);
    }
  }

  lemma FallbackCovered(s: State, t: State, a: nat, now: int)
    requires Inv(s) && AllCovered(s) && FallbackCommit(s, t, a, now)
    ensures AllCovered(t)
  {
    var run, candidate := s.clients[a].run, s.clients[a].candidate;
    assert ClientOk(s, s.clients[a]);
    var op := CommitCheckpoint(candidate.body.ref, run.marker, None, None);
    var done := Apply(s.runs[run.id], op, run.version, now);
    if done.Ok? {
      CommitReplacesRead(s, run, candidate.body.ref, op, now);
      hide Apply;
      assert RunOk(s, run.id);
      AncestorKeeps(s.links, run.marker.value, candidate.body.ref);
      hide Unbroken, InChain, Inv, ClientOk, AllCovered;
      var u := s.(runs := s.runs[run.id := done.run]);
      RunCovered(s, u, run.id);
      EntersCovered(u, t, a, Restoring(done.run, candidate));
    } else {
      EntersCovered(s, t, a, Idle);
    }
  }

  lemma GrowthCovers(s: State, t: State, client: Client)
    requires Inv(s) && ClientOk(s, client) && Covered(s, client)
    requires Extends(s.links, t.links) && t.runs == s.runs && s.store.checkpoints.Keys <= t.store.checkpoints.Keys
    ensures Covered(t, client)
  {
    if client.Walking? {
      assert RunOk(s, client.id);
      if s.runs[client.id].marker.Some? { ChainStable(s.links, t.links, s.runs[client.id].marker.value, client.target); }
      if client.current.Some? { ChainStable(s.links, t.links, client.current.value, client.target); }
    }
  }

  lemma StorePhaseCovered(s: State, t: State, a: nat)
    requires Inv(s) && AllCovered(s) && StorePhase(s, t, a) && PlacesKept(s, AStore(a))
    ensures AllCovered(t)
  {
    var c := s.clients[a].c;
    assert ClientOk(s, s.clients[a]);
    StoreGrows(s, c);
    assert forall b :: b in s.clients ==> ClientOk(s, s.clients[b]) && Covered(s, s.clients[b]);
    hide Inv, Save, Covered, ClientOk, InChain;
    forall b | b in t.clients ensures Covered(t, t.clients[b]) {
      if b != a { GrowthCovers(s, t, s.clients[b]); } else { CommittingCovered(t, t.clients[a]); }
    }
  }

  lemma CommittingCovered(t: State, client: Client)
    requires client.Committing? && client.c.body.ref in t.store.checkpoints
    ensures Covered(t, client)
  {
  }

  lemma DeleteFinishCovered(s: State, t: State, a: nat)
    requires AllCovered(s) && NoClash(s.clients) && DeleteFinish(s, t, a)
    ensures AllCovered(t)
  {
    hide InChain;
    forall b | b in t.clients ensures Covered(t, t.clients[b]) {
      assert Covered(s, s.clients[b]) && Saves(s.clients[b]) != Some(s.clients[a].target) by {
        assert Deletes(s.clients[a]) == Some(s.clients[a].target);
      }
    }
  }

  lemma CorruptCovered(s: State, t: State, r: CheckpointRef, c: Checkpoint)
    requires AllCovered(s) && Corrupt(s, t, r, c)
    ensures AllCovered(t)
  {
    hide InChain;
    forall b | b in t.clients ensures Covered(t, t.clients[b]) { assert Covered(s, s.clients[b]); }
  }

  lemma DoesCovered(s: State, t: State, action: Action)
    requires Inv(s) && AllCovered(s) && NoClash(s.clients) && Does(s, t, action) && PlacesKept(s, action)
    ensures AllCovered(t)
  {
    hide Inv, AllCovered, NoClash, InChain;
    match action
    case ACreate(run) => CreateCovered(s, t, run);
    case AMutate(id, op, expected, now) => MutateCovered(s, t, id, op, expected, now);
    case AStore(a) => StorePhaseCovered(s, t, a);
    case ACommit(a, now) => CommitCovered(s, t, a, now);
    case ADeleteBegin(a, id, scope, target) => EntersCovered(s, t, a, Walking(id, scope, target, {}, s.runs[id].marker));
    case ADeleteWalk(a) => DeleteWalkCovered(s, t, a);
    case ADeleteFinish(a) => DeleteFinishCovered(s, t, a);
    case AFallbackCommit(a, now) => FallbackCovered(s, t, a, now);
    case ACorrupt(r, c) => CorruptCovered(s, t, r, c);
    case _ => EntersCovered(s, t, action.a, t.clients[action.a]);
  }

  /** Once the walk is over, a target it did not meet is in no committed chain. */
  lemma TargetIsOrphan(s: State, t: State, a: nat)
    requires Inv(s) && MarkersStored(s) && AllCovered(s) && DeleteFinish(s, t, a)
    ensures Spared(s, s.clients[a].target)
  {
    var w := s.clients[a];
    assert ClientOk(s, w) && Covered(s, w);
    forall id | id in s.runs && s.runs[id].marker.Some? ensures !InChain(s.links, s.runs[id].marker.value, w.target) {
      assert RunOk(s, id) && MarkerStored(s, id);
      if InChain(s.links, s.runs[id].marker.value, w.target) {
        ChainRank(s.links, s.runs[id].marker.value, w.target);
      }
    }
  }

  lemma {:induction false} NoClashRun(states: seq<State>, actions: seq<Action>, k: nat)
    requires IsRun(states, actions) && AllPlacesKept(states, actions) && k < |states|
    requires forall i :: 0 <= i < k ==> NoClash(states[i].clients)
    ensures AllCovered(states[k]) && MarkersStored(states[k])
    ensures forall i :: 0 <= i < k ==> Safe(states[i], actions[i])
  {
    if k > 0 {
      var s, t, action := states[k - 1], states[k], actions[k - 1];
      NoClashRun(states, actions, k - 1);
      RunKeepsInv(states, actions, k - 1);
      DoesCovered(s, t, action);
      CoveredIsSafe(s, t, action);
      hide Inv, AllCovered, MarkersStored, Safe, NoClash;
      StepExactly(s, t, action);
    }
  }

  lemma CoveredIsSafe(s: State, t: State, action: Action)
    requires Inv(s) && MarkersStored(s) && AllCovered(s) && Does(s, t, action)
    ensures Safe(s, action)
  {
    if action.ADeleteFinish? { TargetIsOrphan(s, t, action.a); }
    hide Inv, MarkersStored, InChain, Apply;
    if action.ACommit? { assert Covered(s, s.clients[action.a]); }
  }

  /** Nobody deleting what is being saved is enough: in every interleaving of saves, commits,
      crashes, corruption, fallbacks, migrations and deletions every marker is whole. */
  lemma CommittedChainIntegrity(states: seq<State>, actions: seq<Action>, k: nat)
    requires IsRun(states, actions) && AllPlacesKept(states, actions) && k < |states|
    requires forall i :: 0 <= i < k ==> NoClash(states[i].clients)
    ensures EveryMarkerWhole(states[k])
  {
    NoClashRun(states, actions, k);
    RunKeepsInv(states, actions, k);
    hide Inv, MarkerWhole, MarkerStored;
    forall id | id in states[k].runs ensures MarkerWhole(states[k], id) { WholeIffStored(states[k], id); }
  }

  /** A fresh checkpoint in place above the current marker, by a save or by a migration, is stored
      exactly when nothing of its Run is stored above the marker. After a fallback that means:
      not before the abandoned suffix is deleted. */
  lemma StoredExactlyAboveMarker(s: State, a: nat)
    requires Inv(s) && a in s.clients && s.clients[a].Linked?
    requires var c, run := s.clients[a].c, s.clients[a].run;
             && s.runs[run.id] == run && Intact(c) && c.body.ref !in s.store.checkpoints
             && (run.marker.Some? ==> run.marker.value in s.store.checkpoints && KeepsEffects(s.store.checkpoints[run.marker.value], c))
    ensures var c, run := s.clients[a].c, s.clients[a].run;
            Save(s.store, c).Saved? <==>
              forall r :: r in s.store.checkpoints && s.store.checkpoints[r].body.run == run.id ==>
                run.marker.Some? && s.store.checkpoints[r].body.sequence <= s.store.checkpoints[run.marker.value].body.sequence
  {
    var c, run := s.clients[a].c, s.clients[a].run;
    assert ClientOk(s, s.clients[a]);
    if run.marker.Some? {
      var previous := s.store.checkpoints[run.marker.value];
      assert SameLinks(previous, s.links[run.marker.value]);
      SaveAcceptedExactly(s.store, c, previous);
    } else {
      FirstStoredExactly(s.store, c);
    }
  }
}
