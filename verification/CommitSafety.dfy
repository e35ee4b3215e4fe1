/** Committed chains over every interleaving: what every step keeps, whatever is deleted or reused, and
    what follows for predecessor walks, fallback and migration on whole chains. CommitIntegrity has when
    the chains are whole. */
module CommitSafety {
  import opened Wrappers
  import opened RunMachine
  import opened Checkpoints
  import opened CheckpointStore
  import opened Coordinator
  import opened Recovery
  import opened Chains
  import opened CommitProtocol

  // ---------------------------------------------------------------- what always holds

  /** Every checkpoint from m down is stored. */
  ghost predicate AllStored(store: Store, links: Links, m: CheckpointRef)
  {
    forall t :: InChain(links, m, t) ==> t in store.checkpoints
  }

  /** A marker names a recorded checkpoint of its Run whose recorded predecessors fall by one. */
  ghost predicate MarkerOk(links: Links, run: Run)
  {
    run.marker.Some? ==>
      run.marker.value in links && links[run.marker.value].body.run == run.id && Unbroken(links, run.marker.value)
  }

  ghost predicate RunOk(s: State, id: RunId)
    requires id in s.runs
  {
    s.runs[id].id == id && MarkerOk(s.links, s.runs[id])
  }

  /** A value read from the repository is current unless a later version replaced it. */
  ghost predicate Snapshot(runs: map<RunId, Run>, run: Run)
  {
    && run.id in runs && run.version <= runs[run.id].version
    && (run.version == runs[run.id].version ==> run == runs[run.id])
  }

  /** c sits directly above the marker the client read. */
  ghost predicate Placed(links: Links, run: Run, c: Checkpoint)
  {
    && Constructible(c.body) && c.body.run == run.id && c.body.previous == run.marker
    && (run.marker.Some? ==>
         && run.marker.value in links && links[run.marker.value].body.run == run.id
         && links[run.marker.value].body.scope == c.body.scope
         && links[run.marker.value].body.sequence + 1 == c.body.sequence)
  }

  /** The walk follows recorded links downwards. */
  ghost predicate WalkOk(runs: map<RunId, Run>, links: Links, w: Client)
    requires w.Walking?
  {
    && w.id in runs
    && (w.current.Some? ==> w.current.value in links)
    && (forall r :: r in w.reachable ==> r in links && (w.current.Some? ==> Rank(links, w.current.value) < Rank(links, r)))
  }

  ghost predicate ClientOk(s: State, client: Client)
  {
    match client
    case Idle => true
    case Saving(run, c) => Snapshot(s.runs, run) && Constructible(c.body) && c.body.run == run.id
    case Linked(run, c, _) => Snapshot(s.runs, run) && Placed(s.links, run, c)
    case Committing(run, c, _) =>
      Snapshot(s.runs, run) && Placed(s.links, run, c) && c.body.ref in s.links && SameLinks(c, s.links[c.body.ref])
    case Walking(_, _, _, _, _) => WalkOk(s.runs, s.links, client)
    case Reading(run) =>
      && Snapshot(s.runs, run)
      && (run.marker.Some? ==> run.marker.value in s.links && s.links[run.marker.value].body.run == run.id)
    case Restoring(run, source) =>
      && Snapshot(s.runs, run) && run.marker == Some(source.body.ref) && source.body.run == run.id
      && source.body.ref in s.links && SameLinks(source, s.links[source.body.ref])
    case FallingBack(run, candidate) =>
      && Snapshot(s.runs, run) && run.marker.Some? && run.marker.value in s.links
      && InChain(s.links, run.marker.value, candidate.body.ref) && candidate.body.run == run.id
      && candidate.body.ref in s.links && SameLinks(candidate, s.links[candidate.body.ref])
  }

  ghost predicate Inv(s: State)
  {
    && Indexed(s.store) && LinksOk(s.links) && StoredAgrees(s.store, s.links)
    && (forall id :: id in s.runs ==> RunOk(s, id))
    && (forall a :: a in s.clients ==> ClientOk(s, s.clients[a]))
  }

  /** A reference that is stored keeps the place it had when it was stored before. */
  ghost predicate PlacesKept(s: State, action: Action)
  {
    action.AStore? && action.a in s.clients && s.clients[action.a].Linked? ==> OnePlace(s.links, s.clients[action.a].c)
  }

  // ---------------------------------------------------------------- a client moves

  lemma EntersKeeps(s: State, t: State, a: nat, client: Client)
    requires Inv(s) && Enters(s, t, a, client) && ClientOk(s, client)
    ensures Inv(t)
  {
    hide Indexed, LinksOk, StoredAgrees, Snapshot, Placed, WalkOk, MarkerOk;
    forall id | id in t.runs ensures RunOk(t, id) { assert RunOk(s, id); }
    forall b | b in t.clients ensures ClientOk(t, t.clients[b]) {
      assert b != a ==> ClientOk(s, s.clients[b]);
    }
  }

  /** What a gateway load hands out sits where the record says. */
  lemma LoadAgrees(s: State, ref: CheckpointRef, run: RunId, scope: nat)
    requires Inv(s) && GatewayLoad(s.store, ref, run, scope).Done?
    ensures ref in s.store.checkpoints && ref in s.links
    ensures var c := GatewayLoad(s.store, ref, run, scope).value;
            && SameLinks(c, s.links[ref]) && c.body.ref == ref && c.body.run == run && c.body.scope == scope
  {
  }

  lemma SaveBeginKeeps(s: State, t: State, a: nat, c: Checkpoint)
    requires Inv(s) && SaveBegin(s, t, a, c)
    ensures Inv(t)
  {
    assert RunOk(s, c.body.run);
    EntersKeeps(s, t, a, Saving(s.runs[c.body.run], c));
  }

  lemma SaveLinkKeeps(s: State, t: State, a: nat)
    requires Inv(s) && SaveLink(s, t, a)
    ensures Inv(t)
  {
    assert ClientOk(s, s.clients[a]);
    var run, c := s.clients[a].run, s.clients[a].c;
    if run.marker.Some? { LoadAgrees(s, run.marker.value, run.id, c.body.scope); }
    EntersKeeps(s, t, a, Linked(run, c, false));
  }

  lemma MigrateKeeps(s: State, t: State, a: nat, c: Checkpoint)
    requires Inv(s) && Migrate(s, t, a, c)
    ensures Inv(t)
  {
    assert ClientOk(s, s.clients[a]);
    EntersKeeps(s, t, a, Linked(s.clients[a].run, c, true));
  }

  lemma DeleteBeginKeeps(s: State, t: State, a: nat, id: RunId, scope: nat, target: CheckpointRef)
    requires Inv(s) && DeleteBegin(s, t, a, id, scope, target)
    ensures Inv(t)
  {
    assert RunOk(s, id);
    EntersKeeps(s, t, a, Walking(id, scope, target, {}, s.runs[id].marker));
  }

  lemma DeleteWalkKeeps(s: State, t: State, a: nat)
    requires Inv(s) && DeleteWalk(s, t, a)
    ensures Inv(t)
  {
    var w := s.clients[a];
    assert ClientOk(s, w);
    LoadAgrees(s, w.current.value, w.id, w.scope);
    var r := w.current.value;
    assert LinkOk(s.links, r);
    PrevIsPrevious(s.links, r);
    EntersKeeps(s, t, a, t.clients[a]);
  }

  lemma RecoverReadKeeps(s: State, t: State, a: nat, id: RunId)
    requires Inv(s) && RecoverRead(s, t, a, id)
    ensures Inv(t)
  {
    assert RunOk(s, id);
    EntersKeeps(s, t, a, Reading(s.runs[id]));
  }

  lemma RecoverLoadKeeps(s: State, t: State, a: nat, scope: nat)
    requires Inv(s) && RecoverLoad(s, t, a, scope)
    ensures Inv(t)
  {
    assert ClientOk(s, s.clients[a]);
    LoadAgrees(s, s.clients[a].run.marker.value, s.clients[a].run.id, scope);
    EntersKeeps(s, t, a, t.clients[a]);
  }

  /** The fallback walk stays on the marker's chain, and its guard never fires. */
  lemma {:induction false} FallbackStaysOnChain(links: Links, byRef: map<CheckpointRef, Checkpoint>, marker: CheckpointRef,
                                                at: CheckpointRef, seen: set<CheckpointRef>)
    requires LinksOk(links) && Gathered(links, byRef) && marker in links
    requires at in byRef && InChain(links, marker, at)
    requires forall r :: r in seen ==> r in links && Rank(links, at) <= Rank(links, r)
    ensures var found := FallbackWalk(byRef, byRef[at].body.previous, seen);
            && found != Raised(ChainCycle)
            && (found.Done? ==>
                 && Intact(found.value) && InChain(links, marker, found.value.body.ref) && found.value.body.ref in links
                 && SameLinks(found.value, links[found.value.body.ref]) && found.value.body.run == links[marker].body.run)
    decreases Rank(links, at)
  {
    assert LinkOk(links, at);
    PrevIsPrevious(links, at);
    var next := byRef[at].body.previous;
    if next.Some? {
      assert InChain(links, at, next.value);
      ChainTransitive(links, marker, at, next.value);
      ChainRank(links, marker, next.value);
      if next.value in byRef && !Intact(byRef[next.value]) {
        FallbackStaysOnChain(links, byRef, marker, next.value, seen + {next.value});
      } else if next.value in byRef {
        assert LinkOk(links, next.value);
      }
    }
  }

  lemma FallbackPickKeeps(s: State, t: State, a: nat, byRef: map<CheckpointRef, Checkpoint>)
    requires Inv(s) && FallbackPick(s, t, a, byRef)
    ensures Inv(t)
  {
    var run := s.clients[a].run;
    assert ClientOk(s, s.clients[a]);
    FallbackStaysOnChain(s.links, byRef, run.marker.value, run.marker.value, {run.marker.value});
    EntersKeeps(s, t, a, t.clients[a]);
  }

  // ---------------------------------------------------------------- a Run moves

  lemma RunChangeKeeps(s: State, t: State, id: RunId, next: Run)
    requires Inv(s) && id in s.runs && t == s.(runs := s.runs[id := next])
    requires next.id == id && (next == s.runs[id] || next.version > s.runs[id].version)
    requires MarkerOk(s.links, next)
    ensures Inv(t)
  {
    hide Indexed, LinksOk, StoredAgrees, Placed, MarkerOk;
    forall i | i in t.runs ensures RunOk(t, i) { assert i != id ==> RunOk(s, i); }
    forall b | b in t.clients ensures ClientOk(t, t.clients[b]) { assert ClientOk(s, s.clients[b]); }
  }

  lemma MutateKeeps(s: State, t: State, id: RunId, op: Op, expected: nat, now: int)
    requires Inv(s) && Mutate(s, t, id, op, expected, now)
    ensures Inv(t)
  {
    assert RunOk(s, id);
    ApplyVersion(s.runs[id], op, expected, now);
    MarkerMovesByCommit(s.runs[id], op, expected, now);
    hide Apply;
    RunChangeKeeps(s, t, id, t.runs[id]);
  }

  lemma CreateKeeps(s: State, t: State, run: Run)
    requires Inv(s) && Create(s, t, run)
    ensures Inv(t)
  {
    hide Indexed, LinksOk, StoredAgrees, Placed;
    forall i | i in t.runs ensures RunOk(t, i) { assert i != run.id ==> RunOk(s, i); }
    forall b | b in t.clients ensures ClientOk(t, t.clients[b]) { assert ClientOk(s, s.clients[b]); }
  }

  /** A commit that goes through replaces exactly the Run that was read, and moves its marker. */
  lemma CommitReplacesRead(s: State, run: Run, ref: CheckpointRef, op: Op, now: int)
    requires Snapshot(s.runs, run) && op.CommitCheckpoint? && op.checkpoint == ref
    requires Apply(s.runs[run.id], op, run.version, now).Ok?
    ensures s.runs[run.id] == run
    ensures var next := Apply(run, op, run.version, now).run;
            && next.id == run.id && next.marker == Some(ref) && (next == run || next.version > run.version)
  {
    ApplyVersion(s.runs[run.id], op, run.version, now);
    hide DoStart, DoAdvance, DoPause, DoContinue, DoRetry, DoRecover, DoCommit, DoComplete, DoFail, DoCancel;
    CommitExactly(run, ref, op.expectedPrevious, op.definition, op.graphVersion, now);
  }

  /** A checkpoint placed directly above an unbroken chain extends it. */
  lemma PlacedExtends(s: State, run: Run, c: Checkpoint)
    requires LinksOk(s.links) && MarkerOk(s.links, run) && Placed(s.links, run, c)
    requires c.body.ref in s.links && SameLinks(c, s.links[c.body.ref])
    ensures Unbroken(s.links, c.body.ref)
    ensures forall t :: InChain(s.links, c.body.ref, t) <==>
      t == c.body.ref || (run.marker.Some? && InChain(s.links, run.marker.value, t))
  {
    assert LinkOk(s.links, c.body.ref);
    PrevIsPrevious(s.links, c.body.ref);
  }

  lemma CommitKeeps(s: State, t: State, a: nat, now: int)
    requires Inv(s) && Commit(s, t, a, now)
    ensures Inv(t)
  {
    var run, c, migrate := s.clients[a].run, s.clients[a].c, s.clients[a].migrate;
    assert ClientOk(s, s.clients[a]);
    var done := Apply(s.runs[run.id], CommitOp(run, c, migrate), run.version, now);
    if done.Ok? {
      CommitReplacesRead(s, run, c.body.ref, CommitOp(run, c, migrate), now);
      hide Apply;
      assert RunOk(s, run.id);
      PlacedExtends(s, run, c);
      hide Unbroken, InChain, Indexed, LinksOk, StoredAgrees;
      var u := s.(runs := s.runs[run.id := done.run]);
      RunChangeKeeps(s, u, run.id, done.run);
      EntersKeeps(u, t, a, Idle);
    } else {
      EntersKeeps(s, t, a, Idle);
    }
  }

  /** Any member of an unbroken chain starts one. */
  lemma AncestorKeeps(links: Links, marker: CheckpointRef, ref: CheckpointRef)
    requires LinksOk(links) && marker in links && Unbroken(links, marker) && InChain(links, marker, ref)
    ensures ref in links && links[ref].body.run == links[marker].body.run && Unbroken(links, ref)
    ensures forall t :: InChain(links, ref, t) ==> InChain(links, marker, t)
  {
    ChainRank(links, marker, ref);
    UnbrokenBelow(links, marker, ref);
    forall t | InChain(links, ref, t) ensures InChain(links, marker, t) {
      ChainTransitive(links, marker, ref, t);
    }
  }

  lemma FallbackCommitKeeps(s: State, t: State, a: nat, now: int)
    requires Inv(s) && FallbackCommit(s, t, a, now)
    ensures Inv(t)
  {
    var run, candidate := s.clients[a].run, s.clients[a].candidate;
    assert ClientOk(s, s.clients[a]);
    var op := CommitCheckpoint(candidate.body.ref, run.marker, None, None);
    var done := Apply(s.runs[run.id], op, run.version, now);
    if done.Ok? {
      CommitReplacesRead(s, run, candidate.body.ref, op, now);
      hide Apply;
      assert RunOk(s, run.id);
      AncestorKeeps(s.links, run.marker.value, candidate.body.ref);
      hide Unbroken, InChain, Indexed, LinksOk, StoredAgrees;
      var u := s.(runs := s.runs[run.id := done.run]);
      RunChangeKeeps(s, u, run.id, done.run);
      EntersKeeps(u, t, a, Restoring(done.run, candidate));
    } else {
      EntersKeeps(s, t, a, Idle);
    }
  }

  // ---------------------------------------------------------------- the store moves

  /** Storing a checkpoint adds one link above links already recorded. */
  lemma LinksGrow(s: State, c: Checkpoint)
    requires Indexed(s.store) && LinksOk(s.links) && StoredAgrees(s.store, s.links)
    requires Constructible(c.body) && Save(s.store, c).Saved? && c.body.ref !in s.links
    ensures LinksOk(s.links[c.body.ref := c]) && Extends(s.links, s.links[c.body.ref := c])
  {
    var more := s.links[c.body.ref := c];
    assert c.body.ref !in s.store.checkpoints;
    if c.body.previous.Some? {
      var p := c.body.previous.value;
      assert SameLinks(s.store.checkpoints[p], s.links[p]);
      assert KeyOf(s.store.checkpoints[p]) in s.store.sequences;
    }
    forall r | r in more ensures LinkOk(more, r) {
      if r != c.body.ref { assert LinkOk(s.links, r); }
    }
  }

  /** Facts about chains survive the growth of the record. */
  lemma GrowthKeepsRun(links: Links, more: Links, run: Run)
    requires LinksOk(links) && Extends(links, more) && MarkerOk(links, run)
    ensures MarkerOk(more, run)
  {
    if run.marker.Some? { ChainStable(links, more, run.marker.value, run.marker.value); }
  }

  lemma GrowthKeepsClient(s: State, t: State, client: Client)
    requires LinksOk(s.links) && Extends(s.links, t.links) && s.runs == t.runs && ClientOk(s, client)
    ensures ClientOk(t, client)
  {
    if client.FallingBack? { ChainStable(s.links, t.links, client.run.marker.value, client.candidate.body.ref); }
  }

  lemma StoreGrows(s: State, c: Checkpoint)
    requires Inv(s) && OnePlace(s.links, c) && Constructible(c.body) && Save(s.store, c).Saved?
    ensures var u := State(Save(s.store, c).store, s.runs, s.clients,
                           if c.body.ref in s.links then s.links else s.links[c.body.ref := c]);
            && Indexed(u.store) && LinksOk(u.links) && StoredAgrees(u.store, u.links) && Extends(s.links, u.links)
            && s.store.checkpoints.Keys <= u.store.checkpoints.Keys
            && c.body.ref in u.links && SameLinks(c, u.links[c.body.ref]) && c.body.ref in u.store.checkpoints
  {
    SaveKeepsIndex(s.store, c);
    if c.body.ref !in s.links { LinksGrow(s, c); }
    StoredStays(s.store, s.links, c);
    hide Indexed, LinksOk, Save, StoredAgrees;
  }

  lemma StoredStays(store: Store, links: Links, c: Checkpoint)
    requires StoredAgrees(store, links) && OnePlace(links, c) && Save(store, c).Saved?
    ensures var after, more := Save(store, c).store, if c.body.ref in links then links else links[c.body.ref := c];
            && StoredAgrees(after, more) && Extends(links, more)
            && store.checkpoints.Keys <= after.checkpoints.Keys && c.body.ref in after.checkpoints
            && SameLinks(c, more[c.body.ref])
  {
  }

  lemma StorePhaseKeeps(s: State, t: State, a: nat)
    requires Inv(s) && StorePhase(s, t, a) && PlacesKept(s, AStore(a))
    ensures Inv(t)
  {
    var c := s.clients[a].c;
    assert ClientOk(s, s.clients[a]);
    StoreGrows(s, c);
    hide Indexed, LinksOk, StoredAgrees, Save;
    forall id | id in t.runs ensures RunOk(t, id) {
      assert RunOk(s, id);
      GrowthKeepsRun(s.links, t.links, s.runs[id]);
    }
    forall b | b in t.clients ensures ClientOk(t, t.clients[b]) {
      assert ClientOk(s, s.clients[b]);
      GrowthKeepsClient(s, t, s.clients[b]);
    }
  }

  /** A store that shrinks, or whose contents decay, still agrees with the record. */
  lemma StoreOnlyKeeps(s: State, t: State)
    requires Inv(s) && t == s.(store := t.store) && Indexed(t.store) && StoredAgrees(t.store, t.links)
    ensures Inv(t)
  {
    hide Indexed, LinksOk, StoredAgrees, Snapshot, Placed, WalkOk, MarkerOk, SameLinks;
    forall id | id in t.runs ensures RunOk(t, id) { assert RunOk(s, id); }
    forall b | b in t.clients ensures ClientOk(t, t.clients[b]) { assert ClientOk(s, s.clients[b]); }
  }

  lemma DeleteFinishKeeps(s: State, t: State, a: nat)
    requires Inv(s) && DeleteFinish(s, t, a)
    ensures Inv(t)
  {
    RemoveKeepsIndex(s.store, s.clients[a].target);
    var u := s.(store := t.store);
    assert StoredAgrees(u.store, u.links);
    hide Indexed, LinksOk, StoredAgrees, ClientOk, RunOk;
    StoreOnlyKeeps(s, u);
    EntersKeeps(u, t, a, Idle) by { assert ClientOk(u, Idle); }
  }

  lemma CorruptKeepsStore(s: State, t: State, r: CheckpointRef, c: Checkpoint)
    requires Indexed(s.store) && StoredAgrees(s.store, s.links) && Corrupt(s, t, r, c)
    ensures Indexed(t.store) && StoredAgrees(t.store, s.links) && t.store.checkpoints.Keys == s.store.checkpoints.Keys
  {
    assert KeyOf(c) == KeyOf(s.store.checkpoints[r]);
  }

  lemma CorruptKeeps(s: State, t: State, r: CheckpointRef, c: Checkpoint)
    requires Inv(s) && Corrupt(s, t, r, c)
    ensures Inv(t)
  {
    CorruptKeepsStore(s, t, r, c);
    hide Indexed, LinksOk, StoredAgrees, SameLinks;
    StoreOnlyKeeps(s, t);
  }

  // ---------------------------------------------------------------- whole runs of the system

  lemma DoesKeeps(s: State, t: State, action: Action)
    requires Inv(s) && Does(s, t, action) && PlacesKept(s, action)
    ensures Inv(t)
  {
    hide Inv, PlacesKept;
    match action
    case ACreate(run) => CreateKeeps(s, t, run);
    case AMutate(id, op, expected, now) => MutateKeeps(s, t, id, op, expected, now);
    case ASaveBegin(a, c) => SaveBeginKeeps(s, t, a, c);
    case ASaveLink(a) => SaveLinkKeeps(s, t, a);
    case AStore(a) => StorePhaseKeeps(s, t, a);
    case ACommit(a, now) => CommitKeeps(s, t, a, now);
    case ADeleteBegin(a, id, scope, target) => DeleteBeginKeeps(s, t, a, id, scope, target);
    case ADeleteWalk(a) => DeleteWalkKeeps(s, t, a);
    case ADeleteFinish(a) => DeleteFinishKeeps(s, t, a);
    case ARecoverRead(a, id) => RecoverReadKeeps(s, t, a, id);
    case ARecoverLoad(a, scope) => RecoverLoadKeeps(s, t, a, scope);
    case AFallbackPick(a, byRef) => FallbackPickKeeps(s, t, a, byRef);
    case AFallbackCommit(a, now) => FallbackCommitKeeps(s, t, a, now);
    case AMigrate(a, c) => MigrateKeeps(s, t, a, c);
    case ACrash(a) => EntersKeeps(s, t, a, Idle);
    case ACorrupt(r, c) => CorruptKeeps(s, t, r, c);
  }

  /** Every save of the run keeps places. */
  ghost predicate AllPlacesKept(states: seq<State>, actions: seq<Action>)
    requires |states| == |actions| + 1
  {
    forall i :: 0 <= i < |actions| ==> PlacesKept(states[i], actions[i])
  }

  lemma {:induction false} RunKeepsInv(states: seq<State>, actions: seq<Action>, k: nat)
    requires IsRun(states, actions) && AllPlacesKept(states, actions) && k < |states|
    ensures Inv(states[k])
  {
    if k > 0 {
      RunKeepsInv(states, actions, k - 1);
      DoesKeeps(states[k - 1], states[k], actions[k - 1]);
    }
  }

  /** Neither cycle guard can fire, whatever is deleted: a deletion's walk never meets a reference
      twice, and the fallback's walk never ends in its cycle error. */
  lemma CycleGuardsUnreachable(states: seq<State>, actions: seq<Action>, k: nat, a: nat, byRef: map<CheckpointRef, Checkpoint>)
    requires IsRun(states, actions) && AllPlacesKept(states, actions) && k < |states|
    requires a in states[k].clients
    ensures var client := states[k].clients[a];
            && (client.Walking? && client.current.Some? ==> client.current.value !in client.reachable)
            && (client.Reading? && client.run.marker.Some? && Gathered(states[k].links, byRef) && client.run.marker.value in byRef ==>
                 FallbackWalk(byRef, byRef[client.run.marker.value].body.previous, {client.run.marker.value}) != Raised(ChainCycle))
  {
    RunKeepsInv(states, actions, k);
    var s, client := states[k], states[k].clients[a];
    assert ClientOk(s, client);
    if client.Reading? && client.run.marker.Some? && Gathered(s.links, byRef) && client.run.marker.value in byRef {
      var marker := client.run.marker.value;
      FallbackStaysOnChain(s.links, byRef, marker, marker, {marker});
    }
  }

}
