/** Checkpoint commits, deletions, fallbacks and migrations by any number of clients. Every await in
    the coordinators is a point where another client may run, a client may vanish, or a stored
    checkpoint may be corrupted. */
module CommitProtocol {
  import opened Wrappers
  import opened RunMachine
  import opened Checkpoints
  import opened CheckpointStore
  import opened Coordinator
  import opened Recovery
  import opened Chains

  /** Where a client stands between two awaits; run is the Run value it read. */
  datatype Client =
    | Idle
    | Saving(run: Run, c: Checkpoint)
    | Linked(run: Run, c: Checkpoint, migrate: bool)
    | Committing(run: Run, c: Checkpoint, migrate: bool)
    | Walking(id: RunId, scope: nat, target: CheckpointRef, reachable: set<CheckpointRef>, current: Option<CheckpointRef>)
    | Reading(run: Run)
    | Restoring(run: Run, source: Checkpoint)
    | FallingBack(run: Run, candidate: Checkpoint)

  /** links remembers every checkpoint ever stored, under its reference. */
  datatype State = State(store: Store, runs: map<RunId, Run>, clients: map<nat, Client>, links: Links)

  function Saves(client: Client): Option<CheckpointRef>
  {
    match client
    case Saving(_, c) => Some(c.body.ref)
    case Linked(_, c, _) => Some(c.body.ref)
    case Committing(_, c, _) => Some(c.body.ref)
    case _ => None
  }

  function Deletes(client: Client): Option<CheckpointRef> { if client.Walking? then Some(client.target) else None }

  // ---------------------------------------------------------------- assumptions about callers

  /** A reference names one place in one chain, however often it is stored. */
  predicate OnePlace(links: Links, c: Checkpoint)
  {
    c.body.ref in links ==> SameLinks(c, links[c.body.ref])
  }

  /** Nobody deletes a reference while a save of it is in flight. */
  ghost predicate NoClash(clients: map<nat, Client>)
  {
    forall a, b :: a in clients && b in clients && Saves(clients[a]).Some? ==> Saves(clients[a]) != Deletes(clients[b])
  }

  // ---------------------------------------------------------------- steps

  ghost predicate Init(s: State)
  {
    s.store == Store(map[], map[]) && s.runs == map[] && s.links == map[] && forall a :: a in s.clients ==> s.clients[a].Idle?
  }

  ghost predicate Enters(s: State, t: State, a: nat, client: Client)
  {
    t == s.(clients := s.clients[a := client])
  }

  ghost predicate Create(s: State, t: State, run: Run)
  {
    run.id !in s.runs && run.marker.None? && t == s.(runs := s.runs[run.id := run])
  }

  /** Any other call on the Run service. RunStore.NoLostUpdate is why get and compare-and-set count as one step. */
  ghost predicate Mutate(s: State, t: State, id: RunId, op: Op, expected: nat, now: int)
  {
    && id in s.runs && !op.CommitCheckpoint?
    && var done := Apply(s.runs[id], op, expected, now);
       done.Ok? && t == s.(runs := s.runs[id := done.run])
  }

  ghost predicate SaveBegin(s: State, t: State, a: nat, c: Checkpoint)
  {
    && a in s.clients && s.clients[a].Idle? && c.body.run in s.runs
    && var run := s.runs[c.body.run];
       && Constructible(c.body) && run.kind.Workflow? && Intact(c) && FitsRun(c, run) && !Terminal(run.status)
       && run.marker != Some(c.body.ref)
       && Enters(s, t, a, Saving(run, c))
  }

  /** Load the marker's checkpoint and compare the new one with it. */
  ghost predicate SaveLink(s: State, t: State, a: nat)
  {
    && a in s.clients && s.clients[a].Saving?
    && var run, c := s.clients[a].run, s.clients[a].c;
       && c.body.previous == run.marker
       && (run.marker.None? ==> c.body.sequence == 1)
       && (run.marker.Some? ==>
            var previous := GatewayLoad(s.store, run.marker.value, run.id, c.body.scope);
            previous.Done? && c.body.sequence == previous.value.body.sequence + 1)
       && Enters(s, t, a, Linked(run, c, false))
  }

  ghost predicate StorePhase(s: State, t: State, a: nat)
  {
    && a in s.clients && s.clients[a].Linked?
    && var run, c, migrate := s.clients[a].run, s.clients[a].c, s.clients[a].migrate;
       && Save(s.store, c).Saved?
       && t == State(Save(s.store, c).store, s.runs, s.clients[a := Committing(run, c, migrate)],
                     if c.body.ref in s.links then s.links else s.links[c.body.ref := c])
  }

  function CommitOp(run: Run, c: Checkpoint, migrate: bool): Op
  {
    CommitCheckpoint(c.body.ref, run.marker, if migrate then Some(c.body.definition) else None,
                     if migrate then Some(c.body.graphVersion) else None)
  }

  ghost predicate Commit(s: State, t: State, a: nat, now: int)
  {
    && a in s.clients && s.clients[a].Committing? && s.clients[a].run.id in s.runs
    && var run, c, migrate := s.clients[a].run, s.clients[a].c, s.clients[a].migrate;
       var done := Apply(s.runs[run.id], CommitOp(run, c, migrate), run.version, now);
       t == if done.Ok? then s.(runs := s.runs[run.id := done.run], clients := s.clients[a := Idle])
            else s.(clients := s.clients[a := Idle])
  }

  ghost predicate DeleteBegin(s: State, t: State, a: nat, id: RunId, scope: nat, target: CheckpointRef)
  {
    && a in s.clients && s.clients[a].Idle? && id in s.runs
    && Enters(s, t, a, Walking(id, scope, target, {}, s.runs[id].marker))
  }

  /** One turn of the loop. A repeated reference would raise instead of stepping. */
  ghost predicate DeleteWalk(s: State, t: State, a: nat)
  {
    && a in s.clients && s.clients[a].Walking? && s.clients[a].current.Some?
    && var w := s.clients[a];
       && w.current.value !in w.reachable
       && var loaded := GatewayLoad(s.store, w.current.value, w.id, w.scope);
          loaded.Done?
          && Enters(s, t, a, w.(reachable := w.reachable + {w.current.value}, current := loaded.value.body.previous))
  }

  ghost predicate DeleteFinish(s: State, t: State, a: nat)
  {
    && a in s.clients && s.clients[a].Walking? && s.clients[a].current.None?
    && var w := s.clients[a];
       && w.target !in w.reachable
       && (w.target in s.store.checkpoints ==>
            s.store.checkpoints[w.target].body.run == w.id && s.store.checkpoints[w.target].body.scope == w.scope)
       && t == s.(store := Remove(s.store, w.target), clients := s.clients[a := Idle])
  }

  ghost predicate RecoverRead(s: State, t: State, a: nat, id: RunId)
  {
    && a in s.clients && s.clients[a].Idle? && id in s.runs && s.runs[id].marker.Some?
    && s.runs[id].kind.Workflow? && !Terminal(s.runs[id].status) && !s.runs[id].status.Created?
    && Enters(s, t, a, Reading(s.runs[id]))
  }

  ghost predicate RecoverLoad(s: State, t: State, a: nat, scope: nat)
  {
    && a in s.clients && s.clients[a].Reading? && s.clients[a].run.marker.Some?
    && var run := s.clients[a].run;
       var loaded := GatewayLoad(s.store, run.marker.value, run.id, scope);
       loaded.Done? && Enters(s, t, a, Restoring(run, loaded.value))
  }

  /** What pages read at different moments can hold: values once stored, corrupted or not. */
  ghost predicate Gathered(links: Links, byRef: map<CheckpointRef, Checkpoint>)
  {
    forall r :: r in byRef ==> r in links && SameLinks(byRef[r], links[r])
  }

  ghost predicate FallbackPick(s: State, t: State, a: nat, byRef: map<CheckpointRef, Checkpoint>)
  {
    && a in s.clients && s.clients[a].Reading? && s.clients[a].run.marker.Some?
    && Gathered(s.links, byRef)
    && var run := s.clients[a].run;
       var marker := run.marker.value;
       && marker in byRef
       && var found := FallbackWalk(byRef, byRef[marker].body.previous, {marker});
          found.Done? && Enters(s, t, a, FallingBack(run, found.value))
  }

  ghost predicate FallbackCommit(s: State, t: State, a: nat, now: int)
  {
    && a in s.clients && s.clients[a].FallingBack? && s.clients[a].run.id in s.runs
    && var run, candidate := s.clients[a].run, s.clients[a].candidate;
       var done := Apply(s.runs[run.id], CommitCheckpoint(candidate.body.ref, run.marker, None, None), run.version, now);
       t == if done.Ok? then s.(runs := s.runs[run.id := done.run], clients := s.clients[a := Restoring(done.run, candidate)])
            else s.(clients := s.clients[a := Idle])
  }

  /** The migrator's answer, after the checks on what it may not change. */
  ghost predicate Migrate(s: State, t: State, a: nat, c: Checkpoint)
  {
    && a in s.clients && s.clients[a].Restoring?
    && var run, source := s.clients[a].run, s.clients[a].source;
       && Constructible(c.body) && Intact(c)
       && c.body.ref != source.body.ref && c.body.run == source.body.run && c.body.scope == source.body.scope
       && c.body.sequence == source.body.sequence + 1 && c.body.previous == Some(source.body.ref)
       && c.body.effects == source.body.effects
       && Enters(s, t, a, Linked(run, c, true))
  }

  /** Also every raised error: the client gives up and the shared state stays. */
  ghost predicate Crash(s: State, t: State, a: nat)
  {
    a in s.clients && Enters(s, t, a, Idle)
  }

  /** Stored content may decay, but keeps its place in the chain. */
  ghost predicate Corrupt(s: State, t: State, r: CheckpointRef, c: Checkpoint)
  {
    && r in s.store.checkpoints && SameLinks(c, s.store.checkpoints[r])
    && t == s.(store := Store(s.store.checkpoints[r := c], s.store.sequences))
  }

  datatype Action =
    | ACreate(run: Run) | AMutate(id: RunId, op: Op, expected: nat, now: int)
    | ASaveBegin(a: nat, c: Checkpoint) | ASaveLink(a: nat) | AStore(a: nat) | ACommit(a: nat, now: int)
    | ADeleteBegin(a: nat, id: RunId, scope: nat, target: CheckpointRef) | ADeleteWalk(a: nat) | ADeleteFinish(a: nat)
    | ARecoverRead(a: nat, id: RunId) | ARecoverLoad(a: nat, scope: nat)
    | AFallbackPick(a: nat, byRef: map<CheckpointRef, Checkpoint>) | AFallbackCommit(a: nat, now: int)
    | AMigrate(a: nat, c: Checkpoint) | ACrash(a: nat) | ACorrupt(r: CheckpointRef, c: Checkpoint)

  ghost predicate Does(s: State, t: State, action: Action)
  {
    match action
    case ACreate(run) => Create(s, t, run)
    case AMutate(id, op, expected, now) => Mutate(s, t, id, op, expected, now)
    case ASaveBegin(a, c) => SaveBegin(s, t, a, c)
    case ASaveLink(a) => SaveLink(s, t, a)
    case AStore(a) => StorePhase(s, t, a)
    case ACommit(a, now) => Commit(s, t, a, now)
    case ADeleteBegin(a, id, scope, target) => DeleteBegin(s, t, a, id, scope, target)
    case ADeleteWalk(a) => DeleteWalk(s, t, a)
    case ADeleteFinish(a) => DeleteFinish(s, t, a)
    case ARecoverRead(a, id) => RecoverRead(s, t, a, id)
    case ARecoverLoad(a, scope) => RecoverLoad(s, t, a, scope)
    case AFallbackPick(a, byRef) => FallbackPick(s, t, a, byRef)
    case AFallbackCommit(a, now) => FallbackCommit(s, t, a, now)
    case AMigrate(a, c) => Migrate(s, t, a, c)
    case ACrash(a) => Crash(s, t, a)
    case ACorrupt(r, c) => Corrupt(s, t, r, c)
  }

  /** A run of the system: states, and the action between each and the next. */
  ghost predicate IsRun(states: seq<State>, actions: seq<Action>)
  {
    && |states| == |actions| + 1 && Init(states[0])
    && forall i :: 0 <= i < |actions| ==> Does(states[i], states[i + 1], actions[i])
  }
}
