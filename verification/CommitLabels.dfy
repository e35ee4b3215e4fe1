/** What can move a Run's marker, over every run of clients: a save of a checkpoint labelled with the
    Run as it is, a migration that keeps the side effects, or a fallback. */
module CommitLabels {
  import opened Wrappers
  import opened RunMachine
  import opened Checkpoints
  import opened CheckpointStore
  import opened Coordinator
  import opened Recovery
  import opened CommitProtocol

  // ---------------------------------------------------------------- what clients hold

  /** The value read is the Run as it is, or an older version of it. */
  ghost predicate Read(runs: map<RunId, Run>, run: Run)
  {
    && run.id in runs && run.version <= runs[run.id].version
    && (run.version == runs[run.id].version ==> run == runs[run.id])
  }

  predicate LabelledWith(c: Checkpoint, run: Run)
  {
    && c.body.run == run.id && c.body.definition == run.definition && c.body.graphVersion == run.graphVersion
    && c.body.attempt == run.attempt
  }

  /** A checkpoint on its way to the store and the marker. */
  predicate OnItsWay(run: Run, c: Checkpoint, migrate: bool)
  {
    && Intact(c) && c.body.previous == run.marker && run.marker != Some(c.body.ref) && (!migrate ==> LabelledWith(c, run))
  }

  ghost predicate ClientFits(runs: map<RunId, Run>, client: Client)
  {
    match client
    case Idle => true
    case Saving(run, c) => Read(runs, run) && Intact(c) && LabelledWith(c, run) && run.marker != Some(c.body.ref)
    case Linked(run, c, migrate) => Read(runs, run) && OnItsWay(run, c, migrate)
    case Committing(run, c, migrate) => Read(runs, run) && OnItsWay(run, c, migrate)
    case Walking(_, _, _, _, _) => true
    case Reading(run) => Read(runs, run)
    case Restoring(run, source) => Read(runs, run) && run.marker == Some(source.body.ref)
    case FallingBack(run, candidate) => Read(runs, run) && run.marker.Some? && Intact(candidate)
  }

  ghost predicate AllFit(s: State)
  {
    && (forall id :: id in s.runs ==> s.runs[id].id == id)
    && forall a :: a in s.clients ==> ClientFits(s.runs, s.clients[a])
  }

  lemma ClientMoves(s: State, t: State, a: nat, client: Client)
    requires AllFit(s) && t.runs == s.runs && t.clients == s.clients[a := client] && ClientFits(s.runs, client)
    ensures AllFit(t)
  {
    hide ClientFits;
  }

  /** One Run moves on. */
  lemma RunMovesOn(s: State, t: State, next: Run)
    requires AllFit(s) && t.clients == s.clients && t.runs == s.runs[next.id := next]
    requires next.id in s.runs ==> next == s.runs[next.id] || next.version == s.runs[next.id].version + 1
    ensures AllFit(t)
  {
    hide OnItsWay, LabelledWith, Intact;
    forall a | a in t.clients ensures ClientFits(t.runs, t.clients[a]) { assert ClientFits(s.runs, s.clients[a]); }
  }

  /** What a walk selects is intact. */
  lemma {:induction false} WalkSelects(byRef: map<CheckpointRef, Checkpoint>, candidate: Option<CheckpointRef>, seen: set<CheckpointRef>)
    ensures var found := FallbackWalk(byRef, candidate, seen);
            found.Done? ==> Intact(found.value)
    decreases byRef.Keys - seen
  {
    if candidate.Some? && candidate.value !in seen && candidate.value in byRef && !Intact(byRef[candidate.value]) {
      WalkSelects(byRef, byRef[candidate.value].body.previous, seen + {candidate.value});
    }
  }

  // ---------------------------------------------------------------- one step

  predicate ByOneClient(action: Action)
  {
    !action.ACreate? && !action.AMutate? && !action.ACommit? && !action.AFallbackCommit? && !action.ACorrupt?
  }

  function Actor(action: Action): nat
    requires ByOneClient(action)
  {
    match action
    case ASaveBegin(a, _) => a
    case ASaveLink(a) => a
    case AStore(a) => a
    case ADeleteBegin(a, _, _, _) => a
    case ADeleteWalk(a) => a
    case ADeleteFinish(a) => a
    case ARecoverRead(a, _) => a
    case ARecoverLoad(a, _) => a
    case AFallbackPick(a, _) => a
    case AMigrate(a, _) => a
    case ACrash(a) => a
  }

  lemma ActorMoves(s: State, t: State, action: Action)
    requires Does(s, t, action) && ByOneClient(action)
    ensures Actor(action) in s.clients && t.runs == s.runs
    ensures Actor(action) in t.clients && t.clients == s.clients[Actor(action) := t.clients[Actor(action)]]
  {
    hide Save, Constructible, Remove, Gathered, FallbackWalk, Intact, GatewayLoad, FitsRun;
  }

  lemma ActorFits(s: State, t: State, action: Action)
    requires Does(s, t, action) && ByOneClient(action) && (forall id :: id in s.runs ==> s.runs[id].id == id)
    requires Actor(action) in s.clients && Actor(action) in t.clients && ClientFits(s.runs, s.clients[Actor(action)])
    ensures ClientFits(s.runs, t.clients[Actor(action)])
  {
    if action.AFallbackPick? {
      var marker := s.clients[action.a].run.marker.value;
      WalkSelects(action.byRef, action.byRef[marker].body.previous, {marker});
    }
    hide Save, Constructible, Remove, Gathered, FallbackWalk, Intact;
  }

  /** A client that moves on its own. */
  lemma QuietFits(s: State, t: State, action: Action)
    requires AllFit(s) && Does(s, t, action) && ByOneClient(action)
    ensures AllFit(t)
  {
    hide Does, ClientFits;
    var a := Actor(action);
    ActorMoves(s, t, action);
    assert ClientFits(s.runs, s.clients[a]);
    ActorFits(s, t, action);
    ClientMoves(s, t, a, t.clients[a]);
  }

  lemma CreateFits(s: State, t: State, action: Action)
    requires AllFit(s) && Does(s, t, action) && (action.ACreate? || action.AMutate? || action.ACorrupt?)
    ensures AllFit(t)
  {
    if action.AMutate? {
      ApplyVersion(s.runs[action.id], action.op, action.expected, action.now);
      hide Apply;
      RunMovesOn(s, t, t.runs[action.id]);
    } else if action.ACreate? {
      RunMovesOn(s, t, action.run);
    }
  }

  // ---------------------------------------------------------------- commits

  /** What a commit makes of the Run it finds, when it goes through. */
  lemma CommitMoves(run: Run, op: Op, expected: nat, now: int)
    requires op.CommitCheckpoint? && Apply(run, op, expected, now).Ok?
    ensures var after := Apply(run, op, expected, now).run;
            && run.version == expected && after.id == run.id && (after == run || after.version == run.version + 1)
            && after.marker == Some(op.checkpoint)
            && after.definition == (if op.definition.Some? then op.definition.value else run.definition)
            && after.graphVersion == (if op.graphVersion.Some? then op.graphVersion.value else run.graphVersion)
            && after.status == run.status && after.attempt == run.attempt && after.history == run.history && after.error == run.error
  {
  }

  lemma CommitFits(s: State, t: State, action: Action)
    requires AllFit(s) && Does(s, t, action) && (action.ACommit? || action.AFallbackCommit?)
    ensures AllFit(t)
  {
    var a := action.a;
    assert ClientFits(s.runs, s.clients[a]);
    var run := s.clients[a].run;
    var op := if action.ACommit? then CommitOp(run, s.clients[a].c, s.clients[a].migrate)
              else CommitCheckpoint(s.clients[a].candidate.body.ref, run.marker, None, None);
    var done := Apply(s.runs[run.id], op, run.version, action.now);
    if done.Ok? {
      CommitMoves(s.runs[run.id], op, run.version, action.now);
      hide Apply, OnItsWay, LabelledWith, Intact;
      var u := s.(runs := s.runs[run.id := done.run]);
      RunMovesOn(s, u, done.run);
      ClientMoves(u, t, a, t.clients[a]);
    } else {
      hide Apply, OnItsWay, LabelledWith, Intact;
      ClientMoves(s, t, a, Idle);
    }
  }

  lemma StepFits(s: State, t: State, action: Action)
    requires AllFit(s) && Does(s, t, action)
    ensures AllFit(t)
  {
    hide AllFit, Does;
    if ByOneClient(action) { QuietFits(s, t, action); }
    else if action.ACommit? || action.AFallbackCommit? { CommitFits(s, t, action); }
    else { CreateFits(s, t, action); }
  }

  lemma RunIsSteps(states: seq<State>, actions: seq<Action>, k: nat)
    requires IsRun(states, actions) && k < |actions|
    ensures |states| == |actions| + 1 && Does(states[k], states[k + 1], actions[k])
  {
    hide Does, Init;
  }

  lemma {:induction false} RunFits(states: seq<State>, actions: seq<Action>, k: nat)
    requires IsRun(states, actions) && k < |states|
    ensures AllFit(states[k])
  {
    if k == 0 {
      hide Does;
    } else {
      RunFits(states, actions, k - 1);
      RunIsSteps(states, actions, k - 1);
      hide *;
      StepFits(states[k - 1], states[k], actions[k - 1]);
    }
  }

  // ---------------------------------------------------------------- migrations

  /** The client brings a migrated checkpoint to the store and the marker. */
  predicate Brings(s: State, a: nat, c: Checkpoint)
  {
    a in s.clients && ((s.clients[a].Linked? && s.clients[a].c == c && s.clients[a].migrate)
                       || (s.clients[a].Committing? && s.clients[a].c == c && s.clients[a].migrate))
  }

  /** The migrator answered c for the source that the client had loaded: directly above it, for the
      same Run and scope, with the same side effects. */
  ghost predicate Answered(s: State, action: Action, a: nat, c: Checkpoint)
  {
    && action == AMigrate(a, c) && a in s.clients && s.clients[a].Restoring?
    && var source := s.clients[a].source.body;
       && c.body.previous == Some(source.ref) && c.body.ref != source.ref && c.body.sequence == source.sequence + 1
       && c.body.run == source.run && c.body.scope == source.scope && c.body.effects == source.effects
  }

  ghost predicate Migrated(states: seq<State>, actions: seq<Action>, k: nat, a: nat, c: Checkpoint)
    requires k <= |actions| < |states|
  {
    exists j :: 0 <= j < k && Answered(states[j], actions[j], a, c)
  }

  lemma StepBrings(s: State, t: State, action: Action, a: nat, c: Checkpoint)
    requires Does(s, t, action) && Brings(t, a, c)
    ensures Brings(s, a, c) || Answered(s, action, a, c)
  {
    hide Save, Constructible, Remove, Gathered, FallbackWalk, Intact, GatewayLoad, FitsRun, Apply;
  }

  lemma {:induction false} RunBrings(states: seq<State>, actions: seq<Action>, k: nat, a: nat, c: Checkpoint)
    requires IsRun(states, actions) && k < |states| && Brings(states[k], a, c)
    ensures |states| == |actions| + 1 && Migrated(states, actions, k, a, c)
  {
    hide Does, Brings, Answered;
    if k == 0 {
      NobodyBrings(states[0], a, c);
    } else {
      RunIsSteps(states, actions, k - 1);
      hide *;
      StepBrings(states[k - 1], states[k], actions[k - 1], a, c);
      if !Answered(states[k - 1], actions[k - 1], a, c) { RunBrings(states, actions, k - 1, a, c); }
      MigratedNow(states, actions, k, a, c);
    }
  }

  lemma NobodyBrings(s: State, a: nat, c: Checkpoint)
    requires Init(s)
    ensures !Brings(s, a, c)
  {
  }

  lemma MigratedNow(states: seq<State>, actions: seq<Action>, k: nat, a: nat, c: Checkpoint)
    requires 0 < k <= |actions| < |states|
    requires Migrated(states, actions, k - 1, a, c) || Answered(states[k - 1], actions[k - 1], a, c)
    ensures Migrated(states, actions, k, a, c)
  {
    hide Answered;
  }

  // ---------------------------------------------------------------- what moves a marker

  lemma MoversCommit(s: State, t: State, action: Action, id: RunId)
    requires AllFit(s) && Does(s, t, action) && id in s.runs && id in t.runs && t.runs[id].marker != s.runs[id].marker
    ensures action.ACommit? || action.AFallbackCommit?
  {
    if action.AMutate? { MarkerMovesByCommit(s.runs[action.id], action.op, action.expected, action.now); }
    hide Apply, ClientFits, Save;
    if ByOneClient(action) { ActorMoves(s, t, action); }
  }

  /** A checkpoint is committed by a save or a migration. */
  ghost predicate Saved(s: State, before: Run, after: Run, a: nat)
  {
    && a in s.clients && s.clients[a].Committing?
    && var c := s.clients[a].c;
       && Intact(c) && c.body.previous == before.marker && after.marker == Some(c.body.ref)
       && after.definition == c.body.definition && after.graphVersion == c.body.graphVersion
       && (!s.clients[a].migrate ==> LabelledWith(c, before))
  }

  /** A marker falls back; the Run keeps its definition, whatever the candidate's is. */
  ghost predicate FellBack(s: State, before: Run, after: Run, a: nat)
  {
    && a in s.clients && s.clients[a].FallingBack? && Intact(s.clients[a].candidate)
    && after.marker == Some(s.clients[a].candidate.body.ref)
    && after.definition == before.definition && after.graphVersion == before.graphVersion
  }

  /** Nothing else about the Run changes. */
  predicate OnlyMarked(before: Run, after: Run)
  {
    && after.version == before.version + 1 && after.status == before.status && after.attempt == before.attempt
    && after.history == before.history && after.error == before.error
  }

  lemma CommitIsMove(s: State, t: State, action: Action, id: RunId)
    requires AllFit(s) && Does(s, t, action) && id in s.runs && id in t.runs && t.runs[id].marker != s.runs[id].marker
    requires action.ACommit? || action.AFallbackCommit?
    ensures OnlyMarked(s.runs[id], t.runs[id])
    ensures if action.ACommit? then Saved(s, s.runs[id], t.runs[id], action.a) else FellBack(s, s.runs[id], t.runs[id], action.a)
  {
    var a := action.a;
    assert ClientFits(s.runs, s.clients[a]);
    var run := s.clients[a].run;
    var op := if action.ACommit? then CommitOp(run, s.clients[a].c, s.clients[a].migrate)
              else CommitCheckpoint(s.clients[a].candidate.body.ref, run.marker, None, None);
    CommitMoves(s.runs[id], op, run.version, action.now);
    hide Apply, Intact;
  }

  /** In every run, a marker moves in three ways only. A save commits a checkpoint that carries the
      Run's identity, definition, graph version and attempt, directly above the marker. A migration
      commits what the migrator answered for the loaded source, and takes the Run to its definition.
      A fallback goes to an intact checkpoint and leaves the Run on its definition. */
  lemma MarkerMoves(states: seq<State>, actions: seq<Action>, k: nat, id: RunId)
    requires IsRun(states, actions) && k < |actions|
    requires |states| == |actions| + 1 && id in states[k].runs && id in states[k + 1].runs
    requires states[k + 1].runs[id].marker != states[k].runs[id].marker
    ensures var s, before, after := states[k], states[k].runs[id], states[k + 1].runs[id];
            && OnlyMarked(before, after)
            && match actions[k]
               case ACommit(a, _) => Saved(s, before, after, a) && (s.clients[a].migrate ==> Migrated(states, actions, k, a, s.clients[a].c))
               case AFallbackCommit(a, _) => FellBack(s, before, after, a)
               case _ => false
  {
    RunFits(states, actions, k);
    RunIsSteps(states, actions, k);
    hide IsRun, Does, AllFit, Migrated, LabelledWith, Intact, OnlyMarked;
    MoversCommit(states[k], states[k + 1], actions[k], id);
    CommitIsMove(states[k], states[k + 1], actions[k], id);
    if actions[k].ACommit? && states[k].clients[actions[k].a].migrate {
      RunBrings(states, actions, k, actions[k].a, states[k].clients[actions[k].a].c);
    }
  }

  // ---------------------------------------------------------------- the version a marker belongs to

  predicate SameVersion(c: Checkpoint, run: Run) { c.body.definition == run.definition && c.body.graphVersion == run.graphVersion }

  /** What the step moves the Run's marker to. */
  ghost function MovedTo(s: State, t: State, action: Action, id: RunId): Option<Checkpoint>
  {
    if id in s.runs && id in t.runs && t.runs[id].marker != s.runs[id].marker then
      if action.ACommit? && action.a in s.clients && s.clients[action.a].Committing? then Some(s.clients[action.a].c)
      else if action.AFallbackCommit? && action.a in s.clients && s.clients[action.a].FallingBack? then Some(s.clients[action.a].candidate)
      else None
    else None
  }

  /** What the Run's marker was last moved to. */
  ghost function Marked(states: seq<State>, actions: seq<Action>, k: nat, id: RunId): Option<Checkpoint>
    requires k < |states| == |actions| + 1
  {
    if k == 0 then None
    else
      var now := MovedTo(states[k - 1], states[k], actions[k - 1], id);
      if now.Some? then now else Marked(states, actions, k - 1, id)
  }

  /** Runs are never forgotten, and a new one has no marker. */
  lemma RunsStay(s: State, t: State, action: Action, id: RunId)
    requires AllFit(s) && Does(s, t, action)
    ensures id in s.runs ==> id in t.runs
    ensures id !in s.runs && id in t.runs ==> t.runs[id].marker.None?
  {
    hide Apply, Save;
    if ByOneClient(action) { ActorMoves(s, t, action); }
    if action.ACommit? || action.AFallbackCommit? { assert ClientFits(s.runs, s.clients[action.a]); }
  }

  /** A step that leaves the marker leaves the definition and the graph version. */
  lemma VersionStays(s: State, t: State, action: Action, id: RunId)
    requires AllFit(s) && Does(s, t, action) && id in s.runs && id in t.runs && t.runs[id].marker == s.runs[id].marker
    ensures t.runs[id].definition == s.runs[id].definition && t.runs[id].graphVersion == s.runs[id].graphVersion
  {
    if action.AMutate? { MarkerMovesByCommit(s.runs[action.id], action.op, action.expected, action.now); }
    if ByOneClient(action) { ActorMoves(s, t, action); }
    if action.ACommit? || action.AFallbackCommit? {
      assert ClientFits(s.runs, s.clients[action.a]);
      var run := s.clients[action.a].run;
      var op := if action.ACommit? then CommitOp(run, s.clients[action.a].c, s.clients[action.a].migrate)
                else CommitCheckpoint(s.clients[action.a].candidate.body.ref, run.marker, None, None);
      if Apply(s.runs[run.id], op, run.version, action.now).Ok? { CommitMoves(s.runs[run.id], op, run.version, action.now); }
    }
    hide Apply, Save, Intact;
  }

  lemma MovesTo(s: State, t: State, action: Action, id: RunId)
    requires AllFit(s) && Does(s, t, action) && id in s.runs && id in t.runs && t.runs[id].marker != s.runs[id].marker
    ensures MovedTo(s, t, action, id).Some? && t.runs[id].marker == Some(MovedTo(s, t, action, id).value.body.ref)
    ensures action.ACommit? ==> SameVersion(MovedTo(s, t, action, id).value, t.runs[id])
    ensures !action.ACommit? ==>
      action.AFallbackCommit? && t.runs[id].definition == s.runs[id].definition && t.runs[id].graphVersion == s.runs[id].graphVersion
  {
    hide Does, AllFit, LabelledWith, Intact, OnlyMarked;
    MoversCommit(s, t, action, id);
    CommitIsMove(s, t, action, id);
  }

  /** Marked is what the marker names. */
  ghost predicate Tracks(s: State, id: RunId, marked: Option<Checkpoint>)
  {
    if id in s.runs then s.runs[id].marker == (if marked.Some? then Some(marked.value.body.ref) else None) else marked.None?
  }

  lemma {:induction false} MarkerIsMarked(states: seq<State>, actions: seq<Action>, k: nat, id: RunId)
    requires IsRun(states, actions) && k < |states|
    ensures |states| == |actions| + 1 && Tracks(states[k], id, Marked(states, actions, k, id))
  {
    if k == 0 {
      NoRunsYet(states, actions);
    } else {
      RunIsSteps(states, actions, k - 1);
      RunFits(states, actions, k - 1);
      MarkerIsMarked(states, actions, k - 1, id);
      var s, t := states[k - 1], states[k];
      hide IsRun, Does, AllFit;
      RunsStay(s, t, actions[k - 1], id);
      if id in s.runs && t.runs[id].marker != s.runs[id].marker { MovesTo(s, t, actions[k - 1], id); }
    }
  }

  lemma NoRunsYet(states: seq<State>, actions: seq<Action>)
    requires IsRun(states, actions)
    ensures |states| == |actions| + 1 && states[0].runs == map[]
  {
    hide Does;
  }

  /** The Run is on the version of the checkpoint that its marker names. */
  ghost predicate OnVersion(states: seq<State>, actions: seq<Action>, k: nat, id: RunId)
    requires k < |states| == |actions| + 1
  {
    id in states[k].runs && Marked(states, actions, k, id).Some? ==> SameVersion(Marked(states, actions, k, id).value, states[k].runs[id])
  }

  /** A fallback that moves the marker goes to a checkpoint of the version the Run is on. */
  ghost predicate FallsOnVersion(s: State, t: State, action: Action)
  {
    action.AFallbackCommit? ==>
      forall id :: MovedTo(s, t, action, id).Some? && id in s.runs ==> SameVersion(MovedTo(s, t, action, id).value, s.runs[id])
  }

  lemma VersionStep(states: seq<State>, actions: seq<Action>, k: nat, id: RunId)
    requires IsRun(states, actions) && 0 < k < |states| == |actions| + 1
    requires OnVersion(states, actions, k - 1, id) && FallsOnVersion(states[k - 1], states[k], actions[k - 1])
    ensures OnVersion(states, actions, k, id)
  {
    RunIsSteps(states, actions, k - 1);
    RunFits(states, actions, k - 1);
    MarkerIsMarked(states, actions, k - 1, id);
    var s, t := states[k - 1], states[k];
    hide IsRun, Does, AllFit;
    RunsStay(s, t, actions[k - 1], id);
    if id in s.runs {
      if t.runs[id].marker != s.runs[id].marker { MovesTo(s, t, actions[k - 1], id); }
      else { VersionStays(s, t, actions[k - 1], id); }
    }
  }

  lemma {:induction false} VersionsFollow(states: seq<State>, actions: seq<Action>, k: nat, id: RunId)
    requires IsRun(states, actions) && k < |states| == |actions| + 1
    requires forall i :: 0 <= i < k ==> FallsOnVersion(states[i], states[i + 1], actions[i])
    ensures OnVersion(states, actions, k, id)
  {
    hide *;
    if k == 0 {
      NothingMarkedYet(states, actions, id);
    } else {
      VersionsFollow(states, actions, k - 1, id);
      assert FallsOnVersion(states[k - 1], states[k - 1 + 1], actions[k - 1]);
      VersionStep(states, actions, k, id);
    }
  }

  lemma NothingMarkedYet(states: seq<State>, actions: seq<Action>, id: RunId)
    requires 0 < |states| == |actions| + 1
    ensures OnVersion(states, actions, 0, id)
  {
  }

  lemma FallbackLeaves(states: seq<State>, actions: seq<Action>, k: nat, id: RunId)
    requires IsRun(states, actions) && k < |actions| && |states| == |actions| + 1
    requires OnVersion(states, actions, k + 1, id) && actions[k].AFallbackCommit? && id in states[k].runs
    requires MovedTo(states[k], states[k + 1], actions[k], id).Some?
    ensures SameVersion(MovedTo(states[k], states[k + 1], actions[k], id).value, states[k].runs[id])
  {
    RunIsSteps(states, actions, k);
    RunFits(states, actions, k);
    hide IsRun, Does, AllFit;
    MovesTo(states[k], states[k + 1], actions[k], id);
  }

  /** Over any run: every Run is, in every state, on the definition and graph version of the checkpoint
      that its marker names, if and only if no fallback crosses a migration. */
  lemma VersionsAgreeExactly(states: seq<State>, actions: seq<Action>)
    requires IsRun(states, actions) && |states| == |actions| + 1
    ensures (forall k: nat, id :: k < |states| ==> OnVersion(states, actions, k, id)) <==>
            (forall k :: 0 <= k < |actions| ==> FallsOnVersion(states[k], states[k + 1], actions[k]))
  {
    hide IsRun, OnVersion;
    if forall k :: 0 <= k < |actions| ==> FallsOnVersion(states[k], states[k + 1], actions[k]) {
      hide FallsOnVersion;
      forall k: nat, id | k < |states| ensures OnVersion(states, actions, k, id) { VersionsFollow(states, actions, k, id); }
    }
    if forall k: nat, id :: k < |states| ==> OnVersion(states, actions, k, id) {
      forall k | 0 <= k < |actions| ensures FallsOnVersion(states[k], states[k + 1], actions[k]) {
        forall id | actions[k].AFallbackCommit? && MovedTo(states[k], states[k + 1], actions[k], id).Some? && id in states[k].runs
          ensures SameVersion(MovedTo(states[k], states[k + 1], actions[k], id).value, states[k].runs[id])
        {
          FallbackLeaves(states, actions, k, id);
        }
      }
    }
  }
}
