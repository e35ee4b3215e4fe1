/** When nodes are handed out: while the Run is RUNNING, except after a repeated approval. */
module WorkflowDispatch {
  import opened Wrappers
  import opened Order
  import opened Graph
  import opened RunMachine
  import opened Checkpoints
  import opened CheckpointStore
  import opened Coordinator
  import opened Workflow
  import opened WorkflowContent
  import opened WorkflowInvariant
  import opened WorkflowSteps

  /** The driver continues from the checkpoint that its Run's marker names. */
  predicate AtMarker(driver: Driver)
    requires driver.Active?
  {
    driver.run.marker == if driver.current.Some? then Some(driver.current.value.ref) else None
  }

  predicate Works(loc: Loc)
  {
    match loc
    case Opening => true
    case Ready => true
    case Working(_) => true
    case Storing(_, after) => !after.Decide?
    case Checked(_, after) => !after.Decide?
    case Stored(_, after) => !after.Decide?
    case _ => false
  }

  predicate RunsWhenAtWork(driver: Driver)
  {
    driver.Active? && AtMarker(driver) && Works(driver.loc) ==> driver.run.status.Running?
  }

  ghost predicate AllRun(s: State) { forall a :: a in s.drivers ==> RunsWhenAtWork(s.drivers[a]) }

  // ---------------------------------------------------------------- steps

  lemma OneRuns(s: State, t: State, a: nat)
    requires AllRun(s) && a in t.drivers && t.drivers == s.drivers[a := t.drivers[a]] && RunsWhenAtWork(t.drivers[a])
    ensures AllRun(t)
  {
    hide RunsWhenAtWork;
  }

  lemma AdvanceRuns(run: Run, expected: nat, now: int)
    requires Apply(run, Advance(Running), expected, now).Ok?
    ensures Apply(run, Advance(Running), expected, now).run.status.Running?
  {
    hide OpenAttempt;
  }

  lemma StartRuns(d: Definition, s: State, t: State, action: Action)
    requires Inv(d, s) && Does(d, s, t, action) && action.AStart?
    ensures action.a in t.drivers && t.drivers == s.drivers[action.a := t.drivers[action.a]] && RunsWhenAtWork(t.drivers[action.a])
  {
    LaunchingStarts(d, s, action.a);
    var driver := s.drivers[action.a];
    if driver.loc.op == Advance(Running) && Apply(s.run, driver.loc.op, driver.run.version, action.now).Ok? {
      AdvanceRuns(s.run, driver.run.version, action.now);
    }
    hide Inv, Apply, AtMarker;
  }

  lemma SettleRuns(d: Definition, s: State, t: State, action: Action)
    requires Does(d, s, t, action) && action.ASettle?
    ensures action.a in t.drivers && t.drivers == s.drivers[action.a := t.drivers[action.a]] && RunsWhenAtWork(t.drivers[action.a])
  {
    var driver := s.drivers[action.a];
    if driver.loc.op == Advance(Running) && Apply(s.run, driver.loc.op, driver.run.version, action.now).Ok? {
      AdvanceRuns(s.run, driver.run.version, action.now);
    }
    hide Apply, AtMarker;
  }

  lemma ReplayShape(d: Definition, s: State, t: State, action: Action)
    requires Does(d, s, t, action) && action.ADecideAgain?
    ensures var a := action.a;
            && At(s, a) && s.drivers[a].loc.Deciding? && s.drivers[a].loc.post.ref in Draft(s.drivers[a])
            && a in t.drivers && t.drivers == s.drivers[a := t.drivers[a]]
            && (t.drivers[a].Active? ==>
                 Works(t.drivers[a].loc) ==> t.drivers[a].current == Some(s.drivers[a].loc.post) && t.drivers[a].run == s.run)
  {
    hide Marked;
  }

  /** A repeated approval continues from a checkpoint that no marker names. */
  lemma ReplayRuns(d: Definition, s: State, t: State, action: Action)
    requires Inv(d, s) && NamesOk(s) && Does(d, s, t, action) && action.ADecideAgain?
    ensures action.a in t.drivers && t.drivers == s.drivers[action.a := t.drivers[action.a]] && RunsWhenAtWork(t.drivers[action.a])
  {
    ReplayShape(d, s, t, action);
    hide Inv, NamesOk, Does, Draft;
    DraftIsUnmarked(d, s, action.a, s.drivers[action.a].loc.post.ref);
  }

  lemma CommitShape(d: Definition, s: State, t: State, action: Action)
    requires Does(d, s, t, action) && action.ACommit?
    ensures var a := action.a;
            && At(s, a) && s.drivers[a].loc.Stored? && a in t.drivers && t.drivers == s.drivers[a := t.drivers[a]]
            && var driver, next := s.drivers[a], s.drivers[a].loc.next;
               var done := Apply(s.run, CommitCheckpoint(next.ref, driver.run.marker, None, None), driver.run.version, action.now);
               t.drivers[a] == if done.Ok? then Continue(done.run, next, driver.loc.after) else Off
  {
    hide Apply, Continue;
  }

  lemma HomeIsAtMarker(s: State, driver: Driver)
    requires driver.Active? && Home(s.commits, driver.run, driver.current)
    ensures AtMarker(driver)
  {
  }

  lemma ContinueRuns(run: Run, next: Body, after: After)
    requires !after.Decide? ==> run.status.Running?
    ensures RunsWhenAtWork(Continue(run, next, after))
  {
    hide AtMarker;
  }

  /** A driver that can commit is at the marker of the Run as it is. */
  lemma CommitRuns(d: Definition, s: State, t: State, action: Action)
    requires Inv(d, s) && NamesOk(s) && AllRun(s) && Does(d, s, t, action) && action.ACommit?
    ensures action.a in t.drivers && t.drivers == s.drivers[action.a := t.drivers[action.a]] && RunsWhenAtWork(t.drivers[action.a])
  {
    CommitShape(d, s, t, action);
    var a := action.a;
    var driver := s.drivers[a];
    var next := driver.loc.next;
    assert RunsWhenAtWork(driver);
    OwnMarkerIsOld(d, s, a);
    HomeIsAtMarker(s, driver);
    SnapshotOf(d, s, a);
    assert Works(driver.loc) <==> !driver.loc.after.Decide?;
    hide Inv, NamesOk, Does, Apply, Snapshot, AtMarker, Home, Continue, AllRun;
    var done := Apply(s.run, CommitCheckpoint(next.ref, driver.run.marker, None, None), driver.run.version, action.now);
    if done.Ok? {
      CommitFinds(s.run, driver.run, next.ref, action.now);
      ContinueRuns(done.run, next, driver.loc.after);
    }
  }

  lemma SnapshotOf(d: Definition, s: State, a: nat)
    requires Inv(d, s) && At(s, a)
    ensures Snapshot(s.run, s.drivers[a].run)
  {
    DriverIsOk(d, s, a);
    hide Inv, LocOk, Snapshot, Home, Away, Sound;
  }

  // ---------------------------------------------------------------- the other steps

  predicate Local(action: Action)
  {
    !action.AStart? && !action.ASettle? && !action.ADecideAgain? && !action.ACommit?
  }

  predicate ByNobody(action: Action) { action.AElsewhere? || action.ADelete? }

  lemma LocalRuns(d: Definition, s: State, t: State, action: Action)
    requires AllRun(s) && Does(d, s, t, action) && Local(action)
    ensures AllRun(t)
  {
    hide Marked, Save, Apply, Greedy, Constructible, PassesChecks, StableFailure, AwaitsDecision, Completed, GatewayLoad, AfterDecision;
    hide AfterAgent, AfterEvaluation, AfterRequest, First;
  }

  lemma StepRuns(d: Definition, s: State, t: State, action: Action)
    requires Inv(d, s) && NamesOk(s) && AllRun(s) && Does(d, s, t, action)
    ensures AllRun(t)
  {
    hide Inv, NamesOk, AllRun, Does;
    if Local(action) {
      LocalRuns(d, s, t, action);
    } else {
      if action.AStart? { StartRuns(d, s, t, action); }
      else if action.ASettle? { SettleRuns(d, s, t, action); }
      else if action.ADecideAgain? { ReplayRuns(d, s, t, action); }
      else { CommitRuns(d, s, t, action); }
      OneRuns(s, t, action.a);
    }
  }

  lemma {:induction false} RunRuns(d: Definition, states: seq<State>, actions: seq<Action>, k: nat)
    requires Validated(d) && IsRun(d, states, actions) && k < |states|
    ensures AllRun(states[k])
  {
    hide Inv, NamesOk, Validated, Does, AllRun;
    if k == 0 {
      NobodyWorks(d, states, actions);
    } else {
      RunRuns(d, states, actions, k - 1);
      RunKeepsInv(d, states, actions, k - 1);
      RunStep(d, states, actions, k - 1);
      hide *;
      StepRuns(d, states[k - 1], states[k], actions[k - 1]);
    }
  }

  lemma NobodyWorks(d: Definition, states: seq<State>, actions: seq<Action>)
    requires IsRun(d, states, actions)
    ensures states != [] && AllRun(states[0])
  {
    hide Does;
  }

  // ---------------------------------------------------------------- repeated approvals

  /** An approval given while the Run was WAITING_APPROVAL, for which this reference was generated. */
  ghost predicate Approves(s: State, action: Action, ref: CheckpointRef)
  {
    action.ADecide? && action.ref == ref && action.decision.Approved? && s.run.status.WaitingApproval?
  }

  ghost predicate WasApproved(states: seq<State>, actions: seq<Action>, k: nat, ref: CheckpointRef)
    requires k <= |actions| < |states|
  {
    exists j :: 0 <= j < k && Approves(states[j], actions[j], ref)
  }

  predicate Approving(driver: Driver, ref: CheckpointRef)
  {
    driver.Active? && driver.loc.Deciding? && driver.loc.decision.Approved? && driver.loc.post.ref == ref
  }

  predicate Astray(driver: Driver, ref: CheckpointRef)
  {
    driver.Active? && driver.current.Some? && driver.current.value.ref == ref && !AtMarker(driver)
  }

  /** A driver that builds on this reference although no marker names it, or is about to. */
  predicate Involved(driver: Driver, ref: CheckpointRef) { Approving(driver, ref) || Astray(driver, ref) }

  lemma SettleShape(d: Definition, s: State, t: State, action: Action)
    requires Does(d, s, t, action) && action.ASettle?
    ensures var a := action.a;
            && At(s, a) && s.drivers[a].loc.Settling? && a in t.drivers && t.drivers == s.drivers[a := t.drivers[a]]
            && var driver, op := s.drivers[a], s.drivers[a].loc.op;
               var done := Apply(s.run, op, driver.run.version, action.now);
               if done.Err? || (!op.Recover? && op != Advance(Running)) then t.drivers[a].Off?
               else t.drivers[a] == driver.(run := done.run, loc := if op.Recover? then Restoring else Ready)
  {
    hide Apply;
  }

  lemma SettlesHome(d: Definition, s: State, a: nat)
    requires Inv(d, s) && At(s, a) && s.drivers[a].loc.Settling? && !s.drivers[a].loc.op.Complete?
    ensures Snapshot(s.run, s.drivers[a].run) && AtMarker(s.drivers[a])
  {
    DriverIsOk(d, s, a);
    hide Inv, HoldsDecision, AwaitsDecision, Sound, CopyOf, Completed;
  }

  lemma SettlesAtMarker(d: Definition, s: State, t: State, action: Action, ref: CheckpointRef)
    requires Inv(d, s) && Does(d, s, t, action) && action.ASettle?
    ensures action.a in t.drivers && t.drivers == s.drivers[action.a := t.drivers[action.a]] && !Involved(t.drivers[action.a], ref)
  {
    SettleShape(d, s, t, action);
    var driver := s.drivers[action.a];
    hide Inv, Does, Apply, Snapshot;
    if t.drivers[action.a].Active? {
      SettlesHome(d, s, action.a);
      SettleFinds(s.run, driver.run, driver.loc.op, action.now);
      MarkerMovesByCommit(s.run, driver.loc.op, driver.run.version, action.now);
    }
  }

  lemma StartsUnastray(d: Definition, s: State, t: State, action: Action, ref: CheckpointRef)
    requires Inv(d, s) && Does(d, s, t, action) && action.AStart?
    ensures action.a in t.drivers && t.drivers == s.drivers[action.a := t.drivers[action.a]] && !Involved(t.drivers[action.a], ref)
  {
    LaunchingStarts(d, s, action.a);
    hide Inv, Apply;
  }

  lemma ContinuesAtMarker(run: Run, next: Body, after: After, ref: CheckpointRef)
    requires run.marker == Some(next.ref)
    ensures !Involved(Continue(run, next, after), ref)
  {
  }

  lemma CommitsAtMarker(d: Definition, s: State, t: State, action: Action, ref: CheckpointRef)
    requires Inv(d, s) && NamesOk(s) && Does(d, s, t, action) && action.ACommit?
    ensures action.a in t.drivers && t.drivers == s.drivers[action.a := t.drivers[action.a]] && !Involved(t.drivers[action.a], ref)
  {
    CommitShape(d, s, t, action);
    var a := action.a;
    var driver, next := s.drivers[a], s.drivers[a].loc.next;
    OwnMarkerIsOld(d, s, a);
    SnapshotOf(d, s, a);
    hide Inv, NamesOk, Does, Apply, Snapshot, Home, Involved, Continue;
    var done := Apply(s.run, CommitCheckpoint(next.ref, driver.run.marker, None, None), driver.run.version, action.now);
    if done.Ok? {
      CommitFinds(s.run, driver.run, next.ref, action.now);
      ContinuesAtMarker(done.run, next, driver.loc.after, ref);
    } else {
      OffIsUninvolved(ref);
    }
  }

  lemma OffIsUninvolved(ref: CheckpointRef)
    ensures !Involved(Off, ref)
  {
  }

  predicate Loads(action: Action) { action.APickUp? || action.ARecover? || action.ADecide? }

  lemma LoadInvolves(d: Definition, s: State, t: State, action: Action, a: nat, ref: CheckpointRef)
    requires Does(d, s, t, action) && Loads(action)
    requires a in t.drivers && Involved(t.drivers[a], ref)
    ensures (a in s.drivers && Involved(s.drivers[a], ref)) || Approves(s, action, ref)
  {
    hide Constructible;
  }

  lemma LocalInvolves(d: Definition, s: State, t: State, action: Action, a: nat, ref: CheckpointRef)
    requires Does(d, s, t, action) && (Local(action) || action.ADecideAgain?) && !Loads(action)
    requires a in t.drivers && Involved(t.drivers[a], ref)
    ensures a in s.drivers && Involved(s.drivers[a], ref)
  {
    hide Marked, Save, Apply, Greedy, Constructible, PassesChecks, StableFailure, AwaitsDecision, Completed;
    hide AfterAgent, AfterEvaluation, AfterRequest, First;
  }

  lemma StepInvolves(d: Definition, s: State, t: State, action: Action, a: nat, ref: CheckpointRef)
    requires Inv(d, s) && NamesOk(s) && Does(d, s, t, action)
    requires a in t.drivers && Involved(t.drivers[a], ref)
    ensures (a in s.drivers && Involved(s.drivers[a], ref)) || Approves(s, action, ref)
  {
    hide Inv, NamesOk, Does, Involved;
    if action.AStart? { StartsUnastray(d, s, t, action, ref); }
    else if action.ASettle? { SettlesAtMarker(d, s, t, action, ref); }
    else if action.ACommit? { CommitsAtMarker(d, s, t, action, ref); }
    else if Loads(action) { LoadInvolves(d, s, t, action, a, ref); }
    else { LocalInvolves(d, s, t, action, a, ref); }
  }

  lemma {:induction false} RunInvolves(d: Definition, states: seq<State>, actions: seq<Action>, k: nat, a: nat, ref: CheckpointRef)
    requires Validated(d) && IsRun(d, states, actions) && k < |states| && a in states[k].drivers && Involved(states[k].drivers[a], ref)
    ensures |states| == |actions| + 1 && WasApproved(states, actions, k, ref)
  {
    hide Inv, NamesOk, Validated, Does, Involved, Approves;
    RunStates(d, states, actions);
    if k == 0 {
      NobodyInvolved(d, states, actions, a, ref);
    } else {
      RunKeepsInv(d, states, actions, k - 1);
      RunStep(d, states, actions, k - 1);
      hide *;
      StepInvolves(d, states[k - 1], states[k], actions[k - 1], a, ref);
      if !Approves(states[k - 1], actions[k - 1], ref) { RunInvolves(d, states, actions, k - 1, a, ref); }
      ApprovedBy(states, actions, k, ref);
    }
  }

  lemma NobodyInvolved(d: Definition, states: seq<State>, actions: seq<Action>, a: nat, ref: CheckpointRef)
    requires IsRun(d, states, actions) && states != [] && a in states[0].drivers
    ensures !Involved(states[0].drivers[a], ref)
  {
    hide Does;
  }

  lemma ApprovedBy(states: seq<State>, actions: seq<Action>, k: nat, ref: CheckpointRef)
    requires 0 < k <= |actions| < |states|
    requires WasApproved(states, actions, k - 1, ref) || Approves(states[k - 1], actions[k - 1], ref)
    ensures WasApproved(states, actions, k, ref)
  {
    hide Approves;
  }

  /** In every execution, a node is handed out by a driver that continues from the checkpoint its Run's
      marker names and found that Run RUNNING, or by one that repeated an approval, given while the
      Run was WAITING_APPROVAL, which was on record already. */
  lemma HandedOutWhileRunning(d: Definition, states: seq<State>, actions: seq<Action>, k: nat, a: nat)
    requires Validated(d) && IsRun(d, states, actions) && k < |actions| && actions[k] == AHandOut(a)
    ensures |states| == |actions| + 1 && a in states[k].drivers && states[k].drivers[a].Active? && states[k].drivers[a].current.Some?
    ensures var driver := states[k].drivers[a];
            (AtMarker(driver) && driver.run.status.Running?) || WasApproved(states, actions, k, driver.current.value.ref)
  {
    hide Inv, NamesOk, Validated, AllRun, WasApproved, AtMarker;
    RunStates(d, states, actions);
    RunStep(d, states, actions, k);
    HandsOutReady(d, states[k], states[k + 1], actions[k]);
    hide IsRun, Does;
    var driver := states[k].drivers[a];
    if AtMarker(driver) {
      RunRuns(d, states, actions, k);
      ReadyRuns(states[k], a);
    } else {
      RunInvolves(d, states, actions, k, a, driver.current.value.ref);
    }
  }

  lemma HandsOutReady(d: Definition, s: State, t: State, action: Action)
    requires Does(d, s, t, action) && action.AHandOut?
    ensures action.a in s.drivers && s.drivers[action.a].Active? && s.drivers[action.a].loc.Ready? && s.drivers[action.a].current.Some?
  {
    hide Greedy, Completed, StableFailure, AwaitsDecision;
  }

  lemma ReadyRuns(s: State, a: nat)
    requires AllRun(s) && a in s.drivers && s.drivers[a].Active? && s.drivers[a].loc.Ready? && AtMarker(s.drivers[a])
    ensures s.drivers[a].run.status.Running?
  {
    hide AtMarker;
    assert RunsWhenAtWork(s.drivers[a]);
  }
}
