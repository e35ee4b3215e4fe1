/** The durable workflow driver: pick a node, dispatch it, store a checkpoint, move the Run's marker,
    and only then unlock dependents. Any number of drivers, decisions, recoveries and crashes. */
module Workflow {
  import opened Wrappers
  import opened Order
  import opened Graph
  import opened RunMachine
  import opened Checkpoints
  import opened CheckpointStore
  import opened Coordinator

  datatype NodeKind = AgentNode(sideEffecting: bool) | EvaluationNode | ApprovalNode

  /** A validated definition and the Run it is executed for. */
  datatype Definition = Definition(g: Graph, kinds: map<Id, NodeKind>, run: RunId, scope: nat)

  ghost predicate Validated(d: Definition)
  {
    WellFormed(d.g) && Acyclic(d.g) && d.kinds.Keys == d.g.nodes
  }

  // ---------------------------------------------------------------- reading a checkpoint

  function Completed(b: Body): set<NodeId>
  {
    set n | n in b.states && b.states[n].outcome.NodeSucceeded?
  }

  predicate AwaitsDecision(b: Body)
  {
    exists n :: n in b.approvals && b.approvals[n].decision.None?
  }

  /** A committed evaluation failure is a terminal verdict, not interrupted work. */
  predicate StableFailure(d: Definition, b: Body)
  {
    exists n :: n in b.states && n in d.kinds && d.kinds[n].EvaluationNode? && !b.states[n].outcome.NodeSucceeded?
  }

  // ---------------------------------------------------------------- building the next checkpoint

  /** The next checkpoint of the Run above prev. */
  function Above(d: Definition, run: Run, prev: Body, ref: CheckpointRef, states: map<NodeId, NodeState>, pending: set<NodeId>,
                 effects: map<nat, SideEffect>, approvals: map<nat, Approval>): Body
  {
    Body(ref, run.id, d.scope, run.definition, run.graphVersion, prev.sequence + 1, run.attempt, Some(prev.ref),
         states, pending, effects, approvals)
  }

  function First(d: Definition, run: Run, ref: CheckpointRef): Body
  {
    Body(ref, run.id, d.scope, run.definition, run.graphVersion, 1, run.attempt, None, map[], d.g.nodes, map[], map[])
  }

  datatype Work = AgentDone(output: nat, key: nat, fingerprint: nat) | Verdict(outcome: NodeOutcome, reference: nat)

  function AfterAgent(d: Definition, run: Run, prev: Body, ref: CheckpointRef, n: Id, w: Work): Body
    requires n in d.kinds && d.kinds[n].AgentNode? && w.AgentDone?
  {
    Above(d, run, prev, ref, prev.states[n := NodeState(NodeSucceeded, Some(w.output), None, None)],
          d.g.nodes - (Completed(prev) + {n}),
          if d.kinds[n].sideEffecting then prev.effects[w.key := SideEffect(n, w.fingerprint, w.output)] else prev.effects,
          prev.approvals)
  }

  function AfterEvaluation(d: Definition, run: Run, prev: Body, ref: CheckpointRef, n: Id, w: Work): Body
    requires w.Verdict?
  {
    var passed := w.outcome.NodeSucceeded?;
    Above(d, run, prev, ref,
          prev.states[n := NodeState(w.outcome, if passed then Some(w.reference) else None,
                                     if passed then None else Some(w.reference), None)],
          d.g.nodes - (Completed(prev) + {n}), prev.effects, prev.approvals)
  }

  /** Approval identities are a function of Run and node; the node stands for its approval. */
  function AfterRequest(d: Definition, run: Run, prev: Body, ref: CheckpointRef, n: Id): Body
  {
    Above(d, run, prev, ref, prev.states[n := NodeState(NodeWaiting, None, None, Some(n))],
          d.g.nodes - Completed(prev) - {n}, prev.effects, prev.approvals[n := Approval(n, None)])
  }

  function OutcomeOf(decision: Option<Decision>): NodeOutcome
  {
    match decision
    case None => NodeWaiting
    case Some(Approved) => NodeSucceeded
    case Some(Rejected) => NodeDenied
    case Some(Withdrawn) => NodeCancelled
  }

  function AfterDecision(d: Definition, run: Run, prev: Body, ref: CheckpointRef, n: Id, decision: Decision): Body
  {
    var states := prev.states[n := NodeState(OutcomeOf(Some(decision)), None, None, Some(n))];
    var completed := set m | m in states && states[m].outcome.NodeSucceeded?;
    Above(d, run, prev, ref, states, d.g.nodes - completed - {n}, prev.effects, prev.approvals[n := Approval(n, Some(decision))])
  }

  // ---------------------------------------------------------------- drivers

  /** A checkpoint with a failed verdict proceeds too: what comes next sees the failure in it. */
  datatype After = Proceed | Wait | Decide(decision: Decision)

  /** Where an active driver stands between two awaits. */
  datatype Loc =
    | Launching(op: Op)
    | Opening
    | Restoring
    | Ready
    | Working(node: Id)
    | Deciding(post: Body, node: Id, decision: Decision)
    | Storing(next: Body, after: After)
    | Checked(next: Body, after: After)
    | Stored(next: Body, after: After)
    | Settling(op: Op)
    | Failing(op: Op, failed: Option<Id>)
    | Ending(op: Op, failed: Option<Id>, version: nat)

  datatype Cause = InputRefused | AuditFailed

  /** run is the Run value the driver acts on, current the checkpoint it continues from. A reporting
      driver has read the Run's version and is about to fail or pause it. */
  datatype Driver =
    | Off
    | Active(run: Run, current: Option<Body>, loc: Loc)
    | Reporting(op: Op, version: nat, cause: Cause)

  /** A node handed out for execution when commits had the given length. */
  datatype Dispatch = Dispatch(node: Id, upTo: nat)

  /** commits lists every checkpoint the marker has named, in order; names has every checkpoint
      reference that was ever generated, and a new one is never among them. */
  datatype State = State(store: Store, run: Run, commits: seq<Body>, drivers: map<nat, Driver>, log: seq<Dispatch>,
                         names: set<CheckpointRef>)

  ghost predicate Init(d: Definition, s: State)
  {
    && s.run == NewRun(d.run, Workflow, s.run.definition, s.run.graphVersion, 0)
    && s.store == Store(map[], map[]) && s.commits == [] && s.log == [] && s.names == {}
    && forall a :: a in s.drivers ==> s.drivers[a].Off?
  }

  ghost predicate Moves(s: State, t: State, a: nat, driver: Driver)
  {
    t == s.(drivers := s.drivers[a := driver])
  }

  /** The driver moves on with a checkpoint under a new reference. */
  ghost predicate Builds(s: State, t: State, a: nat, driver: Driver, ref: CheckpointRef)
  {
    ref !in s.names && t == s.(drivers := s.drivers[a := driver], names := s.names + {ref})
  }

  predicate IsOff(s: State, a: nat) { a in s.drivers && s.drivers[a].Off? }

  predicate At(s: State, a: nat) { a in s.drivers && s.drivers[a].Active? }

  /** execute found the Run CREATED and is going to start it. */
  ghost predicate Begin(s: State, t: State, a: nat)
  {
    IsOff(s, a) && s.run.status.Created? && Moves(s, t, a, Active(s.run, None, Launching(Start)))
  }

  function AfterStart(op: Op): Loc
  {
    if op.Start? then Launching(Advance(ContextLoading))
    else if op == Advance(ContextLoading) then Launching(Advance(Running)) else Opening
  }

  /** One of the three calls that bring the Run to RUNNING. */
  ghost predicate StartPhase(s: State, t: State, a: nat, now: int)
  {
    && At(s, a) && s.drivers[a].loc.Launching?
    && var driver := s.drivers[a];
       var done := Apply(s.run, driver.loc.op, driver.run.version, now);
       t == if done.Err? then s.(drivers := s.drivers[a := Off])
            else s.(run := done.run, drivers := s.drivers[a := driver.(run := done.run, loc := AfterStart(driver.loc.op))])
  }

  /** Only the call that started the Run builds its first checkpoint. */
  ghost predicate Launch(d: Definition, s: State, t: State, a: nat, ref: CheckpointRef)
  {
    && At(s, a) && s.drivers[a].loc.Opening? && s.drivers[a].current.None?
    && var driver := s.drivers[a];
       && Constructible(First(d, driver.run, ref))
       && Builds(s, t, a, driver.(loc := Storing(First(d, driver.run, ref), Proceed)), ref)
  }

  /** The committed checkpoint of the Run, as the gateway loads it. */
  function Marked(d: Definition, s: State): Outcome<Checkpoint>
  {
    if s.run.marker.None? then Raised(StoreRefused(NotFound)) else GatewayLoad(s.store, s.run.marker.value, s.run.id, d.scope)
  }

  /** execute on a RUNNING Run with a marker. */
  ghost predicate PickUp(d: Definition, s: State, t: State, a: nat)
  {
    && IsOff(s, a) && s.run.status.Running? && Marked(d, s).Done?
    && Moves(s, t, a, Active(s.run, Some(Marked(d, s).value.body), Ready))
  }

  /** recover: load the marker, then open a recovery attempt, then restore, then advance to RUNNING. */
  ghost predicate RecoverBegin(d: Definition, s: State, t: State, a: nat)
  {
    && IsOff(s, a) && !Terminal(s.run.status) && !s.run.status.Created? && Marked(d, s).Done?
    && var c := Marked(d, s).value.body;
       Moves(s, t, a, Active(s.run, Some(c), Settling(Recover(Some(c.ref)))))
  }

  /** A decision on an approval that the committed checkpoint of a waiting Run holds: the checkpoint
      with the decision is built from what was read. */
  ghost predicate DecideBegin(d: Definition, s: State, t: State, a: nat, n: Id, decision: Decision, ref: CheckpointRef)
  {
    && IsOff(s, a) && s.run.status.WaitingApproval? && Marked(d, s).Done?
    && var current := Marked(d, s).value.body;
       && n in current.approvals
       && var post := AfterDecision(d, s.run, current, ref, n, decision);
          && Constructible(post)
          && Builds(s, t, a, Active(s.run, Some(current), Deciding(post, n, decision)), ref)
  }

  /** The Run and its checkpoint are read again. An approval that is still open needs the Run as it
      was read first. A decision that is already there and identical returns the Run as it is now,
      and the driver goes on from a checkpoint nobody stored. */
  ghost predicate DecideAgain(d: Definition, s: State, t: State, a: nat)
  {
    && At(s, a) && s.drivers[a].loc.Deciding? && Marked(d, s).Done?
    && var driver, current := s.drivers[a], Marked(d, s).value.body;
       var n, decision := driver.loc.node, driver.loc.decision;
       && n in current.approvals
       && if current.approvals[n].decision.None? then
            && s.run.status.WaitingApproval? && s.run.version == driver.run.version
            && Moves(s, t, a, driver.(loc := Storing(driver.loc.post, Decide(decision))))
          else
            && current.approvals[n].decision == Some(decision)
            && Moves(s, t, a, if decision.Approved? then Active(s.run, Some(driver.loc.post), Ready) else Off)
  }

  /** The restorer answered. */
  ghost predicate Restored(s: State, t: State, a: nat)
  {
    At(s, a) && s.drivers[a].loc.Restoring? && Moves(s, t, a, s.drivers[a].(loc := Settling(Advance(Running))))
  }

  /** The restorer raised, and the recovery policy fails the Run. Otherwise the driver just ends. */
  ghost predicate RestoreFails(s: State, t: State, a: nat, detail: ErrorDetail)
  {
    At(s, a) && s.drivers[a].loc.Restoring? && Moves(s, t, a, s.drivers[a].(loc := Settling(Fail(detail))))
  }

  predicate AtReady(s: State, a: nat) { At(s, a) && s.drivers[a].loc.Ready? && s.drivers[a].current.Some? }

  /** The restored checkpoint still waits for a decision: park the Run. */
  ghost predicate Park(s: State, t: State, a: nat)
  {
    && AtReady(s, a) && AwaitsDecision(s.drivers[a].current.value)
    && Moves(s, t, a, if s.drivers[a].run.status.Running? then s.drivers[a].(loc := Settling(Advance(WaitingApproval))) else Off)
  }

  ghost predicate HandOut(d: Definition, s: State, t: State, a: nat)
  {
    && AtReady(s, a)
    && var current := s.drivers[a].current.value;
       && !AwaitsDecision(current) && !StableFailure(d, current)
       && Greedy(d.g, Completed(current)) != []
       && var n := Greedy(d.g, Completed(current))[0];
          t == s.(drivers := s.drivers[a := s.drivers[a].(loc := Working(n))], log := s.log + [Dispatch(n, |s.commits|)])
  }

  ghost predicate Finished(d: Definition, s: State, t: State, a: nat)
  {
    && AtReady(s, a)
    && var current := s.drivers[a].current.value;
       && !AwaitsDecision(current) && !StableFailure(d, current) && Completed(current) == d.g.nodes
       && Moves(s, t, a, s.drivers[a].(loc := Settling(Complete)))
  }

  /** A terminal failure fails the Run, or cancels it when the error is a cancellation. */
  predicate Terminates(op: Op) { op.Fail? || op.Cancel? }

  /** A failed evaluation on record is resolved before anything is scheduled. */
  ghost predicate FailsStably(d: Definition, s: State, t: State, a: nat, op: Op)
  {
    && AtReady(s, a) && Terminates(op)
    && !AwaitsDecision(s.drivers[a].current.value) && StableFailure(d, s.drivers[a].current.value)
    && Moves(s, t, a, s.drivers[a].(loc := Failing(op, None)))
  }

  /** The scheduler has pending work and no ready node. */
  ghost predicate Stalls(d: Definition, s: State, t: State, a: nat, op: Op)
  {
    && AtReady(s, a) && Terminates(op)
    && var current := s.drivers[a].current.value;
       && !AwaitsDecision(current) && !StableFailure(d, current)
       && Greedy(d.g, Completed(current)) == [] && Completed(current) != d.g.nodes
       && Moves(s, t, a, s.drivers[a].(loc := Failing(op, None)))
  }

  /** The dispatch of an agent node raised, or its result is an error. */
  ghost predicate AgentFails(d: Definition, s: State, t: State, a: nat, op: Op)
  {
    && At(s, a) && s.drivers[a].loc.Working? && s.drivers[a].loc.node in d.kinds && Terminates(op)
    && d.kinds[s.drivers[a].loc.node].AgentNode?
    && Moves(s, t, a, s.drivers[a].(loc := Failing(op, Some(s.drivers[a].loc.node))))
  }

  /** A terminal failure reads the Run as it is now; a terminal Run is left alone. */
  ghost predicate ReadLatest(s: State, t: State, a: nat)
  {
    && At(s, a) && s.drivers[a].loc.Failing?
    && var driver := s.drivers[a];
       Moves(s, t, a, if Terminal(s.run.status) then Off
                      else driver.(loc := Ending(driver.loc.op, driver.loc.failed, s.run.version)))
  }

  /** Then it ends the Run at the version it has just read. */
  ghost predicate EndRun(s: State, t: State, a: nat, now: int)
  {
    && At(s, a) && s.drivers[a].loc.Ending?
    && var done := Apply(s.run, s.drivers[a].loc.op, s.drivers[a].loc.version, now);
       t == s.(run := if done.Ok? then done.run else s.run, drivers := s.drivers[a := Off])
  }

  /** execute refused its input, or somewhere an authorization audit failed, which fails or pauses the
      Run: the handler first reads the Run. It runs on a driver of its own. */
  ghost predicate Report(s: State, t: State, a: nat, op: Op, cause: Cause)
  {
    && IsOff(s, a) && !Terminal(s.run.status) && (op.Fail? || (op.Pause? && cause.AuditFailed?))
    && Moves(s, t, a, Reporting(op, s.run.version, cause))
  }

  ghost predicate ReportEnds(s: State, t: State, a: nat, now: int)
  {
    && a in s.drivers && s.drivers[a].Reporting?
    && var done := Apply(s.run, s.drivers[a].op, s.drivers[a].version, now);
       t == s.(run := if done.Ok? then done.run else s.run, drivers := s.drivers[a := Off])
  }

  /** The dispatched node answers; its checkpoint is constructed, or the constructor raises. */
  ghost predicate Answer(d: Definition, s: State, t: State, a: nat, w: Work, ref: CheckpointRef)
  {
    && At(s, a) && s.drivers[a].loc.Working? && s.drivers[a].current.Some? && s.drivers[a].loc.node in d.kinds
    && var driver := s.drivers[a];
       var n, current := driver.loc.node, driver.current.value;
       match d.kinds[n]
       case AgentNode(sideEffecting) =>
         && w.AgentDone? && (sideEffecting ==> w.key !in current.effects)
         && Constructible(AfterAgent(d, driver.run, current, ref, n, w))
         && Builds(s, t, a, driver.(loc := Storing(AfterAgent(d, driver.run, current, ref, n, w), Proceed)), ref)
       case EvaluationNode =>
         && w.Verdict? && !w.outcome.NodeWaiting? && Constructible(AfterEvaluation(d, driver.run, current, ref, n, w))
         && Builds(s, t, a, driver.(loc := Storing(AfterEvaluation(d, driver.run, current, ref, n, w), Proceed)), ref)
       case ApprovalNode =>
         && s.run.status.Running? && n !in current.approvals && Constructible(AfterRequest(d, driver.run, current, ref, n))
         && Builds(s, t, a, driver.(loc := Storing(AfterRequest(d, driver.run, current, ref, n), Wait)), ref)
  }

  /** The coordinator's save reads the Run again and compares it with the checkpoint. */
  ghost predicate CheckPhase(s: State, t: State, a: nat)
  {
    && At(s, a) && s.drivers[a].loc.Storing?
    && var driver := s.drivers[a];
       && PassesChecks(s.store, s.run, Seal(driver.loc.next), driver.run.version)
       && Moves(s, t, a, driver.(loc := Checked(driver.loc.next, driver.loc.after)))
  }

  /** The checkpoint is stored, in whatever the store has become meanwhile. */
  ghost predicate StorePhase(s: State, t: State, a: nat)
  {
    && At(s, a) && s.drivers[a].loc.Checked?
    && var driver := s.drivers[a];
       && Save(s.store, Seal(driver.loc.next)).Saved?
       && t == s.(store := Save(s.store, Seal(driver.loc.next)).store,
                  drivers := s.drivers[a := driver.(loc := Stored(driver.loc.next, driver.loc.after))])
  }

  /** What the driver does once the marker has moved. */
  function Continue(run: Run, next: Body, after: After): Driver
  {
    match after
    case Proceed => Active(run, Some(next), Ready)
    case Wait => Active(run, Some(next), Settling(Advance(WaitingApproval)))
    case Decide(Approved) => Active(run, Some(next), Settling(Advance(Running)))
    case Decide(Rejected) => Active(run, Some(next), Settling(Fail(ErrorDetail(0, false))))
    case Decide(Withdrawn) => Active(run, Some(next), Settling(Cancel))
  }

  /** Compare-and-set of the marker. A refusal ends the driver. */
  ghost predicate CommitPhase(s: State, t: State, a: nat, now: int)
  {
    && At(s, a) && s.drivers[a].loc.Stored?
    && var driver := s.drivers[a];
       var next := driver.loc.next;
       var done := Apply(s.run, CommitCheckpoint(next.ref, driver.run.marker, None, None), driver.run.version, now);
       t == if done.Ok?
            then s.(run := done.run, commits := s.commits + [next],
                    drivers := s.drivers[a := Continue(done.run, next, driver.loc.after)])
            else s.(drivers := s.drivers[a := Off])
  }

  /** One call on the Run service at the version the driver holds. */
  ghost predicate Settle(s: State, t: State, a: nat, now: int)
  {
    && At(s, a) && s.drivers[a].loc.Settling?
    && var driver := s.drivers[a];
       var op := driver.loc.op;
       var done := Apply(s.run, op, driver.run.version, now);
       t == if done.Err? then s.(drivers := s.drivers[a := Off])
            else s.(run := done.run,
                    drivers := s.drivers[a := if op.Recover? then driver.(run := done.run, loc := Restoring)
                                              else if op == Advance(Running) then driver.(run := done.run, loc := Ready)
                                              else Off])
  }

  /** A caller of the Run service outside the workflow runtime: start, pause, resume, retry, fail,
      cancel, and so on. */
  ghost predicate Elsewhere(s: State, t: State, op: Op, expected: nat, now: int)
  {
    && !op.CommitCheckpoint? && !op.Complete?
    && var done := Apply(s.run, op, expected, now);
       done.Ok? && t == s.(run := done.run)
  }

  /** A crash or a raised error: everything local is lost. */
  ghost predicate Crash(s: State, t: State, a: nat)
  {
    a in s.drivers && Moves(s, t, a, Off)
  }

  /** An orphan that nobody is committing is deleted. CommitIntegrity's TargetIsOrphan is
      why it is in no committed chain. */
  ghost predicate DeleteOrphan(s: State, t: State, r: CheckpointRef)
  {
    && (forall i :: 0 <= i < |s.commits| ==> s.commits[i].ref != r)
    && (forall a :: At(s, a) && s.drivers[a].loc.Stored? ==> s.drivers[a].loc.next.ref != r)
    && t == s.(store := Remove(s.store, r))
  }

  datatype Action =
    | ABegin(a: nat) | AStart(a: nat, now: int) | ALaunch(a: nat, ref: CheckpointRef)
    | APickUp(a: nat) | ARecover(a: nat) | ARestored(a: nat) | ARestoreFails(a: nat, detail: ErrorDetail)
    | ADecide(a: nat, n: Id, decision: Decision, ref: CheckpointRef)
    | ADecideAgain(a: nat)
    | APark(a: nat) | AHandOut(a: nat) | AFinished(a: nat) | AAnswer(a: nat, w: Work, ref: CheckpointRef)
    | AFailsStably(a: nat, op: Op) | AStalls(a: nat, op: Op) | AAgentFails(a: nat, op: Op) | AReadLatest(a: nat) | AEnd(a: nat, now: int)
    | AReport(a: nat, op: Op, cause: Cause) | AReportEnds(a: nat, now: int)
    | ACheck(a: nat) | AStore(a: nat) | ACommit(a: nat, now: int) | ASettle(a: nat, now: int)
    | AElsewhere(op: Op, expected: nat, now: int) | ACrash(a: nat) | ADelete(r: CheckpointRef)

  ghost predicate Does(d: Definition, s: State, t: State, action: Action)
  {
    match action
    case ABegin(a) => Begin(s, t, a)
    case AStart(a, now) => StartPhase(s, t, a, now)
    case ALaunch(a, ref) => Launch(d, s, t, a, ref)
    case APickUp(a) => PickUp(d, s, t, a)
    case ARecover(a) => RecoverBegin(d, s, t, a)
    case ARestored(a) => Restored(s, t, a)
    case ARestoreFails(a, detail) => RestoreFails(s, t, a, detail)
    case ADecide(a, n, decision, ref) => DecideBegin(d, s, t, a, n, decision, ref)
    case ADecideAgain(a) => DecideAgain(d, s, t, a)
    case APark(a) => Park(s, t, a)
    case AHandOut(a) => HandOut(d, s, t, a)
    case AFinished(a) => Finished(d, s, t, a)
    case AAnswer(a, w, ref) => Answer(d, s, t, a, w, ref)
    case AFailsStably(a, op) => FailsStably(d, s, t, a, op)
    case AStalls(a, op) => Stalls(d, s, t, a, op)
    case AAgentFails(a, op) => AgentFails(d, s, t, a, op)
    case AReadLatest(a) => ReadLatest(s, t, a)
    case AEnd(a, now) => EndRun(s, t, a, now)
    case AReport(a, op, cause) => Report(s, t, a, op, cause)
    case AReportEnds(a, now) => ReportEnds(s, t, a, now)
    case ACheck(a) => CheckPhase(s, t, a)
    case AStore(a) => StorePhase(s, t, a)
    case ACommit(a, now) => CommitPhase(s, t, a, now)
    case ASettle(a, now) => Settle(s, t, a, now)
    case AElsewhere(op, expected, now) => Elsewhere(s, t, op, expected, now)
    case ACrash(a) => Crash(s, t, a)
    case ADelete(r) => DeleteOrphan(s, t, r)
  }

  ghost predicate IsRun(d: Definition, states: seq<State>, actions: seq<Action>)
  {
    && |states| == |actions| + 1 && Init(d, states[0])
    && forall i :: 0 <= i < |actions| ==> Does(d, states[i], states[i + 1], actions[i])
  }
}
