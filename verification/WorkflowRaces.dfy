/** Executions that end where a driver can make no further progress: after a repeated approval, and
    after a refusal that a crash separated from the Run's failure. */
module WorkflowRaces {
  import opened Wrappers
  import Order
  import opened Graph
  import G = Graph
  import opened RunMachine
  import opened Checkpoints
  import opened CheckpointStore
  import opened Coordinator
  import opened Workflow
  import opened WorkflowContent
  import opened WorkflowInvariant
  import opened WorkflowSteps
  import opened WorkflowLimits
  import opened WorkflowFinals
  import opened WorkflowProgress
  import opened WorkflowOpening

  // ---------------------------------------------------------------- an approval before an agent

  const GRAPH := Graph({0, 1}, {Edge(0, 1)})
  const DEFINITION := Definition(GRAPH, map[0 := ApprovalNode, 1 := AgentNode(false)], 0, 0)

  lemma ReadySets()
    ensures G.Ready(GRAPH, {}) == {0} && G.Ready(GRAPH, {0}) == {1} && G.Ready(GRAPH, {0, 1}) == {}
  {
    assert Preds(GRAPH, 0) == {};
    assert Preds(GRAPH, 1) == {0};
  }

  lemma GreedyOrder()
    ensures Greedy(GRAPH, {}) == [0, 1] && Greedy(GRAPH, {0}) == [1]
  {
    ReadySets();
    hide G.Ready;
    assert {} + {0} == {0} && {0} + {1} == {0, 1};
    assert Greedy(GRAPH, {0, 1}) == [];
    assert Greedy(GRAPH, {0}) == [1] + Greedy(GRAPH, {0} + {1});
    assert Greedy(GRAPH, {}) == [0] + Greedy(GRAPH, {} + {0});
  }

  lemma DefinitionOpens()
    ensures Opens(DEFINITION)
  {
    GreedyOrder();
    hide Greedy, Acyclic;
    SortableIffAcyclic(GRAPH);
    assert Order.Elements([0, 1]) == GRAPH.nodes;
  }

  const FIRST := FirstOf(DEFINITION)
  const STORE1 := FirstStore(DEFINITION)

  // ---------------------------------------------------------------- the approval is requested

  const REQUEST := AfterRequest(DEFINITION, RunAt(Running, 4, Some(REFS[0])), FIRST, REFS[1], 0)

  lemma RequestFacts()
    ensures Constructible(REQUEST) && REQUEST.approvals == map[0 := Approval(0, None)] && REQUEST.pending == {1}
    ensures REQUEST.states == map[0 := NodeState(NodeWaiting, None, None, Some(0))] && REQUEST.effects == map[]
  {
    assert Completed(FIRST) == {};
  }

  function Picked(): State
  {
    Opened(DEFINITION).(drivers := map[0 := Active(RunAt(Running, 4, Some(REFS[0])), Some(FIRST), Working(0))], log := [Dispatch(0, 1)])
  }

  function Requesting(): State
  {
    Picked().(drivers := map[0 := Active(RunAt(Running, 4, Some(REFS[0])), Some(FIRST), Storing(REQUEST, Wait))],
              names := {REFS[0], REFS[1]})
  }

  const ANSWER := AgentDone(0, 0, 0)

  lemma PicksApproval()
    ensures Does(DEFINITION, Opened(DEFINITION), Picked(), AHandOut(0))
  {
    DefinitionOpens();
    FirstFacts(DEFINITION);
    GreedyOrder();
    hide Greedy, Completed, AwaitsDecision, StableFailure;
  }

  lemma RequestsApproval()
    ensures Does(DEFINITION, Picked(), Requesting(), AAnswer(0, ANSWER, REFS[1]))
  {
    RequestFacts();
    assert {REFS[0]} + {REFS[1]} == {REFS[0], REFS[1]};
    hide Constructible, AfterRequest;
  }

  const REQUESTS := OPENING + [AHandOut(0)] + [AAnswer(0, ANSWER, REFS[1])]

  lemma RequestingFromStart() returns (states: seq<State>)
    ensures IsRun(DEFINITION, states, REQUESTS) && Last(states) == Requesting() && NothingFrom(STORE1, 0, 2)
  {
    DefinitionOpens();
    states := OpenedFromStart(DEFINITION);
    PicksApproval();
    RequestsApproval();
    hide IsRun, Does, NothingFrom;
    Extends(DEFINITION, states, OPENING, Picked(), AHandOut(0));
    Extends(DEFINITION, states + [Picked()], OPENING + [AHandOut(0)], Requesting(), AAnswer(0, ANSWER, REFS[1]));
    states := states + [Picked()] + [Requesting()];
  }

  const STORE2 := Insert(STORE1, Seal(REQUEST))

  function Requested(): State
  {
    State(STORE2, RunAt(Running, 5, Some(REFS[1])), [FIRST, REQUEST],
          map[0 := Active(RunAt(Running, 5, Some(REFS[1])), Some(REQUEST), Settling(Advance(WaitingApproval)))],
          [Dispatch(0, 1)], {REFS[0], REFS[1]})
  }

  function Waits(): State { Requested().(run := RunAt(WaitingApproval, 6, Some(REFS[1])), drivers := map[0 := Off]) }

  const PARKS := REQUESTS + SAVES + [ASettle(0, 0)]

  lemma RequestIsSaved()
    requires NothingFrom(STORE1, 0, 2)
    ensures Uncontended(DEFINITION, Requesting(), 0) && AfterSave(Requesting(), 0, 0) == Requested()
  {
    assert REQUEST.ref == REFS[1];
    hide NothingFrom, AfterRequest, Insert;
  }

  lemma ApprovalParks()
    ensures Does(DEFINITION, Requested(), Waits(), ASettle(0, 0))
  {
  }

  lemma WaitsFromStart() returns (states: seq<State>)
    ensures IsRun(DEFINITION, states, PARKS) && Last(states) == Waits() && NothingFrom(STORE2, 0, 3)
  {
    states := RequestingFromStart();
    DefinitionOpens();
    RequestIsSaved();
    ApprovalParks();
    hide IsRun, Uncontended, Validated, AfterSave, Does, NothingFrom;
    states := UncontendedSaveCommits(DEFINITION, states, REQUESTS, 0, 0);
    Extends(DEFINITION, states, REQUESTS + SAVES, Waits(), ASettle(0, 0));
    states := states + [Waits()];
  }

  // ---------------------------------------------------------------- a decision is committed, then a crash

  function Decided(decision: Decision): Body
  {
    AfterDecision(DEFINITION, RunAt(WaitingApproval, 6, Some(REFS[1])), REQUEST, REFS[2], 0, decision)
  }

  lemma DecidedFacts(decision: Decision)
    ensures var b := Decided(decision);
            && Constructible(b) && b.approvals == map[0 := Approval(0, Some(decision))] && b.effects == map[]
            && b.states == map[0 := NodeState(OutcomeOf(Some(decision)), None, None, Some(0))]
            && b.pending == {1}
  {
    RequestFacts();
    hide AfterRequest;
  }

  function DecisionPending(decision: Decision): State
  {
    Waits().(drivers := map[0 := Active(RunAt(WaitingApproval, 6, Some(REFS[1])), Some(REQUEST), Deciding(Decided(decision), 0, decision))],
             names := {REFS[0], REFS[1], REFS[2]})
  }

  function DecisionBuilt(decision: Decision): State
  {
    DecisionPending(decision).(drivers := map[0 := Active(RunAt(WaitingApproval, 6, Some(REFS[1])), Some(REQUEST),
                                                    Storing(Decided(decision), Decide(decision)))])
  }

  lemma DecisionRead(decision: Decision)
    requires Marked(DEFINITION, Waits()) == Done(Seal(REQUEST))
    ensures Does(DEFINITION, Waits(), DecisionPending(decision), ADecide(0, 0, decision, REFS[2]))
  {
    RequestFacts();
    DecidedFacts(decision);
    assert {REFS[0], REFS[1]} + {REFS[2]} == {REFS[0], REFS[1], REFS[2]};
    hide Marked, AfterRequest, AfterDecision, Constructible;
  }

  lemma DecisionReread(decision: Decision)
    requires Marked(DEFINITION, DecisionPending(decision)) == Done(Seal(REQUEST))
    ensures Does(DEFINITION, DecisionPending(decision), DecisionBuilt(decision), ADecideAgain(0))
  {
    RequestFacts();
    hide Marked, AfterRequest, AfterDecision, Constructible;
  }

  function DecideActions(decision: Decision): seq<Action> { PARKS + [ADecide(0, 0, decision, REFS[2])] + [ADecideAgain(0)] }

  lemma BuiltFromStart(decision: Decision) returns (states: seq<State>)
    ensures IsRun(DEFINITION, states, DecideActions(decision)) && Last(states) == DecisionBuilt(decision) && NothingFrom(STORE2, 0, 3)
  {
    states := WaitsFromStart();
    hide IsRun, NothingFrom, Decided;
    DefinitionOpens();
    MarkedInRun(DEFINITION, states, PARKS);
    DecisionRead(decision);
    hide Does;
    Extends(DEFINITION, states, PARKS, DecisionPending(decision), ADecide(0, 0, decision, REFS[2]));
    states := states + [DecisionPending(decision)];
    MarkedInRun(DEFINITION, states, PARKS + [ADecide(0, 0, decision, REFS[2])]);
    DecisionReread(decision);
    Extends(DEFINITION, states, PARKS + [ADecide(0, 0, decision, REFS[2])], DecisionBuilt(decision), ADecideAgain(0));
    states := states + [DecisionBuilt(decision)];
  }

  function Committed(decision: Decision): State
  {
    var run := RunAt(WaitingApproval, 7, Some(REFS[2]));
    State(Insert(STORE2, Seal(Decided(decision))), run, [FIRST, REQUEST, Decided(decision)],
          map[0 := Continue(run, Decided(decision), Decide(decision))], [Dispatch(0, 1)], {REFS[0], REFS[1], REFS[2]})
  }

  /** The driver is gone, and the Run still waits for the approval its checkpoint has decided. */
  function Left(decision: Decision): State { Committed(decision).(drivers := map[0 := Off]) }

  lemma DecisionIsSaved(decision: Decision)
    requires NothingFrom(STORE2, 0, 3)
    ensures Uncontended(DEFINITION, DecisionBuilt(decision), 0)
    ensures AfterSave(DecisionBuilt(decision), 0, 0) == Committed(decision)
  {
    assert REQUEST.ref == REFS[1] && Decided(decision).ref == REFS[2];
    hide NothingFrom, AfterRequest, AfterDecision, Insert, Continue;
  }

  lemma CrashesAfter(decision: Decision)
    ensures Does(DEFINITION, Committed(decision), Left(decision), ACrash(0))
  {
    hide Decided, Continue, Insert;
  }

  lemma LeftNames(decision: Decision)
    ensures LeftActions(decision) == DecideActions(decision) + SAVES + [ACrash(0)]
    ensures Left(decision).commits == [FIRST, REQUEST, Decided(decision)]
  {
  }

  function LeftActions(decision: Decision): seq<Action> { DecideActions(decision) + SAVES + [ACrash(0)] }

  lemma LeftFromStart(decision: Decision) returns (states: seq<State>)
    ensures IsRun(DEFINITION, states, LeftActions(decision)) && Last(states) == Left(decision)
    ensures Marked(DEFINITION, Left(decision)) == Done(Seal(Decided(decision)))
  {
    states := BuiltFromStart(decision);
    DefinitionOpens();
    DecisionIsSaved(decision);
    CrashesAfter(decision);
    hide *;
    states := UncontendedSaveCommits(DEFINITION, states, DecideActions(decision), 0, 0);
    Extends(DEFINITION, states, DecideActions(decision) + SAVES, Left(decision), ACrash(0));
    states := states + [Left(decision)];
    LeftNames(decision);
    MarkedInRun(DEFINITION, states, LeftActions(decision));
  }

  // ---------------------------------------------------------------- the approval made again

  const SETTLED := RunAt(WaitingApproval, 7, Some(REFS[2]))

  const REPLAY := AfterDecision(DEFINITION, SETTLED, Decided(Approved), REFS[3], 0, Approved)

  lemma ReplayFacts()
    ensures Constructible(REPLAY) && REPLAY.approvals == map[0 := Approval(0, Some(Approved))] && REPLAY.effects == map[]
    ensures REPLAY.states == map[0 := NodeState(NodeSucceeded, None, None, Some(0))] && REPLAY.pending == {1}
    ensures REPLAY.ref == REFS[3]
    ensures Completed(REPLAY) == {0} && !AwaitsDecision(REPLAY) && !StableFailure(DEFINITION, REPLAY)
  {
    DecidedFacts(Approved);
    hide Decided;
  }

  function Replaying(): State
  {
    Left(Approved).(drivers := map[0 := Active(SETTLED, Some(Decided(Approved)), Deciding(REPLAY, 0, Approved))],
                    names := {REFS[0], REFS[1], REFS[2], REFS[3]})
  }

  /** The driver goes on from the checkpoint that nobody stored. */
  function GoesOn(): State { Replaying().(drivers := map[0 := Active(SETTLED, Some(REPLAY), Workflow.Ready)]) }

  function HandsOut(): State
  {
    GoesOn().(drivers := map[0 := Active(SETTLED, Some(REPLAY), Working(1))], log := [Dispatch(0, 1), Dispatch(1, 3)])
  }

  const WASTED := AfterAgent(DEFINITION, SETTLED, REPLAY, REFS[4], 1, ANSWER)

  function Worked(): State
  {
    HandsOut().(drivers := map[0 := Active(SETTLED, Some(REPLAY), Storing(WASTED, Proceed))],
                names := {REFS[0], REFS[1], REFS[2], REFS[3], REFS[4]})
  }

  lemma ReplayRead()
    requires Marked(DEFINITION, Left(Approved)) == Done(Seal(Decided(Approved)))
    ensures Does(DEFINITION, Left(Approved), Replaying(), ADecide(0, 0, Approved, REFS[3]))
  {
    DecidedFacts(Approved);
    ReplayFacts();
    assert {REFS[0], REFS[1], REFS[2]} + {REFS[3]} == {REFS[0], REFS[1], REFS[2], REFS[3]};
    hide Marked, Decided, AfterDecision, Constructible, Insert;
  }

  lemma ReplayReread()
    requires Marked(DEFINITION, Replaying()) == Done(Seal(Decided(Approved)))
    ensures Does(DEFINITION, Replaying(), GoesOn(), ADecideAgain(0))
  {
    DecidedFacts(Approved);
    hide Marked, Decided, AfterDecision, Constructible, Insert;
  }

  lemma ReplayHandsOut()
    ensures Does(DEFINITION, GoesOn(), HandsOut(), AHandOut(0))
  {
    ReplayFacts();
    GreedyOrder();
    hide Decided, AfterDecision, Greedy, Completed, AwaitsDecision, StableFailure, Insert;
  }

  lemma WastedFacts()
    ensures Constructible(WASTED)
  {
    ReplayFacts();
    hide Decided, AfterDecision, AwaitsDecision, StableFailure;
  }

  /** Any driver at work on an agent node may get its answer. */
  lemma AgentAnswers(d: Definition, s: State, t: State, w: Work, ref: CheckpointRef)
    requires At(s, 0) && s.drivers[0].loc.Working? && s.drivers[0].current.Some? && w.AgentDone? && ref !in s.names
    requires s.drivers[0].loc.node in d.kinds && d.kinds[s.drivers[0].loc.node] == AgentNode(false)
    requires var next := AfterAgent(d, s.drivers[0].run, s.drivers[0].current.value, ref, s.drivers[0].loc.node, w);
             && Constructible(next)
             && t == s.(drivers := s.drivers[0 := s.drivers[0].(loc := Storing(next, Proceed))], names := s.names + {ref})
    ensures Does(d, s, t, AAnswer(0, w, ref))
  {
    hide AfterAgent, Constructible;
    assert Answer(d, s, t, 0, w, ref);
  }

  lemma ReplayAnswers()
    ensures Does(DEFINITION, HandsOut(), Worked(), AAnswer(0, ANSWER, REFS[4]))
  {
    WastedFacts();
    var s, t := HandsOut(), Worked();
    assert s.names + {REFS[4]} == t.names;
    hide Decided, AfterDecision, AfterAgent, Constructible, Insert;
    assert t.drivers == s.drivers[0 := s.drivers[0].(loc := Storing(WASTED, Proceed))];
    hide Does;
    AgentAnswers(DEFINITION, s, t, ANSWER, REFS[4]);
  }

  function ReplayActions(): seq<Action>
  {
    LeftActions(Approved) + [ADecide(0, 0, Approved, REFS[3])] + [ADecideAgain(0)] + [AHandOut(0)] + [AAnswer(0, ANSWER, REFS[4])]
  }

  lemma ReplayFromStart() returns (states: seq<State>)
    ensures IsRun(DEFINITION, states, LeftActions(Approved) + [ADecide(0, 0, Approved, REFS[3])] + [ADecideAgain(0)])
    ensures Last(states) == GoesOn()
  {
    states := LeftFromStart(Approved);
    ReplayRead();
    hide IsRun, Does, LeftActions, Left, Decided, Marked;
    var actions := LeftActions(Approved);
    Extends(DEFINITION, states, actions, Replaying(), ADecide(0, 0, Approved, REFS[3]));
    states, actions := states + [Replaying()], actions + [ADecide(0, 0, Approved, REFS[3])];
    ReplayingCommits();
    DefinitionOpens();
    MarkedInRun(DEFINITION, states, actions);
    ReplayReread();
    Extends(DEFINITION, states, actions, GoesOn(), ADecideAgain(0));
    states := states + [GoesOn()];
  }

  lemma ReplayingCommits()
    ensures Replaying().commits == [FIRST, REQUEST, Decided(Approved)]
  {
  }

  /** An approval is decided again after a crash: the driver goes on from an unstored copy, hands out
      the next node and gets its answer, and then cannot even begin to save it. */
  lemma RepeatedApproval() returns (states: seq<State>)
    ensures IsRun(DEFINITION, states, ReplayActions())
    ensures var s := Last(states);
            && s.log != [] && s.log[|s.log| - 1] == Dispatch(1, |s.commits|)
            && At(s, 0) && s.drivers[0].loc == Storing(WASTED, Proceed) && !Home(s.commits, s.run, s.drivers[0].current)
            && !PassesChecks(s.store, s.run, Seal(WASTED), s.drivers[0].run.version)
  {
    states := ReplayFromStart();
    ReplayHandsOut();
    ReplayAnswers();
    ReplayFacts();
    var actions := LeftActions(Approved) + [ADecide(0, 0, Approved, REFS[3])] + [ADecideAgain(0)];
    hide IsRun, Does, LeftActions, Decided, AfterDecision, Constructible, Insert, PassesChecks;
    Extends(DEFINITION, states, actions, HandsOut(), AHandOut(0));
    states, actions := states + [HandsOut()], actions + [AHandOut(0)];
    Extends(DEFINITION, states, actions, Worked(), AAnswer(0, ANSWER, REFS[4]));
    states, actions := states + [Worked()], actions + [AAnswer(0, ANSWER, REFS[4])];
    assert !Home(Worked().commits, Worked().run, Worked().drivers[0].current);
    DefinitionOpens();
    RunStates(DEFINITION, states, actions);
    RunKeepsInv(DEFINITION, states, actions, |states| - 1);
    hide Inv, Home;
    SaveBeginsExactly(DEFINITION, Worked(), 0);
  }

  // ---------------------------------------------------------------- recovery after a refusal

  /** The Run on its second attempt, opened by recovery. */
  function RecoveredAt(status: Status, version: nat): Run
  {
    SETTLED.(status := status, version := version, attempt := 2,
             history := [AttemptRecord(1, 0, Some(0), Some(Interrupted), None, None),
                         AttemptRecord(2, 0, None, None, Some(REFS[2]), None)])
  }

  function Resumes(run: Run, loc: Loc): State
  {
    Left(Rejected).(run := run, drivers := map[0 := Active(run, Some(Decided(Rejected)), loc)])
  }

  function Stuck(): State
  {
    Resumes(RecoveredAt(Running, 9), Working(0)).(log := [Dispatch(0, 1), Dispatch(0, 3)])
  }

  lemma RecoveryReads()
    requires Marked(DEFINITION, Left(Rejected)) == Done(Seal(Decided(Rejected)))
    ensures Does(DEFINITION, Left(Rejected), Resumes(SETTLED, Settling(Recover(Some(REFS[2])))), ARecover(0))
  {
    assert Decided(Rejected).ref == REFS[2];
    hide Marked, Decided, Insert;
  }

  lemma RecoveryMakes()
    ensures Apply(SETTLED, Recover(Some(REFS[2])), 7, 0) == Ok(RecoveredAt(Recovering, 8))
    ensures Apply(RecoveredAt(Recovering, 8), Advance(Running), 8, 0) == Ok(RecoveredAt(Running, 9))
  {
    assert SETTLED.history[..0] == [];
    assert CloseAttempt(SETTLED, 0, Interrupted, None) == [AttemptRecord(1, 0, Some(0), Some(Interrupted), None, None)];
  }

  lemma RecoveryOpens()
    ensures Does(DEFINITION, Resumes(SETTLED, Settling(Recover(Some(REFS[2])))),
                 Resumes(RecoveredAt(Recovering, 8), Restoring), ASettle(0, 0))
    ensures Does(DEFINITION, Resumes(RecoveredAt(Recovering, 8), Restoring),
                 Resumes(RecoveredAt(Recovering, 8), Settling(Advance(Running))), ARestored(0))
  {
    RecoveryMakes();
    hide Decided, Insert, Apply;
  }

  lemma RecoveryAdvances()
    ensures Does(DEFINITION, Resumes(RecoveredAt(Recovering, 8), Settling(Advance(Running))),
                 Resumes(RecoveredAt(Running, 9), Workflow.Ready), ASettle(0, 0))
  {
    RecoveryMakes();
    hide Decided, Insert, Apply;
  }

  lemma RejectedFacts()
    ensures var b := Decided(Rejected);
            Completed(b) == {} && !AwaitsDecision(b) && !StableFailure(DEFINITION, b)
  {
    DecidedFacts(Rejected);
    hide Decided;
  }

  lemma RecoveryPicks()
    ensures Does(DEFINITION, Resumes(RecoveredAt(Running, 9), Workflow.Ready), Stuck(), AHandOut(0))
  {
    RejectedFacts();
    GreedyOrder();
    hide Decided, Insert, Greedy, Completed, AwaitsDecision, StableFailure;
  }

  function RecoverActions(): seq<Action>
  {
    LeftActions(Rejected) + [ARecover(0)] + [ASettle(0, 0)] + [ARestored(0)] + [ASettle(0, 0)] + [AHandOut(0)]
  }

  lemma StuckFromStart() returns (states: seq<State>)
    ensures IsRun(DEFINITION, states, RecoverActions()) && Last(states) == Stuck()
  {
    states := LeftFromStart(Rejected);
    RecoveryReads();
    RecoveryOpens();
    RecoveryAdvances();
    RecoveryPicks();
    hide IsRun, Does, LeftActions, Resumes, Left, Decided, RecoveredAt, Stuck;
    var actions := LeftActions(Rejected);
    Extends(DEFINITION, states, actions, Resumes(SETTLED, Settling(Recover(Some(REFS[2])))), ARecover(0));
    states, actions := states + [Resumes(SETTLED, Settling(Recover(Some(REFS[2]))))], actions + [ARecover(0)];
    Extends(DEFINITION, states, actions, Resumes(RecoveredAt(Recovering, 8), Restoring), ASettle(0, 0));
    states, actions := states + [Resumes(RecoveredAt(Recovering, 8), Restoring)], actions + [ASettle(0, 0)];
    Extends(DEFINITION, states, actions, Resumes(RecoveredAt(Recovering, 8), Settling(Advance(Running))), ARestored(0));
    states, actions := states + [Resumes(RecoveredAt(Recovering, 8), Settling(Advance(Running)))], actions + [ARestored(0)];
    Extends(DEFINITION, states, actions, Resumes(RecoveredAt(Running, 9), Workflow.Ready), ASettle(0, 0));
    states, actions := states + [Resumes(RecoveredAt(Running, 9), Workflow.Ready)], actions + [ASettle(0, 0)];
    Extends(DEFINITION, states, actions, Stuck(), AHandOut(0));
    states := states + [Stuck()];
  }

  /** A rejection is committed and the driver crashes before the Run fails: recovery brings the Run
      back to RUNNING and picks the refused approval, and no answer to it can be recorded. */
  lemma RefusalRecovered(ref: CheckpointRef) returns (states: seq<State>)
    requires ref !in Stuck().names
    ensures IsRun(DEFINITION, states, RecoverActions())
    ensures var s := Last(states);
            && s.run.status.Running? && DeadLast(DEFINITION, s) && At(s, 0) && s.drivers[0].loc == Working(0)
            && !exists t, w :: Answer(DEFINITION, s, t, 0, w, ref)
  {
    states := StuckFromStart();
    DecidedFacts(Rejected);
    var b := Decided(Rejected);
    assert b.approvals[0].decision == Some(Rejected);
    assert HoldsDecision(b, Rejected);
    assert At(Stuck(), 0) && Stuck().drivers[0].loc == Working(0) && Stuck().drivers[0].current == Some(b);
    assert Stuck().commits[2] == b && |Stuck().commits| == 3 && Stuck().run.status.Running?;
    DefinitionOpens();
    hide Stuck, Decided, Answer, HoldsDecision, RecoverActions, Validated, IsRun, Does;
    RunStates(DEFINITION, states, RecoverActions());
    RunKeepsInv(DEFINITION, states, RecoverActions(), |states| - 1);
    hide Inv, NamesOk;
    RequestedExactly(DEFINITION, Stuck(), 0, ref);
  }
}
