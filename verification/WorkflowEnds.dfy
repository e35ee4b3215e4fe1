/** Why a Run changes status: for every call the runtime makes on the Run service, what the driver and
    the committed checkpoint say at that moment. */
module WorkflowEnds {
  import opened Wrappers
  import opened Order
  import opened Graph
  import opened RunMachine
  import opened Checkpoints
  import opened CheckpointStore
  import opened Coordinator
  import opened Workflow
  import opened WorkflowContent
  import opened WorkflowInvariant
  import opened WorkflowSteps
  import opened WorkflowSafety

  // ---------------------------------------------------------------- reasons

  ghost predicate LastHolds(s: State, decision: Decision)
  {
    s.commits != [] && HoldsDecision(s.commits[|s.commits| - 1], decision)
  }

  /** The committed checkpoint has a failed evaluation on record. */
  ghost predicate EvaluationFailed(d: Definition, s: State)
  {
    s.commits != [] && StableFailure(d, s.commits[|s.commits| - 1])
  }

  /** The driver ends the Run over an agent node that was handed out from the checkpoint the driver
      continues from, with every dependency succeeded there and the node itself unsettled. */
  ghost predicate NodeFailed(d: Definition, s: State, driver: Driver)
  {
    && driver.Active? && driver.loc.Ending? && driver.loc.failed.Some? && driver.current.Some?
    && var n, b := driver.loc.failed.value, driver.current.value;
       && n in d.kinds && d.kinds[n].AgentNode? && n !in b.states && Preds(d.g, n) <= Completed(b)
       && HandedOut(s.commits, s.log, n, b)
  }

  /** The reason for the Run's next status, in the state before the call of driver a. */
  ghost predicate Justified(d: Definition, s: State, a: nat, next: Status)
    requires a in s.drivers
  {
    match next
    case Starting => s.run.status.Created? && s.commits == []
    case ContextLoading => s.run.status.Starting? && s.commits == []
    case Running =>
      || (s.run.status.ContextLoading? && s.commits == []) || (s.run.status.Recovering? && s.commits != [])
      || (s.run.status.WaitingApproval? && LastHolds(s, Approved))
    case WaitingApproval => s.run.status.Running? && s.commits != [] && AwaitsDecision(s.commits[|s.commits| - 1])
    case Recovering => s.commits != []
    case Paused => s.drivers[a].Reporting? && s.drivers[a].cause.AuditFailed?
    case Succeeded => s.commits != [] && Completed(s.commits[|s.commits| - 1]) == d.g.nodes
    case Failed =>
      || (s.run.status.WaitingApproval? && LastHolds(s, Rejected)) || EvaluationFailed(d, s) || NodeFailed(d, s, s.drivers[a])
      || (s.run.status.Recovering? && s.commits != []) || s.drivers[a].Reporting?
    case Cancelled =>
      (s.run.status.WaitingApproval? && LastHolds(s, Withdrawn)) || EvaluationFailed(d, s) || NodeFailed(d, s, s.drivers[a])
    case _ => false
  }

  // ---------------------------------------------------------------- the calls of a driver

  /** What an operation makes of the Run, if it changes its status. */
  lemma StatusMade(run: Run, op: Op, expected: nat, now: int)
    requires Apply(run, op, expected, now).Ok? && Apply(run, op, expected, now).run.status != run.status
    ensures var next := Apply(run, op, expected, now).run.status;
            && (op.Start? ==> next.Starting?) && (op.Complete? ==> next.Succeeded?) && (op.Fail? ==> next.Failed?)
            && (op.Cancel? ==> next.Cancelled?) && (op.Pause? ==> next.Paused?) && (op.Recover? ==> next.Recovering?)
            && (op.Advance? ==> next == op.target && MayAdvance(run.status, next))
  {
    hide CloseAttempt, OpenAttempt;
  }

  lemma SettlingFacts(d: Definition, s: State, a: nat)
    requires Inv(d, s) && At(s, a) && s.drivers[a].loc.Settling?
    ensures s.drivers[a].current.Some?
    ensures SettleOk(d, s.commits, s.drivers[a].run, s.drivers[a].current.value, s.drivers[a].loc.op)
  {
    DriverIsOk(d, s, a);
    hide Inv, SettleOk, Sound, Home, Away;
  }

  lemma SettleSteps(s: State, t: State, a: nat, now: int)
    requires Settle(s, t, a, now) && t.run != s.run
    ensures At(s, a) && s.drivers[a].loc.Settling? && t.commits == s.commits
    ensures Apply(s.run, s.drivers[a].loc.op, s.drivers[a].run.version, now) == Ok(t.run)
  {
    hide Apply;
  }

  /** A call from home is justified by the last committed checkpoint. */
  lemma HomeJustifies(d: Definition, s: State, a: nat, op: Op, b: Body, next: Status)
    requires a in s.drivers && s.commits != [] && b == s.commits[|s.commits| - 1] && next != s.run.status
    requires SettleOk(d, s.commits, s.run, b, op)
    requires (op.Complete? ==> next.Succeeded?) && (op.Fail? ==> next.Failed?) && (op.Cancel? ==> next.Cancelled?)
    requires (op.Recover? ==> next.Recovering?) && (op.Advance? ==> next == op.target && MayAdvance(s.run.status, next))
    ensures Justified(d, s, a, next)
  {
    hide Home, HoldsDecision, AwaitsDecision, Completed, EvaluationFailed, NodeFailed;
  }

  lemma SettlesAtHome(d: Definition, commits: seq<Body>, run: Run, b: Body, op: Op)
    requires SettleOk(d, commits, run, b, op) && !op.Complete?
    ensures Home(commits, run, Some(b))
  {
  }

  lemma CompleteJustifies(d: Definition, s: State, a: nat, next: Status)
    requires a in s.drivers && s.commits != [] && next.Succeeded? && Completed(s.commits[|s.commits| - 1]) == d.g.nodes
    ensures Justified(d, s, a, next)
  {
  }

  lemma SettleJustified(d: Definition, s: State, t: State, a: nat, now: int)
    requires Inv(d, s) && Settle(s, t, a, now) && t.run.status != s.run.status
    ensures a in s.drivers && Justified(d, s, a, t.run.status)
  {
    SettleSteps(s, t, a, now);
    var driver := s.drivers[a];
    var op := driver.loc.op;
    assert At(s, a);
    hide *;
    AppliesToOwn(d, s, a, op, now);
    StatusMade(s.run, op, driver.run.version, now);
    SettlingFacts(d, s, a);
    if op.Complete? {
      SettleSound(d, s, a, now);
      CompleteJustifies(d, s, a, t.run.status);
    } else {
      SettlesAtHome(d, s.commits, s.run, driver.current.value, op);
      HomeIsLast(d, s, driver.current.value);
      HomeJustifies(d, s, a, op, driver.current.value, t.run.status);
    }
  }

  lemma StartSteps(s: State, t: State, a: nat, now: int)
    requires StartPhase(s, t, a, now) && t.run != s.run
    ensures At(s, a) && s.drivers[a].loc.Launching?
    ensures Apply(s.run, s.drivers[a].loc.op, s.drivers[a].run.version, now) == Ok(t.run)
  {
    hide Apply;
  }

  lemma StartJustifies(d: Definition, s: State, a: nat, op: Op, next: Status)
    requires a in s.drivers && s.commits == [] && Starts(s.run.status, op)
    requires (op.Start? ==> next.Starting?) && (op.Advance? ==> next == op.target)
    ensures Justified(d, s, a, next)
  {
  }

  lemma StartJustified(d: Definition, s: State, t: State, a: nat, now: int)
    requires Inv(d, s) && StartPhase(s, t, a, now) && t.run.status != s.run.status
    ensures a in s.drivers && Justified(d, s, a, t.run.status)
  {
    StartSteps(s, t, a, now);
    var driver := s.drivers[a];
    assert At(s, a);
    hide *;
    AppliesToOwn(d, s, a, driver.loc.op, now);
    StatusMade(s.run, driver.loc.op, driver.run.version, now);
    LaunchingStarts(d, s, a);
    UnmarkedIsEmpty(d, s);
    StartJustifies(d, s, a, driver.loc.op, t.run.status);
  }

  // ---------------------------------------------------------------- terminal failures

  /** A failed evaluation stays on record. */
  lemma FailurePersists(d: Definition, a: Body, b: Body)
    requires NodesOk(d, a) && Follows(a, b) && StableFailure(d, a)
    ensures StableFailure(d, b)
  {
    var n :| n in a.states && n in d.kinds && d.kinds[n].EvaluationNode? && !a.states[n].outcome.NodeSucceeded?;
    assert NodeOk(d, a, n);
    assert b.states[n] == a.states[n];
  }

  lemma SameFailure(d: Definition, a: Body, b: Body)
    requires SameContent(a, b)
    ensures StableFailure(d, a) <==> StableFailure(d, b)
  {
  }

  lemma FailureIsLast(d: Definition, s: State, a: nat)
    requires Inv(d, s) && At(s, a) && s.drivers[a].current.Some? && StableFailure(d, s.drivers[a].current.value)
    ensures EvaluationFailed(d, s)
  {
    hide Inv, StableFailure, SameContent, Follows, NodesOk, EffectsOk, Staged;
    var i := CurrentIsCommitted(d, s, a);
    SameFailure(d, s.commits[i], s.drivers[a].current.value);
    CommitFacts(d, s, i);
    KeptAlong(d, s, i, |s.commits| - 1);
    FailurePersists(d, s.commits[i], s.commits[|s.commits| - 1]);
  }

  lemma EndingSteps(s: State, t: State, a: nat, now: int)
    requires EndRun(s, t, a, now) && t.run != s.run
    ensures At(s, a) && s.drivers[a].loc.Ending?
    ensures Apply(s.run, s.drivers[a].loc.op, s.drivers[a].loc.version, now) == Ok(t.run)
  {
    hide Apply;
  }

  lemma CurrentIsSound(d: Definition, s: State, a: nat)
    requires Inv(d, s) && At(s, a) && s.drivers[a].current.Some?
    ensures Good(d, s.drivers[a].current.value)
  {
    DriverIsOk(d, s, a);
    hide Inv, LocOk, Good, Constructible, Home, Away;
  }

  /** The node a driver ends its Run over was handed out, and is unsettled where the driver stands. */
  lemma EndsOverNode(d: Definition, s: State, a: nat)
    requires Validated(d) && Inv(d, s) && At(s, a) && s.drivers[a].loc.Ending? && s.drivers[a].loc.failed.Some?
    ensures NodeFailed(d, s, s.drivers[a])
  {
    EndingEnds(d, s, a);
    CurrentIsSound(d, s, a);
    var driver := s.drivers[a];
    hide Inv, Validated, Good, HandedOut, Completed, Preds, Greedy;
    var k := ChosenIsNext(d, driver.current.value, driver.loc.failed.value);
  }

  lemma EndJustifies(d: Definition, s: State, a: nat, op: Op, next: Status)
    requires a in s.drivers && (EvaluationFailed(d, s) || NodeFailed(d, s, s.drivers[a]))
    requires Terminates(op) && (op.Fail? ==> next.Failed?) && (op.Cancel? ==> next.Cancelled?)
    ensures Justified(d, s, a, next)
  {
    hide EvaluationFailed, NodeFailed, LastHolds;
  }

  lemma EndJustified(d: Definition, s: State, t: State, a: nat, now: int)
    requires Validated(d) && Inv(d, s) && EndRun(s, t, a, now) && t.run.status != s.run.status
    ensures a in s.drivers && Justified(d, s, a, t.run.status)
    ensures EvaluationFailed(d, s) || NodeFailed(d, s, s.drivers[a])
  {
    EndingSteps(s, t, a, now);
    EndingEnds(d, s, a);
    var driver := s.drivers[a];
    hide Inv, Validated, Apply, StableFailure, Chosen, HandedOut, EvaluationFailed, NodeFailed, Justified;
    StatusMade(s.run, driver.loc.op, driver.loc.version, now);
    if driver.loc.failed.None? { FailureIsLast(d, s, a); } else { EndsOverNode(d, s, a); }
    EndJustifies(d, s, a, driver.loc.op, t.run.status);
  }

  lemma ReportSteps(s: State, t: State, a: nat, now: int)
    requires ReportEnds(s, t, a, now) && t.run != s.run
    ensures a in s.drivers && s.drivers[a].Reporting?
    ensures Apply(s.run, s.drivers[a].op, s.drivers[a].version, now) == Ok(t.run)
  {
    hide Apply;
  }

  lemma ReportJustified(d: Definition, s: State, t: State, a: nat, now: int)
    requires Inv(d, s) && ReportEnds(s, t, a, now) && t.run.status != s.run.status
    ensures a in s.drivers && Justified(d, s, a, t.run.status)
  {
    ReportSteps(s, t, a, now);
    hide Inv, Apply, LastHolds, EvaluationFailed, NodeFailed;
    ReportsFailOrPause(d, s, a);
    StatusMade(s.run, s.drivers[a].op, s.drivers[a].version, now);
  }

  // ---------------------------------------------------------------- whole executions

  /** The driver whose call a step is, if it is one on the Run service. */
  function Caller(action: Action): Option<nat>
  {
    match action
    case AStart(a, _) => Some(a)
    case ASettle(a, _) => Some(a)
    case AEnd(a, _) => Some(a)
    case AReportEnds(a, _) => Some(a)
    case _ => None
  }

  lemma OnlyCallsChangeStatus(d: Definition, s: State, t: State, action: Action)
    requires Does(d, s, t, action) && t.run.status != s.run.status && !action.AElsewhere?
    ensures Caller(action).Some?
  {
    hide Marked, Save, Greedy, Constructible, PassesChecks, StableFailure, AwaitsDecision, Completed;
    if action.ACommit? {
      hide DoStart, DoAdvance, DoPause, DoContinue, DoRetry, DoRecover, DoComplete, DoFail, DoCancel;
    }
  }

  lemma CallJustified(d: Definition, s: State, t: State, action: Action)
    requires Validated(d) && Inv(d, s) && Does(d, s, t, action) && t.run.status != s.run.status && Caller(action).Some?
    ensures Caller(action).value in s.drivers && Justified(d, s, Caller(action).value, t.run.status)
  {
    hide Inv, Validated, Justified, StartPhase, Settle, EndRun, ReportEnds;
    match action {
      case AStart(a, now) => StartJustified(d, s, t, a, now);
      case ASettle(a, now) => SettleJustified(d, s, t, a, now);
      case AEnd(a, now) => EndJustified(d, s, t, a, now);
      case AReportEnds(a, now) => ReportJustified(d, s, t, a, now);
    }
  }

  /** Over every execution: whenever a step of the runtime gives the Run a new status, there is a
      reason for it on record or in the hands of the driver that makes the call. */
  lemma EveryStatusHasAReason(d: Definition, states: seq<State>, actions: seq<Action>, k: nat)
    requires Validated(d) && IsRun(d, states, actions) && k < |actions| && !actions[k].AElsewhere?
    requires states[k + 1].run.status != states[k].run.status
    ensures Caller(actions[k]).Some? && Caller(actions[k]).value in states[k].drivers
    ensures Justified(d, states[k], Caller(actions[k]).value, states[k + 1].run.status)
  {
    hide Inv, NamesOk, Validated, IsRun, Does, Justified, Caller;
    RunStates(d, states, actions);
    RunKeepsInv(d, states, actions, k);
    RunStep(d, states, actions, k);
    OnlyCallsChangeStatus(d, states[k], states[k + 1], actions[k]);
    CallJustified(d, states[k], states[k + 1], actions[k]);
  }

  /** With one driver at a time, a terminal failure is about the committed checkpoint itself: it has a
      failed evaluation, or the failed node is unsettled in it with every dependency succeeded. */
  lemma FailureIsCurrent(d: Definition, states: seq<State>, actions: seq<Action>, k: nat)
    requires Validated(d) && IsRun(d, states, actions) && k < |actions| && actions[k].AEnd?
    requires states[k + 1].run.status != states[k].run.status && forall i :: 0 <= i < k ==> Solo(states[i])
    ensures EvaluationFailed(d, states[k]) || FailedInLast(d, states[k], actions[k].a)
  {
    hide Inv, NamesOk, Validated, IsRun, Does, EndRun, UpToDate, Solo, NoneRepeated, EvaluationFailed, NodeFailed;
    RunStates(d, states, actions);
    RunKeepsInv(d, states, actions, k);
    RunStep(d, states, actions, k);
    EndIsEnd(d, states[k], states[k + 1], actions[k]);
    EndJustified(d, states[k], states[k + 1], actions[k].a, actions[k].now);
    SoloRun(d, states, actions, k);
    if NodeFailed(d, states[k], states[k].drivers[actions[k].a]) { FailsInLast(d, states[k], actions[k].a); }
  }

  lemma EndIsEnd(d: Definition, s: State, t: State, action: Action)
    requires Does(d, s, t, action) && action.AEnd?
    ensures EndRun(s, t, action.a, action.now)
  {
    hide EndRun;
  }

  ghost predicate FailedInLast(d: Definition, s: State, a: nat)
  {
    && At(s, a) && s.drivers[a].loc.Ending? && s.drivers[a].loc.failed.Some? && s.commits != []
    && var n, last := s.drivers[a].loc.failed.value, s.commits[|s.commits| - 1];
       n in d.kinds && d.kinds[n].AgentNode? && n !in last.states && Preds(d.g, n) <= Completed(last)
  }

  lemma FailsInLast(d: Definition, s: State, a: nat)
    requires UpToDate(s) && a in s.drivers && NodeFailed(d, s, s.drivers[a])
    ensures FailedInLast(d, s, a)
  {
    assert At(s, a);
    hide HandedOut, Preds;
    var last := s.commits[|s.commits| - 1];
    assert Completed(last) == Completed(s.drivers[a].current.value);
  }

  lemma StallIsStalls(d: Definition, s: State, t: State, action: Action)
    requires Does(d, s, t, action) && action.AStalls?
    ensures Stalls(d, s, t, action.a, action.op)
  {
    hide Stalls;
  }

  /** No driver ever finds pending work and no ready node, so no Run fails over a scheduler stall. */
  lemma NoRunStalls(d: Definition, states: seq<State>, actions: seq<Action>, k: nat)
    requires Validated(d) && IsRun(d, states, actions) && k < |actions|
    ensures !actions[k].AStalls?
  {
    hide Inv, NamesOk, Validated, IsRun, Does, Stalls;
    RunStates(d, states, actions);
    RunKeepsInv(d, states, actions, k);
    RunStep(d, states, actions, k);
    if actions[k].AStalls? {
      StallIsStalls(d, states[k], states[k + 1], actions[k]);
      StallsNever(d, states[k], states[k + 1], actions[k].a, actions[k].op);
    }
  }
}
