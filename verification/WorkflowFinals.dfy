/** The checkpoints nothing can follow: a refused approval and a failed evaluation; and the Runs that
    can never get a first one. */
module WorkflowFinals {
  import opened Wrappers
  import opened Order
  import opened Graph
  import opened RunMachine
  import opened Checkpoints
  import opened CheckpointStore
  import opened Coordinator
  import opened Workflow
  import opened WorkflowContent
  import opened WorkflowInvariant
  import opened WorkflowSteps
  import opened WorkflowSafety
  import opened WorkflowLimits

  // ---------------------------------------------------------------- dead checkpoints

  /** A node is settled without success: an approval refused, or an evaluation failed. */
  ghost predicate Dead(d: Definition, b: Body) { Refused(b) || StableFailure(d, b) }

  lemma DeadWhere(d: Definition, b: Body) returns (m: Id)
    requires Good(d, b) && Dead(d, b)
    ensures m in b.states && !b.states[m].outcome.NodeSucceeded? && !b.states[m].outcome.NodeWaiting?
  {
    if Refused(b) {
      m := RefusedWhere(b);
      OpenOrRefused(d, b, m);
    } else {
      m :| m in b.states && m in d.kinds && d.kinds[m].EvaluationNode? && !b.states[m].outcome.NodeSucceeded?;
      assert NodeOk(d, b, m);
    }
  }

  lemma PrefixNodes(d: Definition, b: Body, m: Id)
    requires Good(d, b) && m in b.states
    ensures m in d.g.nodes
  {
    var k: nat :| Stage(d, b, k);
    GreedyElements(d.g, {});
    var order := Greedy(d.g, {});
    hide Greedy;
    if m in Completed(b) { assert m in order[..k]; } else { assert m == order[k]; }
  }

  lemma DeadIsSettled(d: Definition, b: Body)
    requires Good(d, b) && Dead(d, b)
    ensures Completed(b) != d.g.nodes
    ensures forall n :: n in b.approvals ==> b.approvals[n].decision.Some?
  {
    var m := DeadWhere(d, b);
    PrefixNodes(d, b, m);
    assert m !in Completed(b);
    forall n | n in b.approvals ensures b.approvals[n].decision.Some? {
      if b.approvals[n].decision.None? {
        OpenOrRefused(d, b, n);
        OneUnsettled(d, b, m, n);
      }
    }
  }

  /** The driver has built a checkpoint above b and not committed it. */
  predicate BuildsOn(driver: Driver, b: Body)
  {
    && driver.Active? && driver.current == Some(b)
    && (driver.loc.Storing? || driver.loc.Checked? || driver.loc.Stored?)
  }

  ghost predicate DeadLast(d: Definition, s: State) { s.commits != [] && Dead(d, s.commits[|s.commits| - 1]) }

  /** Nobody builds on the last commit. */
  ghost predicate NoneBuilds(s: State)
    requires s.commits != []
  {
    forall a :: a in s.drivers ==> !BuildsOn(s.drivers[a], s.commits[|s.commits| - 1])
  }

  ghost predicate Blocked(d: Definition, s: State) { DeadLast(d, s) ==> NoneBuilds(s) }

  lemma AnswerNeedsMore(d: Definition, s: State, t: State, a: nat, w: Work, ref: CheckpointRef)
    requires Validated(d) && Inv(d, s) && Answer(d, s, t, a, w, ref)
    ensures At(s, a) && s.drivers[a].current.Some? && !Dead(d, s.drivers[a].current.value)
  {
    AnswerWorks(d, s, t, a, w, ref);
    WorkingFacts(d, s, a);
    var n, b := s.drivers[a].loc.node, s.drivers[a].current.value;
    assert !StableFailure(d, b);
    hide Inv, Validated, Chosen, Good, Constructible, StableFailure;
    if Refused(b) {
      var m := RefusedWhere(b);
      OpenOrRefused(d, b, m);
      RefusedIsChosen(d, b, m, n);
    }
  }

  lemma FreshNeedsOpen(d: Definition, s: State, t: State, a: nat)
    requires Inv(d, s) && DecideAgain(d, s, t, a) && a in t.drivers && t.drivers[a].Active? && t.drivers[a].loc.Storing?
    ensures !DeadLast(d, s)
  {
    hide Inv, Good, Constructible, Dead;
    MarkedIsLast(d, s);
    if DeadLast(d, s) { DeadIsSettled(d, s.commits[|s.commits| - 1]); }
  }

  /** A driver that begins to build on the last commit has an answer or an open decision. */
  lemma StartsBuilding(d: Definition, s: State, t: State, action: Action, b: nat)
    requires Does(d, s, t, action) && t.commits == s.commits && s.commits != [] && b in t.drivers
    requires BuildsOn(t.drivers[b], s.commits[|s.commits| - 1])
    ensures || (b in s.drivers && BuildsOn(s.drivers[b], s.commits[|s.commits| - 1]))
            || (action.AAnswer? && action.a == b && At(s, b) && s.drivers[b].current == Some(s.commits[|s.commits| - 1]))
            || (action.ADecideAgain? && action.a == b && t.drivers[b].Active? && t.drivers[b].loc.Storing?)
  {
    hide Marked, Apply, Save, Greedy, Constructible, PassesChecks, StableFailure, AwaitsDecision, Completed;
  }

  lemma QuietStaysBlocked(d: Definition, s: State, t: State, action: Action)
    requires Validated(d) && Inv(d, s) && Blocked(d, s) && Does(d, s, t, action) && t.commits == s.commits
    ensures Blocked(d, t)
  {
    hide Inv, Validated, BuildsOn, Dead, Answer, DecideAgain;
    if DeadLast(d, s) {
      forall b | b in t.drivers ensures !BuildsOn(t.drivers[b], s.commits[|s.commits| - 1]) {
        if BuildsOn(t.drivers[b], s.commits[|s.commits| - 1]) {
          StartsBuilding(d, s, t, action, b);
          if action.AAnswer? && action.a == b {
            assert Answer(d, s, t, b, action.w, action.ref);
            AnswerNeedsMore(d, s, t, b, action.w, action.ref);
          } else if action.ADecideAgain? && action.a == b {
            assert DecideAgain(d, s, t, b);
            if b !in s.drivers || !BuildsOn(s.drivers[b], s.commits[|s.commits| - 1]) { FreshNeedsOpen(d, s, t, b); }
          }
        }
      }
    }
  }

  lemma OnlyCommitsCommit(d: Definition, s: State, t: State, action: Action)
    requires Does(d, s, t, action) && t.commits != s.commits
    ensures action.ACommit? && CommitPhase(s, t, action.a, action.now)
  {
    hide Marked, Apply, Save, Greedy, Constructible, PassesChecks, StableFailure, AwaitsDecision, Completed;
  }

  /** A commit finds its driver building on the last one. */
  lemma CommitsOnLast(d: Definition, s: State, t: State, a: nat, now: int)
    requires Inv(d, s) && NamesOk(s) && CommitPhase(s, t, a, now) && t.commits != s.commits
    ensures At(s, a) && s.drivers[a].loc.Stored? && t.commits == s.commits + [s.drivers[a].loc.next]
    ensures t.drivers == s.drivers[a := Continue(t.run, s.drivers[a].loc.next, s.drivers[a].loc.after)]
    ensures s.commits != [] ==> BuildsOn(s.drivers[a], s.commits[|s.commits| - 1])
  {
    hide Inv, NamesOk, Apply, Appends, Continue;
    CommitAppends(d, s, a, now);
    OwnMarkerIsOld(d, s, a);
    RunFacts(d, s);
    if s.drivers[a].current.Some? { HomeIsLast(d, s, s.drivers[a].current.value); }
  }

  lemma OthersBuildElsewhere(s: State, a: nat, b: nat)
    requires NamesOk(s) && At(s, a) && s.drivers[a].loc.Stored? && b in s.drivers && a != b
    ensures !BuildsOn(s.drivers[b], s.drivers[a].loc.next)
  {
    DraftsAreApart(s, a, b);
    assert s.drivers[a].loc.next.ref in Draft(s.drivers[a]);
    hide NamesOk;
  }

  lemma ContinuesUnbuilt(run: Run, next: Body, after: After, b: Body)
    ensures !BuildsOn(Continue(run, next, after), b)
  {
  }

  lemma CommitStaysBlocked(d: Definition, s: State, t: State, a: nat, now: int)
    requires Inv(d, s) && NamesOk(s) && CommitPhase(s, t, a, now) && t.commits != s.commits
    ensures Blocked(d, t)
  {
    hide Inv, NamesOk, CommitPhase, Dead, BuildsOn, Continue;
    CommitsOnLast(d, s, t, a, now);
    var next := s.drivers[a].loc.next;
    forall b | b in t.drivers ensures !BuildsOn(t.drivers[b], next) {
      if b == a {
        ContinuesUnbuilt(t.run, next, s.drivers[a].loc.after, next);
      } else {
        OthersBuildElsewhere(s, a, b);
      }
    }
  }

  lemma BlockedCommits(d: Definition, s: State, t: State, a: nat, now: int)
    requires Inv(d, s) && NamesOk(s) && Blocked(d, s) && CommitPhase(s, t, a, now) && t.commits != s.commits
    ensures !DeadLast(d, s)
  {
    hide Inv, NamesOk, BuildsOn, Dead, CommitPhase;
    CommitsOnLast(d, s, t, a, now);
  }

  lemma StepBlocked(d: Definition, s: State, t: State, action: Action)
    requires Validated(d) && Inv(d, s) && NamesOk(s) && Blocked(d, s) && Does(d, s, t, action)
    ensures Blocked(d, t)
    ensures DeadLast(d, s) ==> t.commits == s.commits
  {
    hide *;
    if t.commits == s.commits {
      QuietStaysBlocked(d, s, t, action);
    } else {
      OnlyCommitsCommit(d, s, t, action);
      CommitStaysBlocked(d, s, t, action.a, action.now);
      BlockedCommits(d, s, t, action.a, action.now);
    }
  }

  lemma InitBlocked(d: Definition, s: State)
    requires Init(d, s)
    ensures Blocked(d, s)
  {
  }

  lemma {:induction false} RunBlocked(d: Definition, states: seq<State>, actions: seq<Action>, k: nat)
    requires Validated(d) && IsRun(d, states, actions) && k < |states|
    ensures Blocked(d, states[k])
  {
    hide Inv, NamesOk, Validated, Does, Blocked, Init;
    if k == 0 {
      InitBlocked(d, states[0]);
    } else {
      RunBlocked(d, states, actions, k - 1);
      RunKeepsInv(d, states, actions, k - 1);
      RunStep(d, states, actions, k - 1);
      StepBlocked(d, states[k - 1], states[k], actions[k - 1]);
    }
  }

  lemma StillDead(d: Definition, s: State, t: State)
    requires DeadLast(d, s) && t.commits == s.commits
    ensures DeadLast(d, t)
  {
    hide Dead;
  }

  lemma {:induction false} NothingFollows(d: Definition, states: seq<State>, actions: seq<Action>, j: nat, k: nat)
    requires Validated(d) && IsRun(d, states, actions) && j <= k < |states| && DeadLast(d, states[j])
    ensures states[k].commits == states[j].commits
  {
    hide *;
    if j < k {
      NothingFollows(d, states, actions, j, k - 1);
      StillDead(d, states[j], states[k - 1]);
      RunStates(d, states, actions);
      RunStep(d, states, actions, k - 1);
      RunBlocked(d, states, actions, k - 1);
      RunKeepsInv(d, states, actions, k - 1);
      StepBlocked(d, states[k - 1], states[k], actions[k - 1]);
    }
  }

  lemma LastIsIncomplete(d: Definition, s: State)
    requires Inv(d, s) && DeadLast(d, s)
    ensures !s.run.status.Succeeded?
  {
    var last := s.commits[|s.commits| - 1];
    assert CommitOk(d, s, |s.commits| - 1);
    hide Dead, Good;
    DeadIsSettled(d, last);
  }

  /** Once a refusal or a failed evaluation is committed, no checkpoint is ever committed again and
      the Run never succeeds, whatever recoveries, retries and further decisions are tried. */
  lemma DeadIsFinal(d: Definition, states: seq<State>, actions: seq<Action>, j: nat, k: nat)
    requires Validated(d) && IsRun(d, states, actions) && j <= k < |states| && DeadLast(d, states[j])
    ensures states[k].commits == states[j].commits && !states[k].run.status.Succeeded?
  {
    hide Inv, NamesOk, Validated, IsRun, DeadLast;
    NothingFollows(d, states, actions, j, k);
    StillDead(d, states[j], states[k]);
    RunKeepsInv(d, states, actions, k);
    LastIsIncomplete(d, states[k]);
  }

  // ---------------------------------------------------------------- nothing is handed out after a failure

  ghost predicate FailedLast(d: Definition, s: State) { s.commits != [] && StableFailure(d, s.commits[|s.commits| - 1]) }

  /** A node is handed out only from a checkpoint without a failed evaluation. */
  lemma HandsOutFromAlive(d: Definition, s: State, t: State, a: nat)
    requires HandOut(d, s, t, a) && FailedLast(d, s)
    ensures AtReady(s, a) && !SameContent(s.commits[|s.commits| - 1], s.drivers[a].current.value)
  {
    hide Completed, Greedy, AwaitsDecision;
  }

  /** After a failed evaluation is committed, a node can only be handed out by a driver that still
      holds an older checkpoint; with one driver at a time none ever is. */
  lemma FailureEndsDispatch(d: Definition, states: seq<State>, actions: seq<Action>, j: nat, k: nat)
    requires Validated(d) && IsRun(d, states, actions) && j <= k < |actions| && FailedLast(d, states[j])
    requires actions[k].AHandOut?
    ensures AtReady(states[k], actions[k].a)
    ensures var last := states[j].commits[|states[j].commits| - 1];
            !SameContent(last, states[k].drivers[actions[k].a].current.value)
    ensures !forall i :: 0 <= i <= k ==> Solo(states[i])
  {
    hide Inv, NamesOk, Validated, Does, Init, Solo, UpToDate, NoneRepeated, StableFailure, HandOut;
    NothingFollows(d, states, actions, j, k);
    RunStep(d, states, actions, k);
    HandsOut(d, states[k], states[k + 1], actions[k]);
    HandsOutFromAlive(d, states[k], states[k + 1], actions[k].a);
    if forall i :: 0 <= i <= k ==> Solo(states[i]) {
      SoloRun(d, states, actions, k);
      CurrentIsLast(states[k], actions[k].a);
    }
  }

  lemma HandsOut(d: Definition, s: State, t: State, action: Action)
    requires Does(d, s, t, action) && action.AHandOut?
    ensures HandOut(d, s, t, action.a)
  {
    hide HandOut;
  }

  lemma CurrentIsLast(s: State, a: nat)
    requires UpToDate(s) && AtReady(s, a)
    ensures s.commits != [] && SameContent(s.commits[|s.commits| - 1], s.drivers[a].current.value)
  {
  }

  // ---------------------------------------------------------------- a start that was lost

  /** The Run was started, has no checkpoint, and no driver holds it as it is now. */
  ghost predicate Lost(s: State)
  {
    && s.commits == [] && !s.run.status.Created?
    && forall a :: At(s, a) ==> s.drivers[a].run.version < s.run.version
  }

  /** With nothing committed, nobody has a checkpoint to continue from, and the gateway has none. */
  lemma NothingToContinue(d: Definition, s: State)
    requires Inv(d, s) && s.commits == []
    ensures Marked(d, s).Raised?
    ensures forall a :: At(s, a) ==> s.drivers[a].current.None?
  {
    RunFacts(d, s);
    forall a | At(s, a) ensures s.drivers[a].current.None? {
      DriverIsOk(d, s, a);
      hide Inv, LocOk, Sound;
    }
  }

  /** A call at an older version changes nothing. */
  lemma StaleCallFails(run: Run, op: Op, expected: nat, now: int)
    requires expected != run.version
    ensures Apply(run, op, expected, now).Err?
  {
  }

  lemma CallMovesOn(run: Run, op: Op, expected: nat, now: int)
    requires Apply(run, op, expected, now).Ok? && RunOk(run)
    ensures var done := Apply(run, op, expected, now).run;
            done.version >= run.version && (done.status.Created? ==> run.status.Created?)
  {
    ApplyVersion(run, op, expected, now);
    SucceedsByComplete(run, op, expected, now);
    hide Apply;
  }

  /** Steps that neither begin, nor hand out, nor call the Run service. */
  predicate Local(action: Action)
  {
    && !action.ABegin? && !action.APickUp? && !action.ARecover? && !action.ADecide? && !action.ADecideAgain? && !action.AHandOut?
    && !action.AStart? && !action.ACommit? && !action.ASettle? && !action.AEnd? && !action.AReportEnds? && !action.AElsewhere?
  }

  lemma LocalStaysLost(d: Definition, s: State, t: State, action: Action)
    requires Lost(s) && Does(d, s, t, action) && Local(action)
    ensures Lost(t) && t.log == s.log
  {
    hide Apply, Save, Greedy, Constructible, PassesChecks, StableFailure, AwaitsDecision, Completed, Remove;
  }

  /** Nothing begins: the Run is not CREATED, and there is no checkpoint to load. */
  lemma NothingBegins(d: Definition, s: State, t: State, action: Action)
    requires Inv(d, s) && Lost(s) && Does(d, s, t, action)
    ensures !action.ABegin? && !action.APickUp? && !action.ARecover? && !action.ADecide? && !action.ADecideAgain? && !action.AHandOut?
  {
    NothingToContinue(d, s);
    hide Inv, Marked, Greedy, Completed, Constructible, StableFailure, AwaitsDecision, Apply;
  }

  /** The calls of drivers fail, for they hold an older Run; other calls only move the Run on. */
  lemma CallsStayLost(d: Definition, s: State, t: State, action: Action)
    requires RunOk(s.run) && Lost(s) && Does(d, s, t, action)
    requires action.AStart? || action.ACommit? || action.ASettle? || action.AEnd? || action.AReportEnds? || action.AElsewhere?
    ensures Lost(t) && t.log == s.log
  {
    hide Apply, RunOk;
    match action {
      case AStart(a, now) => StaleCallFails(s.run, s.drivers[a].loc.op, s.drivers[a].run.version, now);
      case ACommit(a, now) =>
        StaleCallFails(s.run, CommitCheckpoint(s.drivers[a].loc.next.ref, s.drivers[a].run.marker, None, None), s.drivers[a].run.version, now);
      case ASettle(a, now) => StaleCallFails(s.run, s.drivers[a].loc.op, s.drivers[a].run.version, now);
      case AEnd(a, now) =>
        if t.run != s.run { CallMovesOn(s.run, s.drivers[a].loc.op, s.drivers[a].loc.version, now); }
      case AReportEnds(a, now) =>
        if t.run != s.run { CallMovesOn(s.run, s.drivers[a].op, s.drivers[a].version, now); }
      case AElsewhere(op, expected, now) => CallMovesOn(s.run, op, expected, now);
    }
  }

  lemma StepStaysLost(d: Definition, s: State, t: State, action: Action)
    requires Inv(d, s) && Lost(s) && Does(d, s, t, action)
    ensures Lost(t) && t.log == s.log
  {
    NothingBegins(d, s, t, action);
    RunIsOk(d, s);
    hide Inv, RunOk, Lost, Does;
    if Local(action) { LocalStaysLost(d, s, t, action); } else { CallsStayLost(d, s, t, action); }
  }

  /** A Run that was started and lost its driver before the first commit is never continued: neither
      execute nor recover hands out a node, commits a checkpoint or lets it succeed. */
  lemma {:induction false} LostForGood(d: Definition, states: seq<State>, actions: seq<Action>, j: nat, k: nat)
    requires Validated(d) && IsRun(d, states, actions) && j <= k < |states| && Lost(states[j])
    ensures Lost(states[k]) && states[k].commits == [] && states[k].log == states[j].log && !states[k].run.status.Succeeded?
  {
    hide Inv, NamesOk, Validated, Does, Init, IsRun;
    RunStates(d, states, actions);
    RunKeepsInv(d, states, actions, k);
    RunIsOk(d, states[k]);
    if j < k {
      LostForGood(d, states, actions, j, k - 1);
      RunKeepsInv(d, states, actions, k - 1);
      RunStep(d, states, actions, k - 1);
      StepStaysLost(d, states[k - 1], states[k], actions[k - 1]);
    }
  }
}
