/** Every validated definition can be carried through: an execution in which each node is handed out
    once, in the validator's order, and the Run succeeds. */
module WorkflowCompletion {
  import opened Wrappers
  import opened Order
  import opened Graph
  import opened RunMachine
  import opened Checkpoints
  import opened CheckpointStore
  import opened Coordinator
  import opened Workflow
  import opened WorkflowContent
  import opened WorkflowInvariant
  import opened WorkflowSteps
  import opened WorkflowLimits
  import opened WorkflowProgress
  import opened WorkflowOpening

  // ---------------------------------------------------------------- going on

  /** An execution, and one that goes on from where it ends. */
  ghost predicate Goes(d: Definition, states: seq<State>, actions: seq<Action>, longer: seq<State>, more: seq<Action>)
  {
    longer != [] && IsRun(d, longer, more) && states <= longer && actions <= more
  }

  lemma GoesOn(d: Definition, states: seq<State>, actions: seq<Action>, longer: seq<State>, more: seq<Action>,
               longest: seq<State>, most: seq<Action>)
    requires Goes(d, states, actions, longer, more) && Goes(d, longer, more, longest, most)
    ensures Goes(d, states, actions, longest, most)
  {
    hide IsRun;
  }

  lemma GoesNowhere(d: Definition, states: seq<State>, actions: seq<Action>)
    requires states != [] && IsRun(d, states, actions)
    ensures Goes(d, states, actions, states, actions)
  {
    hide IsRun;
  }

  /** One step. */
  lemma Step(d: Definition, states: seq<State>, actions: seq<Action>, t: State, action: Action)
    returns (longer: seq<State>, more: seq<Action>)
    requires IsRun(d, states, actions) && states != [] && Does(d, Last(states), t, action)
    ensures Goes(d, states, actions, longer, more) && IsRun(d, longer, more) && longer != [] && Last(longer) == t
  {
    hide IsRun, Does;
    Extends(d, states, actions, t, action);
    longer, more := states + [t], actions + [action];
  }

  /** Two steps. */
  lemma TwoSteps(d: Definition, states: seq<State>, actions: seq<Action>, u: State, first: Action, t: State, second: Action)
    returns (longer: seq<State>, more: seq<Action>)
    requires IsRun(d, states, actions) && states != [] && Does(d, Last(states), u, first) && Does(d, u, t, second)
    ensures Goes(d, states, actions, longer, more) && IsRun(d, longer, more) && longer != [] && Last(longer) == t
  {
    hide *;
    var mid, done := Step(d, states, actions, u, first);
    longer, more := Step(d, mid, done, t, second);
    GoesOn(d, states, actions, mid, done, longer, more);
  }

  /** An uncontended save. */
  lemma Saves(d: Definition, states: seq<State>, actions: seq<Action>, a: nat, now: int)
    returns (longer: seq<State>, more: seq<Action>)
    requires Validated(d) && IsRun(d, states, actions) && states != [] && Uncontended(d, Last(states), a)
    ensures At(Last(states), a) && Last(states).drivers[a].loc.Storing?
    ensures Goes(d, states, actions, longer, more) && IsRun(d, longer, more) && longer != []
    ensures Last(longer) == AfterSave(Last(states), a, now)
    ensures NothingFrom(Last(longer).store, d.run, |Last(longer).commits| + 1)
  {
    hide Validated, IsRun, Home, NothingFrom, AfterSave, Terminal;
    longer := UncontendedSaveCommits(d, states, actions, a, now);
    more := actions + [ACheck(a), AStore(a), ACommit(a, now)];
  }

  // ---------------------------------------------------------------- checkpoints on the way

  /** The first k nodes of the order have succeeded, and nothing else is on record. */
  ghost predicate OnCourse(d: Definition, b: Body, k: nat)
  {
    Stage(d, b, k) && b.states.Keys == Completed(b) && !AwaitsDecision(b) && !StableFailure(d, b)
  }

  lemma NextIsChosen(d: Definition, b: Body, k: nat)
    requires Validated(d) && OnCourse(d, b, k) && k < |Greedy(d.g, {})|
    ensures var n := Greedy(d.g, {})[k];
            && Greedy(d.g, Completed(b)) != [] && Greedy(d.g, Completed(b))[0] == n && Chosen(d, b, n)
            && n in d.g.nodes && n in d.kinds && n !in b.states && n !in Completed(b)
  {
    NextInOrder(d, b, k);
    hide Greedy;
  }

  /** Recording the next node's success stays on course. */
  lemma SuccessOnCourse(d: Definition, b: Body, next: Body, k: nat)
    requires Validated(d) && OnCourse(d, b, k) && k < |Greedy(d.g, {})|
    requires var n := Greedy(d.g, {})[k];
             && n in next.states && next.states == b.states[n := next.states[n]] && next.states[n].outcome.NodeSucceeded?
             && next.pending == d.g.nodes - (Completed(b) + {n})
    requires !AwaitsDecision(next)
    ensures OnCourse(d, next, k + 1)
  {
    var n := Greedy(d.g, {})[k];
    NextInOrder(d, b, k);
    NextIsChosen(d, b, k);
    hide Greedy;
    CompletedNext(b, next, n);
    assert next.states.Keys == Completed(b) + {n};
  }

  lemma SealedParts(b: Body, next: Body)
    requires Constructible(b) && next.sequence == b.sequence + 1 && next.previous == Some(b.ref) && next.attempt >= 1
    requires next.states.Keys !! next.pending
    requires forall k, l :: k in next.effects && l in next.effects && k != l ==> next.effects[k].operation != next.effects[l].operation
    requires forall n :: n in next.states ==>
               && !(next.states[n].output.Some? && next.states[n].error.Some?)
               && (next.states[n].outcome.NodeWaiting? ==> next.states[n].approval.Some?)
               && (next.states[n].approval.Some? ==> next.states[n].approval.value in next.approvals)
    ensures Constructible(next)
  {
  }

  lemma AgentConstructible(d: Definition, run: Run, b: Body, ref: CheckpointRef, n: Id, w: Work)
    requires EffectsOk(d, b) && Constructible(b) && run.attempt >= 1 && b.states.Keys == Completed(b)
    requires n in d.kinds && d.kinds[n].AgentNode? && w.AgentDone? && w.key !in b.effects && n !in b.states
    ensures Constructible(AfterAgent(d, run, b, ref, n, w))
  {
    var next := AfterAgent(d, run, b, ref, n, w);
    assert next.states.Keys == Completed(b) + {n};
    hide Completed;
    forall k, l | k in next.effects && l in next.effects && k != l ensures next.effects[k].operation != next.effects[l].operation {
      if k in b.effects { assert b.effects[k].operation in b.states; }
      if l in b.effects { assert b.effects[l].operation in b.states; }
    }
    SealedParts(b, next);
  }

  lemma EvaluationConstructible(d: Definition, run: Run, b: Body, ref: CheckpointRef, n: Id, w: Work)
    requires Constructible(b) && run.attempt >= 1 && b.states.Keys == Completed(b)
    requires w.Verdict? && w.outcome.NodeSucceeded? && n !in b.states
    ensures Constructible(AfterEvaluation(d, run, b, ref, n, w))
  {
    var next := AfterEvaluation(d, run, b, ref, n, w);
    assert next.states.Keys == Completed(b) + {n};
    hide Completed;
    SealedParts(b, next);
  }

  lemma DecisionConstructible(d: Definition, run: Run, b: Body, ref: CheckpointRef, n: Id, decision: Decision)
    requires Constructible(b) && run.attempt >= 1 && n in b.states && !b.states[n].outcome.NodeSucceeded?
    requires b.states.Keys == Completed(b) + {n}
    ensures Constructible(AfterDecision(d, run, b, ref, n, decision))
  {
    var next := AfterDecision(d, run, b, ref, n, decision);
    DecisionPending(d, run, b, ref, n, decision);
    hide Completed;
    SealedParts(b, next);
  }

  // ---------------------------------------------------------------- states on the way

  /** The driver at work, and what time it is: handed nodes were handed out when it took over with the
      first stage nodes of the order on record. */
  datatype Duty = Duty(driver: nat, handed: nat, stage: nat, now: int)

  /** Since then the nodes of the order were handed out one by one, up to the k-th. */
  ghost predicate InTurn(d: Definition, log: seq<Dispatch>, y: Duty, k: nat)
  {
    && y.stage <= k <= |Greedy(d.g, {})| && |log| == y.handed + k - y.stage
    && forall i :: y.stage <= i < k ==> log[y.handed + i - y.stage].node == Greedy(d.g, {})[i]
  }

  /** A driver is about to go on from the committed checkpoint of a RUNNING Run, with the nodes handed
      out since it took over in order. */
  ghost predicate Rolling(d: Definition, s: State, k: nat, y: Duty)
  {
    && s.commits != [] && s.run.status.Running? && s.run.marker == Some(s.commits[|s.commits| - 1].ref)
    && y.driver in s.drivers && s.drivers[y.driver] == Active(s.run, Some(s.commits[|s.commits| - 1]), Workflow.Ready)
    && OnCourse(d, s.commits[|s.commits| - 1], k) && NothingFrom(s.store, d.run, |s.commits| + 1)
    && InTurn(d, s.log, y, k)
  }

  /** The driver is at work on the next node. */
  function Busy(s: State, n: Id, a: nat): State
    requires a in s.drivers && s.drivers[a].Active?
  {
    s.(drivers := s.drivers[a := s.drivers[a].(loc := Working(n))], log := s.log + [Dispatch(n, |s.commits|)])
  }

  lemma RollingDriver(d: Definition, s: State, k: nat, y: Duty)
    requires Rolling(d, s, k, y)
    ensures var b := s.commits[|s.commits| - 1];
            && At(s, y.driver) && s.drivers[y.driver] == Active(s.run, Some(b), Workflow.Ready)
            && OnCourse(d, b, k) && s.run.status.Running? && NothingFrom(s.store, d.run, |s.commits| + 1)
  {
    hide OnCourse, NothingFrom, Greedy;
  }

  lemma HandOutIs(d: Definition, s: State, n: Id, a: nat)
    requires At(s, a) && s.drivers[a].loc.Ready? && s.drivers[a].current.Some?
    requires Chosen(d, s.drivers[a].current.value, n)
    ensures HandOut(d, s, Busy(s, n, a), a)
  {
    hide Greedy, Completed, StableFailure, AwaitsDecision;
  }

  lemma HandsOutNext(d: Definition, s: State, k: nat, y: Duty)
    requires Validated(d) && Rolling(d, s, k, y) && k < |Greedy(d.g, {})|
    ensures Does(d, s, Busy(s, Greedy(d.g, {})[k], y.driver), AHandOut(y.driver))
  {
    RollingDriver(d, s, k, y);
    hide Rolling, Chosen, Validated, OnCourse, Greedy;
    NextIsChosen(d, s.commits[|s.commits| - 1], k);
    HandOutIs(d, s, Greedy(d.g, {})[k], y.driver);
    hide HandOut, Busy;
  }

  lemma FreshReference(names: set<CheckpointRef>) returns (ref: CheckpointRef)
    ensures ref !in names
  {
    var top := Highest(names);
    ref := CheckpointRef(top + 1);
  }

  lemma {:induction false} Highest(names: set<CheckpointRef>) returns (top: nat)
    ensures forall r :: r in names ==> r.id <= top
    decreases names
  {
    if r :| r in names {
      top := Highest(names - {r});
      if r.id > top { top := r.id; }
      forall x | x in names ensures x.id <= top { if x != r { assert x in names - {r}; } }
    } else {
      top := 0;
    }
  }

  lemma {:induction false} FreshKey(keys: set<nat>) returns (key: nat)
    ensures key !in keys
  {
    var top := HighestKey(keys);
    key := top + 1;
  }

  lemma {:induction false} HighestKey(keys: set<nat>) returns (top: nat)
    ensures forall k :: k in keys ==> k <= top
    decreases keys
  {
    if k :| k in keys {
      top := HighestKey(keys - {k});
      if k > top { top := k; }
      forall x | x in keys ensures x <= top { if x != k { assert x in keys - {k}; } }
    } else {
      top := 0;
    }
  }

  // ---------------------------------------------------------------- an agent or an evaluation

  /** The driver holds a checkpoint to save. */
  function Saving(s: State, driver: Driver, next: Body, after: After, a: nat): State
    requires driver.Active?
  {
    s.(drivers := s.drivers[a := driver.(loc := Storing(next, after))], names := s.names + {next.ref})
  }

  lemma RollingFacts(d: Definition, s: State, k: nat, y: Duty)
    requires Inv(d, s) && Rolling(d, s, k, y)
    ensures var b := s.commits[|s.commits| - 1];
            && Good(d, b) && Constructible(b) && s.run.attempt >= 1 && Home(s.commits, s.run, Some(b)) && s.run.id == d.run
  {
    assert CommitOk(d, s, |s.commits| - 1);
    hide Good, Constructible, OnCourse, NothingFrom;
  }

  lemma AgentAnswers(d: Definition, s: State, u: State, n: Id, w: Work, ref: CheckpointRef, a: nat)
    requires At(s, a) && s.drivers[a].loc == Working(n) && s.drivers[a].current.Some?
    requires n in d.kinds && d.kinds[n].AgentNode? && w.AgentDone? && w.key !in s.drivers[a].current.value.effects && ref !in s.names
    requires var next := AfterAgent(d, s.drivers[a].run, s.drivers[a].current.value, ref, n, w);
             Constructible(next) && u == Saving(s, s.drivers[a], next, Proceed, a)
    ensures Does(d, s, u, AAnswer(a, w, ref))
  {
    assert u.drivers == s.drivers[a := u.drivers[a]];
    hide AfterAgent, Constructible;
    assert Answer(d, s, u, a, w, ref);
  }

  lemma EvaluationAnswers(d: Definition, s: State, u: State, n: Id, w: Work, ref: CheckpointRef, a: nat)
    requires At(s, a) && s.drivers[a].loc == Working(n) && s.drivers[a].current.Some?
    requires n in d.kinds && d.kinds[n].EvaluationNode? && w.Verdict? && !w.outcome.NodeWaiting? && ref !in s.names
    requires var next := AfterEvaluation(d, s.drivers[a].run, s.drivers[a].current.value, ref, n, w);
             Constructible(next) && u == Saving(s, s.drivers[a], next, Proceed, a)
    ensures Does(d, s, u, AAnswer(a, w, ref))
  {
    assert u.drivers == s.drivers[a := u.drivers[a]];
    hide AfterEvaluation, Constructible;
    assert Answer(d, s, u, a, w, ref);
  }

  lemma HoldsUncontended(d: Definition, s: State, driver: Driver, next: Body, after: After, a: nat)
    requires driver.Active? && driver.run == s.run && !Terminal(s.run.status) && Home(s.commits, s.run, driver.current)
    requires NothingFrom(s.store, d.run, |s.commits| + 1)
    ensures Uncontended(d, Saving(s, driver, next, after, a), a)
  {
    hide NothingFrom, Home;
  }

  lemma SavedRolls(d: Definition, s: State, u: State, next: Body, k: nat, y: Duty)
    requires Rolling(d, s, k, y) && k < |Greedy(d.g, {})| && OnCourse(d, next, k + 1)
    requires u == Saving(Busy(s, Greedy(d.g, {})[k], y.driver), s.drivers[y.driver], next, Proceed, y.driver)
    requires NothingFrom(AfterSave(u, y.driver, y.now).store, d.run, |AfterSave(u, y.driver, y.now).commits| + 1)
    ensures Rolling(d, AfterSave(u, y.driver, y.now), k + 1, y)
  {
    hide Greedy, OnCourse, NothingFrom, CheckpointStore.Insert;
    var t := AfterSave(u, y.driver, y.now);
  }

  /** From an answer to the saved checkpoint. */
  lemma AnswerRolls(d: Definition, states: seq<State>, actions: seq<Action>, s: State, next: Body, k: nat, y: Duty)
    returns (longer: seq<State>, more: seq<Action>)
    requires Validated(d) && IsRun(d, states, actions) && states != [] && Rolling(d, s, k, y) && k < |Greedy(d.g, {})| && OnCourse(d, next, k + 1)
    requires Home(s.commits, s.run, s.drivers[y.driver].current)
    requires Last(states) == Saving(Busy(s, Greedy(d.g, {})[k], y.driver), s.drivers[y.driver], next, Proceed, y.driver)
    ensures Goes(d, states, actions, longer, more) && IsRun(d, longer, more) && longer != []
    ensures Rolling(d, Last(longer), k + 1, y)
  {
    var n := Greedy(d.g, {})[k];
    assert !Terminal(s.run.status) && s.drivers[y.driver].run == s.run && NothingFrom(s.store, d.run, |s.commits| + 1);
    HoldsUncontended(d, Busy(s, n, y.driver), s.drivers[y.driver], next, Proceed, y.driver);
    hide *;
    longer, more := Saves(d, states, actions, y.driver, y.now);
    SavedRolls(d, s, Last(states), next, k, y);
  }

  lemma AgentContent(d: Definition, run: Run, b: Body, ref: CheckpointRef, k: nat, key: nat)
    requires Validated(d) && Good(d, b) && Constructible(b) && OnCourse(d, b, k) && k < |Greedy(d.g, {})| && run.attempt >= 1
    requires var n := Greedy(d.g, {})[k]; n in d.kinds && d.kinds[n].AgentNode? && key !in b.effects
    ensures var next := AfterAgent(d, run, b, ref, Greedy(d.g, {})[k], AgentDone(0, key, 0));
            OnCourse(d, next, k + 1) && Constructible(next) && next.ref == ref
  {
    var n := Greedy(d.g, {})[k];
    NextIsChosen(d, b, k);
    hide Greedy, Completed, Stage, StableFailure, Constructible;
    AgentConstructible(d, run, b, ref, n, AgentDone(0, key, 0));
    SuccessOnCourse(d, b, AfterAgent(d, run, b, ref, n, AgentDone(0, key, 0)), k);
  }

  lemma EvaluationContent(d: Definition, run: Run, b: Body, ref: CheckpointRef, k: nat)
    requires Validated(d) && Constructible(b) && OnCourse(d, b, k) && k < |Greedy(d.g, {})| && run.attempt >= 1
    ensures var next := AfterEvaluation(d, run, b, ref, Greedy(d.g, {})[k], Verdict(NodeSucceeded, 0));
            OnCourse(d, next, k + 1) && Constructible(next) && next.ref == ref
  {
    var n := Greedy(d.g, {})[k];
    NextIsChosen(d, b, k);
    hide Greedy, Completed, Stage, StableFailure, Constructible;
    EvaluationConstructible(d, run, b, ref, n, Verdict(NodeSucceeded, 0));
    SuccessOnCourse(d, b, AfterEvaluation(d, run, b, ref, n, Verdict(NodeSucceeded, 0)), k);
  }

  lemma BusyFacts(d: Definition, s: State, n: Id, k: nat, y: Duty)
    requires Rolling(d, s, k, y)
    ensures var u := Busy(s, n, y.driver);
            && At(u, y.driver) && u.drivers[y.driver] == s.drivers[y.driver].(loc := Working(n))
            && u.drivers[y.driver].current == Some(s.commits[|s.commits| - 1]) && u.drivers[y.driver].run == s.run && u.names == s.names
            && forall next, after :: Saving(u, s.drivers[y.driver], next, after, y.driver) == Saving(u, u.drivers[y.driver], next, after, y.driver)
  {
    hide OnCourse, NothingFrom, Greedy;
  }

  /** A node that is handed out and answered with a success is committed. */
  lemma NodeRolls(d: Definition, states: seq<State>, actions: seq<Action>, k: nat, w: Work, ref: CheckpointRef, next: Body, y: Duty)
    returns (longer: seq<State>, more: seq<Action>)
    requires Validated(d) && IsRun(d, states, actions) && states != [] && Rolling(d, Last(states), k, y) && k < |Greedy(d.g, {})|
    requires OnCourse(d, next, k + 1) && Home(Last(states).commits, Last(states).run, Last(states).drivers[y.driver].current)
    requires var u := Busy(Last(states), Greedy(d.g, {})[k], y.driver);
             Does(d, u, Saving(u, Last(states).drivers[y.driver], next, Proceed, y.driver), AAnswer(y.driver, w, ref))
    ensures Goes(d, states, actions, longer, more) && IsRun(d, longer, more) && longer != []
    ensures Rolling(d, Last(longer), k + 1, y)
  {
    var s, n := Last(states), Greedy(d.g, {})[k];
    HandsOutNext(d, s, k, y);
    RollingDriver(d, s, k, y);
    var u := Busy(s, n, y.driver);
    var v := Saving(u, s.drivers[y.driver], next, Proceed, y.driver);
    hide Does, IsRun, Rolling, OnCourse, Greedy, Validated, Home, Busy, Saving, Goes;
    var mid, done := TwoSteps(d, states, actions, u, AHandOut(y.driver), v, AAnswer(y.driver, w, ref));
    longer, more := AnswerRolls(d, mid, done, s, next, k, y);
    GoesOn(d, states, actions, mid, done, longer, more);
  }

  lemma AgentNext(d: Definition, s: State, k: nat, y: Duty) returns (w: Work, ref: CheckpointRef, next: Body)
    requires Validated(d) && Inv(d, s) && Rolling(d, s, k, y) && k < |Greedy(d.g, {})|
    requires Greedy(d.g, {})[k] in d.kinds && d.kinds[Greedy(d.g, {})[k]].AgentNode?
    ensures OnCourse(d, next, k + 1)
    ensures var u := Busy(s, Greedy(d.g, {})[k], y.driver);
            Does(d, u, Saving(u, s.drivers[y.driver], next, Proceed, y.driver), AAnswer(y.driver, w, ref))
  {
    var n, b := Greedy(d.g, {})[k], s.commits[|s.commits| - 1];
    RollingFacts(d, s, k, y);
    RollingDriver(d, s, k, y);
    BusyFacts(d, s, n, k, y);
    hide Inv, Does, Rolling, OnCourse, Greedy, Constructible, Busy, Validated, AfterAgent, Saving, Good;
    ref := FreshReference(s.names);
    var key := FreshKey(b.effects.Keys);
    w := AgentDone(0, key, 0);
    AgentContent(d, s.run, b, ref, k, key);
    next := AfterAgent(d, s.run, b, ref, n, w);
    var u := Busy(s, n, y.driver);
    AgentAnswers(d, u, Saving(u, s.drivers[y.driver], next, Proceed, y.driver), n, w, ref, y.driver);
  }

  lemma EvaluationNext(d: Definition, s: State, k: nat, y: Duty) returns (w: Work, ref: CheckpointRef, next: Body)
    requires Validated(d) && Inv(d, s) && Rolling(d, s, k, y) && k < |Greedy(d.g, {})|
    requires Greedy(d.g, {})[k] in d.kinds && d.kinds[Greedy(d.g, {})[k]].EvaluationNode?
    ensures OnCourse(d, next, k + 1)
    ensures var u := Busy(s, Greedy(d.g, {})[k], y.driver);
            Does(d, u, Saving(u, s.drivers[y.driver], next, Proceed, y.driver), AAnswer(y.driver, w, ref))
  {
    var n, b := Greedy(d.g, {})[k], s.commits[|s.commits| - 1];
    RollingFacts(d, s, k, y);
    RollingDriver(d, s, k, y);
    BusyFacts(d, s, n, k, y);
    hide Inv, Does, Rolling, OnCourse, Greedy, Constructible, Busy, Validated, AfterEvaluation, Saving, Good;
    ref := FreshReference(s.names);
    w := Verdict(NodeSucceeded, 0);
    EvaluationContent(d, s.run, b, ref, k);
    next := AfterEvaluation(d, s.run, b, ref, n, w);
    var u := Busy(s, n, y.driver);
    EvaluationAnswers(d, u, Saving(u, s.drivers[y.driver], next, Proceed, y.driver), n, w, ref, y.driver);
  }

  // ---------------------------------------------------------------- an approval

  /** The approval is requested, and the Run waits without its driver. */
  ghost predicate Parked(d: Definition, s: State, k: nat, y: Duty)
  {
    && s.commits != [] && s.run.status.WaitingApproval? && s.run.marker == Some(s.commits[|s.commits| - 1].ref)
    && IsOff(s, y.driver) && NothingFrom(s.store, d.run, |s.commits| + 1) && InTurn(d, s.log, y, k + 1)
    && Asked(d, s.commits[|s.commits| - 1], k)
  }

  /** The checkpoint waits for the decision on the next node, and for nothing else. */
  ghost predicate Asked(d: Definition, b: Body, k: nat)
  {
    && k < |Greedy(d.g, {})|
    && var n := Greedy(d.g, {})[k];
       && Stage(d, b, k) && b.states.Keys == Completed(b) + {n} && n in b.approvals && b.approvals[n].decision.None?
       && n in b.states && b.states[n].outcome.NodeWaiting? && n in d.kinds && d.kinds[n].ApprovalNode?
       && forall m :: m in b.approvals && m != n ==> b.approvals[m].decision.Some?
  }

  /** The stage of a checkpoint that has the first k nodes succeeded and the next one on record. */
  lemma StageNext(d: Definition, b: Body, next: Body, k: nat)
    requires Validated(d) && Stage(d, b, k) && k < |Greedy(d.g, {})| && next.pending == d.g.nodes - next.states.Keys
    requires next.states.Keys == Completed(b) + {Greedy(d.g, {})[k]}
    requires forall m :: m in Completed(b) ==> next.states[m] == b.states[m]
    ensures if next.states[Greedy(d.g, {})[k]].outcome.NodeSucceeded? then Stage(d, next, k + 1) && Completed(next) == next.states.Keys
            else Stage(d, next, k) && Completed(next) == Completed(b)
  {
    var n := Greedy(d.g, {})[k];
    NextInOrder(d, b, k);
    hide Greedy;
    assert Completed(next) == if next.states[n].outcome.NodeSucceeded? then Completed(b) + {n} else Completed(b);
  }

  lemma RequestParts(d: Definition, run: Run, b: Body, ref: CheckpointRef, n: Id)
    requires Good(d, b) && Constructible(b) && b.states.Keys == Completed(b) && n !in b.states && run.attempt >= 1
    ensures var next := AfterRequest(d, run, b, ref, n);
            && n !in b.approvals && Constructible(next) && next.ref == ref && next.states.Keys == Completed(b) + {n}
            && next.pending == d.g.nodes - next.states.Keys && next.states[n].outcome.NodeWaiting?
            && n in next.approvals && next.approvals[n].decision.None?
            && (forall m :: m in Completed(b) ==> next.states[m] == b.states[m])
            && (forall m :: m in next.approvals && m != n ==> m in b.approvals && next.approvals[m] == b.approvals[m])
  {
    if n in b.approvals { ApprovalIsRecorded(d, b, n); }
    hide EffectsOk, Staged, NodeOk, Completed;
    SealedParts(b, AfterRequest(d, run, b, ref, n));
  }

  lemma RequestContent(d: Definition, run: Run, b: Body, ref: CheckpointRef, k: nat)
    requires Validated(d) && Good(d, b) && Constructible(b) && OnCourse(d, b, k) && k < |Greedy(d.g, {})| && run.attempt >= 1
    requires var n := Greedy(d.g, {})[k]; n in d.kinds && d.kinds[n].ApprovalNode?
    ensures var n, next := Greedy(d.g, {})[k], AfterRequest(d, run, b, ref, Greedy(d.g, {})[k]);
            n !in b.approvals && Asked(d, next, k) && Constructible(next) && next.ref == ref
  {
    var n := Greedy(d.g, {})[k];
    NextIsChosen(d, b, k);
    assert Stage(d, b, k) && b.states.Keys == Completed(b);
    hide Greedy, StableFailure, Completed, Good, Constructible, AfterRequest, Stage, Chosen;
    RequestParts(d, run, b, ref, n);
    StageNext(d, b, AfterRequest(d, run, b, ref, n), k);
  }

  lemma DecisionParts(d: Definition, run: Run, b: Body, ref: CheckpointRef, n: Id, decision: Decision)
    requires Constructible(b) && b.states.Keys == Completed(b) + {n} && n in b.states && b.states[n].outcome.NodeWaiting? && run.attempt >= 1
    requires n in b.approvals && n in d.kinds && d.kinds[n].ApprovalNode?
    requires forall m :: m in b.approvals && m != n ==> b.approvals[m].decision.Some?
    ensures var next := AfterDecision(d, run, b, ref, n, decision);
            && Constructible(next) && next.ref == ref && next.states.Keys == Completed(b) + {n}
            && next.pending == d.g.nodes - next.states.Keys && (next.states[n].outcome.NodeSucceeded? <==> decision.Approved?)
            && n in next.approvals && next.approvals[n].decision == Some(decision) && !AwaitsDecision(next)
            && (forall m :: m in Completed(b) ==> next.states[m] == b.states[m])
  {
    DecisionPending(d, run, b, ref, n, decision);
    DecisionConstructible(d, run, b, ref, n, decision);
    assert n !in Completed(b);
    hide Completed, Constructible;
  }

  lemma NoFailure(d: Definition, b: Body)
    requires Completed(b) == b.states.Keys
    ensures !StableFailure(d, b)
  {
    forall n | n in b.states ensures b.states[n].outcome.NodeSucceeded? { assert n in Completed(b); }
  }

  lemma DecidedContent(d: Definition, run: Run, b: Body, ref: CheckpointRef, k: nat, decision: Decision)
    requires Validated(d) && Constructible(b) && Asked(d, b, k) && run.attempt >= 1
    ensures var next, n := AfterDecision(d, run, b, ref, Greedy(d.g, {})[k], decision), Greedy(d.g, {})[k];
            && Constructible(next) && next.ref == ref && n in next.approvals && next.approvals[n].decision == Some(decision)
            && (decision.Approved? ==> OnCourse(d, next, k + 1))
  {
    var n := Greedy(d.g, {})[k];
    hide Greedy, Constructible, AfterDecision, Completed, Stage, AwaitsDecision, StableFailure;
    DecisionParts(d, run, b, ref, n, decision);
    StageNext(d, b, AfterDecision(d, run, b, ref, n, decision), k);
    if decision.Approved? { NoFailure(d, AfterDecision(d, run, b, ref, n, decision)); }
  }

  lemma RequestAnswers(d: Definition, s: State, u: State, n: Id, w: Work, ref: CheckpointRef, a: nat)
    requires At(s, a) && s.drivers[a].loc == Working(n) && s.drivers[a].current.Some?
    requires n in d.kinds && d.kinds[n].ApprovalNode? && s.run.status.Running? && n !in s.drivers[a].current.value.approvals
    requires ref !in s.names
    requires var next := AfterRequest(d, s.drivers[a].run, s.drivers[a].current.value, ref, n);
             Constructible(next) && u == Saving(s, s.drivers[a], next, Wait, a)
    ensures Does(d, s, u, AAnswer(a, w, ref))
  {
    assert u.drivers == s.drivers[a := u.drivers[a]];
    hide AfterRequest, Constructible;
    assert Answer(d, s, u, a, w, ref);
  }

  /** One call on the Run that moves its status, and where it leaves the driver. */
  function Moved(s: State, status: Status, driver: Driver, a: nat, now: int): State
  {
    s.(run := Bump(s.run, now).(status := status), drivers := s.drivers[a := driver])
  }

  lemma SettleDoes(d: Definition, s: State, to: Status, a: nat, now: int)
    requires At(s, a) && s.drivers[a].loc == Settling(Advance(to)) && s.drivers[a].run == s.run
    requires (s.run.status.Running? && to.WaitingApproval?) || (s.run.status.WaitingApproval? && to.Running?)
    ensures var run := Bump(s.run, now).(status := to);
            var driver := if to.Running? then s.drivers[a].(run := run, loc := Workflow.Ready) else Off;
            Does(d, s, Moved(s, to, driver, a, now), ASettle(a, now))
  {
    var run := Bump(s.run, now).(status := to);
    assert Apply(s.run, Advance(to), s.run.version, now) == Ok(run);
    hide Apply;
    var t := Moved(s, to, if to.Running? then s.drivers[a].(run := run, loc := Workflow.Ready) else Off, a, now);
    assert t.drivers == s.drivers[a := t.drivers[a]];
    assert Settle(s, t, a, now);
  }

  /** The state after a save for which the driver then moves the Run. */
  lemma SavedState(s: State, u: State, driver: Driver, next: Body, after: After, a: nat, now: int)
    requires driver.Active? && driver.run == s.run && u == Saving(s, driver, next, after, a)
    ensures At(u, a) && u.drivers[a].loc.Storing?
    ensures var t := AfterSave(u, a, now);
            && a in t.drivers && t.drivers[a] == Continue(t.run, next, after) && t.commits == s.commits + [next] && t.log == s.log
            && t.run == CommittedRun(s.run, next.ref, now)
  {
    var t := AfterSave(u, a, now);
    hide Continue, CommittedRun, CheckpointStore.Insert;
  }

  lemma ParkedAfter(d: Definition, s: State, x: State, next: Body, k: nat, y: Duty)
    requires Rolling(d, s, k, y) && k < |Greedy(d.g, {})| && Asked(d, next, k)
    requires y.driver in x.drivers && x.drivers[y.driver] == Continue(x.run, next, Wait) && x.run == CommittedRun(s.run, next.ref, y.now)
    requires x.commits == s.commits + [next] && x.log == s.log + [Dispatch(Greedy(d.g, {})[k], |s.commits|)]
    requires NothingFrom(x.store, d.run, |x.commits| + 1)
    ensures Does(d, x, Moved(x, WaitingApproval, Off, y.driver, y.now), ASettle(y.driver, y.now))
    ensures Parked(d, Moved(x, WaitingApproval, Off, y.driver, y.now), k, y)
  {
    hide Greedy, OnCourse, NothingFrom, Asked, Does;
    SettleDoes(d, x, WaitingApproval, y.driver, y.now);
  }

  lemma ApprovalNext(d: Definition, s: State, k: nat, y: Duty) returns (w: Work, ref: CheckpointRef, next: Body)
    requires Validated(d) && Inv(d, s) && Rolling(d, s, k, y) && k < |Greedy(d.g, {})|
    requires Greedy(d.g, {})[k] in d.kinds && d.kinds[Greedy(d.g, {})[k]].ApprovalNode?
    ensures Asked(d, next, k) && Home(s.commits, s.run, s.drivers[y.driver].current)
    ensures var u := Busy(s, Greedy(d.g, {})[k], y.driver);
            Does(d, u, Saving(u, s.drivers[y.driver], next, Wait, y.driver), AAnswer(y.driver, w, ref))
  {
    var n, b := Greedy(d.g, {})[k], s.commits[|s.commits| - 1];
    RollingFacts(d, s, k, y);
    RollingDriver(d, s, k, y);
    BusyFacts(d, s, n, k, y);
    hide Inv, Does, Rolling, OnCourse, Greedy, Constructible, Busy, Validated, AfterRequest, Saving, Good, Home, Asked;
    ref := FreshReference(s.names);
    w := AgentDone(0, 0, 0);
    RequestContent(d, s.run, b, ref, k);
    next := AfterRequest(d, s.run, b, ref, n);
    var u := Busy(s, n, y.driver);
    BusyRun(s, n, y.driver);
    RequestAnswers(d, u, Saving(u, s.drivers[y.driver], next, Wait, y.driver), n, w, ref, y.driver);
  }

  lemma BusyRun(s: State, n: Id, a: nat)
    requires a in s.drivers && s.drivers[a].Active?
    ensures var u := Busy(s, n, a);
            && u.run == s.run && u.commits == s.commits && u.store == s.store && u.log == s.log + [Dispatch(n, |s.commits|)]
  {
  }

  /** An approval is handed out and requested, and the Run waits. */
  lemma ApprovalParks(d: Definition, states: seq<State>, actions: seq<Action>, k: nat, y: Duty)
    returns (longer: seq<State>, more: seq<Action>)
    requires Validated(d) && IsRun(d, states, actions) && states != [] && Rolling(d, Last(states), k, y) && k < |Greedy(d.g, {})|
    requires Greedy(d.g, {})[k] in d.kinds && d.kinds[Greedy(d.g, {})[k]].ApprovalNode?
    ensures Goes(d, states, actions, longer, more) && IsRun(d, longer, more) && longer != []
    ensures Parked(d, Last(longer), k, y)
  {
    var s, n := Last(states), Greedy(d.g, {})[k];
    RunStates(d, states, actions);
    RunKeepsInv(d, states, actions, |states| - 1);
    HandsOutNext(d, s, k, y);
    RollingDriver(d, s, k, y);
    BusyRun(s, n, y.driver);
    hide *;
    var w, ref, next := ApprovalNext(d, s, k, y);
    var u := Busy(s, n, y.driver);
    var v := Saving(u, s.drivers[y.driver], next, Wait, y.driver);
    var mid, done := TwoSteps(d, states, actions, u, AHandOut(y.driver), v, AAnswer(y.driver, w, ref));
    NotTerminal(s);
    HoldsUncontended(d, u, s.drivers[y.driver], next, Wait, y.driver);
    SavedState(u, v, s.drivers[y.driver], next, Wait, y.driver, y.now);
    longer, more := Saves(d, mid, done, y.driver, y.now);
    GoesOn(d, states, actions, mid, done, longer, more);
    mid, done := longer, more;
    var x := AfterSave(v, y.driver, y.now);
    ParkedAfter(d, s, x, next, k, y);
    longer, more := Step(d, mid, done, Moved(x, WaitingApproval, Off, y.driver, y.now), ASettle(y.driver, y.now));
    GoesOn(d, states, actions, mid, done, longer, more);
  }

  lemma NotTerminal(s: State)
    requires s.run.status.Running? || s.run.status.WaitingApproval?
    ensures !Terminal(s.run.status)
  {
  }

  lemma ParkedFacts(d: Definition, s: State, k: nat, y: Duty)
    requires Inv(d, s) && Parked(d, s, k, y)
    ensures var b := s.commits[|s.commits| - 1];
            && Constructible(b) && s.run.attempt >= 1 && Home(s.commits, s.run, Some(b)) && Marked(d, s) == Done(Seal(b))
            && Asked(d, b, k) && IsOff(s, y.driver) && s.run.status.WaitingApproval?
            && NothingFrom(s.store, d.run, |s.commits| + 1)
  {
    LastIsLoaded(d, s);
    RunFacts(d, s);
    assert CommitOk(d, s, |s.commits| - 1);
    hide Good, Constructible, NothingFrom, Asked;
  }

  /** The driver that decides, between its two reads. */
  function Deliberating(s: State, b: Body, post: Body, n: Id, decision: Decision, a: nat): State
  {
    s.(drivers := s.drivers[a := Active(s.run, Some(b), Deciding(post, n, decision))], names := s.names + {post.ref})
  }

  lemma DecisionReads(d: Definition, s: State, b: Body, post: Body, n: Id, decision: Decision, ref: CheckpointRef, a: nat)
    requires IsOff(s, a) && s.run.status.WaitingApproval? && Marked(d, s) == Done(Seal(b))
    requires n in b.approvals && post == AfterDecision(d, s.run, b, ref, n, decision) && Constructible(post) && ref !in s.names
    ensures Does(d, s, Deliberating(s, b, post, n, decision, a), ADecide(a, n, decision, ref))
  {
    var t := Deliberating(s, b, post, n, decision, a);
    assert t.drivers == s.drivers[a := t.drivers[a]];
    hide Marked, Constructible;
    assert post.ref == ref;
    hide AfterDecision;
    assert DecideBegin(d, s, t, a, n, decision, ref);
  }

  lemma DecisionRereads(d: Definition, s: State, b: Body, post: Body, n: Id, decision: Decision, a: nat)
    requires s.run.status.WaitingApproval? && Marked(d, s) == Done(Seal(b))
    requires n in b.approvals && b.approvals[n].decision.None?
    ensures var u, driver := Deliberating(s, b, post, n, decision, a), Active(s.run, Some(b), Workflow.Ready);
            Does(d, u, Saving(s, driver, post, Decide(decision), a), ADecideAgain(a))
  {
    var u := Deliberating(s, b, post, n, decision, a);
    var v := Saving(s, Active(s.run, Some(b), Workflow.Ready), post, Decide(decision), a);
    assert Marked(d, u) == Marked(d, s);
    assert v.drivers == u.drivers[a := v.drivers[a]];
    hide Marked;
    assert DecideAgain(d, u, v, a);
  }

  /** The driver has committed the decision, and is about to move the Run. */
  ghost predicate HasDecided(d: Definition, s: State, x: State, next: Body, k: nat, y: Duty, decision: Decision)
  {
    && y.driver in x.drivers && x.drivers[y.driver] == Continue(x.run, next, Decide(decision))
    && x.run == CommittedRun(s.run, next.ref, y.now) && x.commits == s.commits + [next] && x.log == s.log
    && NothingFrom(x.store, d.run, |x.commits| + 1) && k < |Greedy(d.g, {})|
    && var n := Greedy(d.g, {})[k];
       n in next.approvals && next.approvals[n].decision == Some(decision) && (decision.Approved? ==> OnCourse(d, next, k + 1))
  }

  /** The decision is made and committed. */
  lemma ApprovalDecided(d: Definition, states: seq<State>, actions: seq<Action>, k: nat, y: Duty, decision: Decision)
    returns (longer: seq<State>, more: seq<Action>, post: Body)
    requires Validated(d) && IsRun(d, states, actions) && states != [] && Parked(d, Last(states), k, y)
    ensures Goes(d, states, actions, longer, more) && IsRun(d, longer, more) && longer != []
    ensures HasDecided(d, Last(states), Last(longer), post, k, y, decision)
  {
    var s, n := Last(states), Greedy(d.g, {})[k];
    var b := s.commits[|s.commits| - 1];
    RunStates(d, states, actions);
    RunKeepsInv(d, states, actions, |states| - 1);
    ParkedFacts(d, s, k, y);
    assert n in b.approvals && b.approvals[n].decision.None?;
    hide *;
    var ref := FreshReference(s.names);
    DecidedContent(d, s.run, b, ref, k, decision);
    post := AfterDecision(d, s.run, b, ref, n, decision);
    var driver := Active(s.run, Some(b), Workflow.Ready);
    DecisionReads(d, s, b, post, n, decision, ref, y.driver);
    DecisionRereads(d, s, b, post, n, decision, y.driver);
    var u := Deliberating(s, b, post, n, decision, y.driver);
    var v := Saving(s, driver, post, Decide(decision), y.driver);
    var mid, done := TwoSteps(d, states, actions, u, ADecide(y.driver, n, decision, ref), v, ADecideAgain(y.driver));
    NotTerminal(s);
    HoldsUncontended(d, s, driver, post, Decide(decision), y.driver);
    SavedState(s, v, driver, post, Decide(decision), y.driver, y.now);
    longer, more := Saves(d, mid, done, y.driver, y.now);
    GoesOn(d, states, actions, mid, done, longer, more);
    DecidedNow(d, s, Last(longer), post, k, y, decision);
  }

  lemma DecidedNow(d: Definition, s: State, x: State, next: Body, k: nat, y: Duty, decision: Decision)
    requires y.driver in x.drivers && x.drivers[y.driver] == Continue(x.run, next, Decide(decision))
    requires x.run == CommittedRun(s.run, next.ref, y.now) && x.commits == s.commits + [next] && x.log == s.log
    requires NothingFrom(x.store, d.run, |x.commits| + 1) && k < |Greedy(d.g, {})|
    requires var n := Greedy(d.g, {})[k];
             n in next.approvals && next.approvals[n].decision == Some(decision) && (decision.Approved? ==> OnCourse(d, next, k + 1))
    ensures HasDecided(d, s, x, next, k, y, decision)
  {
    hide Greedy, OnCourse, NothingFrom, Continue, CommittedRun;
  }

  lemma RollingAfter(d: Definition, s: State, x: State, next: Body, k: nat, y: Duty)
    requires Parked(d, s, k, y) && HasDecided(d, s, x, next, k, y, Approved)
    ensures var driver := Active(Bump(x.run, y.now).(status := Running), Some(next), Workflow.Ready);
            Does(d, x, Moved(x, Running, driver, y.driver, y.now), ASettle(y.driver, y.now))
            && Rolling(d, Moved(x, Running, driver, y.driver, y.now), k + 1, y)
  {
    hide Greedy, OnCourse, NothingFrom, Asked, Does;
    SettleDoes(d, x, Running, y.driver, y.now);
  }

  /** The approval is decided, and the driver goes on. */
  lemma ApprovalResumes(d: Definition, states: seq<State>, actions: seq<Action>, k: nat, y: Duty)
    returns (longer: seq<State>, more: seq<Action>)
    requires Validated(d) && IsRun(d, states, actions) && states != [] && Parked(d, Last(states), k, y)
    ensures Goes(d, states, actions, longer, more) && IsRun(d, longer, more) && longer != []
    ensures Rolling(d, Last(longer), k + 1, y)
  {
    hide *;
    var mid, done, post := ApprovalDecided(d, states, actions, k, y, Approved);
    var x := Last(mid);
    RollingAfter(d, Last(states), x, post, k, y);
    var next := Active(Bump(x.run, y.now).(status := Running), Some(post), Workflow.Ready);
    longer, more := Step(d, mid, done, Moved(x, Running, next, y.driver, y.now), ASettle(y.driver, y.now));
    GoesOn(d, states, actions, mid, done, longer, more);
  }

  // ---------------------------------------------------------------- the whole workflow

  /** One node after the other. */
  lemma StepRolls(d: Definition, states: seq<State>, actions: seq<Action>, k: nat, y: Duty)
    returns (longer: seq<State>, more: seq<Action>)
    requires Validated(d) && IsRun(d, states, actions) && states != [] && Rolling(d, Last(states), k, y) && k < |Greedy(d.g, {})|
    ensures Goes(d, states, actions, longer, more) && IsRun(d, longer, more) && longer != []
    ensures Rolling(d, Last(longer), k + 1, y)
  {
    var s, n := Last(states), Greedy(d.g, {})[k];
    RunStates(d, states, actions);
    RunKeepsInv(d, states, actions, |states| - 1);
    RollingDriver(d, s, k, y);
    NextIsChosen(d, s.commits[|s.commits| - 1], k);
    RollingFacts(d, s, k, y);
    hide *;
    match d.kinds[n] {
      case AgentNode(_) =>
        var w, ref, next := AgentNext(d, s, k, y);
        longer, more := NodeRolls(d, states, actions, k, w, ref, next, y);
      case EvaluationNode =>
        var w, ref, next := EvaluationNext(d, s, k, y);
        longer, more := NodeRolls(d, states, actions, k, w, ref, next, y);
      case ApprovalNode =>
        var mid, done := ApprovalParks(d, states, actions, k, y);
        longer, more := ApprovalResumes(d, mid, done, k, y);
        GoesOn(d, states, actions, mid, done, longer, more);
    }
  }

  lemma {:induction false} AllRoll(d: Definition, states: seq<State>, actions: seq<Action>, k: nat, y: Duty)
    returns (longer: seq<State>, more: seq<Action>)
    requires Validated(d) && IsRun(d, states, actions) && states != [] && Rolling(d, Last(states), k, y) && k <= |Greedy(d.g, {})|
    ensures Goes(d, states, actions, longer, more) && IsRun(d, longer, more) && longer != []
    ensures Rolling(d, Last(longer), |Greedy(d.g, {})|, y)
    decreases |Greedy(d.g, {})| - k
  {
    hide *;
    if k == |Greedy(d.g, {})| {
      longer, more := states, actions;
      GoesNowhere(d, states, actions);
    } else {
      var mid, done := StepRolls(d, states, actions, k, y);
      longer, more := AllRoll(d, mid, done, k + 1, y);
      GoesOn(d, states, actions, mid, done, longer, more);
    }
  }

  lemma OpenedRolls(d: Definition)
    requires Opens(d) && NothingFrom(FirstStore(d), 0, 2)
    ensures Rolling(d, Opened(d), 0, Duty(0, 0, 0, 0))
  {
    FirstFacts(d);
    hide Greedy, NothingFrom, FirstStore, Acyclic, WellFormed;
    assert Elements(Greedy(d.g, {})[..0]) == {};
  }

  /** Completing, and the state in which the Run has succeeded. */
  function Completing(s: State, a: nat): State
    requires a in s.drivers && s.drivers[a].Active?
  {
    s.(drivers := s.drivers[a := s.drivers[a].(loc := Settling(Complete))])
  }

  function Ended(s: State, a: nat, now: int): State
    requires a in s.drivers && s.drivers[a].Active?
  {
    Completing(s, a).(run := Finish(s.run, Succeeded, AttemptSucceeded, None, now), drivers := s.drivers[a := Off])
  }

  lemma FinishedIs(d: Definition, s: State, a: nat)
    requires AtReady(s, a)
    requires var b := s.drivers[a].current.value; !AwaitsDecision(b) && !StableFailure(d, b) && Completed(b) == d.g.nodes
    ensures Does(d, s, Completing(s, a), AFinished(a))
  {
    assert Completing(s, a).drivers == s.drivers[a := Completing(s, a).drivers[a]];
    hide Completed, StableFailure, AwaitsDecision;
    assert Finished(d, s, Completing(s, a), a);
  }

  lemma AllDone(d: Definition, s: State, y: Duty)
    requires Validated(d) && Rolling(d, s, |Greedy(d.g, {})|, y)
    ensures Does(d, s, Completing(s, y.driver), AFinished(y.driver)) && Completed(s.commits[|s.commits| - 1]) == d.g.nodes
  {
    RollingDriver(d, s, |Greedy(d.g, {})|, y);
    NextInOrder(d, s.commits[|s.commits| - 1], |Greedy(d.g, {})|);
    hide Greedy, Completed, StableFailure, AwaitsDecision, Rolling, NothingFrom, Does, Completing;
    FinishedIs(d, s, y.driver);
  }

  lemma Completes(d: Definition, s: State, a: nat, now: int)
    requires At(s, a) && s.drivers[a].run == s.run && s.run.status.Running?
    ensures Does(d, Completing(s, a), Ended(s, a, now), ASettle(a, now))
  {
    var u, t := Completing(s, a), Ended(s, a, now);
    assert Apply(s.run, Complete, s.run.version, now) == Ok(t.run);
    hide Apply, Finish;
    assert t.drivers == u.drivers[a := Off];
    assert Settle(u, t, a, now);
  }

  /** From any point on the way to success, handing out exactly the nodes that are left, in order. */
  lemma RollsToSuccess(d: Definition, states: seq<State>, actions: seq<Action>, k: nat, y: Duty)
    returns (longer: seq<State>, more: seq<Action>)
    requires Validated(d) && IsRun(d, states, actions) && states != [] && Rolling(d, Last(states), k, y)
    ensures Goes(d, states, actions, longer, more) && IsRun(d, longer, more) && longer != []
    ensures Successful(d, Last(longer))
    ensures InTurn(d, Last(longer).log, y, |Greedy(d.g, {})|)
  {
    RollingDriver(d, Last(states), k, y);
    hide *;
    var mid, done := AllRoll(d, states, actions, k, y);
    var s, a := Last(mid), y.driver;
    AllDone(d, s, y);
    RollingDriver(d, s, |Greedy(d.g, {})|, y);
    Completes(d, s, a, y.now);
    var u, t := Completing(s, a), Ended(s, a, y.now);
    SuccessIs(d, s, a, y);
    longer, more := TwoSteps(d, mid, done, u, AFinished(a), t, ASettle(a, y.now));
    GoesOn(d, states, actions, mid, done, longer, more);
  }

  /** The Run succeeded with every node committed as succeeded. */
  ghost predicate Successful(d: Definition, s: State)
  {
    s.run.status.Succeeded? && s.commits != [] && Completed(s.commits[|s.commits| - 1]) == d.g.nodes
  }

  lemma SuccessIs(d: Definition, s: State, a: nat, y: Duty)
    requires Rolling(d, s, |Greedy(d.g, {})|, y) && a == y.driver && Completed(s.commits[|s.commits| - 1]) == d.g.nodes
    ensures a in s.drivers && s.drivers[a].Active? && Successful(d, Ended(s, a, y.now)) && InTurn(d, Ended(s, a, y.now).log, y, |Greedy(d.g, {})|)
  {
    hide Greedy, OnCourse, NothingFrom, InTurn, Completed;
  }

  /** For every validated definition there is an execution that hands out each of its nodes once, in
      the validator's order, and ends with the Run SUCCEEDED and every node committed as succeeded. */
  lemma WorkflowSucceeds(d: Definition) returns (states: seq<State>, actions: seq<Action>)
    requires Opens(d)
    ensures IsRun(d, states, actions) && states != [] && Successful(d, Last(states))
    ensures var log, order := Last(states).log, Greedy(d.g, {});
            |log| == |order| && forall i :: 0 <= i < |order| ==> log[i].node == order[i]
  {
    states := OpenedFromStart(d);
    OpenedRolls(d);
    assert Validated(d);
    hide IsRun, Rolling, Opened, Greedy, Validated, NothingFrom, Successful;
    states, actions := RollsToSuccess(d, states, OPENING, 0, Duty(0, 0, 0, 0));
  }
}
