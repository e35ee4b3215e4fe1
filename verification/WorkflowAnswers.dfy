/** Where recorded results come from: every result and side effect in a committed checkpoint is what
    one hand-out of its node answered. */
module WorkflowAnswers {
  import opened Wrappers
  import opened Order
  import opened Graph
  import opened RunMachine
  import opened Checkpoints
  import opened CheckpointStore
  import opened Coordinator
  import opened Workflow
  import opened WorkflowContent
  import opened WorkflowInvariant
  import opened WorkflowSteps

  // ---------------------------------------------------------------- answers

  predicate IsWork(d: Definition, b: Body, n: Id) { n in b.states && n in d.kinds && !d.kinds[n].ApprovalNode? }

  /** The checkpoint records the answer for node n: an agent's output, with the side effect of a
      side-effecting one, a passed evaluation's result as output, a failed one's as error. */
  predicate Records(d: Definition, b: Body, n: Id, w: Work)
    requires IsWork(d, b, n)
  {
    match d.kinds[n]
    case AgentNode(sideEffecting) =>
      && w.AgentDone? && b.states[n] == NodeState(NodeSucceeded, Some(w.output), None, None)
      && (sideEffecting ==> w.key in b.effects && b.effects[w.key] == SideEffect(n, w.fingerprint, w.output))
    case EvaluationNode =>
      && w.Verdict?
      && b.states[n] == if w.outcome.NodeSucceeded? then NodeState(NodeSucceeded, Some(w.reference), None, None)
                        else NodeState(w.outcome, None, Some(w.reference), None)
    case ApprovalNode => false
  }

  /** The action is the answer of a driver that was handed node n. */
  ghost predicate Answers(d: Definition, s: State, action: Action, b: Body, n: Id)
    requires IsWork(d, b, n)
  {
    action.AAnswer? && At(s, action.a) && s.drivers[action.a].loc == Working(n) && Records(d, b, n, action.w)
  }

  // ---------------------------------------------------------------- one step

  /** A checkpoint that a driver continues from, is building or is saving. */
  predicate Holds(driver: Driver, b: Body)
  {
    && driver.Active?
    && (driver.current == Some(b)
        || match driver.loc
           case Deciding(post, _, _) => post == b
           case Storing(next, _) => next == b
           case Checked(next, _) => next == b
           case Stored(next, _) => next == b
           case _ => false)
  }

  ghost predicate InPlay(s: State, b: Body)
  {
    b in s.commits || exists a :: a in s.drivers && Holds(s.drivers[a], b)
  }

  /** b repeats the results of base, except where the action answers. */
  ghost predicate Derived(d: Definition, s: State, action: Action, base: Body, b: Body)
  {
    && (forall k :: k in base.effects ==> k in b.effects && b.effects[k] == base.effects[k])
    && forall n :: IsWork(d, b, n) ==> (IsWork(d, base, n) && b.states[n] == base.states[n]) || Answers(d, s, action, b, n)
  }

  ghost predicate Sourced(d: Definition, s: State, action: Action, b: Body)
  {
    b.states == map[] || exists base :: InPlay(s, base) && Derived(d, s, action, base, b)
  }

  lemma SameIsSourced(d: Definition, s: State, action: Action, b: Body)
    requires InPlay(s, b)
    ensures Sourced(d, s, action, b)
  {
    hide InPlay, Answers;
    assert Derived(d, s, action, b, b);
  }

  predicate Builder(action: Action)
  {
    action.ALaunch? || action.APickUp? || action.ARecover? || action.ADecide? || action.AAnswer?
  }

  /** Nobody else's checkpoints change. */
  lemma OthersHold(s: State, t: State, a: nat, b: Body)
    requires t.commits == s.commits && a in t.drivers && t.drivers == s.drivers[a := t.drivers[a]] && InPlay(t, b)
    ensures InPlay(s, b) || Holds(t.drivers[a], b)
  {
    hide Holds;
  }

  lemma MarkedInPlay(d: Definition, s: State)
    requires Inv(d, s) && Marked(d, s).Done?
    ensures InPlay(s, Marked(d, s).value.body) && NodesOk(d, Marked(d, s).value.body)
  {
    hide Inv, Marked, Home, Constructible;
    MarkedIsLast(d, s);
  }

  lemma PickUpSources(d: Definition, s: State, t: State, action: Action, b: Body)
    requires Inv(d, s) && Does(d, s, t, action) && (action.APickUp? || action.ARecover?) && InPlay(t, b)
    ensures InPlay(s, b)
  {
    hide Inv, InPlay, Marked;
    MarkedInPlay(d, s);
    OthersHold(s, t, action.a, b);
  }

  lemma LaunchSources(d: Definition, s: State, t: State, action: Action, b: Body)
    requires Does(d, s, t, action) && action.ALaunch? && InPlay(t, b)
    ensures InPlay(s, b) || b.states == map[]
  {
    hide InPlay, Constructible;
    OthersHold(s, t, action.a, b);
  }

  lemma DecisionDerives(d: Definition, s: State, action: Action, run: Run, base: Body, ref: CheckpointRef, n: Id, decision: Decision)
    requires NodesOk(d, base) && n in base.approvals
    ensures Derived(d, s, action, base, AfterDecision(d, run, base, ref, n, decision))
  {
    hide Answers;
    assert NodeOk(d, base, n);
  }

  lemma DecideSources(d: Definition, s: State, t: State, action: Action, b: Body)
    requires Inv(d, s) && Does(d, s, t, action) && action.ADecide? && InPlay(t, b)
    ensures Sourced(d, s, action, b)
  {
    hide Inv, InPlay, Marked, Derived, NodesOk, Constructible, AfterDecision;
    MarkedInPlay(d, s);
    OthersHold(s, t, action.a, b);
    var base := Marked(d, s).value.body;
    DecisionDerives(d, s, action, s.run, base, action.ref, action.n, action.decision);
    if InPlay(s, b) { SameIsSourced(d, s, action, b); }
  }

  lemma AnswerDerives(d: Definition, s: State, t: State, action: Action)
    requires Does(d, s, t, action) && action.AAnswer?
    ensures At(s, action.a) && s.drivers[action.a].current.Some? && At(t, action.a) && t.drivers[action.a].loc.Storing?
    ensures Derived(d, s, action, s.drivers[action.a].current.value, t.drivers[action.a].loc.next)
    ensures t == t.(drivers := s.drivers[action.a := s.drivers[action.a].(loc := t.drivers[action.a].loc)]) && t.commits == s.commits
  {
    hide Constructible, Completed;
  }

  lemma AnswerSources(d: Definition, s: State, t: State, action: Action, b: Body)
    requires Does(d, s, t, action) && action.AAnswer? && InPlay(t, b)
    ensures Sourced(d, s, action, b)
  {
    AnswerDerives(d, s, t, action);
    var base := s.drivers[action.a].current.value;
    assert Holds(s.drivers[action.a], base) && InPlay(s, base);
    hide Does, InPlay, Derived;
    OthersHold(s, t, action.a, b);
    if InPlay(s, b) { SameIsSourced(d, s, action, b); }
  }

  /** Every other step only moves checkpoints around. */
  lemma QuietSources(d: Definition, s: State, t: State, action: Action, b: Body)
    requires Does(d, s, t, action) && !Builder(action) && InPlay(t, b)
    ensures InPlay(s, b)
  {
    hide Marked, Save, Apply, Greedy, Constructible, PassesChecks, StableFailure, AwaitsDecision, Completed, GatewayLoad, AfterDecision;
  }

  lemma StepSources(d: Definition, s: State, t: State, action: Action, b: Body)
    requires Inv(d, s) && Does(d, s, t, action) && InPlay(t, b)
    ensures Sourced(d, s, action, b)
  {
    hide Inv, Does, InPlay, Derived;
    if action.ALaunch? { LaunchSources(d, s, t, action, b); }
    else if action.APickUp? || action.ARecover? { PickUpSources(d, s, t, action, b); }
    else if action.ADecide? { DecideSources(d, s, t, action, b); }
    else if action.AAnswer? { AnswerSources(d, s, t, action, b); }
    else { QuietSources(d, s, t, action, b); }
    if InPlay(s, b) { SameIsSourced(d, s, action, b); }
  }

  // ---------------------------------------------------------------- whole executions

  /** Every result in the checkpoint is the answer of one of the first k actions. */
  ghost predicate Explained(d: Definition, states: seq<State>, actions: seq<Action>, k: nat, b: Body)
    requires k <= |actions| < |states|
  {
    forall n :: IsWork(d, b, n) ==> exists j :: 0 <= j < k && Answers(d, states[j], actions[j], b, n)
  }

  lemma AnswersCarry(d: Definition, s: State, action: Action, base: Body, b: Body, n: Id)
    requires IsWork(d, base, n) && IsWork(d, b, n) && b.states[n] == base.states[n] && Answers(d, s, action, base, n)
    requires forall k :: k in base.effects ==> k in b.effects && b.effects[k] == base.effects[k]
    ensures Answers(d, s, action, b, n)
  {
  }

  lemma DerivedIsExplained(d: Definition, states: seq<State>, actions: seq<Action>, k: nat, base: Body, b: Body)
    requires k < |actions| < |states| && Explained(d, states, actions, k, base) && Derived(d, states[k], actions[k], base, b)
    ensures Explained(d, states, actions, k + 1, b)
  {
    hide Answers;
    forall n | IsWork(d, b, n) ensures exists j :: 0 <= j < k + 1 && Answers(d, states[j], actions[j], b, n) {
      if !Answers(d, states[k], actions[k], b, n) {
        assert IsWork(d, base, n);
        var j :| 0 <= j < k && Answers(d, states[j], actions[j], base, n);
        AnswersCarry(d, states[j], actions[j], base, b, n);
      }
    }
  }

  lemma {:induction false} AllExplained(d: Definition, states: seq<State>, actions: seq<Action>, k: nat, b: Body)
    requires Validated(d) && IsRun(d, states, actions) && k < |states| && InPlay(states[k], b)
    ensures |states| == |actions| + 1 && Explained(d, states, actions, k, b)
    decreases k, 1
  {
    RunStates(d, states, actions);
    if k == 0 {
      NothingAtFirst(d, states, actions, b);
    } else {
      RunKeepsInv(d, states, actions, k - 1);
      RunStep(d, states, actions, k - 1);
      hide *;
      StepSources(d, states[k - 1], states[k], actions[k - 1], b);
      FromSource(d, states, actions, k, b);
    }
  }

  lemma NothingAtFirst(d: Definition, states: seq<State>, actions: seq<Action>, b: Body)
    requires IsRun(d, states, actions)
    ensures !InPlay(states[0], b)
  {
    hide Does;
  }

  lemma FromSource(d: Definition, states: seq<State>, actions: seq<Action>, k: nat, b: Body)
    requires Validated(d) && IsRun(d, states, actions) && 0 < k < |states| == |actions| + 1
    requires Sourced(d, states[k - 1], actions[k - 1], b)
    ensures Explained(d, states, actions, k, b)
    decreases k, 0
  {
    hide IsRun, InPlay, Derived, Validated, Answers;
    if b.states != map[] {
      hide Explained;
      var base :| InPlay(states[k - 1], base) && Derived(d, states[k - 1], actions[k - 1], base, b);
      AllExplained(d, states, actions, k - 1, base);
      DerivedIsExplained(d, states, actions, k - 1, base, b);
    }
  }

  /** In every execution, whatever a committed checkpoint records for an agent or an evaluation node
      is what a driver answered for it after that node was handed to it: the output, the side effect
      with its key, request and result, or the result of the evaluation, as output if it passed and
      as error if not. */
  lemma ResultsAreAnswers(d: Definition, states: seq<State>, actions: seq<Action>, k: nat, i: nat, n: Id)
    requires Validated(d) && IsRun(d, states, actions) && k < |states| && i < |states[k].commits|
    requires IsWork(d, states[k].commits[i], n)
    ensures |states| == |actions| + 1
    ensures exists j :: 0 <= j < k && Answers(d, states[j], actions[j], states[k].commits[i], n)
  {
    var b := states[k].commits[i];
    assert b in states[k].commits && InPlay(states[k], b);
    hide IsRun, InPlay, Answers;
    AllExplained(d, states, actions, k, b);
  }
}
