/** What every checkpoint the driver builds satisfies. */
module WorkflowContent {
  import opened Wrappers
  import opened Order
  import opened Graph
  import opened RunMachine
  import opened Checkpoints
  import opened CheckpointStore
  import opened Coordinator
  import opened Workflow
  import Scheduler

  // ---------------------------------------------------------------- one checkpoint

  /** The completed nodes are the first k of the validator's order; at most the next one is
      recorded without having succeeded; every other node is pending. */
  ghost predicate Stage(d: Definition, b: Body, k: nat)
  {
    var order := Greedy(d.g, {});
    && k <= |order| && Completed(b) == Elements(order[..k])
    && (b.states.Keys == Completed(b) || (k < |order| && b.states.Keys == Completed(b) + {order[k]}))
    && b.pending == d.g.nodes - b.states.Keys
  }

  /** The persisted result is the output of a success and the error of anything else. */
  predicate HasResult(state: NodeState, succeeded: bool)
  {
    && state.approval.None?
    && (if succeeded then state.output.Some? && state.error.None? else state.output.None? && state.error.Some?)
  }

  predicate SideEffecting(d: Definition, n: Id) { n in d.kinds && d.kinds[n] == AgentNode(true) }

  predicate Recorded(b: Body, n: Id) { exists k :: k in b.effects && b.effects[k].operation == n }

  /** Side effects are recorded for exactly the side-effecting nodes that succeeded, each with the
      node's own output. */
  ghost predicate EffectsOk(d: Definition, b: Body)
  {
    && (forall k :: k in b.effects ==>
         && SideEffecting(d, b.effects[k].operation) && b.effects[k].operation in b.states
         && b.states[b.effects[k].operation].output == Some(b.effects[k].result))
    && (forall n :: n in b.states && SideEffecting(d, n) ==> Recorded(b, n))
  }

  ghost predicate NodeOk(d: Definition, b: Body, n: Id)
    requires n in b.states
  {
    && n in d.kinds
    && match d.kinds[n]
       case AgentNode(_) =>
         b.states[n].outcome.NodeSucceeded? && HasResult(b.states[n], true) && n !in b.approvals
       case EvaluationNode =>
         && !b.states[n].outcome.NodeWaiting? && HasResult(b.states[n], b.states[n].outcome.NodeSucceeded?)
         && n !in b.approvals
       case ApprovalNode =>
         n in b.approvals && b.approvals[n].node == n
         && b.states[n] == NodeState(OutcomeOf(b.approvals[n].decision), None, None, Some(n))
  }

  ghost predicate NodesOk(d: Definition, b: Body)
  {
    b.approvals.Keys <= b.states.Keys && forall n :: n in b.states ==> NodeOk(d, b, n)
  }

  ghost predicate Staged(d: Definition, b: Body) { exists k: nat :: Stage(d, b, k) }

  ghost predicate Good(d: Definition, b: Body) { NodesOk(d, b) && EffectsOk(d, b) && Staged(d, b) }

  /** What a later checkpoint may not change: side effects, decisions, and settled node states. */
  ghost predicate Follows(a: Body, b: Body)
  {
    && (forall k :: k in a.effects ==> k in b.effects && b.effects[k] == a.effects[k])
    && (forall k :: k in a.approvals ==> k in b.approvals && (a.approvals[k].decision.Some? ==> b.approvals[k] == a.approvals[k]))
    && (forall n :: n in a.states ==> n in b.states && (!a.states[n].outcome.NodeWaiting? ==> b.states[n] == a.states[n]))
  }

  /** next records the decision on n that b still waits for. */
  predicate Decides(b: Body, next: Body, n: Id, decision: Decision)
  {
    && n in b.approvals && b.approvals[n].decision.None?
    && next.states == b.states[n := NodeState(OutcomeOf(Some(decision)), None, None, Some(n))]
    && next.approvals == b.approvals[n := Approval(n, Some(decision))] && next.effects == b.effects
  }

  ghost predicate DecidesSome(b: Body, next: Body) { exists n, decision :: Decides(b, next, n, decision) }

  /** next may be committed above b: it changes nothing settled, and while b waits for a decision
      it records that decision and nothing else. */
  ghost predicate Continues(b: Body, next: Body) { Follows(b, next) && (AwaitsDecision(b) ==> DecidesSome(b, next)) }

  predicate HoldsDecision(b: Body, decision: Decision)
  {
    exists n :: n in b.approvals && b.approvals[n].decision == Some(decision)
  }

  predicate Refused(b: Body) { HoldsDecision(b, Rejected) || HoldsDecision(b, Withdrawn) }

  predicate SameContent(a: Body, b: Body)
  {
    a.states == b.states && a.pending == b.pending && a.effects == b.effects && a.approvals == b.approvals
  }

  /** The scheduler's choice is the next entry of the order. */
  lemma NextInOrder(d: Definition, b: Body, k: nat)
    requires Validated(d) && Stage(d, b, k)
    ensures var order := Greedy(d.g, {});
            && Greedy(d.g, Completed(b)) == order[k..]
            && (k < |order| ==>
                 && order[k] in d.g.nodes && order[k] !in Completed(b) && Preds(d.g, order[k]) <= Completed(b)
                 && Elements(order[..k + 1]) == Completed(b) + {order[k]})
            && (k == |order| ==> Completed(b) == d.g.nodes)
  {
    var order := Greedy(d.g, {});
    Scheduler.SchedulerFollowsOrder(d.g, k);
    if k < |order| {
      GreedyRespectsEdges(d.g, k);
      assert order[..k + 1] == order[..k] + [order[k]];
    } else {
      assert order[..k] == order;
    }
  }

  lemma CompletedNext(b: Body, next: Body, n: Id)
    requires next.states.Keys == b.states.Keys + {n} && n !in Completed(b)
    requires forall m :: m in b.states && m != n ==> next.states[m] == b.states[m]
    ensures Completed(next) == if next.states[n].outcome.NodeSucceeded? then Completed(b) + {n} else Completed(b)
  {
  }

  /** Recording the next node, succeeded or not, moves to the next stage or stays. */
  lemma NextStage(d: Definition, b: Body, next: Body, n: Id, k: nat)
    requires Validated(d) && Stage(d, b, k) && k < |Greedy(d.g, {})| && n == Greedy(d.g, {})[k]
    requires next.states.Keys == b.states.Keys + {n}
    requires forall m :: m in b.states && m != n ==> next.states[m] == b.states[m]
    requires next.pending == d.g.nodes - (Completed(b) + {n})
    ensures Staged(d, next)
  {
    NextInOrder(d, b, k);
    hide Greedy, Validated;
    CompletedNext(b, next, n);
    assert next.states.Keys == Completed(b) + {n};
    hide Completed;
    assert Stage(d, next, if next.states[n].outcome.NodeSucceeded? then k + 1 else k);
  }

  /** The scheduler's choice for a checkpoint that waits for nothing and has not failed. */
  ghost predicate Chosen(d: Definition, b: Body, n: Id)
  {
    && !AwaitsDecision(b) && !StableFailure(d, b)
    && Greedy(d.g, Completed(b)) != [] && n == Greedy(d.g, Completed(b))[0]
  }

  lemma ChosenIsNext(d: Definition, b: Body, n: Id) returns (k: nat)
    requires Validated(d) && Good(d, b) && Chosen(d, b, n)
    ensures Stage(d, b, k) && k < |Greedy(d.g, {})| && n == Greedy(d.g, {})[k]
    ensures n in d.g.nodes && n !in Completed(b) && Preds(d.g, n) <= Completed(b)
    ensures n in b.states ==> d.kinds[n].ApprovalNode? && n in b.approvals
  {
    k :| Stage(d, b, k);
    NextInOrder(d, b, k);
    if n in b.states { assert NodeOk(d, b, n); }
  }

  /** Recording node n and touching nothing settled keeps every node's record in order. */
  lemma NodesGrow(d: Definition, b: Body, next: Body, n: Id)
    requires NodesOk(d, b) && n in next.states && NodeOk(d, next, n)
    requires next.states == b.states[n := next.states[n]]
    requires next.approvals == b.approvals || (n in next.approvals && next.approvals == b.approvals[n := next.approvals[n]])
    requires n in b.approvals ==> b.approvals[n].decision.None?
    requires n in b.states ==> b.states[n].outcome.NodeWaiting?
    requires forall k :: k in b.effects ==> k in next.effects && next.effects[k] == b.effects[k]
    ensures NodesOk(d, next) && Follows(b, next)
  {
    forall m | m in next.states ensures NodeOk(d, next, m) {
      if m != n { assert NodeOk(d, b, m); }
    }
  }

  lemma EffectsKept(d: Definition, b: Body, next: Body, n: Id)
    requires EffectsOk(d, b) && next.effects == b.effects && !SideEffecting(d, n)
    requires next.states.Keys == b.states.Keys + {n}
    requires forall m :: m in b.states && m != n ==> next.states[m] == b.states[m]
    ensures EffectsOk(d, next)
  {
    forall m | m in next.states && SideEffecting(d, m) ensures Recorded(next, m) {
      assert Recorded(b, m);
      var k :| k in b.effects && b.effects[k].operation == m;
      assert k in next.effects;
    }
  }

  lemma EffectsAdded(d: Definition, b: Body, next: Body, n: Id, k: nat, fingerprint: nat, output: nat)
    requires EffectsOk(d, b) && n !in b.states && k !in b.effects && SideEffecting(d, n)
    requires next.effects == b.effects[k := SideEffect(n, fingerprint, output)]
    requires next.states == b.states[n := NodeState(NodeSucceeded, Some(output), None, None)]
    ensures EffectsOk(d, next)
  {
    forall m | m in next.states && SideEffecting(d, m) ensures Recorded(next, m) {
      if m == n {
        assert k in next.effects;
      } else {
        assert Recorded(b, m);
        var j :| j in b.effects && b.effects[j].operation == m;
        assert j in next.effects && next.effects[j] == b.effects[j];
      }
    }
  }

  lemma FirstGood(d: Definition, run: Run, ref: CheckpointRef)
    ensures Good(d, First(d, run, ref))
  {
    var b := First(d, run, ref);
    assert Elements(Greedy(d.g, {})[..0]) == {};
    assert Completed(b) == {};
    assert Stage(d, b, 0);
  }

  lemma AgentEffects(d: Definition, run: Run, b: Body, ref: CheckpointRef, n: Id, w: Work)
    requires EffectsOk(d, b) && n in d.kinds && d.kinds[n].AgentNode? && w.AgentDone? && n !in b.states
    requires d.kinds[n].sideEffecting ==> w.key !in b.effects
    ensures EffectsOk(d, AfterAgent(d, run, b, ref, n, w))
  {
    var next := AfterAgent(d, run, b, ref, n, w);
    if d.kinds[n].sideEffecting {
      EffectsAdded(d, b, next, n, w.key, w.fingerprint, w.output);
    } else {
      EffectsKept(d, b, next, n);
    }
  }

  lemma AgentGood(d: Definition, run: Run, b: Body, ref: CheckpointRef, n: Id, w: Work)
    requires Validated(d) && Good(d, b) && Chosen(d, b, n) && d.kinds[n].AgentNode? && w.AgentDone?
    requires d.kinds[n].sideEffecting ==> w.key !in b.effects
    ensures Good(d, AfterAgent(d, run, b, ref, n, w)) && Follows(b, AfterAgent(d, run, b, ref, n, w))
  {
    var next := AfterAgent(d, run, b, ref, n, w);
    var k := ChosenIsNext(d, b, n);
    hide Greedy, Chosen, Validated, Completed, Stage, NodesOk, Follows, Staged;
    NextStage(d, b, next, n, k);
    if n in b.approvals { ApprovalIsRecorded(d, b, n); }
    assert n !in b.states;
    hide SideEffecting, EffectsOk;
    AgentEffects(d, run, b, ref, n, w);
    NodesGrow(d, b, next, n);
  }

  lemma EvaluationGood(d: Definition, run: Run, b: Body, ref: CheckpointRef, n: Id, w: Work)
    requires Validated(d) && Good(d, b) && Chosen(d, b, n) && d.kinds[n].EvaluationNode? && w.Verdict? && !w.outcome.NodeWaiting?
    ensures Good(d, AfterEvaluation(d, run, b, ref, n, w)) && Follows(b, AfterEvaluation(d, run, b, ref, n, w))
  {
    var next := AfterEvaluation(d, run, b, ref, n, w);
    var k := ChosenIsNext(d, b, n);
    hide Greedy, Chosen, Validated, Completed, Stage, NodesOk, Follows, Staged;
    NextStage(d, b, next, n, k);
    if n in b.approvals { ApprovalIsRecorded(d, b, n); }
    assert !SideEffecting(d, n);
    hide SideEffecting, EffectsOk;
    EffectsKept(d, b, next, n);
    NodesGrow(d, b, next, n);
  }

  lemma RequestGood(d: Definition, run: Run, b: Body, ref: CheckpointRef, n: Id)
    requires Validated(d) && Good(d, b) && Chosen(d, b, n) && d.kinds[n].ApprovalNode? && n !in b.approvals
    ensures Good(d, AfterRequest(d, run, b, ref, n)) && Follows(b, AfterRequest(d, run, b, ref, n))
  {
    var next := AfterRequest(d, run, b, ref, n);
    var k := ChosenIsNext(d, b, n);
    hide Greedy, Chosen, Validated, Completed, Stage, NodesOk, Follows, Staged;
    assert next.pending == d.g.nodes - (Completed(b) + {n});
    NextStage(d, b, next, n, k);
    assert !SideEffecting(d, n);
    hide SideEffecting, EffectsOk;
    EffectsKept(d, b, next, n);
    NodesGrow(d, b, next, n);
  }

  lemma ApprovalIsRecorded(d: Definition, b: Body, n: Id)
    requires NodesOk(d, b) && n in b.approvals
    ensures n in b.states
  {
  }

  /** At most one recorded node has not succeeded. */
  lemma OneUnsettled(d: Definition, b: Body, m: Id, n: Id)
    requires Good(d, b) && m in b.states && n in b.states
    requires !b.states[m].outcome.NodeSucceeded? && !b.states[n].outcome.NodeSucceeded?
    ensures m == n
  {
    var k :| Stage(d, b, k);
    assert m !in Completed(b) && n !in Completed(b);
  }

  /** An approval without an approving decision is on record as not succeeded. */
  lemma OpenOrRefused(d: Definition, b: Body, n: Id)
    requires Good(d, b) && n in b.approvals && b.approvals[n].decision != Some(Approved)
    ensures n in b.states && !b.states[n].outcome.NodeSucceeded? && n in d.kinds && d.kinds[n].ApprovalNode?
    ensures b.approvals[n].decision.None? <==> b.states[n].outcome.NodeWaiting?
  {
    assert NodeOk(d, b, n);
  }

  /** A node that waits is the one the order has reached. */
  lemma WaitingIsNext(d: Definition, b: Body, n: Id) returns (k: nat)
    requires Validated(d) && Good(d, b) && n in b.approvals && b.approvals[n].decision.None?
    ensures Stage(d, b, k) && k < |Greedy(d.g, {})| && n == Greedy(d.g, {})[k]
    ensures d.kinds[n].ApprovalNode? && n in b.states && b.states[n].outcome.NodeWaiting?
  {
    k :| Stage(d, b, k);
    assert NodeOk(d, b, n);
    assert n !in Completed(b);
  }

  lemma DecidedAwaitsNothing(d: Definition, b: Body, next: Body, n: Id, decision: Decision)
    requires Good(d, b) && Decides(b, next, n, decision)
    ensures !AwaitsDecision(next)
  {
    forall m | m in next.approvals ensures next.approvals[m].decision.Some? {
      if m != n && b.approvals[m].decision.None? {
        OpenOrRefused(d, b, m);
        OpenOrRefused(d, b, n);
        hide Good;
        OneUnsettled(d, b, m, n);
      }
    }
  }

  lemma PendingIsRest(d: Definition, a: Body, b: Body)
    requires Good(d, a) && Good(d, b) && a.states == b.states
    ensures a.pending == b.pending
  {
    var k :| Stage(d, a, k);
    var l :| Stage(d, b, l);
  }

  /** Two checkpoints that record the decision one checkpoint waits for have the same content, if
      they agree on the decision. */
  lemma SameDecision(d: Definition, b: Body, x: Body, y: Body, n: Id, decision: Decision)
    requires Good(d, b) && Good(d, x) && Good(d, y)
    requires DecidesSome(b, x) && Decides(b, y, n, decision)
    requires n in x.approvals && x.approvals[n].decision == Some(decision)
    ensures SameContent(x, y)
  {
    var m, other :| Decides(b, x, m, other);
    OpenOrRefused(d, b, m);
    OpenOrRefused(d, b, n);
    OneUnsettled(d, b, m, n);
    hide Good;
    PendingIsRest(d, x, y);
  }

  lemma DecisionGood(d: Definition, run: Run, b: Body, ref: CheckpointRef, n: Id, decision: Decision)
    requires Validated(d) && Good(d, b) && n in b.approvals && b.approvals[n].decision.None?
    ensures Good(d, AfterDecision(d, run, b, ref, n, decision)) && Follows(b, AfterDecision(d, run, b, ref, n, decision))
    ensures Decides(b, AfterDecision(d, run, b, ref, n, decision), n, decision)
  {
    var next := AfterDecision(d, run, b, ref, n, decision);
    var k := WaitingIsNext(d, b, n);
    DecisionPending(d, run, b, ref, n, decision);
    hide Greedy, Validated, Completed, Stage, NodesOk, Follows, Staged;
    NextStage(d, b, next, n, k);
    assert !SideEffecting(d, n);
    hide SideEffecting, EffectsOk;
    EffectsKept(d, b, next, n);
    NodesGrow(d, b, next, n);
  }

  lemma DecisionPending(d: Definition, run: Run, b: Body, ref: CheckpointRef, n: Id, decision: Decision)
    requires n in b.states && !b.states[n].outcome.NodeSucceeded?
    ensures AfterDecision(d, run, b, ref, n, decision).pending == d.g.nodes - (Completed(b) + {n})
  {
    var next := AfterDecision(d, run, b, ref, n, decision);
    assert Completed(next) == if decision.Approved? then Completed(b) + {n} else Completed(b);
  }

  /** An approval made again changes no content, when the checkpoint can be constructed at all. */
  lemma ReplayIsSame(d: Definition, run: Run, b: Body, ref: CheckpointRef, n: Id)
    requires Validated(d) && Good(d, b) && n in b.approvals && b.approvals[n].decision == Some(Approved)
    requires Constructible(AfterDecision(d, run, b, ref, n, Approved))
    ensures SameContent(b, AfterDecision(d, run, b, ref, n, Approved)) && !AwaitsDecision(b)
  {
    var next := AfterDecision(d, run, b, ref, n, Approved);
    assert NodeOk(d, b, n);
    assert next.states == b.states && next.approvals == b.approvals;
    assert Completed(next) == Completed(b);
    var k :| Stage(d, b, k);
    assert next.pending == d.g.nodes - Completed(b);
    assert b.states.Keys == Completed(b) by {
      NextInOrder(d, b, k);
      assert next.states.Keys !! next.pending;
    }
    forall m | m in b.approvals ensures b.approvals[m].decision.Some? { assert m in Completed(b) && NodeOk(d, b, m); }
  }

  lemma SameContentGood(d: Definition, a: Body, b: Body)
    requires Good(d, a) && SameContent(a, b)
    ensures Good(d, b)
  {
    var k :| Stage(d, a, k);
    assert Completed(a) == Completed(b);
    assert Stage(d, b, k);
    forall n | n in b.states ensures NodeOk(d, b, n) { assert NodeOk(d, a, n); }
  }

  // ---------------------------------------------------------------- one decision, recorded twice

  /** The decision a successor recorded is the one later checkpoints hold. */
  lemma SettledOnce(d: Definition, b: Body, x: Body, last: Body, n: Id)
    requires Good(d, b) && DecidesSome(b, x) && Follows(x, last) && n in b.approvals && b.approvals[n].decision.None?
    requires n in last.approvals && last.approvals[n].decision.Some?
    ensures n in x.approvals && x.approvals[n] == last.approvals[n]
  {
    var m, decision :| Decides(b, x, m, decision);
    OpenOrRefused(d, b, m);
    OpenOrRefused(d, b, n);
    OneUnsettled(d, b, m, n);
  }

  /** x was committed above b, which waits; the same approval, built above b again, is a copy of x. */
  lemma DecidedAfterwards(d: Definition, b: Body, x: Body, last: Body, run: Run, ref: CheckpointRef, n: Id)
    requires Validated(d) && Good(d, b) && Good(d, x) && Continues(b, x) && Follows(x, last)
    requires n in b.approvals && b.approvals[n].decision.None?
    requires n in last.approvals && last.approvals[n].decision == Some(Approved)
    ensures var post := AfterDecision(d, run, b, ref, n, Approved);
            Good(d, post) && !AwaitsDecision(post) && SameContent(x, post)
  {
    var post := AfterDecision(d, run, b, ref, n, Approved);
    DecisionGood(d, run, b, ref, n, Approved);
    DecidedAwaitsNothing(d, b, post, n, Approved);
    assert AwaitsDecision(b);
    SettledOnce(d, b, x, last, n);
    hide Good, Follows, AfterDecision, Validated;
    SameDecision(d, b, x, post, n, Approved);
  }

  /** b has the decision already: the same approval, built above b again, is a copy of b. */
  lemma DecidedBefore(d: Definition, b: Body, last: Body, run: Run, ref: CheckpointRef, n: Id)
    requires Validated(d) && Good(d, b) && Follows(b, last) && n in b.approvals && b.approvals[n].decision.Some?
    requires n in last.approvals && last.approvals[n].decision == Some(Approved)
    requires Constructible(AfterDecision(d, run, b, ref, n, Approved))
    ensures var post := AfterDecision(d, run, b, ref, n, Approved);
            Good(d, post) && !AwaitsDecision(post) && SameContent(b, post)
  {
    var post := AfterDecision(d, run, b, ref, n, Approved);
    assert b.approvals[n].decision == Some(Approved);
    hide Validated, Follows, Good, Constructible, AfterDecision;
    ReplayIsSame(d, run, b, ref, n);
    SameContentGood(d, b, post);
  }
}
