/** Crash-safe execution: what holds of every committed checkpoint and every dispatch, over all
    interleavings of drivers, decisions, recoveries, crashes and orphan deletions. */
module WorkflowSafety {
  import opened Wrappers
  import opened Order
  import opened Graph
  import opened RunMachine
  import opened Checkpoints
  import opened CheckpointStore
  import opened Coordinator
  import opened Workflow
  import opened WorkflowContent
  import opened WorkflowInvariant
  import opened WorkflowSteps

  /** The completed nodes of every committed checkpoint are a prefix of the validator's order, and
      its recorded and pending nodes partition the definition's. */
  lemma CommittedPrefix(d: Definition, states: seq<State>, actions: seq<Action>, k: nat, i: nat)
    requires Validated(d) && IsRun(d, states, actions) && k < |states| && i < |states[k].commits|
    ensures var b := states[k].commits[i];
            && (exists n: nat :: n <= |Greedy(d.g, {})| && Completed(b) == Elements(Greedy(d.g, {})[..n]))
            && b.states.Keys + b.pending == d.g.nodes && b.states.Keys !! b.pending
            && b.sequence == i + 1 && (i > 0 ==> b.previous == Some(states[k].commits[i - 1].ref))
  {
    RunKeepsInv(d, states, actions, k);
    var b := states[k].commits[i];
    assert CommitOk(d, states[k], i);
    var n :| Stage(d, b, n);
    forall m | m in b.states ensures m in d.g.nodes { assert NodeOk(d, b, m); }
  }

  /** A node is handed out only after everything it depends on succeeded in a checkpoint that was
      already committed. */
  lemma DispatchAfterDependencies(d: Definition, states: seq<State>, actions: seq<Action>, k: nat, i: nat)
    requires Validated(d) && IsRun(d, states, actions) && k < |states| && i < |states[k].log|
    ensures var e := states[k].log[i];
            && e.upTo <= |states[k].commits|
            && exists c :: 0 <= c < e.upTo && Preds(d.g, e.node) <= Completed(states[k].commits[c])
  {
    RunKeepsInv(d, states, actions, k);
    assert DispatchOk(d, states[k].commits, states[k].log[i]);
  }

  /** A Run that succeeded has committed every node as succeeded. */
  lemma SuccessMeansAllNodes(d: Definition, states: seq<State>, actions: seq<Action>, k: nat)
    requires Validated(d) && IsRun(d, states, actions) && k < |states| && states[k].run.status.Succeeded?
    ensures var commits := states[k].commits;
            && commits != [] && states[k].run.marker == Some(commits[|commits| - 1].ref)
            && Completed(commits[|commits| - 1]) == d.g.nodes
  {
    RunKeepsInv(d, states, actions, k);
  }

  /** Durable history is write-once: side effects, decisions and settled node states of a committed
      checkpoint reappear unchanged in every later one. */
  lemma HistoryIsWriteOnce(d: Definition, states: seq<State>, actions: seq<Action>, k: nat, i: nat, j: nat)
    requires Validated(d) && IsRun(d, states, actions) && k < |states| && i <= j < |states[k].commits|
    ensures Follows(states[k].commits[i], states[k].commits[j])
  {
    RunKeepsInv(d, states, actions, k);
    KeptAlong(d, states[k], i, j);
  }

  /** In every committed checkpoint each side-effecting node that succeeded has a recorded effect
      that carries its output, and nothing else has; every dependency that produces a value has it
      recorded; and a failed evaluation keeps its result for recovery to read. */
  lemma ResultsAreRecorded(d: Definition, states: seq<State>, actions: seq<Action>, k: nat, i: nat)
    requires Validated(d) && IsRun(d, states, actions) && k < |states| && i < |states[k].commits|
    ensures var b := states[k].commits[i];
            && EffectsOk(d, b)
            && (forall n :: n in b.states ==>
                 && n in d.kinds
                 && (!d.kinds[n].ApprovalNode? ==> HasResult(b.states[n], b.states[n].outcome.NodeSucceeded?))
                 && (d.kinds[n].AgentNode? ==> b.states[n].outcome.NodeSucceeded?))
  {
    RunKeepsInv(d, states, actions, k);
    var b := states[k].commits[i];
    assert CommitOk(d, states[k], i);
    forall n | n in b.states
      ensures n in d.kinds
      ensures !d.kinds[n].ApprovalNode? ==> HasResult(b.states[n], b.states[n].outcome.NodeSucceeded?)
      ensures d.kinds[n].AgentNode? ==> b.states[n].outcome.NodeSucceeded?
    {
      assert NodeOk(d, b, n);
    }
  }

  /** In every committed checkpoint each approval on record has its node in the state the decision
      calls for: waiting, succeeded, denied or cancelled, and nothing else attached to it. */
  lemma DecisionsAreOutcomes(d: Definition, states: seq<State>, actions: seq<Action>, k: nat, i: nat, n: Id)
    requires Validated(d) && IsRun(d, states, actions) && k < |states| && i < |states[k].commits|
    requires n in states[k].commits[i].states && n in d.kinds && d.kinds[n].ApprovalNode?
    ensures var b := states[k].commits[i];
            && n in b.approvals && b.approvals[n].node == n
            && b.states[n].approval == Some(n) && b.states[n].output.None? && b.states[n].error.None?
            && match b.approvals[n].decision
               case None => b.states[n].outcome == NodeWaiting
               case Some(Approved) => b.states[n].outcome == NodeSucceeded
               case Some(Rejected) => b.states[n].outcome == NodeDenied
               case Some(Withdrawn) => b.states[n].outcome == NodeCancelled
  {
    RunKeepsInv(d, states, actions, k);
    assert CommitOk(d, states[k], i);
    assert NodeOk(d, states[k].commits[i], n);
  }

  // ---------------------------------------------------------------- one driver at a time

  ghost predicate Solo(s: State) { forall a, b :: At(s, a) && At(s, b) ==> a == b }

  /** Every driver continues from the content of the last committed checkpoint. */
  ghost predicate UpToDate(s: State)
  {
    forall a :: At(s, a) && s.drivers[a].current.Some? ==>
      s.commits != [] && SameContent(s.commits[|s.commits| - 1], s.drivers[a].current.value)
  }

  ghost predicate NotRepeated(commits: seq<Body>, e: Dispatch)
  {
    e.upTo <= |commits| && forall i :: 0 <= i < e.upTo ==> e.node !in Completed(commits[i])
  }

  ghost predicate NoneRepeated(s: State)
  {
    forall i :: 0 <= i < |s.log| ==> NotRepeated(s.commits, s.log[i])
  }

  /** Nobody else is active, so the second read finds what the first one did. */
  lemma DecideUpToDate(d: Definition, s: State, t: State, a: nat)
    requires Validated(d) && Inv(d, s) && Solo(s) && UpToDate(s) && DecideAgain(d, s, t, a)
    ensures UpToDate(t)
  {
    hide Inv, Validated, Constructible, AfterDecision, Marked, Good;
    MarkedIsLast(d, s);
    DecidingFacts(d, s, a);
    var driver, last := s.drivers[a], s.commits[|s.commits| - 1];
    assert SameContent(last, driver.current.value);
    if last.approvals[driver.loc.node].decision.Some? && driver.loc.decision.Approved? {
      ReplayIsSame(d, driver.run, driver.current.value, driver.loc.post.ref, driver.loc.node);
      assert SameContent(last, driver.loc.post);
    }
    forall b | At(t, b) && t.drivers[b].current.Some? ensures SameContent(last, t.drivers[b].current.value) {
      assert At(s, b);
    }
  }

  lemma CommitUpToDate(s: State, t: State, a: nat, now: int)
    requires Solo(s) && UpToDate(s) && CommitPhase(s, t, a, now)
    ensures UpToDate(t)
  {
    hide Apply;
    assert forall b :: At(t, b) ==> At(s, b) || b == a;
  }

  /** Nothing committed, and no driver with another checkpoint to continue from. */
  lemma QuietUpToDate(s: State, t: State)
    requires UpToDate(s) && t.commits == s.commits
    requires forall a :: At(t, a) && t.drivers[a].current.Some? ==> At(s, a) && s.drivers[a].current == t.drivers[a].current
    ensures UpToDate(t)
  {
    forall a | At(t, a) && t.drivers[a].current.Some?
      ensures s.commits != [] && SameContent(s.commits[|s.commits| - 1], t.drivers[a].current.value)
    {
      assert At(s, a);
    }
  }

  /** A driver that begins reads the committed checkpoint. */
  lemma BeginUpToDate(d: Definition, s: State, t: State, action: Action)
    requires Inv(d, s) && UpToDate(s) && Does(d, s, t, action) && (action.APickUp? || action.ARecover? || action.ADecide?)
    ensures UpToDate(t)
  {
    hide Inv, Constructible, Marked;
    MarkedIsLast(d, s);
  }

  /** Every other step leaves what drivers continue from alone. */
  lemma OthersUpToDate(d: Definition, s: State, t: State, action: Action)
    requires UpToDate(s) && Does(d, s, t, action)
    requires !action.APickUp? && !action.ARecover? && !action.ADecide? && !action.ADecideAgain? && !action.ACommit?
    ensures UpToDate(t)
  {
    hide Apply, Save, Greedy, Constructible, PassesChecks, StableFailure, AwaitsDecision, UpToDate, Completed;
    QuietUpToDate(s, t);
  }

  lemma StaysUpToDate(d: Definition, s: State, t: State, action: Action)
    requires Validated(d) && Inv(d, s) && Solo(s) && UpToDate(s) && Does(d, s, t, action)
    ensures UpToDate(t)
  {
    hide Inv, Validated, UpToDate, Solo, CommitPhase, DecideAgain;
    if action.ACommit? {
      CommitUpToDate(s, t, action.a, action.now);
    } else if action.ADecideAgain? {
      DecideUpToDate(d, s, t, action.a);
    } else {
      hide Does;
      if action.APickUp? || action.ARecover? || action.ADecide? { BeginUpToDate(d, s, t, action); } else { OthersUpToDate(d, s, t, action); }
    }
  }

  lemma StillNotRepeated(d: Definition, s: State, t: State, action: Action)
    requires Inv(d, s) && Does(d, s, t, action) && NoneRepeated(s) && !action.AHandOut?
    ensures NoneRepeated(t)
  {
    hide Inv, Marked, Apply, Save, Greedy, Constructible, Admissible, StableFailure, AwaitsDecision, Completed;
    assert t.log == s.log && s.commits <= t.commits;
    forall i | 0 <= i < |t.log| ensures NotRepeated(t.commits, t.log[i]) { assert NotRepeated(s.commits, s.log[i]); }
  }

  lemma HandOutNotRepeated(d: Definition, s: State, t: State, a: nat)
    requires Validated(d) && Inv(d, s) && UpToDate(s) && HandOut(d, s, t, a) && NoneRepeated(s)
    ensures NoneRepeated(t)
  {
    ChosenIsFresh(d, s, a);
    hide Inv, Completed, Greedy, Validated, AwaitsDecision, StableFailure, UpToDate;
    assert NotRepeated(s.commits, t.log[|s.log|]);
  }

  lemma CompletedStays(d: Definition, s: State, i: nat, j: nat)
    requires Inv(d, s) && i <= j < |s.commits|
    ensures Completed(s.commits[i]) <= Completed(s.commits[j])
  {
    hide Inv;
    KeptAlong(d, s, i, j);
  }

  /** The node an up-to-date driver picks has not succeeded in any committed checkpoint. */
  lemma ChosenIsFresh(d: Definition, s: State, a: nat)
    requires Validated(d) && Inv(d, s) && UpToDate(s) && AtReady(s, a)
    requires var current := s.drivers[a].current.value;
             Greedy(d.g, Completed(current)) != [] && Chosen(d, current, Greedy(d.g, Completed(current))[0])
    ensures var n := Greedy(d.g, Completed(s.drivers[a].current.value))[0];
            forall i :: 0 <= i < |s.commits| ==> n !in Completed(s.commits[i])
  {
    var current := s.drivers[a].current.value;
    var n := Greedy(d.g, Completed(current))[0];
    var last := |s.commits| - 1;
    assert Good(d, current) by { assert DriverOk(d, s, s.drivers[a]); }
    assert Completed(s.commits[last]) == Completed(current);
    hide Inv, Good;
    var k := ChosenIsNext(d, current, n);
    hide Greedy, Chosen, Completed;
    forall i | 0 <= i < |s.commits| ensures n !in Completed(s.commits[i]) { CompletedStays(d, s, i, last); }
  }

  lemma SoloStep(d: Definition, s: State, t: State, action: Action)
    requires Validated(d) && Inv(d, s) && Solo(s) && UpToDate(s) && NoneRepeated(s) && Does(d, s, t, action)
    ensures UpToDate(t) && NoneRepeated(t)
  {
    StaysUpToDate(d, s, t, action);
    hide Inv, UpToDate, NoneRepeated, Validated, Solo;
    if action.AHandOut? { HandOutNotRepeated(d, s, t, action.a); } else { StillNotRepeated(d, s, t, action); }
  }

  lemma InitUpToDate(d: Definition, s: State)
    requires Init(d, s)
    ensures UpToDate(s) && NoneRepeated(s)
  {
  }

  lemma {:induction false} SoloRun(d: Definition, states: seq<State>, actions: seq<Action>, k: nat)
    requires Validated(d) && IsRun(d, states, actions) && k < |states|
    requires forall i :: 0 <= i < k ==> Solo(states[i])
    ensures UpToDate(states[k]) && NoneRepeated(states[k])
  {
    hide Inv, UpToDate, NoneRepeated, Validated, Solo, Does, Init;
    if k == 0 {
      InitUpToDate(d, states[0]);
    } else {
      SoloRun(d, states, actions, k - 1);
      RunKeepsInv(d, states, actions, k - 1);
      SoloStep(d, states[k - 1], states[k], actions[k - 1]);
    }
  }

  /** With one driver at a time, across any crashes and recoveries, a node that any checkpoint
      committed as succeeded is never handed out again. */
  lemma NeverRedispatched(d: Definition, states: seq<State>, actions: seq<Action>, k: nat, e: nat, c: nat)
    requires Validated(d) && IsRun(d, states, actions) && k < |states|
    requires forall i :: 0 <= i < k ==> Solo(states[i])
    requires e < |states[k].log| && c < states[k].log[e].upTo
    ensures c < |states[k].commits| && states[k].log[e].node !in Completed(states[k].commits[c])
  {
    SoloRun(d, states, actions, k);
    assert NotRepeated(states[k].commits, states[k].log[e]);
  }
}
