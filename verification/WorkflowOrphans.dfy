/** What a crash between the two halves of a commit leaves behind: an orphan of the store, which
    freezes the Run until it is deleted, or a started Run that nobody can continue. */
module WorkflowOrphans {
  import opened Wrappers
  import Order
  import opened Graph
  import G = Graph
  import opened RunMachine
  import opened Checkpoints
  import opened CheckpointStore
  import opened Coordinator
  import opened Workflow
  import opened WorkflowContent
  import opened WorkflowInvariant
  import opened WorkflowSteps
  import opened WorkflowLimits
  import opened WorkflowFinals
  import opened WorkflowProgress
  import opened WorkflowOpening

  // ---------------------------------------------------------------- a Run below an orphan

  predicate Commits(driver: Driver, r: CheckpointRef) { driver.Active? && driver.loc.Stored? && driver.loc.next.ref == r }

  ghost predicate AboveMarker(d: Definition, store: Store, sequence: nat, r: CheckpointRef)
  {
    r in store.checkpoints && KeyOf(store.checkpoints[r]) == Key(d.run, sequence)
  }

  /** A checkpoint is stored directly above the committed ones, and nobody is about to commit it. */
  ghost predicate Orphaned(d: Definition, s: State, r: CheckpointRef)
  {
    AboveMarker(d, s.store, |s.commits| + 1, r) && forall a :: a in s.drivers ==> !Commits(s.drivers[a], r)
  }

  lemma CommittedAbove(d: Definition, t: State)
    requires Inv(d, t) && t.commits != []
    ensures AboveMarker(d, t.store, |t.commits|, t.commits[|t.commits| - 1].ref) && Indexed(t.store)
  {
    CommitStored(d, t, |t.commits| - 1);
  }

  lemma OneAbove(d: Definition, store: Store, sequence: nat, q: CheckpointRef, r: CheckpointRef)
    requires Indexed(store) && AboveMarker(d, store, sequence, q) && AboveMarker(d, store, sequence, r)
    ensures q == r
  {
  }

  lemma CommitFacts(d: Definition, s: State, t: State, a: nat, now: int)
    requires Inv(d, s) && NamesOk(s) && CommitPhase(s, t, a, now) && t.commits != s.commits
    ensures |t.commits| == |s.commits| + 1 && a in s.drivers && Commits(s.drivers[a], t.commits[|s.commits|].ref)
    ensures t.store == s.store
  {
    CommitsOnLast(d, s, t, a, now);
    hide Inv, NamesOk, Apply, Continue;
  }

  /** Only the orphan could be committed next, and nobody commits it. */
  lemma OrphanedCommits(d: Definition, s: State, t: State, a: nat, now: int, r: CheckpointRef)
    requires Inv(d, s) && NamesOk(s) && Inv(d, t) && Orphaned(d, s, r) && CommitPhase(s, t, a, now)
    ensures t.commits == s.commits
  {
    hide Inv, NamesOk, CommitPhase, AboveMarker, Commits;
    if t.commits != s.commits {
      CommitFacts(d, s, t, a, now);
      CommittedAbove(d, t);
      OneAbove(d, t.store, |t.commits|, t.commits[|s.commits|].ref, r);
    }
  }

  lemma SaveKeeps(store: Store, c: Checkpoint, r: CheckpointRef)
    requires Save(store, c).Saved? && r in store.checkpoints
    ensures var saved := Save(store, c).store; r in saved.checkpoints && saved.checkpoints[r] == store.checkpoints[r]
  {
  }

  lemma StoreStaysOrphaned(d: Definition, s: State, t: State, a: nat, r: CheckpointRef)
    requires NamesOk(s) && Orphaned(d, s, r) && StorePhase(s, t, a)
    ensures Orphaned(d, t, r)
  {
    hide NamesOk, Save;
    DraftIsNew(s, a);
    SaveKeeps(s.store, Seal(s.drivers[a].loc.next), r);
  }

  lemma LocalKeepsStore(d: Definition, s: State, t: State, action: Action)
    requires Does(d, s, t, action) && Local(action) && !action.AStore? && !action.ADelete?
    ensures t.store == s.store
  {
    hide Constructible, PassesChecks, StableFailure, AwaitsDecision, Completed, Greedy;
  }

  lemma OthersKeepStore(d: Definition, s: State, t: State, action: Action)
    requires Does(d, s, t, action) && !Local(action)
    ensures t.store == s.store
  {
    hide Marked, Apply, Greedy, Constructible, StableFailure, AwaitsDecision, Completed, Continue;
  }

  lemma StoreStays(d: Definition, s: State, t: State, action: Action, r: CheckpointRef)
    requires Does(d, s, t, action) && r in s.store.checkpoints && !action.AStore? && action != ADelete(r)
    ensures r in t.store.checkpoints && t.store.checkpoints[r] == s.store.checkpoints[r]
  {
    if action.ADelete? {
      assert DeleteOrphan(s, t, action.r);
    } else {
      hide Does;
      if Local(action) { LocalKeepsStore(d, s, t, action); } else { OthersKeepStore(d, s, t, action); }
    }
  }

  /** Only storing brings a driver to the point of committing. */
  lemma StoredBefore(d: Definition, s: State, t: State, action: Action, a: nat, r: CheckpointRef)
    requires Does(d, s, t, action) && !action.AStore? && a in t.drivers && Commits(t.drivers[a], r)
    ensures a in s.drivers && Commits(s.drivers[a], r)
  {
    hide Marked, Apply, Save, Greedy, Constructible, PassesChecks, StableFailure, AwaitsDecision, Completed, Remove;
  }

  lemma OthersStayOrphaned(d: Definition, s: State, t: State, action: Action, r: CheckpointRef)
    requires Orphaned(d, s, r) && Does(d, s, t, action) && t.commits == s.commits && !action.AStore? && action != ADelete(r)
    ensures Orphaned(d, t, r)
  {
    hide Does, Commits;
    StoreStays(d, s, t, action, r);
    forall a | a in t.drivers ensures !Commits(t.drivers[a], r) {
      if Commits(t.drivers[a], r) { StoredBefore(d, s, t, action, a, r); }
    }
  }

  lemma StepStaysOrphaned(d: Definition, s: State, t: State, action: Action, r: CheckpointRef)
    requires Inv(d, s) && NamesOk(s) && Inv(d, t) && Orphaned(d, s, r) && Does(d, s, t, action) && action != ADelete(r)
    ensures t.commits == s.commits && Orphaned(d, t, r)
  {
    hide Inv, NamesOk, Orphaned, CommitPhase, StorePhase;
    if t.commits != s.commits {
      OnlyCommitsCommit(d, s, t, action);
      OrphanedCommits(d, s, t, action.a, action.now, r);
    } else if action.AStore? {
      assert StorePhase(s, t, action.a);
      StoreStaysOrphaned(d, s, t, action.a, r);
    } else {
      hide Does;
      OthersStayOrphaned(d, s, t, action, r);
    }
  }

  /** While an orphan lies directly above the marker, nothing is committed, whatever is recovered,
      retried or worked: only deleting it lets the Run go on. */
  lemma {:induction false} OrphanFreezes(d: Definition, states: seq<State>, actions: seq<Action>, r: CheckpointRef, j: nat, k: nat)
    requires Validated(d) && IsRun(d, states, actions) && j <= k < |states| && Orphaned(d, states[j], r)
    requires forall i :: j <= i < k ==> actions[i] != ADelete(r)
    ensures states[k].commits == states[j].commits && Orphaned(d, states[k], r)
  {
    hide *;
    if j < k {
      OrphanFreezes(d, states, actions, r, j, k - 1);
      RunStates(d, states, actions);
      RunKeepsInv(d, states, actions, k - 1);
      RunKeepsInv(d, states, actions, k);
      RunStep(d, states, actions, k - 1);
      StepStaysOrphaned(d, states[k - 1], states[k], actions[k - 1], r);
    }
  }

  // ---------------------------------------------------------------- stored, and then a crash

  /** The state after driver a stored its checkpoint and crashed. */
  function Abandoned(s: State, a: nat): State
    requires At(s, a) && s.drivers[a].loc.Storing?
  {
    s.(store := Insert(s.store, Seal(s.drivers[a].loc.next)), drivers := s.drivers[a := Off])
  }

  lemma CrashDoes(d: Definition, s: State, u: State, t: State, a: nat)
    requires At(s, a) && s.drivers[a].loc.Storing? && a in u.drivers
    requires u.drivers == s.drivers[a := u.drivers[a]] && u == s.(store := u.store, drivers := u.drivers)
    requires t == s.(store := u.store, drivers := s.drivers[a := Off])
    ensures Does(d, u, t, ACrash(a))
  {
    assert Crash(u, t, a);
  }

  /** Whenever a save could go through, its driver may crash before the commit instead. */
  lemma CrashBeforeCommit(d: Definition, states: seq<State>, actions: seq<Action>, a: nat) returns (longer: seq<State>)
    requires Validated(d) && IsRun(d, states, actions) && Uncontended(d, Last(states), a)
    ensures IsRun(d, longer, actions + [ACheck(a)] + [AStore(a)] + [ACrash(a)])
    ensures Last(longer) == Abandoned(Last(states), a)
  {
    hide Inv, NamesOk, Home, NothingFrom, Does, IsRun, Validated, Insert;
    RunStates(d, states, actions);
    RunKeepsInv(d, states, actions, |states| - 1);
    var s := Last(states);
    var driver := s.drivers[a];
    var next, after := driver.loc.next, driver.loc.after;
    var checked := s.(drivers := s.drivers[a := driver.(loc := Checked(next, after))]);
    var stored := s.(store := Insert(s.store, Seal(next)), drivers := s.drivers[a := driver.(loc := Stored(next, after))]);
    CheckDoes(d, s, checked, a);
    StoreDoes(d, s, checked, stored, a);
    CrashDoes(d, s, stored, Abandoned(s, a), a);
    Extends(d, states, actions, checked, ACheck(a));
    Extends(d, states + [checked], actions + [ACheck(a)], stored, AStore(a));
    longer := states + [checked] + [stored];
    Extends(d, longer, actions + [ACheck(a)] + [AStore(a)], Abandoned(s, a), ACrash(a));
    longer := longer + [Abandoned(s, a)];
  }

  // ---------------------------------------------------------------- one agent node

  const GRAPH := Graph({0}, {})
  const SINGLE := Definition(GRAPH, map[0 := AgentNode(true)], 0, 0)

  lemma SingleReady()
    ensures G.Ready(GRAPH, {}) == {0} && G.Ready(GRAPH, {0}) == {}
  {
    assert Preds(GRAPH, 0) == {};
  }

  lemma SingleOrder()
    ensures Greedy(GRAPH, {}) == [0]
  {
    SingleReady();
    hide G.Ready;
    assert {} + {0} == {0};
    assert Greedy(GRAPH, {0}) == [];
    assert Greedy(GRAPH, {}) == [0] + Greedy(GRAPH, {} + {0});
  }

  lemma SingleOpens()
    ensures Opens(SINGLE)
  {
    SingleOrder();
    hide Greedy, Acyclic;
    SortableIffAcyclic(GRAPH);
    assert Order.Elements([0]) == GRAPH.nodes;
  }

  const FIRST := FirstOf(SINGLE)
  const OPEN := RunAt(Running, 4, Some(REFS[0]))
  const ANSWER := AgentDone(0, 0, 0)
  const ORPHAN := AfterAgent(SINGLE, OPEN, FIRST, REFS[1], 0, ANSWER)

  lemma DoneFacts(run: Run, ref: CheckpointRef)
    requires run.attempt >= 1
    ensures var b := AfterAgent(SINGLE, run, FIRST, ref, 0, ANSWER);
            Constructible(b) && b.previous == Some(REFS[0]) && b.sequence == 2 && b.run == run.id && b.attempt == run.attempt
            && b.ref == ref
  {
    assert Completed(FIRST) == {};
  }

  /** The driver holds the first checkpoint at the given place. */
  function Picked(loc: Loc): State
  {
    Opened(SINGLE).(drivers := map[0 := Active(OPEN, Some(FIRST), loc)], log := [Dispatch(0, 1)])
  }

  function Answered(loc: Loc): State { Picked(loc).(names := {REFS[0], REFS[1]}) }

  const STORE2 := Insert(FirstStore(SINGLE), Seal(ORPHAN))

  function Crashed(): State { Answered(Opening).(store := STORE2, drivers := map[0 := Off]) }

  lemma HandsOutSingle()
    ensures Does(SINGLE, Opened(SINGLE), Picked(Working(0)), AHandOut(0))
  {
    SingleOpens();
    FirstFacts(SINGLE);
    SingleOrder();
    hide Greedy, Completed, AwaitsDecision, StableFailure;
  }

  lemma AnswersSingle()
    ensures Does(SINGLE, Picked(Working(0)), Answered(Storing(ORPHAN, Proceed)), AAnswer(0, ANSWER, REFS[1]))
  {
    DoneFacts(OPEN, REFS[1]);
    assert {REFS[0]} + {REFS[1]} == {REFS[0], REFS[1]};
    hide Constructible, AfterAgent, Insert;
  }

  const UNTIL := OPENING + [AHandOut(0)] + [AAnswer(0, ANSWER, REFS[1])]

  lemma AnsweredFromStart() returns (states: seq<State>)
    ensures IsRun(SINGLE, states, UNTIL) && Last(states) == Answered(Storing(ORPHAN, Proceed)) && NothingFrom(Last(states).store, 0, 2)
  {
    SingleOpens();
    states := OpenedFromStart(SINGLE);
    HandsOutSingle();
    AnswersSingle();
    assert Answered(Storing(ORPHAN, Proceed)).store == FirstStore(SINGLE);
    hide IsRun, Does, NothingFrom;
    Extends(SINGLE, states, OPENING, Picked(Working(0)), AHandOut(0));
    Extends(SINGLE, states + [Picked(Working(0))], OPENING + [AHandOut(0)], Answered(Storing(ORPHAN, Proceed)), AAnswer(0, ANSWER, REFS[1]));
    states := states + [Picked(Working(0))] + [Answered(Storing(ORPHAN, Proceed))];
  }

  lemma AnswerIsUncontended(s: State)
    requires s == Answered(Storing(ORPHAN, Proceed)) && NothingFrom(s.store, 0, 2)
    ensures Uncontended(SINGLE, s, 0)
  {
    hide NothingFrom, AfterAgent, Insert;
  }

  function LeavesOrphan(): seq<Action> { UNTIL + [ACheck(0)] + [AStore(0)] + [ACrash(0)] }

  lemma CrashedFromStart() returns (states: seq<State>)
    ensures IsRun(SINGLE, states, LeavesOrphan()) && Last(states) == Crashed()
  {
    states := AnsweredFromStart();
    SingleOpens();
    AnswerIsUncontended(Last(states));
    hide IsRun, Uncontended, NothingFrom, Validated, Insert, AfterAgent;
    states := CrashBeforeCommit(SINGLE, states, UNTIL, 0);
  }

  // ---------------------------------------------------------------- the second attempt

  /** The Run on its second attempt, opened by recovery. */
  function RecoveredAt(status: Status, version: nat): Run
  {
    OPEN.(status := status, version := version, attempt := 2,
          history := [AttemptRecord(1, 0, Some(0), Some(Interrupted), None, None),
                      AttemptRecord(2, 0, None, None, Some(REFS[0]), None)])
  }

  function Resumes(run: Run, loc: Loc): State { Crashed().(run := run, drivers := map[0 := Active(run, Some(FIRST), loc)]) }

  const BACK := RecoveredAt(Running, 6)
  const AGAIN := AfterAgent(SINGLE, BACK, FIRST, REFS[2], 0, ANSWER)

  function Repeats(loc: Loc): State { Resumes(BACK, loc).(log := [Dispatch(0, 1), Dispatch(0, 1)]) }

  function Redone(loc: Loc): State { Repeats(loc).(names := {REFS[0], REFS[1], REFS[2]}) }

  lemma RecoveryMakes()
    ensures Apply(OPEN, Recover(Some(REFS[0])), 4, 0) == Ok(RecoveredAt(Recovering, 5))
    ensures Apply(RecoveredAt(Recovering, 5), Advance(Running), 5, 0) == Ok(BACK)
  {
    assert OPEN.history[..0] == [];
    assert CloseAttempt(OPEN, 0, Interrupted, None) == [AttemptRecord(1, 0, Some(0), Some(Interrupted), None, None)];
  }

  lemma RecoveryReads()
    requires Marked(SINGLE, Crashed()) == Done(Seal(FIRST))
    ensures Does(SINGLE, Crashed(), Resumes(OPEN, Settling(Recover(Some(REFS[0])))), ARecover(0))
  {
    hide Marked, Insert, AfterAgent;
  }

  lemma RecoverySteps()
    ensures Does(SINGLE, Resumes(OPEN, Settling(Recover(Some(REFS[0])))), Resumes(RecoveredAt(Recovering, 5), Restoring), ASettle(0, 0))
    ensures Does(SINGLE, Resumes(RecoveredAt(Recovering, 5), Restoring),
                 Resumes(RecoveredAt(Recovering, 5), Settling(Advance(Running))), ARestored(0))
  {
    RecoveryMakes();
    hide Insert, Apply, AfterAgent, RecoveredAt;
  }

  lemma RecoveryAdvances()
    ensures Does(SINGLE, Resumes(RecoveredAt(Recovering, 5), Settling(Advance(Running))), Resumes(BACK, Workflow.Ready), ASettle(0, 0))
  {
    RecoveryMakes();
    hide Insert, Apply, AfterAgent;
  }

  lemma HandsOutAgain()
    ensures Does(SINGLE, Resumes(BACK, Workflow.Ready), Repeats(Working(0)), AHandOut(0))
  {
    SingleOpens();
    FirstFacts(SINGLE);
    SingleOrder();
    hide Greedy, Completed, AwaitsDecision, StableFailure, Insert, AfterAgent;
  }

  lemma AnswersAgain()
    ensures Does(SINGLE, Repeats(Working(0)), Redone(Storing(AGAIN, Proceed)), AAnswer(0, ANSWER, REFS[2]))
  {
    DoneFacts(BACK, REFS[2]);
    assert {REFS[0], REFS[1]} + {REFS[2]} == {REFS[0], REFS[1], REFS[2]};
    hide Constructible, AfterAgent, Insert;
  }

  function SecondAttempt(): seq<Action>
  {
    LeavesOrphan() + [ARecover(0)] + [ASettle(0, 0)] + [ARestored(0)] + [ASettle(0, 0)] + [AHandOut(0)] + [AAnswer(0, ANSWER, REFS[2])]
  }

  lemma RedoneFromStart() returns (states: seq<State>)
    ensures IsRun(SINGLE, states, SecondAttempt()) && Last(states) == Redone(Storing(AGAIN, Proceed))
  {
    states := CrashedFromStart();
    SingleOpens();
    var actions := LeavesOrphan();
    MarkedInRun(SINGLE, states, actions);
    RecoveryReads();
    RecoverySteps();
    RecoveryAdvances();
    HandsOutAgain();
    AnswersAgain();
    hide IsRun, Does, Resumes, Repeats, Redone, RecoveredAt, Crashed, LeavesOrphan, Opens;
    Extends(SINGLE, states, actions, Resumes(OPEN, Settling(Recover(Some(REFS[0])))), ARecover(0));
    states, actions := states + [Resumes(OPEN, Settling(Recover(Some(REFS[0]))))], actions + [ARecover(0)];
    Extends(SINGLE, states, actions, Resumes(RecoveredAt(Recovering, 5), Restoring), ASettle(0, 0));
    states, actions := states + [Resumes(RecoveredAt(Recovering, 5), Restoring)], actions + [ASettle(0, 0)];
    Extends(SINGLE, states, actions, Resumes(RecoveredAt(Recovering, 5), Settling(Advance(Running))), ARestored(0));
    states, actions := states + [Resumes(RecoveredAt(Recovering, 5), Settling(Advance(Running)))], actions + [ARestored(0)];
    Extends(SINGLE, states, actions, Resumes(BACK, Workflow.Ready), ASettle(0, 0));
    states, actions := states + [Resumes(BACK, Workflow.Ready)], actions + [ASettle(0, 0)];
    Extends(SINGLE, states, actions, Repeats(Working(0)), AHandOut(0));
    states, actions := states + [Repeats(Working(0))], actions + [AHandOut(0)];
    Extends(SINGLE, states, actions, Redone(Storing(AGAIN, Proceed)), AAnswer(0, ANSWER, REFS[2]));
    states := states + [Redone(Storing(AGAIN, Proceed))];
  }

  lemma RedoneFacts()
    ensures var s := Redone(Storing(AGAIN, Proceed));
            && At(s, 0) && s.drivers[0].loc == Storing(AGAIN, Proceed) && s.drivers[0].run == s.run == BACK
            && s.drivers[0].current == Some(FIRST) && s.commits == [FIRST]
            && Orphaned(SINGLE, s, REFS[1]) && AboveMarker(SINGLE, s.store, 2, REFS[1])
            && s.store.checkpoints[REFS[1]] == Seal(ORPHAN)
            && Home(s.commits, s.run, s.drivers[0].current)
  {
    DoneFacts(OPEN, REFS[1]);
    hide AfterAgent;
  }

  lemma StoppedFacts()
    ensures var s := Redone(Checked(AGAIN, Proceed));
            && s.run == BACK && s.log == [Dispatch(0, 1), Dispatch(0, 1)] && At(s, 0) && s.drivers[0].loc == Checked(AGAIN, Proceed)
            && s.store == Redone(Storing(AGAIN, Proceed)).store
            && Orphaned(SINGLE, s, REFS[1]) && s.store.checkpoints[REFS[1]] == Seal(ORPHAN) && ORPHAN.attempt == 1
  {
    RedoneFacts();
    DoneFacts(OPEN, REFS[1]);
    hide AfterAgent, Insert;
  }

  lemma OrphanIsThere(store: Store)
    requires AboveMarker(SINGLE, store, 2, REFS[1])
    ensures !NothingFrom(store, 0, 2)
  {
  }

  lemma AgainIsSecond()
    ensures AGAIN.sequence == 2 && SINGLE.run == 0
  {
    DoneFacts(BACK, REFS[2]);
  }

  lemma OrphanRefuses(s: State)
    requires Inv(SINGLE, s) && NamesOk(s) && At(s, 0) && s.drivers[0].loc == Storing(AGAIN, Proceed)
    requires Home(s.commits, s.drivers[0].run, s.drivers[0].current) && AboveMarker(SINGLE, s.store, 2, REFS[1])
    ensures Save(s.store, Seal(AGAIN)).SaveRefused?
  {
    AgainIsSecond();
    hide *;
    OrphanIsThere(s.store);
    StoredExactly(SINGLE, s, 0);
  }

  lemma ChecksAgain(s: State)
    requires s == Redone(Storing(AGAIN, Proceed)) && Inv(SINGLE, s)
    ensures Does(SINGLE, s, Redone(Checked(AGAIN, Proceed)), ACheck(0))
  {
    RedoneFacts();
    hide Inv, AfterAgent, Orphaned, Insert, PassesChecks, Home;
    SaveBeginsExactly(SINGLE, s, 0);
  }

  /** A driver crashes between store and commit, and the Run is recovered: the second attempt does
      the same node again, passes its checks, and is refused the store. */
  lemma OrphanStops() returns (states: seq<State>)
    ensures IsRun(SINGLE, states, SecondAttempt() + [ACheck(0)])
    ensures var s := Last(states);
            && s.run.status.Running? && s.run.attempt == 2 && s.log == [Dispatch(0, 1), Dispatch(0, 1)]
            && At(s, 0) && s.drivers[0].loc == Checked(AGAIN, Proceed)
            && Orphaned(SINGLE, s, REFS[1]) && s.store.checkpoints[REFS[1]].body.attempt == 1
            && Save(s.store, Seal(AGAIN)).SaveRefused?
  {
    states := RedoneFromStart();
    SingleOpens();
    StoppedFacts();
    var actions := SecondAttempt();
    hide IsRun, Does, Validated, SecondAttempt, Orphaned, Redone;
    RunStates(SINGLE, states, actions);
    RunKeepsInv(SINGLE, states, actions, |states| - 1);
    hide Inv, NamesOk, Save;
    RedoneFacts();
    hide Home, AboveMarker;
    ChecksAgain(Last(states));
    OrphanRefuses(Last(states));
    Extends(SINGLE, states, actions, Redone(Checked(AGAIN, Proceed)), ACheck(0));
    states := states + [Redone(Checked(AGAIN, Proceed))];
  }

  // ---------------------------------------------------------------- a start that is lost

  /** For every definition: the Run is started, its first checkpoint is stored, and the driver crashes
      before the commit. The Run is RUNNING, and LostForGood applies. */
  lemma StartIsLost(d: Definition) returns (states: seq<State>)
    requires Opens(d)
    ensures IsRun(d, states, STARTS + [ALaunch(0, REFS[0])] + [ACheck(0)] + [AStore(0)] + [ACrash(0)])
    ensures var s := Last(states); Lost(s) && s.run.status.Running? && REFS[0] in s.store.checkpoints
  {
    states := LaunchedFromStart(d);
    FirstIsSaved(d);
    hide IsRun, Uncontended, Validated;
    states := CrashBeforeCommit(d, states, STARTS + [ALaunch(0, REFS[0])], 0);
  }
}
