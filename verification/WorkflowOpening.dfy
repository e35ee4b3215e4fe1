/** How every execution opens: the Run is created, started by one execute call, and gets its first
    checkpoint from that call. Concrete executions of this kind, for any validated definition. */
module WorkflowOpening {
  import opened Wrappers
  import opened Graph
  import opened RunMachine
  import opened Checkpoints
  import opened CheckpointStore
  import opened Coordinator
  import opened Workflow
  import opened WorkflowContent
  import opened WorkflowInvariant
  import opened WorkflowSteps
  import opened WorkflowLimits
  import opened WorkflowProgress

  const REFS := [CheckpointRef(0), CheckpointRef(1), CheckpointRef(2), CheckpointRef(3), CheckpointRef(4)]
  const NONE: Store := Store(map[], map[])

  /** A definition for Run 0. */
  ghost predicate Opens(d: Definition) { Validated(d) && d.run == 0 && d.scope == 0 }

  /** The Run on its first attempt. */
  function RunAt(status: Status, version: nat, marker: Option<CheckpointRef>): Run
  {
    Run(0, Kind.Workflow, 0, 0, status, 1, version, Some(0), Some(0), None, None, None,
        [AttemptRecord(1, 0, None, None, None, None)], marker)
  }

  // ---------------------------------------------------------------- the start

  function Holding(run: Run, driver: Driver): State { State(NONE, run, [], map[0 := driver], [], {}) }

  function Fresh(run: Run, loc: Loc): State { Holding(run, Active(run, None, loc)) }

  const STARTS := [ABegin(0), AStart(0, 0), AStart(0, 0), AStart(0, 0)]

  function StartedStates(): seq<State>
  {
    var run := NewRun(0, Kind.Workflow, 0, 0, 0);
    [ Holding(run, Off), Fresh(run, Launching(Start)),
      Fresh(RunAt(Starting, 1, None), Launching(Advance(ContextLoading))),
      Fresh(RunAt(ContextLoading, 2, None), Launching(Advance(Running))), Fresh(RunAt(Running, 3, None), Opening) ]
  }

  lemma StartMakes()
    ensures Apply(NewRun(0, Kind.Workflow, 0, 0, 0), Start, 0, 0) == Ok(RunAt(Starting, 1, None))
    ensures Apply(RunAt(Starting, 1, None), Advance(ContextLoading), 1, 0) == Ok(RunAt(ContextLoading, 2, None))
    ensures Apply(RunAt(ContextLoading, 2, None), Advance(Running), 2, 0) == Ok(RunAt(Running, 3, None))
  {
    assert OpenAttempt(NewRun(0, Kind.Workflow, 0, 0, 0), 0) == [AttemptRecord(1, 0, None, None, None, None)];
  }

  lemma StartDoes(d: Definition, run: Run, op: Op, next: Run)
    requires Apply(run, op, run.version, 0) == Ok(next)
    ensures Does(d, Fresh(run, Launching(op)), Fresh(next, AfterStart(op)), AStart(0, 0))
  {
    var s, t := Fresh(run, Launching(op)), Fresh(next, AfterStart(op));
    assert t.drivers == s.drivers[0 := t.drivers[0]];
    hide Apply, AfterStart;
    assert StartPhase(s, t, 0, 0);
  }

  lemma StartsRun(d: Definition) returns (states: seq<State>)
    requires Opens(d)
    ensures IsRun(d, states, STARTS) && Last(states) == Fresh(RunAt(Running, 3, None), Opening)
  {
    states := StartedStates();
    assert Does(d, states[0], states[1], STARTS[0]);
    StartMakes();
    hide Does, Apply;
    StartDoes(d, NewRun(0, Kind.Workflow, 0, 0, 0), Start, RunAt(Starting, 1, None));
    StartDoes(d, RunAt(Starting, 1, None), Advance(ContextLoading), RunAt(ContextLoading, 2, None));
    StartDoes(d, RunAt(ContextLoading, 2, None), Advance(Running), RunAt(Running, 3, None));
  }

  // ---------------------------------------------------------------- the first checkpoint

  function FirstOf(d: Definition): Body { First(d, RunAt(Running, 3, None), REFS[0]) }

  lemma FirstFacts(d: Definition)
    requires Opens(d)
    ensures var b := FirstOf(d);
            Constructible(b) && Completed(b) == {} && !AwaitsDecision(b) && !StableFailure(d, b)
  {
  }

  const SAVES := [ACheck(0), AStore(0), ACommit(0, 0)]

  function Launched(d: Definition): State
  {
    Fresh(RunAt(Running, 3, None), Storing(FirstOf(d), Proceed)).(names := {REFS[0]})
  }

  lemma LaunchedFromStart(d: Definition) returns (states: seq<State>)
    requires Opens(d)
    ensures IsRun(d, states, STARTS + [ALaunch(0, REFS[0])]) && Last(states) == Launched(d)
  {
    states := StartsRun(d);
    FirstFacts(d);
    assert {} + {REFS[0]} == {REFS[0]};
    hide IsRun, Constructible;
    assert Does(d, Last(states), Launched(d), ALaunch(0, REFS[0]));
    hide Does;
    Extends(d, states, STARTS, Launched(d), ALaunch(0, REFS[0]));
    states := states + [Launched(d)];
  }

  function FirstStore(d: Definition): Store { Insert(NONE, Seal(FirstOf(d))) }

  /** The first checkpoint is committed, and the driver goes on. */
  function Opened(d: Definition): State
  {
    var run := RunAt(Running, 4, Some(REFS[0]));
    State(FirstStore(d), run, [FirstOf(d)], map[0 := Active(run, Some(FirstOf(d)), Workflow.Ready)], [], {REFS[0]})
  }

  const OPENING := STARTS + [ALaunch(0, REFS[0])] + SAVES

  lemma FirstIsSaved(d: Definition)
    requires Opens(d)
    ensures Uncontended(d, Launched(d), 0) && AfterSave(Launched(d), 0, 0) == Opened(d)
  {
  }

  lemma OpenedFromStart(d: Definition) returns (states: seq<State>)
    requires Opens(d)
    ensures IsRun(d, states, OPENING) && Last(states) == Opened(d) && NothingFrom(FirstStore(d), 0, 2)
  {
    states := LaunchedFromStart(d);
    FirstIsSaved(d);
    hide IsRun, Uncontended, Validated, AfterSave, NothingFrom;
    states := UncontendedSaveCommits(d, states, STARTS + [ALaunch(0, REFS[0])], 0, 0);
  }

  /** The gateway loads the last committed checkpoint in any state of a run. */
  lemma MarkedInRun(d: Definition, states: seq<State>, actions: seq<Action>)
    requires Opens(d) && IsRun(d, states, actions) && Last(states).commits != []
    ensures var s := Last(states); Marked(d, s) == Done(Seal(s.commits[|s.commits| - 1]))
  {
    RunKeepsInv(d, states, actions, |states| - 1);
    hide IsRun, Validated;
    LastIsLoaded(d, Last(states));
    RunFacts(d, Last(states));
  }
}
