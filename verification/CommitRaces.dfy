/** Runs of the commit protocol that go wrong, one for each way an assumption can be missed. */
module CommitRaces {
  import opened Wrappers
  import opened RunMachine
  import opened Checkpoints
  import opened CheckpointStore
  import opened Coordinator
  import opened CommitProtocol
  import opened CommitSafety
  import opened CommitIntegrity

  const REF := CheckpointRef(0)
  const EMPTY := Store(map[], map[])

  function FirstOf(run: RunId): Checkpoint { Seal(Body(REF, run, 0, 0, 0, 1, 1, None, map[], {}, map[], map[])) }

  function Fresh(run: RunId): Run { NewRun(run, Workflow, 0, 0, 0) }

  function Committed(run: RunId): Run { Bump(Fresh(run), 0).(marker := Some(REF)) }

  function Holding(run: RunId): Store { Store(map[REF := FirstOf(run)], map[Key(run, 1) := REF]) }

  const WALK := Walking(0, 0, REF, {}, None)

  lemma FirstSave(run: RunId)
    ensures Save(EMPTY, FirstOf(run)) == Saved(Holding(run))
  {
    TopUnique(map[], run, 0);
  }

  lemma FirstCommit(run: RunId)
    ensures Apply(Fresh(run), CommitOp(Fresh(run), FirstOf(run), false), 0, 0) == Ok(Committed(run))
  {
  }

  // ---------------------------------------------------------------- two deletions in flight

  /** One client saves and commits a first checkpoint; another deletes it, having read the marker
      before it was set. */
  function Opening(): seq<State>
  {
    var runs, links := map[0 := Fresh(0)], map[REF := FirstOf(0)];
    [ State(EMPTY, map[], map[0 := Idle, 1 := Idle], map[]),
      State(EMPTY, runs, map[0 := Idle, 1 := Idle], map[]),
      State(EMPTY, runs, map[0 := Saving(Fresh(0), FirstOf(0)), 1 := Idle], map[]),
      State(EMPTY, runs, map[0 := Linked(Fresh(0), FirstOf(0), false), 1 := Idle], map[]),
      State(Holding(0), runs, map[0 := Committing(Fresh(0), FirstOf(0), false), 1 := Idle], links),
      State(Holding(0), runs, map[0 := Committing(Fresh(0), FirstOf(0), false), 1 := WALK], links) ]
  }

  function OpeningActions(): seq<Action>
  {
    [ACreate(Fresh(0)), ASaveBegin(0, FirstOf(0)), ASaveLink(0), AStore(0), ADeleteBegin(1, 0, 0, REF)]
  }

  /** The deletion finishes first. */
  function DeletedFirst(): seq<State>
  {
    var links := map[REF := FirstOf(0)];
    Opening() + [ State(EMPTY, map[0 := Fresh(0)], map[0 := Committing(Fresh(0), FirstOf(0), false), 1 := Idle], links),
                  State(EMPTY, map[0 := Committed(0)], map[0 := Idle, 1 := Idle], links) ]
  }

  /** The commit comes first: its checkpoint is stored, and the deletion finishes afterwards. */
  function CommittedFirst(): seq<State>
  {
    var links := map[REF := FirstOf(0)];
    Opening() + [ State(Holding(0), map[0 := Committed(0)], map[0 := Idle, 1 := WALK], links),
                  State(EMPTY, map[0 := Committed(0)], map[0 := Idle, 1 := Idle], links) ]
  }

  lemma OpeningBegins()
    ensures forall i :: 0 <= i < 3 ==> Does(Opening()[i], Opening()[i + 1], OpeningActions()[i])
  {
    hide Save, Apply;
    assert Does(Opening()[0], Opening()[1], OpeningActions()[0]);
    assert Does(Opening()[1], Opening()[2], OpeningActions()[1]);
    assert Does(Opening()[2], Opening()[3], OpeningActions()[2]);
  }

  lemma OpeningStores()
    ensures forall i :: 3 <= i < 5 ==> Does(Opening()[i], Opening()[i + 1], OpeningActions()[i])
  {
    FirstSave(0);
    hide Save, Apply;
    assert Does(Opening()[3], Opening()[4], OpeningActions()[3]);
    assert Does(Opening()[4], Opening()[5], OpeningActions()[4]);
  }

  lemma DeletedFirstEnds()
    ensures Does(DeletedFirst()[5], DeletedFirst()[6], ADeleteFinish(1))
    ensures Does(DeletedFirst()[6], DeletedFirst()[7], ACommit(0, 0))
  {
    FirstCommit(0);
    hide Apply;
  }

  lemma CommittedFirstEnds()
    ensures Does(CommittedFirst()[5], CommittedFirst()[6], ACommit(0, 0))
    ensures Does(CommittedFirst()[6], CommittedFirst()[7], ADeleteFinish(1))
  {
    FirstCommit(0);
    hide Apply;
  }

  lemma OpeningPlaces()
    ensures PlacesKept(Opening()[3], AStore(0)) && Init(Opening()[0])
  {
  }

  /** A run of the opening followed by two more steps. */
  lemma OpeningThen(states: seq<State>, x: Action, y: Action)
    requires |states| == 8 && states[..6] == Opening()
    requires Does(states[5], states[6], x) && Does(states[6], states[7], y) && !x.AStore? && !y.AStore?
    ensures IsRun(states, OpeningActions() + [x, y]) && AllPlacesKept(states, OpeningActions() + [x, y])
  {
    OpeningBegins();
    OpeningStores();
    OpeningPlaces();
    hide Does;
    var actions := OpeningActions() + [x, y];
    forall i | 0 <= i < |actions| ensures Does(states[i], states[i + 1], actions[i]) {
      if i < 5 { assert states[i] == Opening()[i] && states[i + 1] == Opening()[i + 1] && actions[i] == OpeningActions()[i]; }
    }
    assert states[0] == Opening()[0];
  }

  lemma Dangles(s: State, id: RunId)
    requires id in s.runs && s.runs[id].marker == Some(REF) && s.store == EMPTY
    ensures !EveryMarkerWhole(s)
  {
    assert !MarkerWhole(s, id);
  }

  /** Deleting between store and commit: the commit finds its checkpoint gone. */
  lemma DeletedBeforeCommit()
    ensures IsRun(DeletedFirst(), OpeningActions() + [ADeleteFinish(1), ACommit(0, 0)])
    ensures AllPlacesKept(DeletedFirst(), OpeningActions() + [ADeleteFinish(1), ACommit(0, 0)])
    ensures !Safe(DeletedFirst()[6], ACommit(0, 0)) && !EveryMarkerWhole(DeletedFirst()[7])
  {
    DeletedFirstEnds();
    OpeningThen(DeletedFirst(), ADeleteFinish(1), ACommit(0, 0));
    Dangles(DeletedFirst()[7], 0);
    FirstCommit(0);
    hide Does, IsRun, EveryMarkerWhole, Apply, AllPlacesKept;
  }

  lemma WholeAfterCommit()
    ensures EveryMarkerWhole(CommittedFirst()[6])
  {
    var s := CommittedFirst()[6];
    assert WholeChain(s.store, 0, 0, REF, [REF]);
  }

  /** Deleting across the commit: the commit is safe, and the deletion, whose walk began before it,
      then hits the committed chain. */
  lemma DeletedAfterCommit()
    ensures IsRun(CommittedFirst(), OpeningActions() + [ACommit(0, 0), ADeleteFinish(1)])
    ensures AllPlacesKept(CommittedFirst(), OpeningActions() + [ACommit(0, 0), ADeleteFinish(1)])
    ensures Safe(CommittedFirst()[5], ACommit(0, 0)) && EveryMarkerWhole(CommittedFirst()[6])
    ensures !Safe(CommittedFirst()[6], ADeleteFinish(1)) && !EveryMarkerWhole(CommittedFirst()[7])
  {
    CommittedFirstEnds();
    OpeningThen(CommittedFirst(), ACommit(0, 0), ADeleteFinish(1));
    WholeAfterCommit();
    Dangles(CommittedFirst()[7], 0);
    hide Does, IsRun, EveryMarkerWhole, Apply, AllPlacesKept;
  }

  // ---------------------------------------------------------------- a reference used twice

  function Both(): map<RunId, Run> { map[0 := Fresh(0), 1 := Fresh(1)] }

  /** The deleted reference of one Run is used again for another Run while its save is in flight. */
  function Reused(): seq<State>
  {
    var links, mine := map[REF := FirstOf(0)], Committing(Fresh(0), FirstOf(0), false);
    [ State(EMPTY, map[], map[0 := Idle, 1 := Idle, 2 := Idle], map[]),
      State(EMPTY, map[0 := Fresh(0)], map[0 := Idle, 1 := Idle, 2 := Idle], map[]),
      State(EMPTY, Both(), map[0 := Idle, 1 := Idle, 2 := Idle], map[]),
      State(EMPTY, Both(), map[0 := Saving(Fresh(0), FirstOf(0)), 1 := Idle, 2 := Idle], map[]),
      State(EMPTY, Both(), map[0 := Linked(Fresh(0), FirstOf(0), false), 1 := Idle, 2 := Idle], map[]),
      State(Holding(0), Both(), map[0 := mine, 1 := Idle, 2 := Idle], links),
      State(Holding(0), Both(), map[0 := mine, 1 := WALK, 2 := Idle], links),
      State(EMPTY, Both(), map[0 := mine, 1 := Idle, 2 := Idle], links),
      State(EMPTY, Both(), map[0 := mine, 1 := Idle, 2 := Saving(Fresh(1), FirstOf(1))], links),
      State(EMPTY, Both(), map[0 := mine, 1 := Idle, 2 := Linked(Fresh(1), FirstOf(1), false)], links),
      State(Holding(1), Both(), map[0 := mine, 1 := Idle, 2 := Committing(Fresh(1), FirstOf(1), false)], links),
      State(Holding(1), map[0 := Committed(0), 1 := Fresh(1)], map[0 := Idle, 1 := Idle, 2 := Committing(Fresh(1), FirstOf(1), false)], links) ]
  }

  function ReusedActions(): seq<Action>
  {
    [ ACreate(Fresh(0)), ACreate(Fresh(1)), ASaveBegin(0, FirstOf(0)), ASaveLink(0), AStore(0), ADeleteBegin(1, 0, 0, REF),
      ADeleteFinish(1), ASaveBegin(2, FirstOf(1)), ASaveLink(2), AStore(2), ACommit(0, 0) ]
  }

  lemma ReusedBegins()
    ensures Does(Reused()[0], Reused()[1], ReusedActions()[0]) && Does(Reused()[1], Reused()[2], ReusedActions()[1])
  {
    hide Save, Apply;
  }

  lemma ReusedSteps0()
    ensures forall i :: 0 <= i < 4 ==> Does(Reused()[i], Reused()[i + 1], ReusedActions()[i])
  {
    ReusedBegins();
    ReusedSaves();
    hide *;
  }

  lemma ReusedSaves()
    ensures Does(Reused()[2], Reused()[3], ReusedActions()[2]) && Does(Reused()[3], Reused()[4], ReusedActions()[3])
  {
    hide Save, Apply;
  }

  lemma ReusedSteps4()
    ensures forall i :: 4 <= i < 7 ==> Does(Reused()[i], Reused()[i + 1], ReusedActions()[i])
  {
    ReusedStores();
    ReusedDeletes();
    hide *;
  }

  lemma ReusedDeletes()
    ensures Does(Reused()[5], Reused()[6], ReusedActions()[5]) && Does(Reused()[6], Reused()[7], ReusedActions()[6])
  {
    hide Save, Apply;
  }

  lemma ReusedStores()
    ensures Does(Reused()[4], Reused()[5], ReusedActions()[4])
  {
    FirstSave(0);
    hide Save, Apply;
  }

  lemma ReusedSteps7()
    ensures forall i :: 7 <= i < 9 ==> Does(Reused()[i], Reused()[i + 1], ReusedActions()[i])
  {
    hide Save, Apply;
    assert Does(Reused()[7], Reused()[8], ReusedActions()[7]);
    assert Does(Reused()[8], Reused()[9], ReusedActions()[8]);
  }

  lemma ReusedSteps9()
    ensures forall i :: 9 <= i < 11 ==> Does(Reused()[i], Reused()[i + 1], ReusedActions()[i])
  {
    ReusedStoresAgain();
    ReusedCommits();
    hide *;
  }

  lemma ReusedStoresAgain()
    ensures Does(Reused()[9], Reused()[10], ReusedActions()[9])
  {
    FirstSave(1);
    hide Save, Apply;
  }

  lemma ReusedCommits()
    ensures Does(Reused()[10], Reused()[11], ReusedActions()[10])
  {
    FirstCommit(0);
    hide Save, Apply;
  }

  lemma ReusedIsSafe()
    ensures forall i :: 0 <= i < 11 ==> Safe(Reused()[i], ReusedActions()[i])
  {
    hide Apply;
    forall i | 0 <= i < 11 ensures Safe(Reused()[i], ReusedActions()[i]) {
      if i == 6 { assert Spared(Reused()[6], REF); }
    }
  }

  /** Every step is safe, only the reference is reused: the marker then names another Run's checkpoint. */
  lemma ReuseBreaksMarker()
    ensures IsRun(Reused(), ReusedActions()) && forall i :: 0 <= i < 11 ==> Safe(Reused()[i], ReusedActions()[i])
    ensures !PlacesKept(Reused()[9], ReusedActions()[9]) && !EveryMarkerWhole(Reused()[11])
  {
    ReusedSteps0();
    ReusedSteps4();
    ReusedSteps7();
    ReusedSteps9();
    ReusedIsSafe();
    hide Does, Safe;
    var s := Reused()[11];
    assert s.store.checkpoints[REF].body.run == 1;
    assert !MarkerWhole(s, 0);
  }

  // ---------------------------------------------------------------- a fallback below a migration

  function Last(states: seq<State>): State
    requires states != []
  {
    states[|states| - 1]
  }

  lemma Step(states: seq<State>, actions: seq<Action>, t: State, action: Action) returns (longer: seq<State>, more: seq<Action>)
    requires states != [] && IsRun(states, actions) && Does(Last(states), t, action)
    ensures IsRun(longer, more) && longer != [] && Last(longer) == t
  {
    hide Does, Init;
    longer, more := states + [t], actions + [action];
    forall i | 0 <= i < |more| ensures Does(longer[i], longer[i + 1], more[i]) {
      if i < |actions| { assert Does(states[i], states[i + 1], actions[i]); }
    }
  }

  const NEXT := CheckpointRef(1)
  const FIRST := map[REF := FirstOf(0)]
  const LINKS := map[REF := FirstOf(0), NEXT := MIGRATED]

  /** What the migrator answers for the first checkpoint: definition 1, graph version 1. */
  const MIGRATED := Seal(Body(NEXT, 0, 0, 1, 1, 2, 1, Some(REF), map[], {}, map[], map[]))

  /** The same after its stored content decayed. */
  const DECAYED := Checkpoint(MIGRATED.body, Sha256(FirstOf(0).body))

  const STARTED := Apply(Fresh(0), Start, 0, 0).run
  const MARKED := Bump(STARTED, 0).(marker := Some(REF))
  const MOVED := Bump(MARKED, 0).(definition := 1, graphVersion := 1, marker := Some(NEXT))
  const FALLEN := Bump(MOVED, 0).(marker := Some(REF))

  function Stored(c: Checkpoint): Store { Store(map[REF := FirstOf(0), NEXT := c], map[Key(0, 1) := REF, Key(0, 2) := NEXT]) }

  function Alone(store: Store, run: Run, client: Client, links: map<CheckpointRef, Checkpoint>): State
  {
    State(store, map[0 := run], map[0 := client], links)
  }

  lemma StartedIs()
    ensures Apply(Fresh(0), Start, 0, 0) == Ok(STARTED) && STARTED.status.Starting? && STARTED.version == 1
    ensures STARTED.id == 0 && STARTED.kind.Workflow? && STARTED.marker.None? && STARTED.definition == 0 && STARTED.graphVersion == 0
    ensures STARTED.attempt == 1
  {
  }

  lemma MarkersMove()
    ensures Apply(STARTED, CommitOp(STARTED, FirstOf(0), false), 1, 0) == Ok(MARKED)
    ensures Apply(MARKED, CommitOp(MARKED, MIGRATED, true), 2, 0) == Ok(MOVED)
    ensures Apply(MOVED, CommitCheckpoint(REF, Some(NEXT), None, None), 3, 0) == Ok(FALLEN)
  {
    StartedIs();
    hide STARTED;
  }

  lemma MigratedSave()
    ensures Save(Holding(0), MIGRATED) == Saved(Stored(MIGRATED))
  {
    TopUnique(Holding(0).sequences, 0, 1);
    assert Insert(Holding(0), MIGRATED) == Stored(MIGRATED);
  }

  lemma FirstSteps()
    ensures var runs := map[0 := Fresh(0)];
            && Does(State(EMPTY, map[], map[0 := Idle], map[]), State(EMPTY, runs, map[0 := Idle], map[]), ACreate(Fresh(0)))
            && Does(State(EMPTY, runs, map[0 := Idle], map[]), Alone(EMPTY, STARTED, Idle, map[]), AMutate(0, Start, 0, 0))
  {
    StartedIs();
    hide Apply, STARTED;
  }

  lemma SavingSteps()
    ensures Does(Alone(EMPTY, STARTED, Idle, map[]), Alone(EMPTY, STARTED, Saving(STARTED, FirstOf(0)), map[]), ASaveBegin(0, FirstOf(0)))
    ensures Does(Alone(EMPTY, STARTED, Saving(STARTED, FirstOf(0)), map[]), Alone(EMPTY, STARTED, Linked(STARTED, FirstOf(0), false), map[]),
                 ASaveLink(0))
  {
    StartedIs();
    hide Apply, STARTED, Save;
  }

  lemma FirstCommitSteps()
    ensures Does(Alone(EMPTY, STARTED, Linked(STARTED, FirstOf(0), false), map[]),
                 Alone(Holding(0), STARTED, Committing(STARTED, FirstOf(0), false), FIRST), AStore(0))
    ensures Does(Alone(Holding(0), STARTED, Committing(STARTED, FirstOf(0), false), FIRST), Alone(Holding(0), MARKED, Idle, FIRST), ACommit(0, 0))
  {
    StartedIs();
    MarkersMove();
    FirstSave(0);
    hide Apply, STARTED, Save;
  }

  lemma LoadingSteps()
    ensures Does(Alone(Holding(0), MARKED, Idle, FIRST), Alone(Holding(0), MARKED, Reading(MARKED), FIRST), ARecoverRead(0, 0))
    ensures Does(Alone(Holding(0), MARKED, Reading(MARKED), FIRST), Alone(Holding(0), MARKED, Restoring(MARKED, FirstOf(0)), FIRST),
                 ARecoverLoad(0, 0))
  {
    StartedIs();
    hide Apply, STARTED, Save;
  }

  lemma MigratingStep()
    ensures Does(Alone(Holding(0), MARKED, Restoring(MARKED, FirstOf(0)), FIRST), Alone(Holding(0), MARKED, Linked(MARKED, MIGRATED, true), FIRST),
                 AMigrate(0, MIGRATED))
  {
    StartedIs();
    hide Apply, STARTED, Save;
  }

  lemma MigrationSteps()
    ensures Does(Alone(Holding(0), MARKED, Linked(MARKED, MIGRATED, true), FIRST),
                 Alone(Stored(MIGRATED), MARKED, Committing(MARKED, MIGRATED, true), LINKS), AStore(0))
    ensures Does(Alone(Stored(MIGRATED), MARKED, Committing(MARKED, MIGRATED, true), LINKS), Alone(Stored(MIGRATED), MOVED, Idle, LINKS),
                 ACommit(0, 0))
  {
    StartedIs();
    MarkersMove();
    MigratedSave();
    hide Apply, STARTED, Save;
  }

  lemma DecaySteps()
    ensures Does(Alone(Stored(MIGRATED), MOVED, Idle, LINKS), Alone(Stored(DECAYED), MOVED, Idle, LINKS), ACorrupt(NEXT, DECAYED))
    ensures Does(Alone(Stored(DECAYED), MOVED, Idle, LINKS), Alone(Stored(DECAYED), MOVED, Reading(MOVED), LINKS), ARecoverRead(0, 0))
  {
    StartedIs();
    hide Apply, STARTED, Save;
  }

  lemma FallbackSteps()
    ensures var all := map[REF := FirstOf(0), NEXT := DECAYED];
            Does(Alone(Stored(DECAYED), MOVED, Reading(MOVED), LINKS), Alone(Stored(DECAYED), MOVED, FallingBack(MOVED, FirstOf(0)), LINKS),
                 AFallbackPick(0, all))
    ensures Does(Alone(Stored(DECAYED), MOVED, FallingBack(MOVED, FirstOf(0)), LINKS),
                 Alone(Stored(DECAYED), FALLEN, Restoring(FALLEN, FirstOf(0)), LINKS), AFallbackCommit(0, 0))
  {
    StartedIs();
    MarkersMove();
    hide Apply, STARTED, Save;
  }

  /** The first checkpoint is saved and committed. */
  lemma FirstIsCommitted() returns (states: seq<State>, actions: seq<Action>)
    ensures IsRun(states, actions) && states != [] && Last(states) == Alone(Holding(0), MARKED, Idle, FIRST)
  {
    states, actions := [State(EMPTY, map[], map[0 := Idle], map[])], [];
    assert IsRun(states, actions);
    FirstSteps();
    SavingSteps();
    FirstCommitSteps();
    hide *;
    states, actions := Step(states, actions, State(EMPTY, map[0 := Fresh(0)], map[0 := Idle], map[]), ACreate(Fresh(0)));
    states, actions := Step(states, actions, Alone(EMPTY, STARTED, Idle, map[]), AMutate(0, Start, 0, 0));
    states, actions := Step(states, actions, Alone(EMPTY, STARTED, Saving(STARTED, FirstOf(0)), map[]), ASaveBegin(0, FirstOf(0)));
    states, actions := Step(states, actions, Alone(EMPTY, STARTED, Linked(STARTED, FirstOf(0), false), map[]), ASaveLink(0));
    states, actions := Step(states, actions, Alone(Holding(0), STARTED, Committing(STARTED, FirstOf(0), false), FIRST), AStore(0));
    states, actions := Step(states, actions, Alone(Holding(0), MARKED, Idle, FIRST), ACommit(0, 0));
  }

  /** A recovery migrates it. */
  lemma SecondIsCommitted() returns (states: seq<State>, actions: seq<Action>)
    ensures IsRun(states, actions) && states != [] && Last(states) == Alone(Stored(MIGRATED), MOVED, Idle, LINKS)
  {
    hide *;
    states, actions := FirstIsCommitted();
    LoadingSteps();
    MigratingStep();
    MigrationSteps();
    states, actions := Step(states, actions, Alone(Holding(0), MARKED, Reading(MARKED), FIRST), ARecoverRead(0, 0));
    states, actions := Step(states, actions, Alone(Holding(0), MARKED, Restoring(MARKED, FirstOf(0)), FIRST), ARecoverLoad(0, 0));
    states, actions := Step(states, actions, Alone(Holding(0), MARKED, Linked(MARKED, MIGRATED, true), FIRST), AMigrate(0, MIGRATED));
    states, actions := Step(states, actions, Alone(Stored(MIGRATED), MARKED, Committing(MARKED, MIGRATED, true), LINKS), AStore(0));
    states, actions := Step(states, actions, Alone(Stored(MIGRATED), MOVED, Idle, LINKS), ACommit(0, 0));
  }

  /** The Run is on definition 1, and its marker names an intact checkpoint of definition 0. */
  ghost predicate Disagrees(s: State)
  {
    && 0 in s.runs && s.runs[0].definition == 1 && s.runs[0].marker == Some(REF)
    && REF in s.store.checkpoints && Intact(s.store.checkpoints[REF]) && s.store.checkpoints[REF].body.definition == 0
  }

  lemma FallenDisagrees()
    ensures Disagrees(Alone(Stored(DECAYED), FALLEN, Restoring(FALLEN, FirstOf(0)), LINKS))
  {
    hide STARTED;
  }

  /** A fallback below a migration leaves the Run on the migrated definition. */
  lemma FallbackCrossesMigration() returns (states: seq<State>, actions: seq<Action>)
    ensures IsRun(states, actions) && states != [] && Disagrees(Last(states))
  {
    hide *;
    states, actions := SecondIsCommitted();
    DecaySteps();
    FallbackSteps();
    FallenDisagrees();
    states, actions := Step(states, actions, Alone(Stored(DECAYED), MOVED, Idle, LINKS), ACorrupt(NEXT, DECAYED));
    states, actions := Step(states, actions, Alone(Stored(DECAYED), MOVED, Reading(MOVED), LINKS), ARecoverRead(0, 0));
    states, actions := Step(states, actions, Alone(Stored(DECAYED), MOVED, FallingBack(MOVED, FirstOf(0)), LINKS),
                            AFallbackPick(0, map[REF := FirstOf(0), NEXT := DECAYED]));
    states, actions := Step(states, actions, Alone(Stored(DECAYED), FALLEN, Restoring(FALLEN, FirstOf(0)), LINKS), AFallbackCommit(0, 0));
  }
}
