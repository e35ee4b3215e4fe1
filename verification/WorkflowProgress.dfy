/** A save that nobody contends for goes through in three steps. */
module WorkflowProgress {
  import opened Wrappers
  import opened Graph
  import opened RunMachine
  import opened Checkpoints
  import opened CheckpointStore
  import opened Coordinator
  import opened Workflow
  import opened WorkflowContent
  import opened WorkflowInvariant
  import opened WorkflowSteps
  import opened WorkflowLimits

  function Last(states: seq<State>): State
    requires states != []
  {
    states[|states| - 1]
  }

  /** A run may go on with any step from its last state. */
  lemma Extends(d: Definition, states: seq<State>, actions: seq<Action>, t: State, action: Action)
    requires IsRun(d, states, actions) && Does(d, Last(states), t, action)
    ensures IsRun(d, states + [t], actions + [action]) && Last(states + [t]) == t
  {
    hide Does, Init;
    var longer, done := states + [t], actions + [action];
    forall i | 0 <= i < |done| ensures Does(d, longer[i], longer[i + 1], done[i]) {
      if i < |actions| { assert Does(d, states[i], states[i + 1], actions[i]); }
    }
  }

  // ---------------------------------------------------------------- a save without contention

  /** Driver a holds a checkpoint to store, the Run as it is, and the committed checkpoint; nothing
      of the Run is stored above that. */
  ghost predicate Uncontended(d: Definition, s: State, a: nat)
  {
    && At(s, a) && s.drivers[a].loc.Storing? && s.run == s.drivers[a].run && !Terminal(s.run.status)
    && Home(s.commits, s.run, s.drivers[a].current) && NothingFrom(s.store, d.run, |s.commits| + 1)
  }

  function CommittedRun(run: Run, ref: CheckpointRef, now: int): Run { Bump(run, now).(marker := Some(ref)) }

  /** The state after the save: stored, committed, and the driver goes on. */
  function AfterSave(s: State, a: nat, now: int): State
    requires At(s, a) && s.drivers[a].loc.Storing?
  {
    var next := s.drivers[a].loc.next;
    var run := CommittedRun(s.run, next.ref, now);
    s.(store := Insert(s.store, Seal(next)), run := run, commits := s.commits + [next],
       drivers := s.drivers[a := Continue(run, next, s.drivers[a].loc.after)])
  }

  lemma SaveInserts(s: Store, c: Checkpoint)
    requires Indexed(s) && Save(s, c).Saved? && c.body.ref !in s.checkpoints
    ensures Save(s, c).store == Insert(s, c)
  {
  }

  lemma CommitMakes(run: Run, ref: CheckpointRef, now: int)
    requires run.kind.Workflow? && !Terminal(run.status) && run.marker != Some(ref)
    ensures Apply(run, CommitCheckpoint(ref, run.marker, None, None), run.version, now) == Ok(CommittedRun(run, ref, now))
  {
  }

  lemma InsertRaises(store: Store, c: Checkpoint, run: RunId)
    requires NothingFrom(store, run, c.body.sequence)
    ensures NothingFrom(Insert(store, c), run, c.body.sequence + 1)
  {
  }

  /** Checking, storing and committing take an uncontended driver to the committed state. */
  lemma UncontendedSaveCommits(d: Definition, states: seq<State>, actions: seq<Action>, a: nat, now: int)
    returns (longer: seq<State>)
    requires Validated(d) && IsRun(d, states, actions) && Uncontended(d, Last(states), a)
    ensures IsRun(d, longer, actions + [ACheck(a), AStore(a), ACommit(a, now)]) && states <= longer
    ensures Last(longer) == AfterSave(Last(states), a, now)
    ensures NothingFrom(Last(longer).store, d.run, |Last(longer).commits| + 1)
  {
    hide Inv, NamesOk, Home, NothingFrom, Does, IsRun, Validated, Continue, CommittedRun;
    RunStates(d, states, actions);
    var s := Last(states);
    var driver := s.drivers[a];
    var next, after := driver.loc.next, driver.loc.after;
    RunKeepsInv(d, states, actions, |states| - 1);
    var checked := s.(drivers := s.drivers[a := driver.(loc := Checked(next, after))]);
    CheckDoes(d, s, checked, a);
    longer := states + [checked];
    Extends(d, states, actions, checked, ACheck(a));
    var stored := s.(store := Insert(s.store, Seal(next)), drivers := s.drivers[a := driver.(loc := Stored(next, after))]);
    StoreDoes(d, s, checked, stored, a);
    Extends(d, longer, actions + [ACheck(a)], stored, AStore(a));
    longer := longer + [stored];
    var t := AfterSave(s, a, now);
    CommitDoes(d, s, stored, t, a, now);
    Extends(d, longer, actions + [ACheck(a)] + [AStore(a)], t, ACommit(a, now));
    longer := longer + [t];
    assert actions + [ACheck(a)] + [AStore(a)] + [ACommit(a, now)] == actions + [ACheck(a), AStore(a), ACommit(a, now)];
    NextSequence(d, s, a);
    InsertRaises(s.store, Seal(next), d.run);
  }

  lemma CheckDoes(d: Definition, s: State, t: State, a: nat)
    requires Inv(d, s) && Uncontended(d, s, a)
    requires t == s.(drivers := s.drivers[a := s.drivers[a].(loc := Checked(s.drivers[a].loc.next, s.drivers[a].loc.after))])
    ensures Does(d, s, t, ACheck(a))
  {
    hide Inv, PassesChecks, Home, NothingFrom;
    SaveBeginsExactly(d, s, a);
  }

  lemma StoreDoes(d: Definition, s: State, u: State, t: State, a: nat)
    requires Inv(d, s) && NamesOk(s) && Uncontended(d, s, a)
    requires u == s.(drivers := s.drivers[a := s.drivers[a].(loc := Checked(s.drivers[a].loc.next, s.drivers[a].loc.after))])
    requires t == u.(store := Insert(s.store, Seal(s.drivers[a].loc.next)),
                     drivers := u.drivers[a := u.drivers[a].(loc := Stored(s.drivers[a].loc.next, s.drivers[a].loc.after))])
    ensures Does(d, u, t, AStore(a))
  {
    hide Inv, NamesOk, Save, Home, NothingFrom, Insert;
    SuccessorIsSaved(d, s, a);
  }

  lemma SuccessorIsSaved(d: Definition, s: State, a: nat)
    requires Inv(d, s) && NamesOk(s) && Uncontended(d, s, a)
    ensures Save(s.store, Seal(s.drivers[a].loc.next)) == Saved(Insert(s.store, Seal(s.drivers[a].loc.next)))
  {
    hide Inv, NamesOk, Save, Home, NothingFrom, Insert;
    NextSequence(d, s, a);
    StoredExactly(d, s, a);
    DraftIsNew(s, a);
    RunFacts(d, s);
    SaveInserts(s.store, Seal(s.drivers[a].loc.next));
  }

  lemma CommitDoes(d: Definition, s: State, u: State, t: State, a: nat, now: int)
    requires Inv(d, s) && NamesOk(s) && Uncontended(d, s, a)
    requires u == s.(store := Insert(s.store, Seal(s.drivers[a].loc.next)),
                     drivers := s.drivers[a := s.drivers[a].(loc := Stored(s.drivers[a].loc.next, s.drivers[a].loc.after))])
    requires t == AfterSave(s, a, now)
    ensures Does(d, u, t, ACommit(a, now))
  {
    hide Inv, NamesOk, Home, NothingFrom, Insert, Apply, CommittedRun, Continue;
    RunFacts(d, s);
    DraftIsUnmarked(d, s, a, s.drivers[a].loc.next.ref);
    CommitMakes(s.run, s.drivers[a].loc.next.ref, now);
  }
}
