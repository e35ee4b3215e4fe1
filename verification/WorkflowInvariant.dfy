/** What every step of a workflow execution keeps, whoever takes it. */
module WorkflowInvariant {
  import opened Wrappers
  import opened Order
  import opened Graph
  import opened RunMachine
  import opened Checkpoints
  import opened CheckpointStore
  import opened Coordinator
  import opened Workflow
  import opened WorkflowContent

  // ---------------------------------------------------------------- the invariant

  ghost predicate StoreOk(store: Store)
  {
    Indexed(store) && forall r :: r in store.checkpoints ==> Intact(store.checkpoints[r])
  }

  ghost predicate Holds(store: Store, b: Body)
  {
    b.ref in store.checkpoints && store.checkpoints[b.ref].body == b
  }

  ghost predicate Sound(d: Definition, b: Body) { Good(d, b) && Constructible(b) }

  ghost predicate CommitOk(d: Definition, s: State, i: nat)
    requires i < |s.commits|
  {
    var b := s.commits[i];
    && Sound(d, b) && Holds(s.store, b) && b.run == d.run && b.scope == d.scope && b.sequence == i + 1
    && (i > 0 ==> b.previous == Some(s.commits[i - 1].ref) && Continues(s.commits[i - 1], b))
  }

  ghost predicate MarkerOk(s: State)
  {
    s.run.marker == if s.commits == [] then None else Some(s.commits[|s.commits| - 1].ref)
  }

  ghost predicate SuccessOk(d: Definition, s: State)
  {
    s.run.status.Succeeded? ==> s.commits != [] && Completed(s.commits[|s.commits| - 1]) == d.g.nodes
  }

  /** Nothing is committed before the Run is started. */
  ghost predicate FreshOk(s: State) { s.run.status.Created? ==> s.commits == [] }

  /** Everything the node depends on had succeeded in some checkpoint already committed. */
  ghost predicate DispatchOk(d: Definition, commits: seq<Body>, e: Dispatch)
  {
    e.upTo <= |commits| && exists i :: 0 <= i < e.upTo && Preds(d.g, e.node) <= Completed(commits[i])
  }

  ghost predicate Snapshot(current: Run, run: Run)
  {
    && run.id == current.id && run.attempt >= 1
    && run.version <= current.version && (run.version == current.version ==> run == current)
  }

  /** The driver continues from a committed checkpoint that its Run's marker names. */
  ghost predicate Home(commits: seq<Body>, run: Run, current: Option<Body>)
  {
    match current
    case None => run.marker.None?
    case Some(b) => run.marker == Some(b.ref) && b in commits
  }

  ghost predicate CopyOf(commits: seq<Body>, b: Body) { exists base :: base in commits && SameContent(base, b) }

  /** The driver continues from an unstored copy of a committed checkpoint, after a decision that
      turned out to be on record already. */
  ghost predicate Away(commits: seq<Body>, run: Run, current: Option<Body>)
  {
    && current.Some? && run.marker != Some(current.value.ref) && !AwaitsDecision(current.value)
    && CopyOf(commits, current.value)
  }

  /** The checkpoint is labelled with the Run it was built for. */
  ghost predicate Labelled(d: Definition, run: Run, b: Body)
  {
    && b.run == run.id && b.scope == d.scope && b.definition == run.definition && b.graphVersion == run.graphVersion
    && b.attempt == run.attempt
  }

  predicate AfterOk(status: Status, next: Body, after: After)
  {
    match after
    case Proceed => true
    case Wait => AwaitsDecision(next)
    case Decide(decision) => status.WaitingApproval? && HoldsDecision(next, decision)
  }

  ghost predicate NextOk(d: Definition, run: Run, current: Option<Body>, next: Body, after: After)
  {
    && Sound(d, next) && Labelled(d, run, next) && AfterOk(run.status, next, after)
    && match current
       case None => next.previous.None? && next.sequence == 1
       case Some(b) => next.previous == Some(b.ref) && next.sequence == b.sequence + 1 && Continues(b, next)
  }

  /** What the committed checkpoint says when its driver moves the Run. */
  ghost predicate SettleOk(d: Definition, commits: seq<Body>, run: Run, b: Body, op: Op)
  {
    match op
    case Complete => Completed(b) == d.g.nodes
    case Fail(_) =>
      Home(commits, run, Some(b)) && (run.status.Recovering? || (run.status.WaitingApproval? && HoldsDecision(b, Rejected)))
    case Cancel => Home(commits, run, Some(b)) && run.status.WaitingApproval? && HoldsDecision(b, Withdrawn)
    case Recover(_) => Home(commits, run, Some(b))
    case Advance(target) =>
      && Home(commits, run, Some(b))
      && (if target.WaitingApproval? then AwaitsDecision(b)
          else target.Running? && (run.status.Recovering? || (run.status.WaitingApproval? && HoldsDecision(b, Approved))))
    case _ => false
  }

  /** The node was handed out when a checkpoint with b's content was committed. */
  ghost predicate HandedOut(commits: seq<Body>, log: seq<Dispatch>, n: Id, b: Body)
  {
    exists e, i :: e in log && e.node == n && 0 <= i < e.upTo && i < |commits| && SameContent(commits[i], b)
  }

  /** Why a driver fails its Run: an evaluation failure its checkpoint has on record, or an agent node
      that was handed out from it. */
  ghost predicate FailOk(d: Definition, commits: seq<Body>, log: seq<Dispatch>, b: Body, op: Op, failed: Option<Id>)
  {
    && Terminates(op)
    && match failed
       case None => StableFailure(d, b)
       case Some(n) => Chosen(d, b, n) && n in d.kinds && d.kinds[n].AgentNode? && HandedOut(commits, log, n, b)
  }

  /** The three calls that bring a Run to RUNNING, each from where the one before left it. */
  predicate Starts(status: Status, op: Op)
  {
    || (op.Start? && status.Created?) || (op == Advance(ContextLoading) && status.Starting?)
    || (op == Advance(Running) && status.ContextLoading?)
  }

  ghost predicate LocOk(d: Definition, s: State, run: Run, current: Option<Body>, loc: Loc)
  {
    match loc
    case Launching(op) => current.None? && Starts(run.status, op)
    case Opening => current.None?
    case Restoring => current.Some? && Home(s.commits, run, current) && run.status.Recovering?
    case Ready => current.Some?
    case Working(n) => current.Some? && Chosen(d, current.value, n) && HandedOut(s.commits, s.log, n, current.value)
    case Deciding(post, n, decision) =>
      && current.Some? && Home(s.commits, run, current) && n in current.value.approvals && Constructible(post)
      && post == AfterDecision(d, run, current.value, post.ref, n, decision)
    case Storing(next, after) => NextOk(d, run, current, next, after)
    case Checked(next, after) => NextOk(d, run, current, next, after) && next.previous == run.marker
    case Stored(next, after) => NextOk(d, run, current, next, after) && next.previous == run.marker && Holds(s.store, next)
    case Settling(op) => current.Some? && SettleOk(d, s.commits, run, current.value, op)
    case Failing(op, failed) => current.Some? && FailOk(d, s.commits, s.log, current.value, op, failed)
    case Ending(op, failed, _) => current.Some? && FailOk(d, s.commits, s.log, current.value, op, failed)
  }

  ghost predicate DriverOk(d: Definition, s: State, driver: Driver)
  {
    driver.Active? ==>
      && Snapshot(s.run, driver.run)
      && (Home(s.commits, driver.run, driver.current) || Away(s.commits, driver.run, driver.current))
      && (driver.current.Some? ==> Sound(d, driver.current.value))
      && (driver.run.status.Created? ==> driver.loc.Launching?)
      && LocOk(d, s, driver.run, driver.current, driver.loc)
  }

  predicate ReportOk(driver: Driver)
  {
    driver.Reporting? ==> driver.op.Fail? || (driver.op.Pause? && driver.cause.AuditFailed?)
  }

  /** A paused or retrying Run remembers a phase it can go on from; attempts count from 1. */
  ghost predicate RunOk(run: Run)
  {
    run.attempt >= 1 && (run.continuation.Some? ==> !Terminal(run.continuation.value) && !run.continuation.value.Created?)
  }

  ghost predicate Inv(d: Definition, s: State)
  {
    && s.run.kind.Workflow? && s.run.id == d.run && RunOk(s.run)
    && StoreOk(s.store) && MarkerOk(s) && SuccessOk(d, s) && FreshOk(s)
    && (forall i :: 0 <= i < |s.commits| ==> CommitOk(d, s, i))
    && (forall a :: a in s.drivers ==> DriverOk(d, s, s.drivers[a]) && ReportOk(s.drivers[a]))
    && (forall i :: 0 <= i < |s.log| ==> DispatchOk(d, s.commits, s.log[i]))
  }

  // ---------------------------------------------------------------- references

  /** The checkpoint a driver is building. */
  function Draft(driver: Driver): set<CheckpointRef>
  {
    if !driver.Active? then {}
    else match driver.loc
         case Deciding(post, _, _) => {post.ref}
         case Storing(next, _) => {next.ref}
         case Checked(next, _) => {next.ref}
         case Stored(next, _) => {next.ref}
         case _ => {}
  }

  function Unsaved(driver: Driver): set<CheckpointRef>
  {
    if driver.Active? && driver.loc.Stored? then {} else Draft(driver)
  }

  function Known(driver: Driver): set<CheckpointRef>
  {
    Draft(driver) + if driver.Active? && driver.current.Some? then {driver.current.value.ref} else {}
  }

  predicate IsCommitted(commits: seq<Body>, r: CheckpointRef) { exists b :: b in commits && b.ref == r }

  /** One driver's references against the store and the committed checkpoints. */
  ghost predicate DraftOk(s: State, driver: Driver)
  {
    && Known(driver) <= s.names && Unsaved(driver) !! s.store.checkpoints.Keys
    && forall r :: r in Draft(driver) ==> !IsCommitted(s.commits, r)
  }

  /** A reference under construction is known to its driver alone. */
  ghost predicate NamesOk(s: State)
  {
    && s.store.checkpoints.Keys <= s.names
    && (forall a :: a in s.drivers ==> DraftOk(s, s.drivers[a]))
    && (forall a, b :: a in s.drivers && b in s.drivers && a != b ==> Draft(s.drivers[a]) !! Known(s.drivers[b]))
  }

  /** What one driver drafts is not known to another. */
  ghost predicate Apart(s: State, a: nat, b: nat)
    requires a in s.drivers && b in s.drivers
  {
    forall r :: r in Draft(s.drivers[a]) ==> r !in Known(s.drivers[b])
  }

  lemma DraftsAreApart(s: State, a: nat, b: nat)
    requires NamesOk(s) && a in s.drivers && b in s.drivers && a != b
    ensures Apart(s, a, b)
  {
    hide Draft, Known, DraftOk;
    assert Draft(s.drivers[a]) !! Known(s.drivers[b]);
  }

  /** A driver moves on without a new reference. */
  lemma MovesKeepsNames(s: State, t: State, a: nat, driver: Driver)
    requires NamesOk(s) && a in s.drivers && Moves(s, t, a, driver)
    requires Draft(driver) <= Draft(s.drivers[a]) && Unsaved(driver) <= Unsaved(s.drivers[a])
    requires forall r :: r in Known(driver) ==> r in Known(s.drivers[a]) || (IsCommitted(s.commits, r) && r in s.store.checkpoints)
    ensures NamesOk(t)
  {
    hide Draft, Unsaved, Known, IsCommitted;
    assert DraftOk(s, s.drivers[a]);
    forall b | b in t.drivers ensures DraftOk(t, t.drivers[b]) { assert b != a ==> DraftOk(s, s.drivers[b]); }
    forall b, c | b in t.drivers && c in t.drivers && b != c ensures Draft(t.drivers[b]) !! Known(t.drivers[c]) {
      assert DraftOk(s, s.drivers[b]);
      DraftsAreApart(s, b, c);
      forall r | r in Draft(t.drivers[b]) ensures r !in Known(t.drivers[c]) { assert r in Draft(s.drivers[b]); }
    }
  }

  lemma BuildsKeepsNames(s: State, t: State, a: nat, driver: Driver, ref: CheckpointRef)
    requires NamesOk(s) && a in s.drivers && Builds(s, t, a, driver, ref) && Draft(driver) == Unsaved(driver) == {ref}
    requires forall b :: b in s.commits ==> b.ref in s.store.checkpoints
    requires forall r :: r in Known(driver) ==> r == ref || r in Known(s.drivers[a]) || IsCommitted(s.commits, r)
    ensures NamesOk(t)
  {
    assert forall r :: IsCommitted(s.commits, r) ==> r in s.names;
    assert DraftOk(s, s.drivers[a]);
    hide Draft, Unsaved, Known, IsCommitted;
    forall b | b in t.drivers ensures DraftOk(t, t.drivers[b]) { assert b != a ==> DraftOk(s, s.drivers[b]); }
    forall b, c | b in t.drivers && c in t.drivers && b != c ensures Draft(t.drivers[b]) !! Known(t.drivers[c]) {
      assert DraftOk(s, s.drivers[b]) && DraftOk(s, s.drivers[c]);
      DraftsAreApart(s, b, c);
      forall r | r in Draft(t.drivers[b]) ensures r !in Known(t.drivers[c]) { assert b != a ==> r in Draft(s.drivers[b]); }
    }
  }

  lemma StoredDraft(driver: Driver, next: Body, after: After)
    requires driver.Active? && driver.loc == Checked(next, after)
    ensures var stored := driver.(loc := Stored(next, after));
            Draft(stored) == Draft(driver) == {next.ref} && Unsaved(stored) == {} && Known(stored) == Known(driver)
    ensures next.ref in Known(driver)
  {
  }

  /** The draft is stored, and then belongs to the store. */
  lemma StoreKeepsNames(s: State, t: State, a: nat, next: Body, after: After)
    requires NamesOk(s) && At(s, a) && s.drivers[a].loc == Checked(next, after)
    requires t == s.(store := t.store, drivers := s.drivers[a := s.drivers[a].(loc := Stored(next, after))])
    requires t.store.checkpoints.Keys == s.store.checkpoints.Keys + {next.ref}
    ensures NamesOk(t)
  {
    StoredDraft(s.drivers[a], next, after);
    assert DraftOk(s, s.drivers[a]);
    forall b | b in t.drivers && b != a ensures Unsaved(t.drivers[b]) <= Draft(t.drivers[b]) { }
    hide Draft, Unsaved, Known, IsCommitted;
    forall b | b in t.drivers ensures DraftOk(t, t.drivers[b]) {
      if b != a {
        assert DraftOk(s, s.drivers[b]);
        DraftsAreApart(s, b, a);
      }
    }
    forall b, c | b in t.drivers && c in t.drivers && b != c ensures Draft(t.drivers[b]) !! Known(t.drivers[c]) {
      assert Draft(s.drivers[b]) !! Known(s.drivers[c]);
    }
  }

  lemma DeleteKeepsNames(s: State, t: State)
    requires NamesOk(s) && t == s.(store := t.store) && t.store.checkpoints.Keys <= s.store.checkpoints.Keys
    ensures NamesOk(t)
  {
    hide IsCommitted, Draft, Unsaved, Known;
    forall b | b in t.drivers ensures DraftOk(t, t.drivers[b]) { assert DraftOk(s, s.drivers[b]); }
  }

  /** A stored draft is committed and becomes what its driver continues from, if it goes on. */
  lemma CommitKeepsNames(s: State, t: State, a: nat, next: Body, driver: Driver)
    requires NamesOk(s) && At(s, a) && s.drivers[a].loc.Stored? && s.drivers[a].loc.next == next
    requires t == s.(run := t.run, commits := s.commits + [next], drivers := s.drivers[a := driver])
    requires Draft(driver) == {} && Known(driver) <= {next.ref}
    ensures NamesOk(t)
  {
    assert DraftOk(s, s.drivers[a]);
    assert next.ref in Known(s.drivers[a]);
    assert Unsaved(driver) == {};
    forall r | IsCommitted(t.commits, r) ensures IsCommitted(s.commits, r) || r == next.ref { }
    hide IsCommitted, Draft, Unsaved, Known;
    forall b | b in t.drivers ensures DraftOk(t, t.drivers[b]) {
      if b != a {
        assert DraftOk(s, s.drivers[b]);
        DraftsAreApart(s, b, a);
      }
    }
    forall b, c | b in t.drivers && c in t.drivers && b != c ensures Draft(t.drivers[b]) !! Known(t.drivers[c]) {
      DraftsAreApart(s, b, c);
      if c == a { forall r | r in Draft(t.drivers[b]) ensures r !in Known(t.drivers[c]) { assert r in Draft(s.drivers[b]); } }
    }
  }

  lemma RunKeepsNames(s: State, t: State)
    requires NamesOk(s) && t == s.(run := t.run)
    ensures NamesOk(t)
  {
    hide IsCommitted, Draft, Unsaved, Known;
    forall b | b in t.drivers ensures DraftOk(t, t.drivers[b]) { assert DraftOk(s, s.drivers[b]); }
  }
}
