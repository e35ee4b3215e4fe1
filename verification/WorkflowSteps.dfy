/** Every step of a workflow execution keeps the invariant. */
module WorkflowSteps {
  import opened Wrappers
  import opened Order
  import opened Graph
  import opened RunMachine
  import opened Checkpoints
  import opened CheckpointStore
  import opened Coordinator
  import opened Workflow
  import opened WorkflowContent
  import opened WorkflowInvariant

  // ---------------------------------------------------------------- one driver moves

  lemma DriverIsOk(d: Definition, s: State, a: nat)
    requires Inv(d, s) && a in s.drivers
    ensures DriverOk(d, s, s.drivers[a])
  {
    hide DriverOk;
  }

  lemma HandedOutStays(commits: seq<Body>, log: seq<Dispatch>, more: seq<Body>, longer: seq<Dispatch>, n: Id, b: Body)
    requires HandedOut(commits, log, n, b) && commits <= more && log <= longer
    ensures HandedOut(more, longer, n, b)
  {
    hide SameContent;
    var e, i :| e in log && e.node == n && 0 <= i < e.upTo && i < |commits| && SameContent(commits[i], b);
    assert e in longer && more[i] == commits[i];
  }

  lemma FailStays(d: Definition, commits: seq<Body>, log: seq<Dispatch>, more: seq<Body>, longer: seq<Dispatch>, b: Body, op: Op, failed: Option<Id>)
    requires FailOk(d, commits, log, b, op, failed) && commits <= more && log <= longer
    ensures FailOk(d, more, longer, b, op, failed)
  {
    hide HandedOut, Chosen, StableFailure;
    if failed.Some? { HandedOutStays(commits, log, more, longer, failed.value, b); }
  }

  lemma LocSame(d: Definition, s: State, t: State, driver: Driver)
    requires s.store == t.store && s.commits == t.commits && s.log <= t.log && driver.Active?
    requires LocOk(d, s, driver.run, driver.current, driver.loc)
    ensures LocOk(d, t, driver.run, driver.current, driver.loc)
  {
    hide SettleOk, NextOk, Chosen, Home, Constructible, AfterDecision, Holds, FailOk, HandedOut;
    match driver.loc {
      case Working(n) => HandedOutStays(s.commits, s.log, t.commits, t.log, n, driver.current.value);
      case Failing(op, failed) => FailStays(d, s.commits, s.log, t.commits, t.log, driver.current.value, op, failed);
      case Ending(op, failed, _) => FailStays(d, s.commits, s.log, t.commits, t.log, driver.current.value, op, failed);
      case _ =>
    }
  }

  lemma MovesKeeps(d: Definition, s: State, t: State, a: nat, driver: Driver)
    requires Inv(d, s) && t == s.(drivers := s.drivers[a := driver], names := t.names) && DriverOk(d, s, driver) && ReportOk(driver)
    ensures Inv(d, t)
  {
    hide StoreOk, LocOk, Snapshot, Home, Away, Sound, Holds, Continues, DispatchOk, ReportOk;
    forall i | 0 <= i < |t.commits| ensures CommitOk(d, t, i) { assert CommitOk(d, s, i); }
    forall b | b in t.drivers ensures DriverOk(d, t, t.drivers[b]) && ReportOk(t.drivers[b]) {
      assert b != a ==> DriverOk(d, s, s.drivers[b]) && ReportOk(s.drivers[b]);
      if t.drivers[b].Active? { LocSame(d, s, t, t.drivers[b]); }
    }
  }

  lemma OffKeeps(d: Definition, s: State, t: State, a: nat)
    requires Inv(d, s) && NamesOk(s) && a in s.drivers && Moves(s, t, a, Off)
    ensures Inv(d, t) && NamesOk(t)
  {
    MovesKeeps(d, s, t, a, Off);
    hide Inv;
    MovesKeepsNames(s, t, a, Off);
  }

  /** The gateway hands out the last committed checkpoint. */
  lemma MarkedIsLast(d: Definition, s: State)
    requires Inv(d, s) && Marked(d, s).Done?
    ensures s.commits != [] && Marked(d, s).value.body == s.commits[|s.commits| - 1]
    ensures var b := Marked(d, s).value.body;
            && b in s.commits && Sound(d, b) && s.run.marker == Some(b.ref) && Home(s.commits, s.run, Some(b))
            && IsCommitted(s.commits, b.ref) && b.ref in s.store.checkpoints && s.run.attempt >= 1 && !s.run.status.Created?
  {
    assert CommitOk(d, s, |s.commits| - 1);
    hide Sound, Continues;
  }

  lemma CommitsStored(d: Definition, s: State)
    requires Inv(d, s)
    ensures forall b :: b in s.commits ==> b.ref in s.store.checkpoints
  {
    forall b | b in s.commits ensures b.ref in s.store.checkpoints {
      var i :| 0 <= i < |s.commits| && s.commits[i] == b;
      assert CommitOk(d, s, i);
    }
  }

  lemma FreshIsUnmarked(d: Definition, s: State)
    requires Inv(d, s)
    ensures s.run.status.Created? ==> s.run.marker.None?
    ensures s.run.attempt >= 1
  {
  }

  lemma BeginKeeps(d: Definition, s: State, t: State, a: nat)
    requires Inv(d, s) && NamesOk(s) && Begin(s, t, a)
    ensures Inv(d, t) && NamesOk(t)
  {
    hide Inv, NamesOk, IsCommitted;
    FreshIsUnmarked(d, s);
    assert DriverOk(d, s, t.drivers[a]);
    MovesKeeps(d, s, t, a, t.drivers[a]);
    MovesKeepsNames(s, t, a, t.drivers[a]);
  }

  /** A start that goes through finds the Run its driver holds, and leaves it started and unmarked. */
  lemma StartMakes(run: Run, own: Run, op: Op, now: int)
    requires Starts(own.status, op) && Snapshot(run, own) && own.marker.None? && Apply(run, op, own.version, now).Ok?
    ensures run == own
    ensures var done := Apply(run, op, own.version, now).run;
            && !done.status.Created? && done.marker.None? && done.attempt == own.attempt && done.id == own.id
            && done.status == (if op.Start? then Status.Starting else op.target)
  {
  }

  lemma StartNext(d: Definition, s: State, u: State, a: nat, now: int)
    requires Inv(d, s) && At(s, a) && s.drivers[a].loc.Launching? && u.store == s.store && u.commits == s.commits && u.log == s.log
    requires var done := Apply(s.run, s.drivers[a].loc.op, s.drivers[a].run.version, now); done.Ok? && u.run == done.run
    ensures DriverOk(d, u, s.drivers[a].(run := u.run, loc := AfterStart(s.drivers[a].loc.op))) && s.run == s.drivers[a].run
  {
    hide Inv, Apply, Sound, CopyOf, AwaitsDecision;
    DriverIsOk(d, s, a);
    StartMakes(s.run, s.drivers[a].run, s.drivers[a].loc.op, now);
  }

  lemma StartKeeps(d: Definition, s: State, t: State, a: nat, now: int)
    requires Inv(d, s) && NamesOk(s) && StartPhase(s, t, a, now)
    ensures Inv(d, t) && NamesOk(t)
  {
    var driver := s.drivers[a];
    hide Inv, NamesOk, Apply, IsCommitted;
    if Apply(s.run, driver.loc.op, driver.run.version, now).Err? {
      OffKeeps(d, s, t, a);
    } else {
      var u := s.(run := t.run);
      StartNext(d, s, u, a, now);
      LaunchingStarts(d, s, a);
      OpKeeps(d, s, u, driver.loc.op, driver.run.version, now);
      hide DriverOk;
      MovesKeeps(d, u, t, a, t.drivers[a]);
      MovesKeepsNames(u, t, a, t.drivers[a]);
    }
  }

  lemma LaunchingStarts(d: Definition, s: State, a: nat)
    requires Inv(d, s) && At(s, a) && s.drivers[a].loc.Launching?
    ensures Starts(s.drivers[a].run.status, s.drivers[a].loc.op) && s.drivers[a].current.None? && s.drivers[a].run.marker.None?
  {
    hide Inv, CopyOf, AwaitsDecision;
    DriverIsOk(d, s, a);
  }

  lemma OpeningFacts(d: Definition, s: State, a: nat)
    requires Inv(d, s) && At(s, a) && s.drivers[a].loc.Opening?
    ensures s.drivers[a].current.None? && DriverOk(d, s, s.drivers[a])
  {
    hide Inv;
    DriverIsOk(d, s, a);
  }

  lemma LaunchNextOk(d: Definition, run: Run, ref: CheckpointRef)
    requires Constructible(First(d, run, ref))
    ensures NextOk(d, run, None, First(d, run, ref), Proceed)
  {
    FirstGood(d, run, ref);
    hide Good, Constructible;
  }

  lemma LaunchKeeps(d: Definition, s: State, t: State, a: nat, ref: CheckpointRef)
    requires Inv(d, s) && NamesOk(s) && Launch(d, s, t, a, ref)
    ensures Inv(d, t) && NamesOk(t)
  {
    hide Inv, NamesOk, IsCommitted, Constructible, NextOk, Home, Away, Snapshot;
    OpeningFacts(d, s, a);
    CommitsStored(d, s);
    var driver := t.drivers[a];
    LaunchNextOk(d, s.drivers[a].run, ref);
    assert DriverOk(d, s, driver);
    MovesKeeps(d, s, t, a, driver);
    hide DriverOk;
    BuildsKeepsNames(s, t, a, driver, ref);
  }

  lemma PickUpKeeps(d: Definition, s: State, t: State, a: nat)
    requires Inv(d, s) && NamesOk(s) && PickUp(d, s, t, a)
    ensures Inv(d, t) && NamesOk(t)
  {
    hide Inv, NamesOk, Marked, Sound, Home, IsCommitted;
    MarkedIsLast(d, s);
    assert DriverOk(d, s, t.drivers[a]);
    MovesKeeps(d, s, t, a, t.drivers[a]);
    hide DriverOk;
    MovesKeepsNames(s, t, a, t.drivers[a]);
  }

  lemma RecoverBeginKeeps(d: Definition, s: State, t: State, a: nat)
    requires Inv(d, s) && NamesOk(s) && RecoverBegin(d, s, t, a)
    ensures Inv(d, t) && NamesOk(t)
  {
    hide Inv, NamesOk, Marked, Sound, Home, IsCommitted;
    MarkedIsLast(d, s);
    assert DriverOk(d, s, t.drivers[a]);
    MovesKeeps(d, s, t, a, t.drivers[a]);
    hide DriverOk;
    MovesKeepsNames(s, t, a, t.drivers[a]);
  }

  lemma DecideBeginKeeps(d: Definition, s: State, t: State, a: nat, n: Id, decision: Decision, ref: CheckpointRef)
    requires Inv(d, s) && NamesOk(s) && DecideBegin(d, s, t, a, n, decision, ref)
    ensures Inv(d, t) && NamesOk(t)
  {
    hide Inv, NamesOk, Marked, Sound, Home, Constructible, IsCommitted;
    MarkedIsLast(d, s);
    CommitsStored(d, s);
    var driver := t.drivers[a];
    assert DriverOk(d, s, driver);
    MovesKeeps(d, s, t, a, driver);
    hide DriverOk;
    BuildsKeepsNames(s, t, a, driver, ref);
  }

  // ---------------------------------------------------------------- the second read of a decision

  /** What an earlier commit settled, the last one still has. */
  lemma {:induction false} KeptAlong(d: Definition, s: State, i: nat, j: nat)
    requires Inv(d, s) && i <= j < |s.commits|
    ensures Follows(s.commits[i], s.commits[j])
    decreases j - i
  {
    if i < j {
      KeptAlong(d, s, i, j - 1);
      assert CommitOk(d, s, j);
      hide Inv, CommitOk;
      FollowsOn(s.commits[i], s.commits[j - 1], s.commits[j]);
    } else {
      hide Inv;
    }
  }

  lemma FollowsOn(a: Body, b: Body, c: Body)
    requires Follows(a, b) && Follows(b, c)
    ensures Follows(a, c)
  {
  }

  lemma HomeIsLast(d: Definition, s: State, b: Body)
    requires Inv(d, s) && Home(s.commits, s.run, Some(b))
    ensures s.commits != [] && s.commits[|s.commits| - 1] == b
  {
    var i :| 0 <= i < |s.commits| && s.commits[i] == b;
    assert CommitOk(d, s, i) && CommitOk(d, s, |s.commits| - 1);
    hide Sound, Continues;
  }

  lemma CommitFacts(d: Definition, s: State, i: nat)
    requires Inv(d, s) && i < |s.commits|
    ensures Good(d, s.commits[i])
    ensures i + 1 < |s.commits| ==> Continues(s.commits[i], s.commits[i + 1])
  {
    assert CommitOk(d, s, i) && (i + 1 < |s.commits| ==> CommitOk(d, s, i + 1));
    hide Good, Constructible, Continues;
  }

  /** The approval is on record at the second read: the copy built from the first read has the
      content of a committed checkpoint. */
  lemma DecidedInBetween(d: Definition, s: State, i: nat, run: Run, ref: CheckpointRef, n: Id)
    requires Validated(d) && Inv(d, s) && i < |s.commits| && n in s.commits[i].approvals
    requires var last := s.commits[|s.commits| - 1]; n in last.approvals && last.approvals[n].decision == Some(Approved)
    requires Constructible(AfterDecision(d, run, s.commits[i], ref, n, Approved))
    ensures var post := AfterDecision(d, run, s.commits[i], ref, n, Approved);
            Good(d, post) && !AwaitsDecision(post) && CopyOf(s.commits, post)
  {
    hide *;
    var b, last := s.commits[i], s.commits[|s.commits| - 1];
    CommitFacts(d, s, i);
    if b.approvals[n].decision.Some? {
      KeptAlong(d, s, i, |s.commits| - 1);
      DecidedBefore(d, b, last, run, ref, n);
      IsCopy(s.commits, i, AfterDecision(d, run, b, ref, n, Approved));
    } else {
      var x := s.commits[i + 1];
      CommitFacts(d, s, i + 1);
      KeptAlong(d, s, i + 1, |s.commits| - 1);
      DecidedAfterwards(d, b, x, last, run, ref, n);
      IsCopy(s.commits, i + 1, AfterDecision(d, run, b, ref, n, Approved));
    }
  }

  lemma IsCopy(commits: seq<Body>, i: nat, b: Body)
    requires i < |commits| && SameContent(commits[i], b)
    ensures CopyOf(commits, b)
  {
    assert commits[i] in commits;
  }

  lemma DecidedCopy(d: Definition, s: State, a: nat)
    requires Validated(d) && Inv(d, s) && At(s, a) && s.drivers[a].loc.Deciding? && s.drivers[a].loc.decision.Approved?
    requires s.commits != [] && var last := s.commits[|s.commits| - 1];
             s.drivers[a].loc.node in last.approvals && last.approvals[s.drivers[a].loc.node].decision == Some(Approved)
    ensures var post := s.drivers[a].loc.post;
            Sound(d, post) && !AwaitsDecision(post) && CopyOf(s.commits, post)
  {
    var driver := s.drivers[a];
    var n, post := driver.loc.node, driver.loc.post;
    assert DriverOk(d, s, driver);
    var i :| 0 <= i < |s.commits| && s.commits[i] == driver.current.value;
    hide Inv, Good, Validated, Constructible, AfterDecision, CopyOf;
    DecidedInBetween(d, s, i, driver.run, post.ref, n);
  }

  /** A reference under construction is not the marker. */
  lemma DraftIsUnmarked(d: Definition, s: State, a: nat, r: CheckpointRef)
    requires Inv(d, s) && NamesOk(s) && a in s.drivers && r in Draft(s.drivers[a])
    ensures s.run.marker != Some(r)
  {
    assert DraftOk(s, s.drivers[a]);
    hide Draft, Known, Unsaved;
    if s.commits != [] {
      var last := s.commits[|s.commits| - 1];
      assert last in s.commits && s.run.marker == Some(last.ref);
    }
  }

  lemma DecideReplayKeeps(d: Definition, s: State, t: State, a: nat)
    requires Validated(d) && Inv(d, s) && NamesOk(s) && DecideAgain(d, s, t, a)
    requires Marked(d, s).value.body.approvals[s.drivers[a].loc.node].decision.Some? && s.drivers[a].loc.decision.Approved?
    ensures Inv(d, t) && NamesOk(t)
  {
    hide Inv, NamesOk, Sound, Validated, Marked, CopyOf;
    MarkedIsLast(d, s);
    DecidedCopy(d, s, a);
    var post := s.drivers[a].loc.post;
    DraftIsUnmarked(d, s, a, post.ref);
    var driver := Active(s.run, Some(post), Ready);
    assert Away(s.commits, s.run, Some(post));
    assert DriverOk(d, s, driver);
    MovesKeeps(d, s, t, a, driver);
    MovesKeepsNames(s, t, a, driver);
  }

  lemma DecisionShape(d: Definition, run: Run, b: Body, ref: CheckpointRef, n: Id, decision: Decision)
    ensures var post := AfterDecision(d, run, b, ref, n, decision);
            && Labelled(d, run, post) && HoldsDecision(post, decision)
            && post.previous == Some(b.ref) && post.sequence == b.sequence + 1
  {
    var post := AfterDecision(d, run, b, ref, n, decision);
    assert n in post.approvals && post.approvals[n].decision == Some(decision);
  }

  lemma DecisionNextOk(d: Definition, run: Run, b: Body, ref: CheckpointRef, n: Id, decision: Decision)
    requires Validated(d) && Good(d, b) && n in b.approvals && b.approvals[n].decision.None?
    requires Constructible(AfterDecision(d, run, b, ref, n, decision)) && run.status.WaitingApproval?
    ensures NextOk(d, run, Some(b), AfterDecision(d, run, b, ref, n, decision), Decide(decision))
  {
    hide Validated, Good, Constructible, Follows, HoldsDecision, AfterDecision, Decides, Labelled, AwaitsDecision;
    DecisionShape(d, run, b, ref, n, decision);
    DecisionGood(d, run, b, ref, n, decision);
  }

  lemma DecidingFacts(d: Definition, s: State, a: nat)
    requires Inv(d, s) && At(s, a) && s.drivers[a].loc.Deciding?
    ensures var driver := s.drivers[a];
            && driver.current.Some? && Home(s.commits, driver.run, driver.current) && Snapshot(s.run, driver.run)
            && driver.loc.node in driver.current.value.approvals && Constructible(driver.loc.post) && Sound(d, driver.current.value)
            && driver.loc.post == AfterDecision(d, driver.run, driver.current.value, driver.loc.post.ref, driver.loc.node, driver.loc.decision)
  {
    DriverIsOk(d, s, a);
    hide Inv, Sound, Constructible, AfterDecision, Home, Away, Snapshot;
  }

  lemma StoringOk(d: Definition, s: State, driver: Driver, next: Body, after: After)
    requires driver.Active? && DriverOk(d, s, driver) && NextOk(d, driver.run, driver.current, next, after)
    requires !driver.loc.Launching?
    ensures DriverOk(d, s, driver.(loc := Storing(next, after)))
  {
    hide Sound, NextOk, Home, Away, Snapshot, Chosen, Constructible, AfterDecision, SettleOk;
  }

  lemma DecideFreshOk(d: Definition, s: State, a: nat)
    requires Validated(d) && Inv(d, s) && At(s, a) && s.drivers[a].loc.Deciding? && s.run.version == s.drivers[a].run.version
    requires s.run.status.WaitingApproval?
    requires Marked(d, s).Done? && var b := Marked(d, s).value.body;
             s.drivers[a].loc.node in b.approvals && b.approvals[s.drivers[a].loc.node].decision.None?
    ensures var driver := s.drivers[a];
            DriverOk(d, s, driver.(loc := Storing(driver.loc.post, Decide(driver.loc.decision))))
  {
    var driver := s.drivers[a];
    DecidingFacts(d, s, a);
    assert s.run == driver.run && Good(d, driver.current.value) && At(s, a);
    hide *;
    DriverIsOk(d, s, a);
    MarkedIsLast(d, s);
    HomeIsLast(d, s, driver.current.value);
    DecisionNextOk(d, driver.run, driver.current.value, driver.loc.post.ref, driver.loc.node, driver.loc.decision);
    StoringOk(d, s, driver, driver.loc.post, Decide(driver.loc.decision));
  }

  lemma DecideAgainKeeps(d: Definition, s: State, t: State, a: nat)
    requires Validated(d) && Inv(d, s) && NamesOk(s) && DecideAgain(d, s, t, a)
    ensures Inv(d, t) && NamesOk(t)
  {
    hide Inv, NamesOk, Validated, Marked;
    var driver := s.drivers[a];
    if Marked(d, s).value.body.approvals[driver.loc.node].decision.None? {
      DecideFreshOk(d, s, a);
      hide DriverOk;
      MovesKeeps(d, s, t, a, t.drivers[a]);
      MovesKeepsNames(s, t, a, t.drivers[a]);
    } else if driver.loc.decision.Approved? {
      DecideReplayKeeps(d, s, t, a);
    } else {
      OffKeeps(d, s, t, a);
    }
  }

  // ---------------------------------------------------------------- picking and answering

  lemma RestoredKeeps(d: Definition, s: State, t: State, a: nat)
    requires Inv(d, s) && NamesOk(s) && Restored(s, t, a)
    ensures Inv(d, t) && NamesOk(t)
  {
    hide Inv, NamesOk, Sound, Home, Away, IsCommitted, HoldsDecision;
    DriverIsOk(d, s, a);
    MovesKeeps(d, s, t, a, t.drivers[a]);
    MovesKeepsNames(s, t, a, t.drivers[a]);
  }

  lemma RestoreFailsKeeps(d: Definition, s: State, t: State, a: nat, detail: ErrorDetail)
    requires Inv(d, s) && NamesOk(s) && RestoreFails(s, t, a, detail)
    ensures Inv(d, t) && NamesOk(t)
  {
    hide Inv, NamesOk, Sound, Home, Away, IsCommitted, HoldsDecision;
    DriverIsOk(d, s, a);
    MovesKeeps(d, s, t, a, t.drivers[a]);
    MovesKeepsNames(s, t, a, t.drivers[a]);
  }

  // ---------------------------------------------------------------- ending the Run

  lemma FailsStablyKeeps(d: Definition, s: State, t: State, a: nat, op: Op)
    requires Inv(d, s) && NamesOk(s) && FailsStably(d, s, t, a, op)
    ensures Inv(d, t) && NamesOk(t)
  {
    hide Inv, NamesOk, Sound, Home, Away, IsCommitted, AwaitsDecision, StableFailure;
    DriverIsOk(d, s, a);
    MovesKeeps(d, s, t, a, t.drivers[a]);
    MovesKeepsNames(s, t, a, t.drivers[a]);
  }

  /** The scheduler has a ready node whenever a node is left: it never stalls. */
  lemma NeverStalls(d: Definition, b: Body)
    requires Validated(d) && Good(d, b)
    ensures Greedy(d.g, Completed(b)) != [] || Completed(b) == d.g.nodes
  {
    var k: nat :| Stage(d, b, k);
    NextInOrder(d, b, k);
  }

  lemma StallsNever(d: Definition, s: State, t: State, a: nat, op: Op)
    requires Validated(d) && Inv(d, s)
    ensures !Stalls(d, s, t, a, op)
  {
    if AtReady(s, a) {
      DriverIsOk(d, s, a);
      hide Inv, Validated, Good, Greedy, Completed, Home, Away;
      NeverStalls(d, s.drivers[a].current.value);
    }
  }

  lemma AgentFailsKeeps(d: Definition, s: State, t: State, a: nat, op: Op)
    requires Inv(d, s) && NamesOk(s) && AgentFails(d, s, t, a, op)
    ensures Inv(d, t) && NamesOk(t)
  {
    hide Inv, NamesOk, Sound, Home, Away, IsCommitted, Chosen, HandedOut;
    DriverIsOk(d, s, a);
    MovesKeeps(d, s, t, a, t.drivers[a]);
    MovesKeepsNames(s, t, a, t.drivers[a]);
  }

  lemma ReadLatestKeeps(d: Definition, s: State, t: State, a: nat)
    requires Inv(d, s) && NamesOk(s) && ReadLatest(s, t, a)
    ensures Inv(d, t) && NamesOk(t)
  {
    hide Inv, NamesOk, Sound, Home, Away, IsCommitted, FailOk;
    if Terminal(s.run.status) {
      OffKeeps(d, s, t, a);
    } else {
      DriverIsOk(d, s, a);
      MovesKeeps(d, s, t, a, t.drivers[a]);
      MovesKeepsNames(s, t, a, t.drivers[a]);
    }
  }

  lemma EndRunKeeps(d: Definition, s: State, t: State, a: nat, now: int)
    requires Inv(d, s) && NamesOk(s) && EndRun(s, t, a, now)
    ensures Inv(d, t) && NamesOk(t)
  {
    EndingEnds(d, s, a);
    hide Inv, NamesOk, Apply;
    var u := s.(run := t.run);
    if u != s { OpKeeps(d, s, u, s.drivers[a].loc.op, s.drivers[a].loc.version, now); }
    OffKeeps(d, u, t, a);
  }

  lemma EndingEnds(d: Definition, s: State, a: nat)
    requires Inv(d, s) && At(s, a) && s.drivers[a].loc.Ending?
    ensures s.drivers[a].current.Some?
    ensures FailOk(d, s.commits, s.log, s.drivers[a].current.value, s.drivers[a].loc.op, s.drivers[a].loc.failed)
    ensures Terminates(s.drivers[a].loc.op)
  {
    DriverIsOk(d, s, a);
    hide Inv, Home, Away, Sound, Chosen, HandedOut, StableFailure;
  }

  lemma ReportKeeps(d: Definition, s: State, t: State, a: nat, op: Op, cause: Cause)
    requires Inv(d, s) && NamesOk(s) && Report(s, t, a, op, cause)
    ensures Inv(d, t) && NamesOk(t)
  {
    hide Inv, NamesOk, IsCommitted;
    MovesKeeps(d, s, t, a, t.drivers[a]);
    MovesKeepsNames(s, t, a, t.drivers[a]);
  }

  lemma ReportsFailOrPause(d: Definition, s: State, a: nat)
    requires Inv(d, s) && a in s.drivers
    ensures ReportOk(s.drivers[a])
  {
    hide ReportOk;
  }

  lemma ReportEndsKeeps(d: Definition, s: State, t: State, a: nat, now: int)
    requires Inv(d, s) && NamesOk(s) && ReportEnds(s, t, a, now)
    ensures Inv(d, t) && NamesOk(t)
  {
    hide Inv, NamesOk, Apply;
    ReportsFailOrPause(d, s, a);
    var u := s.(run := t.run);
    if u != s { OpKeeps(d, s, u, s.drivers[a].op, s.drivers[a].version, now); }
    OffKeeps(d, u, t, a);
  }

  // ---------------------------------------------------------------- picking

  lemma ParkKeeps(d: Definition, s: State, t: State, a: nat)
    requires Inv(d, s) && NamesOk(s) && Park(s, t, a)
    ensures Inv(d, t) && NamesOk(t)
  {
    hide Inv, NamesOk, Sound, AwaitsDecision, CopyOf, IsCommitted;
    DriverIsOk(d, s, a);
    MovesKeeps(d, s, t, a, t.drivers[a]);
    MovesKeepsNames(s, t, a, t.drivers[a]);
  }

  lemma FinishedKeeps(d: Definition, s: State, t: State, a: nat)
    requires Inv(d, s) && NamesOk(s) && Finished(d, s, t, a)
    ensures Inv(d, t) && NamesOk(t)
  {
    hide Inv, NamesOk, Sound, Home, Away, IsCommitted, AwaitsDecision, StableFailure;
    DriverIsOk(d, s, a);
    MovesKeeps(d, s, t, a, t.drivers[a]);
    MovesKeepsNames(s, t, a, t.drivers[a]);
  }

  /** A driver's checkpoint has the content of a committed one. */
  lemma CurrentIsCommitted(d: Definition, s: State, a: nat) returns (i: nat)
    requires Inv(d, s) && At(s, a) && s.drivers[a].current.Some?
    ensures i < |s.commits| && SameContent(s.commits[i], s.drivers[a].current.value)
  {
    var driver := s.drivers[a];
    assert DriverOk(d, s, driver);
    hide Sound, LocOk, AwaitsDecision;
    if Home(s.commits, driver.run, driver.current) {
      i :| 0 <= i < |s.commits| && s.commits[i] == driver.current.value;
    } else {
      var base :| base in s.commits && SameContent(base, driver.current.value);
      i :| 0 <= i < |s.commits| && s.commits[i] == base;
    }
  }

  lemma LogKeeps(d: Definition, s: State, t: State, e: Dispatch)
    requires Inv(d, s) && NamesOk(s) && t == s.(log := s.log + [e]) && DispatchOk(d, s.commits, e)
    ensures Inv(d, t) && NamesOk(t)
  {
    hide StoreOk, LocOk, Snapshot, Home, Away, Sound, Holds, Continues, DispatchOk, Draft, Known, Unsaved, IsCommitted, ReportOk;
    forall i | 0 <= i < |t.commits| ensures CommitOk(d, t, i) { assert CommitOk(d, s, i); }
    forall b | b in t.drivers ensures DriverOk(d, t, t.drivers[b]) && ReportOk(t.drivers[b]) && DraftOk(t, t.drivers[b]) {
      assert DriverOk(d, s, s.drivers[b]) && ReportOk(s.drivers[b]) && DraftOk(s, s.drivers[b]);
      if s.drivers[b].Active? { LocSame(d, s, t, s.drivers[b]); }
    }
  }

  lemma ReadyNode(d: Definition, s: State, a: nat)
    requires Validated(d) && Inv(d, s) && AtReady(s, a)
    requires var b := s.drivers[a].current.value; !AwaitsDecision(b) && !StableFailure(d, b) && Greedy(d.g, Completed(b)) != []
    ensures var b := s.drivers[a].current.value;
            var n := Greedy(d.g, Completed(b))[0];
            Chosen(d, b, n) && DispatchOk(d, s.commits, Dispatch(n, |s.commits|))
            && exists i :: 0 <= i < |s.commits| && SameContent(s.commits[i], b)
  {
    var driver := s.drivers[a];
    DriverIsOk(d, s, a);
    var current := driver.current.value;
    var n := Greedy(d.g, Completed(current))[0];
    var k := ChosenIsNext(d, current, n);
    var i := CurrentIsCommitted(d, s, a);
    assert Completed(s.commits[i]) == Completed(current);
    hide Inv, Sound, Greedy, Preds, Home, Away, Snapshot, Completed, StableFailure, AwaitsDecision;
  }

  lemma NewDispatch(commits: seq<Body>, log: seq<Dispatch>, n: Id, b: Body)
    requires exists i :: 0 <= i < |commits| && SameContent(commits[i], b)
    ensures HandedOut(commits, log + [Dispatch(n, |commits|)], n, b)
  {
    hide SameContent;
    var e := Dispatch(n, |commits|);
    assert e in log + [e];
  }

  lemma WorkingOk(d: Definition, s: State, driver: Driver, n: Id)
    requires driver.Active? && DriverOk(d, s, driver) && driver.loc.Ready? && Chosen(d, driver.current.value, n)
    requires HandedOut(s.commits, s.log, n, driver.current.value)
    ensures DriverOk(d, s, driver.(loc := Working(n)))
  {
    hide Home, Away, Sound, Snapshot, Chosen, HandedOut;
  }

  lemma HandOutKeeps(d: Definition, s: State, t: State, a: nat)
    requires Validated(d) && Inv(d, s) && NamesOk(s) && HandOut(d, s, t, a)
    ensures Inv(d, t) && NamesOk(t)
  {
    var driver := s.drivers[a];
    var n := Greedy(d.g, Completed(driver.current.value))[0];
    hide Inv, NamesOk, Validated, Greedy, Preds, DispatchOk, DriverOk, Completed, StableFailure, AwaitsDecision, Chosen, HandedOut;
    hide SameContent, IsCommitted;
    ReadyNode(d, s, a);
    NewDispatch(s.commits, s.log, n, driver.current.value);
    var u := s.(log := t.log);
    LogKeeps(d, s, u, Dispatch(n, |s.commits|));
    DriverIsOk(d, u, a);
    WorkingOk(d, u, driver, n);
    MovesKeeps(d, u, t, a, t.drivers[a]);
    MovesKeepsNames(u, t, a, t.drivers[a]);
  }

  lemma AnswerGood(d: Definition, s: State, t: State, a: nat, w: Work, ref: CheckpointRef)
    requires Validated(d) && Inv(d, s) && Answer(d, s, t, a, w, ref)
    ensures t.drivers[a].Active? && t.drivers[a].loc.Storing?
    ensures var next := t.drivers[a].loc.next;
            Good(d, next) && Follows(s.drivers[a].current.value, next) && !AwaitsDecision(s.drivers[a].current.value)
  {
    var driver := s.drivers[a];
    assert DriverOk(d, s, driver);
    var n, current := driver.loc.node, driver.current.value;
    hide Inv, Validated, Constructible, Home, Away, Snapshot, StableFailure, AwaitsDecision;
    match d.kinds[n] {
      case AgentNode(_) => AgentGood(d, driver.run, current, ref, n, w);
      case EvaluationNode => EvaluationGood(d, driver.run, current, ref, n, w);
      case ApprovalNode => RequestGood(d, driver.run, current, ref, n);
    }
  }

  lemma AnswerShape(d: Definition, s: State, t: State, a: nat, w: Work, ref: CheckpointRef)
    requires Answer(d, s, t, a, w, ref)
    ensures t.drivers[a].Active? && t.drivers[a].loc.Storing?
    ensures var driver, next, after := s.drivers[a], t.drivers[a].loc.next, t.drivers[a].loc.after;
            && Builds(s, t, a, driver.(loc := Storing(next, after)), ref)
            && Constructible(next) && next.ref == ref && Labelled(d, driver.run, next) && AfterOk(driver.run.status, next, after)
            && next.previous == Some(driver.current.value.ref) && next.sequence == driver.current.value.sequence + 1
  {
    hide Constructible;
    var driver := s.drivers[a];
    if d.kinds[driver.loc.node].ApprovalNode? {
      var next := AfterRequest(d, driver.run, driver.current.value, ref, driver.loc.node);
      assert driver.loc.node in next.approvals && next.approvals[driver.loc.node].decision.None?;
    }
  }

  lemma AnswerWorks(d: Definition, s: State, t: State, a: nat, w: Work, ref: CheckpointRef)
    requires Answer(d, s, t, a, w, ref)
    ensures At(s, a) && s.drivers[a].loc.Working? && s.drivers[a].current.Some?
  {
    hide Constructible;
  }

  lemma AnswerKeeps(d: Definition, s: State, t: State, a: nat, w: Work, ref: CheckpointRef)
    requires Validated(d) && Inv(d, s) && NamesOk(s) && Answer(d, s, t, a, w, ref)
    ensures Inv(d, t) && NamesOk(t)
  {
    hide Inv, NamesOk, Answer, Good, Follows, Validated, Constructible, AwaitsDecision, Home, Away, Snapshot, AfterOk, Labelled;
    hide Chosen, IsCommitted;
    AnswerGood(d, s, t, a, w, ref);
    AnswerShape(d, s, t, a, w, ref);
    AnswerWorks(d, s, t, a, w, ref);
    CommitsStored(d, s);
    DriverIsOk(d, s, a);
    var driver := t.drivers[a];
    assert DriverOk(d, s, driver);
    MovesKeeps(d, s, t, a, driver);
    hide DriverOk;
    BuildsKeepsNames(s, t, a, driver, ref);
  }

  // ---------------------------------------------------------------- checking and storing

  lemma CheckPhaseKeeps(d: Definition, s: State, t: State, a: nat)
    requires Inv(d, s) && NamesOk(s) && CheckPhase(s, t, a)
    ensures Inv(d, t) && NamesOk(t)
  {
    hide Inv, NamesOk, NextOk, Home, Away, Sound, GatewayLoad, IsCommitted;
    DriverIsOk(d, s, a);
    assert DriverOk(d, s, t.drivers[a]);
    MovesKeeps(d, s, t, a, t.drivers[a]);
    MovesKeepsNames(s, t, a, t.drivers[a]);
  }

  /** A larger or smaller store that still holds what is committed or about to be. */
  lemma StoreMoves(d: Definition, s: State, t: State)
    requires Inv(d, s) && t == s.(store := t.store) && StoreOk(t.store)
    requires forall i :: 0 <= i < |s.commits| ==> Holds(t.store, s.commits[i])
    requires forall a :: At(s, a) && s.drivers[a].loc.Stored? ==> Holds(t.store, s.drivers[a].loc.next)
    ensures Inv(d, t)
  {
    hide StoreOk, Snapshot, Home, Away, Sound, Holds, Continues, DispatchOk, NextOk, SettleOk, Chosen, Constructible, AfterDecision;
    hide FailOk, HandedOut, ReportOk;
    forall i | 0 <= i < |t.commits| ensures CommitOk(d, t, i) { assert CommitOk(d, s, i); }
    forall b | b in t.drivers ensures DriverOk(d, t, t.drivers[b]) && ReportOk(t.drivers[b]) {
      assert DriverOk(d, s, s.drivers[b]) && ReportOk(s.drivers[b]);
    }
  }

  lemma SaveHolds(store: Store, c: Checkpoint)
    requires StoreOk(store) && Save(store, c).Saved?
    ensures StoreOk(Save(store, c).store) && Holds(Save(store, c).store, c.body)
    ensures forall b :: Holds(store, b) ==> Holds(Save(store, c).store, b)
    ensures Save(store, c).store.checkpoints.Keys == store.checkpoints.Keys + {c.body.ref}
  {
    SaveKeepsIndex(store, c);
    hide Top, KeepsEffects;
  }

  lemma StoreIsOk(d: Definition, s: State)
    requires Inv(d, s)
    ensures StoreOk(s.store)
  {
    hide StoreOk;
  }

  lemma CommitHolds(d: Definition, s: State, i: nat)
    requires Inv(d, s) && i < |s.commits|
    ensures Holds(s.store, s.commits[i])
  {
    assert CommitOk(d, s, i);
    hide Holds, Sound, Continues;
  }

  lemma StoredHolds(d: Definition, s: State, a: nat)
    requires Inv(d, s) && At(s, a) && s.drivers[a].loc.Stored?
    ensures Holds(s.store, s.drivers[a].loc.next)
  {
    DriverIsOk(d, s, a);
    hide Inv, Holds, NextOk, Home, Away, Sound;
  }

  lemma StoreKeepsInv(d: Definition, s: State, u: State, c: Checkpoint)
    requires Inv(d, s) && Save(s.store, c).Saved? && u == s.(store := Save(s.store, c).store)
    ensures Inv(d, u) && Holds(u.store, c.body) && u.store.checkpoints.Keys == s.store.checkpoints.Keys + {c.body.ref}
  {
    hide Inv, Save, StoreOk, Holds;
    StoreIsOk(d, s);
    SaveHolds(s.store, c);
    forall i | 0 <= i < |s.commits| ensures Holds(u.store, s.commits[i]) { CommitHolds(d, s, i); }
    forall b | At(s, b) && s.drivers[b].loc.Stored? ensures Holds(u.store, s.drivers[b].loc.next) { StoredHolds(d, s, b); }
    StoreMoves(d, s, u);
  }

  lemma StoredIsOk(d: Definition, u: State, driver: Driver)
    requires DriverOk(d, u, driver) && driver.Active? && driver.loc.Checked? && Holds(u.store, driver.loc.next)
    ensures DriverOk(d, u, driver.(loc := Stored(driver.loc.next, driver.loc.after)))
  {
    hide NextOk, Home, Away, Sound, Holds, Snapshot;
  }

  lemma StorePhaseKeeps(d: Definition, s: State, t: State, a: nat)
    requires Inv(d, s) && NamesOk(s) && StorePhase(s, t, a)
    ensures Inv(d, t) && NamesOk(t)
  {
    var driver := s.drivers[a];
    var next, after := driver.loc.next, driver.loc.after;
    var u := s.(store := t.store);
    assert t == u.(drivers := u.drivers[a := driver.(loc := Stored(next, after))]);
    hide Inv, NamesOk, Save, DriverOk;
    StoreKeepsInv(d, s, u, Seal(next));
    DriverIsOk(d, u, a);
    StoredIsOk(d, u, driver);
    MovesKeeps(d, u, t, a, t.drivers[a]);
    StoreKeepsNames(s, t, a, next, after);
  }

  lemma DeleteOrphanKeeps(d: Definition, s: State, t: State, r: CheckpointRef)
    requires Inv(d, s) && NamesOk(s) && DeleteOrphan(s, t, r)
    ensures Inv(d, t) && NamesOk(t)
  {
    hide Inv, NamesOk;
    StoreIsOk(d, s);
    RemoveKeepsIndex(s.store, r);
    forall i | 0 <= i < |s.commits| ensures Holds(t.store, s.commits[i]) { CommitHolds(d, s, i); }
    forall b | At(s, b) && s.drivers[b].loc.Stored? ensures Holds(t.store, s.drivers[b].loc.next) { StoredHolds(d, s, b); }
    StoreMoves(d, s, t);
    DeleteKeepsNames(s, t);
  }

  // ---------------------------------------------------------------- the Run moves

  /** A Run that changes without moving its marker. */
  lemma RunMoves(d: Definition, s: State, t: State)
    requires Inv(d, s) && NamesOk(s) && t == s.(run := t.run)
    requires t.run.id == s.run.id && t.run.kind == s.run.kind && t.run.marker == s.run.marker
    requires t.run == s.run || t.run.version > s.run.version
    requires SuccessOk(d, t) && RunOk(t.run) && (t.run.status.Created? ==> s.run.status.Created?)
    ensures Inv(d, t) && NamesOk(t)
  {
    RunKeepsNames(s, t);
    hide NamesOk, StoreOk, LocOk, Home, Away, Sound, Holds, Continues, DispatchOk, ReportOk;
    forall i | 0 <= i < |t.commits| ensures CommitOk(d, t, i) { assert CommitOk(d, s, i); }
    forall b | b in t.drivers ensures DriverOk(d, t, t.drivers[b]) && ReportOk(t.drivers[b]) {
      assert DriverOk(d, s, s.drivers[b]) && ReportOk(s.drivers[b]);
      if s.drivers[b].Active? { LocSame(d, s, t, s.drivers[b]); }
    }
  }

  /** Only complete() makes a Run succeed, and nothing makes it CREATED again. */
  lemma SucceedsByComplete(run: Run, op: Op, expected: nat, now: int)
    requires Apply(run, op, expected, now).Ok? && RunOk(run)
    ensures RunOk(Apply(run, op, expected, now).run)
    ensures Apply(run, op, expected, now).run.status.Succeeded? ==> op.Complete? || run.status.Succeeded?
    ensures Apply(run, op, expected, now).run.status.Created? ==> run.status.Created?
  {
  }

  /** Whoever calls the Run service, at whatever version. */
  lemma OpKeeps(d: Definition, s: State, t: State, op: Op, expected: nat, now: int)
    requires Inv(d, s) && NamesOk(s) && !op.CommitCheckpoint? && !op.Complete?
    requires Apply(s.run, op, expected, now).Ok? && t == s.(run := Apply(s.run, op, expected, now).run)
    ensures Inv(d, t) && NamesOk(t)
  {
    RunIsOk(d, s);
    hide Inv, NamesOk, Apply;
    SucceedsByComplete(s.run, op, expected, now);
    ApplyVersion(s.run, op, expected, now);
    MarkerMovesByCommit(s.run, op, expected, now);
    RunMoves(d, s, t);
  }

  lemma RunIsOk(d: Definition, s: State)
    requires Inv(d, s)
    ensures RunOk(s.run) && SuccessOk(d, s)
  {
  }

  lemma ElsewhereKeeps(d: Definition, s: State, t: State, op: Op, expected: nat, now: int)
    requires Inv(d, s) && NamesOk(s) && Elsewhere(s, t, op, expected, now)
    ensures Inv(d, t) && NamesOk(t)
  {
    hide Inv, NamesOk, Apply;
    OpKeeps(d, s, t, op, expected, now);
  }

  /** An operation at the driver's version that changed the Run found the Run the driver holds. */
  lemma AppliesToOwn(d: Definition, s: State, a: nat, op: Op, now: int)
    requires Inv(d, s) && At(s, a) && Apply(s.run, op, s.drivers[a].run.version, now).Ok?
    requires Apply(s.run, op, s.drivers[a].run.version, now).run != s.run
    ensures s.run == s.drivers[a].run
  {
    assert DriverOk(d, s, s.drivers[a]);
    hide Inv, LocOk, Home, Away, Sound;
    ApplyVersion(s.run, op, s.drivers[a].run.version, now);
  }

  lemma {:induction false} CompletedGrows(d: Definition, s: State, i: nat)
    requires Inv(d, s) && i < |s.commits|
    ensures Completed(s.commits[i]) <= Completed(s.commits[|s.commits| - 1])
  {
    KeptAlong(d, s, i, |s.commits| - 1);
    hide Inv;
  }

  /** A driver that has every node completed works on a copy of a complete commit. */
  lemma SettleSound(d: Definition, s: State, a: nat, now: int)
    requires Inv(d, s) && At(s, a) && s.drivers[a].loc.Settling?
    requires Apply(s.run, s.drivers[a].loc.op, s.drivers[a].run.version, now).Ok?
    ensures Apply(s.run, s.drivers[a].loc.op, s.drivers[a].run.version, now).run.status.Succeeded? ==>
              s.commits != [] && Completed(s.commits[|s.commits| - 1]) == d.g.nodes
  {
    var driver := s.drivers[a];
    assert DriverOk(d, s, driver);
    SucceedsByComplete(s.run, driver.loc.op, driver.run.version, now);
    if driver.loc.op.Complete? && !s.run.status.Succeeded? {
      var i := CurrentIsCommitted(d, s, a);
      assert Completed(s.commits[i]) == d.g.nodes;
      CompletedGrows(d, s, i);
      CommitFacts(d, s, |s.commits| - 1);
      CompletedAreNodes(d, s.commits[|s.commits| - 1]);
    }
  }

  lemma CompletedAreNodes(d: Definition, b: Body)
    requires Good(d, b)
    ensures Completed(b) <= d.g.nodes
  {
    var k: nat :| Stage(d, b, k);
    GreedyElements(d.g, {});
    var order := Greedy(d.g, {});
    hide Greedy;
    forall n | n in Completed(b) ensures n in d.g.nodes {
      assert n in Elements(order[..k]);
      assert n in order[..k];
    }
  }

  lemma SettleNext(d: Definition, s: State, u: State, a: nat, now: int)
    requires Inv(d, s) && At(s, a) && s.drivers[a].loc.Settling? && u.store == s.store && u.commits == s.commits && u.log == s.log
    requires var done := Apply(s.run, s.drivers[a].loc.op, s.drivers[a].run.version, now); done.Ok? && u.run == done.run
    requires s.drivers[a].loc.op.Recover? || s.drivers[a].loc.op == Advance(Running)
    ensures DriverOk(d, u, s.drivers[a].(run := u.run, loc := if s.drivers[a].loc.op.Recover? then Restoring else Ready))
  {
    var driver := s.drivers[a];
    assert DriverOk(d, s, driver);
    ApplyVersion(s.run, driver.loc.op, driver.run.version, now);
    MarkerMovesByCommit(s.run, driver.loc.op, driver.run.version, now);
    SettleFinds(s.run, driver.run, driver.loc.op, now);
    hide Inv, Apply, Sound, HoldsDecision, CopyOf;
  }

  /** Recovering and advancing need the version the driver holds, and recovery ends RECOVERING. */
  lemma SettleFinds(run: Run, own: Run, op: Op, now: int)
    requires (op.Recover? || op == Advance(Running)) && Apply(run, op, own.version, now).Ok? && Snapshot(run, own)
    ensures op.Recover? ==> Apply(run, op, own.version, now).run.status.Recovering?
    ensures !Apply(run, op, own.version, now).run.status.Created?
    ensures run == own
  {
    hide CloseAttempt, OpenAttempt;
  }

  lemma SettleKeeps(d: Definition, s: State, t: State, a: nat, now: int)
    requires Inv(d, s) && NamesOk(s) && Settle(s, t, a, now)
    ensures Inv(d, t) && NamesOk(t)
  {
    var driver := s.drivers[a];
    var op := driver.loc.op;
    var done := Apply(s.run, op, driver.run.version, now);
    if done.Err? {
      hide Inv, NamesOk;
      OffKeeps(d, s, t, a);
    } else {
      var u := s.(run := t.run);
      SettleRun(d, s, u, a, now);
      hide Inv, NamesOk, Apply;
      if op.Recover? || op == Advance(Running) {
        SettleNext(d, s, u, a, now);
        hide DriverOk;
        MovesKeeps(d, u, t, a, t.drivers[a]);
        MovesKeepsNames(u, t, a, t.drivers[a]);
      } else {
        OffKeeps(d, u, t, a);
      }
    }
  }

  lemma SettleRun(d: Definition, s: State, u: State, a: nat, now: int)
    requires Inv(d, s) && NamesOk(s) && At(s, a) && s.drivers[a].loc.Settling?
    requires var done := Apply(s.run, s.drivers[a].loc.op, s.drivers[a].run.version, now); done.Ok? && u == s.(run := done.run)
    ensures Inv(d, u) && NamesOk(u)
  {
    var driver := s.drivers[a];
    var op := driver.loc.op;
    assert !op.CommitCheckpoint? by { assert DriverOk(d, s, driver); }
    SettleSound(d, s, a, now);
    SucceedsByComplete(s.run, op, driver.run.version, now);
    ApplyVersion(s.run, op, driver.run.version, now);
    MarkerMovesByCommit(s.run, op, driver.run.version, now);
    hide Apply, Inv, NamesOk, Completed;
    RunMoves(d, s, u);
  }

  // ---------------------------------------------------------------- the marker moves

  /** A commit that goes through appends directly above the last committed checkpoint. */
  ghost predicate Appends(d: Definition, s: State, next: Body)
  {
    && Sound(d, next) && Holds(s.store, next) && next.run == d.run && next.scope == d.scope && next.sequence == |s.commits| + 1
    && (s.commits != [] ==> next.previous == Some(s.commits[|s.commits| - 1].ref) && Continues(s.commits[|s.commits| - 1], next))
  }

  /** Commit succeeds only on the Run the driver holds. */
  lemma CommitFinds(run: Run, own: Run, ref: CheckpointRef, now: int)
    requires Snapshot(run, own) && own.marker != Some(ref)
    requires Apply(run, CommitCheckpoint(ref, own.marker, None, None), own.version, now).Ok?
    ensures run == own && !Terminal(run.status)
    ensures var done := Apply(run, CommitCheckpoint(ref, own.marker, None, None), own.version, now).run;
            && done.marker == Some(ref) && done.version > run.version && done.status == run.status
            && done.id == run.id && done.kind == run.kind && done.continuation == run.continuation && done.attempt == run.attempt
  {
  }

  lemma OwnMarkerIsOld(d: Definition, s: State, a: nat)
    requires Inv(d, s) && NamesOk(s) && At(s, a) && s.drivers[a].loc.Stored?
    ensures s.drivers[a].run.marker != Some(s.drivers[a].loc.next.ref)
    ensures Home(s.commits, s.drivers[a].run, s.drivers[a].current)
  {
    var driver := s.drivers[a];
    assert DriverOk(d, s, driver) && DraftOk(s, driver);
    hide Inv, Sound, Continues, CopyOf, AwaitsDecision;
    if driver.current.Some? && Home(s.commits, driver.run, driver.current) {
      assert IsCommitted(s.commits, driver.current.value.ref);
    }
  }

  lemma StoredNext(d: Definition, s: State, a: nat)
    requires Inv(d, s) && At(s, a) && s.drivers[a].loc.Stored? && s.run == s.drivers[a].run
    ensures var driver, next := s.drivers[a], s.drivers[a].loc.next;
            && Sound(d, next) && Holds(s.store, next) && next.run == d.run && next.scope == d.scope
            && match driver.current
               case None => next.previous.None? && next.sequence == 1
               case Some(b) => next.previous == Some(b.ref) && next.sequence == b.sequence + 1 && Continues(b, next)
  {
    DriverIsOk(d, s, a);
    hide StoreOk, CommitOk, DispatchOk, DriverOk;
    assert s.run.id == d.run;
    hide Inv, Sound, Continues, Holds, Home, Away;
  }

  lemma AppendsToLast(d: Definition, s: State, current: Option<Body>, next: Body)
    requires Inv(d, s) && Home(s.commits, s.run, current)
    requires Sound(d, next) && Holds(s.store, next) && next.run == d.run && next.scope == d.scope
    requires match current
             case None => next.previous.None? && next.sequence == 1
             case Some(b) => next.previous == Some(b.ref) && next.sequence == b.sequence + 1 && Continues(b, next)
    ensures Appends(d, s, next)
  {
    hide Inv, Sound, Continues, Holds;
    UnmarkedIsEmpty(d, s);
    if current.Some? {
      HomeIsLast(d, s, current.value);
      LastSequence(d, s);
    }
  }

  lemma CommitAppends(d: Definition, s: State, a: nat, now: int)
    requires Inv(d, s) && NamesOk(s) && At(s, a) && s.drivers[a].loc.Stored?
    requires var next, run := s.drivers[a].loc.next, s.drivers[a].run;
             Apply(s.run, CommitCheckpoint(next.ref, run.marker, None, None), run.version, now).Ok?
    ensures s.run == s.drivers[a].run && Appends(d, s, s.drivers[a].loc.next)
  {
    var driver := s.drivers[a];
    assert At(s, a);
    hide *;
    OwnMarkerIsOld(d, s, a);
    StoredIsSound(d, s, a);
    CommitFinds(s.run, driver.run, driver.loc.next.ref, now);
    StoredNext(d, s, a);
    AppendsToLast(d, s, driver.current, driver.loc.next);
  }

  lemma LastSequence(d: Definition, s: State)
    requires Inv(d, s) && s.commits != []
    ensures s.commits[|s.commits| - 1].sequence == |s.commits|
  {
    assert CommitOk(d, s, |s.commits| - 1);
  }

  lemma UnmarkedIsEmpty(d: Definition, s: State)
    requires Inv(d, s)
    ensures s.run.marker.None? <==> s.commits == []
  {
  }

  lemma LongerCommits(d: Definition, commits: seq<Body>, next: Body, e: Dispatch)
    requires DispatchOk(d, commits, e)
    ensures DispatchOk(d, commits + [next], e)
  {
    var i :| 0 <= i < e.upTo && Preds(d.g, e.node) <= Completed(commits[i]);
    assert (commits + [next])[i] == commits[i];
  }

  lemma LongerHome(commits: seq<Body>, next: Body, run: Run, current: Option<Body>)
    ensures Home(commits, run, current) ==> Home(commits + [next], run, current)
    ensures Away(commits, run, current) ==> Away(commits + [next], run, current)
  {
    hide AwaitsDecision, SameContent;
    if Away(commits, run, current) {
      var base :| base in commits && SameContent(base, current.value);
      assert base in commits + [next];
    }
  }

  /** Other drivers now hold an older Run; what they continue from stays committed. */
  lemma LongerSettle(d: Definition, commits: seq<Body>, next: Body, run: Run, b: Body, op: Op)
    requires SettleOk(d, commits, run, b, op)
    ensures SettleOk(d, commits + [next], run, b, op)
  {
    LongerHome(commits, next, run, Some(b));
    hide Home, HoldsDecision, AwaitsDecision, Completed;
  }

  lemma OthersStay(d: Definition, s: State, t: State, next: Body, driver: Driver)
    requires DriverOk(d, s, driver) && t.commits == s.commits + [next] && t.store == s.store && t.log == s.log
    requires t.run.id == s.run.id && t.run.version > s.run.version
    ensures DriverOk(d, t, driver)
  {
    if driver.Active? {
      hide Sound, Holds, Chosen, NextOk, Home, Away, Constructible, AfterDecision, SettleOk, FailOk, HandedOut;
      LongerHome(s.commits, next, driver.run, driver.current);
      assert s.commits <= t.commits;
      match driver.loc {
        case Working(n) => HandedOutStays(s.commits, s.log, t.commits, t.log, n, driver.current.value);
        case Failing(op, failed) => FailStays(d, s.commits, s.log, t.commits, t.log, driver.current.value, op, failed);
        case Ending(op, failed, _) => FailStays(d, s.commits, s.log, t.commits, t.log, driver.current.value, op, failed);
        case Settling(op) => LongerSettle(d, s.commits, next, driver.run, driver.current.value, op);
        case _ =>
      }
    }
  }

  lemma ContinueOk(d: Definition, t: State, next: Body, after: After)
    requires t.run.marker == Some(next.ref) && next in t.commits && Sound(d, next) && AfterOk(t.run.status, next, after)
    requires t.run.attempt >= 1 && !t.run.status.Created?
    ensures DriverOk(d, t, Continue(t.run, next, after))
  {
    hide Sound, HoldsDecision, AwaitsDecision;
  }

  lemma CommitsExtended(d: Definition, s: State, t: State, next: Body)
    requires Inv(d, s) && Appends(d, s, next) && t.commits == s.commits + [next] && t.store == s.store
    ensures forall i :: 0 <= i < |t.commits| ==> CommitOk(d, t, i)
  {
    hide Sound, Continues, Holds;
    forall i | 0 <= i < |t.commits| ensures CommitOk(d, t, i) { assert i < |s.commits| ==> CommitOk(d, s, i); }
  }

  lemma CommitKeepsInv(d: Definition, s: State, t: State, a: nat, next: Body, driver: Driver)
    requires Inv(d, s) && At(s, a) && Appends(d, s, next) && !s.run.status.Succeeded?
    requires t == s.(run := t.run, commits := s.commits + [next], drivers := s.drivers[a := driver])
    requires t.run.marker == Some(next.ref) && t.run.version > s.run.version && t.run.status == s.run.status
    requires t.run.id == s.run.id && t.run.kind == s.run.kind && t.run.continuation == s.run.continuation
    requires t.run.attempt == s.run.attempt && !s.run.status.Created?
    requires DriverOk(d, t, driver) && ReportOk(driver)
    ensures Inv(d, t)
  {
    CommitsExtended(d, s, t, next);
    hide Appends, StoreOk, CommitOk, DispatchOk, ReportOk;
    forall b | b in t.drivers ensures DriverOk(d, t, t.drivers[b]) && ReportOk(t.drivers[b]) {
      if b != a {
        assert DriverOk(d, s, s.drivers[b]) && ReportOk(s.drivers[b]);
        hide DriverOk;
        OthersStay(d, s, t, next, s.drivers[b]);
      }
    }
    forall i | 0 <= i < |t.log| ensures DispatchOk(d, t.commits, t.log[i]) { LongerCommits(d, s.commits, next, s.log[i]); }
  }

  lemma StoredIsSound(d: Definition, s: State, a: nat)
    requires Inv(d, s) && At(s, a) && s.drivers[a].loc.Stored?
    ensures AfterOk(s.drivers[a].run.status, s.drivers[a].loc.next, s.drivers[a].loc.after) && Sound(d, s.drivers[a].loc.next)
    ensures Snapshot(s.run, s.drivers[a].run) && s.drivers[a].run.attempt >= 1 && !s.drivers[a].run.status.Created?
  {
    DriverIsOk(d, s, a);
    hide Inv, Sound, AfterOk, Home, Away;
  }

  lemma CommittedKeeps(d: Definition, s: State, t: State, a: nat, now: int)
    requires Inv(d, s) && NamesOk(s) && At(s, a) && s.drivers[a].loc.Stored?
    requires var driver := s.drivers[a];
             var next := driver.loc.next;
             var done := Apply(s.run, CommitCheckpoint(next.ref, driver.run.marker, None, None), driver.run.version, now);
             && done.Ok?
             && t == s.(run := done.run, commits := s.commits + [next],
                        drivers := s.drivers[a := Continue(done.run, next, driver.loc.after)])
    ensures Inv(d, t) && NamesOk(t)
  {
    var driver := s.drivers[a];
    var next, after := driver.loc.next, driver.loc.after;
    assert At(s, a);
    hide *;
    StoredIsSound(d, s, a);
    CommitAppends(d, s, a, now);
    OwnMarkerIsOld(d, s, a);
    CommitFinds(s.run, driver.run, next.ref, now);
    assert next in t.commits;
    ContinueOk(d, t, next, after);
    ContinueNames(t.run, next, after);
    NotSucceeded(s.run);
    CommitKeepsInv(d, s, t, a, next, t.drivers[a]);
    CommitKeepsNames(s, t, a, next, t.drivers[a]);
  }

  lemma NotSucceeded(run: Run)
    requires !Terminal(run.status)
    ensures !run.status.Succeeded?
  {
  }

  lemma ContinueNames(run: Run, next: Body, after: After)
    ensures Draft(Continue(run, next, after)) == {} && Known(Continue(run, next, after)) <= {next.ref}
    ensures ReportOk(Continue(run, next, after))
  {
  }

  lemma CommitPhaseKeeps(d: Definition, s: State, t: State, a: nat, now: int)
    requires Inv(d, s) && NamesOk(s) && CommitPhase(s, t, a, now)
    ensures Inv(d, t) && NamesOk(t)
  {
    hide Inv, NamesOk, Apply;
    var driver := s.drivers[a];
    var done := Apply(s.run, CommitCheckpoint(driver.loc.next.ref, driver.run.marker, None, None), driver.run.version, now);
    if done.Err? { OffKeeps(d, s, t, a); } else { CommittedKeeps(d, s, t, a, now); }
  }

  // ---------------------------------------------------------------- whole executions

  lemma DoesKeeps(d: Definition, s: State, t: State, action: Action)
    requires Validated(d) && Inv(d, s) && NamesOk(s) && Does(d, s, t, action)
    ensures Inv(d, t) && NamesOk(t)
  {
    hide Inv, NamesOk, Validated, Launch, PickUp, RecoverBegin, DecideBegin, DecideAgain, Park, HandOut, Finished, Answer;
    hide CheckPhase, StorePhase, CommitPhase, Settle, Elsewhere, DeleteOrphan, Begin, StartPhase, Restored, RestoreFails;
    hide FailsStably, Stalls, AgentFails, ReadLatest, EndRun, Report, ReportEnds;
    match action
    case ABegin(a) => BeginKeeps(d, s, t, a);
    case AStart(a, now) => StartKeeps(d, s, t, a, now);
    case ALaunch(a, ref) => LaunchKeeps(d, s, t, a, ref);
    case APickUp(a) => PickUpKeeps(d, s, t, a);
    case ARecover(a) => RecoverBeginKeeps(d, s, t, a);
    case ARestored(a) => RestoredKeeps(d, s, t, a);
    case ARestoreFails(a, detail) => RestoreFailsKeeps(d, s, t, a, detail);
    case AFailsStably(a, op) => FailsStablyKeeps(d, s, t, a, op);
    case AStalls(a, op) => StallsNever(d, s, t, a, op);
    case AAgentFails(a, op) => AgentFailsKeeps(d, s, t, a, op);
    case AReadLatest(a) => ReadLatestKeeps(d, s, t, a);
    case AEnd(a, now) => EndRunKeeps(d, s, t, a, now);
    case AReport(a, op, cause) => ReportKeeps(d, s, t, a, op, cause);
    case AReportEnds(a, now) => ReportEndsKeeps(d, s, t, a, now);
    case ADecide(a, n, decision, ref) => DecideBeginKeeps(d, s, t, a, n, decision, ref);
    case ADecideAgain(a) => DecideAgainKeeps(d, s, t, a);
    case APark(a) => ParkKeeps(d, s, t, a);
    case AHandOut(a) => HandOutKeeps(d, s, t, a);
    case AFinished(a) => FinishedKeeps(d, s, t, a);
    case AAnswer(a, w, ref) => AnswerKeeps(d, s, t, a, w, ref);
    case ACheck(a) => CheckPhaseKeeps(d, s, t, a);
    case AStore(a) => StorePhaseKeeps(d, s, t, a);
    case ACommit(a, now) => CommitPhaseKeeps(d, s, t, a, now);
    case ASettle(a, now) => SettleKeeps(d, s, t, a, now);
    case AElsewhere(op, expected, now) => ElsewhereKeeps(d, s, t, op, expected, now);
    case ACrash(a) => OffKeeps(d, s, t, a);
    case ADelete(r) => DeleteOrphanKeeps(d, s, t, r);
  }

  lemma RunStates(d: Definition, states: seq<State>, actions: seq<Action>)
    requires IsRun(d, states, actions)
    ensures |states| == |actions| + 1
  {
    hide Does, Init;
  }

  lemma RunStep(d: Definition, states: seq<State>, actions: seq<Action>, i: nat)
    requires IsRun(d, states, actions) && i < |actions|
    ensures |states| == |actions| + 1 && Does(d, states[i], states[i + 1], actions[i])
  {
    hide Does, Init;
  }

  lemma InitOk(d: Definition, s: State)
    requires Init(d, s)
    ensures Inv(d, s) && NamesOk(s)
  {
  }

  lemma {:induction false} RunKeepsInv(d: Definition, states: seq<State>, actions: seq<Action>, k: nat)
    requires Validated(d) && IsRun(d, states, actions) && k < |states|
    ensures Inv(d, states[k]) && NamesOk(states[k])
  {
    hide Inv, NamesOk, Validated, Does, Init;
    if k == 0 {
      InitOk(d, states[0]);
    } else {
      RunKeepsInv(d, states, actions, k - 1);
      RunStep(d, states, actions, k - 1);
      DoesKeeps(d, states[k - 1], states[k], actions[k - 1]);
    }
  }
}
