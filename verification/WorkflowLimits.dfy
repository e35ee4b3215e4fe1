/** Exactly when a driver can request an approval, begin a save and store its checkpoint. */
module WorkflowLimits {
  import opened Wrappers
  import opened Order
  import opened Graph
  import opened RunMachine
  import opened Checkpoints
  import opened CheckpointStore
  import opened Coordinator
  import opened Workflow
  import opened WorkflowContent
  import opened WorkflowInvariant
  import opened WorkflowSteps

  // ---------------------------------------------------------------- beginning a save

  lemma StoringFacts(d: Definition, s: State, a: nat)
    requires Inv(d, s) && At(s, a) && (s.drivers[a].loc.Storing? || s.drivers[a].loc.Checked?)
    ensures var driver := s.drivers[a];
            && Snapshot(s.run, driver.run)
            && (Home(s.commits, driver.run, driver.current) || Away(s.commits, driver.run, driver.current))
            && NextOk(d, driver.run, driver.current, driver.loc.next, driver.loc.after)
            && (driver.loc.Checked? ==> driver.loc.next.previous == driver.run.marker)
  {
    DriverIsOk(d, s, a);
    hide Inv, Sound, Home, Away, NextOk, Snapshot;
  }

  lemma RunFacts(d: Definition, s: State)
    requires Inv(d, s)
    ensures s.run.kind.Workflow? && s.run.id == d.run && Indexed(s.store)
    ensures s.commits == [] <==> s.run.marker.None?
  {
  }

  lemma CommitStored(d: Definition, s: State, i: nat)
    requires Inv(d, s) && i < |s.commits|
    ensures var b := s.commits[i];
            && b.ref in s.store.checkpoints && s.store.checkpoints[b.ref] == Seal(b) && b.run == d.run && b.scope == d.scope
            && b.sequence == i + 1
  {
    assert CommitOk(d, s, i);
    hide Sound, Continues;
  }

  lemma LastIsLoaded(d: Definition, s: State)
    requires Inv(d, s) && s.commits != []
    ensures var b := s.commits[|s.commits| - 1];
            s.run.marker == Some(b.ref) && GatewayLoad(s.store, b.ref, s.run.id, d.scope) == Done(Seal(b)) && b.sequence == |s.commits|
  {
    CommitStored(d, s, |s.commits| - 1);
  }

  lemma ChecksPass(d: Definition, s: State, a: nat)
    requires Inv(d, s) && At(s, a) && s.drivers[a].loc.Storing? && s.run == s.drivers[a].run && !Terminal(s.run.status)
    requires Home(s.commits, s.run, s.drivers[a].current)
    ensures PassesChecks(s.store, s.run, Seal(s.drivers[a].loc.next), s.run.version)
  {
    var driver := s.drivers[a];
    var next := driver.loc.next;
    hide Inv, Sound, Continues, AfterOk, Away, GatewayLoad;
    StoringFacts(d, s, a);
    RunFacts(d, s);
    if driver.current.Some? {
      hide Home;
      HomeIsLast(d, s, driver.current.value);
      LastIsLoaded(d, s);
    }
  }

  /** A save gets past its checks if and only if the Run is the one the driver read and not
      terminal, and the driver continues from the committed checkpoint. A driver that went on from a
      repeated decision does not, so nothing it does is ever stored. */
  lemma SaveBeginsExactly(d: Definition, s: State, a: nat)
    requires Inv(d, s) && At(s, a) && s.drivers[a].loc.Storing?
    ensures var driver := s.drivers[a];
            PassesChecks(s.store, s.run, Seal(driver.loc.next), driver.run.version) <==>
              s.run == driver.run && !Terminal(s.run.status) && Home(s.commits, s.run, driver.current)
  {
    var driver := s.drivers[a];
    StoringFacts(d, s, a);
    if PassesChecks(s.store, s.run, Seal(driver.loc.next), driver.run.version) {
      hide Inv, Sound, Continues, AfterOk, GatewayLoad, CopyOf, AwaitsDecision;
    } else {
      hide Inv, Home, NextOk, PassesChecks;
      if s.run == driver.run && !Terminal(s.run.status) && Home(s.commits, s.run, driver.current) { ChecksPass(d, s, a); }
    }
  }

  // ---------------------------------------------------------------- storing

  /** No checkpoint of the Run is stored with this sequence or a higher one. */
  ghost predicate NothingFrom(store: Store, run: RunId, sequence: nat)
  {
    forall r :: r in store.checkpoints && store.checkpoints[r].body.run == run ==> store.checkpoints[r].body.sequence < sequence
  }

  lemma DraftIsNew(s: State, a: nat)
    requires NamesOk(s) && At(s, a) && (s.drivers[a].loc.Storing? || s.drivers[a].loc.Checked?)
    ensures s.drivers[a].loc.next.ref !in s.store.checkpoints
  {
    assert DraftOk(s, s.drivers[a]);
    assert s.drivers[a].loc.next.ref in Unsaved(s.drivers[a]);
  }

  lemma FollowsKeepsEffects(b: Body, next: Body)
    requires Continues(b, next)
    ensures KeepsEffects(Seal(b), Seal(next))
  {
  }

  lemma IndexedSequences(store: Store, r: CheckpointRef)
    requires Indexed(store) && r in store.checkpoints
    ensures store.checkpoints[r].body.sequence >= 1
  {
  }

  /** Whatever happened since the checks, a driver's checkpoint is stored if and only if no
      checkpoint of the Run is stored at its sequence or above: an orphan of a crashed attempt, or a
      checkpoint of another driver, blocks it. */
  lemma StoredExactly(d: Definition, s: State, a: nat)
    requires Inv(d, s) && NamesOk(s) && At(s, a)
    requires s.drivers[a].loc.Checked? || (s.drivers[a].loc.Storing? && Home(s.commits, s.drivers[a].run, s.drivers[a].current))
    ensures Save(s.store, Seal(s.drivers[a].loc.next)).Saved? <==> NothingFrom(s.store, d.run, s.drivers[a].loc.next.sequence)
  {
    var driver := s.drivers[a];
    var next := driver.loc.next;
    hide Inv, NamesOk, Sound, Continues, AfterOk, Save, AwaitsDecision, CopyOf;
    StoringFacts(d, s, a);
    RunFacts(d, s);
    DraftIsNew(s, a);
    assert next.run == d.run;
    match driver.current {
      case None =>
        FirstStoredExactly(s.store, Seal(next));
        forall r | r in s.store.checkpoints ensures s.store.checkpoints[r].body.sequence >= 1 { IndexedSequences(s.store, r); }
      case Some(b) =>
        var i :| 0 <= i < |s.commits| && s.commits[i] == b;
        CommitStored(d, s, i);
        FollowsKeepsEffects(b, next);
        SaveAcceptedExactly(s.store, Seal(next), Seal(b));
    }
  }

  /** A successor of the marker is admissible if and only if its driver holds the Run as it is, the
      Run is not terminal, the driver continues from the committed checkpoint, and nothing of the
      Run is stored above it. */
  lemma SuccessorAdmissibleExactly(d: Definition, s: State, a: nat)
    requires Inv(d, s) && NamesOk(s) && At(s, a) && s.drivers[a].loc.Storing?
    ensures var driver := s.drivers[a];
            Admissible(s.store, s.run, Seal(driver.loc.next), driver.run.version) <==>
              && s.run == driver.run && !Terminal(s.run.status) && Home(s.commits, s.run, driver.current)
              && NothingFrom(s.store, d.run, |s.commits| + 1)
  {
    var driver := s.drivers[a];
    SaveBeginsExactly(d, s, a);
    if s.run == driver.run && Home(s.commits, s.run, driver.current) {
      StoredExactly(d, s, a);
      NextSequence(d, s, a);
    }
  }

  lemma NextSequence(d: Definition, s: State, a: nat)
    requires Inv(d, s) && At(s, a) && s.drivers[a].loc.Storing? && s.run == s.drivers[a].run
    requires Home(s.commits, s.run, s.drivers[a].current)
    ensures s.drivers[a].loc.next.sequence == |s.commits| + 1
  {
    var driver := s.drivers[a];
    hide Inv, Sound, Continues, AfterOk, Away;
    StoringFacts(d, s, a);
    RunFacts(d, s);
    if driver.current.Some? {
      HomeIsLast(d, s, driver.current.value);
      LastSequence(d, s);
    }
  }

  /** A checkpoint stored by an attempt that crashed before its commit: the next attempt cannot
      commit it, and while it is stored no other checkpoint of the Run can follow the marker. */
  lemma OrphanBlocks(s: Store, run: Run, orphan: Checkpoint, c: Checkpoint, expected: nat)
    requires Indexed(s) && orphan.body.ref in s.checkpoints && s.checkpoints[orphan.body.ref] == orphan
    requires orphan.body.run == run.id && orphan.body.attempt != run.attempt
    requires match run.marker
             case None => true
             case Some(m) => m in s.checkpoints && s.checkpoints[m].body.sequence < orphan.body.sequence
    ensures !Admissible(s, run, orphan, expected)
    ensures c.body.ref !in s.checkpoints ==> !Admissible(s, run, c, expected)
  {
    assert KeyOf(orphan) in s.sequences;
  }

  // ---------------------------------------------------------------- after a refusal

  lemma RefusedIsChosen(d: Definition, b: Body, m: Id, n: Id)
    requires Validated(d) && Good(d, b) && Chosen(d, b, n) && m in b.approvals && b.approvals[m].decision != Some(Approved)
    ensures m == n
  {
    OpenOrRefused(d, b, m);
    var k := ChosenIsNext(d, b, n);
    assert m !in Completed(b);
  }

  lemma RefusedWhere(b: Body) returns (m: Id)
    requires Refused(b)
    ensures m in b.approvals && b.approvals[m].decision.Some? && b.approvals[m].decision != Some(Approved)
  {
    if HoldsDecision(b, Rejected) {
      m :| m in b.approvals && b.approvals[m].decision == Some(Rejected);
    } else {
      m :| m in b.approvals && b.approvals[m].decision == Some(Withdrawn);
    }
  }

  lemma WorkingFacts(d: Definition, s: State, a: nat)
    requires Inv(d, s) && At(s, a) && s.drivers[a].loc.Working?
    ensures s.drivers[a].current.Some? && s.drivers[a].run.attempt >= 1
    ensures Sound(d, s.drivers[a].current.value) && Chosen(d, s.drivers[a].current.value, s.drivers[a].loc.node)
  {
    DriverIsOk(d, s, a);
    hide Inv, Sound, Chosen, Home, Away;
  }

  /** The chosen approval is on record exactly when the checkpoint holds a refusal. */
  lemma RefusedExactly(d: Definition, b: Body, n: Id)
    requires Validated(d) && Good(d, b) && Chosen(d, b, n) && n in d.kinds && d.kinds[n].ApprovalNode?
    ensures n in b.approvals <==> Refused(b)
  {
    if Refused(b) {
      var m := RefusedWhere(b);
      RefusedIsChosen(d, b, m, n);
    }
    if n in b.approvals {
      assert b.approvals[n].decision.Some?;
      ChosenIsIncomplete(d, b, n);
      assert NodeOk(d, b, n);
      assert HoldsDecision(b, b.approvals[n].decision.value);
    }
  }

  lemma ChosenIsIncomplete(d: Definition, b: Body, n: Id)
    requires Validated(d) && Good(d, b) && Chosen(d, b, n)
    ensures n in d.g.nodes && n !in Completed(b) && n in d.kinds
  {
    var k := ChosenIsNext(d, b, n);
  }

  lemma ChosenIsNew(d: Definition, b: Body, n: Id)
    requires Validated(d) && Good(d, b) && Chosen(d, b, n) && n !in b.approvals && n in d.kinds && d.kinds[n].ApprovalNode?
    ensures b.states.Keys == Completed(b) && n !in b.states
  {
    var k := ChosenIsNext(d, b, n);
  }

  lemma RequestConstructible(d: Definition, run: Run, b: Body, ref: CheckpointRef, n: Id)
    requires Validated(d) && Sound(d, b) && Chosen(d, b, n) && n !in b.approvals && n in d.kinds && d.kinds[n].ApprovalNode? && run.attempt >= 1
    ensures Constructible(AfterRequest(d, run, b, ref, n))
  {
    ChosenIsNew(d, b, n);
    hide Chosen, Validated, Good, Completed;
  }

  /** The chosen approval node can be requested if and only if the Run is RUNNING and the
      checkpoint holds no refusal. */
  lemma RequestedExactly(d: Definition, s: State, a: nat, ref: CheckpointRef)
    requires Validated(d) && Inv(d, s) && At(s, a) && s.drivers[a].loc.Working?
    requires s.drivers[a].loc.node in d.kinds && d.kinds[s.drivers[a].loc.node].ApprovalNode?
    requires ref !in s.names
    ensures s.drivers[a].current.Some?
    ensures (exists t, w :: Answer(d, s, t, a, w, ref)) <==> s.run.status.Running? && !Refused(s.drivers[a].current.value)
  {
    var driver := s.drivers[a];
    var n, current := driver.loc.node, driver.current.value;
    WorkingFacts(d, s, a);
    RefusedExactly(d, current, n);
    hide Inv, Validated, Chosen, Good, Refused;
    if s.run.status.Running? && n !in current.approvals {
      var next := AfterRequest(d, driver.run, current, ref, n);
      RequestConstructible(d, driver.run, current, ref, n);
      var t := s.(drivers := s.drivers[a := driver.(loc := Storing(next, Wait))], names := s.names + {ref});
      hide Constructible;
      assert Answer(d, s, t, a, AgentDone(0, 0, 0), ref);
    }
  }
}
