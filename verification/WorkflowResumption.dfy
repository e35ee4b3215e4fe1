/** What can still become of an interrupted execution, whoever was at work on it and whatever a crash
    left behind. */
module WorkflowResumption {
  import opened Wrappers
  import opened Order
  import opened Graph
  import opened RunMachine
  import opened Checkpoints
  import opened CheckpointStore
  import opened Coordinator
  import opened Workflow
  import opened WorkflowContent
  import opened WorkflowInvariant
  import opened WorkflowSteps
  import opened WorkflowLimits
  import opened WorkflowFinals
  import opened WorkflowProgress
  import opened WorkflowCompletion

  function LastCommit(s: State): Body
    requires s.commits != []
  {
    s.commits[|s.commits| - 1]
  }

  // ---------------------------------------------------------------- everybody stops

  function Awake(s: State): set<nat> { set a | a in s.drivers && !s.drivers[a].Off? }

  /** Nobody is at work any more, and nothing else has changed. */
  ghost predicate Stopped(s: State, t: State)
  {
    t == s.(drivers := t.drivers) && t.drivers.Keys == s.drivers.Keys && forall a :: a in t.drivers ==> t.drivers[a].Off?
  }

  lemma CrashDoes(d: Definition, s: State, t: State, a: nat)
    requires a in s.drivers && t == s.(drivers := s.drivers[a := Off])
    ensures Does(d, s, t, ACrash(a)) && Awake(t) == Awake(s) - {a}
    ensures forall u :: Stopped(t, u) ==> Stopped(s, u)
  {
  }

  lemma {:induction false} AllStop(d: Definition, states: seq<State>, actions: seq<Action>)
    returns (longer: seq<State>, more: seq<Action>)
    requires IsRun(d, states, actions) && states != []
    ensures Goes(d, states, actions, longer, more) && IsRun(d, longer, more) && longer != []
    ensures Stopped(Last(states), Last(longer))
    decreases Awake(Last(states))
  {
    var s := Last(states);
    if a :| a in Awake(s) {
      var t := s.(drivers := s.drivers[a := Off]);
      CrashDoes(d, s, t, a);
      hide IsRun, Does, Goes, Stopped, Awake;
      var mid, done := Step(d, states, actions, t, ACrash(a));
      longer, more := AllStop(d, mid, done);
      GoesOn(d, states, actions, mid, done, longer, more);
    } else {
      forall a | a in s.drivers ensures s.drivers[a].Off? { assert a !in Awake(s); }
      hide IsRun;
      GoesNowhere(d, states, actions);
      longer, more := states, actions;
    }
  }

  // ---------------------------------------------------------------- orphans are deleted

  /** What is stored for the Run above its committed checkpoints. */
  function Orphans(d: Definition, s: State): set<CheckpointRef>
  {
    set r | r in s.store.checkpoints && s.store.checkpoints[r].body.run == d.run && s.store.checkpoints[r].body.sequence > |s.commits|
  }

  ghost predicate NobodyWorks(s: State) { forall a :: a in s.drivers ==> s.drivers[a].Off? }

  lemma OrphanIsNoCommit(d: Definition, s: State, r: CheckpointRef)
    requires Inv(d, s) && r in Orphans(d, s)
    ensures forall i :: 0 <= i < |s.commits| ==> s.commits[i].ref != r
  {
    forall i | 0 <= i < |s.commits| ensures s.commits[i].ref != r { CommitStored(d, s, i); }
  }

  lemma DeleteDoes(d: Definition, s: State, t: State, r: CheckpointRef)
    requires NobodyWorks(s) && r in Orphans(d, s) && (forall i :: 0 <= i < |s.commits| ==> s.commits[i].ref != r)
    requires t == s.(store := Remove(s.store, r))
    ensures Does(d, s, t, ADelete(r)) && NobodyWorks(t) && Orphans(d, t) == Orphans(d, s) - {r}
  {
  }

  lemma {:induction false} AllDeleted(d: Definition, states: seq<State>, actions: seq<Action>)
    returns (longer: seq<State>, more: seq<Action>)
    requires Validated(d) && IsRun(d, states, actions) && states != [] && NobodyWorks(Last(states))
    ensures Goes(d, states, actions, longer, more) && IsRun(d, longer, more) && longer != []
    ensures var s, t := Last(states), Last(longer);
            t == s.(store := t.store) && NothingFrom(t.store, d.run, |t.commits| + 1)
    decreases Orphans(d, Last(states))
  {
    var s := Last(states);
    if r :| r in Orphans(d, s) {
      var t := s.(store := Remove(s.store, r));
      RunStates(d, states, actions);
      RunKeepsInv(d, states, actions, |states| - 1);
      OrphanIsNoCommit(d, s, r);
      DeleteDoes(d, s, t, r);
      hide IsRun, Does, Goes, Inv, NamesOk, NobodyWorks, NothingFrom, Orphans, Remove, Validated;
      var mid, done := Step(d, states, actions, t, ADelete(r));
      longer, more := AllDeleted(d, mid, done);
      GoesOn(d, states, actions, mid, done, longer, more);
    } else {
      forall r | r in s.store.checkpoints && s.store.checkpoints[r].body.run == d.run
        ensures s.store.checkpoints[r].body.sequence < |s.commits| + 1
      {
        assert r !in Orphans(d, s);
      }
      hide IsRun, Validated;
      GoesNowhere(d, states, actions);
      longer, more := states, actions;
    }
  }

  // ---------------------------------------------------------------- recovery

  lemma RecoverMakes(run: Run, source: CheckpointRef, now: int)
    requires !Terminal(run.status) && !run.status.Created? && !run.status.Recovering?
    ensures var done := Apply(run, Recover(Some(source)), run.version, now);
            done.Ok? && done.run.status.Recovering? && done.run.marker == run.marker
  {
    hide CloseAttempt, OpenAttempt;
  }

  lemma RunningMakes(run: Run, now: int)
    requires run.status.Recovering?
    ensures var done := Apply(run, Advance(Running), run.version, now);
            done.Ok? && done.run.status.Running? && done.run.marker == run.marker
  {
    hide CloseAttempt, OpenAttempt;
  }

  lemma RecoverReads(d: Definition, s: State, t: State, a: nat)
    requires Inv(d, s) && IsOff(s, a) && s.commits != [] && !Terminal(s.run.status)
    requires t == s.(drivers := s.drivers[a := Active(s.run, Some(LastCommit(s)), Settling(Recover(Some(LastCommit(s).ref))))])
    ensures Does(d, s, t, ARecover(a)) && !s.run.status.Created?
  {
    LastIsLoaded(d, s);
    assert !s.run.status.Created?;
    hide Inv, GatewayLoad;
  }

  /** A call that the Run service accepts. */
  lemma SettleIs(d: Definition, s: State, a: nat, op: Op, run: Run, loc: Loc, now: int)
    requires At(s, a) && s.drivers[a].loc == Settling(op) && Apply(s.run, op, s.drivers[a].run.version, now) == Ok(run)
    requires (op.Recover? && loc == Restoring) || (op == Advance(Running) && loc == Workflow.Ready)
    ensures Does(d, s, s.(run := run, drivers := s.drivers[a := s.drivers[a].(run := run, loc := loc)]), ASettle(a, now))
  {
    hide Apply;
    assert Settle(s, s.(run := run, drivers := s.drivers[a := s.drivers[a].(run := run, loc := loc)]), a, now);
  }

  /** The driver continues from the committed checkpoint of the RUNNING Run; all else is as before. */
  ghost predicate TakesOver(s: State, t: State, a: nat)
    requires s.commits != []
  {
    && t.store == s.store && t.commits == s.commits && t.log == s.log && t.run.status.Running? && t.run.marker == s.run.marker
    && a in t.drivers && t.drivers[a] == Active(t.run, Some(LastCommit(s)), Workflow.Ready)
  }

  lemma RestoredDoes(d: Definition, s: State, run: Run, b: Body, a: nat)
    requires a in s.drivers
    ensures var u, t := s.(run := run, drivers := s.drivers[a := Active(run, Some(b), Restoring)]),
                        s.(run := run, drivers := s.drivers[a := Active(run, Some(b), Settling(Advance(Running)))]);
            Does(d, u, t, ARestored(a))
  {
  }

  /** The two calls of a recovery on the Run. */
  lemma RecoveryRuns(run: Run, source: CheckpointRef, now: int) returns (recovering: Run, running: Run)
    requires !Terminal(run.status) && !run.status.Created? && !run.status.Recovering?
    ensures Apply(run, Recover(Some(source)), run.version, now) == Ok(recovering)
    ensures Apply(recovering, Advance(Running), recovering.version, now) == Ok(running)
    ensures recovering.status.Recovering? && running.status.Running? && running.marker == run.marker
  {
    RecoverMakes(run, source, now);
    recovering := Apply(run, Recover(Some(source)), run.version, now).run;
    RunningMakes(recovering, now);
    running := Apply(recovering, Advance(Running), recovering.version, now).run;
  }

  /** A driver at the given place, with the Run as it then is. */
  function Placed(s: State, a: nat, run: Run, b: Body, loc: Loc): State
  {
    s.(run := run, drivers := s.drivers[a := Active(run, Some(b), loc)])
  }

  lemma RecoverySteps(d: Definition, s: State, a: nat, b: Body, recovering: Run, running: Run, now: int)
    requires a in s.drivers && Apply(s.run, Recover(Some(b.ref)), s.run.version, now) == Ok(recovering)
    requires Apply(recovering, Advance(Running), recovering.version, now) == Ok(running)
    ensures var s0, s1 := Placed(s, a, s.run, b, Settling(Recover(Some(b.ref)))), Placed(s, a, recovering, b, Restoring);
            var s2, s3 := Placed(s, a, recovering, b, Settling(Advance(Running))), Placed(s, a, running, b, Workflow.Ready);
            Does(d, s0, s1, ASettle(a, now)) && Does(d, s1, s2, ARestored(a)) && Does(d, s2, s3, ASettle(a, now))
  {
    var s0, s1 := Placed(s, a, s.run, b, Settling(Recover(Some(b.ref)))), Placed(s, a, recovering, b, Restoring);
    var s2, s3 := Placed(s, a, recovering, b, Settling(Advance(Running))), Placed(s, a, running, b, Workflow.Ready);
    hide Apply, Does;
    SettleIs(d, s0, a, Recover(Some(b.ref)), recovering, Restoring, now);
    assert s1 == s0.(run := recovering, drivers := s0.drivers[a := s0.drivers[a].(run := recovering, loc := Restoring)]);
    RestoredDoes(d, s, recovering, b, a);
    SettleIs(d, s2, a, Advance(Running), running, Workflow.Ready, now);
    assert s3 == s2.(run := running, drivers := s2.drivers[a := s2.drivers[a].(run := running, loc := Workflow.Ready)]);
  }

  /** recover takes any started Run that has a checkpoint and is not yet RECOVERING back to RUNNING. */
  lemma RecoveryReturns(d: Definition, states: seq<State>, actions: seq<Action>, a: nat, now: int)
    returns (longer: seq<State>, more: seq<Action>)
    requires Validated(d) && IsRun(d, states, actions) && states != []
    requires var s := Last(states); IsOff(s, a) && s.commits != [] && !Terminal(s.run.status) && !s.run.status.Recovering?
    ensures Goes(d, states, actions, longer, more) && IsRun(d, longer, more) && longer != []
    ensures TakesOver(Last(states), Last(longer), a)
  {
    var s := Last(states);
    var b := LastCommit(s);
    RunStates(d, states, actions);
    RunKeepsInv(d, states, actions, |states| - 1);
    RecoverReads(d, s, Placed(s, a, s.run, b, Settling(Recover(Some(b.ref)))), a);
    assert a in s.drivers;
    hide *;
    var recovering, running := RecoveryRuns(s.run, b.ref, now);
    RecoverySteps(d, s, a, b, recovering, running, now);
    var s0, s1 := Placed(s, a, s.run, b, Settling(Recover(Some(b.ref)))), Placed(s, a, recovering, b, Restoring);
    var s2, s3 := Placed(s, a, recovering, b, Settling(Advance(Running))), Placed(s, a, running, b, Workflow.Ready);
    var mid, done := TwoSteps(d, states, actions, s0, ARecover(a), s1, ASettle(a, now));
    longer, more := TwoSteps(d, mid, done, s2, ARestored(a), s3, ASettle(a, now));
    GoesOn(d, states, actions, mid, done, longer, more);
    TakenOver(s, a, running);
  }

  lemma TakenOver(s: State, a: nat, run: Run)
    requires s.commits != [] && a in s.drivers && run.status.Running? && run.marker == s.run.marker
    ensures TakesOver(s, Placed(s, a, run, LastCommit(s), Workflow.Ready), a)
  {
  }

  lemma PickUpDoes(d: Definition, s: State, a: nat)
    requires Inv(d, s) && IsOff(s, a) && s.commits != [] && s.run.status.Running?
    ensures Does(d, s, Placed(s, a, s.run, LastCommit(s), Workflow.Ready), APickUp(a))
  {
    LastIsLoaded(d, s);
    hide Inv, GatewayLoad;
  }

  /** execute takes a RUNNING Run over as it is. */
  lemma ExecutePicksUp(d: Definition, states: seq<State>, actions: seq<Action>, a: nat)
    returns (longer: seq<State>, more: seq<Action>)
    requires Validated(d) && IsRun(d, states, actions) && states != []
    requires var s := Last(states); IsOff(s, a) && s.commits != [] && s.run.status.Running?
    ensures Goes(d, states, actions, longer, more) && IsRun(d, longer, more) && longer != []
    ensures TakesOver(Last(states), Last(longer), a) && Last(longer).run == Last(states).run
  {
    var s := Last(states);
    RunStates(d, states, actions);
    RunKeepsInv(d, states, actions, |states| - 1);
    PickUpDoes(d, s, a);
    hide IsRun, Does, Goes, Inv, NamesOk, Validated;
    longer, more := Step(d, states, actions, Placed(s, a, s.run, LastCommit(s), Workflow.Ready), APickUp(a));
    TakenOver(s, a, s.run);
  }

  /** From outside, a Run that is RECOVERING can be advanced to RUNNING. */
  lemma LeavesRecovering(d: Definition, states: seq<State>, actions: seq<Action>, now: int)
    returns (longer: seq<State>, more: seq<Action>)
    requires IsRun(d, states, actions) && states != [] && Last(states).run.status.Recovering?
    ensures Goes(d, states, actions, longer, more) && IsRun(d, longer, more) && longer != []
    ensures var s, t := Last(states), Last(longer); t == s.(run := t.run) && t.run.status.Running?
  {
    var s := Last(states);
    RunningMakes(s.run, now);
    var run := Apply(s.run, Advance(Running), s.run.version, now).run;
    assert Does(d, s, s.(run := run), AElsewhere(Advance(Running), s.run.version, now));
    hide *;
    longer, more := Step(d, states, actions, s.(run := run), AElsewhere(Advance(Running), s.run.version, now));
  }

  // ---------------------------------------------------------------- on the way to success

  /** An open approval is the one that the order has reached, and nothing else is open. */
  lemma OpenIsAsked(d: Definition, b: Body, n: Id) returns (k: nat)
    requires Validated(d) && Good(d, b) && n in b.approvals && b.approvals[n].decision.None?
    ensures AwaitsDecision(b) && Asked(d, b, k) && k < |Greedy(d.g, {})| && n == Greedy(d.g, {})[k]
  {
    hide Greedy, EffectsOk, Validated;
    k := WaitingIsNext(d, b, n);
    assert n !in Completed(b);
    forall m | m in b.approvals && m != n ensures b.approvals[m].decision.Some? {
      if b.approvals[m].decision.None? {
        OpenOrRefused(d, b, m);
        OneUnsettled(d, b, m, n);
      }
    }
  }

  /** A checkpoint without a refusal and without a failed evaluation is on course, or waits for the
      decision that is next. */
  lemma AliveIsOnCourse(d: Definition, b: Body) returns (k: nat)
    requires Validated(d) && Good(d, b) && !Dead(d, b)
    ensures k <= |Greedy(d.g, {})|
    ensures if AwaitsDecision(b) then Asked(d, b, k) else OnCourse(d, b, k)
  {
    hide Greedy, EffectsOk, Validated;
    if AwaitsDecision(b) {
      var n :| n in b.approvals && b.approvals[n].decision.None?;
      k := OpenIsAsked(d, b, n);
    } else {
      k :| Stage(d, b, k);
      forall n | n in b.states ensures n in Completed(b) { assert NodeOk(d, b, n); }
    }
  }

  lemma TakenOverRolls(d: Definition, s: State, t: State, a: nat, k: nat, now: int)
    requires Inv(d, s) && s.commits != [] && TakesOver(s, t, a) && OnCourse(d, LastCommit(s), k) && k <= |Greedy(d.g, {})|
    requires NothingFrom(s.store, d.run, |s.commits| + 1)
    ensures Rolling(d, t, k, Duty(a, |s.log|, k, now))
  {
    LastIsLoaded(d, s);
    hide Inv, OnCourse, NothingFrom, Greedy, GatewayLoad;
  }

  lemma ParkDoes(d: Definition, s: State, t: State, a: nat)
    requires s.commits != [] && TakesOver(s, t, a) && AwaitsDecision(LastCommit(s))
    ensures Does(d, t, Placed(t, a, t.run, LastCommit(s), Settling(Advance(WaitingApproval))), APark(a))
  {
    hide AwaitsDecision;
  }

  lemma ParkSettles(s: State, t: State, a: nat, d: Definition, now: int)
    requires s.commits != [] && TakesOver(s, t, a)
    ensures var u := Placed(t, a, t.run, LastCommit(s), Settling(Advance(WaitingApproval)));
            Does(d, u, Moved(u, WaitingApproval, Off, a, now), ASettle(a, now))
  {
    hide Does, Moved;
    SettleDoes(d, Placed(t, a, t.run, LastCommit(s), Settling(Advance(WaitingApproval))), WaitingApproval, a, now);
  }

  lemma ParkedAgain(d: Definition, s: State, t: State, a: nat, k: nat, now: int)
    requires Inv(d, s) && s.commits != [] && TakesOver(s, t, a) && Asked(d, LastCommit(s), k)
    requires NothingFrom(s.store, d.run, |s.commits| + 1)
    ensures var u := Placed(t, a, t.run, LastCommit(s), Settling(Advance(WaitingApproval)));
            && Parked(d, Moved(u, WaitingApproval, Off, a, now), k, Duty(a, |s.log|, k + 1, now))
            && Moved(u, WaitingApproval, Off, a, now).commits == s.commits
  {
    LastIsLoaded(d, s);
    assert k < |Greedy(d.g, {})|;
    hide Inv, Asked, NothingFrom, Greedy, GatewayLoad;
  }

  /** The Run waits again for the open decision. */
  lemma WaitsAgain(d: Definition, s: State, states: seq<State>, actions: seq<Action>, a: nat, k: nat, now: int)
    returns (longer: seq<State>, more: seq<Action>)
    requires IsRun(d, states, actions) && states != [] && Inv(d, s) && s.commits != [] && TakesOver(s, Last(states), a)
    requires NothingFrom(s.store, d.run, |s.commits| + 1) && AwaitsDecision(LastCommit(s)) && Asked(d, LastCommit(s), k)
    ensures Goes(d, states, actions, longer, more) && IsRun(d, longer, more) && longer != []
    ensures Parked(d, Last(longer), k, Duty(a, |s.log|, k + 1, now)) && Last(longer).commits == s.commits
  {
    hide *;
    var t := Last(states);
    var u := Placed(t, a, t.run, LastCommit(s), Settling(Advance(WaitingApproval)));
    ParkDoes(d, s, t, a);
    ParkSettles(s, t, a, d, now);
    ParkedAgain(d, s, t, a, k, now);
    longer, more := TwoSteps(d, states, actions, u, APark(a), Moved(u, WaitingApproval, Off, a, now), ASettle(a, now));
  }

  /** A driver that took over goes on to success, and hands out only what is not on record. */
  lemma TakesOverSucceeds(d: Definition, s: State, states: seq<State>, actions: seq<Action>, a: nat, k: nat, now: int)
    returns (longer: seq<State>, more: seq<Action>, y: Duty)
    requires Validated(d) && IsRun(d, states, actions) && states != [] && Inv(d, s) && s.commits != []
    requires TakesOver(s, Last(states), a) && NothingFrom(s.store, d.run, |s.commits| + 1) && k <= |Greedy(d.g, {})|
    requires if AwaitsDecision(LastCommit(s)) then Asked(d, LastCommit(s), k) else OnCourse(d, LastCommit(s), k)
    ensures Goes(d, states, actions, longer, more) && IsRun(d, longer, more) && longer != [] && Successful(d, Last(longer))
    ensures y == Duty(a, |s.log|, if AwaitsDecision(LastCommit(s)) then k + 1 else k, now)
    ensures InTurn(d, Last(longer).log, y, |Greedy(d.g, {})|)
  {
    hide *;
    var t := Last(states);
    if AwaitsDecision(LastCommit(s)) {
      y := Duty(a, |s.log|, k + 1, now);
      var mid, done := WaitsAgain(d, s, states, actions, a, k, now);
      longer, more := ApprovalResumes(d, mid, done, k, y);
      GoesOn(d, states, actions, mid, done, longer, more);
      mid, done := longer, more;
      longer, more := RollsToSuccess(d, mid, done, k + 1, y);
      GoesOn(d, states, actions, mid, done, longer, more);
    } else {
      y := Duty(a, |s.log|, k, now);
      TakenOverRolls(d, s, t, a, k, now);
      longer, more := RollsToSuccess(d, states, actions, k, y);
    }
  }

  // ---------------------------------------------------------------- exactly when

  /** The nodes on record are the first stage nodes of the order. */
  ghost predicate RecordEnds(d: Definition, b: Body, stage: nat)
  {
    stage <= |Greedy(d.g, {})| && b.states.Keys == Elements(Greedy(d.g, {})[..stage])
  }

  lemma RecordIs(d: Definition, b: Body, k: nat)
    requires if AwaitsDecision(b) then Asked(d, b, k) else OnCourse(d, b, k)
    ensures RecordEnds(d, b, if AwaitsDecision(b) then k + 1 else k)
  {
    var order := Greedy(d.g, {});
    hide Greedy, Completed, StableFailure;
    if AwaitsDecision(b) {
      assert order[..k + 1] == order[..k] + [order[k]];
    }
  }

  /** Everybody stops, orphans are deleted, and a RECOVERING Run is advanced. */
  lemma Cleared(d: Definition, states: seq<State>, actions: seq<Action>, now: int) returns (longer: seq<State>, more: seq<Action>)
    requires Validated(d) && IsRun(d, states, actions) && states != []
    ensures Goes(d, states, actions, longer, more) && IsRun(d, longer, more) && longer != []
    ensures var s, t := Last(states), Last(longer);
            && t.commits == s.commits && t.log == s.log && t.drivers.Keys == s.drivers.Keys && NobodyWorks(t)
            && NothingFrom(t.store, d.run, |t.commits| + 1) && !t.run.status.Recovering?
            && (!Terminal(s.run.status) ==> !Terminal(t.run.status))
  {
    hide IsRun, Goes, Validated, NothingFrom;
    var mid, done := AllStop(d, states, actions);
    longer, more := AllDeleted(d, mid, done);
    GoesOn(d, states, actions, mid, done, longer, more);
    if Last(longer).run.status.Recovering? {
      mid, done := longer, more;
      longer, more := LeavesRecovering(d, mid, done, now);
      GoesOn(d, states, actions, mid, done, longer, more);
    }
  }

  /** After everybody stopped, driver a has taken the Run over from s. */
  lemma TakenUp(d: Definition, states: seq<State>, actions: seq<Action>, a: nat, now: int)
    returns (longer: seq<State>, more: seq<Action>, s: State)
    requires Validated(d) && IsRun(d, states, actions) && states != [] && a in Last(states).drivers
    requires Last(states).commits != [] && !Terminal(Last(states).run.status)
    ensures Goes(d, states, actions, longer, more) && IsRun(d, longer, more) && longer != []
    ensures s.commits == Last(states).commits && s.log == Last(states).log && TakesOver(s, Last(longer), a)
    ensures Inv(d, s) && Good(d, LastCommit(s)) && NothingFrom(s.store, d.run, |s.commits| + 1)
  {
    hide IsRun, Goes, Validated, NothingFrom, Good;
    var mid, done := Cleared(d, states, actions, now);
    s := Last(mid);
    RunStates(d, mid, done);
    RunKeepsInv(d, mid, done, |mid| - 1);
    hide Inv, NamesOk;
    CommitFacts(d, s, |s.commits| - 1);
    longer, more := RecoveryReturns(d, mid, done, a, now);
    GoesOn(d, states, actions, mid, done, longer, more);
  }

  /** An interrupted execution whose last commit holds no refusal and no failed evaluation goes on to
      success: of the validator's order exactly what was not on record is handed out, once and in order. */
  lemma AliveSucceeds(d: Definition, states: seq<State>, actions: seq<Action>, a: nat, now: int)
    returns (longer: seq<State>, more: seq<Action>, stage: nat)
    requires Validated(d) && IsRun(d, states, actions) && states != [] && a in Last(states).drivers
    requires var s := Last(states); s.commits != [] && !Terminal(s.run.status) && !DeadLast(d, s)
    ensures Goes(d, states, actions, longer, more) && longer != [] && Successful(d, Last(longer))
    ensures RecordEnds(d, LastCommit(Last(states)), stage)
    ensures InTurn(d, Last(longer).log, Duty(a, |Last(states).log|, stage, now), |Greedy(d.g, {})|)
  {
    var b := LastCommit(Last(states));
    hide IsRun, Goes, Validated, NothingFrom, Dead, AwaitsDecision, Asked, OnCourse, Successful, InTurn, Greedy, RecordEnds, Good, Inv, TakesOver;
    var mid, done, s := TakenUp(d, states, actions, a, now);
    var k := AliveIsOnCourse(d, b);
    RecordIs(d, b, k);
    var y;
    longer, more, y := TakesOverSucceeds(d, s, mid, done, a, k, now);
    GoesOn(d, states, actions, mid, done, longer, more);
    stage := y.stage;
  }

  /** Some continuation of the execution succeeds. */
  ghost predicate CanSucceed(d: Definition, states: seq<State>, actions: seq<Action>)
  {
    exists longer, more :: Goes(d, states, actions, longer, more) && longer != [] && Successful(d, Last(longer))
  }

  /** Wherever an execution is interrupted after its first commit, with its Run not ended: it can be
      brought to success if and only if the last committed checkpoint holds no refusal and no failed
      evaluation. */
  lemma SucceedsExactly(d: Definition, states: seq<State>, actions: seq<Action>, a: nat)
    requires Validated(d) && IsRun(d, states, actions) && states != [] && a in Last(states).drivers
    requires Last(states).commits != [] && !Terminal(Last(states).run.status)
    ensures CanSucceed(d, states, actions) <==> !DeadLast(d, Last(states))
  {
    hide IsRun, Validated, DeadLast, Successful;
    if !DeadLast(d, Last(states)) {
      hide Goes;
      var longer, more, stage := AliveSucceeds(d, states, actions, a, 0);
    } else if CanSucceed(d, states, actions) {
      var longer, more :| Goes(d, states, actions, longer, more) && longer != [] && Successful(d, Last(longer));
      DeadFails(d, states, actions, longer, more);
    }
  }

  lemma DeadFails(d: Definition, states: seq<State>, actions: seq<Action>, longer: seq<State>, more: seq<Action>)
    requires Validated(d) && states != [] && DeadLast(d, Last(states)) && Goes(d, states, actions, longer, more) && longer != []
    ensures !Successful(d, Last(longer))
  {
    hide IsRun, Validated, DeadLast;
    assert longer[|states| - 1] == Last(states);
    DeadIsFinal(d, longer, more, |states| - 1, |longer| - 1);
  }

  // ---------------------------------------------------------------- decisions and failures

  predicate Outcome(decision: Decision, status: Status)
  {
    match decision
    case Approved => status.Running?
    case Rejected => status.Failed?
    case Withdrawn => status.Cancelled?
  }

  lemma EndsByDecision(run: Run, decision: Decision, now: int) returns (ended: Run)
    requires !decision.Approved? && !Terminal(run.status)
    ensures Apply(run, if decision.Rejected? then Fail(ErrorDetail(0, false)) else Cancel, run.version, now) == Ok(ended)
    ensures Outcome(decision, ended.status)
  {
    hide CloseAttempt;
    ended := Apply(run, if decision.Rejected? then Fail(ErrorDetail(0, false)) else Cancel, run.version, now).run;
  }

  lemma RefusalSettles(d: Definition, x: State, a: nat, next: Body, decision: Decision, ended: Run, now: int)
    requires a in x.drivers && x.drivers[a] == Continue(x.run, next, Decide(decision)) && !decision.Approved?
    requires Apply(x.run, if decision.Rejected? then Fail(ErrorDetail(0, false)) else Cancel, x.run.version, now) == Ok(ended)
    ensures Does(d, x, x.(run := ended, drivers := x.drivers[a := Off]), ASettle(a, now))
  {
    hide Apply;
    assert Settle(x, x.(run := ended, drivers := x.drivers[a := Off]), a, now);
  }

  lemma DecidedFacts(d: Definition, s: State, x: State, post: Body, k: nat, y: Duty, decision: Decision)
    requires HasDecided(d, s, x, post, k, y, decision) && Parked(d, s, k, y)
    ensures y.driver in x.drivers && x.drivers[y.driver] == Continue(x.run, post, Decide(decision)) && !Terminal(x.run.status)
    ensures x.commits == s.commits + [post] && k < |Greedy(d.g, {})|
    ensures var n := Greedy(d.g, {})[k]; n in post.approvals && post.approvals[n].decision == Some(decision)
  {
    hide Continue, OnCourse, NothingFrom, Greedy, Asked;
  }

  /** The decision is on record in the last commit, and the Run is where it leads. */
  ghost predicate CarriedOut(s: State, commits: seq<Body>, n: Id, decision: Decision)
  {
    && |s.commits| == |commits| + 1 && commits <= s.commits && Outcome(decision, s.run.status)
    && n in LastCommit(s).approvals && LastCommit(s).approvals[n].decision == Some(decision)
  }

  lemma DecisionCarries(d: Definition, states: seq<State>, actions: seq<Action>, k: nat, y: Duty, decision: Decision)
    returns (longer: seq<State>, more: seq<Action>)
    requires Validated(d) && IsRun(d, states, actions) && states != [] && Parked(d, Last(states), k, y) && k < |Greedy(d.g, {})|
    ensures Goes(d, states, actions, longer, more) && IsRun(d, longer, more) && longer != []
    ensures CarriedOut(Last(longer), Last(states).commits, Greedy(d.g, {})[k], decision)
  {
    hide *;
    var mid, done, post := ApprovalDecided(d, states, actions, k, y, decision);
    var x := Last(mid);
    DecidedFacts(d, Last(states), x, post, k, y, decision);
    var t;
    if decision.Approved? {
      RollingAfter(d, Last(states), x, post, k, y);
      t := Moved(x, Running, Active(Bump(x.run, y.now).(status := Running), Some(post), Workflow.Ready), y.driver, y.now);
      ApprovalRuns(x, post, y);
    } else {
      var ended := EndsByDecision(x.run, decision, y.now);
      RefusalSettles(d, x, y.driver, post, decision, ended, y.now);
      t := x.(run := ended, drivers := x.drivers[y.driver := Off]);
    }
    longer, more := Step(d, mid, done, t, ASettle(y.driver, y.now));
    GoesOn(d, states, actions, mid, done, longer, more);
    IsCarriedOut(t, Last(states).commits, post, Greedy(d.g, {})[k], decision);
  }

  lemma ApprovalRuns(x: State, post: Body, y: Duty)
    requires y.driver in x.drivers
    ensures var t := Moved(x, Running, Active(Bump(x.run, y.now).(status := Running), Some(post), Workflow.Ready), y.driver, y.now);
            t.commits == x.commits && Outcome(Approved, t.run.status)
  {
  }

  lemma IsCarriedOut(s: State, commits: seq<Body>, post: Body, n: Id, decision: Decision)
    requires s.commits == commits + [post] && Outcome(decision, s.run.status)
    requires n in post.approvals && post.approvals[n].decision == Some(decision)
    ensures CarriedOut(s, commits, n, decision)
  {
    hide Outcome;
  }

  /** An approval that the last commit leaves open can be decided either way, wherever the execution
      was interrupted: the decision is committed and the Run goes on, fails or is cancelled. */
  lemma OpenIsDecided(d: Definition, states: seq<State>, actions: seq<Action>, a: nat, n: Id, decision: Decision, now: int)
    returns (longer: seq<State>, more: seq<Action>)
    requires Validated(d) && IsRun(d, states, actions) && states != [] && a in Last(states).drivers
    requires var s := Last(states);
             s.commits != [] && !Terminal(s.run.status) && n in LastCommit(s).approvals && LastCommit(s).approvals[n].decision.None?
    ensures Goes(d, states, actions, longer, more) && longer != [] && CarriedOut(Last(longer), Last(states).commits, n, decision)
  {
    hide IsRun, Goes, Validated, NothingFrom, AwaitsDecision, Asked, Greedy, Good, Inv, TakesOver, Parked, CarriedOut;
    var mid, done, s := TakenUp(d, states, actions, a, now);
    var k := OpenIsAsked(d, LastCommit(s), n);
    longer, more := WaitsAgain(d, s, mid, done, a, k, now);
    GoesOn(d, states, actions, mid, done, longer, more);
    mid, done := longer, more;
    longer, more := DecisionCarries(d, mid, done, k, Duty(a, |s.log|, k + 1, now), decision);
    GoesOn(d, states, actions, mid, done, longer, more);
  }

  /** A failed evaluation is the one node that is not settled, so nothing waits for a decision. */
  lemma FailedIsNotOpen(d: Definition, b: Body)
    requires Good(d, b) && StableFailure(d, b)
    ensures !AwaitsDecision(b)
  {
    var m :| m in b.states && m in d.kinds && d.kinds[m].EvaluationNode? && !b.states[m].outcome.NodeSucceeded?;
    hide Staged, EffectsOk;
    if n :| n in b.approvals && b.approvals[n].decision.None? {
      OpenOrRefused(d, b, n);
      OneUnsettled(d, b, m, n);
    }
  }

  lemma EndMakes(run: Run, op: Op, now: int) returns (ended: Run)
    requires Terminates(op) && !Terminal(run.status)
    ensures Apply(run, op, run.version, now) == Ok(ended) && (if op.Fail? then ended.status.Failed? else ended.status.Cancelled?)
  {
    hide CloseAttempt;
    ended := Apply(run, op, run.version, now).run;
  }

  /** A terminal failure reads the Run and ends it. */
  lemma FailingEnds(d: Definition, states: seq<State>, actions: seq<Action>, a: nat, now: int)
    returns (longer: seq<State>, more: seq<Action>)
    requires IsRun(d, states, actions) && states != []
    requires var s := Last(states); At(s, a) && s.drivers[a].loc.Failing? && Terminates(s.drivers[a].loc.op) && !Terminal(s.run.status)
    ensures Goes(d, states, actions, longer, more) && IsRun(d, longer, more) && longer != []
    ensures Last(longer).commits == Last(states).commits
    ensures if Last(states).drivers[a].loc.op.Fail? then Last(longer).run.status.Failed? else Last(longer).run.status.Cancelled?
  {
    var s := Last(states);
    var driver, op, failed := s.drivers[a], s.drivers[a].loc.op, s.drivers[a].loc.failed;
    var ended := EndMakes(s.run, op, now);
    var u := s.(drivers := s.drivers[a := driver.(loc := Ending(op, failed, s.run.version))]);
    var t := s.(run := ended, drivers := s.drivers[a := Off]);
    assert u.drivers[a := Off] == t.drivers;
    hide IsRun, Apply, Goes, Terminal;
    assert Does(d, s, u, AReadLatest(a)) && Does(d, u, t, AEnd(a, now));
    hide Does;
    longer, more := TwoSteps(d, states, actions, u, AReadLatest(a), t, AEnd(a, now));
  }

  lemma FailsFromHere(d: Definition, s: State, t: State, a: nat, op: Op)
    requires s.commits != [] && TakesOver(s, t, a) && StableFailure(d, LastCommit(s)) && !AwaitsDecision(LastCommit(s)) && Terminates(op)
    ensures var u := Placed(t, a, t.run, LastCommit(s), Failing(op, None));
            Does(d, t, u, AFailsStably(a, op)) && At(u, a) && u.drivers[a].loc == Failing(op, None) && !Terminal(u.run.status)
            && u.commits == s.commits
  {
    hide StableFailure, AwaitsDecision;
  }

  /** A committed evaluation failure ends the Run, wherever the execution was interrupted. */
  lemma FailureEnds(d: Definition, states: seq<State>, actions: seq<Action>, a: nat, op: Op, now: int)
    returns (longer: seq<State>, more: seq<Action>)
    requires Validated(d) && IsRun(d, states, actions) && states != [] && a in Last(states).drivers && Terminates(op)
    requires var s := Last(states); s.commits != [] && !Terminal(s.run.status) && StableFailure(d, LastCommit(s))
    ensures Goes(d, states, actions, longer, more) && longer != [] && Last(longer).commits == Last(states).commits
    ensures if op.Fail? then Last(longer).run.status.Failed? else Last(longer).run.status.Cancelled?
  {
    hide IsRun, Goes, Validated, NothingFrom, AwaitsDecision, StableFailure, Good, Inv, Does, TakesOver, Placed;
    var mid, done, s := TakenUp(d, states, actions, a, now);
    FailedIsNotOpen(d, LastCommit(s));
    var t := Last(mid);
    FailsFromHere(d, s, t, a, op);
    longer, more := Step(d, mid, done, Placed(t, a, t.run, LastCommit(s), Failing(op, None)), AFailsStably(a, op));
    GoesOn(d, states, actions, mid, done, longer, more);
    mid, done := longer, more;
    longer, more := FailingEnds(d, mid, done, a, now);
    GoesOn(d, states, actions, mid, done, longer, more);
  }

  /** So does an agent node that fails while its driver is at work on it. */
  lemma AgentFailureEnds(d: Definition, states: seq<State>, actions: seq<Action>, a: nat, n: Id, op: Op, now: int)
    returns (longer: seq<State>, more: seq<Action>)
    requires IsRun(d, states, actions) && states != [] && Terminates(op) && n in d.kinds && d.kinds[n].AgentNode?
    requires var s := Last(states); At(s, a) && s.drivers[a].loc == Working(n) && !Terminal(s.run.status)
    ensures Goes(d, states, actions, longer, more) && longer != [] && Last(longer).commits == Last(states).commits
    ensures if op.Fail? then Last(longer).run.status.Failed? else Last(longer).run.status.Cancelled?
  {
    var s := Last(states);
    var t := s.(drivers := s.drivers[a := s.drivers[a].(loc := Failing(op, Some(n)))]);
    assert Does(d, s, t, AAgentFails(a, op));
    hide IsRun, Goes, Does;
    var mid, done := Step(d, states, actions, t, AAgentFails(a, op));
    longer, more := FailingEnds(d, mid, done, a, now);
    GoesOn(d, states, actions, mid, done, longer, more);
  }

  /** Recovery up to the restorer: the Run is RECOVERING and its driver waits for the answer. */
  lemma Recovers(d: Definition, states: seq<State>, actions: seq<Action>, a: nat, now: int)
    returns (longer: seq<State>, more: seq<Action>, recovering: Run)
    requires Validated(d) && IsRun(d, states, actions) && states != []
    requires var s := Last(states); IsOff(s, a) && s.commits != [] && !Terminal(s.run.status) && !s.run.status.Recovering?
    ensures Goes(d, states, actions, longer, more) && IsRun(d, longer, more) && longer != []
    ensures a in Last(states).drivers && Last(states).commits != [] && recovering.status.Recovering?
    ensures Last(longer) == Placed(Last(states), a, recovering, LastCommit(Last(states)), Restoring)
  {
    var s := Last(states);
    var b := LastCommit(s);
    RunStates(d, states, actions);
    RunKeepsInv(d, states, actions, |states| - 1);
    RecoverReads(d, s, Placed(s, a, s.run, b, Settling(Recover(Some(b.ref)))), a);
    assert a in s.drivers && s.commits != [];
    hide *;
    var running;
    recovering, running := RecoveryRuns(s.run, b.ref, now);
    RecoverySteps(d, s, a, b, recovering, running, now);
    longer, more := TwoSteps(d, states, actions, Placed(s, a, s.run, b, Settling(Recover(Some(b.ref)))), ARecover(a),
                             Placed(s, a, recovering, b, Restoring), ASettle(a, now));
  }

  lemma RestoreFailureSteps(d: Definition, s: State, a: nat, run: Run, b: Body, detail: ErrorDetail, ended: Run, now: int)
    requires a in s.drivers && Apply(run, Fail(detail), run.version, now) == Ok(ended)
    ensures var u, v := Placed(s, a, run, b, Restoring), Placed(s, a, run, b, Settling(Fail(detail)));
            Does(d, u, v, ARestoreFails(a, detail)) && Does(d, v, s.(run := ended, drivers := s.drivers[a := Off]), ASettle(a, now))
  {
    hide Apply;
    var u, v := Placed(s, a, run, b, Restoring), Placed(s, a, run, b, Settling(Fail(detail)));
    var t := s.(run := ended, drivers := s.drivers[a := Off]);
    assert v.drivers == u.drivers[a := v.drivers[a]];
    assert t.drivers == v.drivers[a := Off];
    assert Settle(v, t, a, now);
  }

  /** A restorer that raises fails the Run, when the recovery policy says so. */
  lemma RestoreFailureEnds(d: Definition, states: seq<State>, actions: seq<Action>, a: nat, detail: ErrorDetail, now: int)
    returns (longer: seq<State>, more: seq<Action>)
    requires Validated(d) && IsRun(d, states, actions) && states != []
    requires var s := Last(states); IsOff(s, a) && s.commits != [] && !Terminal(s.run.status) && !s.run.status.Recovering?
    ensures Goes(d, states, actions, longer, more) && longer != []
    ensures Last(longer).run.status.Failed? && Last(longer).commits == Last(states).commits
  {
    hide Validated, IsRun, Goes, Apply, Does;
    var s := Last(states);
    var mid, done, recovering := Recovers(d, states, actions, a, now);
    var ended := EndMakes(recovering, Fail(detail), now);
    RestoreFailureSteps(d, s, a, recovering, LastCommit(s), detail, ended, now);
    longer, more := TwoSteps(d, mid, done, Placed(s, a, recovering, LastCommit(s), Settling(Fail(detail))), ARestoreFails(a, detail),
                             s.(run := ended, drivers := s.drivers[a := Off]), ASettle(a, now));
    GoesOn(d, states, actions, mid, done, longer, more);
  }

  lemma PauseMakes(run: Run, now: int) returns (paused: Run)
    requires !Terminal(run.status) && !run.status.Created?
    ensures Apply(run, Pause, run.version, now) == Ok(paused) && paused.status.Paused?
  {
    paused := Apply(run, Pause, run.version, now).run;
  }

  lemma ReportSteps(d: Definition, s: State, a: nat, op: Op, cause: Cause, after: Run, now: int)
    requires IsOff(s, a) && !Terminal(s.run.status) && (op.Fail? || (op.Pause? && cause.AuditFailed?))
    requires Apply(s.run, op, s.run.version, now) == Ok(after)
    ensures var u := s.(drivers := s.drivers[a := Reporting(op, s.run.version, cause)]);
            Does(d, s, u, AReport(a, op, cause)) && Does(d, u, s.(run := after, drivers := s.drivers[a := Off]), AReportEnds(a, now))
  {
    hide Apply;
    var u := s.(drivers := s.drivers[a := Reporting(op, s.run.version, cause)]);
    assert s.drivers[a := Off] == u.drivers[a := Off];
  }

  /** Refused input and a failed audit end or pause the Run, wherever it is. */
  lemma ReportIsCarriedOut(d: Definition, states: seq<State>, actions: seq<Action>, a: nat, op: Op, cause: Cause, now: int)
    returns (longer: seq<State>, more: seq<Action>)
    requires IsRun(d, states, actions) && states != [] && IsOff(Last(states), a) && !Terminal(Last(states).run.status)
    requires op.Fail? || (op.Pause? && cause.AuditFailed? && !Last(states).run.status.Created?)
    ensures Goes(d, states, actions, longer, more) && longer != [] && Last(longer).commits == Last(states).commits
    ensures if op.Fail? then Last(longer).run.status.Failed? else Last(longer).run.status.Paused?
  {
    var s := Last(states);
    hide IsRun, Goes, Apply, Does;
    var after;
    if op.Fail? { after := EndMakes(s.run, op, now); } else { after := PauseMakes(s.run, now); }
    ReportSteps(d, s, a, op, cause, after, now);
    longer, more := TwoSteps(d, states, actions, s.(drivers := s.drivers[a := Reporting(op, s.run.version, cause)]), AReport(a, op, cause),
                             s.(run := after, drivers := s.drivers[a := Off]), AReportEnds(a, now));
  }
}
