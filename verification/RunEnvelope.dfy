/** What a call on a Run is answered, and what the Run's own fields say after any sequence of calls. */
module RunEnvelope {
  import opened Wrappers
  import opened RunMachine
  import opened RunLaws

  // ---------------------------------------------------------------- which calls are accepted

  predicate OneOf(status: Status, all: set<Status>) { status in all }

  /** The operation has been made already, or the Run is in a state that admits it. */
  predicate Permitted(run: Run, op: Op)
  {
    var s := run.status;
    match op
    case Start => OneOf(s, {Created, Starting})
    case Advance(to) =>
      || s == to || (s.Created? && to.Starting?) || (s.Starting? && to.ContextLoading?) || (s.ContextLoading? && to.Running?)
      || (s.Running? && OneOf(to, {WaitingApproval, Recovering})) || (OneOf(s, {WaitingApproval, Recovering}) && to.Running?)
    case Pause => !OneOf(s, {Created, Succeeded, Failed, Cancelled})
    case Resume => s.Paused? && run.continuation.Some?
    case RedispatchRetry => s.Retrying? && run.continuation.Some?
    case Retry(detail) => detail.retryable && OneOf(s, {Starting, ContextLoading, Running})
    case Recover(given) =>
      && (run.kind.Workflow? ==> given.Some? || run.marker.Some?)
      && !OneOf(s, {Created, Succeeded, Failed, Cancelled})
      && (s.Recovering? ==> RecoversFrom(run) == if given.Some? || run.kind.Agent? then given else run.marker)
    case CommitCheckpoint(checkpoint, previous, definition, graph) =>
      && run.kind.Workflow? && !OneOf(s, {Succeeded, Failed, Cancelled})
      && (run.marker == previous
          || (run.marker == Some(checkpoint) && (definition.Some? ==> run.definition == definition.value)
              && (graph.Some? ==> run.graphVersion == graph.value)))
    case Complete => OneOf(s, {Running, Succeeded})
    case Fail(_) => !OneOf(s, {Succeeded, Cancelled})
    case Cancel => !OneOf(s, {Succeeded, Failed})
  }

  /** The checkpoint that the attempt under way recovers from. */
  function RecoversFrom(run: Run): Option<CheckpointRef>
  {
    if LastOpen(run.history) then run.history[|run.history| - 1].checkpoint else None
  }

  /** Why a call at the right version is refused. */
  function Reason(run: Run, op: Op): Error
  {
    match op
    case Retry(detail) => if detail.retryable then IllegalTransition else NonRetryable
    case Recover(given) =>
      if run.kind.Workflow? && given.None? && run.marker.None? then MissingRecoveryCheckpoint
      else if run.status.Recovering? then RecoverySourceConflict else IllegalTransition
    case CommitCheckpoint(_, _, _, _) =>
      if run.kind.Agent? then RequiresWorkflow
      else if OneOf(run.status, {Succeeded, Failed, Cancelled}) then TerminalCommit else StaleMarker
    case _ => IllegalTransition
  }

  /** A call is accepted if and only if it names the Run's version and its state admits the operation;
      otherwise exactly this error. */
  lemma AcceptedExactly(run: Run, op: Op, expected: nat, now: int)
    ensures var done := Apply(run, op, expected, now);
            && (done.Ok? <==> expected == run.version && Permitted(run, op))
            && (done.Err? ==> done.error == if expected != run.version then StaleVersion else Reason(run, op))
  {
    hide OpenAttempt, CloseAttempt;
  }

  // ---------------------------------------------------------------- the last call of a kind

  predicate Changes(run: Run, call: Call) { After(run, call) != run }

  /** The calls that report an error. */
  predicate Blames(run: Run, call: Call) { Changes(run, call) && (call.op.Retry? || call.op.Fail?) }

  predicate Begins(run: Run, call: Call) { Changes(run, call) && call.op.Start? }

  predicate EndsRun(run: Run, call: Call) { Changes(run, call) && (call.op.Complete? || call.op.Fail? || call.op.Cancel?) }

  /** p holds of call i and the Run it finds. */
  ghost predicate Hits(start: Run, calls: seq<Call>, p: (Run, Call) -> bool, i: nat)
    requires i < |calls|
  {
    p(Execute(start, calls[..i]), calls[i])
  }

  /** Call j is the last of the sequence of which p holds. */
  ghost predicate IsLast(start: Run, calls: seq<Call>, p: (Run, Call) -> bool, j: int)
  {
    0 <= j < |calls| && Hits(start, calls, p, j) && forall i :: j < i < |calls| ==> !Hits(start, calls, p, i)
  }

  ghost predicate Never(start: Run, calls: seq<Call>, p: (Run, Call) -> bool)
  {
    forall i :: 0 <= i < |calls| ==> !Hits(start, calls, p, i)
  }

  /** What told makes of call j and the Run it finds. */
  ghost function Tells<T>(start: Run, calls: seq<Call>, told: (Run, Call) -> T, j: nat): T
    requires j < |calls|
  {
    told(Execute(start, calls[..j]), calls[j])
  }

  /** A field that only calls of which p holds set, each to what told makes of it. */
  ghost predicate Told<T>(start: Run, calls: seq<Call>, p: (Run, Call) -> bool, told: (Run, Call) -> T, initial: T, field: T)
  {
    || (Never(start, calls, p) && field == initial)
    || exists j :: IsLast(start, calls, p, j) && field == Tells(start, calls, told, j)
  }

  /** A call finds the same Run in a longer sequence. */
  lemma InFront<T>(start: Run, front: seq<Call>, call: Call, p: (Run, Call) -> bool, told: (Run, Call) -> T, i: nat)
    requires i < |front|
    ensures Hits(start, front, p, i) == Hits(start, front + [call], p, i)
    ensures Tells(start, front, told, i) == Tells(start, front + [call], told, i)
  {
    assert (front + [call])[..i] == front[..i];
    hide Execute;
  }

  lemma AtEnd<T>(start: Run, front: seq<Call>, call: Call, p: (Run, Call) -> bool, told: (Run, Call) -> T)
    ensures Hits(start, front + [call], p, |front|) == p(Execute(start, front), call)
    ensures Tells(start, front + [call], told, |front|) == told(Execute(start, front), call)
  {
    assert (front + [call])[..|front|] == front;
    hide Execute;
  }

  /** One more call either sets the field or leaves it. */
  lemma ToldOn<T>(start: Run, front: seq<Call>, call: Call, p: (Run, Call) -> bool, told: (Run, Call) -> T, initial: T, before: T, after: T)
    requires Told(start, front, p, told, initial, before)
    requires after == if p(Execute(start, front), call) then told(Execute(start, front), call) else before
    ensures Told(start, front + [call], p, told, initial, after)
  {
    var calls := front + [call];
    hide Hits, Tells, Execute;
    AtEnd(start, front, call, p, told);
    forall i: nat | i < |front|
      ensures Hits(start, front, p, i) == Hits(start, calls, p, i) && Tells(start, front, told, i) == Tells(start, calls, told, i)
    {
      InFront(start, front, call, p, told, i);
    }
    if p(Execute(start, front), call) {
      assert IsLast(start, calls, p, |front|);
    } else if j :| IsLast(start, front, p, j) && before == Tells(start, front, told, j) {
      assert IsLast(start, calls, p, j);
    }
  }

  // ---------------------------------------------------------------- the fields

  function TimeOf(run: Run, call: Call): Option<int> { Some(call.now) }

  /** The error a call reports, with the attempt it was made in. */
  function BlameOf(run: Run, call: Call): Option<ErrorSummary>
  {
    match call.op
    case Retry(detail) => Some(ErrorSummary(detail, run.attempt, call.now))
    case Fail(detail) => Some(ErrorSummary(detail, run.attempt, call.now))
    case _ => None
  }

  lemma StepTells(run: Run, call: Call)
    ensures var next := After(run, call);
            && next.updatedAt == (if Changes(run, call) then TimeOf(run, call) else run.updatedAt)
            && next.error == (if Blames(run, call) then BlameOf(run, call) else run.error)
            && next.endedAt == (if EndsRun(run, call) then TimeOf(run, call) else run.endedAt)
            && (run.startedAt.None? ==> next.startedAt == (if Begins(run, call) then TimeOf(run, call) else None))
            && (run.startedAt.Some? ==> next.startedAt == run.startedAt)
            && next.version == run.version + (if Changes(run, call) then 1 else 0)
            && next.id == run.id && next.kind == run.kind
            && (Begins(run, call) ==> run.status.Created?)
  {
    hide OpenAttempt, CloseAttempt;
  }

  lemma StepContinues(run: Run, call: Call)
    requires ContinuationAccepted(run)
    ensures var next := After(run, call);
            ContinuationAccepted(next) && (next.status.Created? ==> run.status.Created? && next.startedAt == run.startedAt)
  {
    hide OpenAttempt, CloseAttempt;
  }

  /** How many calls changed the Run. */
  ghost function Changed(start: Run, calls: seq<Call>): nat { |ChangedAt(start, calls)| }

  ghost function ChangedAt(start: Run, calls: seq<Call>): set<nat>
  {
    set i: nat | i < |calls| && Hits(start, calls, Changes, i)
  }

  lemma ChangedOn(start: Run, front: seq<Call>, call: Call)
    ensures Changed(start, front + [call]) == Changed(start, front) + if Changes(Execute(start, front), call) then 1 else 0
  {
    var calls := front + [call];
    AtEnd(start, front, call, Changes, TimeOf);
    forall i: nat | i < |front| ensures Hits(start, front, Changes, i) == Hits(start, calls, Changes, i) {
      InFront(start, front, call, Changes, TimeOf, i);
    }
    hide Hits, Execute, Changes;
    assert ChangedAt(start, calls) == ChangedAt(start, front) + if Changes(Execute(start, front), call) then {|front|} else {};
  }

  /** The Run was never started while it is CREATED. */
  lemma {:induction false} CreatedIsUnstarted(start: Run, calls: seq<Call>)
    requires ContinuationAccepted(start)
    ensures ContinuationAccepted(Execute(start, calls))
    ensures Execute(start, calls).status.Created? ==> Execute(start, calls).startedAt == start.startedAt
    decreases |calls|
  {
    if calls != [] {
      ExecuteLast(start, calls);
      hide Execute, After, ContinuationAccepted;
      CreatedIsUnstarted(start, calls[..|calls| - 1]);
      StepContinues(Execute(start, calls[..|calls| - 1]), calls[|calls| - 1]);
    }
  }

  /** Whatever calls arrive, at whatever versions: the version counts the calls that changed the Run;
      updated_at is the time of the last of them; started_at the time of the start; ended_at the time
      of the call that ended the Run; and the error is the last one that a retry or a failure reported,
      with its attempt and time. */
  lemma {:induction false} FieldsTellTheCalls(start: Run, calls: seq<Call>)
    requires start.startedAt.None? && ContinuationAccepted(start)
    ensures var run := Execute(start, calls);
            && run.version == start.version + Changed(start, calls) && run.id == start.id && run.kind == start.kind
            && Told(start, calls, Changes, TimeOf, start.updatedAt, run.updatedAt)
            && Told(start, calls, Blames, BlameOf, start.error, run.error)
            && Told(start, calls, EndsRun, TimeOf, start.endedAt, run.endedAt)
            && Told(start, calls, Begins, TimeOf, None, run.startedAt)
    decreases |calls|
  {
    if calls != [] {
      var front, call := calls[..|calls| - 1], calls[|calls| - 1];
      var run := Execute(start, front);
      ExecuteLast(start, calls);
      CreatedIsUnstarted(start, front);
      StepTells(run, call);
      ChangedOn(start, front, call);
      assert calls == front + [call];
      hide Execute, After, Told, Changes, Changed, Blames, Begins, EndsRun, BlameOf, TimeOf;
      FieldsTellTheCalls(start, front);
      var next := Execute(start, calls);
      ToldOn(start, front, call, Changes, TimeOf, start.updatedAt, run.updatedAt, next.updatedAt);
      ToldOn(start, front, call, Blames, BlameOf, start.error, run.error, next.error);
      ToldOn(start, front, call, EndsRun, TimeOf, start.endedAt, run.endedAt, next.endedAt);
      ToldOn(start, front, call, Begins, TimeOf, None, run.startedAt, next.startedAt);
    } else {
      NothingTold(start);
    }
  }

  lemma NothingTold(start: Run)
    ensures forall p: (Run, Call) -> bool :: Never(start, [], p)
    ensures Changed(start, []) == 0
  {
    assert ChangedAt(start, []) == {};
  }
}
