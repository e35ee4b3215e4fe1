/** The Run envelope and its pure lifecycle transitions. */
module RunMachine {
  import opened Wrappers

  datatype Status =
    | Created | Starting | ContextLoading | Running | WaitingApproval | Paused | Retrying | Recovering
    | Succeeded | Failed | Cancelled

  predicate Terminal(s: Status) { s.Succeeded? || s.Failed? || s.Cancelled? }

  datatype AttemptOutcome = AttemptSucceeded | RetryableFailure | FinalFailure | AttemptCancelled | Interrupted

  datatype CheckpointRef = CheckpointRef(id: nat)

  datatype ErrorDetail = ErrorDetail(code: nat, retryable: bool)

  datatype ErrorSummary = ErrorSummary(detail: ErrorDetail, attempt: nat, occurredAt: int)

  datatype AttemptRecord = AttemptRecord(
    attempt: nat, startedAt: int, endedAt: Option<int>, outcome: Option<AttemptOutcome>,
    checkpoint: Option<CheckpointRef>, error: Option<ErrorSummary>)

  datatype Kind = Agent | Workflow

  datatype Run = Run(
    id: nat, kind: Kind, definition: nat, graphVersion: nat, status: Status, attempt: nat, version: nat,
    startedAt: Option<int>, updatedAt: Option<int>, endedAt: Option<int>, error: Option<ErrorSummary>,
    continuation: Option<Status>, history: seq<AttemptRecord>, marker: Option<CheckpointRef>)

  /** A root Run as the factories make it. */
  function NewRun(id: nat, kind: Kind, definition: nat, graphVersion: nat, now: int): Run
  {
    Run(id, kind, definition, graphVersion, Created, 1, 0, None, Some(now), None, None, None, [], None)
  }

  // ---------------------------------------------------------------- constructor checks

  predicate Open(r: AttemptRecord) { r.endedAt.None? }

  predicate RecordAccepted(r: AttemptRecord)
  {
    && r.attempt >= 1
    && (r.endedAt.None? <==> r.outcome.None?)
    && (r.endedAt.Some? ==> r.startedAt <= r.endedAt.value)
  }

  predicate LastOpen(history: seq<AttemptRecord>) { history != [] && Open(history[|history| - 1]) }

  /** Run.__post_init__, together with the record checks of AttemptRecord.__post_init__. */
  predicate Accepted(run: Run)
  {
    && run.attempt >= 1
    && (Terminal(run.status) <==> run.endedAt.Some?)
    && (forall i :: 0 <= i < |run.history| ==> RecordAccepted(run.history[i]))
    && (forall i, j :: 0 <= i < j < |run.history| ==> run.history[i].attempt < run.history[j].attempt)
    && (run.history != [] ==> run.history[|run.history| - 1].attempt <= run.attempt)
    && (forall i :: 0 <= i < |run.history| && Open(run.history[i]) ==>
         i == |run.history| - 1 && run.history[i].attempt == run.attempt)
    && ContinuationAccepted(run)
  }

  predicate ContinuationAccepted(run: Run)
  {
    if run.status.Paused? || run.status.Retrying? then
      && run.continuation.Some?
      && var c := run.continuation.value;
         c.Starting? || c.ContextLoading? || c.Running?
         || (run.status.Paused? && (c.WaitingApproval? || c.Recovering?))
    else run.continuation.None?
  }

  // ---------------------------------------------------------------- transitions

  datatype Error =
    | StaleVersion | IllegalTransition | NonRetryable | MissingRecoveryCheckpoint | RecoverySourceConflict
    | RequiresWorkflow | TerminalCommit | StaleMarker

  datatype Result = Ok(run: Run) | Err(error: Error)

  datatype Op =
    | Start
    | Advance(target: Status)
    | Pause
    | Resume
    | Retry(detail: ErrorDetail)
    | RedispatchRetry
    | Recover(source: Option<CheckpointRef>)
    | CommitCheckpoint(checkpoint: CheckpointRef, expectedPrevious: Option<CheckpointRef>,
                       definition: Option<nat>, graphVersion: Option<nat>)
    | Complete
    | Fail(error: ErrorDetail)
    | Cancel

  predicate MayAdvance(from: Status, to: Status)
  {
    match from
    case Created => to.Starting?
    case Starting => to.ContextLoading?
    case ContextLoading => to.Running?
    case Running => to.WaitingApproval? || to.Recovering?
    case WaitingApproval => to.Running?
    case Recovering => to.Running?
    case _ => false
  }

  function OpenAttempt(run: Run, now: int): seq<AttemptRecord>
  {
    if LastOpen(run.history) then run.history
    else run.history + [AttemptRecord(run.attempt, now, None, None, None, None)]
  }

  function CloseAttempt(run: Run, now: int, outcome: AttemptOutcome, error: Option<ErrorSummary>): seq<AttemptRecord>
  {
    var history :=
      if LastOpen(run.history) then run.history
      else run.history + [AttemptRecord(run.attempt, if run.startedAt.Some? then run.startedAt.value else now, None, None, None, None)];
    history[..|history| - 1] + [history[|history| - 1].(endedAt := Some(now), outcome := Some(outcome), error := error)]
  }

  function Bump(run: Run, now: int): Run { run.(version := run.version + 1, updatedAt := Some(now)) }

  function DoStart(run: Run, now: int): Result
  {
    if run.status.Starting? then Ok(run)
    else if !run.status.Created? then Err(IllegalTransition)
    else Ok(Bump(run, now).(status := Starting,
                            startedAt := if run.startedAt.Some? then run.startedAt else Some(now),
                            history := OpenAttempt(run, now)))
  }

  function DoAdvance(run: Run, target: Status, now: int): Result
  {
    if run.status == target then Ok(run)
    else if !MayAdvance(run.status, target) then Err(IllegalTransition)
    else Ok(Bump(run, now).(status := target,
                            history := if run.status.Recovering? then OpenAttempt(run, now) else run.history))
  }

  function DoPause(run: Run, now: int): Result
  {
    if run.status.Paused? then Ok(run)
    else if Terminal(run.status) || run.status.Created? then Err(IllegalTransition)
    else Ok(Bump(run, now).(status := Paused,
                            continuation := if run.status.Retrying? then run.continuation else Some(run.status)))
  }

  /** resume and redispatch_retry: leave PAUSED or RETRYING for the remembered phase. */
  function DoContinue(run: Run, from: Status, now: int): Result
  {
    if run.status != from || run.continuation.None? then Err(IllegalTransition)
    else Ok(Bump(run, now).(status := run.continuation.value, continuation := None, history := OpenAttempt(run, now)))
  }

  function DoRetry(run: Run, detail: ErrorDetail, now: int): Result
  {
    if !detail.retryable then Err(NonRetryable)
    else if !(run.status.Starting? || run.status.ContextLoading? || run.status.Running?) then Err(IllegalTransition)
    else
      var summary := ErrorSummary(detail, run.attempt, now);
      Ok(Bump(run, now).(status := Retrying, attempt := run.attempt + 1, continuation := Some(run.status),
                         error := Some(summary),
                         history := CloseAttempt(run, now, RetryableFailure, Some(summary))))
  }

  function RecoverySource(run: Run, given: Option<CheckpointRef>): Option<CheckpointRef>
  {
    if run.kind.Workflow? && given.None? then run.marker else given
  }

  function DoRecover(run: Run, given: Option<CheckpointRef>, now: int): Result
  {
    var source := RecoverySource(run, given);
    if run.kind.Workflow? && source.None? then Err(MissingRecoveryCheckpoint)
    else if run.status.Recovering? then
      var current := if LastOpen(run.history) then run.history[|run.history| - 1].checkpoint else None;
      if current == source then Ok(run) else Err(RecoverySourceConflict)
    else if Terminal(run.status) || run.status.Created? then Err(IllegalTransition)
    else Ok(Bump(run, now).(status := Recovering, attempt := run.attempt + 1, continuation := None,
                            history := CloseAttempt(run, now, Interrupted, None)
                                       + [AttemptRecord(run.attempt + 1, now, None, None, source, None)]))
  }

  function DoCommit(run: Run, checkpoint: CheckpointRef, expectedPrevious: Option<CheckpointRef>,
                    definition: Option<nat>, graphVersion: Option<nat>, now: int): Result
  {
    if !run.kind.Workflow? then Err(RequiresWorkflow)
    else if Terminal(run.status) then Err(TerminalCommit)
    else
      var targetDefinition := if definition.Some? then definition.value else run.definition;
      var targetGraph := if graphVersion.Some? then graphVersion.value else run.graphVersion;
      if run.marker == Some(checkpoint) && run.definition == targetDefinition && run.graphVersion == targetGraph then Ok(run)
      else if run.marker != expectedPrevious then Err(StaleMarker)
      else Ok(Bump(run, now).(definition := targetDefinition, graphVersion := targetGraph, marker := Some(checkpoint)))
  }

  /** complete, fail and cancel: end the Run and its current attempt. A RUNNING Run remembers no
      phase, so complete has none to clear. */
  function Finish(run: Run, status: Status, outcome: AttemptOutcome, error: Option<ErrorSummary>, now: int): Run
  {
    Bump(run, now).(status := status, endedAt := Some(now),
                    continuation := if status.Succeeded? then run.continuation else None,
                    error := if error.Some? then error else run.error,
                    history := CloseAttempt(run, now, outcome, error))
  }

  function DoComplete(run: Run, now: int): Result
  {
    if run.status.Succeeded? then Ok(run)
    else if !run.status.Running? then Err(IllegalTransition)
    else Ok(Finish(run, Succeeded, AttemptSucceeded, None, now))
  }

  function DoFail(run: Run, detail: ErrorDetail, now: int): Result
  {
    if run.status.Failed? then Ok(run)
    else if Terminal(run.status) then Err(IllegalTransition)
    else Ok(Finish(run, Failed, FinalFailure, Some(ErrorSummary(detail, run.attempt, now)), now))
  }

  function DoCancel(run: Run, now: int): Result
  {
    if run.status.Cancelled? then Ok(run)
    else if Terminal(run.status) then Err(IllegalTransition)
    else Ok(Finish(run, Cancelled, AttemptCancelled, None, now))
  }

  function Apply(run: Run, op: Op, expected: nat, now: int): Result
  {
    if run.version != expected then Err(StaleVersion) else
    match op
    case Start => DoStart(run, now)
    case Advance(target) => DoAdvance(run, target, now)
    case Pause => DoPause(run, now)
    case Resume => DoContinue(run, Paused, now)
    case Retry(detail) => DoRetry(run, detail, now)
    case RedispatchRetry => DoContinue(run, Retrying, now)
    case Recover(source) => DoRecover(run, source, now)
    case CommitCheckpoint(checkpoint, expectedPrevious, definition, graphVersion) =>
      DoCommit(run, checkpoint, expectedPrevious, definition, graphVersion, now)
    case Complete => DoComplete(run, now)
    case Fail(detail) => DoFail(run, detail, now)
    case Cancel => DoCancel(run, now)
  }

  // ---------------------------------------------------------------- attempt accounting

  /** Attempts that ended without ending the Run. */
  function Interruptions(history: seq<AttemptRecord>): nat
  {
    if history == [] then 0
    else
      var last := history[|history| - 1].outcome;
      Interruptions(history[..|history| - 1]) + if last == Some(RetryableFailure) || last == Some(Interrupted) then 1 else 0
  }

  /** No record has been opened for the current attempt. */
  function UnopenedAfter(unopened: bool, before: Run, op: Op, after: Run): bool
  {
    if after == before then unopened
    else match op
    case Retry(_) => true
    case Pause => unopened
    case CommitCheckpoint(_, _, _, _) => unopened
    case Advance(_) => unopened && !before.status.Recovering?
    case _ => false
  }

  ghost predicate HistoryNumbered(history: seq<AttemptRecord>, now: int)
  {
    && (forall i :: 0 <= i < |history| ==> history[i].attempt == i + 1 && RecordAccepted(history[i]))
    && (forall i :: 0 <= i < |history| - 1 ==> !Open(history[i]))
    && (forall i :: 0 <= i < |history| ==> history[i].startedAt <= now)
  }

  /** The attempt ledger of a reachable Run: records are numbered from 1 without gaps, only the
      last may be open, and all but the current attempt were interrupted. */
  ghost predicate Accounting(run: Run, unopened: bool, now: int)
  {
    && HistoryNumbered(run.history, now)
    && run.attempt >= 1
    && |run.history| == (if unopened then run.attempt - 1 else run.attempt)
    && (LastOpen(run.history) <==> !Terminal(run.status) && !unopened)
    && Interruptions(run.history) == run.attempt - 1
    && (run.status.Created? ==> unopened && run.attempt == 1)
    && (run.status.Retrying? ==> unopened)
    && (Terminal(run.status) ==> !unopened)
    && (Terminal(run.status) <==> run.endedAt.Some?)
    && (run.startedAt.Some? ==> run.startedAt.value <= now)
    && ContinuationAccepted(run)
  }

  lemma AccountingImpliesAccepted(run: Run, unopened: bool, now: int)
    requires Accounting(run, unopened, now)
    ensures Accepted(run)
  {
  }

  lemma OpenNumbered(run: Run, now: int, later: int)
    requires HistoryNumbered(run.history, now) && now <= later
    requires LastOpen(run.history) || |run.history| == run.attempt - 1
    ensures var h := OpenAttempt(run, later);
            && HistoryNumbered(h, later) && LastOpen(h)
            && |h| == (if LastOpen(run.history) then |run.history| else run.attempt)
            && Interruptions(h) == Interruptions(run.history)
  {
    if !LastOpen(run.history) {
      var h := OpenAttempt(run, later);
      assert h[..|h| - 1] == run.history;
    }
  }

  lemma CloseNumbered(run: Run, now: int, later: int, outcome: AttemptOutcome, error: Option<ErrorSummary>)
    requires HistoryNumbered(run.history, now) && now <= later
    requires run.startedAt.Some? ==> run.startedAt.value <= now
    requires run.attempt >= 1 && |run.history| == (if LastOpen(run.history) then run.attempt else run.attempt - 1)
    ensures var h := CloseAttempt(run, later, outcome, error);
            && HistoryNumbered(h, later) && |h| == run.attempt && h != [] && !LastOpen(h)
            && Interruptions(h) == Interruptions(run.history)
                                   + (if outcome.RetryableFailure? || outcome.Interrupted? then 1 else 0)
  {
    var h := CloseAttempt(run, later, outcome, error);
    if LastOpen(run.history) {
      assert h[..|h| - 1] == run.history[..|run.history| - 1];
    } else {
      assert h[..|h| - 1] == run.history;
    }
  }

  lemma AppendAttempt(history: seq<AttemptRecord>, record: AttemptRecord, now: int)
    requires HistoryNumbered(history, now) && history != [] && !LastOpen(history)
    requires record.attempt == |history| + 1 && Open(record) && RecordAccepted(record) && record.startedAt <= now
    ensures HistoryNumbered(history + [record], now) && LastOpen(history + [record])
    ensures Interruptions(history + [record]) == Interruptions(history)
  {
    assert (history + [record])[..|history|] == history;
  }

  lemma LaterClock(history: seq<AttemptRecord>, now: int, later: int)
    requires HistoryNumbered(history, now) && now <= later
    ensures HistoryNumbered(history, later)
  {
  }

  lemma StartKeeps(run: Run, unopened: bool, now: int, later: int)
    requires Accounting(run, unopened, now) && now <= later
    requires run.status.Created? && DoStart(run, later).Ok?
    ensures Accounting(DoStart(run, later).run, false, later)
  {
    OpenNumbered(run, now, later);
    hide HistoryNumbered, Interruptions, LastOpen, OpenAttempt;
  }

  lemma AdvanceKeeps(run: Run, unopened: bool, now: int, target: Status, later: int)
    requires Accounting(run, unopened, now) && now <= later
    requires MayAdvance(run.status, target)
    ensures DoAdvance(run, target, later).Ok?
    ensures Accounting(DoAdvance(run, target, later).run, unopened && !run.status.Recovering?, later)
  {
    if run.status.Recovering? {
      OpenNumbered(run, now, later);
      hide HistoryNumbered, Interruptions, LastOpen, OpenAttempt;
    } else {
      LaterClock(run.history, now, later);
      hide HistoryNumbered, Interruptions, LastOpen, OpenAttempt;
    }
  }

  lemma PauseKeeps(run: Run, unopened: bool, now: int, later: int)
    requires Accounting(run, unopened, now) && now <= later
    requires DoPause(run, later).Ok?
    ensures Accounting(DoPause(run, later).run, unopened, later)
  {
    LaterClock(run.history, now, later);
    hide HistoryNumbered, Interruptions, LastOpen;
  }

  lemma ContinueKeeps(run: Run, unopened: bool, now: int, from: Status, later: int)
    requires Accounting(run, unopened, now) && now <= later
    requires from.Paused? || from.Retrying?
    requires DoContinue(run, from, later).Ok?
    ensures Accounting(DoContinue(run, from, later).run, false, later)
  {
    OpenNumbered(run, now, later);
    hide HistoryNumbered, Interruptions, LastOpen, OpenAttempt;
  }

  lemma RetryKeeps(run: Run, unopened: bool, now: int, detail: ErrorDetail, later: int)
    requires Accounting(run, unopened, now) && now <= later
    requires DoRetry(run, detail, later).Ok?
    ensures Accounting(DoRetry(run, detail, later).run, true, later)
  {
    CloseNumbered(run, now, later, RetryableFailure, Some(ErrorSummary(detail, run.attempt, later)));
    hide HistoryNumbered, Interruptions, LastOpen, CloseAttempt;
  }

  lemma RecoverKeeps(run: Run, unopened: bool, now: int, given: Option<CheckpointRef>, later: int)
    requires Accounting(run, unopened, now) && now <= later
    requires DoRecover(run, given, later).Ok? && !run.status.Recovering?
    ensures Accounting(DoRecover(run, given, later).run, false, later)
  {
    CloseNumbered(run, now, later, Interrupted, None);
    AppendAttempt(CloseAttempt(run, later, Interrupted, None),
                  AttemptRecord(run.attempt + 1, later, None, None, RecoverySource(run, given), None), later);
    hide HistoryNumbered, Interruptions, LastOpen, CloseAttempt;
  }

  lemma CommitKeeps(run: Run, unopened: bool, now: int, checkpoint: CheckpointRef, previous: Option<CheckpointRef>,
                    definition: Option<nat>, graphVersion: Option<nat>, later: int)
    requires Accounting(run, unopened, now) && now <= later
    requires DoCommit(run, checkpoint, previous, definition, graphVersion, later).Ok?
    ensures Accounting(DoCommit(run, checkpoint, previous, definition, graphVersion, later).run, unopened, later)
  {
    LaterClock(run.history, now, later);
    hide HistoryNumbered, Interruptions, LastOpen;
  }

  lemma FinishKeeps(run: Run, unopened: bool, now: int, status: Status, outcome: AttemptOutcome,
                    error: Option<ErrorSummary>, later: int)
    requires Accounting(run, unopened, now) && now <= later
    requires Terminal(status) && !Terminal(run.status) && (status.Succeeded? ==> run.status.Running?)
    requires !outcome.RetryableFailure? && !outcome.Interrupted?
    ensures Accounting(Finish(run, status, outcome, error, later), false, later)
  {
    CloseNumbered(run, now, later, outcome, error);
    hide HistoryNumbered, Interruptions, LastOpen, CloseAttempt;
  }

  /** Every successful transition keeps the attempt ledger. */
  lemma ApplyKeepsAccounting(run: Run, unopened: bool, now: int, op: Op, expected: nat, later: int)
    requires Accounting(run, unopened, now) && now <= later
    requires Apply(run, op, expected, later).Ok?
    ensures var after := Apply(run, op, expected, later).run;
            Accounting(after, UnopenedAfter(unopened, run, op, after), later)
  {
    var after := Apply(run, op, expected, later).run;
    if after == run {
      LaterClock(run.history, now, later);
      hide HistoryNumbered, Interruptions, LastOpen;
    } else {
      match op
      case Start => StartKeeps(run, unopened, now, later);
      case Advance(target) => AdvanceKeeps(run, unopened, now, target, later);
      case Pause => PauseKeeps(run, unopened, now, later);
      case Resume => ContinueKeeps(run, unopened, now, Paused, later);
      case Retry(detail) => RetryKeeps(run, unopened, now, detail, later);
      case RedispatchRetry => ContinueKeeps(run, unopened, now, Retrying, later);
      case Recover(given) => RecoverKeeps(run, unopened, now, given, later);
      case CommitCheckpoint(checkpoint, previous, definition, graphVersion) =>
        CommitKeeps(run, unopened, now, checkpoint, previous, definition, graphVersion, later);
      case Complete => FinishKeeps(run, unopened, now, Succeeded, AttemptSucceeded, None, later);
      case Fail(detail) =>
        FinishKeeps(run, unopened, now, Failed, FinalFailure, Some(ErrorSummary(detail, run.attempt, later)), later);
      case Cancel => FinishKeeps(run, unopened, now, Cancelled, AttemptCancelled, None, later);
    }
  }

  // ---------------------------------------------------------------- whole call sequences

  datatype Call = Call(op: Op, expected: nat, now: int)

  /** The Run after a sequence of calls; a rejected call leaves it alone. */
  function After(run: Run, call: Call): Run
  {
    match Apply(run, call.op, call.expected, call.now)
    case Ok(next) => next
    case Err(_) => run
  }

  function Execute(run: Run, calls: seq<Call>): Run
    decreases |calls|
  {
    if calls == [] then run else Execute(After(run, calls[0]), calls[1..])
  }

  /** Unopened at the end of a call sequence. */
  function UnopenedAtEnd(run: Run, unopened: bool, calls: seq<Call>): bool
    decreases |calls|
  {
    if calls == [] then unopened
    else
      var next := After(run, calls[0]);
      UnopenedAtEnd(next, UnopenedAfter(unopened, run, calls[0].op, next), calls[1..])
  }

  ghost predicate Clocked(calls: seq<Call>, start: int)
  {
    if calls == [] then true else start <= calls[0].now && Clocked(calls[1..], calls[0].now)
  }

  function EndClock(calls: seq<Call>, start: int): int
  {
    if calls == [] then start else EndClock(calls[1..], calls[0].now)
  }

  lemma {:induction false} ExecuteKeepsAccounting(run: Run, unopened: bool, now: int, calls: seq<Call>)
    requires Accounting(run, unopened, now) && Clocked(calls, now)
    ensures Accounting(Execute(run, calls), UnopenedAtEnd(run, unopened, calls), EndClock(calls, now))
    decreases |calls|
  {
    if calls != [] {
      var next := After(run, calls[0]);
      assert Accounting(run, unopened, calls[0].now);
      hide Accounting, Apply;
      if Apply(run, calls[0].op, calls[0].expected, calls[0].now).Ok? {
        ApplyKeepsAccounting(run, unopened, now, calls[0].op, calls[0].expected, calls[0].now);
      }
      ExecuteKeepsAccounting(next, UnopenedAfter(unopened, run, calls[0].op, next), calls[0].now, calls[1..]);
    }
  }

  /** From CREATED, under every call sequence with a monotone clock, the ledger stays exact and
      the constructor's checks never fire. */
  lemma AttemptAccounting(id: nat, kind: Kind, definition: nat, graphVersion: nat, now: int, calls: seq<Call>)
    requires Clocked(calls, now)
    ensures var run := Execute(NewRun(id, kind, definition, graphVersion, now), calls);
            && Accounting(run, UnopenedAtEnd(NewRun(id, kind, definition, graphVersion, now), true, calls), EndClock(calls, now))
            && Accepted(run)
  {
    var start := NewRun(id, kind, definition, graphVersion, now);
    ExecuteKeepsAccounting(start, true, now, calls);
    AccountingImpliesAccepted(Execute(start, calls), UnopenedAtEnd(start, true, calls), EndClock(calls, now));
  }

  // ------------------------------------------- when the count trails the attempt number

  /** A retry is pending: RETRYING, or PAUSED out of it. */
  function PendingAfter(pending: bool, before: Run, op: Op, after: Run): bool
  {
    if after == before then pending
    else match op
    case Retry(_) => true
    case Pause => pending
    case CommitCheckpoint(_, _, _, _) => pending
    case _ => false
  }

  function PendingAtEnd(run: Run, pending: bool, calls: seq<Call>): bool
    decreases |calls|
  {
    if calls == [] then pending
    else
      var next := After(run, calls[0]);
      PendingAtEnd(next, PendingAfter(pending, run, calls[0].op, next), calls[1..])
  }

  /** advance(STARTING) applied to a CREATED Run: it leaves CREATED without opening attempt 1. */
  predicate SkipsStart(run: Run, calls: seq<Call>)
    decreases |calls|
  {
    calls != [] && ((run.status.Created? && calls[0].op == Advance(Starting) && calls[0].expected == run.version)
                    || SkipsStart(After(run, calls[0]), calls[1..]))
  }

  lemma UnopenedStep(run: Run, unopened: bool, pending: bool, call: Call)
    requires !(run.status.Created? && call.op == Advance(Starting) && call.expected == run.version)
    requires unopened <==> run.status.Created? || pending
    requires pending ==> run.status.Retrying? || run.status.Paused?
    requires run.continuation != Some(Created)
    ensures var next := After(run, call);
            var pending' := PendingAfter(pending, run, call.op, next);
            && (UnopenedAfter(unopened, run, call.op, next) <==> next.status.Created? || pending')
            && (pending' ==> next.status.Retrying? || next.status.Paused?)
            && next.continuation != Some(Created)
  {
    hide OpenAttempt, CloseAttempt;
  }

  /** Unless a caller skips start, exactly a CREATED Run and a Run with a pending retry have no
      record for their attempt. */
  lemma {:induction false} UnopenedMeaning(run: Run, unopened: bool, pending: bool, calls: seq<Call>)
    requires !SkipsStart(run, calls)
    requires unopened <==> run.status.Created? || pending
    requires pending ==> run.status.Retrying? || run.status.Paused?
    requires run.continuation != Some(Created)
    decreases |calls|
    ensures UnopenedAtEnd(run, unopened, calls) <==> Execute(run, calls).status.Created? || PendingAtEnd(run, pending, calls)
  {
    if calls != [] {
      var call := calls[0];
      var next := After(run, call);
      UnopenedStep(run, unopened, pending, call);
      hide After, UnopenedAfter, PendingAfter;
      UnopenedMeaning(next, UnopenedAfter(unopened, run, call.op, next), PendingAfter(pending, run, call.op, next), calls[1..]);
    }
  }

  /** The number of records: none in CREATED, one less than the attempt number while a retry is
      pending, and the attempt number otherwise. */
  predicate CountHolds(start: Run, calls: seq<Call>)
  {
    var run := Execute(start, calls);
    |run.history| == (if run.status.Created? then 0 else if PendingAtEnd(start, false, calls) then run.attempt - 1 else run.attempt)
  }

  lemma CountUnlessSkipped(id: nat, kind: Kind, definition: nat, graphVersion: nat, now: int, calls: seq<Call>)
    requires Clocked(calls, now)
    requires !SkipsStart(NewRun(id, kind, definition, graphVersion, now), calls)
    ensures CountHolds(NewRun(id, kind, definition, graphVersion, now), calls)
  {
    AttemptAccounting(id, kind, definition, graphVersion, now, calls);
    UnopenedMeaning(NewRun(id, kind, definition, graphVersion, now), true, false, calls);
  }

  lemma {:induction false} PrefixSkips(run: Run, calls: seq<Call>, n: nat)
    requires n <= |calls| && SkipsStart(run, calls[..n])
    ensures SkipsStart(run, calls)
    decreases |calls|
  {
    assert calls[..n][0] == calls[0] && calls[..n][1..] == calls[1..][..n - 1];
    if !(run.status.Created? && calls[0].op == Advance(Starting) && calls[0].expected == run.version) {
      PrefixSkips(After(run, calls[0]), calls[1..], n - 1);
    }
  }

  lemma {:induction false} PrefixClocked(calls: seq<Call>, n: nat, now: int)
    requires n <= |calls| && Clocked(calls, now)
    ensures Clocked(calls[..n], now)
    decreases |calls|
  {
    if n > 0 {
      PrefixClocked(calls[1..], n - 1, calls[0].now);
      assert calls[..n][1..] == calls[1..][..n - 1];
    }
  }

  lemma {:induction false} NeverCreatedAgain(run: Run, calls: seq<Call>)
    requires !run.status.Created? && run.continuation != Some(Created)
    ensures !SkipsStart(run, calls)
    decreases |calls|
  {
    if calls != [] {
      var next := After(run, calls[0]);
      assert !next.status.Created? && next.continuation != Some(Created) by { hide OpenAttempt, CloseAttempt; }
      NeverCreatedAgain(next, calls[1..]);
    }
  }

  /** A call sequence that skips start has a prefix after which the Run is STARTING on attempt 1,
      with no record and no retry pending. */
  lemma {:induction false} SkippedPrefix(run: Run, calls: seq<Call>) returns (n: nat)
    requires SkipsStart(run, calls) && run.status.Created? && run.attempt == 1 && run.history == [] && run.continuation.None?
    ensures n <= |calls| && Execute(run, calls[..n]).status.Starting? && Execute(run, calls[..n]).attempt == 1
    ensures Execute(run, calls[..n]).history == [] && !PendingAtEnd(run, false, calls[..n])
    decreases |calls|
  {
    var call := calls[0];
    var next := After(run, call);
    if call.op == Advance(Starting) && call.expected == run.version {
      n := 1;
      assert calls[..1] == [call];
      assert Execute(next, []) == next;
    } else {
      if !next.status.Created? {
        assert next.continuation != Some(Created) by { hide OpenAttempt, CloseAttempt; }
        NeverCreatedAgain(next, calls[1..]);
        assert false;
      }
      assert next.attempt == 1 && next.history == [] && next.continuation.None? && !PendingAfter(false, run, call.op, next) by {
        hide OpenAttempt, CloseAttempt;
      }
      var m := SkippedPrefix(next, calls[1..]);
      n := m + 1;
      assert calls[..n][0] == call && calls[..n][1..] == calls[1..][..m];
    }
  }

  /** The count holds after every prefix of a call sequence if and only if the sequence does not
      skip start. */
  lemma RecordCount(id: nat, kind: Kind, definition: nat, graphVersion: nat, now: int, calls: seq<Call>)
    requires Clocked(calls, now)
    ensures var start := NewRun(id, kind, definition, graphVersion, now);
            (forall n :: 0 <= n <= |calls| ==> CountHolds(start, calls[..n])) <==> !SkipsStart(start, calls)
  {
    var start := NewRun(id, kind, definition, graphVersion, now);
    if SkipsStart(start, calls) {
      var n := SkippedPrefix(start, calls);
      assert !CountHolds(start, calls[..n]);
    } else {
      forall n | 0 <= n <= |calls| ensures CountHolds(start, calls[..n]) {
        if SkipsStart(start, calls[..n]) { PrefixSkips(start, calls, n); }
        PrefixClocked(calls, n, now);
        CountUnlessSkipped(id, kind, definition, graphVersion, now, calls[..n]);
      }
    }
  }

  /** Skipping start does break that count: a STARTING Run on attempt 1 with no record. */
  lemma SkippedStartBreaksRecordCount()
    ensures var run := Execute(NewRun(0, Workflow, 0, 0, 0), [Call(Advance(Starting), 0, 0)]);
            run.status.Starting? && run.attempt == 1 && run.history == []
  {
    var start := NewRun(0, Workflow, 0, 0, 0);
    var calls := [Call(Advance(Starting), 0, 0)];
    assert Execute(start, calls) == After(start, calls[0]);
  }

  // ---------------------------------------------------------------- facts used by the protocols

  /** A successful call either returns the Run unchanged or the next version of it. */
  lemma ApplyVersion(run: Run, op: Op, expected: nat, now: int)
    requires Apply(run, op, expected, now).Ok?
    ensures var after := Apply(run, op, expected, now).run;
            && run.version == expected && after.id == run.id && after.kind == run.kind
            && (after == run || after.version == run.version + 1)
  {
  }

  /** A commit succeeds exactly on a live workflow Run at the expected marker, or when it would
      change nothing; it then changes only the marker, the version and the time, and under
      migration the definition and graph version to the ones given. */
  lemma CommitExactly(run: Run, ref: CheckpointRef, previous: Option<CheckpointRef>, definition: Option<nat>, graph: Option<nat>, now: int)
    ensures var done := Apply(run, CommitCheckpoint(ref, previous, definition, graph), run.version, now);
            var same := run.marker == Some(ref) && (definition.Some? ==> run.definition == definition.value)
                        && (graph.Some? ==> run.graphVersion == graph.value);
            && (done.Ok? <==> run.kind.Workflow? && !Terminal(run.status) && (same || run.marker == previous))
            && (done.Ok? ==>
                 && done.run.marker == Some(ref)
                 && (definition.Some? ==> done.run.definition == definition.value)
                 && (graph.Some? ==> done.run.graphVersion == graph.value)
                 && done.run.(marker := run.marker, definition := run.definition, graphVersion := run.graphVersion,
                              version := run.version, updatedAt := run.updatedAt) == run)
            && (done.Ok? && definition.None? && graph.None? ==>
                 done.run.(marker := run.marker, version := run.version, updatedAt := run.updatedAt) == run)
  {
  }

  /** No call moves a Run out of a terminal status, or changes a terminal Run at all. */
  lemma TerminalIsFinal(run: Run, op: Op, expected: nat, now: int)
    requires Terminal(run.status)
    requires Apply(run, op, expected, now).Ok?
    ensures Apply(run, op, expected, now).run == run
  {
  }

  /** Only a checkpoint commit moves the marker or the definition. */
  lemma MarkerMovesByCommit(run: Run, op: Op, expected: nat, now: int)
    requires Apply(run, op, expected, now).Ok? && !op.CommitCheckpoint?
    ensures var after := Apply(run, op, expected, now).run;
            after.marker == run.marker && after.definition == run.definition && after.graphVersion == run.graphVersion
  {
  }
}
