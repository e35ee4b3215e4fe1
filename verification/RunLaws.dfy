/** What the lifecycle promises: its transition diagram, and what call sequences leave behind. */
module RunLaws {
  import opened Wrappers
  import opened RunMachine

  // ---------------------------------------------------------------- the transition diagram

  /** The status changes the lifecycle allows. A paused or retrying Run may return to the phase it
      remembers. */
  predicate LegalMove(run: Run, to: Status)
  {
    var from := run.status;
    var returning := (from.Paused? || from.Retrying?) && run.continuation == Some(to);
    match to
    case Created => false
    case Starting => from.Created? || returning
    case ContextLoading => from.Starting? || returning
    case Running => from.ContextLoading? || from.WaitingApproval? || from.Recovering? || returning
    case WaitingApproval => from.Running? || returning
    case Paused => !Terminal(from) && !from.Created? && !from.Paused?
    case Retrying => from.Starting? || from.ContextLoading? || from.Running?
    case Recovering => !Terminal(from) && !from.Created? && !from.Recovering?
    case Succeeded => from.Running?
    case Failed => !Terminal(from)
    case Cancelled => !Terminal(from)
  }

  /** The operation that makes a legal move. */
  function Mover(run: Run, to: Status): Op
  {
    var returning := (run.status.Paused? || run.status.Retrying?) && run.continuation == Some(to);
    if returning && !to.Recovering? then if run.status.Paused? then Resume else RedispatchRetry
    else match to
      case Starting => Start
      case Paused => Pause
      case Retrying => Retry(ErrorDetail(0, true))
      case Recovering => Recover(Some(CheckpointRef(0)))
      case Succeeded => Complete
      case Failed => Fail(ErrorDetail(0, false))
      case Cancelled => Cancel
      case _ => Advance(to)
  }

  ghost predicate Reaches(run: Run, to: Status)
  {
    exists op, now :: Apply(run, op, run.version, now).Ok? && Apply(run, op, run.version, now).run.status == to
  }

  lemma MoveIsLegal(run: Run, op: Op, now: int)
    requires ContinuationAccepted(run)
    requires Apply(run, op, run.version, now).Ok? && Apply(run, op, run.version, now).run.status != run.status
    ensures LegalMove(run, Apply(run, op, run.version, now).run.status)
  {
    hide OpenAttempt, CloseAttempt;
  }

  lemma LegalMoveIsMade(run: Run, to: Status, now: int)
    requires ContinuationAccepted(run) && LegalMove(run, to) && to != run.status
    ensures Apply(run, Mover(run, to), run.version, now).Ok?
    ensures Apply(run, Mover(run, to), run.version, now).run.status == to
  {
    hide OpenAttempt, CloseAttempt;
  }

  /** Some operation takes a Run to another status if and only if the diagram has that move. */
  lemma DiagramExactly(run: Run, to: Status)
    requires ContinuationAccepted(run) && to != run.status
    ensures Reaches(run, to) <==> LegalMove(run, to)
  {
    if Reaches(run, to) {
      var op, now :| Apply(run, op, run.version, now).Ok? && Apply(run, op, run.version, now).run.status == to;
      MoveIsLegal(run, op, now);
    }
    if LegalMove(run, to) { LegalMoveIsMade(run, to, 0); }
  }

  // ---------------------------------------------------------------- interruptions keep the phase

  /** The phase a Run is in, or will return to. */
  function Phase(run: Run): Status
  {
    if (run.status.Paused? || run.status.Retrying?) && run.continuation.Some? then run.continuation.value else run.status
  }

  predicate Interrupts(op: Op)
  {
    op.Pause? || op.Resume? || op.Retry? || op.RedispatchRetry? || op.CommitCheckpoint?
  }

  /** Whatever pauses, resumes, retries, redispatches and commits arrive, in whatever order and at
      whatever versions, the Run stays in its phase, and its attempt number counts the retries. */
  lemma {:induction false} PhaseSurvives(run: Run, calls: seq<Call>)
    requires ContinuationAccepted(run) && forall i :: 0 <= i < |calls| ==> Interrupts(calls[i].op)
    ensures Phase(Execute(run, calls)) == Phase(run) && ContinuationAccepted(Execute(run, calls))
    ensures Execute(run, calls).attempt == run.attempt + Retries(run, calls)
    decreases |calls|
  {
    if calls != [] {
      var next := After(run, calls[0]);
      assert Phase(next) == Phase(run) && ContinuationAccepted(next) by { hide OpenAttempt, CloseAttempt; }
      assert next.attempt == run.attempt + (if calls[0].op.Retry? && next != run then 1 else 0) by { hide OpenAttempt, CloseAttempt; }
      hide ContinuationAccepted, Phase, After;
      PhaseSurvives(next, calls[1..]);
    }
  }

  /** The retries of a call sequence that were accepted. */
  function Retries(run: Run, calls: seq<Call>): nat
    decreases |calls|
  {
    if calls == [] then 0
    else
      var next := After(run, calls[0]);
      (if calls[0].op.Retry? && next != run then 1 else 0) + Retries(next, calls[1..])
  }

  // ---------------------------------------------------------------- every record has its call

  /** How an operation ends the attempt it is applied in. */
  function EndingOf(op: Op, run: Run, now: int): Option<(AttemptOutcome, Option<ErrorSummary>)>
  {
    match op
    case Retry(detail) => Some((RetryableFailure, Some(ErrorSummary(detail, run.attempt, now))))
    case Recover(_) => Some((Interrupted, None))
    case Complete => Some((AttemptSucceeded, None))
    case Fail(detail) => Some((FinalFailure, Some(ErrorSummary(detail, run.attempt, now))))
    case Cancel => Some((AttemptCancelled, None))
    case _ => None
  }

  /** The call changed the Run and ended its attempt. */
  predicate EndsAttempt(run: Run, call: Call)
  {
    After(run, call) != run && EndingOf(call.op, run, call.now).Some?
  }

  /** The record is what that call leaves of the attempt it ended. */
  predicate RecordsEnding(run: Run, call: Call, record: AttemptRecord)
  {
    && EndsAttempt(run, call)
    && var ending := EndingOf(call.op, run, call.now).value;
       record.attempt == run.attempt && record.outcome == Some(ending.0) && record.error == ending.1 && record.endedAt == Some(call.now)
  }

  /** The record was opened by a recovery and remembers its source. */
  predicate RecordsSource(run: Run, call: Call, record: AttemptRecord)
  {
    && call.op.Recover? && After(run, call) != run
    && record.attempt == run.attempt + 1 && record.startedAt == call.now && record.checkpoint == RecoverySource(run, call.op.source)
  }

  ghost predicate SameClosed(h: seq<AttemptRecord>, later: seq<AttemptRecord>, i: nat)
  {
    i < |h| ==> i < |later| && later[i].attempt == h[i].attempt && later[i].startedAt == h[i].startedAt && later[i].checkpoint == h[i].checkpoint
                && (!Open(h[i]) ==> later[i] == h[i])
  }

  /** What StepRecords says of record i. */
  ghost predicate Explained(run: Run, call: Call, next: Run, i: nat)
  {
    && SameClosed(run.history, next.history, i)
    && (i < |next.history| && !Open(next.history[i]) ==>
         (i < |run.history| && next.history[i] == run.history[i]) || RecordsEnding(run, call, next.history[i]))
    && (i < |next.history| && next.history[i].checkpoint.Some? ==>
         (i < |run.history| && run.history[i].checkpoint == next.history[i].checkpoint) || RecordsSource(run, call, next.history[i]))
  }

  lemma CloseRecords(run: Run, unopened: bool, now: int, later: int, outcome: AttemptOutcome, error: Option<ErrorSummary>, i: nat)
    requires Accounting(run, unopened, now) && !Terminal(run.status)
    ensures var h := CloseAttempt(run, later, outcome, error);
            && |h| == run.attempt && SameClosed(run.history, h, i)
            && h[run.attempt - 1].attempt == run.attempt && h[run.attempt - 1].outcome == Some(outcome)
            && h[run.attempt - 1].error == error && h[run.attempt - 1].endedAt == Some(later)
            && (i < run.attempt - 1 ==> i < |run.history| && h[i] == run.history[i])
            && (i == run.attempt - 1 && h[i].checkpoint.Some? ==> i < |run.history| && h[i].checkpoint == run.history[i].checkpoint)
  {
    hide Interruptions;
  }

  lemma OpeningStep(run: Run, unopened: bool, now: int, call: Call, i: nat)
    requires Accounting(run, unopened, now) && After(run, call) != run
    requires call.op.Start? || call.op.Resume? || call.op.RedispatchRetry? || call.op.Advance? || call.op.Pause? || call.op.CommitCheckpoint?
    ensures Explained(run, call, After(run, call), i)
  {
    assert After(run, call).history == run.history
        || (!LastOpen(run.history) && After(run, call).history == run.history + [AttemptRecord(run.attempt, call.now, None, None, None, None)]) by {
      hide Accounting, ContinuationAccepted;
    }
    hide Accounting, After;
  }

  lemma FinishingStep(run: Run, unopened: bool, now: int, call: Call, i: nat)
    requires Accounting(run, unopened, now) && EndsAttempt(run, call) && !call.op.Recover?
    ensures Explained(run, call, After(run, call), i)
    ensures var next := After(run, call); run.attempt - 1 < |next.history| && RecordsEnding(run, call, next.history[run.attempt - 1])
  {
    var ending := EndingOf(call.op, run, call.now).value;
    assert !Terminal(run.status) && After(run, call).history == CloseAttempt(run, call.now, ending.0, ending.1) by {
      hide Accounting, CloseAttempt, ContinuationAccepted;
    }
    CloseRecords(run, unopened, now, call.now, ending.0, ending.1, i);
    assert run.attempt >= 1;
    hide Accounting, CloseAttempt, After;
  }

  lemma RecoveringStep(run: Run, unopened: bool, now: int, call: Call, i: nat)
    requires Accounting(run, unopened, now) && EndsAttempt(run, call) && call.op.Recover?
    ensures Explained(run, call, After(run, call), i)
    ensures var next := After(run, call);
            && run.attempt < |next.history| && RecordsEnding(run, call, next.history[run.attempt - 1])
            && RecordsSource(run, call, next.history[run.attempt])
  {
    var record := AttemptRecord(run.attempt + 1, call.now, None, None, RecoverySource(run, call.op.source), None);
    assert !Terminal(run.status) && After(run, call).history == CloseAttempt(run, call.now, Interrupted, None) + [record] by {
      hide Accounting, CloseAttempt, ContinuationAccepted;
    }
    CloseRecords(run, unopened, now, call.now, Interrupted, None, i);
    assert run.attempt >= 1;
    hide Accounting, CloseAttempt, After;
  }

  /** One call: earlier records keep their origin, closed ones stay, and what is newly closed or
      newly carries a source is this call's doing. */
  lemma StepRecords(run: Run, unopened: bool, now: int, call: Call, i: nat)
    requires Accounting(run, unopened, now)
    ensures var next := After(run, call);
            && Explained(run, call, next, i)
            && (EndsAttempt(run, call) ==>
                 run.attempt >= 1 && run.attempt - 1 < |next.history| && RecordsEnding(run, call, next.history[run.attempt - 1]))
            && (EndsAttempt(run, call) && call.op.Recover? ==> run.attempt < |next.history| && RecordsSource(run, call, next.history[run.attempt]))
  {
    assert run.attempt >= 1;
    if After(run, call) != run {
      hide Accounting, Explained, After;
      if !EndsAttempt(run, call) {
        OpeningStep(run, unopened, now, call, i);
      } else if call.op.Recover? {
        RecoveringStep(run, unopened, now, call, i);
      } else {
        FinishingStep(run, unopened, now, call, i);
      }
    }
  }

  lemma {:induction false} ExecuteLast(run: Run, calls: seq<Call>)
    requires calls != []
    ensures Execute(run, calls) == After(Execute(run, calls[..|calls| - 1]), calls[|calls| - 1])
    decreases |calls|
  {
    hide After;
    if |calls| > 1 {
      ExecuteLast(After(run, calls[0]), calls[1..]);
      assert calls[1..][..|calls| - 2] == calls[..|calls| - 1][1..];
    } else {
      assert calls[..0] == [] && calls[1..] == [];
    }
  }

  /** Record i is closed exactly as call j ended its attempt. */
  ghost predicate EndedBy(start: Run, calls: seq<Call>, j: nat, record: AttemptRecord)
    requires j < |calls|
  {
    RecordsEnding(Execute(start, calls[..j]), calls[j], record)
  }

  ghost predicate SourcedBy(start: Run, calls: seq<Call>, j: nat, record: AttemptRecord)
    requires j < |calls|
  {
    RecordsSource(Execute(start, calls[..j]), calls[j], record)
  }

  /** The two directions for one record and one call. */
  ghost predicate LedgerHolds(start: Run, calls: seq<Call>, i: nat)
  {
    var h := Execute(start, calls).history;
    && (i < |h| && !Open(h[i]) ==> exists j :: 0 <= j < |calls| && EndedBy(start, calls, j, h[i]))
    && (i < |h| && h[i].checkpoint.Some? ==> exists j :: 0 <= j < |calls| && SourcedBy(start, calls, j, h[i]))
  }

  ghost predicate CallIsRecorded(start: Run, calls: seq<Call>, j: nat)
    requires j < |calls|
  {
    RecordedIn(Execute(start, calls[..j]), calls[j], Execute(start, calls).history)
  }

  ghost predicate Accounted(run: Run) { exists unopened, clock :: Accounting(run, unopened, clock) }

  /** The Run meets the attempt ledger after every prefix of the calls. */
  ghost predicate Accountable(start: Run, calls: seq<Call>)
  {
    forall n :: 0 <= n <= |calls| ==> Accounted(Execute(start, calls[..n]))
  }

  lemma NewRunAccountable(id: nat, kind: Kind, definition: nat, graphVersion: nat, now: int, calls: seq<Call>)
    requires Clocked(calls, now)
    ensures Accountable(NewRun(id, kind, definition, graphVersion, now), calls)
  {
    var start := NewRun(id, kind, definition, graphVersion, now);
    hide Accounting;
    forall n | 0 <= n <= |calls| ensures Accounted(Execute(start, calls[..n])) {
      PrefixClocked(calls, n, now);
      AttemptAccounting(id, kind, definition, graphVersion, now, calls[..n]);
    }
  }

  lemma PrefixAccountable(start: Run, calls: seq<Call>) returns (front: seq<Call>)
    requires Accountable(start, calls) && calls != []
    ensures front == calls[..|calls| - 1] && Accountable(start, front)
    ensures Accounted(Execute(start, front))
  {
    front := calls[..|calls| - 1];
    hide Accounted;
    forall n | 0 <= n <= |front| ensures Accounted(Execute(start, front[..n])) {
      assert front[..n] == calls[..n];
    }
    assert front[..|front|] == front;
  }

  lemma {:induction false} RecordHasCall(start: Run, calls: seq<Call>, i: nat)
    requires Accountable(start, calls) && start.history == []
    ensures LedgerHolds(start, calls, i)
    decreases |calls|
  {
    if calls != [] {
      hide Accounted, Accountable, After, Execute, EndedBy, SourcedBy;
      var front := PrefixAccountable(start, calls);
      RecordHasCall(start, front, i);
      ExecuteLast(start, calls);
      LastExplains(Execute(start, front), calls[|calls| - 1], i);
      var h := Execute(start, calls).history;
      hide LedgerHolds, Explained;
      if i < |h| && !Open(h[i]) { EndHasCall(start, calls, front, i); }
      if i < |h| && h[i].checkpoint.Some? { SourceHasCall(start, calls, front, i); }
      LedgerMeans(start, calls, i);
    }
  }

  lemma LastExplains(run: Run, call: Call, i: nat)
    requires Accounted(run)
    ensures Explained(run, call, After(run, call), i)
  {
    var unopened, clock :| Accounting(run, unopened, clock);
    hide Accounting, After, Explained;
    StepRecords(run, unopened, clock, call, i);
  }

  lemma LedgerMeans(start: Run, calls: seq<Call>, i: nat)
    requires var h := Execute(start, calls).history;
             && (i < |h| && !Open(h[i]) ==> exists j :: 0 <= j < |calls| && EndedBy(start, calls, j, h[i]))
             && (i < |h| && h[i].checkpoint.Some? ==> exists j :: 0 <= j < |calls| && SourcedBy(start, calls, j, h[i]))
    ensures LedgerHolds(start, calls, i)
  {
    hide Execute, EndedBy, SourcedBy;
  }

  lemma EndHasCall(start: Run, calls: seq<Call>, front: seq<Call>, i: nat)
    requires calls != [] && front == calls[..|calls| - 1] && LedgerHolds(start, front, i)
    requires Explained(Execute(start, front), calls[|calls| - 1], Execute(start, calls), i)
    requires var h := Execute(start, calls).history; i < |h| && !Open(h[i])
    ensures exists j :: 0 <= j < |calls| && EndedBy(start, calls, j, Execute(start, calls).history[i])
  {
    var before, last := Execute(start, front), |calls| - 1;
    var h := Execute(start, calls).history;
    hide Execute, RecordsSource, RecordsEnding;
    if RecordsEnding(before, calls[last], h[i]) {
      assert EndedBy(start, calls, last, h[i]);
    } else {
      var j :| 0 <= j < |front| && EndedBy(start, front, j, h[i]);
      assert front[..j] == calls[..j] && EndedBy(start, calls, j, h[i]);
    }
  }

  lemma SourceHasCall(start: Run, calls: seq<Call>, front: seq<Call>, i: nat)
    requires calls != [] && front == calls[..|calls| - 1] && LedgerHolds(start, front, i)
    requires Explained(Execute(start, front), calls[|calls| - 1], Execute(start, calls), i)
    requires var h := Execute(start, calls).history; i < |h| && h[i].checkpoint.Some?
    ensures exists j :: 0 <= j < |calls| && SourcedBy(start, calls, j, Execute(start, calls).history[i])
  {
    var before, last := Execute(start, front), |calls| - 1;
    var h := Execute(start, calls).history;
    hide Execute, RecordsEnding;
    if RecordsSource(before, calls[last], h[i]) {
      assert SourcedBy(start, calls, last, h[i]);
    } else {
      var j :| 0 <= j < |front| && SourcedBy(start, front, j, before.history[i]);
      assert front[..j] == calls[..j] && SourcedBy(start, calls, j, h[i]);
    }
  }

  /** What CallIsRecorded says of the history h. */
  ghost predicate RecordedIn(before: Run, call: Call, h: seq<AttemptRecord>)
  {
    EndsAttempt(before, call) ==>
      && before.attempt >= 1 && before.attempt - 1 < |h| && RecordsEnding(before, call, h[before.attempt - 1])
      && (call.op.Recover? ==> before.attempt < |h| && h[before.attempt].checkpoint == RecoverySource(before, call.op.source))
  }

  lemma RecordStays(before: Run, call: Call, run: Run, later: Call)
    requires RecordedIn(before, call, run.history)
    requires EndsAttempt(before, call) ==>
      Explained(run, later, After(run, later), before.attempt - 1) && Explained(run, later, After(run, later), before.attempt)
    ensures RecordedIn(before, call, After(run, later).history)
  {
    hide After, EndsAttempt, EndingOf;
  }

  lemma EndsMeans(run: Run, call: Call)
    ensures EndsAttempt(run, call) && call.op.Recover? ==>
      forall record :: RecordsSource(run, call, record) ==> record.checkpoint == RecoverySource(run, call.op.source)
  {
  }

  lemma LastCallIsRecorded(run: Run, call: Call)
    requires Accounted(run)
    ensures RecordedIn(run, call, After(run, call).history)
  {
    var unopened, clock :| Accounting(run, unopened, clock);
    StepRecords(run, unopened, clock, call, 0);
    EndsMeans(run, call);
    hide Accounting, Accounted, After, Explained, EndsAttempt, RecordsEnding, RecordsSource;
  }

  lemma LaterCallKeepsRecord(before: Run, call: Call, run: Run, later: Call)
    requires RecordedIn(before, call, run.history) && Accounted(run)
    ensures RecordedIn(before, call, After(run, later).history)
  {
    var unopened, clock :| Accounting(run, unopened, clock);
    hide Accounting, Accounted, After, Explained, EndsAttempt, RecordsEnding;
    if EndsAttempt(before, call) {
      StepRecords(run, unopened, clock, later, before.attempt - 1);
      StepRecords(run, unopened, clock, later, before.attempt);
    }
    RecordStays(before, call, run, later);
  }

  /** The record of an earlier call survives the last one. */
  lemma RecordSurvives(start: Run, calls: seq<Call>, front: seq<Call>, j: nat)
    requires calls != [] && front == calls[..|calls| - 1] && j < |front|
    requires CallIsRecorded(start, front, j) && Accounted(Execute(start, front))
    requires Execute(start, calls) == After(Execute(start, front), calls[|calls| - 1])
    ensures CallIsRecorded(start, calls, j)
  {
    hide Accounted, Execute, After, RecordedIn;
    assert front[..j] == calls[..j] && front[j] == calls[j];
    LaterCallKeepsRecord(Execute(start, calls[..j]), calls[j], Execute(start, front), calls[|calls| - 1]);
  }

  lemma LastIsRecorded(start: Run, calls: seq<Call>, front: seq<Call>)
    requires calls != [] && front == calls[..|calls| - 1] && Accounted(Execute(start, front))
    requires Execute(start, calls) == After(Execute(start, front), calls[|calls| - 1])
    ensures CallIsRecorded(start, calls, |calls| - 1)
  {
    hide Accounted, Execute, After, RecordedIn;
    LastCallIsRecorded(Execute(start, front), calls[|calls| - 1]);
  }

  lemma {:induction false} CallHasRecord(start: Run, calls: seq<Call>, j: nat)
    requires Accountable(start, calls) && j < |calls|
    ensures CallIsRecorded(start, calls, j)
    decreases |calls|
  {
    hide *;
    var front := PrefixAccountable(start, calls);
    ExecuteLast(start, calls);
    if j == |calls| - 1 {
      LastIsRecorded(start, calls, front);
    } else {
      CallHasRecord(start, front, j);
      RecordSurvives(start, calls, front, j);
    }
  }

  /** Over every call sequence of a new Run: each closed record is closed as exactly the operation
      that ended that attempt says, each recovery source names the recover call that gave it, and
      conversely every call that ended an attempt is found, unchanged, at that attempt's place. */
  lemma RecordsNameTheirCalls(id: nat, kind: Kind, definition: nat, graphVersion: nat, now: int, calls: seq<Call>)
    requires Clocked(calls, now)
    ensures var start := NewRun(id, kind, definition, graphVersion, now);
            && (forall i: nat :: LedgerHolds(start, calls, i))
            && (forall j :: 0 <= j < |calls| ==> CallIsRecorded(start, calls, j))
  {
    var start := NewRun(id, kind, definition, graphVersion, now);
    NewRunAccountable(id, kind, definition, graphVersion, now, calls);
    hide Accountable, LedgerHolds, CallIsRecorded;
    forall i: nat ensures LedgerHolds(start, calls, i) { RecordHasCall(start, calls, i); }
    forall j | 0 <= j < |calls| ensures CallIsRecorded(start, calls, j) { CallHasRecord(start, calls, j); }
  }

  // ---------------------------------------------------------------- entering recovery

  /** Entering RECOVERING opens a new attempt exactly when it is entered by recover: advance and
      resume reach RECOVERING too, and then stay in the attempt. */
  lemma EnteringRecovery(run: Run, op: Op, now: int)
    requires Apply(run, op, run.version, now).Ok? && !run.status.Recovering?
    requires Apply(run, op, run.version, now).run.status.Recovering?
    ensures Apply(run, op, run.version, now).run.attempt == run.attempt + 1 <==> op.Recover?
  {
  }

  lemma AdvanceEntersRecovery(run: Run, now: int)
    requires run.status.Running?
    ensures var done := Apply(run, Advance(Recovering), run.version, now);
            done.Ok? && done.run.status.Recovering? && done.run.attempt == run.attempt && done.run.history == run.history
  {
  }
}
