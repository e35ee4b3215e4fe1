/** The Run constructor's checks against single operations: which operations can leave an accepted
    Run unaccepted, and exactly when. */
module RunChecks {
  import opened Wrappers
  import opened RunMachine

  predicate LastBefore(run: Run) { run.history != [] ==> run.history[|run.history| - 1].attempt < run.attempt }

  /** Opening a record for the current attempt: there is one, or the last belongs to an earlier attempt. */
  predicate MayOpen(run: Run) { LastOpen(run.history) || LastBefore(run) }

  /** Closing the current attempt at now: its open record is not younger than now, or there is none
      and the Run itself did not start later. */
  predicate MayClose(run: Run, now: int)
  {
    if LastOpen(run.history) then run.history[|run.history| - 1].startedAt <= now
    else LastBefore(run) && (run.startedAt.Some? ==> run.startedAt.value <= now)
  }

  lemma OpenExactly(run: Run, now: int)
    requires Accepted(run)
    ensures HistoryAccepted(OpenAttempt(run, now), run.attempt) <==> MayOpen(run)
  {
    if !LastOpen(run.history) {
      var h, last := OpenAttempt(run, now), |run.history|;
      assert forall i :: 0 <= i < last ==> h[i] == run.history[i];
      assert h[last].attempt == run.attempt;
      if last > 0 { assert h[last - 1] == run.history[last - 1]; }
    }
  }

  lemma CloseExactly(run: Run, now: int, outcome: AttemptOutcome, error: Option<ErrorSummary>)
    requires Accepted(run)
    ensures HistoryAccepted(CloseAttempt(run, now, outcome, error), run.attempt) <==> MayClose(run, now)
    ensures var h := CloseAttempt(run, now, outcome, error); h != [] && !Open(h[|h| - 1]) && h[|h| - 1].attempt == run.attempt
  {
    var h := CloseAttempt(run, now, outcome, error);
    var last := |h| - 1;
    assert forall i :: 0 <= i < last ==> h[i] == run.history[i];
    if LastOpen(run.history) {
      assert RecordAccepted(run.history[last]);
      assert RecordAccepted(h[last]) <==> run.history[last].startedAt <= now;
    } else {
      assert RecordAccepted(h[last]) <==> (run.startedAt.Some? ==> run.startedAt.value <= now);
      if last > 0 { assert h[last - 1] == run.history[last - 1]; }
    }
  }

  /** The part of the checks that is about the history. */
  predicate HistoryAccepted(history: seq<AttemptRecord>, attempt: nat)
  {
    && (forall i :: 0 <= i < |history| ==> RecordAccepted(history[i]))
    && (forall i, j :: 0 <= i < j < |history| ==> history[i].attempt < history[j].attempt)
    && (history != [] ==> history[|history| - 1].attempt <= attempt)
    && (forall i :: 0 <= i < |history| && Open(history[i]) ==> i == |history| - 1 && history[i].attempt == attempt)
  }

  /** A closed history stays accepted under a higher attempt number, and one more record for that
      attempt may follow. */
  lemma ClosedExtends(history: seq<AttemptRecord>, attempt: nat, record: AttemptRecord)
    requires history != [] && !Open(history[|history| - 1]) && history[|history| - 1].attempt == attempt
    requires Open(record) && record.outcome.None? && record.attempt == attempt + 1
    ensures HistoryAccepted(history, attempt) <==> HistoryAccepted(history, attempt + 1)
    ensures HistoryAccepted(history, attempt) <==> HistoryAccepted(history + [record], attempt + 1)
  {
    var h := history + [record];
    assert forall i :: 0 <= i < |history| ==> h[i] == history[i];
    if HistoryAccepted(h, attempt + 1) {
      forall i | 0 <= i < |history| ensures RecordAccepted(history[i]) && !Open(history[i]) { assert RecordAccepted(h[i]); }
    }
  }

  lemma AcceptedMeans(run: Run)
    ensures Accepted(run) <==>
      && run.attempt >= 1 && (Terminal(run.status) <==> run.endedAt.Some?)
      && HistoryAccepted(run.history, run.attempt) && ContinuationAccepted(run)
  {
  }

  /** What an operation needs of an accepted Run, beyond being legal, to leave it accepted. */
  predicate Keeps(run: Run, op: Op, now: int)
  {
    match op
    case Start => MayOpen(run)
    case Advance(_) => run.status.Recovering? ==> MayOpen(run)
    case Pause => true
    case CommitCheckpoint(_, _, _, _) => true
    case Resume => MayOpen(run)
    case RedispatchRetry => MayOpen(run)
    case Retry(_) => MayClose(run, now)
    case Recover(_) => MayClose(run, now)
    case Complete => MayClose(run, now)
    case Fail(_) => MayClose(run, now)
    case Cancel => MayClose(run, now)
  }

  lemma OpeningKeepsExactly(run: Run, op: Op, now: int)
    requires Accepted(run) && Apply(run, op, run.version, now).Ok? && Apply(run, op, run.version, now).run != run
    requires op.Start? || op.Resume? || op.RedispatchRetry? || op.Advance?
    ensures Accepted(Apply(run, op, run.version, now).run) <==> Keeps(run, op, now)
  {
    hide Accepted, HistoryAccepted, OpenAttempt, MayOpen;
    OpenExactly(run, now);
    AcceptedMeans(run);
    AcceptedMeans(Apply(run, op, run.version, now).run);
  }

  lemma ClosingKeepsExactly(run: Run, op: Op, now: int)
    requires Accepted(run) && Apply(run, op, run.version, now).Ok? && Apply(run, op, run.version, now).run != run
    requires op.Complete? || op.Fail? || op.Cancel?
    ensures Accepted(Apply(run, op, run.version, now).run) <==> Keeps(run, op, now)
  {
    CloseExactly(run, now, AttemptSucceeded, None);
    CloseExactly(run, now, AttemptCancelled, None);
    if op.Fail? { CloseExactly(run, now, FinalFailure, Some(ErrorSummary(op.error, run.attempt, now))); }
    AcceptedMeans(run);
    AcceptedMeans(Apply(run, op, run.version, now).run);
    hide Accepted, HistoryAccepted, CloseAttempt, MayClose;
  }

  lemma RetryKeepsExactly(run: Run, detail: ErrorDetail, now: int)
    requires Accepted(run) && Apply(run, Retry(detail), run.version, now).Ok?
    ensures Accepted(Apply(run, Retry(detail), run.version, now).run) <==> MayClose(run, now)
  {
    var summary := Some(ErrorSummary(detail, run.attempt, now));
    AcceptedMeans(run);
    AcceptedMeans(Apply(run, Retry(detail), run.version, now).run);
    CloseExactly(run, now, RetryableFailure, summary);
    hide Accepted, HistoryAccepted, CloseAttempt, MayClose;
    ClosedExtends(CloseAttempt(run, now, RetryableFailure, summary), run.attempt, AttemptRecord(run.attempt + 1, now, None, None, None, None));
  }

  /** What recover makes of a Run that is not recovering yet. */
  lemma RecoverMakes(run: Run, source: Option<CheckpointRef>, now: int)
    requires Apply(run, Recover(source), run.version, now).Ok? && !run.status.Recovering?
    ensures var after := Apply(run, Recover(source), run.version, now).run;
            && after.status.Recovering? && after.attempt == run.attempt + 1 && after.endedAt == run.endedAt && after.continuation.None?
            && after.history == CloseAttempt(run, now, Interrupted, None)
                                + [AttemptRecord(run.attempt + 1, now, None, None, RecoverySource(run, source), None)]
            && !Terminal(run.status)
  {
    hide CloseAttempt;
  }

  lemma RecoverKeepsExactly(run: Run, source: Option<CheckpointRef>, now: int)
    requires Accepted(run) && Apply(run, Recover(source), run.version, now).Ok? && !run.status.Recovering?
    ensures Accepted(Apply(run, Recover(source), run.version, now).run) <==> MayClose(run, now)
  {
    var after := Apply(run, Recover(source), run.version, now).run;
    hide Accepted, HistoryAccepted, CloseAttempt, MayClose, LastOpen, Apply;
    AcceptedMeans(run);
    AcceptedMeans(after);
    CloseExactly(run, now, Interrupted, None);
    RecoverMakes(run, source, now);
    var record := AttemptRecord(run.attempt + 1, now, None, None, RecoverySource(run, source), None);
    ClosedExtends(CloseAttempt(run, now, Interrupted, None), run.attempt, record);
  }

  /** For every operation: exactly when it leaves an accepted Run accepted. An operation that changes
      nothing always does. */
  lemma AcceptedKeptExactly(run: Run, op: Op, now: int)
    requires Accepted(run) && Apply(run, op, run.version, now).Ok?
    ensures var after := Apply(run, op, run.version, now).run;
            Accepted(after) <==> after == run || Keeps(run, op, now)
  {
    var after := Apply(run, op, run.version, now).run;
    if after != run {
      match op
      case Retry(detail) => RetryKeepsExactly(run, detail, now);
      case Recover(source) => RecoverKeepsExactly(run, source, now);
      case Complete => ClosingKeepsExactly(run, op, now);
      case Fail(_) => ClosingKeepsExactly(run, op, now);
      case Cancel => ClosingKeepsExactly(run, op, now);
      case Pause => AcceptedMeans(run); AcceptedMeans(after); hide Accepted, HistoryAccepted;
      case CommitCheckpoint(_, _, _, _) => AcceptedMeans(run); AcceptedMeans(after); hide Accepted, HistoryAccepted;
      case _ => OpeningKeepsExactly(run, op, now);
    }
  }

  predicate Breaks(run: Run, op: Op, now: int)
  {
    Apply(run, op, run.version, now).Ok? && !Accepted(Apply(run, op, run.version, now).run)
  }

  /** The family that fails at any time: the current attempt's record is closed already. */
  lemma ClosedCurrentBreaks(run: Run, op: Op, now: int)
    requires Accepted(run) && run.history != [] && !LastOpen(run.history) && run.history[|run.history| - 1].attempt == run.attempt
    requires Apply(run, op, run.version, now).Ok? && Apply(run, op, run.version, now).run != run
    ensures Breaks(run, op, now) <==> !op.Pause? && !op.CommitCheckpoint? && (op.Advance? ==> run.status.Recovering?)
  {
    AcceptedKeptExactly(run, op, now);
    hide Accepted, Apply;
  }

  function ClosedRunning(): Run
  {
    NewRun(0, Workflow, 0, 0, 0).(status := Running, history := [AttemptRecord(1, 0, Some(0), Some(Interrupted), None, None)])
  }

  lemma ClosedRunningAccepted()
    ensures Accepted(ClosedRunning()) && Accepted(ClosedRunning().(status := Paused, continuation := Some(Running)))
  {
    AcceptedMeans(ClosedRunning());
    AcceptedMeans(ClosedRunning().(status := Paused, continuation := Some(Running)));
    hide Accepted;
  }

  /** Instances: completing, cancelling or recovering such a RUNNING Run, or resuming a PAUSED one,
      lists attempt 1 twice. */
  lemma AcceptedIsNotInductive()
    ensures Accepted(ClosedRunning()) && Accepted(ClosedRunning().(status := Paused, continuation := Some(Running)))
    ensures Breaks(ClosedRunning(), Complete, 0) && Breaks(ClosedRunning(), Cancel, 0)
    ensures Breaks(ClosedRunning(), Recover(Some(CheckpointRef(0))), 0)
    ensures Breaks(ClosedRunning().(status := Paused, continuation := Some(Running)), Resume, 0)
  {
    var running := ClosedRunning();
    ClosedRunningAccepted();
    hide Breaks, Accepted;
    ClosedCurrentBreaks(running, Complete, 0);
    ClosedCurrentBreaks(running, Cancel, 0);
    ClosedCurrentBreaks(running, Recover(Some(CheckpointRef(0))), 0);
    ClosedCurrentBreaks(running.(status := Paused, continuation := Some(Running)), Resume, 0);
  }
}
