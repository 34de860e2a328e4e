/** Every step keeps the durable rows truthful: one lemma a transaction, then one a kind of
    event. */
module WritePathRows {
  import opened Outcomes
  import opened WritePath
  import opened WritePathInvariant

  lemma ReleasedIsLast(row: Row, p: Preview)
    requires AttemptsHold(p, row.attempts)
    ensures Released(row) <==> LastReleases(row.attempts)
    ensures AttemptOpen(row) <==> LastOpen(row.attempts)
  {
    if row.attempts != [] {
      var last := |row.attempts| - 1;
      assert row.attempts[last].releases ==> Released(row);
      assert row.attempts[last].ending == StillOpen ==> AttemptOpen(row);
    }
  }

  // --------------------------------------------------------------------------- preservation

  /** Ending an unfinished Change keeps the rows truthful when the ending is earned. */
  lemma FinishKeepsRows(w: World, result: ChangeResult, reason: Option<RecoveryReason>)
    requires RowHolds(w.p, w.row) && w.row.change.Some? && w.row.change.value.result == InFlight
    requires result != InFlight && (reason.Some? <==> result == RecoveryResult)
    requires EndingOk(w.p, w.row, w.row.change.value.(result := result))
    requires w.row.guard.Some? && w.row.guard.value.kept ==> result == SucceededResult
    requires w.flow in {ApplyFlow, KeepFlow, GuardPass, ChangePass}
    requires w.flow == ApplyFlow && w.p.guarded ==> GuardWaiting(w.row) && !w.row.guard.value.kept
    ensures RowsHold(Finish(w, result, reason))
  {
    assert w.row.attempts == [];
  }

  /** A step that leaves the rows alone keeps whatever they say. */
  lemma MoveKeepsRows(w: World, w': World)
    requires RowHolds(w.p, w.row) && w'.p == w.p && w'.row == w.row && PcRows(w')
    ensures RowsHold(w')
  {
  }

  // ----- requests

  lemma ConfirmKeepsRows(w: World, w': World)
    requires RowsHold(w) && BeginNext(w, ConfirmCall) == Some(w')
    ensures RowsHold(w')
  {
  }

  lemma RetryCallKeepsRows(w: World, w': World)
    requires RowsHold(w) && BeginNext(w, RetryCall) == Some(w')
    ensures RowsHold(w')
  {
    ReleasedIsLast(w.row, w.p);
    assert AttemptOk(w.p, NewAttempt(RetryAttempt));
    hide AttemptOk, NewAttempt, ChangeFacts, GuardFacts, StateOk, EndingOk;
    assert w'.row.attempts[..|w'.row.attempts| - 1] == w.row.attempts;
    assert AttemptsOk(w.p, w'.row.attempts);
  }

  lemma OtherCallKeepsRows(w: World, call: Call, w': World)
    requires RowsHold(w) && BeginNext(w, call) == Some(w') && call != ConfirmCall && call != RetryCall
    ensures RowsHold(w')
  {
    if call == ResolveCall { ReleasedIsLast(w.row, w.p); }
  }

  lemma BeginKeepsRows(w: World, call: Call, w': World)
    requires RowsHold(w) && BeginNext(w, call) == Some(w')
    ensures RowsHold(w')
  {
    hide RowsLie, BeginNext;
    match call
    case ConfirmCall => ConfirmKeepsRows(w, w');
    case RetryCall => RetryCallKeepsRows(w, w');
    case _ => OtherCallKeepsRows(w, call, w');
  }

  // ----- before the boundary

  lemma AwaitKeepsRows(w: World)
    requires RowsHold(w) && w.pc == InApply(Acquired)
    ensures RowsHold(Await(w))
  {
  }

  lemma GiveBackKeepsRows(w: World)
    requires RowsHold(w) && w.pc == InApply(Refusing)
    ensures RowsHold(GiveBack(w))
  {
  }

  lemma ConsumeKeepsRows(w: World)
    requires RowsHold(w) && w.pc == InApply(Waiting)
    ensures RowsHold(ConsumeConfirmation(w))
  {
  }

  lemma CheckpointKeepsRows(w: World)
    requires RowsHold(w) && w.pc == InApply(Authorised)
    ensures RowsHold(WriteCheckpoint(w))
  {
  }

  lemma RequestGuardKeepsRows(w: World)
    requires RowsHold(w) && w.pc == InApply(Prepared) && w.p.guarded
    ensures RowsHold(RequestGuard(w))
  {
  }

  lemma NoteArmedKeepsRows(w: World)
    requires RowsHold(w) && w.pc == InApply(GuardTaken) && w.row.guard.Some?
    ensures RowsHold(NoteArmed(w))
  {
  }

  lemma AbandonKeepsRows(w: World, report: GuardReport)
    requires RowsHold(w) && w.pc == InApply(GuardAbandoned(report)) && w.row.guard.Some?
    ensures RowsHold(AbandonArming(w, report))
  {
  }

  lemma FailKeepsRows(w: World)
    requires RowsHold(w) && (w.pc == InApply(GuardGivenUp) || w.pc == InApply(Authorised))
    ensures RowsHold(FailBeforeBoundary(w))
  {
  }

  lemma CrossKeepsRows(w: World)
    requires RowsHold(w) && (w.pc == InApply(GuardReady) || (w.pc == InApply(Prepared) && !w.p.guarded))
    ensures RowsHold(Cross(w))
  {
  }

  // ----- past it

  /** A transaction that moves only the Run's state. */
  lemma StateStepKeepsRows(w: World, state: RunState, pc: Pc, flow: Flow)
    requires RowHolds(w.p, w.row) && w.row.change.Some? && w.row.change.value.result == InFlight
    requires Unfinished(state) && StateOk(w.p, w.row.(state := state), w.row.change.value)
    requires w.row.guard.Some? && w.row.guard.value.kept ==> state == Guarded
    requires PcRows(w.(row := w.row.(state := state), pc := pc, flow := flow))
    ensures RowsHold(w.(row := w.row.(state := state), pc := pc, flow := flow))
  {
    hide PcRows;
  }

  lemma MarkDispatchKeepsRows(w: World)
    requires RowsHold(w) && w.pc == InApply(Crossed) && w.row.change.Some?
    ensures RowsHold(MarkDispatch(w))
  {
  }

  lemma RecordOutcomeKeepsRows(w: World, report: Report)
    requires RowsHold(w) && w.pc == InApply(Reported(report)) && w.row.change.Some?
    ensures RowsHold(RecordOutcome(w, report))
  {
  }

  lemma UnprovenKeepsRows(w: World, read: Option<Reading>)
    requires RowHolds(w.p, w.row) && w.row.change.Some? && w.flow == ApplyFlow
    requires w.row.state in {Applying, RunState.Verifying}
    requires w.row.change.value.outcome in {Some(Written), Some(WriteUnknown)}
    requires w.row.change.value.verification.outcome != Verified
    requires w.p.guarded ==> GuardWaiting(w.row)
    ensures RowsHold(Unproven(w, read))
  {
  }

  lemma AfterOutcomeKeepsRows(w: World, report: Report)
    requires RowsHold(w) && w.pc == InApply(Recorded(report)) && w.row.change.Some?
    ensures RowsHold(AfterOutcome(w, report))
  {
    hide Finish, Unproven, LockOk, AttemptsOk;
    match report.outcome
    case NotWritten => FinishKeepsRows(w, FailedResult, None);
    case WriteUnknown => UnprovenKeepsRows(w, None);
    case Written => StateStepKeepsRows(w, RunState.Verifying, InApply(Observing), w.flow);
  }

  lemma RecordReadingKeepsRows(w: World, reading: Reading)
    requires RowsHold(w) && w.pc == InApply(Observed(reading)) && w.row.change.Some?
    ensures RowsHold(RecordReading(w, reading))
  {
  }

  lemma AfterReadingKeepsRows(w: World, reading: Reading)
    requires RowsHold(w) && w.pc == InApply(Judged(reading)) && w.row.change.Some?
    ensures RowsHold(AfterReading(w, reading))
  {
    hide Finish, Unproven, LockOk, AttemptsOk;
    if reading.outcome != Verified { UnprovenKeepsRows(w, Some(reading)); }
    else if w.p.guarded { StateStepKeepsRows(w, Guarded, Idle, NoFlow); }
    else { FinishKeepsRows(w, SucceededResult, None); }
  }

  lemma ReleaseKeepsRows(w: World, report: GuardReport)
    requires RowsHold(w) && w.pc == InApply(Releasing(report)) && w.row.guard.Some?
    ensures RowsHold(ReleaseGuard(w, report))
  {
  }

  lemma ApplyKeepsRows(w: World, pc: ApplyPc, w': World)
    requires RowsHold(w) && w.pc == InApply(pc) && ApplyCommit(w, pc) == Some(w')
    ensures RowsHold(w')
  {
    hide RowsLie, Await, GiveBack, ConsumeConfirmation, WriteCheckpoint, RequestGuard, NoteArmed, AbandonArming,
      FailBeforeBoundary, Cross, MarkDispatch, RecordOutcome, AfterOutcome, RecordReading, AfterReading, ReleaseGuard;
    match pc
    case Acquired => AwaitKeepsRows(w);
    case Refusing => GiveBackKeepsRows(w);
    case Waiting => ConsumeKeepsRows(w);
    case Authorised => CheckpointKeepsRows(w);
    case Prepared => if w.p.guarded { RequestGuardKeepsRows(w); } else { CrossKeepsRows(w); }
    case GuardTaken => NoteArmedKeepsRows(w);
    case GuardReady => CrossKeepsRows(w);
    case GuardAbandoned(report) => AbandonKeepsRows(w, report);
    case GuardGivenUp => FailKeepsRows(w);
    case Crossed => MarkDispatchKeepsRows(w);
    case Reported(report) => RecordOutcomeKeepsRows(w, report);
    case Recorded(report) => AfterOutcomeKeepsRows(w, report);
    case Observed(reading) => RecordReadingKeepsRows(w, reading);
    case Judged(reading) => AfterReadingKeepsRows(w, reading);
    case Releasing(report) => ReleaseKeepsRows(w, report);
    case _ =>
  }

  // ----- restoring

  lemma MarkRestoreKeepsRows(w: World, current: int)
    requires RowsHold(w) && w.pc == InRestore(RestoreReady(current)) && w.row.change.Some?
    ensures RowsHold(MarkRestore(w, current))
  {
  }

  lemma RecordRestoreKeepsRows(w: World, report: Report)
    requires RowsHold(w) && w.pc == InRestore(RestoreReported(report)) && w.row.change.Some?
    ensures RowsHold(RecordRestore(w, report))
  {
  }

  lemma AfterRestoreKeepsRows(w: World, report: Report)
    requires RowsHold(w) && w.pc == InRestore(RestoreRecorded(report))
    ensures RowsHold(AfterRestore(w, report))
  {
  }

  lemma RecordRereadKeepsRows(w: World, report: Report, reading: Reading)
    requires RowsHold(w) && w.pc == InRestore(Reread(report, reading)) && w.row.change.Some?
    ensures RowsHold(RecordReread(w, report, reading))
  {
  }

  lemma AfterRereadKeepsRows(w: World, report: Report, reading: Reading)
    requires RowsHold(w) && w.pc == InRestore(Rejudged(report, reading)) && w.row.change.Some?
    ensures RowsHold(AfterReread(w, report, reading))
  {
    hide Finish;
    if reading.outcome == Verified { FinishKeepsRows(w, RolledBackResult, None); }
  }

  lemma HoldKeepsRows(w: World, reason: RecoveryReason)
    requires RowsHold(w) && w.pc == InRestore(Holding(reason)) && w.row.change.Some?
    ensures RowsHold(Finish(w, RecoveryResult, Some(reason)))
  {
    hide Finish;
    FinishKeepsRows(w, RecoveryResult, Some(reason));
  }

  lemma RestoreKeepsRows(w: World, pc: RestorePc, w': World)
    requires RowsHold(w) && w.pc == InRestore(pc) && RestoreCommit(w, pc) == Some(w')
    ensures RowsHold(w')
  {
    hide RowsLie, MarkRestore, RecordRestore, AfterRestore, RecordReread, AfterReread, Finish;
    match pc
    case RestoreReady(current) => MarkRestoreKeepsRows(w, current);
    case RestoreReported(report) => RecordRestoreKeepsRows(w, report);
    case RestoreRecorded(report) => AfterRestoreKeepsRows(w, report);
    case Reread(report, reading) => RecordRereadKeepsRows(w, report, reading);
    case Rejudged(report, reading) => AfterRereadKeepsRows(w, report, reading);
    case Holding(reason) => HoldKeepsRows(w, reason);
    case _ =>
  }

  // ----- keeping and lapsing

  /** Settling a waiting guard keeps the rows, whatever the store makes of the update. */
  lemma GuardSettledKeepsRows(w: World, g: GuardRow, pc: Pc)
    requires RowHolds(w.p, w.row) && w.row.change.Some? && GuardWaiting(w.row) && g.armed
    requires g.settled.Some?
    requires g.kept ==> w.row.state == Guarded
    requires PcRows(w.(row := w.row.(guard := Some(g)), pc := pc))
    ensures RowsHold(UpdateGuard(w, g, pc))
  {
    hide PcRows;
    assert PcRows(Rejected(w)) by { RejectedIsQuiet(w); }
  }

  lemma RejectedIsQuiet(w: World)
    ensures !Misplaced(Rejected(w))
  {
  }

  lemma ProofKeepsRows(w: World)
    requires RowsHold(w) && w.pc == InKeep(KeepProven) && w.row.guard.Some?
    ensures RowsHold(RecordProof(w))
  {
    hide UpdateGuard;
    GuardSettledKeepsRows(w, w.row.guard.value.(kept := true, settled := Some(PhaseDisarmed)), InKeep(Kept));
  }

  lemma KeptKeepsRows(w: World)
    requires RowsHold(w) && w.pc == InKeep(Kept) && w.row.change.Some?
    ensures RowsHold(Finish(w, SucceededResult, None))
  {
    hide Finish;
    FinishKeepsRows(w, SucceededResult, None);
  }

  lemma OpenLapseKeepsRows(w: World, report: GuardReport)
    requires RowsHold(w) && w.pc == InKeep(Lapsed(report)) && report.phase == PhaseFired && w.row.change.Some?
    ensures RowsHold(OpenLapse(w, report))
  {
  }

  lemma SettleLapseKeepsRows(w: World, report: GuardReport)
    requires RowsHold(w) && w.row.guard.Some?
    requires w.pc == InKeep(LapseNoted(report)) || (w.pc == InKeep(Lapsed(report)) && report.phase != PhaseFired)
    ensures RowsHold(SettleLapse(w, report))
  {
    hide UpdateGuard;
    GuardSettledKeepsRows(w, SettleGuard(w.row.guard.value, report), InKeep(LapseSettled(report)));
  }

  lemma NoteReversalKeepsRows(w: World, report: GuardReport)
    requires RowsHold(w) && w.pc == InKeep(LapseOpened(report)) && w.row.change.Some? && report.mutation.Some?
    ensures RowsHold(NoteReversal(w, report))
  {
  }

  lemma ConcludeLapseKeepsRows(w: World, report: GuardReport)
    requires RowsHold(w) && w.pc == InKeep(LapseSettled(report)) && w.row.change.Some?
    ensures RowsHold(ConcludeLapse(w, report))
  {
    if report.Reverted() {
      StateStepKeepsRows(w, RollbackVerifying, InRestore(Rereading(report.mutation.value)), w.flow);
    } else {
      hide RowOk;
      MoveKeepsRows(w, ConcludeLapse(w, report));
    }
  }

  lemma LapsedReportHasOutcome(w: World, report: GuardReport)
    requires RowsHold(w) && (w.pc == InKeep(Lapsed(report)) || w.pc == InKeep(LapseOpened(report)))
    ensures report.phase == PhaseFired ==> report.mutation.Some?
  {
  }

  lemma KeepKeepsRows(w: World, pc: KeepPc, w': World)
    requires RowsHold(w) && w.pc == InKeep(pc) && KeepCommit(w, pc) == Some(w')
    ensures RowsHold(w')
  {
    hide RowsLie, RecordProof, Finish, OpenLapse, SettleLapse, NoteReversal, ConcludeLapse;
    match pc
    case KeepProven => ProofKeepsRows(w);
    case Kept => KeptKeepsRows(w);
    case Lapsed(report) =>
      LapsedReportHasOutcome(w, report);
      if report.phase == PhaseFired { OpenLapseKeepsRows(w, report); } else { SettleLapseKeepsRows(w, report); }
    case LapseOpened(report) => NoteReversalKeepsRows(w, report);
    case LapseNoted(report) => SettleLapseKeepsRows(w, report);
    case LapseSettled(report) => ConcludeLapseKeepsRows(w, report);
    case _ =>
  }

  // ----- restarting

  lemma SettleOneKeepsAttempts(p: Preview, attempts: seq<RecoveryAttempt>, a: RecoveryAttempt)
    requires attempts != [] && AttemptsHold(p, attempts) && AttemptHolds(p, a)
    ensures AttemptsOk(p, attempts[|attempts| - 1 := a])
    ensures Dispatched(attempts[|attempts| - 1 := a])
         == Dispatched(attempts) - (if attempts[|attempts| - 1].dispatchBegan then 1 else 0)
            + (if a.dispatchBegan then 1 else 0)
  {
    var n := |attempts| - 1;
    assert attempts[n := a][..n] == attempts[..n];
  }

  /** Replacing the attempt under way keeps the rows when the new record is a truthful one and
      the lock goes with a release. */
  lemma AttemptKeepsRows(w: World, w': World, a: RecoveryAttempt)
    requires RowHolds(w.p, w.row) && w.row.change.Some? && w.row.change.value.result == RecoveryResult
    requires LastOpen(w.row.attempts) && AttemptHolds(w.p, a)
    requires w'.p == w.p
    requires w'.row == w.row.(
      attempts := w.row.attempts[|w.row.attempts| - 1 := a],
      locked := w.row.locked && !a.releases,
      granted := w'.row.granted,
      spent := w.row.spent + (if a.dispatchBegan then 1 else 0)
               - (if LastAttempt(w.row).dispatchBegan then 1 else 0))
    requires w'.row.granted ==> w.row.granted
    requires a.dispatchBegan && !LastAttempt(w.row).dispatchBegan ==> w.row.granted
    ensures RowHolds(w'.p, w'.row)
    ensures LastAttempt(w'.row) == a
  {
    SettleOneKeepsAttempts(w.p, w.row.attempts, a);
    hide AttemptOk, ChangeFacts, StateOk, EndingOk;
  }

  /** The attempt under way is on a Change that ended in recovery, and its own row is sound. */
  lemma UnderWay(w: World)
    requires RowHolds(w.p, w.row) && w.row.change.Some? && w.row.attempts != []
    ensures w.row.change.value.result == RecoveryResult
    ensures w.row.locked == !LastReleases(w.row.attempts)
    ensures AttemptOk(w.p, LastAttempt(w.row))
  {
  }

  lemma BootGuardsKeepsRows(w: World)
    requires RowsHold(w) && w.pc == InBoot(BootGuards)
    ensures RowsHold(w.(pc := InBoot(BootChange), flow := ChangePass))
  {
    hide RowOk;
  }

  lemma SettleAtBootKeepsRows(w: World, report: GuardReport)
    requires RowsHold(w) && w.pc == InBoot(BootGuardSettle(report)) && w.row.guard.Some?
    ensures RowsHold(SettleAtBoot(w, report))
  {
  }

  lemma RecordAtBootKeepsRows(w: World)
    requires RowsHold(w) && w.pc == InBoot(BootChange)
    ensures RowsHold(RecordAtBoot(w))
  {
  }

  lemma ConcludeAtBootKeepsRows(w: World)
    requires RowsHold(w) && w.pc == InBoot(BootConclude) && w.row.change.Some? && w.row.change.value.outcome.Some?
    ensures RowsHold(ConcludeAtBoot(w))
  {
    hide Finish, LockOk, AttemptsOk;
    var c := w.row.change.value;
    if c.outcome == Some(NotWritten) {
      FinishKeepsRows(w, FailedResult, None);
    } else if c.outcome == Some(Written) && c.verification.outcome == Verified && !w.p.guarded {
      FinishKeepsRows(w, SucceededResult, None);
    } else {
      MoveKeepsRows(w, ConcludeAtBoot(w));
    }
  }

  lemma BootAttemptKeepsRows(w: World, w': World)
    requires RowsHold(w) && w.pc == InBoot(BootRecovery) && BootCommit(w, BootRecovery) == Some(w')
    ensures RowsHold(w')
  {
    if LastOpen(w.row.attempts) {
      AttemptsNeedAChange(w);
      UnderWay(w);
      hide RowOk;
      AttemptKeepsRows(w, w', InterruptedAttempt(LastAttempt(w.row)));
    } else {
      hide RowOk;
    }
  }

  lemma AttemptsNeedAChange(w: World)
    requires RowHolds(w.p, w.row) && w.row.attempts != []
    ensures w.row.change.Some?
  {
  }

  lemma BootKeepsRows(w: World, pc: BootPc, w': World)
    requires RowsHold(w) && w.pc == InBoot(pc) && BootCommit(w, pc) == Some(w')
    ensures RowsHold(w')
  {
    if pc.BootRecovery? { BootAttemptKeepsRows(w, w'); }
    hide RowsLie, SettleAtBoot, RecordAtBoot, ConcludeAtBoot, WithAttempt;
    match pc
    case BootGuards => BootGuardsKeepsRows(w);
    case BootGuardSettle(report) => SettleAtBootKeepsRows(w, report);
    case BootChange => RecordAtBootKeepsRows(w);
    case BootConclude => ConcludeAtBootKeepsRows(w);
    case BootRecovery =>
  }

  // ----- recovering

  lemma EndAttemptKeepsRows(w: World, ending: AttemptEnding)
    requires RowHolds(w.p, w.row) && w.row.change.Some? && w.row.change.value.result == RecoveryResult
    requires w.row.locked && LastOpen(w.row.attempts)
    requires AttemptOk(w.p, LastAttempt(w.row).(ending := ending, releases := Releases(ending)))
    ensures RowsHold(EndAttempt(w, ending))
  {
    hide RowOk, AttemptOk;
    AttemptKeepsRows(w, EndAttempt(w, ending), LastAttempt(w.row).(ending := ending, releases := Releases(ending)));
  }

  lemma ResolveKeepsRows(w: World, evidence: Reading)
    requires RowsHold(w) && w.pc == InRecover(Resolvable(evidence))
    ensures RowsHold(ResolveHold(w, evidence))
  {
    var w' := ResolveHold(w, evidence);
    ReleasedIsLast(w.row, w.p);
    if HoldOpen(w.row) {
      assert w'.row.attempts[..|w'.row.attempts| - 1] == w.row.attempts;
      assert AttemptsOk(w.p, w'.row.attempts);
    }
  }

  lemma RetryEndsKeepsRows(w: World, pc: RecoverPc, w': World)
    requires RowsHold(w) && w.pc == InRecover(pc) && RecoverCommit(w, pc) == Some(w')
    requires pc.RetryJudged? || pc.RetryRefusing? || pc.RetryRecorded? || pc.RetryRejudged?
    ensures RowsHold(w')
  {
    UnderWay(w);
    hide RowOk, EndAttempt;
    match pc
    case RetryJudged(evidence) => EndAttemptKeepsRows(w, ProvenEnding);
    case RetryRefusing => EndAttemptKeepsRows(w, RefusedEnding);
    case RetryRecorded(report) => EndAttemptKeepsRows(w, RecoveryEndingFor(report.outcome, NotAttempted));
    case RetryRejudged(reading) => EndAttemptKeepsRows(w, RecoveryEndingFor(Written, reading.outcome));
  }

  lemma EvidenceKeepsRows(w: World, evidence: Reading)
    requires RowsHold(w) && w.pc == InRecover(RetryRead(evidence)) && w.row.attempts != []
    ensures RowsHold(RecordEvidence(w, evidence))
  {
    UnderWay(w);
    hide RowOk;
    AttemptKeepsRows(w, RecordEvidence(w, evidence), LastAttempt(w.row).(evidence := evidence));
  }

  lemma SpendKeepsRows(w: World, evidence: Reading)
    requires RowsHold(w) && w.pc == InRecover(RetryPlanned(evidence)) && w.row.attempts != []
    ensures RowsHold(SpendGrant(w, evidence))
  {
    UnderWay(w);
    hide RowOk;
    if w.row.granted {
      AttemptKeepsRows(w, SpendGrant(w, evidence), LastAttempt(w.row).(dispatchBegan := true));
    }
  }

  lemma RecordRetryKeepsRows(w: World, report: Report)
    requires RowsHold(w) && w.pc == InRecover(RetryReported(report)) && w.row.attempts != []
    ensures RowsHold(RecordRetry(w, report))
  {
    UnderWay(w);
    hide RowLies;
    var a := ReportedAttempt(LastAttempt(w.row), report);
    ReportedIsOk(w.p, LastAttempt(w.row), report);
    hide AttemptLies, AttemptOk;
    AttemptKeepsRows(w, RecordRetry(w, report), a);
  }

  lemma ReportedIsOk(p: Preview, a: RecoveryAttempt, report: Report)
    requires AttemptHolds(p, a) && a.kind == RetryAttempt && a.ending == StillOpen
    requires a.dispatchBegan && a.outcome.None?
    ensures AttemptHolds(p, ReportedAttempt(a, report))
  {
  }

  lemma RetryReadingKeepsRows(w: World, reading: Reading)
    requires RowsHold(w) && w.pc == InRecover(RetryReread(reading)) && w.row.attempts != []
    ensures RowsHold(RecordRetryReading(w, reading))
  {
    UnderWay(w);
    hide RowOk;
    AttemptKeepsRows(w, RecordRetryReading(w, reading), LastAttempt(w.row).(verification := reading));
  }

  lemma RecoverKeepsRows(w: World, pc: RecoverPc, w': World)
    requires RowsHold(w) && w.pc == InRecover(pc) && RecoverCommit(w, pc) == Some(w')
    ensures RowsHold(w')
  {
    if pc.RetryJudged? || pc.RetryRefusing? || pc.RetryRecorded? || pc.RetryRejudged? { RetryEndsKeepsRows(w, pc, w'); }
    hide RowsLie, ResolveHold, RecordEvidence, SpendGrant, RecordRetry, RecordRetryReading, EndAttempt;
    match pc
    case Resolvable(evidence) => ResolveKeepsRows(w, evidence);
    case RetryRead(evidence) => EvidenceKeepsRows(w, evidence);
    case RetryPlanned(evidence) => SpendKeepsRows(w, evidence);
    case RetryReported(report) => RecordRetryKeepsRows(w, report);
    case RetryReread(reading) => RetryReadingKeepsRows(w, reading);
    case _ =>
  }

  lemma CommitKeepsRows(w: World, w': World)
    requires RowsHold(w) && CommitNext(w) == Some(w')
    ensures RowsHold(w')
  {
    hide RowsLie, ApplyCommit, RestoreCommit, KeepCommit, BootCommit, RecoverCommit;
    match w.pc
    case InApply(pc) => ApplyKeepsRows(w, pc, w');
    case InRestore(pc) => RestoreKeepsRows(w, pc, w');
    case InKeep(pc) => KeepKeepsRows(w, pc, w');
    case InBoot(pc) => BootKeepsRows(w, pc, w');
    case InRecover(pc) => RecoverKeepsRows(w, pc, w');
    case _ =>
  }

  // ----- refusals, readings and answers leave the rows alone

  lemma RefuseKeepsRows(w: World, w': World)
    requires RowsHold(w) && RefuseNext(w) == Some(w')
    ensures RowsHold(w')
  {
    if w.pc == InApply(Authorised) { FailKeepsRows(w); }
    hide RowOk, FailBeforeBoundary;
  }

  /** A Change is about what the plan was about. */
  lemma ChangeIsThePlans(w: World)
    requires RowHolds(w.p, w.row) && w.row.change.Some?
    ensures w.row.change.value.kind == w.p.kind
    ensures w.row.change.value.before == w.p.before
    ensures w.row.change.value.desired == w.p.desired
  {
  }

  lemma ReadBackIsOk(kind: ChangeKind, h: Host, o: Observation, expected: int)
    requires Faithful(kind, h, o)
    ensures ReadingOk(kind, ReadBack(o, expected), expected)
    ensures ReadBack(o, expected).outcome != NotAttempted
  {
  }

  lemma ObserveKeepsRows(w: World, o: Observation, w': World)
    requires RowsHold(w) && ObserveNext(w, o) == Some(w')
    ensures RowsHold(w')
  {
    ChangeIsThePlans(w);
    ReadBackIsOk(w.p.kind, w.host, o, w.p.desired);
    ReadBackIsOk(w.p.kind, w.host, o, w.p.before);
    if w.pc.InRecover? { RecoverObserveKeepsRows(w, o, w'); }
    hide RowOk, ReadBack, Faithful, ReadingOk, RecoverRows;
  }

  lemma RecoverObserveKeepsRows(w: World, o: Observation, w': World)
    requires RowsHold(w) && w.pc.InRecover? && ObserveNext(w, o) == Some(w')
    ensures RowsHold(w')
  {
    ChangeIsThePlans(w);
    ReadBackIsOk(w.p.kind, w.host, o, w.p.desired);
    hide RowOk, ReadBack, Faithful, ReadingOk;
  }

  lemma SendKeepsRows(w: World, w': World)
    requires RowsHold(w) && SendNext(w) == Some(w')
    ensures RowsHold(w')
  {
    hide RowOk, Dispatch;
  }

  lemma AnswerKeepsRows(w: World, report: Report, w': World)
    requires RowsHold(w) && AnswerNext(w, report) == Some(w')
    ensures RowsHold(w')
  {
    hide RowOk, Answerable;
  }

  lemma ArmAnswerKeepsRows(w: World, armed: bool, w': World)
    requires RowsHold(w) && ArmAnswerNext(w, armed) == Some(w')
    ensures RowsHold(w')
  {
    hide RowOk;
  }

  lemma GuardAnswerKeepsRows(w: World, report: GuardReport, late: bool, w': World)
    requires RowsHold(w) && GuardAnswerNext(w, report, late) == Some(w')
    ensures RowsHold(w')
  {
    hide RowOk;
  }

  lemma ReplanKeepsRows(w: World, kind: ChangeKind, desired: int, w': World)
    requires RowsHold(w) && ReplanNext(w, kind, desired) == Some(w')
    ensures RowsHold(w')
  {
    hide RowOk;
  }

  lemma DieKeepsRows(w: World, down: bool, w': World)
    requires RowsHold(w) && DieNext(w, down) == Some(w')
    ensures RowsHold(w')
  {
    hide RowOk;
  }

  lemma HostKeepsRows(w: World, m: HostMove, w': World)
    requires RowsHold(w) && HostMoveNext(w, m) == Some(w')
    ensures RowsHold(w')
  {
    hide RowOk, HostNext;
  }

  /** Every step, taken by anyone, leaves the durable rows truthful. */
  lemma NextKeepsRows(w: World, e: Event, w': World)
    requires RowsHold(w) && Next(w, e) == Some(w')
    ensures RowsHold(w')
  {
    hide RowsLie, BeginNext, CommitNext, RefuseNext, ObserveNext, SendNext, AnswerNext, ArmAnswerNext,
      GuardAnswerNext, ReplanNext, DieNext, HostMoveNext;
    match e
    case Begin(call) => BeginKeepsRows(w, call, w');
    case Commit => CommitKeepsRows(w, w');
    case Refuse => RefuseKeepsRows(w, w');
    case Observe(o) => ObserveKeepsRows(w, o, w');
    case Send => SendKeepsRows(w, w');
    case Answer(report) => AnswerKeepsRows(w, report, w');
    case ArmAnswer(armed) => ArmAnswerKeepsRows(w, armed, w');
    case GuardAnswer(report, late) => GuardAnswerKeepsRows(w, report, late, w');
    case Replan(kind, desired) => ReplanKeepsRows(w, kind, desired, w');
    case Die(down) => DieKeepsRows(w, down, w');
    case HostStep(m) => HostKeepsRows(w, m, w');
  }
}
