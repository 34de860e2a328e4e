/** What the durable rows of a Run say at every reachable state, wherever the backend stands. */
module WritePathInvariant {
  import opened Outcomes
  import opened WritePath

  function EffectOf(outcome: Option<MutationOutcome>): HostEffect {
    if outcome.None? then NoEffect else HostEffectFor(outcome.value)
  }

  predicate Unfinished(state: RunState) {
    state in {Applying, RunState.Verifying, Guarded, RollingBack, RollbackVerifying}
  }

  /** A reading that claims proof shows the value it was compared with, and one nobody took shows
      none. */
  predicate ReadingOk(kind: ChangeKind, r: Reading, expected: int) {
    && (r.outcome == Verified && kind == FieldChange ==> r.value == Some(expected))
    && (r.outcome == NotAttempted ==> r.value.None?)
  }

  // ------------------------------------------------------------------- recovery attempts

  /** What a recovery attempt's row may say. */
  predicate AttemptOk(p: Preview, a: RecoveryAttempt) {
    && a.effect == EffectOf(a.outcome)
    && (a.kind == ResolveAttempt <==> a.ending == ResolvedEnding)
    && (a.kind == ResolveAttempt ==> !a.dispatchBegan)
    && (a.outcome.Some? ==> a.dispatchBegan)
    && (a.verification.outcome != NotAttempted ==> a.outcome == Some(Written))
    && ReadingOk(p.kind, a.evidence, p.desired)
    && ReadingOk(p.kind, a.verification, p.desired)
    && (a.ending == ProvenEnding ==> a.evidence.outcome == Verified)
    && (a.evidence.outcome == Verified && a.kind == RetryAttempt ==> !a.dispatchBegan)
    && (a.ending == VerifiedEnding ==> a.outcome == Some(Written) && a.verification.outcome == Verified)
    && (a.ending == NotWrittenEnding ==> a.outcome == Some(NotWritten))
    && (a.ending == WriteUnknownEnding ==> a.outcome == Some(WriteUnknown))
    && (a.ending == NotProvenEnding ==>
          a.outcome == Some(Written) && a.verification.outcome !in {NotAttempted, Verified})
    && (a.ending == RefusedEnding ==> !a.dispatchBegan)
    && (a.ending == InterruptedEnding && a.dispatchBegan ==> a.outcome.Some?)
    && a.releases == Releases(a.ending)
  }

  /** Only the newest attempt may be under way or have released the hold. */
  predicate AttemptsOk(p: Preview, attempts: seq<RecoveryAttempt>) {
    && (forall i :: 0 <= i < |attempts| ==> AttemptOk(p, attempts[i]))
    && (forall i :: 0 <= i < |attempts| - 1 ==> attempts[i].ending != StillOpen && !attempts[i].releases)
  }

  function Dispatched(attempts: seq<RecoveryAttempt>): nat {
    if attempts == [] then 0
    else Dispatched(attempts[..|attempts| - 1]) + if attempts[|attempts| - 1].dispatchBegan then 1 else 0
  }

  predicate LastReleases(attempts: seq<RecoveryAttempt>) {
    attempts != [] && attempts[|attempts| - 1].releases
  }

  predicate LastOpen(attempts: seq<RecoveryAttempt>) {
    attempts != [] && attempts[|attempts| - 1].ending == StillOpen
  }

  // -------------------------------------------------------------------------- the change

  /** What a Change was about never moves, and what became of it is never more than its
      outcome, its verification and its restoration support. */
  predicate ChangeFacts(p: Preview, c: Change) {
    && c.kind == p.kind && c.before == p.before && c.desired == p.desired
    && c.effect == EffectOf(c.outcome)
    && (c.outcome.Some? && c.outcome != Some(NotWritten) ==> c.dispatchBegan)
    && (c.verification.outcome != NotAttempted ==> c.outcome == Some(Written))
    && ReadingOk(p.kind, c.verification, p.desired)
    && (c.rollbackRequired ==> p.kind == FieldChange && c.outcome in {Some(Written), Some(WriteUnknown)})
    && (c.rollbackAttempt.Some? ==> c.rollbackRequired)
    && (c.rollbackAttempt.Some? ==>
          c.rollbackAttempt.value == if c.verification.outcome == Verified then ReversalWrite else RollbackWrite)
    && (c.rollbackAttempt == Some(ReversalWrite) ==> p.guarded)
    && (c.rollbackOutcome.Some? ==> c.rollbackAttempt.Some?)
    && (c.rollbackVerification.outcome != NotAttempted ==>
          c.rollbackOutcome in {Some(NotWritten), Some(Written)})
    && ReadingOk(p.kind, c.rollbackVerification, p.before)
    && (c.reason.Some? <==> c.result == RecoveryResult)
  }

  /** The four endings are truthful. */
  predicate EndingOk(p: Preview, row: Row, c: Change) {
    && (c.result == SucceededResult ==>
          && c.outcome == Some(Written)
          && c.verification.outcome == Verified
          && (p.guarded ==> row.guard.Some? && row.guard.value.kept))
    && (c.result == FailedResult ==> c.outcome == Some(NotWritten))
    && (c.result == RolledBackResult ==> c.rollbackVerification.outcome == Verified)
    && (c.result == RecoveryResult ==> c.outcome in {Some(Written), Some(WriteUnknown)})
  }

  /** The Run's state and the Change's record agree. */
  predicate StateOk(p: Preview, row: Row, c: Change) {
    && (c.result == InFlight <==> Unfinished(row.state))
    && (c.result != InFlight ==> row.state == StateFor(c.result))
    && (row.state == Applying ==> c.verification == NO_READING && !c.rollbackRequired)
    && (row.state == RunState.Verifying ==> c.outcome == Some(Written) && !c.rollbackRequired)
    && (row.state == Guarded ==>
          && p.guarded
          && c.outcome == Some(Written)
          && c.verification.outcome == Verified
          && !c.rollbackRequired)
    && (row.state in {RollingBack, RollbackVerifying} ==> c.rollbackRequired)
  }

  /** An unfinished Change holds its lock, an admitted one holds it until a release, and every
      other ending has given it back. */
  predicate LockOk(row: Row, c: Change) {
    && (c.result == InFlight ==> row.locked)
    && (c.result == RecoveryResult ==> row.locked == !LastReleases(row.attempts))
    && (c.result !in {InFlight, RecoveryResult} ==> !row.locked)
  }

  predicate GuardFacts(p: Preview, row: Row) {
    row.guard.Some? ==>
      && p.guarded
      && row.checkpoint.Some?
      && GuardRowAllowed(row.guard.value)
      && (row.guard.value.settled.None? ==> !row.guard.value.fired && row.guard.value.reversal.None?)
      && (row.guard.value.kept ==> row.change.Some? && row.state in {Guarded, Succeeded})
  }

  predicate BoundaryOk(p: Preview, row: Row) {
    match row.change
    case None =>
      && row.state in {Previewed, AwaitingConfirmation, Arming, Failed, Cancelled}
      && row.effect == NoEffect
      && row.attempts == []
      && !row.granted
      && row.spent == 0
      && (row.checkpoint.Some? ==> row.state in {Arming, Failed})
    case Some(c) =>
      && row.confirmation == Consumed
      && (p.kind == FieldChange ==> row.checkpoint.Some?)
      && (p.guarded ==> row.guard.Some? && row.guard.value.armed)
      && row.effect == c.effect
      && ChangeFacts(p, c)
      && StateOk(p, row, c)
      && EndingOk(p, row, c)
      && LockOk(row, c)
      && AttemptsOk(p, row.attempts)
      && row.spent == Dispatched(row.attempts)
      && (row.attempts != [] || row.granted ==> c.result == RecoveryResult)
      && (p.typed ==> !row.granted && row.spent == 0)
  }

  predicate RowOk(p: Preview, row: Row) {
    && Published(p)
    && (row.checkpoint.Some? ==>
          && p.kind == FieldChange
          && row.confirmation == Consumed
          && row.checkpoint.value == Checkpoint(p.before, p.desired))
    && GuardFacts(p, row)
    && BoundaryOk(p, row)
  }

  // ------------------------------------------------------- what holds where the backend is

  predicate GuardWaiting(row: Row) {
    row.guard.Some? && row.guard.value.settled.None?
  }

  predicate SettlingReport(report: GuardReport) {
    && report.phase in {PhaseDisarmed, PhaseFired, PhaseLost, PhaseUnreachable}
    && (report.phase == PhaseFired ==> report.mutation.Some?)
  }

  /** Before the boundary: the lock is held, the confirmation is consumed and nothing is on
      record about the host. */
  predicate PreparedOk(p: Preview, row: Row) {
    && row.change.None?
    && row.locked
    && row.confirmation == Consumed
    && row.state == if p.kind == FieldChange then Arming else AwaitingConfirmation
  }

  predicate ArmingOk(p: Preview, row: Row, armed: bool) {
    && PreparedOk(p, row)
    && p.guarded
    && row.checkpoint.Some?
    && GuardWaiting(row)
    && row.guard.value.armed == armed
  }

  predicate ApplyRows(p: Preview, row: Row, pc: ApplyPc) {
    match pc
    case Acquired => row.change.None? && row.locked && Appliable(row.state)
    case Refusing => row.change.None? && Appliable(row.state)
    case Waiting => row.change.None? && row.locked && row.state == AwaitingConfirmation
    case Authorised => PreparedOk(p, row) && row.checkpoint.None?
    case Prepared => PreparedOk(p, row) && row.guard.None? && (p.kind == FieldChange ==> row.checkpoint.Some?)
    case GuardAsked => ArmingOk(p, row, false)
    case ArmAwaiting => ArmingOk(p, row, false)
    case GuardTaken => ArmingOk(p, row, false)
    case GuardReady => ArmingOk(p, row, true)
    case GuardDeclined => ArmingOk(p, row, false)
    case GuardAbandoned(report) => ArmingOk(p, row, false) && SettlingReport(report)
    case GuardGivenUp => PreparedOk(p, row) && row.state == Arming
    case _ =>
      && row.change.Some?
      && (p.guarded ==> GuardWaiting(row) && !row.guard.value.kept)
      && ApplyingRows(p, row, row.change.value, pc)
  }

  /** The same, past the boundary. */
  predicate ApplyingRows(p: Preview, row: Row, c: Change, pc: ApplyPc) {
    match pc
    case Crossed => row.state == Applying && c.outcome.None? && !c.dispatchBegan
    case Marked => row.state == Applying && c.outcome.None? && c.dispatchBegan
    case Awaiting => row.state == Applying && c.outcome.None? && c.dispatchBegan
    case Reported(report) => row.state == Applying && c.outcome.None? && c.dispatchBegan
    case Recorded(report) => row.state == Applying && c.outcome == Some(report.outcome)
    case Observing => row.state == RunState.Verifying && c.verification == NO_READING
    case Observed(reading) =>
      && row.state == RunState.Verifying
      && reading.outcome != NotAttempted
      && ReadingOk(p.kind, reading, p.desired)
    case Judged(reading) => row.state == RunState.Verifying && c.verification == reading
                            && reading.outcome != NotAttempted
    case Ended => p.guarded && c.result != InFlight
    case Releasing(report) => p.guarded && c.result != InFlight && SettlingReport(report)
    case _ => true
  }

  predicate RestoreRows(p: Preview, row: Row, flow: Flow, pc: RestorePc) {
    && row.change.Some?
    && row.change.value.result == InFlight
    && row.change.value.outcome in {Some(Written), Some(WriteUnknown)}
    && flow in {ApplyFlow, KeepFlow, GuardPass, ChangePass}
    && (row.guard.Some? ==> !row.guard.value.kept)
    && (flow == ApplyFlow && p.guarded ==> GuardWaiting(row))
    && var c := row.change.value;
       match pc
       case Holding(reason) => true
       case Rereading(report) =>
         && row.state == RollbackVerifying
         && c.rollbackVerification.outcome == NotAttempted
         && c.rollbackOutcome == Some(report.outcome)
         && report.outcome != WriteUnknown
       case Reread(report, reading) =>
         && row.state == RollbackVerifying
         && c.rollbackVerification.outcome == NotAttempted
         && c.rollbackOutcome == Some(report.outcome)
         && report.outcome != WriteUnknown
         && ReadingOk(p.kind, reading, p.before)
       case Rejudged(report, reading) =>
         && row.state == RollbackVerifying
         && c.rollbackVerification == reading
       case _ =>
         && row.state == RollingBack
         && c.verification.outcome != Verified
         && c.rollbackVerification.outcome == NotAttempted
         && flow == ApplyFlow
         && (pc.RestoreStarted? || pc.RestoreReady? ==> c.rollbackAttempt.None?)
         && (!pc.RestoreStarted? && !pc.RestoreReady? ==> c.rollbackAttempt.Some?)
         && (!pc.RestoreRecorded? ==> c.rollbackOutcome.None?)
         && (pc.RestoreRecorded? ==> c.rollbackOutcome == Some(pc.report.outcome))
  }

  predicate KeepRows(p: Preview, row: Row, flow: Flow, pc: KeepPc) {
    && row.change.Some?
    && row.guard.Some?
    && flow in {KeepFlow, GuardPass}
    && var c := row.change.value;
       match pc
       case KeepAsking(proved) => row.state == Guarded && GuardWaiting(row) && flow == KeepFlow
       case KeepProven => row.state == Guarded && GuardWaiting(row)
       case Kept => row.state == Guarded && row.guard.value.kept
       case Lapsed(report) => row.state == Guarded && GuardWaiting(row) && SettlingReport(report)
       case LapseOpened(report) =>
         && row.state == RollingBack
         && GuardWaiting(row)
         && SettlingReport(report)
         && report.phase == PhaseFired
         && c.verification.outcome == Verified
         && c.rollbackAttempt.None?
         && c.rollbackVerification.outcome == NotAttempted
       case LapseNoted(report) =>
         && row.state == RollingBack
         && GuardWaiting(row)
         && SettlingReport(report)
         && report.phase == PhaseFired
         && c.rollbackOutcome == Some(report.mutation.value.outcome)
         && c.rollbackVerification.outcome == NotAttempted
       case LapseSettled(report) =>
         && SettlingReport(report)
         && row.guard.value.settled == Some(report.phase)
         && !row.guard.value.kept
         && (report.phase != PhaseFired ==> row.state == Guarded)
         && (report.phase == PhaseFired ==>
               && row.state == RollingBack
               && c.rollbackOutcome == Some(report.mutation.value.outcome)
               && c.rollbackVerification.outcome == NotAttempted)
  }

  predicate BootRows(row: Row, flow: Flow, pc: BootPc) {
    match pc
    case BootGuards => flow == GuardPass
    case BootGuardSettle(report) => flow == GuardPass && GuardWaiting(row) && SettlingReport(report)
    case BootChange => flow == ChangePass
    case BootConclude => flow == ChangePass && Interrupted(row) && row.change.value.outcome.Some?
    case BootRecovery => flow == ChangePass && !Interrupted(row)
  }

  predicate RecoverRows(p: Preview, row: Row, flow: Flow, pc: RecoverPc) {
    && flow == RecoveryFlow
    && row.change.Some?
    && row.change.value.result == RecoveryResult
    && row.locked
    && if pc.Resolving? || pc.Resolvable? then
         && !LastOpen(row.attempts)
         && (pc.Resolvable? ==> ReadingOk(p.kind, pc.evidence, p.desired))
       else
         && LastOpen(row.attempts)
         && var a := LastAttempt(row);
            match pc
            case RetryRead(evidence) =>
              !a.dispatchBegan && a.evidence == NO_READING && ReadingOk(p.kind, evidence, p.desired)
            case RetryOpened => !a.dispatchBegan && a.evidence == NO_READING
            case RetryJudged(evidence) => !a.dispatchBegan && a.evidence == evidence
            case RetryPlanned(evidence) =>
              !a.dispatchBegan && a.evidence == evidence && evidence.outcome != Verified
            case RetryRefusing => !a.dispatchBegan
            case RetryMarked(evidence) => a.dispatchBegan && a.outcome.None?
            case RetryAwaiting => a.dispatchBegan && a.outcome.None?
            case RetryReported(report) => a.dispatchBegan && a.outcome.None?
            case RetryRecorded(report) =>
              a.dispatchBegan && a.outcome == Some(report.outcome) && a.verification.outcome == NotAttempted
            case RetryReread(reading) =>
              && a.dispatchBegan
              && a.outcome == Some(Written)
              && reading.outcome != NotAttempted
              && ReadingOk(p.kind, reading, p.desired)
            case RetryRejudged(reading) =>
              a.dispatchBegan && a.outcome == Some(Written) && a.verification == reading
              && reading.outcome != NotAttempted
            case _ => true
  }

  predicate PcRows(w: World) {
    match w.pc
    case Down => w.flow == NoFlow
    case Idle => w.flow == NoFlow
    case InApply(pc) => w.flow == ApplyFlow && ApplyRows(w.p, w.row, pc)
    case InRestore(pc) => RestoreRows(w.p, w.row, w.flow, pc)
    case InKeep(pc) => KeepRows(w.p, w.row, w.flow, pc)
    case InBoot(pc) => BootRows(w.row, w.flow, pc)
    case InRecover(pc) => RecoverRows(w.p, w.row, w.flow, pc)
  }

  // The same judgements, each as one fact: stated through its denial, the verifier takes it whole
  // instead of clause by clause.

  predicate AttemptLies(p: Preview, a: RecoveryAttempt) {
    !AttemptOk(p, a)
  }

  predicate AttemptHolds(p: Preview, a: RecoveryAttempt) {
    !AttemptLies(p, a)
  }

  predicate AttemptsLie(p: Preview, attempts: seq<RecoveryAttempt>) {
    !AttemptsOk(p, attempts)
  }

  predicate AttemptsHold(p: Preview, attempts: seq<RecoveryAttempt>) {
    !AttemptsLie(p, attempts)
  }

  predicate RowLies(p: Preview, row: Row) {
    !RowOk(p, row)
  }

  predicate RowHolds(p: Preview, row: Row) {
    !RowLies(p, row)
  }

  predicate Misplaced(w: World) {
    !PcRows(w)
  }

  /** Some row claims more than it may, or the backend stands where the rows do not put it. */
  predicate RowsLie(w: World) {
    RowLies(w.p, w.row) || Misplaced(w)
  }

  /** The rows claim no more than they may, and the backend stands where they put it. */
  predicate RowsHold(w: World) {
    !RowsLie(w)
  }
}
