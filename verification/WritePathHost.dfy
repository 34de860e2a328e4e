/** What the rows say about the host is true of it: every recorded outcome is sound for what
    the kernel accepted, every write on the wire was announced by a row before it left, and
    nothing is ever dispatched twice. */
module WritePathHost {
  import opened Outcomes
  import opened WritePath
  import opened WritePathInvariant
  import opened WritePathRows

  /** An outcome is sound for an attempt: `Written` means the kernel accepted it, `NotWritten`
      that it never did and never will. */
  predicate Settled(h: Host, a: Attempt, outcome: MutationOutcome) {
    match outcome
    case Written => Accepted(h, a)
    case NotWritten => a !in h.wire || h.wire[a].stage == Closed(false)
    case WriteUnknown => true
  }

  predicate Claimed(h: Host, a: Attempt, outcome: Option<MutationOutcome>) {
    outcome.Some? ==> Settled(h, a, outcome.value)
  }

  /** The guard was taken on and has let go for good; and unless its own write raised, without
      acting. */
  predicate StoodDown(h: Host) {
    && h.armWire == Landed(true)
    && h.held in {Disarmed, DisarmedOver, NotHeld}
    && (ReversalWrite in h.wire ==> h.raised)
  }

  /** The guard was taken on and has acted, or the agent no longer knows. */
  predicate Spent(h: Host) {
    h.armWire == Landed(true) && (h.held.Fired? || h.held in {Raised, DisarmedOver, NotHeld})
  }

  predicate ReportTrue(h: Host, report: GuardReport) {
    && (report.phase == PhaseDisarmed ==> StoodDown(h))
    && (report.phase == PhaseFired ==> Spent(h))
    && (report.phase == PhaseFired && report.mutation.Some? ==>
          Settled(h, ReversalWrite, report.mutation.value.outcome))
  }

  /** Every request on the wire was announced by a durable row, with the values the plan fixed. */
  predicate RequestOk(p: Preview, row: Row, h: Host, a: Attempt)
    requires a in h.wire
  {
    match a
    case ApplyWrite =>
      && row.change.Some?
      && row.change.value.dispatchBegan
      && h.wire[a].expected == p.before
      && h.wire[a].desired == p.desired
    case RollbackWrite =>
      && row.change.Some?
      && row.change.value.rollbackAttempt == Some(RollbackWrite)
      && h.wire[a].desired == p.before
    case ReversalWrite =>
      && row.guard.Some?
      && h.armWire == Landed(true)
      && h.wire[a].expected == p.desired
      && h.wire[a].desired == p.before
    case RetryWrite(n) =>
      && n < |row.attempts|
      && row.attempts[n].dispatchBegan
      && h.wire[a].desired == p.desired
  }

  predicate WireOk(p: Preview, row: Row, h: Host) {
    forall a :: a in h.wire ==> RequestOk(p, row, h, a)
  }

  /** Each attempt is dispatched at most once and accepted at most once, and the histories say
      exactly which. */
  ghost predicate LogsOk(h: Host) {
    && (forall a :: multiset(h.sends)[a] == if a in h.wire then 1 else 0)
    && (forall a :: multiset(h.accepted)[a] == if Accepted(h, a) then 1 else 0)
  }

  predicate ChangeTrue(row: Row, h: Host) {
    row.change.Some? ==>
      var c := row.change.value;
      && Claimed(h, ApplyWrite, c.outcome)
      && (c.rollbackAttempt.Some? ==> Claimed(h, c.rollbackAttempt.value, c.rollbackOutcome))
      && (c.rollbackAttempt == Some(ReversalWrite) ==> Spent(h))
      && (c.rollbackAttempt.Some? ==> c.rollbackAttempt.value in {RollbackWrite, ReversalWrite})
  }

  predicate AttemptsTrue(row: Row, h: Host) {
    forall n :: 0 <= n < |row.attempts| ==> Claimed(h, RetryWrite(n), row.attempts[n].outcome)
  }

  /** What the agent holds and what the guard row says about it. */
  predicate AgentOk(row: Row, h: Host) {
    && (row.guard.None? ==> h.armWire == NotAsked)
    && (h.armWire != Landed(true) ==> h.held == NotHeld && ReversalWrite !in h.wire)
    && (h.held == Armed || h.held == Disarmed ==> ReversalWrite !in h.wire)
    && (h.held == Firing ==> ReversalWrite in h.wire)
    && (h.held in {Raised, DisarmedOver} ==> h.raised)
    && (h.raised ==> h.held in {Raised, DisarmedOver, NotHeld} && h.armWire == Landed(true))
    && (h.held.Fired? ==> Settled(h, ReversalWrite, h.held.report.outcome))
    && (row.guard.Some? ==>
          var g := row.guard.value;
          && (g.armed ==> h.armWire == Landed(true))
          && (g.kept || g.settled == Some(PhaseDisarmed) ==> StoodDown(h))
          && Claimed(h, ReversalWrite, g.reversal)
          && (g.reversal.Some? ==> Spent(h)))
  }

  /** What the backend has been told, or is about to do, at the place where it stands. */
  predicate PcTrue(row: Row, pc: Pc, h: Host) {
    match pc
    case InApply(GuardAsked) => h.armWire == NotAsked
    case InApply(GuardTaken) => h.armWire == Landed(true)
    case InApply(GuardReady) => h.armWire == Landed(true)
    case InApply(GuardAbandoned(report)) => ReportTrue(h, report)
    case InApply(Releasing(report)) => ReportTrue(h, report)
    case InApply(Marked) => ApplyWrite !in h.wire
    case InApply(Awaiting) => ApplyWrite in h.wire
    case InApply(Reported(report)) => Settled(h, ApplyWrite, report.outcome)
    case InRestore(RestoreAwaiting) => RollbackWrite in h.wire
    case InRecover(RetryAwaiting) => row.attempts != [] && RetryWrite(|row.attempts| - 1) in h.wire
    case InRestore(RestoreMarked(current)) => RollbackWrite !in h.wire
    case InRestore(RestoreReported(report)) => Settled(h, RollbackWrite, report.outcome)
    case InKeep(KeepProven) => StoodDown(h)
    case InKeep(Lapsed(report)) => ReportTrue(h, report)
    case InKeep(LapseOpened(report)) => ReportTrue(h, report)
    case InKeep(LapseNoted(report)) => ReportTrue(h, report)
    case InBoot(BootGuardSettle(report)) => ReportTrue(h, report)
    case InRecover(RetryMarked(evidence)) => row.attempts != [] && RetryWrite(|row.attempts| - 1) !in h.wire
    case InRecover(RetryReported(report)) =>
      row.attempts != [] && Settled(h, RetryWrite(|row.attempts| - 1), report.outcome)
    case _ => true
  }

  ghost predicate HostOk(w: World) {
    && WireOk(w.p, w.row, w.host)
    && LogsOk(w.host)
    && ChangeTrue(w.row, w.host)
    && AttemptsTrue(w.row, w.host)
    && AgentOk(w.row, w.host)
    && PcTrue(w.row, w.pc, w.host)
  }

  /** Something recorded, announced or about to happen is not true of the host. */
  ghost predicate HostLies(w: World) {
    !HostOk(w)
  }

  ghost predicate HostHolds(w: World) {
    !HostLies(w)
  }

  ghost predicate Astray(w: World) {
    RowsLie(w) || HostLies(w)
  }

  /** Everything the backend knows holds, rows and host. */
  ghost predicate InOrder(w: World) {
    !Astray(w)
  }

  // -------------------------------------------------------------------- rows move, the host does not

  /** Two rows that announce and claim the same things. */
  predicate SameClaims(row: Row, row': Row) {
    && row'.guard == row.guard
    && row'.attempts == row.attempts
    && (row.change.None? <==> row'.change.None?)
    && (row.change.Some? ==>
          var c, c' := row.change.value, row'.change.value;
          && c'.dispatchBegan == c.dispatchBegan
          && c'.outcome == c.outcome
          && c'.rollbackAttempt == c.rollbackAttempt
          && c'.rollbackOutcome == c.rollbackOutcome)
  }

  /** A request on the wire was announced. */
  lemma WasAnnounced(w: World, a: Attempt)
    requires HostHolds(w)
    ensures a in w.host.wire ==> RequestOk(w.p, w.row, w.host, a)
  {
  }

  lemma SameClaimsKeepHost(w: World, w': World)
    requires HostHolds(w) && w'.p == w.p && w'.host == w.host
    requires SameClaims(w.row, w'.row) && PcTrue(w'.row, w'.pc, w'.host)
    ensures HostHolds(w')
  {
  }

  lemma FinishKeepsHost(w: World, result: ChangeResult, reason: Option<RecoveryReason>)
    requires HostHolds(w) && w.row.change.Some?
    ensures HostHolds(Finish(w, result, reason))
  {
    SameClaimsKeepHost(w, Finish(w, result, reason));
  }

  lemma UnprovenKeepsHost(w: World, read: Option<Reading>)
    requires HostHolds(w) && w.row.change.Some?
    ensures HostHolds(Unproven(w, read))
  {
    SameClaimsKeepHost(w, Unproven(w, read));
  }

  /** A guard row is updated with something true of the agent, or the store refuses it. */
  lemma GuardUpdateKeepsHost(w: World, g: GuardRow, pc: Pc)
    requires HostHolds(w) && PcTrue(w.row, pc, w.host)
    requires AgentOk(w.row.(guard := Some(g)), w.host)
    ensures HostHolds(UpdateGuard(w, g, pc))
  {
  }

  lemma SettleGuardIsTrue(row: Row, h: Host, report: GuardReport)
    requires row.guard.Some? && AgentOk(row, h) && ReportTrue(h, report)
    ensures AgentOk(row.(guard := Some(SettleGuard(row.guard.value, report))), h)
    ensures AgentOk(row.(guard := Some(AbandonGuard(row.guard.value, report))), h)
  {
  }

  lemma ArmingStepKeepsHost(w: World, w': World, pc: ApplyPc)
    requires InOrder(w) && w.pc == InApply(pc) && ApplyCommit(w, pc) == Some(w')
    requires pc.Acquired? || pc.Refusing? || pc.Waiting? || pc.Authorised? || pc.GuardGivenUp?
    ensures HostHolds(w')
  {
    hide RowOk;
    SameClaimsKeepHost(w, w');
  }

  lemma RequestGuardKeepsHost(w: World)
    requires InOrder(w) && w.pc == InApply(Prepared)
    ensures HostHolds(RequestGuard(w))
  {
    hide RowOk;
  }

  lemma GuardStepKeepsHost(w: World, w': World, pc: ApplyPc)
    requires InOrder(w) && w.pc == InApply(pc) && ApplyCommit(w, pc) == Some(w')
    requires pc.GuardTaken? || pc.GuardAbandoned? || pc.Releasing?
    ensures HostHolds(w')
  {
    hide RowOk, PcRows, UpdateGuard, WireOk, LogsOk, ChangeTrue, AttemptsTrue;
    match pc
    case GuardTaken => GuardUpdateKeepsHost(w, w.row.guard.value.(armed := true), InApply(GuardReady));
    case GuardAbandoned(report) =>
      SettleGuardIsTrue(w.row, w.host, report);
      GuardUpdateKeepsHost(w, AbandonGuard(w.row.guard.value, report), InApply(GuardGivenUp));
    case Releasing(report) =>
      SettleGuardIsTrue(w.row, w.host, report);
      GuardUpdateKeepsHost(w, SettleGuard(w.row.guard.value, report), Idle);
      var done := UpdateGuard(w, SettleGuard(w.row.guard.value, report), Idle);
      SameClaimsKeepHost(done, done.(flow := NoFlow));
  }

  lemma CrossKeepsHost(w: World)
    requires InOrder(w) && w.row.change.None?
    ensures HostHolds(Cross(w))
  {
    hide RowOk, PcRows;
  }

  lemma MarkDispatchKeepsHost(w: World)
    requires InOrder(w) && w.pc == InApply(Crossed) && w.row.change.Some?
    ensures HostHolds(MarkDispatch(w))
  {
    hide RowOk;
    WasAnnounced(w, ApplyWrite);
  }

  lemma RecordOutcomeKeepsHost(w: World, report: Report)
    requires InOrder(w) && w.pc == InApply(Reported(report)) && w.row.change.Some?
    ensures HostHolds(RecordOutcome(w, report))
  {
    hide RowOk, PcRows;
  }

  lemma VerdictKeepsHost(w: World, w': World, pc: ApplyPc)
    requires InOrder(w) && w.pc == InApply(pc) && ApplyCommit(w, pc) == Some(w')
    requires pc.Recorded? || pc.Observed? || pc.Judged?
    ensures HostHolds(w')
  {
    hide RowOk, PcRows, Finish, Unproven, HostOk;
    match pc
    case Recorded(report) =>
      if report.outcome == NotWritten { FinishKeepsHost(w, FailedResult, None); }
      else if report.outcome == WriteUnknown { UnprovenKeepsHost(w, None); }
      else { SameClaimsKeepHost(w, w'); }
    case Observed(reading) => SameClaimsKeepHost(w, w');
    case Judged(reading) =>
      if reading.outcome != Verified { UnprovenKeepsHost(w, Some(reading)); }
      else if w.p.guarded { SameClaimsKeepHost(w, w'); }
      else { FinishKeepsHost(w, SucceededResult, None); }
  }

  lemma NoChangeBeforeTheBoundary(w: World, pc: ApplyPc)
    requires RowsHold(w) && w.pc == InApply(pc) && (pc.Prepared? || pc.GuardReady?)
    ensures w.row.change.None?
  {
  }

  lemma ApplyKeepsHost(w: World, pc: ApplyPc, w': World)
    requires InOrder(w) && w.pc == InApply(pc) && ApplyCommit(w, pc) == Some(w')
    ensures HostHolds(w')
  {
    hide RowsLie, HostLies, RequestGuard, Cross, MarkDispatch, RecordOutcome;
    match pc
    case Prepared =>
      NoChangeBeforeTheBoundary(w, pc);
      if w.p.guarded { RequestGuardKeepsHost(w); } else { CrossKeepsHost(w); }
    case GuardReady => NoChangeBeforeTheBoundary(w, pc); CrossKeepsHost(w);
    case Crossed => MarkDispatchKeepsHost(w);
    case Reported(report) => RecordOutcomeKeepsHost(w, report);
    case _ =>
      if pc.Recorded? || pc.Observed? || pc.Judged? { VerdictKeepsHost(w, w', pc); }
      else if pc.GuardTaken? || pc.GuardAbandoned? || pc.Releasing? { GuardStepKeepsHost(w, w', pc); }
      else { ArmingStepKeepsHost(w, w', pc); }
  }

  lemma MarkRestoreKeepsHost(w: World, current: int)
    requires InOrder(w) && w.pc == InRestore(RestoreReady(current)) && w.row.change.Some?
    ensures HostHolds(MarkRestore(w, current))
  {
    hide RowOk;
    WasAnnounced(w, RollbackWrite);
  }

  lemma RestoreMarkIsRollback(w: World, report: Report)
    requires RowsHold(w) && w.pc == InRestore(RestoreReported(report)) && w.row.change.Some?
    ensures w.row.change.value.rollbackAttempt == Some(RollbackWrite)
  {
  }

  lemma RecordRestoreKeepsHost(w: World, report: Report)
    requires InOrder(w) && w.pc == InRestore(RestoreReported(report)) && w.row.change.Some?
    ensures HostHolds(RecordRestore(w, report))
  {
    RestoreMarkIsRollback(w, report);
    hide RowOk, PcRows;
  }

  lemma RestoreKeepsHost(w: World, pc: RestorePc, w': World)
    requires InOrder(w) && w.pc == InRestore(pc) && RestoreCommit(w, pc) == Some(w')
    ensures HostHolds(w')
  {
    hide RowsLie, HostLies, MarkRestore, RecordRestore, Finish;
    match pc
    case RestoreReady(current) => MarkRestoreKeepsHost(w, current);
    case RestoreReported(report) => RecordRestoreKeepsHost(w, report);
    case Rejudged(report, reading) =>
      if reading.outcome == Verified { FinishKeepsHost(w, RolledBackResult, None); }
      else { SameClaimsKeepHost(w, w'); }
    case Holding(reason) => FinishKeepsHost(w, RecoveryResult, Some(reason));
    case _ => SameClaimsKeepHost(w, w');
  }

  lemma NoteReversalKeepsHost(w: World, report: GuardReport)
    requires InOrder(w) && w.pc == InKeep(LapseOpened(report))
    requires w.row.change.Some? && report.mutation.Some?
    ensures HostHolds(NoteReversal(w, report))
  {
    hide RowOk;
  }

  lemma SettleLapseKeepsHost(w: World, report: GuardReport)
    requires InOrder(w) && w.row.guard.Some?
    requires w.pc == InKeep(LapseNoted(report)) || w.pc == InKeep(Lapsed(report))
    ensures HostHolds(SettleLapse(w, report))
  {
    hide RowOk, PcRows, UpdateGuard, WireOk, LogsOk, ChangeTrue, AttemptsTrue;
    SettleGuardIsTrue(w.row, w.host, report);
    GuardUpdateKeepsHost(w, SettleGuard(w.row.guard.value, report), InKeep(LapseSettled(report)));
  }

  lemma ProofKeepsHost(w: World)
    requires InOrder(w) && w.pc == InKeep(KeepProven) && w.row.guard.Some?
    ensures HostHolds(RecordProof(w))
  {
    hide RowOk, PcRows, UpdateGuard, WireOk, LogsOk, ChangeTrue, AttemptsTrue;
    GuardUpdateKeepsHost(w, w.row.guard.value.(kept := true, settled := Some(PhaseDisarmed)), InKeep(Kept));
  }

  lemma KeepKeepsHost(w: World, pc: KeepPc, w': World)
    requires InOrder(w) && w.pc == InKeep(pc) && KeepCommit(w, pc) == Some(w')
    ensures HostHolds(w')
  {
    hide RowsLie, RecordProof, Finish, SettleLapse, NoteReversal, WireOk, LogsOk, ChangeTrue, AttemptsTrue, AgentOk;
    match pc
    case KeepProven => ProofKeepsHost(w);
    case Kept => FinishKeepsHost(w, SucceededResult, None);
    case Lapsed(report) =>
      if report.phase == PhaseFired && report.mutation.Some? { SameClaimsKeepHost(w, w'); }
      else { SettleLapseKeepsHost(w, report); }
    case LapseOpened(report) => NoteReversalKeepsHost(w, report);
    case LapseNoted(report) => SettleLapseKeepsHost(w, report);
    case LapseSettled(report) => SameClaimsKeepHost(w, w');
  }

  lemma SettleAtBootKeepsHost(w: World, report: GuardReport)
    requires InOrder(w) && w.pc == InBoot(BootGuardSettle(report)) && w.row.guard.Some?
    ensures HostHolds(SettleAtBoot(w, report))
  {
    hide RowOk, PcRows, UpdateGuard, WireOk, LogsOk, ChangeTrue, AttemptsTrue;
    SettleGuardIsTrue(w.row, w.host, report);
    GuardUpdateKeepsHost(w, SettleGuard(w.row.guard.value, report), InBoot(BootChange));
    var done := UpdateGuard(w, SettleGuard(w.row.guard.value, report), InBoot(BootChange));
    SameClaimsKeepHost(done, SettleAtBoot(w, report));
  }

  /** The conservative record is sound: a dispatch that never began is not on the wire. */
  lemma RecordAtBootKeepsHost(w: World)
    requires InOrder(w) && w.pc == InBoot(BootChange)
    ensures HostHolds(RecordAtBoot(w))
  {
    hide RowOk, PcRows;
    WasAnnounced(w, ApplyWrite);
  }

  lemma BootKeepsHost(w: World, pc: BootPc, w': World)
    requires InOrder(w) && w.pc == InBoot(pc) && BootCommit(w, pc) == Some(w')
    ensures HostHolds(w')
  {
    hide RowsLie, HostLies, SettleAtBoot, RecordAtBoot, Finish, WithAttempt;
    match pc
    case BootGuards => SameClaimsKeepHost(w, w');
    case BootGuardSettle(report) => SettleAtBootKeepsHost(w, report);
    case BootChange => RecordAtBootKeepsHost(w);
    case BootConclude => ConcludeAtBootKeepsHost(w);
    case BootRecovery => InterruptKeepsHost(w, w');
  }

  lemma ConcludeAtBootKeepsHost(w: World)
    requires HostHolds(w) && w.row.change.Some? && w.row.change.value.outcome.Some?
    ensures HostHolds(ConcludeAtBoot(w))
  {
    var c := w.row.change.value;
    hide HostLies, Finish;
    match c.outcome.value
    case NotWritten => FinishKeepsHost(w, FailedResult, None);
    case Written =>
      if c.verification.outcome == Verified && !w.p.guarded { FinishKeepsHost(w, SucceededResult, None); }
      else { SameClaimsKeepHost(w, ConcludeAtBoot(w)); }
    case WriteUnknown => SameClaimsKeepHost(w, ConcludeAtBoot(w));
  }

  /** The attempt under way gains a record: nothing it announced is taken back, and what it
      claims is true. */
  lemma AttemptStepKeepsHost(w: World, w': World, a: RecoveryAttempt)
    requires HostHolds(w) && w.row.attempts != [] && w'.p == w.p && w'.host == w.host
    requires w'.row.guard == w.row.guard && w'.row.change == w.row.change
    requires w'.row.attempts == w.row.attempts[|w.row.attempts| - 1 := a]
    requires LastAttempt(w.row).dispatchBegan ==> a.dispatchBegan
    requires Claimed(w.host, RetryWrite(|w.row.attempts| - 1), a.outcome)
    requires PcTrue(w'.row, w'.pc, w'.host)
    ensures HostHolds(w')
  {
    forall b | b in w'.host.wire ensures RequestOk(w'.p, w'.row, w'.host, b) {
      assert RequestOk(w.p, w.row, w.host, b);
    }
  }

  lemma InterruptKeepsHost(w: World, w': World)
    requires HostHolds(w) && w.pc == InBoot(BootRecovery) && BootCommit(w, BootRecovery) == Some(w')
    ensures HostHolds(w')
  {
    if LastOpen(w.row.attempts) {
      AttemptStepKeepsHost(w, w', InterruptedAttempt(LastAttempt(w.row)));
    } else {
      SameClaimsKeepHost(w, w');
    }
  }

  lemma EndAttemptKeepsHost(w: World, ending: AttemptEnding)
    requires HostHolds(w) && w.row.attempts != []
    ensures HostHolds(EndAttempt(w, ending))
  {
    AttemptStepKeepsHost(w, EndAttempt(w, ending), LastAttempt(w.row).(ending := ending, releases := Releases(ending)));
  }

  /** A new attempt has announced nothing and claims nothing. */
  lemma NewAttemptKeepsHost(w: World, w': World, a: RecoveryAttempt)
    requires HostHolds(w) && w'.p == w.p && w'.host == w.host
    requires w'.row.guard == w.row.guard && w'.row.change == w.row.change
    requires w'.row.attempts == w.row.attempts + [a] && a.outcome.None?
    requires PcTrue(w'.row, w'.pc, w'.host)
    ensures HostHolds(w')
  {
    forall b | b in w'.host.wire ensures RequestOk(w'.p, w'.row, w'.host, b) {
      assert RequestOk(w.p, w.row, w.host, b);
    }
  }

  lemma SpendKeepsHost(w: World, evidence: Reading)
    requires InOrder(w) && w.pc == InRecover(RetryPlanned(evidence)) && w.row.attempts != []
    ensures HostHolds(SpendGrant(w, evidence))
  {
    hide RowOk;
    WasAnnounced(w, RetryWrite(|w.row.attempts| - 1));
    if w.row.granted {
      AttemptStepKeepsHost(w, SpendGrant(w, evidence), LastAttempt(w.row).(dispatchBegan := true));
    } else {
      SameClaimsKeepHost(w, SpendGrant(w, evidence));
    }
  }

  lemma RecordRetryKeepsHost(w: World, report: Report)
    requires HostHolds(w) && w.pc == InRecover(RetryReported(report)) && w.row.attempts != []
    ensures HostHolds(RecordRetry(w, report))
  {
    AttemptStepKeepsHost(w, RecordRetry(w, report), ReportedAttempt(LastAttempt(w.row), report));
  }

  lemma ResolveKeepsHost(w: World, evidence: Reading)
    requires HostHolds(w)
    ensures HostHolds(ResolveHold(w, evidence))
  {
    if HoldOpen(w.row) {
      NewAttemptKeepsHost(w, ResolveHold(w, evidence),
                          NewAttempt(ResolveAttempt).(evidence := evidence, ending := ResolvedEnding,
                                                      releases := true));
    } else {
      SameClaimsKeepHost(w, ResolveHold(w, evidence));
    }
  }

  lemma RecoverKeepsHost(w: World, pc: RecoverPc, w': World)
    requires InOrder(w) && w.pc == InRecover(pc) && RecoverCommit(w, pc) == Some(w')
    ensures HostHolds(w')
  {
    hide RowsLie, EndAttempt, ResolveHold, SpendGrant, RecordRetry, HostOk;
    match pc
    case Resolvable(evidence) => ResolveKeepsHost(w, evidence);
    case RetryRead(evidence) => AttemptRecordKeepsHost(w, w', LastAttempt(w.row).(evidence := evidence));
    case RetryPlanned(evidence) => SpendKeepsHost(w, evidence);
    case RetryReported(report) => RecordRetryKeepsHost(w, report);
    case RetryReread(reading) => AttemptRecordKeepsHost(w, w', LastAttempt(w.row).(verification := reading));
    case RetryJudged(evidence) => EndAttemptKeepsHost(w, ProvenEnding);
    case RetryRefusing => EndAttemptKeepsHost(w, RefusedEnding);
    case RetryRecorded(report) => EndAttemptKeepsHost(w, RecoveryEndingFor(report.outcome, NotAttempted));
    case RetryRejudged(reading) => EndAttemptKeepsHost(w, RecoveryEndingFor(Written, reading.outcome));
  }

  /** A record on the attempt under way that claims nothing new about the host. */
  lemma AttemptRecordKeepsHost(w: World, w': World, a: RecoveryAttempt)
    requires HostHolds(w) && w.row.attempts != [] && w'.p == w.p && w'.host == w.host
    requires w'.row.guard == w.row.guard && w'.row.change == w.row.change
    requires w'.row.attempts == w.row.attempts[|w.row.attempts| - 1 := a]
    requires a.dispatchBegan == LastAttempt(w.row).dispatchBegan && a.outcome == LastAttempt(w.row).outcome
    requires PcTrue(w'.row, w'.pc, w'.host)
    ensures HostHolds(w')
  {
    AttemptStepKeepsHost(w, w', a);
  }

  lemma CommitKeepsHost(w: World, w': World)
    requires InOrder(w) && CommitNext(w) == Some(w')
    ensures HostHolds(w')
  {
    hide RowsLie, HostLies, ApplyCommit, RestoreCommit, KeepCommit, BootCommit, RecoverCommit;
    match w.pc
    case InApply(pc) => ApplyKeepsHost(w, pc, w');
    case InRestore(pc) => RestoreKeepsHost(w, pc, w');
    case InKeep(pc) => KeepKeepsHost(w, pc, w');
    case InBoot(pc) => BootKeepsHost(w, pc, w');
    case InRecover(pc) => RecoverKeepsHost(w, pc, w');
  }

  lemma BeginKeepsHost(w: World, call: Call, w': World)
    requires InOrder(w) && BeginNext(w, call) == Some(w')
    ensures HostHolds(w')
  {
    hide RowsLie, HostOk;
    if call == RetryCall { NewAttemptKeepsHost(w, w', NewAttempt(RetryAttempt)); }
    else { SameClaimsKeepHost(w, w'); }
  }

  // -------------------------------------------------------------- nothing moves but the backend

  lemma ObserveKeepsHost(w: World, o: Observation, w': World)
    requires InOrder(w) && ObserveNext(w, o) == Some(w')
    ensures HostHolds(w')
  {
    hide RowsLie;
    SameClaimsKeepHost(w, w');
  }

  lemma RefuseKeepsHost(w: World, w': World)
    requires InOrder(w) && RefuseNext(w) == Some(w')
    ensures HostHolds(w')
  {
    hide RowsLie;
    SameClaimsKeepHost(w, w');
  }

  lemma AnswerKeepsHost(w: World, report: Report, w': World)
    requires InOrder(w) && AnswerNext(w, report) == Some(w')
    ensures HostHolds(w')
  {
    hide RowsLie;
    SameClaimsKeepHost(w, w');
  }

  lemma ArmAnswerKeepsHost(w: World, armed: bool, w': World)
    requires InOrder(w) && ArmAnswerNext(w, armed) == Some(w')
    ensures HostHolds(w')
  {
    hide RowsLie;
    SameClaimsKeepHost(w, w');
  }

  lemma ReplanKeepsHost(w: World, kind: ChangeKind, desired: int, w': World)
    requires InOrder(w) && ReplanNext(w, kind, desired) == Some(w')
    ensures HostHolds(w')
  {
    hide RowsLie;
    SameClaimsKeepHost(w, w');
  }

  lemma DieKeepsHost(w: World, down: bool, w': World)
    requires InOrder(w) && DieNext(w, down) == Some(w')
    ensures HostHolds(w')
  {
    hide RowsLie;
    SameClaimsKeepHost(w, w');
  }

  // ----------------------------------------------------------------- the host moves, rows do not

  /** Everything the rows claimed before stays true: what was settled stays settled, and a
      guard that stood down stays down. */
  predicate KeepsPromises(h: Host, h': Host, except: Option<Attempt>) {
    && (forall a :: a in h.wire ==>
          && a in h'.wire
          && h'.wire[a].expected == h.wire[a].expected
          && h'.wire[a].desired == h.wire[a].desired
          && (h.wire[a].stage.Closed? ==> h'.wire[a].stage == h.wire[a].stage))
    && (forall a :: a in h'.wire && Some(a) != except ==> a in h.wire)
    && (h.armWire == Landed(true) ==> h'.armWire == Landed(true))
  }

  /** Nothing recorded speaks of this attempt's outcome. */
  predicate Unclaimed(row: Row, a: Attempt) {
    match a
    case ApplyWrite => row.change.Some? ==> row.change.value.outcome.None?
    case RollbackWrite => row.change.Some? ==> row.change.value.rollbackOutcome.None?
    case ReversalWrite => true
    case RetryWrite(n) => n < |row.attempts| ==> row.attempts[n].outcome.None?
  }

  /** A guard that has settled, one way or the other, stays so. */
  predicate GuardStays(h: Host, h': Host) {
    && (StoodDown(h) ==> StoodDown(h'))
    && (Spent(h) ==> Spent(h'))
  }

  /** Nothing claims anything about the attempt about to be dispatched. */
  predicate Free(row: Row, h: Host, except: Option<Attempt>) {
    except.Some? ==>
      && except.value !in h.wire
      && Unclaimed(row, except.value)
      && (except.value == ReversalWrite ==> !Spent(h) && !StoodDown(h))
  }

  lemma SettledStays(h: Host, h': Host, except: Option<Attempt>, a: Attempt, outcome: MutationOutcome)
    requires KeepsPromises(h, h', except) && Settled(h, a, outcome) && except != Some(a)
    ensures Settled(h', a, outcome)
  {
  }

  lemma ChangeStaysTrue(row: Row, h: Host, h': Host, except: Option<Attempt>)
    requires KeepsPromises(h, h', except) && GuardStays(h, h') && Free(row, h, except)
    requires ChangeTrue(row, h)
    ensures ChangeTrue(row, h')
  {
    if row.change.Some? {
      var c := row.change.value;
      if c.outcome.Some? { SettledStays(h, h', except, ApplyWrite, c.outcome.value); }
      if c.rollbackAttempt.Some? && c.rollbackOutcome.Some? {
        SettledStays(h, h', except, c.rollbackAttempt.value, c.rollbackOutcome.value);
      }
    }
  }

  lemma AttemptsStayTrue(row: Row, h: Host, h': Host, except: Option<Attempt>)
    requires KeepsPromises(h, h', except) && Free(row, h, except)
    requires AttemptsTrue(row, h)
    ensures AttemptsTrue(row, h')
  {
    forall n | 0 <= n < |row.attempts| && row.attempts[n].outcome.Some?
      ensures Settled(h', RetryWrite(n), row.attempts[n].outcome.value)
    {
      SettledStays(h, h', except, RetryWrite(n), row.attempts[n].outcome.value);
    }
  }

  lemma ReportStaysTrue(h: Host, h': Host, except: Option<Attempt>, report: GuardReport)
    requires KeepsPromises(h, h', except) && GuardStays(h, h')
    requires except == Some(ReversalWrite) ==> !Spent(h) && !StoodDown(h)
    requires ReportTrue(h, report)
    ensures ReportTrue(h', report)
  {
  }

  /** What the backend has been told stays true while the host moves under it. */
  lemma PcStaysTrue(row: Row, pc: Pc, h: Host, h': Host, except: Option<Attempt>)
    requires KeepsPromises(h, h', except) && GuardStays(h, h') && Free(row, h, except)
    requires except.None? || except == Some(ReversalWrite)
    requires h.armWire == NotAsked ==> h'.armWire == NotAsked
    requires PcTrue(row, pc, h)
    ensures PcTrue(row, pc, h')
  {
    hide Settled;
    match pc
    case InApply(GuardAbandoned(report)) => ReportStaysTrue(h, h', except, report);
    case InApply(Releasing(report)) => ReportStaysTrue(h, h', except, report);
    case InApply(Reported(report)) => SettledStays(h, h', except, ApplyWrite, report.outcome);
    case InRestore(RestoreReported(report)) => SettledStays(h, h', except, RollbackWrite, report.outcome);
    case InKeep(Lapsed(report)) => ReportStaysTrue(h, h', except, report);
    case InKeep(LapseOpened(report)) => ReportStaysTrue(h, h', except, report);
    case InKeep(LapseNoted(report)) => ReportStaysTrue(h, h', except, report);
    case InBoot(BootGuardSettle(report)) => ReportStaysTrue(h, h', except, report);
    case InRecover(RetryReported(report)) =>
      SettledStays(h, h', except, RetryWrite(|row.attempts| - 1), report.outcome);
    case _ =>
  }

  /** A move that puts nothing new on the wire keeps every claim. */
  lemma QuietMoveKeepsHost(w: World, h': Host)
    requires HostHolds(w) && KeepsPromises(w.host, h', None) && GuardStays(w.host, h')
    requires w.host.armWire == NotAsked ==> h'.armWire == NotAsked
    requires LogsOk(h') && AgentOk(w.row, h')
    ensures HostHolds(w.(host := h'))
  {
    ChangeStaysTrue(w.row, w.host, h', None);
    AttemptsStayTrue(w.row, w.host, h', None);
    PcStaysTrue(w.row, w.pc, w.host, h', None);
    hide ChangeTrue, AttemptsTrue, PcTrue, AgentOk, LogsOk, GuardStays;
    forall a | a in h'.wire ensures RequestOk(w.p, w.row, h', a) {
      assert RequestOk(w.p, w.row, w.host, a);
    }
  }

  /** A request that is answered for by a durable row, and by no outcome yet, joins the wire. */
  lemma DispatchKeepsHost(w: World, w': World, a: Attempt, expected: int, desired: int)
    requires HostHolds(w) && w'.p == w.p && w'.row == w.row && Free(w.row, w.host, Some(a))
    requires w'.host.wire == w.host.wire[a := Request(expected, desired, Queued)]
    requires w'.host.sends == w.host.sends + [a] && w'.host.accepted == w.host.accepted
    requires w'.host.armWire == w.host.armWire && GuardStays(w.host, w'.host)
    requires RequestOk(w'.p, w'.row, w'.host, a)
    requires AgentOk(w'.row, w'.host) && PcTrue(w'.row, w'.pc, w'.host)
    ensures HostHolds(w')
  {
    ChangeStaysTrue(w.row, w.host, w'.host, Some(a));
    AttemptsStayTrue(w.row, w.host, w'.host, Some(a));
    hide ChangeTrue, AttemptsTrue, PcTrue, AgentOk, GuardStays;
    forall b | b in w'.host.wire ensures RequestOk(w'.p, w'.row, w'.host, b) {
      if b != a { assert RequestOk(w.p, w.row, w.host, b); }
    }
    assert forall b :: Accepted(w'.host, b) == Accepted(w.host, b);
  }

  // ----- the host's own moves

  lemma StageMoveKeepsHost(w: World, a: Attempt, stage: Stage, h': Host)
    requires HostHolds(w) && Open(w.host, a) && stage != Queued
    requires h'.wire == w.host.wire[a := w.host.wire[a].(stage := stage)]
    requires h'.sends == w.host.sends
    requires h'.accepted == if stage == Closed(true) then w.host.accepted + [a] else w.host.accepted
    requires h'.armWire == w.host.armWire && h'.held == w.host.held && h'.raised == w.host.raised
    ensures HostHolds(w.(host := h'))
  {
    assert LogsOk(h') by {
      forall b ensures multiset(h'.accepted)[b] == if Accepted(h', b) then 1 else 0 {
        assert Accepted(h', b) == (Accepted(w.host, b) || (b == a && stage == Closed(true)));
      }
    }
    assert AgentOk(w.row, h');
    QuietMoveKeepsHost(w, h');
  }

  lemma DeadlineKeepsHost(w: World, dispatched: bool, w': World)
    requires InOrder(w) && HostMoveNext(w, Deadline(dispatched)) == Some(w')
    ensures HostHolds(w')
  {
    ArmedGuardHasItsRow(w);
    hide RowOk, PcRows;
    if dispatched {
      PcStaysTrue(w.row, w.pc, w.host, w'.host, Some(ReversalWrite));
      DispatchKeepsHost(w, w', ReversalWrite, w.p.desired, w.p.before);
    } else {
      QuietMoveKeepsHost(w, w'.host);
    }
  }

  /** A guard the agent holds was announced, and its checkpoint is the plan's. */
  lemma ArmedGuardHasItsRow(w: World)
    requires InOrder(w) && w.host.armWire != NotAsked
    ensures w.row.guard.Some?
    ensures w.row.checkpoint == Some(Checkpoint(w.p.before, w.p.desired))
    ensures w.p.kind == FieldChange
  {
  }

  /** The agent's bookkeeping: nothing on the wire changes, and nothing settled is undone. */
  lemma AgentMoveKeepsHost(w: World, h': Host)
    requires HostHolds(w) && AgentOk(w.row, h') && GuardStays(w.host, h')
    requires h'.wire == w.host.wire && h'.sends == w.host.sends && h'.accepted == w.host.accepted
    requires h'.armWire == w.host.armWire || (w.host.armWire == OnItsWay && h'.armWire.Landed?)
    ensures HostHolds(w.(host := h'))
  {
    hide AgentOk, GuardStays;
    QuietMoveKeepsHost(w, h');
  }

  lemma HostKeepsHost(w: World, m: HostMove, w': World)
    requires InOrder(w) && HostMoveNext(w, m) == Some(w')
    ensures HostHolds(w')
  {
    if m.Deadline? { DeadlineKeepsHost(w, m.dispatched, w'); }
    hide RowsLie, WireOk, LogsOk, ChangeTrue, AttemptsTrue, PcTrue;
    match m
    case MatchRequest(a) => StageMoveKeepsHost(w, a, Matched, w'.host);
    case RejectRequest(a) => StageMoveKeepsHost(w, a, Closed(false), w'.host);
    case AcceptRequest(a) => StageMoveKeepsHost(w, a, Closed(true), w'.host);
    case Deadline(dispatched) =>
    case _ => AgentMoveKeepsHost(w, w'.host);
  }

  // ----- the backend reaches the host

  lemma SendIsAnnounced(w: World, w': World)
    requires RowsHold(w) && SendNext(w) == Some(w') && w.pc != InApply(GuardAsked)
    ensures w.row.change.Some?
    ensures w.row.change.value.before == w.p.before && w.row.change.value.desired == w.p.desired
    ensures w.pc == InApply(Marked) ==>
              w.row.change.value.dispatchBegan && w.row.change.value.outcome.None?
    ensures w.pc.InRestore? ==>
              w.row.change.value.rollbackAttempt == Some(RollbackWrite) && w.row.change.value.rollbackOutcome.None?
    ensures w.pc.InRestore? ==> w.row.checkpoint.Some? && w.row.checkpoint.value.before == w.p.before
    ensures w.pc.InRecover? ==>
              w.row.attempts != [] && LastAttempt(w.row).dispatchBegan && LastAttempt(w.row).outcome.None?
  {
  }

  /** A write the backend sends is none of the agent's business. */
  lemma BackendSendKeepsHost(w: World, w': World, a: Attempt, expected: int)
    requires HostHolds(w) && a != ReversalWrite && w'.p == w.p && w'.row == w.row
    requires a !in w.host.wire && Unclaimed(w.row, a)
    requires w'.host == Dispatch(w.host, a, expected, if a == RollbackWrite then w.p.before else w.p.desired)
    requires RequestOk(w'.p, w'.row, w'.host, a) && PcTrue(w'.row, w'.pc, w'.host)
    ensures HostHolds(w')
  {
    hide RequestOk, PcTrue, WireOk, LogsOk, ChangeTrue, AttemptsTrue;
    DispatchKeepsHost(w, w', a, expected, if a == RollbackWrite then w.p.before else w.p.desired);
  }

  lemma SendKeepsHost(w: World, w': World)
    requires InOrder(w) && SendNext(w) == Some(w')
    ensures HostHolds(w')
  {
    hide RowsLie, HostLies;
    match w.pc
    case InApply(Marked) => SendApplyKeepsHost(w, w');
    case InApply(GuardAsked) => AskKeepsHost(w, w');
    case InRestore(RestoreMarked(current)) => SendRestoreKeepsHost(w, w', current);
    case InRecover(RetryMarked(evidence)) => SendRetryKeepsHost(w, w', evidence);
  }

  lemma SendApplyKeepsHost(w: World, w': World)
    requires InOrder(w) && w.pc == InApply(Marked) && SendNext(w) == Some(w')
    ensures HostHolds(w')
  {
    SendIsAnnounced(w, w');
    hide RowsLie, WireOk, LogsOk, ChangeTrue, AttemptsTrue, AgentOk;
    BackendSendKeepsHost(w, w', ApplyWrite, w.p.before);
  }

  lemma SendRestoreKeepsHost(w: World, w': World, current: int)
    requires InOrder(w) && w.pc == InRestore(RestoreMarked(current)) && SendNext(w) == Some(w')
    ensures HostHolds(w')
  {
    SendIsAnnounced(w, w');
    hide RowsLie, WireOk, LogsOk, ChangeTrue, AttemptsTrue, AgentOk;
    BackendSendKeepsHost(w, w', RollbackWrite, current);
  }

  lemma SendRetryKeepsHost(w: World, w': World, evidence: Reading)
    requires InOrder(w) && w.pc == InRecover(RetryMarked(evidence)) && SendNext(w) == Some(w')
    ensures HostHolds(w')
  {
    SendIsAnnounced(w, w');
    hide RowsLie, WireOk, LogsOk, ChangeTrue, AttemptsTrue, AgentOk;
    BackendSendKeepsHost(w, w', RetryWrite(|w.row.attempts| - 1),
                         if evidence.value.Some? then evidence.value.value else 0);
  }

  lemma AskKeepsHost(w: World, w': World)
    requires InOrder(w) && w.pc == InApply(GuardAsked) && SendNext(w) == Some(w')
    ensures HostHolds(w')
  {
    hide RowOk;
    ChangeStaysTrue(w.row, w.host, w'.host, None);
    AttemptsStayTrue(w.row, w.host, w'.host, None);
    forall a | a in w'.host.wire ensures RequestOk(w'.p, w'.row, w'.host, a) {
      assert RequestOk(w.p, w.row, w.host, a);
    }
  }

  /** An honest report is true, and the release it may have brought about undoes nothing. */
  lemma DisarmIsTrue(row: Row, h: Host, report: GuardReport, late: bool)
    requires AgentOk(row, h) && DisarmAnswer(h, report, late).Some?
    ensures var h' := DisarmAnswer(h, report, late).value;
            && AgentOk(row, h')
            && GuardStays(h, h')
            && ReportTrue(h', report)
            && h' == h.(held := h'.held, releaseWire := h'.releaseWire)
  {
  }

  lemma GuardAnswerKeepsHost(w: World, report: GuardReport, late: bool, w': World)
    requires InOrder(w) && GuardAnswerNext(w, report, late) == Some(w')
    ensures HostHolds(w')
  {
    if w'.host != w.host { DisarmKeepsHost(w, report, late, w'); }
    else {
      hide RowsLie, HostLies, DisarmAnswer, HonestReport;
      match w.pc
      case InApply(pc) => ReleaseStatusKeepsHost(w, report, late, w');
      case InKeep(pc) => KeepStatusKeepsHost(w, report, late, w');
      case InBoot(pc) => BootStatusKeepsHost(w, report, late, w');
    }
  }

  lemma DisarmKeepsHost(w: World, report: GuardReport, late: bool, w': World)
    requires InOrder(w) && GuardAnswerNext(w, report, late) == Some(w') && w'.host != w.host
    ensures HostHolds(w')
  {
    hide RowsLie, HostLies, DisarmAnswer, HonestReport;
    assert DisarmAnswer(w.host, report, late) == Some(w'.host);
    DisarmMovesHost(w, report, late);
    DisarmMovesPc(w, report, late, w');
  }

  lemma DisarmMovesHost(w: World, report: GuardReport, late: bool)
    requires HostHolds(w) && DisarmAnswer(w.host, report, late).Some?
    ensures HostHolds(w.(host := DisarmAnswer(w.host, report, late).value))
    ensures ReportTrue(DisarmAnswer(w.host, report, late).value, report)
  {
    DisarmIsTrue(w.row, w.host, report, late);
    hide AgentOk, GuardStays, ReportTrue, WireOk, LogsOk, ChangeTrue, AttemptsTrue, DisarmAnswer, PcTrue;
    AgentMoveKeepsHost(w, DisarmAnswer(w.host, report, late).value);
  }

  lemma DisarmMovesPc(w: World, report: GuardReport, late: bool, w': World)
    requires GuardAnswerNext(w, report, late) == Some(w') && w'.host != w.host
    requires HostHolds(w.(host := w'.host)) && ReportTrue(w'.host, report)
    ensures HostHolds(w')
  {
    hide HostOk, DisarmAnswer, HonestReport;
    SameClaimsKeepHost(w.(host := w'.host), w');
  }

  lemma ReleaseStatusKeepsHost(w: World, report: GuardReport, late: bool, w': World)
    requires InOrder(w) && GuardAnswerNext(w, report, late) == Some(w') && w'.host == w.host
    requires w.pc.InApply?
    ensures HostHolds(w')
  {
    StatusIsTrue(w.row, w.host, report, late);
    hide RowsLie, HostLies, DisarmAnswer, HonestReport, ReportTrue;
    SameClaimsKeepHost(w, w');
  }

  lemma KeepStatusKeepsHost(w: World, report: GuardReport, late: bool, w': World)
    requires InOrder(w) && GuardAnswerNext(w, report, late) == Some(w') && w'.host == w.host
    requires w.pc.InKeep?
    ensures HostHolds(w')
  {
    StatusIsTrue(w.row, w.host, report, late);
    hide RowsLie, HostLies, DisarmAnswer, HonestReport, ReportTrue;
    SameClaimsKeepHost(w, w');
  }

  lemma BootStatusKeepsHost(w: World, report: GuardReport, late: bool, w': World)
    requires InOrder(w) && GuardAnswerNext(w, report, late) == Some(w') && w'.host == w.host
    requires w.pc.InBoot?
    ensures HostHolds(w')
  {
    StatusIsTrue(w.row, w.host, report, late);
    hide RowsLie, HostLies, DisarmAnswer, HonestReport, ReportTrue;
    SameClaimsKeepHost(w, w');
  }

  lemma StatusIsTrue(row: Row, h: Host, report: GuardReport, late: bool)
    requires AgentOk(row, h)
    ensures HonestReport(h.held, report) ==> ReportTrue(h, report)
    ensures report.phase == PhaseUnreachable ==> ReportTrue(h, report)
    ensures DisarmAnswer(h, report, late) == Some(h) ==> ReportTrue(h, report)
  {
  }

  /** Every step, taken by anyone, keeps what is known about the host true. */
  lemma NextKeepsHost(w: World, e: Event, w': World)
    requires InOrder(w) && Next(w, e) == Some(w')
    ensures InOrder(w')
  {
    NextKeepsRows(w, e, w');
    hide RowsLie, HostLies, BeginNext, CommitNext, RefuseNext, ObserveNext, SendNext, AnswerNext, ArmAnswerNext,
      GuardAnswerNext, ReplanNext, DieNext, HostMoveNext;
    match e
    case Begin(call) => BeginKeepsHost(w, call, w');
    case Commit => CommitKeepsHost(w, w');
    case Refuse => RefuseKeepsHost(w, w');
    case Observe(o) => ObserveKeepsHost(w, o, w');
    case Send => SendKeepsHost(w, w');
    case Answer(report) => AnswerKeepsHost(w, report, w');
    case ArmAnswer(armed) => ArmAnswerKeepsHost(w, armed, w');
    case GuardAnswer(report, late) => GuardAnswerKeepsHost(w, report, late, w');
    case Replan(kind, desired) => ReplanKeepsHost(w, kind, desired, w');
    case Die(down) => DieKeepsHost(w, down, w');
    case HostStep(m) => HostKeepsHost(w, m, w');
  }

  lemma InitIsTrue(w: World)
    requires Init(w)
    ensures InOrder(w)
  {
  }

  lemma {:induction false} RunsKeepTruth(w: World, es: seq<Event>, w': World)
    requires InOrder(w) && Runs(w, es, w')
    ensures InOrder(w')
    decreases |es|
  {
    if es != [] {
      var next := Next(w, es[0]).value;
      NextKeepsHost(w, es[0], next);
      RunsKeepTruth(next, es[1..], w');
    }
  }

  /** At every reachable state the rows are truthful and what they say of the host is so. */
  lemma ReachableIsTrue(w: World)
    requires Reachable(w)
    ensures InOrder(w)
  {
    var w0, es :| Init(w0) && Runs(w0, es, w);
    InitIsTrue(w0);
    RunsKeepTruth(w0, es, w);
  }
}
