/** The value on the wire: what the link holds while nobody but this Run and its guard writes
    it. */
module WritePathLink {
  import opened Outcomes
  import opened WritePath
  import opened WritePathInvariant
  import opened WritePathFrames
  import opened WritePathRows
  import opened WritePathHost

  /** Some reading proved the value the change was for. */
  predicate SawDesired(w: World) {
    || (w.row.change.Some? && w.row.change.value.verification.outcome == Verified)
    || (w.pc.InApply? && w.pc.apply.Observed? && w.pc.apply.reading.outcome == Verified)
  }

  /** Some reading proved the value the restoration was for. */
  predicate SawBefore(w: World) {
    || (w.row.change.Some? && w.row.change.value.rollbackVerification.outcome == Verified)
    || (w.pc.InRestore? && w.pc.restore.Reread? && w.pc.restore.reading.outcome == Verified)
  }

  /** The link moves only by writes this Run or its guard had accepted. */
  predicate OnlyOurs(w: World) {
    w.p.kind == FieldChange && !w.host.foreign
  }

  /** The reversal got past its comparison. */
  predicate Reverting(h: Host) {
    ReversalWrite in h.wire && (h.wire[ReversalWrite].stage == Matched || Accepted(h, ReversalWrite))
  }

  predicate DesiredHolds(w: World) {
    OnlyOurs(w) && SawDesired(w) && !Accepted(w.host, ReversalWrite) ==> w.host.link == w.p.desired
  }

  predicate BeforeHolds(w: World) {
    OnlyOurs(w) && SawBefore(w) && w.quiet && w.row.attempts == [] ==> w.host.link == w.p.before
  }

  /** Until the apply is accepted, a link that started at the before-value stays there, and a
      guard that fires finds nothing to revert. */
  predicate UntouchedHolds(w: World) {
    OnlyOurs(w) && w.host.start == w.p.before && !Accepted(w.host, ApplyWrite) && w.row.attempts == [] ==>
      w.host.link == w.p.before && !Reverting(w.host)
  }

  predicate QuietHolds(w: World) {
    w.quiet ==>
      && w.row.change.Some?
      && w.row.change.value.outcome.Some?
      && !Open(w.host, ApplyWrite)
  }

  /** A write known to have been accepted was closed long before any restoration was judged. */
  predicate KnownHolds(w: World) {
    SawBefore(w) && w.row.change.Some? && w.row.change.value.outcome == Some(Written) ==> w.quiet
  }

  predicate LinkOk(w: World) {
    DesiredHolds(w) && BeforeHolds(w) && UntouchedHolds(w) && QuietHolds(w) && KnownHolds(w)
  }

  predicate LinkLies(w: World) {
    !LinkOk(w)
  }

  predicate LinkHolds(w: World) {
    !LinkLies(w)
  }

  // ------------------------------------------------------------------ what is not on the wire

  /** Once a reading proved the desired value, no restoration by the backend is on the wire and
      the apply is closed. */
  lemma ProvenMeansClosed(w: World)
    requires InOrder(w) && SawDesired(w)
    ensures RollbackWrite !in w.host.wire
    ensures Accepted(w.host, ApplyWrite)
  {
    VerifiedRows(w);
    WasAnnounced(w, RollbackWrite);
  }

  lemma VerifiedRows(w: World)
    requires RowsHold(w) && SawDesired(w)
    ensures w.row.change.Some?
    ensures w.row.change.value.outcome == Some(Written)
    ensures w.row.change.value.rollbackAttempt != Some(RollbackWrite)
  {
  }

  lemma RetriesNeedAttempts(w: World, a: Attempt)
    requires HostHolds(w) && a.RetryWrite? && a in w.host.wire
    ensures w.row.attempts != []
  {
    WasAnnounced(w, a);
  }

  lemma SawBeforeRows(w: World)
    requires RowsHold(w) && SawBefore(w)
    ensures w.row.change.Some? && w.row.change.value.outcome.Some?
  {
  }

  /** A step that proves nothing new and leaves the wire alone keeps what is known of the
      link. */
  lemma UnseeingStepKeepsLink(w: World, w': World)
    requires InOrder(w) && LinkHolds(w) && w'.p == w.p && w'.quiet == w.quiet
    requires w'.host.link == w.host.link && w'.host.start == w.host.start && w'.host.foreign == w.host.foreign
    requires w'.host.wire == w.host.wire
    requires SawDesired(w') ==> SawDesired(w)
    requires SawBefore(w') ==> SawBefore(w)
    requires w'.row.attempts == [] ==> w.row.attempts == []
    requires w.row.change.Some? && w.row.change.value.outcome.Some? ==>
               w'.row.change.Some? && w'.row.change.value.outcome == w.row.change.value.outcome
    ensures LinkHolds(w')
  {
    if SawBefore(w) { SawBeforeRows(w); }
    hide RowsLie, HostLies;
  }

  // --------------------------------------------------------------------------- host moves

  /** What an accepted write can do to the link. */
  lemma AcceptedValue(w: World, a: Attempt)
    requires HostHolds(w) && a in w.host.wire
    ensures w.host.wire[a].desired == if a == RollbackWrite || a == ReversalWrite then w.p.before else w.p.desired
  {
    WasAnnounced(w, a);
  }

  lemma AcceptKeepsLink(w: World, a: Attempt, w': World)
    requires InOrder(w) && LinkHolds(w) && HostMoveNext(w, AcceptRequest(a)) == Some(w')
    ensures LinkHolds(w')
  {
    AcceptedValue(w, a);
    if SawDesired(w) { ProvenMeansClosed(w); }
    if a.RetryWrite? { RetriesNeedAttempts(w, a); }
    hide RowsLie, HostLies;
  }

  lemma MatchKeepsLink(w: World, a: Attempt, w': World)
    requires InOrder(w) && LinkHolds(w) && HostMoveNext(w, MatchRequest(a)) == Some(w')
    ensures LinkHolds(w')
  {
    WasAnnounced(w, a);
    PlanMoves(w);
    hide RowsLie, HostLies;
  }

  lemma PlanMoves(w: World)
    requires RowsHold(w)
    ensures w.p.kind == FieldChange ==> w.p.before != w.p.desired
  {
  }

  lemma RejectKeepsLink(w: World, a: Attempt, w': World)
    requires LinkHolds(w) && HostMoveNext(w, RejectRequest(a)) == Some(w')
    ensures LinkHolds(w')
  {
  }

  /** A request that has just left has done nothing to the link. */
  lemma QueuedKeepsLink(w: World, w': World, a: Attempt, expected: int, desired: int)
    requires LinkHolds(w) && w'.p == w.p && w'.quiet == w.quiet && w'.row == w.row
    requires w'.host.link == w.host.link && w'.host.start == w.host.start && w'.host.foreign == w.host.foreign
    requires a !in w.host.wire && w'.host.wire == w.host.wire[a := Request(expected, desired, Queued)]
    requires a == ApplyWrite ==> w.row.change.Some? && w.row.change.value.outcome.None?
    requires SawDesired(w') ==> SawDesired(w)
    requires SawBefore(w') ==> SawBefore(w)
    ensures LinkHolds(w')
  {
  }

  lemma DeadlineKeepsLink(w: World, dispatched: bool, w': World)
    requires InOrder(w) && LinkHolds(w) && HostMoveNext(w, Deadline(dispatched)) == Some(w')
    ensures LinkHolds(w')
  {
    DeadlineIsNew(w);
    hide RowsLie, HostLies, LinkLies;
    if dispatched {
      QueuedKeepsLink(w, w', ReversalWrite, w.row.checkpoint.value.desired, w.row.checkpoint.value.before);
    } else {
      UnseeingStepKeepsLink(w, w');
    }
  }

  lemma AgentMoveKeepsLink(w: World, m: HostMove, w': World)
    requires InOrder(w) && LinkHolds(w) && HostMoveNext(w, m) == Some(w')
    requires m.ArmLands? || m.ReleaseLands? || m.FireReturns? || m.FireRaises? || m.AgentForgets?
    ensures LinkHolds(w')
  {
    UnseeingStepKeepsLink(w, w');
  }

  lemma ForeignKeepsLink(w: World, value: int, w': World)
    requires LinkHolds(w) && HostMoveNext(w, ForeignWrite(value)) == Some(w')
    ensures LinkHolds(w')
  {
  }

  lemma DeadlineIsNew(w: World)
    requires HostHolds(w)
    ensures w.host.held == Armed ==> ReversalWrite !in w.host.wire
  {
  }

  lemma HostKeepsLink(w: World, m: HostMove, w': World)
    requires InOrder(w) && LinkHolds(w) && HostMoveNext(w, m) == Some(w')
    ensures LinkHolds(w')
  {
    hide RowsLie, HostLies, LinkLies, HostMoveNext;
    match m
    case AcceptRequest(a) => AcceptKeepsLink(w, a, w');
    case MatchRequest(a) => MatchKeepsLink(w, a, w');
    case RejectRequest(a) => RejectKeepsLink(w, a, w');
    case Deadline(dispatched) => DeadlineKeepsLink(w, dispatched, w');
    case ForeignWrite(value) => ForeignKeepsLink(w, value, w');
    case _ => AgentMoveKeepsLink(w, m, w');
  }

  // -------------------------------------------------------------------------- backend steps

  lemma GuardStepKeepsLink(w: World, pc: ApplyPc, w': World)
    requires InOrder(w) && LinkHolds(w) && w.pc == InApply(pc) && ApplyCommit(w, pc) == Some(w')
    requires pc.GuardTaken? || pc.GuardAbandoned? || pc.Releasing?
    ensures LinkHolds(w')
  {
    hide RowsLie, HostLies, UpdateGuard, LinkLies;
    GuardUpdateKeepsChange(w);
    UnseeingStepKeepsLink(w, w');
  }

  lemma VerdictKeepsLink(w: World, pc: ApplyPc, w': World)
    requires InOrder(w) && LinkHolds(w) && w.pc == InApply(pc) && ApplyCommit(w, pc) == Some(w')
    requires pc.Recorded? || pc.Judged? || pc.Reported?
    ensures LinkHolds(w')
  {
    if pc.Reported? { UnansweredRows(w, pc.report); }
    hide RowsLie, HostLies, LinkLies, Finish, Unproven;
    if !pc.Reported? { EndingSeesNothing(w); }
    UnseeingStepKeepsLink(w, w');
  }

  /** Neither an ending nor the start of a restoration proves anything about the link. */
  lemma EndingSeesNothing(w: World)
    requires w.row.change.Some?
    ensures forall result, reason :: Unseeing(w, Finish(w, result, reason))
    ensures forall read :: Unseeing(w, Unproven(w, read))
  {
  }

  predicate Unseeing(w: World, w': World) {
    && w'.p == w.p && w'.quiet == w.quiet && w'.host == w.host
    && w'.row.attempts == w.row.attempts
    && (SawDesired(w') ==> SawDesired(w))
    && (SawBefore(w') ==> SawBefore(w))
    && (w.row.change.Some? ==>
          w'.row.change.Some? && w'.row.change.value.outcome == w.row.change.value.outcome)
  }

  lemma UnansweredRows(w: World, report: Report)
    requires RowsHold(w) && w.pc == InApply(Reported(report))
    ensures w.row.change.Some? && w.row.change.value.outcome.None?
    ensures !SawBefore(w)
  {
  }

  lemma ApplyStepKeepsLink(w: World, pc: ApplyPc, w': World)
    requires InOrder(w) && LinkHolds(w) && w.pc == InApply(pc) && ApplyCommit(w, pc) == Some(w')
    ensures LinkHolds(w')
  {
    if pc.GuardTaken? || pc.GuardAbandoned? || pc.Releasing? { GuardStepKeepsLink(w, pc, w'); }
    else if pc.Recorded? || pc.Judged? || pc.Reported? { VerdictKeepsLink(w, pc, w'); }
    else {
      BoundaryIsOnce(w, pc);
      hide RowsLie, HostLies, LinkLies, Finish, Unproven, UpdateGuard;
      UnseeingStepKeepsLink(w, w');
    }
  }

  lemma BoundaryIsOnce(w: World, pc: ApplyPc)
    requires RowsHold(w) && w.pc == InApply(pc)
    ensures pc.Prepared? || pc.GuardReady? ==> w.row.change.None?
  {
  }

  lemma GuardUpdateKeepsChange(w: World)
    ensures forall g, pc :: UpdateGuard(w, g, pc) == w.(row := UpdateGuard(w, g, pc).row,
                                                        pc := UpdateGuard(w, g, pc).pc,
                                                        flow := UpdateGuard(w, g, pc).flow)
    ensures forall g, pc :: UpdateGuard(w, g, pc).row.change == w.row.change
    ensures forall g, pc :: UpdateGuard(w, g, pc).row.attempts == w.row.attempts
    ensures forall g, pc :: UpdateGuard(w, g, pc).pc in {pc, Idle, Down}
  {
  }

  lemma RestoreStepKeepsLink(w: World, pc: RestorePc, w': World)
    requires InOrder(w) && LinkHolds(w) && w.pc == InRestore(pc) && RestoreCommit(w, pc) == Some(w')
    ensures LinkHolds(w')
  {
    hide RowsLie, HostLies;
    UnseeingStepKeepsLink(w, w');
  }

  lemma KeepStepKeepsLink(w: World, pc: KeepPc, w': World)
    requires InOrder(w) && LinkHolds(w) && w.pc == InKeep(pc) && KeepCommit(w, pc) == Some(w')
    ensures LinkHolds(w')
  {
    GuardUpdateKeepsChange(w);
    hide RowsLie, HostLies, UpdateGuard;
    UnseeingStepKeepsLink(w, w');
  }

  lemma BootStepKeepsLink(w: World, pc: BootPc, w': World)
    requires InOrder(w) && LinkHolds(w) && w.pc == InBoot(pc) && BootCommit(w, pc) == Some(w')
    ensures LinkHolds(w')
  {
    GuardUpdateKeepsChange(w);
    hide RowsLie, HostLies, UpdateGuard;
    UnseeingStepKeepsLink(w, w');
  }

  lemma RecoverStepKeepsLink(w: World, pc: RecoverPc, w': World)
    requires InOrder(w) && LinkHolds(w) && w.pc == InRecover(pc) && RecoverCommit(w, pc) == Some(w')
    ensures LinkHolds(w')
  {
    hide RowsLie, HostLies;
    UnseeingStepKeepsLink(w, w');
  }

  lemma CommitKeepsLink(w: World, w': World)
    requires InOrder(w) && LinkHolds(w) && CommitNext(w) == Some(w')
    ensures LinkHolds(w')
  {
    hide RowsLie, HostLies, LinkLies, ApplyCommit, RestoreCommit, KeepCommit, BootCommit, RecoverCommit;
    match w.pc
    case InApply(pc) => ApplyStepKeepsLink(w, pc, w');
    case InRestore(pc) => RestoreStepKeepsLink(w, pc, w');
    case InKeep(pc) => KeepStepKeepsLink(w, pc, w');
    case InBoot(pc) => BootStepKeepsLink(w, pc, w');
    case InRecover(pc) => RecoverStepKeepsLink(w, pc, w');
  }

  /** A reading is only as good as the link was when it was taken. */
  lemma VerifyingReadKeepsLink(w: World, o: Observation, w': World)
    requires InOrder(w) && LinkHolds(w) && w.pc == InApply(Observing) && ObserveNext(w, o) == Some(w')
    ensures LinkHolds(w')
  {
    ChangeIsThePlans(w);
    hide RowsLie, HostLies;
  }

  lemma RereadKeepsLink(w: World, o: Observation, w': World)
    requires InOrder(w) && LinkHolds(w) && ObserveNext(w, o) == Some(w')
    requires w.pc.InRestore? && w.pc.restore.Rereading?
    ensures LinkHolds(w')
  {
    ChangeIsThePlans(w);
    RereadingRows(w);
    KnownMeansClosed(w);
    hide RowsLie, HostLies;
  }

  lemma OtherReadKeepsLink(w: World, o: Observation, w': World)
    requires InOrder(w) && LinkHolds(w) && ObserveNext(w, o) == Some(w')
    requires w.pc != InApply(Observing) && !(w.pc.InRestore? && w.pc.restore.Rereading?)
    ensures LinkHolds(w')
  {
    hide RowsLie, HostLies, LinkLies, ReadBack, Faithful;
    UnseeingStepKeepsLink(w, w');
  }

  lemma ObserveKeepsLink(w: World, o: Observation, w': World)
    requires InOrder(w) && LinkHolds(w) && ObserveNext(w, o) == Some(w')
    ensures LinkHolds(w')
  {
    hide RowsLie, HostLies, LinkLies, ObserveNext;
    if w.pc == InApply(Observing) { VerifyingReadKeepsLink(w, o, w'); }
    else if w.pc.InRestore? && w.pc.restore.Rereading? { RereadKeepsLink(w, o, w'); }
    else { OtherReadKeepsLink(w, o, w'); }
  }

  lemma KnownMeansClosed(w: World)
    requires HostHolds(w)
    ensures w.row.change.Some? && w.row.change.value.outcome == Some(Written) ==> Accepted(w.host, ApplyWrite)
  {
  }

  lemma RereadingRows(w: World)
    requires RowsHold(w)
    ensures w.pc.InRestore? && w.pc.restore.Rereading? ==>
              && w.row.change.Some?
              && w.row.change.value.outcome.Some?
              && w.row.change.value.rollbackVerification.outcome == NotAttempted
  {
  }

  lemma SendIsNew(w: World, w': World)
    requires InOrder(w) && SendNext(w) == Some(w')
    ensures w.pc == InApply(Marked) ==> ApplyWrite !in w.host.wire
    ensures w.pc.InRestore? ==> RollbackWrite !in w.host.wire
    ensures w.pc.InRecover? ==> w.row.attempts != [] && RetryWrite(|w.row.attempts| - 1) !in w.host.wire
  {
    hide RowsLie, WireOk, LogsOk, ChangeTrue, AttemptsTrue, AgentOk;
  }

  lemma SendKeepsLink(w: World, w': World)
    requires InOrder(w) && LinkHolds(w) && SendNext(w) == Some(w')
    ensures LinkHolds(w')
  {
    SendIsNew(w, w');
    if w.pc != InApply(GuardAsked) { SendIsAnnounced(w, w'); }
    hide RowsLie, HostLies, LinkLies;
    match w.pc
    case InApply(GuardAsked) => UnseeingStepKeepsLink(w, w');
    case InApply(Marked) => QueuedKeepsLink(w, w', ApplyWrite, w.p.before, w.p.desired);
    case InRestore(RestoreMarked(current)) => QueuedKeepsLink(w, w', RollbackWrite, current, w.p.before);
    case InRecover(RetryMarked(evidence)) =>
      QueuedKeepsLink(w, w', RetryWrite(|w.row.attempts| - 1),
                      if evidence.value.Some? then evidence.value.value else 0, w.p.desired);
  }

  lemma BeginKeepsLink(w: World, call: Call, w': World)
    requires InOrder(w) && LinkHolds(w) && BeginNext(w, call) == Some(w')
    ensures LinkHolds(w')
  {
    hide RowsLie, HostLies;
    UnseeingStepKeepsLink(w, w');
  }

  lemma TalkKeepsLink(w: World, e: Event, w': World)
    requires InOrder(w) && LinkHolds(w) && Next(w, e) == Some(w')
    requires e.Refuse? || e.Answer? || e.ArmAnswer? || e.Replan? || e.Die?
    ensures LinkHolds(w')
  {
    hide RowsLie, HostLies, BeginNext, CommitNext, ObserveNext, SendNext, GuardAnswerNext, HostMoveNext, Answerable;
    UnseeingStepKeepsLink(w, w');
  }

  lemma GuardAnswerKeepsLink(w: World, report: GuardReport, late: bool, w': World)
    requires InOrder(w) && LinkHolds(w) && GuardAnswerNext(w, report, late) == Some(w')
    ensures LinkHolds(w')
  {
    hide RowsLie, HostLies, HonestReport;
    UnseeingStepKeepsLink(w, w');
  }

  lemma NextKeepsLink(w: World, e: Event, w': World)
    requires InOrder(w) && LinkHolds(w) && Next(w, e) == Some(w')
    ensures LinkHolds(w')
  {
    if e.Refuse? || e.Answer? || e.ArmAnswer? || e.Replan? || e.Die? { TalkKeepsLink(w, e, w'); }
    hide RowsLie, HostLies, LinkLies, BeginNext, CommitNext, RefuseNext, ObserveNext, SendNext, AnswerNext,
      ArmAnswerNext, GuardAnswerNext, ReplanNext, DieNext, HostMoveNext;
    match e
    case Begin(call) => BeginKeepsLink(w, call, w');
    case Commit => CommitKeepsLink(w, w');
    case Observe(o) => ObserveKeepsLink(w, o, w');
    case Send => SendKeepsLink(w, w');
    case GuardAnswer(report, late) => GuardAnswerKeepsLink(w, report, late, w');
    case HostStep(m) => HostKeepsLink(w, m, w');
    case _ =>
  }

  lemma {:induction false} RunsKeepLink(w: World, es: seq<Event>, w': World)
    requires InOrder(w) && LinkHolds(w) && Runs(w, es, w')
    ensures LinkHolds(w')
    decreases |es|
  {
    hide Astray, LinkLies, Next;
    if es != [] {
      var next := Next(w, es[0]).value;
      NextKeepsHost(w, es[0], next);
      NextKeepsLink(w, es[0], next);
      RunsKeepLink(next, es[1..], w');
    }
  }

  /** At every reachable state the link is where the readings say it is. */
  lemma ReachableLink(w: World)
    requires Reachable(w)
    ensures LinkHolds(w)
  {
    var w0, es :| Init(w0) && Runs(w0, es, w);
    InitIsTrue(w0);
    RunsKeepLink(w0, es, w);
  }

  // ------------------------------------------------------------------------- the last write

  /** The value an attempt writes. */
  function ValueOf(p: Preview, a: Attempt): int {
    if a == RollbackWrite || a == ReversalWrite then p.before else p.desired
  }

  /** While nobody else writes the link, it holds what the last accepted write put there; and a
      reading that proved the before-value before any write was accepted proved it of the start. */
  predicate LastWriteHolds(w: World) {
    OnlyOurs(w) ==>
      && w.host.link == (if w.host.accepted == [] then w.host.start
                         else ValueOf(w.p, w.host.accepted[|w.host.accepted| - 1]))
      && (SawBefore(w) && w.host.accepted == [] ==> w.host.start == w.p.before)
  }

  lemma ApplySeesNothing(w: World, pc: ApplyPc, w': World)
    requires w.pc == InApply(pc) && ApplyCommit(w, pc) == Some(w') && SawBefore(w')
    ensures SawBefore(w)
  {
  }

  lemma RestoreSeesNothing(w: World, pc: RestorePc, w': World)
    requires w.pc == InRestore(pc) && RestoreCommit(w, pc) == Some(w') && SawBefore(w')
    ensures SawBefore(w)
  {
  }

  lemma KeepSeesNothing(w: World, pc: KeepPc, w': World)
    requires w.pc == InKeep(pc) && KeepCommit(w, pc) == Some(w') && SawBefore(w')
    ensures SawBefore(w)
  {
  }

  lemma BootSeesNothing(w: World, pc: BootPc, w': World)
    requires w.pc == InBoot(pc) && BootCommit(w, pc) == Some(w') && SawBefore(w')
    ensures SawBefore(w)
  {
  }

  lemma RecoverSeesNothing(w: World, pc: RecoverPc, w': World)
    requires w.pc == InRecover(pc) && RecoverCommit(w, pc) == Some(w') && SawBefore(w')
    ensures SawBefore(w)
  {
  }

  lemma CommitSeesNothing(w: World, w': World)
    requires CommitNext(w) == Some(w') && SawBefore(w')
    ensures SawBefore(w)
  {
    hide ApplyCommit, RestoreCommit, KeepCommit, BootCommit, RecoverCommit, SawBefore;
    match w.pc
    case InApply(pc) => ApplySeesNothing(w, pc, w');
    case InRestore(pc) => RestoreSeesNothing(w, pc, w');
    case InKeep(pc) => KeepSeesNothing(w, pc, w');
    case InBoot(pc) => BootSeesNothing(w, pc, w');
    case InRecover(pc) => RecoverSeesNothing(w, pc, w');
    case _ =>
  }

  lemma ReadingSeesTheLink(w: World, o: Observation, w': World)
    requires InOrder(w) && ObserveNext(w, o) == Some(w') && SawBefore(w') && !SawBefore(w) && OnlyOurs(w)
    ensures w.host.link == w.p.before
  {
    if w.pc.InRestore? && w.pc.restore.Rereading? { RereadingRows(w); }
    hide RowsLie, HostLies;
  }

  lemma OtherStepsSeeNothing(w: World, e: Event, w': World)
    requires Next(w, e) == Some(w') && !e.Commit? && !e.Observe? && SawBefore(w')
    ensures SawBefore(w)
  {
    hide HostNext, HonestReport, HoldOpen;
  }

  lemma HostMoveKeepsLastWrite(w: World, m: HostMove, w': World)
    requires HostHolds(w) && LastWriteHolds(w) && HostMoveNext(w, m) == Some(w')
    ensures LastWriteHolds(w')
  {
    if m.AcceptRequest? && m.attempt in w.host.wire { AcceptedValue(w, m.attempt); }
    hide HostLies;
  }

  lemma StepKeepsLastWrite(w: World, e: Event, w': World)
    requires InOrder(w) && LastWriteHolds(w) && Next(w, e) == Some(w')
    ensures LastWriteHolds(w')
  {
    PlanIsFixed(w, e, w');
    hide RowsLie, HostLies, HostMoveNext, CommitNext, ObserveNext, SawBefore;
    if e.HostStep? {
      HostMoveKeepsLastWrite(w, e.move, w');
    } else {
      OnlyTheHostMovesTheLink(w, e, w');
      if SawBefore(w') && !SawBefore(w) {
        if e.Commit? { CommitSeesNothing(w, w'); }
        else if e.Observe? { if OnlyOurs(w) { ReadingSeesTheLink(w, e.observation, w'); } }
        else { OtherStepsSeeNothing(w, e, w'); }
      }
      hide Next;
    }
  }

  lemma {:induction false} RunsKeepLastWrite(w: World, es: seq<Event>, w': World)
    requires InOrder(w) && LastWriteHolds(w) && Runs(w, es, w')
    ensures LastWriteHolds(w')
    decreases |es|
  {
    hide Astray, Next, LastWriteHolds;
    if es != [] {
      var next := Next(w, es[0]).value;
      NextKeepsHost(w, es[0], next);
      StepKeepsLastWrite(w, es[0], next);
      RunsKeepLastWrite(next, es[1..], w');
    }
  }

  /** So at every reachable state. */
  lemma ReachableLastWrite(w: World)
    requires Reachable(w)
    ensures LastWriteHolds(w)
  {
    var w0, es :| Init(w0) && Runs(w0, es, w);
    InitIsTrue(w0);
    assert LastWriteHolds(w0);
    hide Astray, LastWriteHolds, Init;
    RunsKeepLastWrite(w0, es, w);
  }
}
