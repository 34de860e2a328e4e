/** What a restart makes of a Run that was interrupted: one function of its rows, reached in
    several transactions, and the same however often the restart itself is interrupted. */
module WritePathRestart {
  import opened Outcomes
  import opened WritePath
  import opened WritePathInvariant
  import opened WritePathFrames
  import opened WritePathRows
  import opened WritePathHost

  /** Why an interrupted Change whose outcome is known or lost is admitted rather than ended. */
  function InterruptionReason(outcome: MutationOutcome): RecoveryReason {
    if outcome == Written then ApplyInterruptedAfterWrite else ApplyWriteUnknown
  }

  /** The ending an interrupted Change is given, from its outcome and its verification. */
  function Concluded(p: Preview, row: Row): Row
    requires row.change.Some? && row.change.value.outcome.Some?
  {
    var c := row.change.value;
    if c.outcome.value == NotWritten then FinishRow(row, FailedResult, None)
    else if c.outcome.value == Written && c.verification.outcome == Verified && !p.guarded then
      FinishRow(row, SucceededResult, None)
    else FinishRow(row, RecoveryResult, Some(InterruptionReason(c.outcome.value)))
  }

  function SettledChange(p: Preview, row: Row): Row {
    if Interrupted(row) then Concluded(p, RecordOutcomeOnRecovery(row)) else row
  }

  function SettledAttempts(row: Row): Row {
    if LastOpen(row.attempts) then
      row.(attempts := row.attempts[|row.attempts| - 1 := InterruptedAttempt(LastAttempt(row))])
    else row
  }

  /** The rows a restart leaves behind. */
  function Restarted(p: Preview, row: Row): Row {
    SettledAttempts(SettledChange(p, row))
  }

  // ------------------------------------------------------------------------- what it means

  /** Restarting twice is restarting once. */
  lemma RestartIsIdempotent(p: Preview, row: Row)
    ensures Restarted(p, Restarted(p, row)) == Restarted(p, row)
  {
    assert !Interrupted(SettledChange(p, row));
  }

  lemma SettledChangeKeepsTheRecord(p: Preview, row: Row)
    requires row.change.Some?
    ensures var row' := SettledChange(p, row);
            && row'.change.Some?
            && row'.change.value.verification == row.change.value.verification
            && row'.change.value.rollbackAttempt == row.change.value.rollbackAttempt
            && row'.change.value.rollbackOutcome == row.change.value.rollbackOutcome
            && (row.change.value.outcome.Some? ==> row'.change.value.outcome == row.change.value.outcome)
            && (row.change.value.outcome.None? && Interrupted(row) ==>
                  row'.change.value.outcome
                  == Some(if row.change.value.dispatchBegan then WriteUnknown else NotWritten))
            && row'.guard == row.guard && row'.checkpoint == row.checkpoint && row'.attempts == row.attempts
  {
  }

  /** A restart never rewrites what was recorded, and what it records itself is conservative:
      a write that began and was never answered for is unknown, one that never began is none. */
  lemma RestartKeepsTheRecord(p: Preview, row: Row)
    requires row.change.Some?
    ensures Restarted(p, row).change.Some?
    ensures row.change.value.outcome.Some? ==>
              Restarted(p, row).change.value.outcome == row.change.value.outcome
    ensures row.change.value.outcome.None? && Interrupted(row) ==>
              Restarted(p, row).change.value.outcome
              == Some(if row.change.value.dispatchBegan then WriteUnknown else NotWritten)
    ensures Restarted(p, row).change.value.verification == row.change.value.verification
    ensures Restarted(p, row).change.value.rollbackAttempt == row.change.value.rollbackAttempt
    ensures Restarted(p, row).change.value.rollbackOutcome == row.change.value.rollbackOutcome
    ensures Restarted(p, row).guard == row.guard && Restarted(p, row).checkpoint == row.checkpoint
    ensures |Restarted(p, row).attempts| == |row.attempts|
    ensures forall i :: 0 <= i < |row.attempts| && row.attempts[i].outcome.Some? ==>
              Restarted(p, row).attempts[i].outcome == row.attempts[i].outcome
  {
    SettledChangeKeepsTheRecord(p, row);
    hide SettledChange;
  }

  /** A Change left unfinished by a restart is one its Run is holding under guard, and no
      attempt is left open. */
  lemma RestartLeavesOnlyGuarded(p: Preview, row: Row)
    requires row.change.Some? && Restarted(p, row).change.value.result == InFlight
    ensures row.state == Guarded && Restarted(p, row).state == Guarded
  {
  }

  lemma RestartLeavesNoAttemptOpen(p: Preview, row: Row)
    requires RowHolds(p, row)
    ensures !AttemptOpen(Restarted(p, row))
  {
    if row.change.Some? {
      assert AttemptsHold(p, row.attempts);
      assert Restarted(p, row).attempts == SettledAttempts(row).attempts;
    }
  }

  /** What an interrupted Change becomes: nothing was written and it failed; it was written and
      verified and, unguarded, it succeeded; anything else is admitted and keeps its lock. */
  lemma RestartEndsTruthfully(p: Preview, row: Row)
    requires RowHolds(p, row) && Interrupted(row)
    ensures Restarted(p, row).change.Some? && Restarted(p, row).change.value.outcome.Some?
    ensures var c, outcome := Restarted(p, row).change.value, Restarted(p, row).change.value.outcome.value;
            && (c.result == FailedResult <==> outcome == NotWritten)
            && (c.result == SucceededResult <==>
                  outcome == Written && row.change.value.verification.outcome == Verified && !p.guarded)
            && (c.result == RecoveryResult <==> c.reason.Some?)
            && (c.reason.Some? ==>
                  c.reason.value == if outcome == Written then ApplyInterruptedAfterWrite else ApplyWriteUnknown)
            && (c.result == RecoveryResult <==> Restarted(p, row).locked)
            && c.result in {FailedResult, SucceededResult, RecoveryResult}
            && Restarted(p, row).state == (match c.result
                                           case FailedResult => Failed
                                           case SucceededResult => Succeeded
                                           case _ => RecoveryRequired)
            && c.effect == (match outcome
                            case NotWritten => NoEffect
                            case Written => WrittenEffect
                            case WriteUnknown => UnknownEffect)
  {
  }

  /** A Run that was not interrupted, because it has no Change, or an ended one, or waits to be kept,
      is left as it is but for an attempt nobody answered for. */
  lemma RestartLeavesTheRest(p: Preview, row: Row)
    requires row.change.None? || row.change.value.result != InFlight || row.state == Guarded
    ensures Restarted(p, row) == row.(attempts := Restarted(p, row).attempts)
  {
  }

  /** Only the newest attempt, if it is open, is touched: it is interrupted, and a dispatch that
      began without an answer on record is unknown. */
  lemma RestartClosesAttempts(p: Preview, row: Row, i: nat)
    requires i < |row.attempts|
    ensures |Restarted(p, row).attempts| == |row.attempts|
    ensures var was, now := row.attempts[i], Restarted(p, row).attempts[i];
            if i < |row.attempts| - 1 || was.ending != StillOpen then now == was
            else if was.dispatchBegan && was.outcome.None? then
              now == was.(ending := InterruptedEnding, outcome := Some(WriteUnknown), effect := UnknownEffect)
            else now == was.(ending := InterruptedEnding)
  {
    assert SettledChange(p, row).attempts == row.attempts;
    hide SettledChange;
  }

  // ----------------------------------------------------------------------- how it is reached

  /** The steps of a restart: start-ups, their answers and transactions, crashes, and whatever
      the host does meanwhile. */
  predicate RestartStep(e: Event) {
    e == Begin(StartupCall) || e.Commit? || e.GuardAnswer? || e.Die? || e.HostStep?
  }

  /** The same rows, but for the guard, which has a pass of its own. */
  predicate SameButGuard(row: Row, row': Row) {
    row'.(guard := None) == row.(guard := None)
  }

  /** Where a restart can be, on its way to leaving `target` behind. */
  predicate OnTheWay(w: World, target: Row) {
    && w.row.state != Guarded
    && SameButGuard(target, Restarted(w.p, w.row))
    && match w.pc
       case Down => w.flow == NoFlow
       case Idle => SameButGuard(target, w.row) && w.flow == NoFlow
       case InBoot(BootConclude) => w.flow == ChangePass && Interrupted(w.row) && w.row.change.value.outcome.Some?
       case InBoot(BootRecovery) => w.flow == ChangePass && !Interrupted(w.row)
       case InBoot(BootChange) => w.flow == ChangePass
       case InBoot(pc) => w.flow == GuardPass
       case InRestore(Holding(reason)) =>
         && w.flow == ChangePass
         && Interrupted(w.row)
         && w.row.change.value.outcome.Some?
         && Concluded(w.p, w.row) == FinishRow(w.row, RecoveryResult, Some(reason))
       case _ => false
  }

  lemma SettledIsTarget(p: Preview, row: Row)
    requires !Interrupted(row) && !LastOpen(row.attempts)
    ensures Restarted(p, row) == row
  {
  }

  lemma ConcludedIsSettled(p: Preview, row: Row)
    requires row.change.Some? && row.change.value.outcome.Some? && row.change.value.result == InFlight
    requires row.state != Guarded
    ensures !Interrupted(Concluded(p, row)) && Concluded(p, row).state != Guarded
    ensures Restarted(p, Concluded(p, row)) == Restarted(p, row)
  {
  }

  lemma RecordIgnoresGuard(row: Row, g: GuardRow)
    requires row.change.Some?
    ensures RecordOutcomeOnRecovery(row.(guard := Some(g))) == RecordOutcomeOnRecovery(row).(guard := Some(g))
  {
  }

  lemma ConcludedIgnoresGuard(p: Preview, row: Row, g: GuardRow)
    requires row.change.Some? && row.change.value.outcome.Some?
    ensures Concluded(p, row.(guard := Some(g))) == Concluded(p, row).(guard := Some(g))
  {
  }

  lemma SettledChangeIgnoresGuard(p: Preview, row: Row, g: GuardRow)
    ensures SettledChange(p, row.(guard := Some(g))) == SettledChange(p, row).(guard := Some(g))
  {
    if Interrupted(row) {
      RecordIgnoresGuard(row, g);
      var recorded := RecordOutcomeOnRecovery(row);
      assert recorded.change.Some? && recorded.change.value.outcome.Some?;
      ConcludedIgnoresGuard(p, recorded, g);
      hide RecordOutcomeOnRecovery, Concluded;
    }
  }

  /** The guard's row plays no part in it. */
  lemma GuardIsApart(p: Preview, row: Row, g: GuardRow)
    ensures Restarted(p, row.(guard := Some(g))) == Restarted(p, row).(guard := Some(g))
  {
    SettledChangeIgnoresGuard(p, row, g);
    hide SettledChange;
  }

  lemma RecordedIsHalfWay(p: Preview, row: Row)
    requires Interrupted(row)
    ensures Interrupted(RecordOutcomeOnRecovery(row)) && RecordOutcomeOnRecovery(row).change.value.outcome.Some?
    ensures RecordOutcomeOnRecovery(row).state == row.state
    ensures Restarted(p, RecordOutcomeOnRecovery(row)) == Restarted(p, row)
  {
  }

  lemma GuardSettlementStaysOnTheWay(w: World, target: Row, report: GuardReport)
    requires OnTheWay(w, target) && w.pc == InBoot(BootGuardSettle(report)) && w.row.guard.Some?
    ensures OnTheWay(SettleAtBoot(w, report), target)
  {
    GuardIsApart(w.p, w.row, SettleGuard(w.row.guard.value, report));
    hide Restarted, GuardUpdateAllowed, SettleGuard;
  }

  lemma ConclusionStaysOnTheWay(w: World, target: Row, w': World)
    requires OnTheWay(w, target) && w.pc == InBoot(BootConclude) && BootCommit(w, BootConclude) == Some(w')
    ensures OnTheWay(w', target)
  {
    ConcludedIsSettled(w.p, w.row);
    hide Restarted;
  }

  lemma RecoveryPassStaysOnTheWay(w: World, target: Row, w': World)
    requires OnTheWay(w, target) && w.pc == InBoot(BootRecovery) && BootCommit(w, BootRecovery) == Some(w')
    ensures OnTheWay(w', target)
  {
    if !LastOpen(w.row.attempts) { SettledIsTarget(w.p, w.row); }
    else { RestartIsIdempotent(w.p, w.row); }
  }

  lemma BootCommitStaysOnTheWay(w: World, target: Row, pc: BootPc, w': World)
    requires OnTheWay(w, target) && w.pc == InBoot(pc) && BootCommit(w, pc) == Some(w')
    ensures OnTheWay(w', target) && w'.p == w.p
  {
    CommitFrame(w, w');
    if pc.BootChange? && Interrupted(w.row) { RecordedIsHalfWay(w.p, w.row); }
    hide Restarted, SettleAtBoot, ConcludeAtBoot, WithAttempt, SameButGuard, Concluded;
    match pc
    case BootGuards =>
    case BootGuardSettle(report) => GuardSettlementStaysOnTheWay(w, target, report);
    case BootChange =>
    case BootConclude => ConclusionStaysOnTheWay(w, target, w');
    case BootRecovery => RecoveryPassStaysOnTheWay(w, target, w');
  }

  lemma HoldingStaysOnTheWay(w: World, target: Row, reason: RecoveryReason, w': World)
    requires OnTheWay(w, target) && w.pc == InRestore(Holding(reason)) && RestoreCommit(w, Holding(reason)) == Some(w')
    ensures OnTheWay(w', target) && w'.p == w.p
  {
    ConcludedIsSettled(w.p, w.row);
    hide Restarted;
  }

  lemma TalkStaysOnTheWay(w: World, target: Row, e: Event, w': World)
    requires OnTheWay(w, target) && Next(w, e) == Some(w') && RestartStep(e) && !e.Commit?
    ensures OnTheWay(w', target) && w'.p == w.p
  {
    hide Restarted, Concluded, CommitNext, HonestReport, HostNext;
    match e
    case GuardAnswer(report, late) => GuardAnswerFrame(w, report, late, w');
    case _ =>
  }

  lemma StepStaysOnTheWay(w: World, target: Row, e: Event, w': World)
    requires OnTheWay(w, target) && Next(w, e) == Some(w') && RestartStep(e)
    ensures OnTheWay(w', target) && w'.p == w.p
  {
    if !e.Commit? { TalkStaysOnTheWay(w, target, e, w'); }
    hide SameButGuard, Restarted, Concluded, BootCommit, RestoreCommit, BeginNext, GuardAnswerNext, DieNext,
      HostMoveNext;
    if e.Commit? {
      match w.pc
      case InBoot(pc) => BootCommitStaysOnTheWay(w, target, pc, w');
      case InRestore(pc) => HoldingStaysOnTheWay(w, target, pc.reason, w');
      case _ =>
    }
  }

  lemma {:induction false} RunStaysOnTheWay(w: World, target: Row, es: seq<Event>, w': World)
    requires OnTheWay(w, target) && Runs(w, es, w')
    requires forall i :: 0 <= i < |es| ==> RestartStep(es[i])
    ensures OnTheWay(w', target) && w'.p == w.p
    decreases |es|
  {
    hide Next, OnTheWay;
    if es != [] {
      assert RestartStep(es[0]);
      var next := Next(w, es[0]).value;
      StepStaysOnTheWay(w, target, es[0], next);
      RunStaysOnTheWay(next, target, es[1..], w');
    }
  }

  /** However often it dies half way, a backend that comes back has settled the Run as one
      uninterrupted restart would have. */
  lemma RestartSurvivesCrashes(w: World, es: seq<Event>, w': World)
    requires w.pc == Down && w.flow == NoFlow && w.row.state != Guarded
    requires Runs(w, es, w') && forall i :: 0 <= i < |es| ==> RestartStep(es[i])
    ensures SameButGuard(Restarted(w.p, w.row), Restarted(w'.p, w'.row))
    ensures w'.pc == Idle ==> SameButGuard(Restarted(w.p, w.row), w'.row)
  {
    RunStaysOnTheWay(w, Restarted(w.p, w.row), es, w');
    hide Restarted;
  }

  /** And it does come back: from the change pass, transactions alone reach the served state,
      with exactly those rows, and without a word to the host. */
  lemma RestartCompletes(w: World) returns (es: seq<Event>, w': World)
    requires w.pc == InBoot(BootChange) && w.flow == ChangePass
    ensures Runs(w, es, w') && forall i :: 0 <= i < |es| ==> es[i] == Commit
    ensures w'.pc == Idle && w'.row == Restarted(w.p, w.row) && w'.host == w.host
  {
    var es1, w1 := ChangePassCompletes(w);
    var es2, w2 := RecoveryPassCompletes(w1);
    es, w' := es1 + es2, w2;
    hide Next, Restarted;
    RunsJoin(w, es1, w1, es2, w2);
  }

  lemma ChangePassCompletes(w: World) returns (es: seq<Event>, w': World)
    requires w.pc == InBoot(BootChange) && w.flow == ChangePass
    ensures Runs(w, es, w') && forall i :: 0 <= i < |es| ==> es[i] == Commit
    ensures w' == w.(row := SettledChange(w.p, w.row), pc := InBoot(BootRecovery))
  {
    var w1 := RecordAtBoot(w);
    CommitRun(w, w1);
    es, w' := [Commit], w1;
    if Interrupted(w.row) {
      var w2 := ConcludeAtBoot(w1);
      CommitRun(w1, w2);
      es, w' := [Commit] + [Commit], w2;
      RunsJoin(w, [Commit], w1, [Commit], w2);
      if w2.pc.InRestore? {
        var w3 := Finish(w2, RecoveryResult, Some(w2.pc.restore.reason));
        CommitRun(w2, w3);
        es, w' := [Commit] + [Commit] + [Commit], w3;
        RunsJoin(w, [Commit] + [Commit], w2, [Commit], w3);
      }
    }
  }

  lemma RecoveryPassCompletes(w: World) returns (es: seq<Event>, w': World)
    requires w.pc == InBoot(BootRecovery) && w.flow == ChangePass
    ensures Runs(w, es, w') && forall i :: 0 <= i < |es| ==> es[i] == Commit
    ensures w' == w.(row := SettledAttempts(w.row), pc := Idle, flow := NoFlow)
  {
    if LastOpen(w.row.attempts) {
      var w1 := WithAttempt(w, InterruptedAttempt(LastAttempt(w.row)));
      CommitRun(w, w1);
      w' := w1.(pc := Idle, flow := NoFlow);
      CommitRun(w1, w');
      es := [Commit] + [Commit];
      RunsJoin(w, [Commit], w1, [Commit], w');
    } else {
      w' := w.(pc := Idle, flow := NoFlow);
      CommitRun(w, w');
      es := [Commit];
    }
  }
}
