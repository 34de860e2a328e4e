/** Concrete runs: where a promise one might expect fails, the run that breaks it. */
module WritePathRuns {
  import opened Outcomes
  import opened WritePath
  import opened WritePathInvariant
  import opened WritePathFrames

  const MTU_CHANGE := Preview(FieldChange, 1500, 9000, false, false)

  const NEW_HOST := Host(1500, 1500, false, map[], [], [], NotAsked, NotHeld, false, false)

  /** A change that has crossed the boundary and sent its apply. */
  const IN_FLIGHT := Change(FieldChange, 1500, 9000, true, None, NoEffect, NO_READING,
                            false, None, None, NO_READING, InFlight, None)

  const APPLY_SENT := Host(1500, 1500, false, map[ApplyWrite := Request(1500, 9000, Queued)],
                           [ApplyWrite], [], NotAsked, NotHeld, false, false)

  const AWAITING :=
    World(MTU_CHANGE,
          Row(Applying, NoEffect, Consumed, Some(Checkpoint(1500, 9000)), None, Some(IN_FLIGHT), true, false, 0, []),
          InApply(Awaiting), ApplyFlow, false, APPLY_SENT)

  lemma CommitReaches(w: World, w': World)
    requires Reachable(w) && CommitNext(w) == Some(w')
    ensures Reachable(w')
  {
    hide Reachable, CommitNext;
    ReachableStep(w, Commit, w');
  }

  lemma BeginReaches(w: World, call: Call, w': World)
    requires Reachable(w) && BeginNext(w, call) == Some(w')
    ensures Reachable(w')
  {
    hide Reachable, BeginNext;
    ReachableStep(w, Begin(call), w');
  }

  const NEW_RUN := World(MTU_CHANGE, NEW_ROW, Idle, NoFlow, false, NEW_HOST)

  const CONFIRMED :=
    World(MTU_CHANGE,
          NEW_ROW.(state := AwaitingConfirmation, confirmation := Granted, locked := true),
          InApply(Waiting), ApplyFlow, false, NEW_HOST)

  lemma RunIsConfirmed()
    ensures Reachable(CONFIRMED)
  {
    hide Reachable;
    NewRunIsReachable();
    var w1 := NEW_RUN.(row := NEW_ROW.(confirmation := Granted));
    BeginReaches(NEW_RUN, ConfirmCall, w1);
    var w2 := w1.(row := w1.row.(locked := true), pc := InApply(Acquired), flow := ApplyFlow);
    BeginReaches(w1, ApplyCall, w2);
    CommitReaches(w2, CONFIRMED);
  }

  lemma NewRunIsReachable()
    ensures Reachable(NEW_RUN)
  {
    assert Init(NEW_RUN) && Runs(NEW_RUN, [], NEW_RUN);
  }

  lemma ApplyIsSent()
    ensures Reachable(AWAITING)
  {
    hide Reachable;
    RunIsConfirmed();
    var w3 := CONFIRMED;
    var w4 := w3.(row := w3.row.(confirmation := Consumed, state := Arming), pc := InApply(Authorised));
    CommitReaches(w3, w4);
    var w5 := w4.(row := w4.row.(checkpoint := Some(Checkpoint(1500, 9000))), pc := InApply(Prepared));
    CommitReaches(w4, w5);
    var w6 := w5.(row := w5.row.(state := Applying, change := Some(NewChange(MTU_CHANGE))), pc := InApply(Crossed));
    CommitReaches(w5, w6);
    var w7 := w6.(row := w6.row.(change := Some(IN_FLIGHT)), pc := InApply(Marked));
    CommitReaches(w6, w7);
    assert map[][ApplyWrite := Request(1500, 9000, Queued)] == map[ApplyWrite := Request(1500, 9000, Queued)];
    assert [] + [ApplyWrite] == [ApplyWrite];
    ReachableStep(w7, Send, AWAITING);
  }

  // ----- a rollback that did not last

  const UNANSWERED := IN_FLIGHT.(outcome := Some(WriteUnknown), effect := UnknownEffect, rollbackRequired := true)

  const RESTORING :=
    World(MTU_CHANGE,
          AWAITING.row.(state := RollingBack, effect := UnknownEffect, change := Some(UNANSWERED)),
          InRestore(RestoreReady(1500)), ApplyFlow, false, APPLY_SENT)

  /** Nobody answered for the apply, and the link still reads what it read before it. */
  lemma RestorationBegins()
    ensures Reachable(RESTORING)
  {
    hide Reachable;
    ApplyIsSent();
    var report := Report(WriteUnknown, false);
    var w1 := AWAITING.(pc := InApply(Reported(report)));
    ReachableStep(AWAITING, Answer(report), w1);
    var w2 := RecordOutcome(w1, report);
    CommitReaches(w1, w2);
    var w3 := Unproven(w2, None);
    CommitReaches(w2, w3);
    ReachableStep(w3, Observe(Saw(1500)), RESTORING);
  }

  const REFUSED :=
    Host(1500, 1500, false,
         map[ApplyWrite := Request(1500, 9000, Queued), RollbackWrite := Request(1500, 1500, Closed(false))],
         [ApplyWrite, RollbackWrite], [], NotAsked, NotHeld, false, false)

  const REREADING :=
    World(MTU_CHANGE,
          RESTORING.row.(state := RollbackVerifying,
                         change := Some(UNANSWERED.(rollbackAttempt := Some(RollbackWrite),
                                                    rollbackOutcome := Some(NotWritten)))),
          InRestore(Rereading(Report(NotWritten, true))), ApplyFlow, false, REFUSED)

  /** There is nothing to restore, so the helper refuses to write. */
  lemma RestorationIsRefused()
    ensures Reachable(REREADING)
  {
    hide Reachable;
    RestorationBegins();
    var w1 := MarkRestore(RESTORING, 1500);
    CommitReaches(RESTORING, w1);
    var w2 := w1.(host := Dispatch(w1.host, RollbackWrite, 1500, 1500), pc := InRestore(RestoreAwaiting));
    ReachableStep(w1, Send, w2);
    var w3 := w2.(host := REFUSED);
    assert [ApplyWrite] + [RollbackWrite] == [ApplyWrite, RollbackWrite];
    assert w2.host.wire[RollbackWrite := Request(1500, 1500, Closed(false))] == REFUSED.wire;
    ReachableStep(w2, HostStep(RejectRequest(RollbackWrite)), w3);
    RefusalIsRecorded(w3);
  }

  lemma RefusalIsRecorded(w3: World)
    requires Reachable(w3) && w3.host == REFUSED && w3.p == MTU_CHANGE && !w3.quiet && w3.flow == ApplyFlow
    requires w3.pc == InRestore(RestoreAwaiting) && w3.row == MarkRestore(RESTORING, 1500).row
    ensures Reachable(REREADING)
  {
    hide Reachable;
    var report := Report(NotWritten, true);
    var w4 := w3.(pc := InRestore(RestoreReported(report)));
    ReachableStep(w3, Answer(report), w4);
    var w5 := RecordRestore(w4, report);
    CommitReaches(w4, w5);
    CommitReaches(w5, REREADING);
  }

  const ROLLED_BACK :=
    REREADING.(row := REREADING.row.(state := RolledBack,
                                     change := Some(REREADING.row.change.value.(
                                                      rollbackVerification := Reading(Verified, Some(1500)),
                                                      result := RolledBackResult)),
                                     locked := false),
               pc := Idle, flow := NoFlow)

  /** A Run that ended ROLLED_BACK on a true reading, with its apply still inside the helper:
      the change may yet land. */
  lemma RolledBackUnderAStraggler()
    ensures Reachable(ROLLED_BACK)
    ensures ROLLED_BACK.row.state == RolledBack && !ROLLED_BACK.host.foreign
    ensures ROLLED_BACK.host.link == ROLLED_BACK.p.before && Open(ROLLED_BACK.host, ApplyWrite)
  {
    hide Reachable;
    RestorationIsRefused();
    var report, reading := Report(NotWritten, true), Reading(Verified, Some(1500));
    var w1 := REREADING.(pc := InRestore(Reread(report, reading)));
    ReachableStep(REREADING, Observe(Saw(1500)), w1);
    var w2 := RecordReread(w1, report, reading);
    CommitReaches(w1, w2);
    CommitReaches(w2, ROLLED_BACK);
  }

  // ----- a guard that fired too early

  const GUARDED_CHANGE := Preview(FieldChange, 1500, 9000, true, true)

  const NEW_GUARD := GuardRow(false, false, None, false, None)

  const GUARD_ARMED := NEW_HOST.(armWire := Landed(true), held := Armed)

  const GUARD_TAKEN :=
    World(GUARDED_CHANGE,
          Row(Arming, NoEffect, Consumed, Some(Checkpoint(1500, 9000)), Some(NEW_GUARD), None, true, false, 0, []),
          InApply(GuardTaken), ApplyFlow, false, GUARD_ARMED)

  lemma GuardedRunPrepares() returns (w: World)
    ensures Reachable(w)
    ensures w == World(GUARDED_CHANGE,
                       NEW_ROW.(state := Arming, confirmation := Consumed, locked := true,
                                checkpoint := Some(Checkpoint(1500, 9000))),
                       InApply(Prepared), ApplyFlow, false, NEW_HOST)
  {
    var w0 := World(GUARDED_CHANGE, NEW_ROW, Idle, NoFlow, false, NEW_HOST);
    assert Init(w0) && Runs(w0, [], w0);
    hide Reachable;
    var w1 := w0.(row := NEW_ROW.(confirmation := Granted));
    BeginReaches(w0, ConfirmCall, w1);
    var w2 := w1.(row := w1.row.(locked := true), pc := InApply(Acquired), flow := ApplyFlow);
    BeginReaches(w1, ApplyCall, w2);
    var w3 := Await(w2);
    CommitReaches(w2, w3);
    var w4 := ConsumeConfirmation(w3);
    CommitReaches(w3, w4);
    w := WriteCheckpoint(w4);
    CommitReaches(w4, w);
  }

  /** The agent has taken the guard on; the backend has yet to write that down. */
  lemma GuardIsTaken()
    ensures Reachable(GUARD_TAKEN)
  {
    hide Reachable;
    var w0 := GuardedRunPrepares();
    var w1 := RequestGuard(w0);
    CommitReaches(w0, w1);
    var w2 := w1.(host := NEW_HOST.(armWire := OnItsWay), pc := InApply(ArmAwaiting));
    ReachableStep(w1, Send, w2);
    var w3 := w2.(host := GUARD_ARMED);
    ReachableStep(w2, HostStep(ArmLands(true)), w3);
    ReachableStep(w3, ArmAnswer(true), GUARD_TAKEN);
  }

  /** The window lapses before anything was written: the reversal finds nothing to revert. */
  const GUARD_SPENT :=
    NEW_HOST.(armWire := Landed(true), held := Fired(Report(NotWritten, true)),
              wire := map[ReversalWrite := Request(9000, 1500, Closed(false))], sends := [ReversalWrite])

  lemma GuardFiresEarly()
    ensures Reachable(GUARD_TAKEN.(host := GUARD_SPENT))
  {
    hide Reachable;
    GuardIsTaken();
    var fired := Dispatch(GUARD_ARMED, ReversalWrite, 9000, 1500).(held := Firing);
    var w1 := GUARD_TAKEN.(host := fired);
    ReachableStep(GUARD_TAKEN, HostStep(Deadline(true)), w1);
    var w2 := GUARD_TAKEN.(host := GUARD_SPENT.(held := Firing));
    assert [] + [ReversalWrite] == [ReversalWrite];
    assert fired.wire[ReversalWrite := Request(9000, 1500, Closed(false))] == GUARD_SPENT.wire;
    ReachableStep(w1, HostStep(RejectRequest(ReversalWrite)), w2);
    ReachableStep(w2, HostStep(FireReturns(Report(NotWritten, true))), GUARD_TAKEN.(host := GUARD_SPENT));
  }

  /** The backend died before it wrote down that the guard was armed. */
  const UNRECORDED_FIRING := GUARD_TAKEN.(pc := Down, flow := NoFlow, host := GUARD_SPENT)

  lemma DiedBeforeNotingTheGuard()
    ensures Reachable(UNRECORDED_FIRING)
  {
    hide Reachable;
    GuardFiresEarly();
    ReachableStep(GUARD_TAKEN.(host := GUARD_SPENT), Die(true), UNRECORDED_FIRING);
  }

  // ----- a guarded change nobody guards

  const NOTED := NEW_GUARD.(armed := true)

  lemma UnguardedApplyGoesOut() returns (w: World)
    ensures Reachable(w)
    ensures w == World(GUARDED_CHANGE,
                       GUARD_TAKEN.row.(guard := Some(NOTED), state := Applying, change := Some(IN_FLIGHT)),
                       InApply(Awaiting), ApplyFlow, false,
                       Dispatch(GUARD_SPENT, ApplyWrite, 1500, 9000))
  {
    hide Reachable;
    GuardFiresEarly();
    var w0 := GUARD_TAKEN.(host := GUARD_SPENT);
    var w1 := w0.(row := w0.row.(guard := Some(NOTED)), pc := InApply(GuardReady));
    CommitReaches(w0, w1);
    var w2 := Cross(w1);
    CommitReaches(w1, w2);
    var w3 := MarkDispatch(w2);
    CommitReaches(w2, w3);
    w := w3.(host := Dispatch(GUARD_SPENT, ApplyWrite, 1500, 9000), pc := InApply(Awaiting));
    ReachableStep(w3, Send, w);
  }

  const APPLIED := IN_FLIGHT.(outcome := Some(Written), effect := WrittenEffect)

  lemma AppliedIsRecorded(w1: World)
    requires Reachable(w1) && ApplyWrite in w1.host.wire && w1.host.wire[ApplyWrite].stage == Closed(true)
    requires w1.p == GUARDED_CHANGE && w1.pc == InApply(Awaiting) && w1.flow == ApplyFlow
    requires w1.row.change == Some(IN_FLIGHT)
    ensures var report := Report(Written, true);
            Reachable(AfterOutcome(RecordOutcome(w1.(pc := InApply(Reported(report))), report), report))
  {
    hide Reachable;
    var report := Report(Written, true);
    var w2 := w1.(pc := InApply(Reported(report)));
    ReachableStep(w1, Answer(report), w2);
    var w3 := RecordOutcome(w2, report);
    CommitReaches(w2, w3);
    CommitReaches(w3, AfterOutcome(w3, report));
  }

  lemma UnguardedApplyLands() returns (w: World)
    ensures Reachable(w)
    ensures w.pc == InApply(Observing) && w.flow == ApplyFlow && w.p == GUARDED_CHANGE && !w.quiet
    ensures w.row == GUARD_TAKEN.row.(guard := Some(NOTED), state := RunState.Verifying, effect := WrittenEffect,
                                      change := Some(APPLIED))
    ensures w.host.link == 9000 && !w.host.foreign && w.host.held == Fired(Report(NotWritten, true))
    ensures ReversalWrite in w.host.wire && w.host.wire[ReversalWrite].stage == Closed(false)
  {
    hide Reachable;
    var w0 := UnguardedApplyGoesOut();
    var h := w0.host;
    var matched := h.(wire := h.wire[ApplyWrite := Request(1500, 9000, Matched)]);
    ReachableStep(w0, HostStep(MatchRequest(ApplyWrite)), w0.(host := matched));
    var accepted := matched.(wire := matched.wire[ApplyWrite := Request(1500, 9000, Closed(true))],
                             accepted := matched.accepted + [ApplyWrite], link := 9000);
    var w1 := w0.(host := accepted);
    ReachableStep(w0.(host := matched), HostStep(AcceptRequest(ApplyWrite)), w1);
    AppliedIsRecorded(w1);
    var report := Report(Written, true);
    w := AfterOutcome(RecordOutcome(w1.(pc := InApply(Reported(report))), report), report);
  }

  /** A guarded change in force, waiting to be kept, whose guard has already spent itself: its
      window opened when it was armed, not when the change was written. */
  lemma GuardedWithoutAGuard() returns (w: World)
    ensures Reachable(w) && w.row.state == Guarded && w.pc == Idle && w.p.guarded
    ensures w.host.link == w.p.desired && !w.host.foreign
    ensures w.host.held != Armed && !Open(w.host, ReversalWrite)
  {
    hide Reachable;
    var w0 := UnguardedApplyLands();
    var reading := Reading(Verified, Some(9000));
    var w1 := w0.(pc := InApply(Observed(reading)));
    ReachableStep(w0, Observe(Saw(9000)), w1);
    var w2 := RecordReading(w1, reading);
    CommitReaches(w1, w2);
    w := w2.(row := w2.row.(state := Guarded), pc := Idle, flow := NoFlow);
    CommitReaches(w2, w);
  }

  // ----- a guarded change that is kept

  const GUARDED_APPLY := Dispatch(GUARD_ARMED, ApplyWrite, 1500, 9000)

  const GUARDED_LANDED :=
    GUARD_ARMED.(wire := map[ApplyWrite := Request(1500, 9000, Closed(true))], sends := [ApplyWrite],
                 accepted := [ApplyWrite], link := 9000)

  lemma GuardedApplyGoesOut() returns (w: World)
    ensures Reachable(w)
    ensures w == World(GUARDED_CHANGE,
                       GUARD_TAKEN.row.(guard := Some(NOTED), state := Applying, change := Some(IN_FLIGHT)),
                       InApply(Awaiting), ApplyFlow, false, GUARDED_APPLY)
  {
    hide Reachable;
    GuardIsTaken();
    var w1 := GUARD_TAKEN.(row := GUARD_TAKEN.row.(guard := Some(NOTED)), pc := InApply(GuardReady));
    CommitReaches(GUARD_TAKEN, w1);
    var w2 := Cross(w1);
    CommitReaches(w1, w2);
    var w3 := MarkDispatch(w2);
    CommitReaches(w2, w3);
    w := w3.(host := GUARDED_APPLY, pc := InApply(Awaiting));
    ReachableStep(w3, Send, w);
  }

  lemma GuardedApplyLands() returns (w: World)
    ensures Reachable(w)
    ensures w == World(GUARDED_CHANGE,
                       GUARD_TAKEN.row.(guard := Some(NOTED), state := RunState.Verifying, effect := WrittenEffect,
                                        change := Some(APPLIED)),
                       InApply(Observing), ApplyFlow, false, GUARDED_LANDED)
  {
    hide Reachable;
    var w0 := GuardedApplyGoesOut();
    var matched := GUARDED_APPLY.(wire := GUARDED_APPLY.wire[ApplyWrite := Request(1500, 9000, Matched)]);
    ReachableStep(w0, HostStep(MatchRequest(ApplyWrite)), w0.(host := matched));
    assert matched.wire[ApplyWrite := Request(1500, 9000, Closed(true))] == GUARDED_LANDED.wire;
    assert [] + [ApplyWrite] == [ApplyWrite];
    var w1 := w0.(host := GUARDED_LANDED);
    ReachableStep(w0.(host := matched), HostStep(AcceptRequest(ApplyWrite)), w1);
    AppliedIsRecorded(w1);
    var report := Report(Written, true);
    w := AfterOutcome(RecordOutcome(w1.(pc := InApply(Reported(report))), report), report);
  }

  /** A guarded change in force, its guard armed, waiting to be kept. */
  const GUARDED :=
    World(GUARDED_CHANGE,
          GUARD_TAKEN.row.(guard := Some(NOTED), state := RunState.Guarded, effect := WrittenEffect,
                           change := Some(APPLIED.(verification := Reading(Verified, Some(9000))))),
          Idle, NoFlow, false, GUARDED_LANDED)

  lemma GuardedIsReachable()
    ensures Reachable(GUARDED)
  {
    hide Reachable;
    var w0 := GuardedApplyLands();
    var reading := Reading(Verified, Some(9000));
    var w1 := w0.(pc := InApply(Observed(reading)));
    ReachableStep(w0, Observe(Saw(9000)), w1);
    var w2 := RecordReading(w1, reading);
    CommitReaches(w1, w2);
    CommitReaches(w2, GUARDED);
  }

  const RELEASED := GuardReport(PhaseDisarmed, None)

  /** The backend died between the proof of connection and the ending. */
  const STRANDED :=
    GUARDED.(row := GUARDED.row.(guard := Some(NOTED.(kept := true, settled := Some(PhaseDisarmed)))),
             host := GUARDED_LANDED.(held := Disarmed))

  lemma DiedWhileKeeping()
    ensures Reachable(STRANDED)
  {
    hide Reachable;
    GuardedIsReachable();
    var w1 := GUARDED.(pc := InKeep(KeepAsking(true)), flow := KeepFlow);
    BeginReaches(GUARDED, KeepCall(true), w1);
    var w2 := w1.(host := GUARDED_LANDED.(held := Disarmed), pc := InKeep(KeepProven));
    ReachableStep(w1, GuardAnswer(RELEASED, false), w2);
    var w3 := RecordProof(w2);
    CommitReaches(w2, w3);
    ReachableStep(w3, Die(false), STRANDED);
  }

  // ----- a guarded change that is kept while its reversal is inside the helper

  const RAISED :=
    GUARDED.(host := Dispatch(GUARDED_LANDED, ReversalWrite, 9000, 1500).(held := Raised, raised := true))

  /** The window lapses, the reversal leaves, and the agent's own write raises. */
  lemma GuardRaises()
    ensures Reachable(RAISED)
  {
    hide Reachable;
    GuardedIsReachable();
    var fired := Dispatch(GUARDED_LANDED, ReversalWrite, 9000, 1500).(held := Firing);
    ReachableStep(GUARDED, HostStep(Deadline(true)), GUARDED.(host := fired));
    ReachableStep(GUARDED.(host := fired), HostStep(FireRaises), RAISED);
  }

  /** The operator keeps the change: the guard is disarmed over its write, answers that it is
      disarmed, and the Run has succeeded. */
  const KEPT_OVER :=
    RAISED.(row := RAISED.row.(guard := Some(NOTED.(kept := true, settled := Some(PhaseDisarmed))), state := Succeeded,
                               change := Some(RAISED.row.change.value.(result := SucceededResult)), locked := false),
            host := RAISED.host.(held := DisarmedOver))

  lemma RaisedGuardIsKept()
    ensures Reachable(KEPT_OVER)
  {
    hide Reachable;
    GuardRaises();
    var w1 := RAISED.(pc := InKeep(KeepAsking(true)), flow := KeepFlow);
    BeginReaches(RAISED, KeepCall(true), w1);
    var w2 := w1.(host := KEPT_OVER.host, pc := InKeep(KeepProven));
    ReachableStep(w1, GuardAnswer(RELEASED, false), w2);
    var w3 := RecordProof(w2);
    CommitReaches(w2, w3);
    CommitReaches(w3, KEPT_OVER);
  }

  /** And then the reversal lands. */
  const KEPT_AND_REVERTED :=
    KEPT_OVER.(host := KEPT_OVER.host.(
                 wire := KEPT_OVER.host.wire[ReversalWrite := Request(9000, 1500, Closed(true))],
                 accepted := [ApplyWrite, ReversalWrite], link := 1500))

  lemma KeptChangeIsReverted()
    ensures Reachable(KEPT_AND_REVERTED)
  {
    hide Reachable;
    RaisedGuardIsKept();
    var h := KEPT_OVER.host;
    var matched := h.(wire := h.wire[ReversalWrite := Request(9000, 1500, Matched)]);
    ReachableStep(KEPT_OVER, HostStep(MatchRequest(ReversalWrite)), KEPT_OVER.(host := matched));
    assert matched.wire[ReversalWrite := Request(9000, 1500, Closed(true))] == KEPT_AND_REVERTED.host.wire;
    assert [ApplyWrite] + [ReversalWrite] == [ApplyWrite, ReversalWrite];
    ReachableStep(KEPT_OVER.(host := matched), HostStep(AcceptRequest(ReversalWrite)), KEPT_AND_REVERTED);
  }

  // ----- a guarded change that is held

  const NOBODY := GuardReport(PhaseUnreachable, None)

  /** The agent could not be asked, so the change is admitted. */
  const HELD :=
    GUARDED.(row := GUARDED.row.(guard := Some(NOTED.(settled := Some(PhaseUnreachable))), state := RecoveryRequired,
                                 change := Some(GUARDED.row.change.value.(
                                                  result := RecoveryResult, reason := Some(GuardUnreachable)))))

  lemma GuardedChangeIsHeld()
    ensures Reachable(HELD)
  {
    hide Reachable;
    GuardedIsReachable();
    var w1 := GUARDED.(pc := InKeep(KeepAsking(true)), flow := KeepFlow);
    BeginReaches(GUARDED, KeepCall(true), w1);
    var w2 := w1.(pc := InKeep(Lapsed(NOBODY)));
    assert w1.host.(releaseWire := false) == w1.host;
    ReachableStep(w1, GuardAnswer(NOBODY, false), w2);
    LapseIsAdmitted(w2);
  }

  lemma LapseIsAdmitted(w2: World)
    requires Reachable(w2) && w2 == GUARDED.(pc := InKeep(Lapsed(NOBODY)), flow := KeepFlow)
    ensures Reachable(HELD)
  {
    hide Reachable;
    var w3 := SettleLapse(w2, NOBODY);
    CommitReaches(w2, w3);
    var w4 := ConcludeLapse(w3, NOBODY);
    CommitReaches(w3, w4);
    CommitReaches(w4, HELD);
  }

  /** A retry whose thread went away after its first reading leaves its attempt in flight. */
  const ABANDONED :=
    HELD.(row := HELD.row.(attempts := [NewAttempt(RetryAttempt).(evidence := Reading(ObservationUnavailable, None))]))

  lemma RetryIsAbandoned()
    ensures Reachable(ABANDONED)
  {
    hide Reachable;
    GuardedChangeIsHeld();
    var reading := Reading(ObservationUnavailable, None);
    var w1 := HELD.(row := HELD.row.(attempts := [] + [NewAttempt(RetryAttempt)]), pc := InRecover(RetryOpened),
                    flow := RecoveryFlow);
    BeginReaches(HELD, RetryCall, w1);
    var w2 := w1.(pc := InRecover(RetryRead(reading)));
    ReachableStep(w1, Observe(NotTaken(false)), w2);
    var w3 := RecordEvidence(w2, reading);
    CommitReaches(w2, w3);
    assert w3.row.attempts == ABANDONED.row.attempts;
    ReachableStep(w3, Die(false), ABANDONED);
  }
}
