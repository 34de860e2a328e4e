/** Where the write path stops short of what one might expect of it, and exactly when: a
    start-up that cannot get past an unrecorded firing, a guarded Run nothing can end, and a
    guarded change nobody guards. */
module WritePathLimits {
  import opened Outcomes
  import opened WritePath
  import opened WritePathInvariant
  import opened WritePathFrames
  import opened WritePathRows
  import opened WritePathHost
  import opened WritePathLink
  import opened WritePathRuns

  // ------------------------------------------------------------- start-up and the guard's CHECK

  lemma SettlingRows(w: World, report: GuardReport)
    requires RowsHold(w) && w.pc == InBoot(BootGuardSettle(report))
    ensures SettlingReport(report) && w.flow == GuardPass
    ensures GuardWaiting(w.row) && w.row.guard == Some(GuardRow(w.row.guard.value.armed, false, None, false, None))
  {
  }

  lemma SettlementAllowedIff(g: GuardRow, report: GuardReport)
    requires g == GuardRow(g.armed, false, None, false, None) && SettlingReport(report)
    ensures GuardUpdateAllowed(Some(g), SettleGuard(g, report)) <==> report.phase != PhaseFired || g.armed
  {
  }

  /** The guard pass of a start-up ends the process exactly when the agent says the guard
      fired and the row never recorded that it was armed: the store's CHECK refuses the row. */
  lemma StartUpStopsIff(w: World, report: GuardReport)
    requires Reachable(w) && w.pc == InBoot(BootGuardSettle(report)) && w.row.guard.Some?
    ensures SettleAtBoot(w, report).pc == Down <==> report.phase == PhaseFired && !w.row.guard.value.armed
    ensures SettleAtBoot(w, report).pc == Down ==> SettleAtBoot(w, report).row == w.row
  {
    ReachableIsTrue(w);
    SettlingRows(w, report);
    SettlementAllowedIff(w.row.guard.value, report);
    hide Astray, Reachable, GuardUpdateAllowed, SettleGuard;
  }

  /** The agent remembers a firing the backend never wrote down. */
  predicate Unrecorded(w: World) {
    && w.row.guard == Some(GuardRow(false, false, None, false, None))
    && w.row.state != Guarded
    && w.host.held.Fired? && w.host.armWire == Landed(true)
    && match w.pc
       case Down => true
       case InBoot(BootGuards) => w.flow == GuardPass
       case InBoot(BootGuardSettle(report)) =>
         w.flow == GuardPass && report.phase == PhaseFired && SettlingReport(report)
       case _ => false
  }

  /** The agent keeps its memory and answers when asked. */
  predicate AgentAnswers(e: Event) {
    && e != HostStep(AgentForgets)
    && (e.GuardAnswer? ==> e.guardReport != GuardReport(PhaseUnreachable, None))
  }

  lemma UnrecordedHostMove(w: World, m: HostMove, w': World)
    requires Unrecorded(w) && HostMoveNext(w, m) == Some(w') && m != AgentForgets
    ensures w'.host.held == w.host.held && w'.host.armWire == w.host.armWire && w' == w.(host := w'.host)
  {
  }

  lemma UnrecordedCommit(w: World, w': World)
    requires Unrecorded(w) && CommitNext(w) == Some(w')
    ensures w' == w.(pc := Down, flow := NoFlow)
  {
    if w.pc.InBoot? && w.pc.boot.BootGuardSettle? {
      SettlementAllowedIff(w.row.guard.value, w.pc.boot.guardReport);
    }
    hide SettleGuard, GuardUpdateAllowed;
  }

  lemma UnrecordedAnswer(w: World, report: GuardReport, late: bool, w': World)
    requires Unrecorded(w) && GuardAnswerNext(w, report, late) == Some(w')
    requires report != GuardReport(PhaseUnreachable, None)
    ensures w.pc == InBoot(BootGuards) && w' == w.(pc := InBoot(BootGuardSettle(report)))
    ensures report.phase == PhaseFired && SettlingReport(report)
  {
  }

  lemma StepStaysUnrecorded(w: World, e: Event, w': World)
    requires Unrecorded(w) && Next(w, e) == Some(w') && AgentAnswers(e)
    ensures Unrecorded(w') && w'.row == w.row
  {
    hide CommitNext, GuardAnswerNext, HostMoveNext;
    match e
    case Commit => UnrecordedCommit(w, w');
    case GuardAnswer(report, late) => UnrecordedAnswer(w, report, late, w');
    case HostStep(m) => UnrecordedHostMove(w, m, w');
    case _ =>
  }

  /** Once that has happened, every start-up that hears from the agent fails again and changes
      nothing: the backend never gets as far as serving a request. */
  lemma {:induction false} StartUpKeepsFailing(w: World, es: seq<Event>, w': World)
    requires Unrecorded(w) && Runs(w, es, w')
    requires forall i :: 0 <= i < |es| ==> AgentAnswers(es[i])
    ensures w'.row == w.row && (w'.pc == Down || w'.pc.InBoot?)
    decreases |es|
  {
    hide Next;
    if es != [] {
      assert AgentAnswers(es[0]);
      StepStaysUnrecorded(w, es[0], Next(w, es[0]).value);
      StartUpKeepsFailing(Next(w, es[0]).value, es[1..], w');
    }
  }

  /** A crash between the agent's answer and the row that notes it, and a window that lapses
      before the restart, is enough. */
  lemma UnrecordedFiringIsReachable()
    ensures Reachable(UNRECORDED_FIRING) && Unrecorded(UNRECORDED_FIRING)
  {
    DiedBeforeNotingTheGuard();
  }

  // ------------------------------------------------------------------- a Run nothing can end

  predicate Stranded(w: World) {
    && w.row.state == Guarded
    && w.row.guard.Some? && w.row.guard.value.settled.Some?
    && w.row.change.Some? && w.row.change.value.result == InFlight
    && (w.pc in {Down, Idle} || (w.pc.InBoot? && w.pc.boot in {BootGuards, BootChange, BootRecovery}))
  }

  lemma StrandedStep(w: World, e: Event, w': World)
    requires Stranded(w) && Next(w, e) == Some(w')
    ensures Stranded(w') && w'.row.change == w.row.change
  {
    if !MovesRows(e) { OnlyTransactionsMoveRows(w, e, w'); }
    hide HostMoveNext, HonestReport, ReadBack, Faithful, HoldOpen;
    match e
    case HostStep(m) => HostFrame(w, m, w');
    case _ =>
  }

  lemma HostFrame(w: World, m: HostMove, w': World)
    requires HostMoveNext(w, m) == Some(w')
    ensures w' == w.(host := w'.host)
  {
    hide HostNext;
  }

  lemma {:induction false} StrandedForever(w: World, es: seq<Event>, w': World)
    requires Stranded(w) && Runs(w, es, w')
    ensures Stranded(w') && w'.row.change == w.row.change
    decreases |es|
  {
    hide Next;
    if es != [] {
      StrandedStep(w, es[0], Next(w, es[0]).value);
      StrandedForever(Next(w, es[0]).value, es[1..], w');
    }
  }

  ghost predicate CanEnd(w: World) {
    exists es, w' :: Runs(w, es, w') && w'.row.state != Guarded
  }

  const GONE := GuardReport(PhaseUnreachable, None)

  /** The guard is asked about and cannot be reached. */
  lemma AskingFindsNobody(w: World) returns (w': World)
    requires w.row.state == Guarded && w.pc == Idle && GuardWaiting(w.row)
    ensures Runs(w, [Begin(KeepCall(true)), GuardAnswer(GONE, false)], w')
    ensures w' == w.(pc := InKeep(Lapsed(GONE)), flow := KeepFlow)
  {
    var w1 := w.(pc := InKeep(KeepAsking(true)), flow := KeepFlow);
    OneStep(w, Begin(KeepCall(true)), w1);
    w' := w1.(pc := InKeep(Lapsed(GONE)));
    assert w1.host.(releaseWire := w1.host.releaseWire || false) == w1.host;
    OneStep(w1, GuardAnswer(GONE, false), w');
    hide Next;
    RunsJoin(w, [Begin(KeepCall(true))], w1, [GuardAnswer(GONE, false)], w');
    assert [Begin(KeepCall(true))] + [GuardAnswer(GONE, false)] == [Begin(KeepCall(true)), GuardAnswer(GONE, false)];
  }

  /** The lapse is settled and admitted. */
  lemma NobodyEndsIt(w: World) returns (w': World)
    requires w.row.guard == Some(GuardRow(true, false, None, false, None)) && w.row.change.Some?
    requires w.pc == InKeep(Lapsed(GONE))
    ensures Runs(w, [Commit, Commit, Commit], w') && w'.row.state == RecoveryRequired
  {
    var w1 := SettleLapse(w, GONE);
    CommitRun(w, w1);
    var w2 := ConcludeLapse(w1, GONE);
    CommitRun(w1, w2);
    w' := Finish(w2, RecoveryResult, Some(GuardUnreachable));
    CommitRun(w2, w');
    hide Next, Finish, SettleLapse, ConcludeLapse, CommitNext;
    RunsJoin(w, [Commit], w1, [Commit], w2);
    RunsJoin(w, [Commit] + [Commit], w2, [Commit], w');
    assert [Commit] + [Commit] + [Commit] == [Commit, Commit, Commit];
  }

  /** Asking to keep the change, and finding the agent unreachable, always ends it. */
  lemma UnreachableEnds(w: World) returns (es: seq<Event>, w': World)
    requires RowsHold(w) && w.row.state == Guarded && w.pc == Idle && GuardWaiting(w.row)
    ensures Runs(w, es, w') && w'.row.state != Guarded
  {
    GuardedRows(w);
    hide RowsLie, Next;
    var w1 := AskingFindsNobody(w);
    w' := NobodyEndsIt(w1);
    es := [Begin(KeepCall(true)), GuardAnswer(GONE, false)] + [Commit, Commit, Commit];
    RunsJoin(w, [Begin(KeepCall(true)), GuardAnswer(GONE, false)], w1, [Commit, Commit, Commit], w');
  }

  lemma GuardedRows(w: World)
    requires RowsHold(w) && w.row.state == Guarded
    ensures w.row.change.Some? && w.row.change.value.result == InFlight
    ensures w.row.guard.Some? && w.row.guard.value.armed
    ensures GuardWaiting(w.row) ==> w.row.guard == Some(GuardRow(true, false, None, false, None))
    ensures w.row.attempts == []
    ensures w.row.change.value.outcome == Some(Written)
    ensures w.row.change.value.verification.outcome == Verified
    ensures w.row.checkpoint == Some(Checkpoint(w.p.before, w.p.desired))
    ensures w.p.kind == FieldChange && w.p.guarded && w.p.before != w.p.desired
  {
  }

  /** A guarded Run nobody is serving can still end exactly when its guard row is unsettled.
      Keeping a change settles the guard and finishes the Run in two transactions; a crash
      between them leaves a Run that no request and no restart will ever end. */
  lemma GuardedCanEndIff(w: World)
    requires Reachable(w) && w.row.state == Guarded && w.pc == Idle
    ensures CanEnd(w) <==> GuardWaiting(w.row)
  {
    ReachableIsTrue(w);
    GuardedRows(w);
    hide RowsLie, HostLies, Reachable, Next;
    if GuardWaiting(w.row) {
      var es, w' := UnreachableEnds(w);
    } else {
      assert Stranded(w);
      forall es, w' | Runs(w, es, w') ensures w'.row.state == Guarded {
        StrandedForever(w, es, w');
      }
    }
  }

  /** And there is such a Run: kept, its guard settled, and the backend dead before the ending. */
  lemma StrandedRunExists()
    ensures Reachable(STRANDED) && Stranded(STRANDED) && STRANDED.pc == Idle && !CanEnd(STRANDED)
  {
    DiedWhileKeeping();
    hide Reachable, CanEnd;
    GuardedCanEndIff(STRANDED);
  }

  /** A guarded change can be held, with nobody's authority to retry it in sight. */
  lemma HeldGuardedChangeExists()
    ensures Reachable(HELD) && HELD.p.guarded && HELD.p.typed && HoldOpen(HELD.row)
    ensures BeginNext(HELD, GrantCall).None? && BeginNext(HELD, RetryCall).Some?
  {
    GuardedChangeIsHeld();
    hide Reachable;
  }

  // ------------------------------------------------------------- an attempt nobody comes back to

  /** An attempt was opened, and whoever opened it is gone. */
  predicate LeftOpen(w: World) {
    && LastOpen(w.row.attempts)
    && (w.pc in {Down, Idle})
    && w.row.change.Some? && w.row.change.value.result == RecoveryResult
    && w.row.state == RecoveryRequired
  }

  lemma LeftOpenStep(w: World, e: Event, w': World)
    requires LeftOpen(w) && Next(w, e) == Some(w') && e != Begin(StartupCall)
    ensures LeftOpen(w') && w'.row == w.row
  {
    assert AttemptOpen(w.row) by { assert w.row.attempts[|w.row.attempts| - 1].ending == StillOpen; }
    hide HostMoveNext, HonestReport, ReadBack, Faithful, AttemptOpen;
    match e
    case HostStep(m) => HostFrame(w, m, w');
    case _ =>
  }

  /** Until the backend is started again such an attempt closes the hold to everybody: no retry,
      no grant, and no resolution either. */
  lemma {:induction false} LeftOpenClosesTheHold(w: World, es: seq<Event>, w': World)
    requires LeftOpen(w) && Runs(w, es, w') && Begin(StartupCall) !in es
    ensures w'.row == w.row && !HoldOpen(w'.row)
    decreases |es|
  {
    hide Next;
    if es != [] {
      LeftOpenStep(w, es[0], Next(w, es[0]).value);
      LeftOpenClosesTheHold(Next(w, es[0]).value, es[1..], w');
    } else {
      assert w.row.attempts[|w.row.attempts| - 1].ending == StillOpen;
    }
  }

  /** And a retry that finds its target gone after the first reading leaves one behind. */
  lemma AbandonedRetryExists()
    ensures Reachable(ABANDONED) && LeftOpen(ABANDONED)
  {
    RetryIsAbandoned();
    hide Reachable;
  }

  // ---------------------------------------------------------------- a change nobody guards

  predicate OwnMove(e: Event) {
    e.HostStep? && !e.move.ForeignWrite?
  }

  /** The guard can still put the old value back, without the backend and without anyone
      else. */
  ghost predicate GuardCanRevert(w: World) {
    exists es, w' ::
      && (forall i :: 0 <= i < |es| ==> OwnMove(es[i]))
      && Runs(w, es, w')
      && w'.host.link == w.p.before
  }

  predicate Unprotected(w: World) {
    && w.host.link == w.p.desired
    && w.host.held != Armed
    && !Open(w.host, ReversalWrite)
    && !Open(w.host, ApplyWrite)
    && RollbackWrite !in w.host.wire
    && w.row.attempts == []
    && w.host.armWire != OnItsWay
    && w.p.kind == FieldChange
  }

  lemma UnprotectedMove(w: World, m: HostMove, w': World)
    requires HostHolds(w) && Unprotected(w) && HostMoveNext(w, m) == Some(w') && !m.ForeignWrite?
    ensures Unprotected(w') && w'.p == w.p
  {
    match m {
      case MatchRequest(a) => WasAnnounced(w, a);
      case RejectRequest(a) => WasAnnounced(w, a);
      case AcceptRequest(a) => WasAnnounced(w, a);
      case _ =>
    }
    hide HostLies;
  }

  lemma {:induction false} UnprotectedForever(w: World, es: seq<Event>, w': World)
    requires InOrder(w) && Unprotected(w) && Runs(w, es, w')
    requires forall i :: 0 <= i < |es| ==> OwnMove(es[i])
    ensures w'.host.link == w.p.desired
    decreases |es|
  {
    hide RowsLie, HostLies, HostMoveNext;
    if es != [] {
      assert OwnMove(es[0]);
      var next := Next(w, es[0]).value;
      NextKeepsHost(w, es[0], next);
      UnprotectedMove(w, es[0].move, next);
      UnprotectedForever(next, es[1..], w');
    }
  }

  lemma HostRun(w: World, m: HostMove, w': World)
    requires HostMoveNext(w, m) == Some(w')
    ensures Runs(w, [HostStep(m)], w')
  {
    hide HostMoveNext;
    OneStep(w, HostStep(m), w');
  }

  lemma MatchedReversalReverts(w: World) returns (es: seq<Event>, w': World)
    requires w.p.kind == FieldChange && ReversalWrite in w.host.wire
    requires w.host.wire[ReversalWrite] == Request(w.p.desired, w.p.before, Matched)
    ensures Runs(w, es, w') && (forall i :: 0 <= i < |es| ==> OwnMove(es[i])) && w'.host.link == w.p.before
    ensures w'.host.foreign == w.host.foreign
  {
    es := [HostStep(AcceptRequest(ReversalWrite))];
    w' := HostMoveNext(w, AcceptRequest(ReversalWrite)).value;
    HostRun(w, AcceptRequest(ReversalWrite), w');
  }

  lemma QueuedReversalReverts(w: World) returns (es: seq<Event>, w': World)
    requires w.p.kind == FieldChange && w.p.before != w.p.desired && ReversalWrite in w.host.wire
    requires w.host.wire[ReversalWrite] == Request(w.p.desired, w.p.before, Queued) && w.host.link == w.p.desired
    ensures Runs(w, es, w') && (forall i :: 0 <= i < |es| ==> OwnMove(es[i])) && w'.host.link == w.p.before
    ensures w'.host.foreign == w.host.foreign
  {
    var w1 := HostMoveNext(w, MatchRequest(ReversalWrite)).value;
    HostRun(w, MatchRequest(ReversalWrite), w1);
    var es1;
    es1, w' := MatchedReversalReverts(w1);
    es := [HostStep(MatchRequest(ReversalWrite))] + es1;
    hide Next;
    RunsJoin(w, [HostStep(MatchRequest(ReversalWrite))], w1, es1, w');
  }

  /** Whatever put it there, a reversal inside the helper undoes the change it finds. */
  lemma OpenReversalReverts(w: World) returns (es: seq<Event>, w': World)
    requires w.p.kind == FieldChange && w.p.before != w.p.desired && Open(w.host, ReversalWrite)
    requires w.host.wire[ReversalWrite].expected == w.p.desired && w.host.wire[ReversalWrite].desired == w.p.before
    requires w.host.link == w.p.desired
    ensures Runs(w, es, w') && w'.host.link == w.p.before && w'.host.foreign == w.host.foreign
  {
    hide Runs;
    if w.host.wire[ReversalWrite].stage == Queued { es, w' := QueuedReversalReverts(w); }
    else { es, w' := MatchedReversalReverts(w); }
  }

  lemma ArmedGuardReverts(w: World) returns (es: seq<Event>, w': World)
    requires w.p.kind == FieldChange && w.p.before != w.p.desired && w.host.held == Armed
    requires w.row.checkpoint == Some(Checkpoint(w.p.before, w.p.desired)) && w.host.link == w.p.desired
    ensures Runs(w, es, w') && (forall i :: 0 <= i < |es| ==> OwnMove(es[i])) && w'.host.link == w.p.before
  {
    var w1 := HostMoveNext(w, Deadline(true)).value;
    HostRun(w, Deadline(true), w1);
    var es1;
    es1, w' := QueuedReversalReverts(w1);
    es := [HostStep(Deadline(true))] + es1;
    hide Next;
    RunsJoin(w, [HostStep(Deadline(true))], w1, es1, w');
  }

  lemma GuardedHost(w: World)
    requires InOrder(w) && w.row.state == Guarded
    ensures Accepted(w.host, ApplyWrite) && RollbackWrite !in w.host.wire
    ensures w.host.armWire == Landed(true)
    ensures ReversalWrite in w.host.wire ==>
              w.host.wire[ReversalWrite] == Request(w.p.desired, w.p.before, w.host.wire[ReversalWrite].stage)
  {
    GuardedRows(w);
    ProvenMeansClosed(w);
    WasAnnounced(w, ReversalWrite);
    hide RowsLie, WireOk, LogsOk, ChangeTrue, AttemptsTrue, PcTrue;
  }

  /** A guarded change in force is still protected exactly when the agent holds its guard or a
      reversal is on its way. That the Run is guarded does not by itself make it so. */
  lemma ProtectedIff(w: World)
    requires Reachable(w) && w.row.state == Guarded && w.host.link == w.p.desired
    ensures GuardCanRevert(w) <==> w.host.held == Armed || Open(w.host, ReversalWrite)
  {
    ReachableIsTrue(w);
    GuardedRows(w);
    GuardedHost(w);
    hide RowsLie, HostLies, Reachable, Next;
    if w.host.held == Armed {
      var es, w' := ArmedGuardReverts(w);
    } else if Open(w.host, ReversalWrite) {
      if w.host.wire[ReversalWrite].stage == Queued { var es, w' := QueuedReversalReverts(w); }
      else { var es, w' := MatchedReversalReverts(w); }
    } else {
      forall es, w' | Runs(w, es, w') && (forall i :: 0 <= i < |es| ==> OwnMove(es[i]))
        ensures w'.host.link != w.p.before
      {
        UnprotectedForever(w, es, w');
      }
    }
  }

  /** And there is such a Run. */
  lemma UnprotectedRunExists() returns (w: World)
    ensures Reachable(w) && w.row.state == Guarded && !GuardCanRevert(w)
  {
    w := GuardedWithoutAGuard();
    hide Reachable, GuardCanRevert;
    ProtectedIff(w);
  }
}
