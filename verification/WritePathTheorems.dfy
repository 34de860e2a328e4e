/** What the write path promises, over every run of every party: no ending says more than the
    host can bear out, nothing is dispatched without its authority, and where the promise
    fails, exactly when. */
module WritePathTheorems {
  import opened Outcomes
  import opened WritePath
  import opened WritePathInvariant
  import opened WritePathFrames
  import opened WritePathRows
  import opened WritePathHost
  import opened WritePathLimits
  import opened WritePathLink
  import opened WritePathRuns

  // ------------------------------------------------------------------------------- endings

  lemma EndedRows(w: World)
    requires RowsHold(w)
    ensures w.row.state == Succeeded ==>
              && w.row.change.Some?
              && w.row.change.value.outcome == Some(Written)
              && w.row.change.value.verification.outcome == Verified
              && (w.p.kind == FieldChange ==> w.row.change.value.verification.value == Some(w.p.desired))
              && (w.p.guarded ==> w.row.guard.Some? && w.row.guard.value.kept
                                  && w.row.guard.value.settled == Some(PhaseDisarmed))
    ensures w.row.state == Failed && w.row.change.Some? ==> w.row.change.value.outcome == Some(NotWritten)
    ensures w.row.state == RolledBack ==>
              && w.p.kind == FieldChange
              && w.row.change.Some?
              && w.row.change.value.rollbackVerification == Reading(Verified, Some(w.p.before))
              && w.row.attempts == []
    ensures w.row.state == Cancelled ==> w.row.change.None? && w.row.guard.None? && w.row.attempts == []
    ensures w.row.change.None? ==> w.row.attempts == []
    ensures w.row.state == Failed ==> w.row.attempts == []
  {
  }

  /** The words a Run ends on are true of the host. Succeeded: the kernel accepted exactly one
      apply, a fresh reading proved the value, and a guard stood down on proof of connection, can
      never act any more and, unless its own write raised, never did. Failed: the kernel accepted
      no apply. Rolled back: a reading proved the value from the checkpoint. Cancelled: nothing was
      ever dispatched. */
  lemma TruthfulEndings(w: World)
    requires Reachable(w)
    ensures w.row.state == Succeeded ==>
              && multiset(w.host.accepted)[ApplyWrite] == 1
              && w.row.change.Some? && w.row.change.value.verification.outcome == Verified
              && (w.p.guarded ==> w.row.guard.Some? && w.row.guard.value.kept && StoodDown(w.host))
    ensures w.row.state == Failed ==> multiset(w.host.accepted)[ApplyWrite] == 0
    ensures w.row.state == RolledBack ==>
              w.row.change.Some? && w.row.change.value.rollbackVerification == Reading(Verified, Some(w.p.before))
    ensures w.row.state == Cancelled ==> w.row.change.None? && w.host.sends == []
  {
    ReachableIsTrue(w);
    EndedRows(w);
    WasAnnounced(w, ApplyWrite);
    hide RowsLie;
    if w.row.state == Cancelled { CancelledSentNothing(w); }
  }

  lemma CancelledSentNothing(w: World)
    requires InOrder(w) && w.row.state == Cancelled
    ensures w.host.sends == []
  {
    EndedRows(w);
    hide RowsLie;
    forall a ensures a !in multiset(w.host.sends) { WasAnnounced(w, a); }
    FirstIsCounted(w.host.sends);
  }

  lemma FirstIsCounted(sends: seq<Attempt>)
    ensures sends != [] ==> sends[0] in multiset(sends)
  {
  }

  lemma EndedPcs(w: World)
    requires RowsHold(w) && w.row.change.Some? && w.row.change.value.result != InFlight
    ensures w.pc.InApply? ==> w.pc.apply.Ended? || w.pc.apply.Releasing?
    ensures !w.pc.InRestore? && !w.pc.InKeep?
    ensures w.pc.InBoot? ==> !w.pc.boot.BootConclude?
    ensures !Appliable(w.row.state) && w.row.state != Guarded
  {
  }

  predicate SameEnding(w: World, w': World) {
    w'.row.change == w.row.change && w'.row.state == w.row.state && w'.row.effect == w.row.effect
  }

  lemma RecoveryKeepsEnding(w: World, pc: RecoverPc, w': World)
    requires RecoverCommit(w, pc) == Some(w')
    ensures SameEnding(w, w')
  {
    hide HoldOpen;
  }

  lemma BootKeepsEnding(w: World, pc: BootPc, w': World)
    requires BootCommit(w, pc) == Some(w') && !pc.BootConclude?
    requires w.row.change.Some? && w.row.change.value.result != InFlight
    ensures SameEnding(w, w')
  {
  }

  lemma ReleaseKeepsEnding(w: World, report: GuardReport)
    requires w.row.guard.Some?
    ensures SameEnding(w, ReleaseGuard(w, report))
  {
  }

  lemma CommitAfterEnding(w: World, w': World)
    requires RowsHold(w) && CommitNext(w) == Some(w')
    requires w.row.change.Some? && w.row.change.value.result != InFlight
    ensures SameEnding(w, w')
  {
    EndedPcs(w);
    hide RowsLie, BootCommit, RecoverCommit, RestoreCommit, KeepCommit, ReleaseGuard, SameEnding;
    match w.pc
    case InApply(pc) => ReleaseKeepsEnding(w, pc.guardReport);
    case InBoot(pc) => BootKeepsEnding(w, pc, w');
    case InRecover(pc) => RecoveryKeepsEnding(w, pc, w');
  }

  lemma EndingSurvivesStep(w: World, e: Event, w': World)
    requires RowsHold(w) && Next(w, e) == Some(w')
    requires w.row.change.Some? && w.row.change.value.result != InFlight
    ensures SameEnding(w, w')
  {
    EndedPcs(w);
    if !MovesRows(e) { OnlyTransactionsMoveRows(w, e, w'); }
    hide RowsLie, BeginNext, CommitNext, RefuseNext, ObserveNext, SendNext, AnswerNext, ArmAnswerNext,
      GuardAnswerNext, ReplanNext, DieNext, HostMoveNext;
    match e
    case Begin(call) => BeginFrame(w, call, w');
    case Commit => CommitAfterEnding(w, w');
    case Refuse => RefuseFrame(w, w');
    case _ =>
  }

  /** An ended Run stays ended: whatever happens afterwards, what it recorded is never
      rewritten. */
  lemma {:induction false} EndingsAreFinal(w: World, es: seq<Event>, w': World)
    requires Reachable(w) && Runs(w, es, w')
    requires w.row.change.Some? && w.row.change.value.result != InFlight
    ensures SameEnding(w, w')
  {
    ReachableIsTrue(w);
    EndingsStay(w, es, w');
  }

  lemma {:induction false} EndingsStay(w: World, es: seq<Event>, w': World)
    requires InOrder(w) && Runs(w, es, w')
    requires w.row.change.Some? && w.row.change.value.result != InFlight
    ensures SameEnding(w, w')
    decreases |es|
  {
    hide RowsLie, HostLies, Next;
    if es != [] {
      var next := Next(w, es[0]).value;
      NextKeepsHost(w, es[0], next);
      EndingSurvivesStep(w, es[0], next);
      EndingsStay(next, es[1..], w');
    }
  }

  // ------------------------------------------------------------------- where the link is left

  /** A change that succeeded has nobody left to revert it: its guard, if it had one, holds no
      reversal any more, and one is on the wire only if the guard's own write raised. */
  lemma SucceededGuard(w: World)
    requires InOrder(w) && w.row.state == Succeeded
    ensures ReversalWrite in w.host.wire ==> w.host.raised && w.p.guarded
    ensures w.host.held !in {Armed, Firing} && w.host.armWire != OnItsWay
  {
    EndedRows(w);
    UnguardedRows(w);
    if !w.p.guarded { NotAskedMeansNothing(w); }
    hide RowsLie, WireOk, LogsOk, ChangeTrue, AttemptsTrue, PcTrue;
  }

  lemma NotAskedMeansNothing(w: World)
    requires HostHolds(w) && w.row.guard.None?
    ensures w.host.armWire == NotAsked && w.host.held == NotHeld && ReversalWrite !in w.host.wire
  {
    hide WireOk, LogsOk, ChangeTrue, AttemptsTrue, PcTrue;
  }

  lemma UnguardedRows(w: World)
    requires RowsHold(w)
    ensures !w.p.guarded ==> w.row.guard.None?
  {
  }

  /** What a succeeded change leaves. A reversal of it was sent only where the guard's own write
      raised; while nobody else writes the link it holds the desired value exactly when the apply
      was the last write accepted, which without such a raise it always was. */
  lemma SucceededLeavesDesiredIff(w: World)
    requires Reachable(w) && w.row.state == Succeeded
    ensures ReversalWrite in w.host.sends ==> w.host.raised
    ensures OnlyOurs(w) ==>
              w.host.accepted != []
              && (w.host.link == w.p.desired <==> w.host.accepted[|w.host.accepted| - 1] == ApplyWrite)
    ensures OnlyOurs(w) && !w.host.raised ==> w.host.link == w.p.desired
  {
    ReachableIsTrue(w);
    ReachableLink(w);
    SucceededGuard(w);
    SucceededRows(w);
    ProvenMeansClosed(w);
    assert ReversalWrite in w.host.sends ==> ReversalWrite in w.host.wire by { SentIsThere(w, ReversalWrite); }
    if OnlyOurs(w) {
      ReachableLastWrite(w);
      ApplyWasAccepted(w);
      LastOfSucceeded(w);
      hide RowsLie, HostLies, LinkLies, Reachable;
    }
    hide RowsLie, HostLies, Reachable;
  }

  lemma SentIsThere(w: World, a: Attempt)
    requires HostHolds(w)
    ensures a in w.host.sends ==> a in w.host.wire
  {
    if a in w.host.sends { assert a in multiset(w.host.sends); }
    hide RequestOk, ChangeTrue, AttemptsTrue, AgentOk, PcTrue;
  }

  lemma ApplyWasAccepted(w: World)
    requires HostHolds(w) && Accepted(w.host, ApplyWrite)
    ensures w.host.accepted != []
  {
    assert multiset(w.host.accepted)[ApplyWrite] == 1 by {
      hide RequestOk, ChangeTrue, AttemptsTrue, AgentOk, PcTrue;
    }
  }

  /** Of a succeeded change only the apply and a reversal were ever accepted. */
  lemma LastOfSucceeded(w: World)
    requires HostHolds(w) && w.row.attempts == [] && RollbackWrite !in w.host.wire && w.host.accepted != []
    ensures w.host.accepted[|w.host.accepted| - 1] in {ApplyWrite, ReversalWrite}
  {
    var last := w.host.accepted[|w.host.accepted| - 1];
    AcceptedIsOnTheWire(w, last);
    NoRetryWasAccepted(w);
    hide HostLies;
  }

  lemma SucceededRows(w: World)
    requires RowsHold(w) && w.row.state == Succeeded
    ensures w.row.change.Some? && w.row.change.value.result == SucceededResult
    ensures w.row.attempts == [] && SawDesired(w)
    ensures !w.pc.InRecover? && !w.pc.InRestore?
    ensures w.pc.InApply? ==> w.pc.apply.Ended? || w.pc.apply.Releasing?
    ensures w.p.kind == FieldChange ==> w.p.before != w.p.desired
    ensures w.p.guarded ==> w.p.kind == FieldChange
  {
  }

  /** A change that failed left the link where it was planned from. */
  lemma FailedLeavesBefore(w: World)
    requires Reachable(w) && w.row.state == Failed && OnlyOurs(w) && w.host.start == w.p.before
    ensures w.host.link == w.p.before
  {
    ReachableIsTrue(w);
    ReachableLink(w);
    EndedRows(w);
    WasAnnounced(w, ApplyWrite);
    hide RowsLie;
  }

  /** A rolled-back change leaves the checkpoint's value when its apply had closed before the
      proving reading, and it always had when the apply was known to have written. */
  lemma RolledBackLeavesBefore(w: World)
    requires Reachable(w) && w.row.state == RolledBack && OnlyOurs(w)
    ensures w.row.change.Some? && w.row.change.value.outcome == Some(Written) ==> w.quiet
    ensures w.quiet ==> w.host.link == w.p.before
  {
    ReachableIsTrue(w);
    ReachableLink(w);
    EndedRows(w);
    hide RowsLie, HostLies;
  }

  /** And exactly when it does, whatever was on record: no write was accepted at all, or the last
      one accepted was not the apply. */
  lemma RolledBackLeavesBeforeIff(w: World)
    requires Reachable(w) && w.row.state == RolledBack && OnlyOurs(w)
    ensures w.host.link == w.p.before
            <==> w.host.accepted == [] || w.host.accepted[|w.host.accepted| - 1] != ApplyWrite
  {
    ReachableIsTrue(w);
    ReachableLastWrite(w);
    RolledBackRows(w);
    RolledBackSawBefore(w);
    NoRetryWasAccepted(w);
    hide RowsLie, HostLies, Reachable, SawBefore;
  }

  lemma RolledBackSawBefore(w: World)
    requires RowsHold(w) && w.row.state == RolledBack
    ensures SawBefore(w)
  {
    EndedRows(w);
  }

  lemma NoRetryWasAccepted(w: World)
    requires HostHolds(w) && w.row.attempts == []
    ensures forall i :: 0 <= i < |w.host.accepted| ==> !w.host.accepted[i].RetryWrite?
  {
    forall i | 0 <= i < |w.host.accepted| ensures !w.host.accepted[i].RetryWrite? {
      AcceptedIsOnTheWire(w, w.host.accepted[i]);
      if w.host.accepted[i].RetryWrite? { RetriesNeedAttempts(w, w.host.accepted[i]); }
    }
  }

  lemma AcceptedIsOnTheWire(w: World, a: Attempt)
    requires HostHolds(w) && a in w.host.accepted
    ensures a in w.host.wire
  {
    assert a in multiset(w.host.accepted);
    hide RequestOk, ChangeTrue, AttemptsTrue, AgentOk, PcTrue;
  }

  // ----- a straggling apply

  lemma RolledBackRows(w: World)
    requires RowsHold(w) && w.row.state == RolledBack
    ensures w.row.change.Some? && w.row.change.value.result == RolledBackResult
    ensures w.row.attempts == []
    ensures !w.pc.InRecover? && !w.pc.InRestore?
    ensures w.pc.InApply? ==> w.pc.apply.Ended? || w.pc.apply.Releasing?
    ensures w.p.kind == FieldChange && w.p.before != w.p.desired
    ensures w.row.change.value.before == w.p.before && w.row.change.value.desired == w.p.desired
  {
  }

  lemma NothingMoreToSend(w: World, w': World)
    requires RowsHold(w) && w.row.state == RolledBack
    ensures SendNext(w) != Some(w')
  {
    RolledBackRows(w);
    hide RowsLie;
  }

  /** Nothing that could still write anything but the before-value is on the wire. */
  predicate RestorationHolds(w: World) {
    w.row.state == RolledBack && w.host.link == w.p.before && !Open(w.host, ApplyWrite)
  }

  lemma HostMoveKeepsRestoration(w: World, m: HostMove, w': World)
    requires InOrder(w) && HostMoveNext(w, m) == Some(w')
    requires RestorationHolds(w) && !w'.host.foreign
    ensures RestorationHolds(w')
  {
    RolledBackRows(w);
    if m.AcceptRequest? {
      AcceptedValue(w, m.attempt);
      if m.attempt.RetryWrite? { RetriesNeedAttempts(w, m.attempt); }
    }
    if m.Deadline? { DeadlineIsNew(w); }
    hide RowsLie, HostLies;
  }

  lemma StepKeepsRestoration(w: World, e: Event, w': World)
    requires InOrder(w) && Next(w, e) == Some(w')
    requires RestorationHolds(w) && !w'.host.foreign
    ensures RestorationHolds(w')
  {
    hide RowsLie, HostLies, HostMoveNext;
    if e.HostStep? {
      HostMoveKeepsRestoration(w, e.move, w');
    } else {
      RolledBackRows(w);
      NothingMoreToSend(w, w');
      hide BeginNext, CommitNext, RefuseNext, ObserveNext, SendNext, AnswerNext, ArmAnswerNext, GuardAnswerNext,
        ReplanNext, DieNext;
      PlanIsFixed(w, e, w');
      OnlyTheHostMovesTheLink(w, e, w');
      EndingSurvivesStep(w, e, w');
    }
  }

  lemma ForeignIsForever(w: World, e: Event, w': World)
    requires Next(w, e) == Some(w') && w.host.foreign
    ensures w'.host.foreign
  {
    hide BeginNext, CommitNext, RefuseNext, ObserveNext, AnswerNext, ArmAnswerNext, GuardAnswerNext, ReplanNext;
    match e
    case Begin(call) => BeginFrame(w, call, w');
    case Commit => CommitFrame(w, w');
    case Refuse => RefuseFrame(w, w');
    case Observe(o) => ObserveFrame(w, o, w');
    case Answer(report) => AnswerFrame(w, report, w');
    case ArmAnswer(armed) => ArmAnswerFrame(w, armed, w');
    case GuardAnswer(report, late) => GuardAnswerFrame(w, report, late, w');
    case Replan(kind, desired) => ReplanFrame(w, kind, desired, w');
    case _ =>
  }

  lemma {:induction false} ForeignStays(w: World, es: seq<Event>, w': World)
    requires Runs(w, es, w') && w.host.foreign
    ensures w'.host.foreign
    decreases |es|
  {
    hide Next;
    if es != [] {
      ForeignIsForever(w, es[0], Next(w, es[0]).value);
      ForeignStays(Next(w, es[0]).value, es[1..], w');
    }
  }

  lemma {:induction false} RunKeepsRestoration(w: World, es: seq<Event>, w': World)
    requires InOrder(w) && Runs(w, es, w')
    requires RestorationHolds(w) && !w'.host.foreign
    ensures RestorationHolds(w')
    decreases |es|
  {
    hide Astray, Next, RestorationHolds;
    if es != [] {
      var next := Next(w, es[0]).value;
      if next.host.foreign { ForeignStays(next, es[1..], w'); }
      NextKeepsHost(w, es[0], next);
      StepKeepsRestoration(w, es[0], next);
      RunKeepsRestoration(next, es[1..], w');
    }
  }

  /** The last thing a straggling apply does: it passes its comparison, because the value it
      expects has just been put back, and is accepted. */
  function StragglerLands(w: World): (es: seq<Event>)
    requires Open(w.host, ApplyWrite)
  {
    if w.host.wire[ApplyWrite].stage == Queued then
      [HostStep(MatchRequest(ApplyWrite)), HostStep(AcceptRequest(ApplyWrite))]
    else [HostStep(AcceptRequest(ApplyWrite))]
  }

  lemma StragglerUndoesTheRestoration(w: World) returns (w': World)
    requires InOrder(w) && OnlyOurs(w) && w.row.state == RolledBack && w.host.link == w.p.before
    requires Open(w.host, ApplyWrite)
    ensures Runs(w, StragglerLands(w), w')
    ensures w'.host.link == w.p.desired && !w'.host.foreign && w'.p == w.p && w'.row == w.row
  {
    RolledBackRows(w);
    WasAnnounced(w, ApplyWrite);
    hide RowsLie, HostLies;
    if w.host.wire[ApplyWrite].stage == Queued {
      var next := Next(w, HostStep(MatchRequest(ApplyWrite))).value;
      w' := Next(next, HostStep(AcceptRequest(ApplyWrite))).value;
      OneStep(w, HostStep(MatchRequest(ApplyWrite)), next);
      OneStep(next, HostStep(AcceptRequest(ApplyWrite)), w');
      RunsJoin(w, [HostStep(MatchRequest(ApplyWrite))], next, [HostStep(AcceptRequest(ApplyWrite))], w');
      assert StragglerLands(w) == [HostStep(MatchRequest(ApplyWrite))] + [HostStep(AcceptRequest(ApplyWrite))];
    } else {
      w' := Next(w, HostStep(AcceptRequest(ApplyWrite))).value;
      OneStep(w, HostStep(AcceptRequest(ApplyWrite)), w');
    }
  }

  /** No continuation in which nobody else writes ever finds the link anywhere else. */
  ghost predicate RestoredForGood(w: World) {
    forall es, w' :: Runs(w, es, w') && !w'.host.foreign ==> w'.host.link == w.p.before
  }

  /** A rolled-back change has restored its link for good, through anything but somebody else's
      write, exactly when the link is restored now and the apply request is no longer open
      inside the helper. */
  lemma RestorationIsFinalIff(w: World)
    requires Reachable(w) && w.row.state == RolledBack && OnlyOurs(w)
    ensures RestoredForGood(w) <==> w.host.link == w.p.before && !Open(w.host, ApplyWrite)
  {
    ReachableIsTrue(w);
    hide Astray, Next;
    if w.host.link != w.p.before {
      assert Runs(w, [], w);
    } else if Open(w.host, ApplyWrite) {
      var w' := StragglerUndoesTheRestoration(w);
      assert Runs(w, StragglerLands(w), w') && !w'.host.foreign && w'.host.link != w.p.before by {
        hide *;
        PlanOfRolledBack(w);
      }
    } else {
      forall es, w' | Runs(w, es, w') && !w'.host.foreign ensures w'.host.link == w.p.before {
        RunKeepsRestoration(w, es, w');
        RunKeepsPlan(w, es, w');
      }
    }
  }

  /** So the record alone is enough where it says the apply had written: such a rollback is
      final. One that followed an unknown outcome is not final by what is on record. */
  lemma KnownWritesAreRestoredForGood(w: World)
    requires Reachable(w) && w.row.state == RolledBack && OnlyOurs(w)
    requires w.row.change.Some? && w.row.change.value.outcome == Some(Written)
    ensures RestoredForGood(w)
  {
    RolledBackLeavesBefore(w);
    ReachableLink(w);
    RestorationIsFinalIff(w);
    hide RestoredForGood, Reachable;
  }

  // ----- a success that does not last

  predicate SuccessHolds(w: World) {
    && w.row.state == Succeeded && w.p.kind == FieldChange
    && w.host.link == w.p.desired && !Open(w.host, ReversalWrite)
  }

  lemma HostMoveKeepsSuccess(w: World, m: HostMove, w': World)
    requires InOrder(w) && HostMoveNext(w, m) == Some(w')
    requires SuccessHolds(w) && !w'.host.foreign
    ensures SuccessHolds(w')
  {
    SucceededRows(w);
    SucceededGuard(w);
    ProvenMeansClosed(w);
    if m.AcceptRequest? {
      AcceptedValue(w, m.attempt);
      if m.attempt.RetryWrite? { RetriesNeedAttempts(w, m.attempt); }
    }
    hide RowsLie, HostLies;
  }

  lemma StepKeepsSuccess(w: World, e: Event, w': World)
    requires InOrder(w) && Next(w, e) == Some(w')
    requires SuccessHolds(w) && !w'.host.foreign
    ensures SuccessHolds(w')
  {
    hide RowsLie, HostLies, HostMoveNext;
    if e.HostStep? {
      HostMoveKeepsSuccess(w, e.move, w');
    } else {
      SucceededRows(w);
      if e.Send? { SendFrame(w, w'); }
      hide BeginNext, CommitNext, RefuseNext, ObserveNext, AnswerNext, ArmAnswerNext, GuardAnswerNext,
        ReplanNext, DieNext;
      PlanIsFixed(w, e, w');
      OnlyTheHostMovesTheLink(w, e, w');
      EndingSurvivesStep(w, e, w');
    }
  }

  lemma {:induction false} RunKeepsSuccess(w: World, es: seq<Event>, w': World)
    requires InOrder(w) && Runs(w, es, w')
    requires SuccessHolds(w) && !w'.host.foreign
    ensures SuccessHolds(w')
    decreases |es|
  {
    hide Astray, Next, SuccessHolds;
    if es != [] {
      var next := Next(w, es[0]).value;
      if next.host.foreign { ForeignStays(next, es[1..], w'); }
      NextKeepsHost(w, es[0], next);
      StepKeepsSuccess(w, es[0], next);
      RunKeepsSuccess(next, es[1..], w');
    }
  }

  /** No continuation in which nobody else writes ever finds the link anywhere else. */
  ghost predicate KeptForGood(w: World) {
    forall es, w' :: Runs(w, es, w') && !w'.host.foreign ==> w'.host.link == w.p.desired
  }

  /** A succeeded change keeps its value for good exactly when the link holds it now and no reversal
      is open inside the helper; and without a raise in the guard's own write it always does. */
  lemma SuccessIsFinalIff(w: World)
    requires Reachable(w) && w.row.state == Succeeded && OnlyOurs(w)
    ensures KeptForGood(w) <==> w.host.link == w.p.desired && !Open(w.host, ReversalWrite)
    ensures !w.host.raised ==> KeptForGood(w)
  {
    SucceededLeavesDesiredIff(w);
    ReachableIsTrue(w);
    SucceededGuard(w);
    SucceededRows(w);
    hide Astray, Next, Reachable;
    if w.host.link != w.p.desired {
      assert Runs(w, [], w);
    } else if Open(w.host, ReversalWrite) {
      WasAnnounced(w, ReversalWrite);
      var es, w' := OpenReversalReverts(w);
      assert Runs(w, es, w') && !w'.host.foreign && w'.host.link != w.p.desired;
    } else {
      forall es, w' | Runs(w, es, w') && !w'.host.foreign ensures w'.host.link == w.p.desired {
        RunKeepsSuccess(w, es, w');
        RunKeepsPlan(w, es, w');
      }
    }
  }

  /** And where it raised, one need not: kept on proof of connection, SUCCEEDED, and reverted. */
  lemma KeptAndRevertedExists()
    ensures Reachable(KEPT_OVER) && KEPT_OVER.row.state == Succeeded && OnlyOurs(KEPT_OVER)
    ensures KEPT_OVER.row.guard.Some? && KEPT_OVER.row.guard.value.kept && KEPT_OVER.host.link == KEPT_OVER.p.desired
    ensures !KeptForGood(KEPT_OVER)
    ensures Reachable(KEPT_AND_REVERTED) && KEPT_AND_REVERTED.row == KEPT_OVER.row
    ensures OnlyOurs(KEPT_AND_REVERTED) && KEPT_AND_REVERTED.host.link == KEPT_AND_REVERTED.p.before
  {
    RaisedGuardIsKept();
    KeptChangeIsReverted();
    hide Reachable, KeptForGood;
    SuccessIsFinalIff(KEPT_OVER);
  }

  lemma PlanOfRolledBack(w: World)
    requires InOrder(w) && w.row.state == RolledBack
    ensures w.p.before != w.p.desired
  {
    RolledBackRows(w);
  }
}
