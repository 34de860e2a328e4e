/** Conservation of authority: every write that leaves was authorised by a durable row first,
    each authority is spent once, and a recovery hold is given up once, on evidence. */
module WritePathAuthority {
  import opened Outcomes
  import opened WritePath
  import opened WritePathInvariant
  import opened WritePathFrames
  import opened WritePathRows
  import opened WritePathHost

  /** Every outcome on record, wherever it is on record, is sound for the number of writes the
      kernel accepted for the attempt it speaks of; and no attempt is sent, or accepted, twice. */
  lemma RecordedOutcomesAreSound(w: World)
    requires Reachable(w)
    ensures forall a :: multiset(w.host.accepted)[a] <= multiset(w.host.sends)[a] <= 1
    ensures w.row.change.Some? && w.row.change.value.outcome.Some? ==>
              Sound(w.row.change.value.outcome.value, multiset(w.host.accepted)[ApplyWrite])
    ensures w.row.change.Some? && w.row.change.value.rollbackOutcome.Some? ==>
              && w.row.change.value.rollbackAttempt.Some?
              && Sound(w.row.change.value.rollbackOutcome.value,
                       multiset(w.host.accepted)[w.row.change.value.rollbackAttempt.value])
    ensures w.row.guard.Some? && w.row.guard.value.reversal.Some? ==>
              Sound(w.row.guard.value.reversal.value, multiset(w.host.accepted)[ReversalWrite])
    ensures forall n :: 0 <= n < |w.row.attempts| && w.row.attempts[n].outcome.Some? ==>
              Sound(w.row.attempts[n].outcome.value, multiset(w.host.accepted)[RetryWrite(n)])
  {
    ReachableIsTrue(w);
    RollbackRows(w);
    hide Reachable, RowsLie, WireOk, PcTrue;
    forall n | 0 <= n < |w.row.attempts| && w.row.attempts[n].outcome.Some?
      ensures Sound(w.row.attempts[n].outcome.value, multiset(w.host.accepted)[RetryWrite(n)])
    {
      assert Claimed(w.host, RetryWrite(n), w.row.attempts[n].outcome);
    }
  }

  lemma RollbackRows(w: World)
    requires RowsHold(w)
    ensures w.row.change.Some? && w.row.change.value.rollbackOutcome.Some? ==>
              w.row.change.value.rollbackAttempt.Some?
  {
  }

  lemma BoundaryRows(w: World)
    requires RowsHold(w) && w.row.change.Some?
    ensures w.row.confirmation == Consumed
    ensures w.p.kind == FieldChange ==> w.row.checkpoint == Some(Checkpoint(w.p.before, w.p.desired))
    ensures w.p.guarded ==> w.row.guard.Some? && w.row.guard.value.armed
    ensures w.row.spent == Dispatched(w.row.attempts)
    ensures w.p.typed ==> w.row.spent == 0
    ensures w.row.change.value.before == w.p.before && w.row.change.value.desired == w.p.desired
  {
  }

  lemma SentIsOnTheWire(w: World, a: Attempt)
    requires HostHolds(w)
    ensures a in w.host.sends <==> a in w.host.wire
    ensures a in w.host.wire ==> RequestOk(w.p, w.row, w.host, a)
  {
    assert a in w.host.sends <==> multiset(w.host.sends)[a] > 0;
    hide AgentOk, ChangeTrue, AttemptsTrue, PcTrue;
  }

  /** The apply leaves only after its confirmation was consumed, its checkpoint was durable and
      any guard it needs was armed at the agent; it carries exactly the plan. */
  lemma ApplyIsAuthorised(w: World)
    requires Reachable(w) && ApplyWrite in w.host.sends
    ensures w.row.change.Some? && w.row.change.value.dispatchBegan
    ensures w.row.confirmation == Consumed
    ensures w.p.kind == FieldChange ==> w.row.checkpoint == Some(Checkpoint(w.p.before, w.p.desired))
    ensures w.p.guarded ==> w.row.guard.Some? && w.row.guard.value.armed && w.host.armWire == Landed(true)
    ensures ApplyWrite in w.host.wire
    ensures w.host.wire[ApplyWrite].expected == w.p.before && w.host.wire[ApplyWrite].desired == w.p.desired
  {
    ReachableIsTrue(w);
    SentIsOnTheWire(w, ApplyWrite);
    BoundaryRows(w);
    hide RowsLie, WireOk, LogsOk;
  }

  /** Both ways back restore the checkpoint and nothing else: the backend's rollback, announced
      on a Change that needed it, and the agent's reversal, armed before the apply left. */
  lemma RestorationIsAuthorised(w: World, a: Attempt)
    requires Reachable(w) && a in w.host.sends && (a == RollbackWrite || a == ReversalWrite)
    ensures a in w.host.wire && w.row.checkpoint.Some?
    ensures w.host.wire[a].desired == w.row.checkpoint.value.before
    ensures a == RollbackWrite ==>
              && w.row.change.Some? && w.row.change.value.rollbackRequired
              && w.row.change.value.rollbackAttempt == Some(RollbackWrite)
    ensures a == ReversalWrite ==> w.p.guarded && w.host.wire[a].expected == w.row.checkpoint.value.desired
  {
    ReachableIsTrue(w);
    SentIsOnTheWire(w, a);
    CheckpointRows(w);
    hide RowsLie, WireOk, LogsOk;
  }

  lemma CheckpointRows(w: World)
    requires RowsHold(w)
    ensures w.row.guard.Some? ==> w.p.guarded && w.row.checkpoint == Some(Checkpoint(w.p.before, w.p.desired))
    ensures w.row.change.Some? && w.row.change.value.rollbackAttempt.Some? ==>
              && w.row.change.value.rollbackRequired
              && w.row.checkpoint == Some(Checkpoint(w.p.before, w.p.desired))
  {
  }

  // ------------------------------------------------------------- recovery confirmations

  /** How many retries have left. */
  function RetriesSent(sends: seq<Attempt>): nat {
    if sends == [] then 0
    else RetriesSent(sends[..|sends| - 1]) + if sends[|sends| - 1].RetryWrite? then 1 else 0
  }

  function DispatchedSet(attempts: seq<RecoveryAttempt>): set<nat> {
    set n: nat | n < |attempts| && attempts[n].dispatchBegan
  }

  lemma {:induction false} DispatchedCount(attempts: seq<RecoveryAttempt>)
    ensures |DispatchedSet(attempts)| == Dispatched(attempts)
    decreases |attempts|
  {
    if attempts == [] {
      assert DispatchedSet(attempts) == {};
    } else {
      var last := |attempts| - 1;
      var rest := attempts[..last];
      DispatchedCount(rest);
      assert DispatchedSet(attempts) ==
             DispatchedSet(rest) + if attempts[last].dispatchBegan then {last} else {};
    }
  }

  /** Distinct retries inside a set are no more than the set. */
  lemma {:induction false} RetriesAreDistinct(sends: seq<Attempt>, among: set<nat>)
    requires forall a :: multiset(sends)[a] <= 1
    requires forall i :: 0 <= i < |sends| && sends[i].RetryWrite? ==> sends[i].index in among
    ensures RetriesSent(sends) <= |among|
    decreases |sends|
  {
    if sends != [] {
      var last := |sends| - 1;
      var rest := sends[..last];
      assert sends == rest + [sends[last]];
      assert multiset(sends) == multiset(rest) + multiset{sends[last]};
      forall a ensures multiset(rest)[a] <= 1 {
        assert multiset(sends)[a] == multiset(rest)[a] + multiset{sends[last]}[a];
      }
      assert forall i :: 0 <= i < |rest| ==> rest[i] == sends[i];
      if sends[last].RetryWrite? {
        var n := sends[last].index;
        assert multiset(sends)[sends[last]] == multiset(rest)[sends[last]] + 1;
        forall i | 0 <= i < |rest| && rest[i].RetryWrite? ensures rest[i].index in among - {n} {
          assert rest[i] in multiset(rest);
        }
        RetriesAreDistinct(rest, among - {n});
        assert n in among;
      } else {
        RetriesAreDistinct(rest, among);
      }
    }
  }

  /** Every retry that began spent a recovery confirmation of its own, one each, and no more
      retries ever leave than confirmations were spent. */
  lemma RetriesSpendConfirmations(w: World)
    requires Reachable(w) && w.row.change.Some?
    ensures w.row.spent == |DispatchedSet(w.row.attempts)|
    ensures RetriesSent(w.host.sends) <= w.row.spent
    ensures forall n :: RetryWrite(n) in w.host.sends ==> n in DispatchedSet(w.row.attempts)
  {
    ReachableIsTrue(w);
    BoundaryRows(w);
    DispatchedCount(w.row.attempts);
    forall n | RetryWrite(n) in w.host.sends ensures n in DispatchedSet(w.row.attempts) {
      SentIsOnTheWire(w, RetryWrite(n));
    }
    hide RowsLie, WireOk, ChangeTrue, AttemptsTrue, AgentOk, PcTrue;
    RetriesAreDistinct(w.host.sends, DispatchedSet(w.row.attempts));
  }

  /** A change that had to be confirmed by typing can be held, but no retry of it is ever
      authorised: only a reading that already proves it, or an operator's word, releases it.
      Every guarded change is one. */
  lemma TypedHoldsAreNeverRetried(w: World)
    requires Reachable(w) && w.p.typed
    ensures w.row.change.Some? ==> w.row.spent == 0
    ensures RetriesSent(w.host.sends) == 0
    ensures forall i :: 0 <= i < |w.row.attempts| && w.row.attempts[i].releases ==>
              w.row.attempts[i].ending in {ProvenEnding, ResolvedEnding}
  {
    ReachableIsTrue(w);
    if w.row.change.Some? {
      BoundaryRows(w);
      RetriesSpendConfirmations(w);
      NeverDispatched(w);
    } else {
      NoChangeNoRetries(w);
    }
  }

  /** Some continuation sends another retry. */
  ghost predicate CanRetry(w: World) {
    exists w' :: Leads(w, w') && RetriesSent(w'.host.sends) > RetriesSent(w.host.sends)
  }

  /** A hold with a grant waiting, and a link that does not hold the wanted value. */
  predicate ReadyToRetry(w: World) {
    && HoldOpen(w.row) && w.row.granted && w.row.change.Some?
    && w.pc == Idle && w.flow == NoFlow
    && w.row.change.value.kind == w.p.kind
    && (w.p.kind == FieldChange ==> w.host.link != w.row.change.value.desired)
  }

  lemma GrantIsGiven(w: World) returns (w': World)
    requires w.pc == Idle && w.flow == NoFlow && HoldOpen(w.row) && w.row.change.Some? && !w.p.typed
    requires w.row.change.value.kind == w.p.kind
    ensures Leads(w, w') && ReadyToRetry(w') && w'.p == w.p && w'.host.sends == w.host.sends
  {
    LeadsNowhere(w);
    var away := w.row.change.value.desired + 1;
    var w1 := w.(host := w.host.(link := away, foreign := true));
    hide HoldOpen;
    LeadsOn(w, w, HostStep(ForeignWrite(away)), w1);
    w' := w1;
    if !w.row.granted {
      w' := w1.(row := w1.row.(granted := true));
      GrantKeepsHold(w.row);
      LeadsOn(w, w1, Begin(GrantCall), w');
    }
  }

  lemma GrantKeepsHold(row: Row)
    requires HoldOpen(row)
    ensures HoldOpen(row.(granted := true))
  {
  }

  /** What the retry's first reading finds. */
  function Elsewhere(w: World): (o: Observation) {
    if w.p.kind == FieldChange then Saw(w.host.link) else SawState(false)
  }

  lemma RetryIsJudged(w: World) returns (w': World, evidence: Reading)
    requires ReadyToRetry(w)
    ensures Leads(w, w') && w'.pc == InRecover(RetryJudged(evidence)) && evidence.outcome == Mismatch
    ensures w.p.kind == FieldChange ==> evidence.value.Some?
    ensures w'.row.attempts != [] && w'.row.granted && w'.row.change == w.row.change
    ensures w'.p == w.p && w'.host == w.host && w'.flow == RecoveryFlow
  {
    LeadsNowhere(w);
    var c := w.row.change.value;
    evidence := ReadBack(Elsewhere(w), c.desired);
    var w1 := w.(row := w.row.(attempts := w.row.attempts + [NewAttempt(RetryAttempt)]),
                 pc := InRecover(RetryOpened), flow := RecoveryFlow);
    LeadsOn(w, w, Begin(RetryCall), w1);
    hide HoldOpen, Leads;
    var w2 := w1.(pc := InRecover(RetryRead(evidence)));
    LeadsOn(w, w1, Observe(Elsewhere(w)), w2);
    w' := RecordEvidence(w2, evidence);
    LeadsOn(w, w2, Commit, w');
  }

  lemma RetryLeaves(w: World, evidence: Reading) returns (w': World)
    requires w.pc == InRecover(RetryJudged(evidence)) && evidence.outcome == Mismatch
    requires w.p.kind == FieldChange ==> evidence.value.Some?
    requires w.row.attempts != [] && w.row.granted && w.row.change.Some? && w.row.change.value.kind == w.p.kind
    ensures Leads(w, w') && w'.host.sends == w.host.sends + [RetryWrite(|w.row.attempts| - 1)]
  {
    LeadsNowhere(w);
    hide Leads;
    var c := w.row.change.value;
    var w1 := w.(pc := InRecover(RetryPlanned(evidence)));
    LeadsOn(w, w, Replan(c.kind, c.desired), w1);
    var w2 := SpendGrant(w1, evidence);
    LeadsOn(w, w1, Commit, w2);
    w' := SendNext(w2).value;
    LeadsOn(w, w2, Send, w');
  }

  /** A hold at rest can still lead to a retry exactly when its plan was not confirmed by typing. */
  lemma HoldsAreRetriedIff(w: World)
    requires Reachable(w) && w.pc == Idle && HoldOpen(w.row)
    ensures CanRetry(w) <==> !w.p.typed
  {
    ReachableIsTrue(w);
    RestingRows(w);
    hide Astray, Reachable, HoldOpen, Runs, Next;
    if w.p.typed {
      forall w' | Leads(w, w') ensures RetriesSent(w'.host.sends) == 0 {
        var es :| Runs(w, es, w');
        ReachableRuns(w, es, w');
        RunKeepsPlan(w, es, w');
        TypedHoldsAreNeverRetried(w');
      }
    } else {
      var w1 := GrantIsGiven(w);
      var w2, evidence := RetryIsJudged(w1);
      var w3 := RetryLeaves(w2, evidence);
      hide Leads;
      LeadsJoin(w, w1, w2);
      LeadsJoin(w, w2, w3);
      var sent := RetryWrite(|w2.row.attempts| - 1);
      assert (w2.host.sends + [sent])[..|w2.host.sends|] == w2.host.sends;
    }
  }

  lemma RestingRows(w: World)
    requires RowsHold(w) && w.pc == Idle
    ensures w.row.change.Some? ==> w.row.change.value.kind == w.p.kind
    ensures w.flow == NoFlow
  {
  }

  lemma NoChangeNoRetries(w: World)
    requires InOrder(w) && w.row.change.None?
    ensures RetriesSent(w.host.sends) == 0 && w.row.attempts == []
  {
    NoChangeRows(w);
    forall a: Attempt | a.RetryWrite? ensures a !in w.host.sends {
      SentIsOnTheWire(w, a);
    }
    hide RowsLie, HostLies;
    NoneSent(w.host.sends);
  }

  lemma NoChangeRows(w: World)
    requires RowsHold(w) && w.row.change.None?
    ensures w.row.attempts == []
  {
  }

  lemma {:induction false} NoneSent(sends: seq<Attempt>)
    requires forall a: Attempt :: a.RetryWrite? ==> a !in sends
    ensures RetriesSent(sends) == 0
    decreases |sends|
  {
    if sends != [] {
      assert sends[|sends| - 1] in sends;
      NoneSent(sends[..|sends| - 1]);
    }
  }

  lemma NeverDispatched(w: World)
    requires RowsHold(w) && w.row.change.Some? && DispatchedSet(w.row.attempts) == {}
    ensures forall i :: 0 <= i < |w.row.attempts| && w.row.attempts[i].releases ==>
              w.row.attempts[i].ending in {ProvenEnding, ResolvedEnding}
  {
    forall i: nat | i < |w.row.attempts| && w.row.attempts[i].releases
      ensures w.row.attempts[i].ending in {ProvenEnding, ResolvedEnding}
    {
      assert i !in DispatchedSet(w.row.attempts);
      AttemptRows(w, i);
    }
  }

  // -------------------------------------------------------------------- the recovery hold

  lemma AttemptRows(w: World, i: nat)
    requires RowsHold(w) && i < |w.row.attempts|
    ensures w.row.change.Some? && w.row.change.value.result == RecoveryResult
    ensures AttemptHolds(w.p, w.row.attempts[i])
    ensures i < |w.row.attempts| - 1 ==> !w.row.attempts[i].releases && w.row.attempts[i].ending != StillOpen
  {
  }

  /** What a release rests on. */
  predicate EarnedRelease(p: Preview, a: RecoveryAttempt) {
    || (a.ending == ProvenEnding && a.evidence.outcome == Verified
        && (p.kind == FieldChange ==> a.evidence.value == Some(p.desired)) && !a.dispatchBegan)
    || (a.ending == VerifiedEnding && a.outcome == Some(Written) && a.verification.outcome == Verified
        && (p.kind == FieldChange ==> a.verification.value == Some(p.desired)))
    || (a.ending == ResolvedEnding && a.kind == ResolveAttempt && !a.dispatchBegan)
  }

  lemma ReleaseIsEarned(p: Preview, a: RecoveryAttempt)
    requires AttemptHolds(p, a)
    ensures a.releases <==> EarnedRelease(p, a)
  {
  }

  /** A hold is released at most once, by the newest attempt, exactly when that attempt earned
      it; and the lock is held exactly as long as it has not been. */
  lemma HoldIsReleasedOnce(w: World)
    requires Reachable(w) && w.row.change.Some? && w.row.change.value.result == RecoveryResult
    ensures forall i :: 0 <= i < |w.row.attempts| ==>
              (w.row.attempts[i].releases <==> EarnedRelease(w.p, w.row.attempts[i]))
    ensures forall i :: 0 <= i < |w.row.attempts| && w.row.attempts[i].releases ==> i == |w.row.attempts| - 1
    ensures w.row.locked <==> forall i :: 0 <= i < |w.row.attempts| ==> !w.row.attempts[i].releases
  {
    ReachableIsTrue(w);
    HoldRows(w);
    hide RowsLie, HostLies;
    forall i: nat | i < |w.row.attempts|
      ensures w.row.attempts[i].releases <==> EarnedRelease(w.p, w.row.attempts[i])
      ensures w.row.attempts[i].releases ==> i == |w.row.attempts| - 1
    {
      AttemptRows(w, i);
      ReleaseIsEarned(w.p, w.row.attempts[i]);
    }
  }

  lemma HoldRows(w: World)
    requires RowsHold(w) && w.row.change.Some? && w.row.change.value.result == RecoveryResult
    ensures w.row.locked == !LastReleases(w.row.attempts)
  {
  }

  lemma ReleasedPcs(w: World)
    requires RowsHold(w) && LastReleases(w.row.attempts)
    ensures w.row.change.Some? && w.row.change.value.result == RecoveryResult
    ensures !LastOpen(w.row.attempts) && !w.row.locked
    ensures !w.pc.InRecover? && !w.pc.InRestore? && !w.pc.InKeep?
    ensures w.pc.InApply? ==> w.pc.apply.Ended? || w.pc.apply.Releasing?
    ensures w.pc.InBoot? ==> !w.pc.boot.BootConclude?
    ensures !Appliable(w.row.state)
  {
    AttemptRows(w, |w.row.attempts| - 1);
  }

  lemma CommitAfterRelease(w: World, w': World)
    requires RowsHold(w) && LastReleases(w.row.attempts) && CommitNext(w) == Some(w')
    ensures w'.row.attempts == w.row.attempts
  {
    ReleasedPcs(w);
    hide RowsLie, RecoverCommit, RestoreCommit, KeepCommit;
  }

  lemma ReleaseSurvivesStep(w: World, e: Event, w': World)
    requires RowsHold(w) && LastReleases(w.row.attempts) && Next(w, e) == Some(w')
    ensures w'.row.attempts == w.row.attempts
  {
    ReleasedPcs(w);
    ReleasedIsLast(w.row, w.p);
    if !MovesRows(e) { OnlyTransactionsMoveRows(w, e, w'); }
    hide RowsLie, CommitNext, RefuseNext, ObserveNext, SendNext, AnswerNext, ArmAnswerNext,
      GuardAnswerNext, ReplanNext, DieNext, HostMoveNext;
    match e
    case Commit => CommitAfterRelease(w, w');
    case Refuse => RefuseFrame(w, w');
    case _ =>
  }

  /** Once released, a hold stays released and no attempt follows. */
  lemma {:induction false} ReleaseIsFinal(w: World, es: seq<Event>, w': World)
    requires InOrder(w) && LastReleases(w.row.attempts) && Runs(w, es, w')
    ensures w'.row.attempts == w.row.attempts
    decreases |es|
  {
    hide RowsLie, HostLies, Next, LastReleases;
    if es != [] {
      var next := Next(w, es[0]).value;
      NextKeepsHost(w, es[0], next);
      ReleaseSurvivesStep(w, es[0], next);
      ReleaseIsFinal(next, es[1..], w');
    }
  }

  /** A retry whose first reading already proves the end state writes nothing, and one that
      does write aims at exactly what the Change was for. */
  lemma RetriesAimAtTheChange(w: World, n: nat)
    requires Reachable(w) && RetryWrite(n) in w.host.sends
    ensures n < |w.row.attempts| && w.row.attempts[n].evidence.outcome != Verified
    ensures w.row.change.Some? && RetryWrite(n) in w.host.wire
    ensures w.host.wire[RetryWrite(n)].desired == w.row.change.value.desired == w.p.desired
  {
    ReachableIsTrue(w);
    SentIsOnTheWire(w, RetryWrite(n));
    AttemptRows(w, n);
    BoundaryRows(w);
  }
}
