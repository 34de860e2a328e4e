/** What the record of a rollback is worth: a world for every record that leaves its apply in doubt,
    in which the apply is still inside the helper. */
module WritePathStragglers {
  import opened Outcomes
  import opened WritePath
  import opened WritePathInvariant
  import opened WritePathFrames
  import opened WritePathHost
  import opened WritePathLink
  import opened WritePathRuns
  import opened WritePathTheorems

  // ------------------------------------------------------------------- up to the apply

  /** A field of this plan whose link holds `start`. */
  function Untouched(start: int): Host {
    Host(start, start, false, map[], [], [], NotAsked, NotHeld, false, false)
  }

  predicate FieldPlan(p: Preview) {
    Published(p) && p.kind == FieldChange
  }

  function PreparedRow(p: Preview): Row {
    NEW_ROW.(state := Arming, confirmation := Consumed, locked := true,
             checkpoint := Some(Checkpoint(p.before, p.desired)))
  }

  lemma PlanIsPrepared(p: Preview, start: int) returns (w: World)
    requires FieldPlan(p)
    ensures Reachable(w)
    ensures w == World(p, PreparedRow(p), InApply(Prepared), ApplyFlow, false, Untouched(start))
  {
    var w0 := World(p, NEW_ROW, Idle, NoFlow, false, Untouched(start));
    assert Init(w0) && Runs(w0, [], w0);
    hide Reachable;
    var w1 := w0.(row := NEW_ROW.(confirmation := Granted));
    BeginReaches(w0, ConfirmCall, w1);
    var w2 := w1.(row := w1.row.(locked := true), pc := InApply(Acquired), flow := ApplyFlow);
    BeginReaches(w1, ApplyCall, w2);
    var w3 := Await(w2);
    CommitReaches(w2, w3);
    var w4 := ConsumeConfirmation(w3);
    CommitReaches(w3, w4);
    w := WriteCheckpoint(w4);
    CommitReaches(w4, w);
  }

  function GuardFor(p: Preview): Option<GuardRow> {
    if p.guarded then Some(NOTED) else None
  }

  /** The same, with a guard armed where the plan asks for one. */
  function Watched(p: Preview, start: int): Host {
    if p.guarded then Untouched(start).(armWire := Landed(true), held := Armed) else Untouched(start)
  }

  lemma GuardIsNoted(p: Preview, start: int) returns (w: World)
    requires FieldPlan(p)
    ensures Reachable(w)
    ensures w == World(p, PreparedRow(p).(guard := GuardFor(p)),
                       InApply(if p.guarded then GuardReady else Prepared), ApplyFlow, false, Watched(p, start))
  {
    hide Reachable;
    w := PlanIsPrepared(p, start);
    if p.guarded {
      var w1 := RequestGuard(w);
      CommitReaches(w, w1);
      var w2 := w1.(host := w1.host.(armWire := OnItsWay), pc := InApply(ArmAwaiting));
      ReachableStep(w1, Send, w2);
      var w3 := w2.(host := Watched(p, start));
      ReachableStep(w2, HostStep(ArmLands(true)), w3);
      var w4 := w3.(pc := InApply(GuardTaken));
      ReachableStep(w3, ArmAnswer(true), w4);
      w := NoteArmed(w4);
      CommitReaches(w4, w);
    }
  }

  function SentChange(p: Preview): Change {
    NewChange(p).(dispatchBegan := true)
  }

  /** The apply has left, and nobody has looked at it. */
  function Sent(p: Preview, start: int): Host {
    Dispatch(Watched(p, start), ApplyWrite, p.before, p.desired)
  }

  lemma ApplyLeaves(p: Preview, start: int) returns (w: World)
    requires FieldPlan(p)
    ensures Reachable(w)
    ensures w == World(p, PreparedRow(p).(guard := GuardFor(p), state := Applying, change := Some(SentChange(p))),
                       InApply(Awaiting), ApplyFlow, false, Sent(p, start))
  {
    hide Reachable;
    var w0 := GuardIsNoted(p, start);
    var w1 := Cross(w0);
    CommitReaches(w0, w1);
    var w2 := MarkDispatch(w1);
    CommitReaches(w1, w2);
    w := w2.(host := Sent(p, start), pc := InApply(Awaiting));
    ReachableStep(w2, Send, w);
  }

  // ------------------------------------------------------------------------- the rollback

  function DoubtfulChange(p: Preview): Change {
    SentChange(p).(outcome := Some(WriteUnknown), effect := UnknownEffect, rollbackRequired := true)
  }

  function DoubtfulRow(p: Preview): Row {
    PreparedRow(p).(guard := GuardFor(p), state := RollingBack, effect := UnknownEffect,
                    change := Some(DoubtfulChange(p)))
  }

  /** Nobody answers for the apply, and the link is read. */
  lemma ApplyIsDoubtful(p: Preview, start: int) returns (w: World)
    requires FieldPlan(p)
    ensures Reachable(w)
    ensures w == World(p, DoubtfulRow(p), InRestore(RestoreReady(start)), ApplyFlow, false, Sent(p, start))
  {
    hide Reachable;
    var w0 := ApplyLeaves(p, start);
    var report := Report(WriteUnknown, false);
    var w1 := w0.(pc := InApply(Reported(report)));
    ReachableStep(w0, Answer(report), w1);
    var w2 := RecordOutcome(w1, report);
    CommitReaches(w1, w2);
    w := Unproven(w2, None).(pc := InRestore(RestoreReady(start)));
    DoubtIsRead(p, start, w2, w);
  }

  lemma DoubtIsRead(p: Preview, start: int, w2: World, w: World)
    requires FieldPlan(p) && Reachable(w2) && w2.host == Sent(p, start) && w2.p == p && w2.flow == ApplyFlow
    requires w2.pc == InApply(Recorded(Report(WriteUnknown, false))) && w2.row.change.Some? && !w2.quiet
    requires w2.row.change.value.before == p.before
    requires w == Unproven(w2, None).(pc := InRestore(RestoreReady(start)))
    ensures Reachable(w)
  {
    hide Reachable;
    var w3 := Unproven(w2, None);
    CommitReaches(w2, w3);
    ReachableStep(w3, Observe(Saw(start)), w);
  }

  function RestoringChange(p: Preview): Change {
    DoubtfulChange(p).(rollbackAttempt := Some(RollbackWrite))
  }

  /** The value to restore is on the link, the apply inside the helper. */
  predicate Straggling(p: Preview, h: Host) {
    h.link == p.before && !h.foreign && Open(h, ApplyWrite)
  }

  /** The restoring write is reported as not written, because it never left, or as written, because
      the link did not hold the value to restore when it was read. */
  lemma RestorationIsReported(p: Preview, restored: MutationOutcome) returns (w: World)
    requires FieldPlan(p) && restored in {NotWritten, Written}
    ensures Reachable(w) && Straggling(p, w.host)
    ensures w.pc.InRestore? && w.pc.restore.RestoreReported? && w.pc.restore.report.outcome == restored
    ensures w == World(p, DoubtfulRow(p).(change := Some(RestoringChange(p))), w.pc, ApplyFlow, false, w.host)
  {
    hide Reachable;
    var start := if restored == Written then p.desired else p.before;
    var w0 := ApplyIsDoubtful(p, start);
    var w1 := MarkRestore(w0, start);
    CommitReaches(w0, w1);
    if restored == NotWritten {
      var report := Report(NotWritten, false);
      w := w1.(pc := InRestore(RestoreReported(report)));
      ReachableStep(w1, Answer(report), w);
    } else {
      w := RestorationLands(p, w1);
    }
  }

  lemma RestorationLands(p: Preview, w1: World) returns (w: World)
    requires FieldPlan(p) && Reachable(w1)
    requires w1 == World(p, DoubtfulRow(p).(change := Some(RestoringChange(p))), InRestore(RestoreMarked(p.desired)),
                         ApplyFlow, false, Sent(p, p.desired))
    ensures Reachable(w) && Straggling(p, w.host)
    ensures w == w1.(pc := InRestore(RestoreReported(Report(Written, true))), host := w.host)
  {
    hide Reachable;
    var h2 := Dispatch(w1.host, RollbackWrite, p.desired, p.before);
    var w2 := w1.(host := h2, pc := InRestore(RestoreAwaiting));
    ReachableStep(w1, Send, w2);
    var h3 := h2.(wire := h2.wire[RollbackWrite := Request(p.desired, p.before, Matched)]);
    ReachableStep(w2, HostStep(MatchRequest(RollbackWrite)), w2.(host := h3));
    var h4 := h3.(wire := h3.wire[RollbackWrite := Request(p.desired, p.before, Closed(true))],
                  accepted := h3.accepted + [RollbackWrite], link := p.before);
    ReachableStep(w2.(host := h3), HostStep(AcceptRequest(RollbackWrite)), w2.(host := h4));
    w := w2.(host := h4, pc := InRestore(RestoreReported(Report(Written, true))));
    ReachableStep(w2.(host := h4), Answer(Report(Written, true)), w);
  }

  /** The record of a rollback whose apply was never accounted for. */
  function RolledBackRow(p: Preview, restored: MutationOutcome): Row {
    DoubtfulRow(p).(
      state := RolledBack, locked := false,
      change := Some(RestoringChange(p).(rollbackOutcome := Some(restored), result := RolledBackResult,
                                         rollbackVerification := Reading(Verified, Some(p.before)))))
  }

  lemma StragglerIsReachable(p: Preview, restored: MutationOutcome) returns (v: World)
    requires FieldPlan(p) && restored in {NotWritten, Written}
    ensures Reachable(v) && v.p == p && v.row == RolledBackRow(p, restored) && Straggling(p, v.host)
  {
    hide Reachable;
    var w0 := RestorationIsReported(p, restored);
    var report := w0.pc.restore.report;
    var w1 := RecordRestore(w0, report);
    CommitReaches(w0, w1);
    var w2 := AfterRestore(w1, report);
    CommitReaches(w1, w2);
    v := StragglerIsNotSeen(p, w2, report);
  }

  /** The reading shows the value to restore, which proves nothing about the apply. */
  lemma StragglerIsNotSeen(p: Preview, w2: World, report: Report) returns (v: World)
    requires FieldPlan(p) && Reachable(w2) && Straggling(p, w2.host) && report.outcome in {NotWritten, Written}
    requires w2 == World(p,
                         DoubtfulRow(p).(
                           state := RollbackVerifying,
                           change := Some(RestoringChange(p).(rollbackOutcome := Some(report.outcome)))),
                         InRestore(Rereading(report)), ApplyFlow, false, w2.host)
    ensures Reachable(v) && v.p == p && v.row == RolledBackRow(p, report.outcome) && v.host == w2.host
  {
    hide Reachable;
    var reading := Reading(Verified, Some(p.before));
    var w3 := w2.(pc := InRestore(Reread(report, reading)));
    ReachableStep(w2, Observe(Saw(p.before)), w3);
    var w4 := RecordReread(w3, report, reading);
    CommitReaches(w3, w4);
    v := Finish(w4, RolledBackResult, None);
    CommitReaches(w4, v);
  }

  // ------------------------------------------------------------------- what a record is worth

  /** Two worlds of one plan whose records agree, except in what is on record about the guard. */
  predicate SameRecord(w: World, v: World) {
    v.p == w.p && v.row.(guard := w.row.guard) == w.row
  }

  /** Whatever else is true of the host, a rollback with this record is final. */
  ghost predicate FinalByRecord(w: World) {
    forall v :: Reachable(v) && OnlyOurs(v) && SameRecord(w, v) ==> RestoredForGood(v)
  }

  /** Nothing in the record of a rollback is left open by its plan but the two outcomes. */
  lemma RolledBackRecord(w: World)
    requires RowsHold(w) && w.row.state == RolledBack
    ensures FieldPlan(w.p) && w.row.change.Some?
    ensures w.row.change.value.outcome != Some(Written) ==>
              && w.row.change.value.rollbackOutcome.Some?
              && w.row.change.value.rollbackOutcome.value in {NotWritten, Written}
              && w.row == RolledBackRow(w.p, w.row.change.value.rollbackOutcome.value).(guard := w.row.guard)
  {
    if w.row.change.value.outcome != Some(Written) {
      var c, d := w.row.change.value, RolledBackRow(w.p, w.row.change.value.rollbackOutcome.value).change.value;
      assert c.verification == d.verification && c.rollbackVerification == d.rollbackVerification;
    }
  }

  /** The record of a rollback guarantees that it is final exactly when it says that the apply was
      written: for any that does not there is a world with the same record in which the apply is
      still inside the helper, and may yet undo it. */
  lemma RecordIsFinalIff(w: World)
    requires Reachable(w) && w.row.state == RolledBack
    ensures w.row.change.Some?
    ensures FinalByRecord(w) <==> w.row.change.value.outcome == Some(Written)
  {
    ReachableIsTrue(w);
    RolledBackRecord(w);
    hide RowsLie, HostLies, Reachable, RestoredForGood;
    if w.row.change.value.outcome == Some(Written) {
      forall v | Reachable(v) && OnlyOurs(v) && SameRecord(w, v) ensures RestoredForGood(v) {
        KnownWritesAreRestoredForGood(v);
      }
    } else {
      var v := StragglerIsReachable(w.p, w.row.change.value.rollbackOutcome.value);
      RestorationIsFinalIff(v);
      assert SameRecord(w, v) && OnlyOurs(v) && !RestoredForGood(v);
    }
  }
}
