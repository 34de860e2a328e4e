/** The restart of a Run that was waiting to be kept: what its guard pass makes of the lapse, and
    what a crash in the middle of that pass costs. And what no restart ever does: send. */
module WritePathGuardPass {
  import opened Outcomes
  import opened WritePath
  import opened WritePathInvariant
  import opened WritePathFrames
  import opened WritePathHost
  import opened WritePathLimits
  import opened WritePathRestart
  import opened WritePathRuns

  /** What a restart may do to a Run that is waiting: a lapse is verified by a reading. */
  predicate GuardedRestartStep(e: Event) {
    RestartStep(e) || e.Observe?
  }

  // ------------------------------------------------------------------ nothing is ever sent

  /** A backend that is down, starting up or at rest. */
  predicate Starting(w: World) {
    match w.pc
    case Down => true
    case Idle => true
    case InBoot(pc) => w.flow == if pc.BootGuards? || pc.BootGuardSettle? then GuardPass else ChangePass
    case InKeep(pc) => w.flow == GuardPass && !pc.KeepAsking?
    case InRestore(pc) =>
      w.flow in {GuardPass, ChangePass} && (pc.Holding? || pc.Rereading? || pc.Reread? || pc.Rejudged?)
    case _ => false
  }

  /** Whatever else it does, it does nothing to the host: it sends no write, arms nothing and
      releases nothing. */
  lemma StartingStep(w: World, e: Event, w': World)
    requires Starting(w) && Next(w, e) == Some(w') && GuardedRestartStep(e)
    ensures Starting(w')
    ensures !e.HostStep? ==> w'.host == w.host
  {
    hide HonestReport, DisarmAnswer, HostNext, ReadBack, Faithful;
    if e.Commit? { CommitFrame(w, w'); }
  }

  lemma HostMoveSends(w: World, m: HostMove, w': World)
    requires HostMoveNext(w, m) == Some(w')
    ensures forall a :: a != ReversalWrite ==> multiset(w'.host.sends)[a] == multiset(w.host.sends)[a]
    ensures w'.host.releaseWire ==> w.host.releaseWire
    ensures w'.host.armWire == OnItsWay ==> w.host.armWire == OnItsWay
  {
    if m.Deadline? && w'.host.sends != w.host.sends {
      assert multiset(w.host.sends + [ReversalWrite]) == multiset(w.host.sends) + multiset{ReversalWrite};
    }
  }

  /** So a restart writes nothing: however often it dies and starts again, the only request that
      can join the wire is the reversal of a guard the agent already holds, and no guard is armed
      or released. */
  lemma {:induction false} RestartSendsNothing(w: World, es: seq<Event>, w': World)
    requires Starting(w) && Runs(w, es, w') && forall i :: 0 <= i < |es| ==> GuardedRestartStep(es[i])
    ensures forall a :: a != ReversalWrite ==> multiset(w'.host.sends)[a] == multiset(w.host.sends)[a]
    ensures w'.host.releaseWire ==> w.host.releaseWire
    ensures w'.host.armWire == OnItsWay ==> w.host.armWire == OnItsWay
    decreases |es|
  {
    hide Next, Starting, GuardedRestartStep;
    if es != [] {
      assert GuardedRestartStep(es[0]);
      var next := Next(w, es[0]).value;
      StartingStep(w, es[0], next);
      if es[0].HostStep? { HostStepIs(w, es[0].move, next); HostMoveSends(w, es[0].move, next); }
      RestartSendsNothing(next, es[1..], w');
    }
  }

  lemma HostStepIs(w: World, m: HostMove, w': World)
    requires Next(w, HostStep(m)) == Some(w')
    ensures HostMoveNext(w, m) == Some(w')
  {
  }

  // ------------------------------------------------------------- the lapse, taken in one go

  /** A Run waiting to be kept. */
  predicate WaitingRow(p: Preview, row: Row) {
    && row.state == Guarded && p.guarded
    && row.guard == Some(GuardRow(true, false, None, false, None))
    && row.change.Some? && row.change.value.result == InFlight && row.change.value.outcome == Some(Written)
    && row.attempts == []
  }

  function Opened(row: Row): Row
    requires row.change.Some?
  {
    row.(state := RollingBack, change := Some(row.change.value.(rollbackRequired := true)))
  }

  function Noted(row: Row, report: GuardReport): Row
    requires row.change.Some? && report.mutation.Some?
  {
    var begun := Opened(row);
    begun.(change := Some(begun.change.value.(rollbackAttempt := Some(ReversalWrite),
                                                rollbackOutcome := Some(report.mutation.value.outcome))))
  }

  function Recorded(row: Row, report: GuardReport): Row
    requires row.change.Some? && row.guard.Some? && SettlingReport(report)
  {
    (if report.phase == PhaseFired then Noted(row, report) else row)
      .(guard := Some(SettleGuard(row.guard.value, report)))
  }

  function Reviewed(row: Row, report: GuardReport, reading: Reading): Row
    requires row.change.Some? && row.guard.Some? && SettlingReport(report)
  {
    var recorded := Recorded(row, report);
    recorded.(state := RollbackVerifying, change := Some(recorded.change.value.(rollbackVerification := reading)))
  }

  function LapseReason(report: GuardReport): RecoveryReason {
    match report.phase
    case PhaseLost => GuardLost
    case PhaseDisarmed => GuardReleasedWithoutRecordedProof
    case PhaseFired => GuardReversalUnproven
    case _ => GuardUnreachable
  }

  /** The last rows before the ending, and the reason where it is an admission. */
  function LastRow(row: Row, report: GuardReport, reading: Reading): Row
    requires row.change.Some? && row.guard.Some? && SettlingReport(report)
  {
    if report.Reverted() then Reviewed(row, report, reading) else Recorded(row, report)
  }

  function AdmissionReason(report: GuardReport, reading: Reading): RecoveryReason
    requires SettlingReport(report)
  {
    if report.Reverted() then RestoreReason(reading.outcome, report.mutation.value) else LapseReason(report)
  }

  predicate ProvenReversal(report: GuardReport, reading: Reading) {
    report.Reverted() && reading.outcome == Verified
  }

  /** The rows an undisturbed guard pass leaves of a Run whose window lapsed, from what the agent said and what
      the reading showed. */
  function LapseRow(row: Row, report: GuardReport, reading: Reading): Row
    requires row.change.Some? && row.guard.Some? && SettlingReport(report)
  {
    if ProvenReversal(report, reading) then FinishRow(LastRow(row, report, reading), RolledBackResult, None)
    else FinishRow(LastRow(row, report, reading), RecoveryResult, Some(AdmissionReason(report, reading)))
  }

  /** The last thing the agent said in a run. */
  function LastAnswer(es: seq<Event>, given: Option<GuardReport>): Option<GuardReport>
    decreases |es|
  {
    if es == [] then given
    else LastAnswer(es[1..], if es[0].GuardAnswer? then Some(es[0].guardReport) else given)
  }

  /** What the last observation of a run is worth as evidence of the value to restore. */
  function LastReading(es: seq<Event>, before: int, given: Reading): Reading
    decreases |es|
  {
    if es == [] then given
    else LastReading(es[1..], before, if es[0].Observe? then ReadBack(es[0].observation, before) else given)
  }

  /** What the agent said lets no Run go on waiting. */
  predicate Lapsing(answer: Option<GuardReport>) {
    answer.Some? && SettlingReport(answer.value) && answer.value.phase != PhaseUnreachable
  }

  /** What an undisturbed start-up leaves of a waiting Run: the rows it had, unless the agent's
      answer is that the guard no longer holds. */
  function UndisturbedRow(row: Row, answer: Option<GuardReport>, reading: Reading): Row
    requires row.change.Some? && row.guard.Some?
  {
    if Lapsing(answer) then LapseRow(row, answer.value, reading) else row
  }

  // ----------------------------------------------------------------------- where a pass can be

  predicate AtRest(row0: Row, answer: Option<GuardReport>, reading: Reading, row: Row)
    requires row0.change.Some? && row0.guard.Some?
  {
    row == row0 || row == UndisturbedRow(row0, answer, reading)
  }

  predicate InLapse(row0: Row, report: GuardReport, reading: Reading, w: World)
    requires row0.change.Some? && row0.guard.Some?
  {
    && w.flow == GuardPass && Lapsing(Some(report))
    && match w.pc
       case InKeep(Lapsed(x)) => x == report && w.row == row0
       case InKeep(LapseOpened(x)) => x == report && report.phase == PhaseFired && w.row == Opened(row0)
       case InKeep(LapseNoted(x)) => x == report && report.phase == PhaseFired && w.row == Noted(row0, report)
       case InKeep(LapseSettled(x)) => x == report && w.row == Recorded(row0, report)
       case InRestore(Rereading(m)) =>
         report.Reverted() && m == report.mutation.value
         && w.row == Recorded(row0, report).(state := RollbackVerifying)
       case InRestore(Reread(m, x)) =>
         report.Reverted() && m == report.mutation.value && x == reading
         && w.row == Recorded(row0, report).(state := RollbackVerifying)
       case InRestore(Rejudged(m, x)) =>
         report.Reverted() && m == report.mutation.value && x == reading && w.row == Reviewed(row0, report, reading)
       case InRestore(Holding(reason)) =>
         !ProvenReversal(report, reading) && reason == AdmissionReason(report, reading)
         && w.row == LastRow(row0, report, reading)
       case _ => false
  }

  predicate InCourse(row0: Row, answer: Option<GuardReport>, reading: Reading, w: World)
    requires row0.change.Some? && row0.guard.Some?
  {
    match w.pc
    case Down => w.flow == NoFlow && AtRest(row0, answer, reading, w.row)
    case Idle => w.flow == NoFlow && w.row == UndisturbedRow(row0, answer, reading)
    case InBoot(BootGuards) => w.flow == GuardPass && AtRest(row0, answer, reading, w.row)
    case InBoot(pc) =>
      && w.flow == ChangePass && (pc.BootChange? || pc.BootRecovery?)
      && w.row == UndisturbedRow(row0, answer, reading)
    case _ => answer.Some? && InLapse(row0, answer.value, reading, w)
  }

  /** The lapse has begun to be recorded and has not ended. */
  predicate MidLapse(row: Row) {
    row.state in {RollingBack, RollbackVerifying} || (row.state == Guarded && !GuardWaiting(row))
  }

  /** What is left of a Run whose lapse was cut short: one nothing ends, or one that is admitted
      for a reason no lapse is admitted for. */
  predicate Cut(w: World) {
    && w.p.guarded && w.row.change.Some? && w.row.attempts == []
    && var c := w.row.change.value;
       && c.outcome == Some(Written)
       && match w.row.state
          case RollingBack => c.result == InFlight && CutPc(w)
          case RollbackVerifying => c.result == InFlight && CutPc(w)
          case Guarded =>
            && c.result == InFlight && w.row.guard.Some? && !GuardWaiting(w.row)
            && (w.pc in {Down, Idle} || (w.pc.InBoot? && w.pc.boot in {BootGuards, BootChange, BootRecovery}))
          case RecoveryRequired =>
            && c.result == RecoveryResult && c.reason == Some(ApplyInterruptedAfterWrite)
            && (w.pc in {Down, Idle} || (w.pc.InBoot? && (w.pc.boot in {BootGuards, BootChange, BootRecovery}
                                                          || w.pc.boot.BootGuardSettle?)))
          case _ => false
  }

  predicate CutPc(w: World) {
    || w.pc == Down
    || (w.pc.InBoot? && (w.pc.boot in {BootGuards, BootChange, BootConclude} || w.pc.boot.BootGuardSettle?)
        && w.flow == if w.pc.boot in {BootChange, BootConclude} then ChangePass else GuardPass)
    || (w.pc == InRestore(Holding(ApplyInterruptedAfterWrite)) && w.flow == ChangePass)
  }

  lemma CutCommit(w: World, w': World)
    requires Cut(w) && CommitNext(w) == Some(w')
    ensures Cut(w')
  {
    hide SettleGuard, GuardRowAllowed;
  }

  lemma CutStep(w: World, e: Event, w': World)
    requires Cut(w) && Next(w, e) == Some(w') && GuardedRestartStep(e)
    ensures Cut(w')
  {
    hide HonestReport, HostNext, ReadBack, Faithful, CommitNext;
    if e.Commit? { CutCommit(w, w'); }
  }

  lemma {:induction false} CutStays(w: World, es: seq<Event>, w': World)
    requires Cut(w) && Runs(w, es, w') && forall i :: 0 <= i < |es| ==> GuardedRestartStep(es[i])
    ensures Cut(w')
    decreases |es|
  {
    hide Next, Cut, GuardedRestartStep;
    if es != [] {
      assert GuardedRestartStep(es[0]);
      CutStep(w, es[0], Next(w, es[0]).value);
      CutStays(Next(w, es[0]).value, es[1..], w');
    }
  }

  lemma LapseRowEnds(row: Row, report: GuardReport, reading: Reading)
    requires row.change.Some? && row.guard.Some? && SettlingReport(report)
    ensures LapseRow(row, report, reading).change.Some?
    ensures LapseRow(row, report, reading).change.value.result in {RolledBackResult, RecoveryResult}
    ensures LapseRow(row, report, reading).change.value.reason != Some(ApplyInterruptedAfterWrite)
  {
  }

  lemma CutIsDisturbed(p: Preview, row0: Row, answer: Option<GuardReport>, reading: Reading, w: World)
    requires WaitingRow(p, row0) && Cut(w) && w.pc == Idle
    ensures w.row != UndisturbedRow(row0, answer, reading)
  {
    if Lapsing(answer) {
      LapseRowEnds(row0, answer.value, reading);
      hide LapseRow;
    }
  }

  // ------------------------------------------------------------------------------- its steps

  lemma RestCommits(p: Preview, row0: Row, answer: Option<GuardReport>, reading: Reading, w: World, pc: BootPc,
                    w': World)
    requires WaitingRow(p, row0) && w.p == p && InCourse(row0, answer, reading, w)
    requires w.pc == InBoot(pc) && BootCommit(w, pc) == Some(w')
    ensures InCourse(row0, answer, reading, w')
  {
    RestingRows(p, row0, answer, reading, w);
    hide UndisturbedRow, InLapse;
  }

  lemma RestAnswers(p: Preview, row0: Row, answer: Option<GuardReport>, reading: Reading, w: World,
                    report: GuardReport, late: bool, w': World)
    requires WaitingRow(p, row0) && w.p == p && InCourse(row0, answer, reading, w) && w.pc == InBoot(BootGuards)
    requires GuardAnswerNext(w, report, late) == Some(w')
    ensures InCourse(row0, Some(report), reading, w')
  {
    RestingRows(p, row0, answer, reading, w);
    hide LapseRow;
  }

  lemma RestKeepsCourse(p: Preview, row0: Row, answer: Option<GuardReport>, reading: Reading, w: World, e: Event,
                        w': World)
    requires WaitingRow(p, row0) && w.p == p && InCourse(row0, answer, reading, w)
    requires Next(w, e) == Some(w') && GuardedRestartStep(e) && !w.pc.InKeep? && !w.pc.InRestore?
    ensures w'.p == p && !e.Observe?
    ensures InCourse(row0, if e.GuardAnswer? then Some(e.guardReport) else answer, reading, w')
  {
    PlanIsFixed(w, e, w');
    hide HostNext, UndisturbedRow, InLapse, BootCommit, HonestReport;
    if e.HostStep? { HostFrame(w, e.move, w'); }
    if e.Commit? { RestCommits(p, row0, answer, reading, w, w.pc.boot, w'); }
    if e.GuardAnswer? { RestAnswers(p, row0, answer, reading, w, e.guardReport, e.lateRelease, w'); }
  }

  lemma RestingRows(p: Preview, row0: Row, answer: Option<GuardReport>, reading: Reading, w: World)
    requires WaitingRow(p, row0) && AtRest(row0, answer, reading, w.row)
    ensures w.row.attempts == [] && w.row.change.Some? && w.row.guard.Some? && !Interrupted(w.row)
    ensures w.row != row0 ==> w.row.guard.value.settled.Some?
    ensures w.row.guard.value.settled.Some? ==> w.row == UndisturbedRow(row0, answer, reading)
    ensures !MidLapse(w.row)
  {
  }

  lemma LapseKeepsCourse(p: Preview, row0: Row, report: GuardReport, reading: Reading, w: World, w': World)
    requires WaitingRow(p, row0) && w.p == p && InLapse(row0, report, reading, w) && CommitNext(w) == Some(w')
    ensures InCourse(row0, Some(report), reading, w')
  {
    if w.pc.InKeep? { KeepKeepsCourse(p, row0, report, reading, w, w.pc.keep, w'); }
    else { RestoreKeepsCourse(p, row0, report, reading, w, w.pc.restore, w'); }
    hide InCourse, KeepCommit, RestoreCommit, WaitingRow;
  }

  lemma KeepKeepsCourse(p: Preview, row0: Row, report: GuardReport, reading: Reading, w: World, pc: KeepPc, w': World)
    requires WaitingRow(p, row0) && w.p == p && InLapse(row0, report, reading, w)
    requires w.pc == InKeep(pc) && KeepCommit(w, pc) == Some(w')
    ensures InCourse(row0, Some(report), reading, w')
  {
    if pc.Lapsed? || pc.LapseNoted? { SettlementIsTaken(w, report); }
    hide LapseRow, GuardUpdateAllowed;
  }

  lemma SettlementIsTaken(w: World, report: GuardReport)
    requires w.row.guard == Some(GuardRow(true, false, None, false, None)) && SettlingReport(report)
    ensures SettleLapse(w, report) == w.(row := w.row.(guard := Some(SettleGuard(w.row.guard.value, report))),
                                         pc := InKeep(LapseSettled(report)))
  {
  }

  lemma RestoreKeepsCourse(p: Preview, row0: Row, report: GuardReport, reading: Reading, w: World, pc: RestorePc,
                           w': World)
    requires WaitingRow(p, row0) && w.p == p && InLapse(row0, report, reading, w)
    requires w.pc == InRestore(pc) && RestoreCommit(w, pc) == Some(w')
    ensures InCourse(row0, Some(report), reading, w')
  {
    hide Noted, SettleGuard;
  }

  lemma ReadingKeepsCourse(p: Preview, row0: Row, report: GuardReport, reading: Reading, w: World, o: Observation,
                           w': World)
    requires WaitingRow(p, row0) && w.p == p && InLapse(row0, report, reading, w) && ObserveNext(w, o) == Some(w')
    ensures InCourse(row0, Some(report), ReadBack(o, row0.change.value.before), w')
  {
    hide ReadBack, Faithful;
  }

  lemma LapseRows(p: Preview, row0: Row, report: GuardReport, reading: Reading, w: World)
    requires WaitingRow(p, row0) && w.p == p && InLapse(row0, report, reading, w)
    ensures w.row.change.Some? && w.row.attempts == [] && w.row.guard.Some?
    ensures w.row.change.value.outcome == Some(Written) && w.row.change.value.result == InFlight
    ensures w.row.state in {Guarded, RollingBack, RollbackVerifying}
    ensures w.row.state == Guarded ==> w.row == row0 || !GuardWaiting(w.row)
  {
  }

  /** A crash in the middle of a lapse cuts it short. */
  lemma CrashCuts(p: Preview, row0: Row, report: GuardReport, reading: Reading, w: World, w': World)
    requires WaitingRow(p, row0) && w.p == p && InLapse(row0, report, reading, w) && DieNext(w, true) == Some(w')
    ensures w' == w.(pc := Down, flow := NoFlow)
    ensures MidLapse(w.row) ==> Cut(w')
    ensures !MidLapse(w.row) ==> w.row == row0
  {
    LapseRows(p, row0, report, reading, w);
    hide InLapse;
  }

  lemma StepKeepsCourse(p: Preview, row0: Row, answer: Option<GuardReport>, reading: Reading, w: World, e: Event,
                        w': World)
    requires WaitingRow(p, row0) && w.p == p && InCourse(row0, answer, reading, w)
    requires Next(w, e) == Some(w') && GuardedRestartStep(e)
    ensures w'.p == p
    ensures e == Die(true) && MidLapse(w.row) ==> Cut(w')
    ensures !(e == Die(true) && MidLapse(w.row)) ==>
              InCourse(row0, if e.GuardAnswer? then Some(e.guardReport) else answer,
                       if e.Observe? then ReadBack(e.observation, row0.change.value.before) else reading, w')
  {
    PlanIsFixed(w, e, w');
    if !w.pc.InKeep? && !w.pc.InRestore? {
      RestKeepsCourse(p, row0, answer, reading, w, e, w');
      if e == Die(true) { RestingRows(p, row0, answer, reading, w); }
      hide InCourse, Next, Cut, MidLapse, ReadBack;
    } else if e == Die(true) {
      CrashCuts(p, row0, answer.value, reading, w, w');
      hide Cut, MidLapse;
    } else if e.Commit? {
      LapseKeepsCourse(p, row0, answer.value, reading, w, w');
      hide InCourse, InLapse, CommitNext;
    } else if e.Observe? {
      ReadingKeepsCourse(p, row0, answer.value, reading, w, e.observation, w');
      hide InCourse, InLapse, ObserveNext, ReadBack;
    } else {
      if e.HostStep? { HostFrame(w, e.move, w'); }
      hide HostNext;
    }
  }

  /** Somewhere in this run the process died with the lapse half recorded. */
  predicate DiedMidLapse(w: World, es: seq<Event>)
    decreases |es|
  {
    && es != []
    && ((es[0] == Die(true) && MidLapse(w.row))
        || (Next(w, es[0]).Some? && DiedMidLapse(Next(w, es[0]).value, es[1..])))
  }

  lemma {:induction false} RunKeepsCourse(p: Preview, row0: Row, answer: Option<GuardReport>, reading: Reading,
                                          w: World, es: seq<Event>, w': World)
    requires WaitingRow(p, row0) && w.p == p && InCourse(row0, answer, reading, w)
    requires Runs(w, es, w') && forall i :: 0 <= i < |es| ==> GuardedRestartStep(es[i])
    requires w'.pc == Idle
    ensures w'.row == UndisturbedRow(row0, LastAnswer(es, answer), LastReading(es, row0.change.value.before, reading))
            <==> !DiedMidLapse(w, es)
    decreases |es|
  {
    if es != [] {
      assert GuardedRestartStep(es[0]);
      var next := Next(w, es[0]).value;
      hide Next, InCourse, Cut, GuardedRestartStep, MidLapse, UndisturbedRow, WaitingRow, ReadBack;
      WaitingHasRows(p, row0);
      StepKeepsCourse(p, row0, answer, reading, w, es[0], next);
      var before := row0.change.value.before;
      if es[0] == Die(true) && MidLapse(w.row) {
        CutStays(next, es[1..], w');
        CutIsDisturbed(p, row0, LastAnswer(es, answer), LastReading(es, before, reading), w');
      } else {
        RunKeepsCourse(p, row0, if es[0].GuardAnswer? then Some(es[0].guardReport) else answer,
                       if es[0].Observe? then ReadBack(es[0].observation, before) else reading, next, es[1..], w');
      }
    }
  }

  lemma WaitingHasRows(p: Preview, row: Row)
    requires WaitingRow(p, row)
    ensures row.change.Some? && row.guard.Some?
  {
  }

  /** A Run that was waiting to be kept is, once the backend is back, just what an undisturbed
      restart would have made of it - by what the agent last said and the last reading showed -
      exactly when no crash fell into the recording of its lapse. */
  lemma GuardedRestartIff(w: World, es: seq<Event>, w': World)
    requires Reachable(w) && w.pc == Down && w.row.state == Guarded && GuardWaiting(w.row)
    requires Runs(w, es, w') && forall i :: 0 <= i < |es| ==> GuardedRestartStep(es[i])
    requires w'.pc == Idle
    ensures w.row.change.Some?
    ensures w'.row == UndisturbedRow(w.row, LastAnswer(es, None),
                                     LastReading(es, w.row.change.value.before, NO_READING))
            <==> !DiedMidLapse(w, es)
  {
    ReachableIsTrue(w);
    GuardedRows(w);
    DownRows(w);
    hide Astray, Reachable;
    RunKeepsCourse(w.p, w.row, None, NO_READING, w, es, w');
  }

  lemma DownRows(w: World)
    requires RowsHold(w) && w.pc == Down
    ensures w.flow == NoFlow
  {
  }

  // ------------------------------------------------------------------------------ and it happens

  const REVERTED := GuardReport(PhaseFired, Some(Report(Written, true)))

  const REVERSED_HOST :=
    GUARDED_LANDED.(
      wire := map[ApplyWrite := Request(1500, 9000, Closed(true)), ReversalWrite := Request(9000, 1500, Closed(true))],
      sends := [ApplyWrite, ReversalWrite], accepted := [ApplyWrite, ReversalWrite], link := 1500,
      held := Fired(Report(Written, true)))

  /** The window lapsed, the guard put the old value back, and the backend is down. */
  const REVERSED := GUARDED.(pc := Down, host := REVERSED_HOST)

  lemma ReversalLands()
    ensures Reachable(REVERSED)
  {
    hide Reachable;
    GuardedIsReachable();
    var h1 := Dispatch(GUARDED_LANDED, ReversalWrite, 9000, 1500).(held := Firing);
    ReachableStep(GUARDED, HostStep(Deadline(true)), GUARDED.(host := h1));
    var h2 := h1.(wire := h1.wire[ReversalWrite := Request(9000, 1500, Matched)]);
    ReachableStep(GUARDED.(host := h1), HostStep(MatchRequest(ReversalWrite)), GUARDED.(host := h2));
    ReversalIsAccepted(h2);
  }

  lemma ReversalIsAccepted(h2: Host)
    requires h2 == Dispatch(GUARDED_LANDED, ReversalWrite, 9000, 1500).(
                     held := Firing,
                     wire := GUARDED_LANDED.wire[ReversalWrite := Request(9000, 1500, Matched)])
    requires Reachable(GUARDED.(host := h2))
    ensures Reachable(REVERSED)
  {
    hide Reachable;
    var h3 := REVERSED_HOST.(held := Firing);
    assert h2.wire[ReversalWrite := Request(9000, 1500, Closed(true))] == REVERSED_HOST.wire;
    assert [ApplyWrite] + [ReversalWrite] == [ApplyWrite, ReversalWrite];
    ReachableStep(GUARDED.(host := h2), HostStep(AcceptRequest(ReversalWrite)), GUARDED.(host := h3));
    ReachableStep(GUARDED.(host := h3), HostStep(FireReturns(Report(Written, true))), GUARDED.(host := REVERSED_HOST));
    ReachableStep(GUARDED.(host := REVERSED_HOST), Die(true), REVERSED);
  }

  /** A start-up that began to record the lapse, and died. */
  const CUT_SHORT := REVERSED.(row := Opened(GUARDED.row))

  lemma LapseIsCutShort()
    ensures Leads(REVERSED, CUT_SHORT)
  {
    LeadsNowhere(REVERSED);
    hide Leads;
    var w1 := REVERSED.(pc := InBoot(BootGuards), flow := GuardPass);
    LeadsOn(REVERSED, REVERSED, Begin(StartupCall), w1);
    var w2 := w1.(pc := InKeep(Lapsed(REVERTED)));
    LeadsOn(REVERSED, w1, GuardAnswer(REVERTED, false), w2);
    var w3 := OpenLapse(w2, REVERTED);
    LeadsOn(REVERSED, w2, Commit, w3);
    LeadsOn(REVERSED, w3, Die(true), CUT_SHORT);
  }

  lemma NextStartUpSettles() returns (w: World)
    ensures Leads(REVERSED, w) && w.pc == InBoot(BootChange) && w.flow == ChangePass
    ensures w == CUT_SHORT.(row := CUT_SHORT.row.(guard := Some(SettleGuard(NOTED, REVERTED))),
                            pc := w.pc, flow := w.flow)
  {
    LapseIsCutShort();
    hide Leads;
    var w1 := CUT_SHORT.(pc := InBoot(BootGuards), flow := GuardPass);
    LeadsOn(REVERSED, CUT_SHORT, Begin(StartupCall), w1);
    var w2 := w1.(pc := InBoot(BootGuardSettle(REVERTED)));
    LeadsOn(REVERSED, w1, GuardAnswer(REVERTED, false), w2);
    w := SettleAtBoot(w2, REVERTED);
    LeadsOn(REVERSED, w2, Commit, w);
  }

  lemma CutRowIsAdmitted()
    ensures var row' := Restarted(GUARDED_CHANGE, Opened(GUARDED.row).(guard := Some(SettleGuard(NOTED, REVERTED))));
            && row'.state == RecoveryRequired && row'.change.Some?
            && row'.change.value.reason == Some(ApplyInterruptedAfterWrite)
  {
  }

  lemma RestOfStartUp(w: World) returns (w': World)
    requires w.pc == InBoot(BootChange) && w.flow == ChangePass
    ensures Leads(w, w') && w'.pc == Idle && w'.row == Restarted(w.p, w.row) && w'.host == w.host && w'.p == w.p
  {
    var es;
    es, w' := RestartCompletes(w);
    hide Next, Restarted;
    RunKeepsPlan(w, es, w');
  }

  lemma WaitingWithItsGuardFired()
    ensures REVERSED.row.state == Guarded && GuardWaiting(REVERSED.row)
    ensures REVERSED.host.link == REVERSED.p.before && REVERSED.host.held == Fired(Report(Written, true))
    ensures REVERSED.p == GUARDED_CHANGE && CUT_SHORT.p == GUARDED_CHANGE && CUT_SHORT.host == REVERSED.host
    ensures CUT_SHORT.row == Opened(GUARDED.row)
  {
  }

  /** A Run whose guard put the old value back, and said so, ends as one nobody can account for,
      because a crash fell between two transactions that recorded it. */
  lemma CutLapseExists() returns (w': World)
    ensures Reachable(REVERSED) && REVERSED.row.state == Guarded && GuardWaiting(REVERSED.row)
    ensures Leads(REVERSED, w') && w'.pc == Idle
    ensures w'.row.state == RecoveryRequired && w'.row.change.Some?
    ensures w'.row.change.value.reason == Some(ApplyInterruptedAfterWrite)
    ensures w'.host.link == w'.p.before && w'.host.held == Fired(Report(Written, true))
  {
    WaitingWithItsGuardFired();
    ReversalLands();
    CutRowIsAdmitted();
    hide Reachable, Leads, Restarted, Opened, SettleGuard, GuardWaiting;
    var w := NextStartUpSettles();
    w' := RestOfStartUp(w);
    LeadsJoin(REVERSED, w, w');
  }
}
