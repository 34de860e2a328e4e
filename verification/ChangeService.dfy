/** The backend's change service for one Run, as it runs: rows updated in place, transaction by
    transaction, with the host moving underneath it.

    Whatever the caller, the agent and the host will answer is handed in beforehand, as
    `Answers`; an answer that could not have been given is replaced by the one that always can
    be. So a method's contract holds for everything the outside might do. */
module ChangeService {
  import opened Outcomes
  import opened WritePath
  import opened WritePathInvariant
  import opened WritePathFrames
  import opened WritePathHost
  import opened WritePathRows
  import opened WritePathRestart

  /** What the outside does during one request. `moves` is what happens on the host before each
      remote call is answered, in order; `eligible` is what the gates say of the request and
      `prepared` what correlation, checkpoint or re-plan came to. `found` says whether a retry's
      target is still there when it is looked up again. */
  datatype Answers = Answers(
    moves: seq<seq<HostMove>>,
    eligible: bool,
    prepared: bool,
    armSent: bool,
    armed: bool,
    sent: bool,
    report: Report,
    verified: Observation,
    current: Observation,
    restoreSent: bool,
    restored: Report,
    reread: Observation,
    released: GuardReport,
    late: bool,
    found: bool)

  const UNKNOWN := Report(WriteUnknown, false)
  const NEVER_LEFT := Report(NotWritten, false)
  const UNREACHABLE := GuardReport(PhaseUnreachable, None)

  function MovesAt(a: Answers, i: nat): (moves: seq<HostMove>)
    ensures i < |a.moves| ==> moves == a.moves[i]
  {
    if i < |a.moves| then a.moves[i] else []
  }

  /** The host after as many of these moves as it can make. */
  function HostAfter(kind: ChangeKind, checkpoint: Option<Checkpoint>, h: Host, moves: seq<HostMove>): Host
    decreases |moves|
  {
    if moves == [] then h
    else
      match HostNext(kind, checkpoint, h, moves[0])
      case Some(h') => HostAfter(kind, checkpoint, h', moves[1..])
      case None => HostAfter(kind, checkpoint, h, moves[1..])
  }

  lemma CommitIsNext(w: World, w': World)
    requires CommitNext(w) == Some(w')
    ensures Next(w, Commit) == Some(w')
  {
    hide CommitNext;
  }

  /** How often an attempt has been sent. */
  function Sent(h: Host, a: Attempt): nat {
    multiset(h.sends)[a]
  }

  /** Left to itself, the host's side sends nothing but a guard's reversal. */
  lemma {:induction false} OnlyReversalsAreSent(kind: ChangeKind, checkpoint: Option<Checkpoint>, h: Host,
                                               moves: seq<HostMove>)
    ensures forall a :: a != ReversalWrite ==> Sent(HostAfter(kind, checkpoint, h, moves), a) == Sent(h, a)
    decreases |moves|
  {
    if moves != [] {
      match HostNext(kind, checkpoint, h, moves[0])
      case Some(h') =>
        OneMoveSends(kind, checkpoint, h, moves[0], h');
        OnlyReversalsAreSent(kind, checkpoint, h', moves[1..]);
      case None => OnlyReversalsAreSent(kind, checkpoint, h, moves[1..]);
    }
  }

  lemma OneMoveSends(kind: ChangeKind, checkpoint: Option<Checkpoint>, h: Host, m: HostMove, h': Host)
    requires HostNext(kind, checkpoint, h, m) == Some(h')
    ensures forall a :: a != ReversalWrite ==> Sent(h', a) == Sent(h, a)
  {
    if m.Deadline? && h'.sends != h.sends {
      assert multiset(h.sends + [ReversalWrite]) == multiset(h.sends) + multiset{ReversalWrite};
    }
  }

  lemma DispatchIsSent(h: Host, a: Attempt, expected: int, desired: int)
    ensures forall b :: Sent(WritePath.Dispatch(h, a, expected, desired), b) == Sent(h, b) + if b == a then 1 else 0
  {
    assert multiset(h.sends + [a]) == multiset(h.sends) + multiset{a};
  }

  // ----- what the outside came to: the answers it could give, as they are heard

  /** What a question about the guard is answered with. */
  function Answered(h: Host, a: Answers): GuardReport {
    if HonestReport(h.held, a.released) then a.released else UNREACHABLE
  }

  /** What a disarm is answered with. */
  function Told(h: Host, a: Answers): GuardReport {
    if DisarmAnswer(h, a.released, a.late).Some? then a.released else UNREACHABLE
  }

  /** What is heard of a write that left or never did: the claim where the request bears it out. */
  function Hearing(h: Host, attempt: Attempt, sent: bool, claim: Report): Report {
    if !sent then NEVER_LEFT
    else if attempt in h.wire && Answerable(h.wire[attempt], claim.outcome) then claim
    else UNKNOWN
  }

  /** The observation, if it could be made; otherwise there was none. */
  function Given(kind: ChangeKind, h: Host, o: Observation): Observation {
    if Faithful(kind, h, o) then o else NotTaken(false)
  }

  /** What a reading says, by what was seen. */
  predicate Shows(o: Observation, expected: int, r: Reading) {
    match o
    case Saw(v) => r.value == Some(v) && r.outcome == if v == expected then Verified else Mismatch
    case SawState(proves) => r.value == None && r.outcome == if proves then Verified else Mismatch
    case NotTaken(absent) => r.value == None && r.outcome == if absent then TargetAbsent else ObservationUnavailable
    case WrongSource => r == Reading(SourceIncompatible, None)
    case Unreadable => r == Reading(ValueUnreadable, None)
  }

  /** It was made, and it saw the end state: of a field the value, on the link; of an action its
      proof. */
  predicate Proves(kind: ChangeKind, h: Host, o: Observation, expected: int) {
    if kind == FieldChange then h.link == expected && o == Saw(expected) else o == SawState(true)
  }

  lemma ShownIsProved(kind: ChangeKind, h: Host, o: Observation, expected: int, r: Reading)
    requires Shows(Given(kind, h, o), expected, r)
    ensures r.outcome == Verified <==> Proves(kind, h, o, expected)
  {
  }

  lemma ReasonIsShown(o: Observation, expected: int, r: Reading, report: Report)
    requires Shows(o, expected, r) && r.outcome != Verified
    ensures RestoreReason(r.outcome, report) == WhyUnproved(o, report)
  {
  }

  /** What became of the write stays on record as it is. */
  predicate SameOutcome(row: Row, was: Row) {
    && row.change.Some? && was.change.Some?
    && row.change.value.outcome == was.change.value.outcome
    && row.change.value.verification == was.change.value.verification
  }

  /** A field's value was read exactly where it was seen. */
  lemma ReadIsShown(kind: ChangeKind, h: Host, o: Observation, expected: int, r: Reading)
    requires Shows(Given(kind, h, o), expected, r)
    ensures kind == FieldChange ==> (r.value.Some? <==> o == Saw(h.link)) && (r.value.Some? ==> r.value.value == h.link)
  {
  }

  /** The host when the arming is answered. */
  function ArmingHost(p: Preview, checkpoint: Option<Checkpoint>, h: Host, a: Answers): Host {
    if a.armSent then HostAfter(p.kind, checkpoint, h.(armWire := OnItsWay), MovesAt(a, 0)) else h
  }

  predicate TakesGuard(p: Preview, checkpoint: Option<Checkpoint>, h: Host, a: Answers) {
    a.armSent && a.armed && ArmingHost(p, checkpoint, h, a).armWire == Landed(true)
  }

  /** Past the boundary: prepared, and under a guard where the plan asks for one. */
  predicate Crosses(p: Preview, h: Host, a: Answers) {
    a.prepared && (p.guarded ==> TakesGuard(p, CheckpointOf(p), h, a))
  }

  function CheckpointOf(p: Preview): Option<Checkpoint> {
    if p.kind == FieldChange then Some(Checkpoint(p.before, p.desired)) else None
  }

  function CrossedHost(p: Preview, h: Host, a: Answers): Host {
    if p.guarded then ArmingHost(p, CheckpointOf(p), h, a) else h
  }

  /** A Run that got no guard: it is asked to let go, in case it is held after all, and what it
      said is on record. */
  predicate Ungranted(p: Preview, h: Host, a: Answers, row: Row, h': Host) {
    var asked := ArmingHost(p, CheckpointOf(p), h, a);
    && DisarmAnswer(asked, Told(asked, a), a.late) == Some(h')
    && row.guard == Some(AbandonGuard(GuardRow(false, false, None, false, None), Told(asked, a)))
  }

  /** A guard that outlived its Run's ending is asked to let go, and what it said is on record. */
  predicate LetGo(h: Host, a: Answers, row: Row, h': Host) {
    && DisarmAnswer(h, Told(h, a), a.late) == Some(h')
    && row.guard == Some(SettleGuard(GuardRow(true, false, None, false, None), Told(h, a)))
  }

  /** The host when the apply is answered. */
  function AppliedHost(p: Preview, checkpoint: Option<Checkpoint>, h: Host, a: Answers): Host {
    if a.sent then
      HostAfter(p.kind, checkpoint, WritePath.Dispatch(h, ApplyWrite, p.before, p.desired), MovesAt(a, 1))
    else h
  }

  function VerifiedHost(p: Preview, checkpoint: Option<Checkpoint>, h: Host, a: Answers): Host {
    HostAfter(p.kind, checkpoint, h, MovesAt(a, 2))
  }

  /** The host when a restoration begins, when it is answered, and when it is judged. */
  function CurrentHost(p: Preview, checkpoint: Option<Checkpoint>, h: Host, a: Answers): Host {
    HostAfter(p.kind, checkpoint, h, MovesAt(a, 3))
  }

  function RestoredHost(p: Preview, checkpoint: Option<Checkpoint>, h: Host, current: int, a: Answers): Host {
    if a.restoreSent then
      HostAfter(p.kind, checkpoint, WritePath.Dispatch(h, RollbackWrite, current, p.before), MovesAt(a, 4))
    else h
  }

  function RereadHost(p: Preview, checkpoint: Option<Checkpoint>, h: Host, a: Answers): Host {
    HostAfter(p.kind, checkpoint, h, MovesAt(a, 5))
  }

  /** Why a restoration that a reading did not prove is admitted, by what that reading saw. */
  function WhyUnproved(o: Observation, report: Report): RecoveryReason {
    match o
    case NotTaken(absent) => if absent then TargetAbsentAfterMutation else RollbackVerificationUnavailable
    case WrongSource => RollbackVerificationUnavailable
    case Unreadable => RollbackVerificationUnavailable
    case _ =>
      if report == NEVER_LEFT then RollbackNotDispatched
      else if report.outcome == NotWritten then RollbackRefused
      else RollbackVerificationFailed
  }

  /** Why a lapse that its guard did not revert is admitted. */
  function WhyLapsed(phase: GuardPhase): RecoveryReason {
    match phase
    case PhaseLost => GuardLost
    case PhaseDisarmed => GuardReleasedWithoutRecordedProof
    case PhaseFired => GuardReversalUnproven
    case _ => GuardUnreachable
  }

  /** What the agent says of a guard it is asked to release, or only asked about, and the host that
      follows. */
  function Replied(h: Host, proved: bool, a: Answers): GuardReport {
    if proved then Told(h, a) else Answered(h, a)
  }

  function AskedHost(h: Host, proved: bool, a: Answers): Host {
    if proved && DisarmAnswer(h, Told(h, a), a.late).Some? then DisarmAnswer(h, Told(h, a), a.late).value else h
  }

  /** A guard that still holds, or whose write raised, lets go when it is asked to, and says so; one
      that let go before says so too; no other does. */
  lemma LetsGoIff(h: Host, a: Answers)
    ensures Told(h, a).phase == PhaseDisarmed
            <==> a.released == GuardReport(PhaseDisarmed, None) && h.held in {Armed, Raised, Disarmed, DisarmedOver}
    ensures Told(h, a).phase == PhaseDisarmed ==> AskedHost(h, true, a) == h.(held := Disarming(h.held))
    ensures Told(h, a).phase != PhaseArmed
    ensures Told(h, a) == UNREACHABLE || Told(h, a) == a.released
  {
  }

  /** What is recorded of a guard: what it said, and of a write of its own what came of it. One that
      was refused and turns out to have been held, or to have fired, was armed after all. */
  lemma SettlementSays(g: GuardRow, report: GuardReport)
    requires SettlingReport(report)
    ensures SettleGuard(g, report)
         == if report.phase == PhaseFired
            then GuardRow(g.armed, g.kept, Some(PhaseFired), true, Some(report.mutation.value.outcome))
            else GuardRow(g.armed, g.kept, Some(report.phase), g.fired, g.reversal)
    ensures AbandonGuard(g, report)
         == SettleGuard(g, report).(armed := g.armed || report.phase in {PhaseDisarmed, PhaseFired})
  {
  }

  /** A guard says that it is armed while it is, and not otherwise. */
  lemma StillHoldsIff(h: Host, a: Answers)
    ensures Answered(h, a).phase == PhaseArmed <==> a.released == GuardReport(PhaseArmed, None) && h.held == Armed
    ensures Answered(h, a) == UNREACHABLE || Answered(h, a) == a.released
  {
  }

  /** Its reversal was written exactly where the guard fired, its write was reported as written, and
      the answer says so. */
  lemma RevertedIff(h: Host, proved: bool, a: Answers)
    ensures Replied(h, proved, a).Reverted()
            <==> && h.held.Fired? && h.held.report.outcome == Written
                 && a.released == GuardReport(PhaseFired, Some(h.held.report))
  {
  }

  /** The host once a reversal has been looked at. */
  function LapsedHost(p: Preview, checkpoint: Option<Checkpoint>, h: Host, report: GuardReport, a: Answers): Host {
    if report.Reverted() then HostAfter(p.kind, checkpoint, h, MovesAt(a, 6)) else h
  }

  /** What an authorised retry asks for: from the value read to what the Change was for. */
  function RetriedHost(p: Preview, checkpoint: Option<Checkpoint>, h: Host, n: nat, evidence: Reading, a: Answers)
    : Host
  {
    var from := if evidence.value.Some? then evidence.value.value else 0;
    if a.sent then
      HostAfter(p.kind, checkpoint, WritePath.Dispatch(h, RetryWrite(n), from, p.desired), MovesAt(a, 1))
    else h
  }

  /** What it ends on: what was heard of it, and where that is that it wrote, what was seen. */
  function RetryEnds(p: Preview, checkpoint: Option<Checkpoint>, h: Host, heard: Report, a: Answers): AttemptEnding {
    match heard.outcome
    case NotWritten => NotWrittenEnding
    case WriteUnknown => WriteUnknownEnding
    case Written =>
      if Proves(p.kind, VerifiedHost(p, checkpoint, h, a), a.verified, p.desired) then VerifiedEnding
      else NotProvenEnding
  }

  /** A retry that was dispatched: sent once or never, as it was answered, and ended by that. */
  ghost predicate Retried(p: Preview, checkpoint: Option<Checkpoint>, h: Host, n: nat, evidence: Reading, a: Answers,
                          ending: AttemptEnding, h': Host) {
    var sent := RetriedHost(p, checkpoint, h, n, evidence, a);
    var heard := Hearing(sent, RetryWrite(n), a.sent, a.report);
    && ending == RetryEnds(p, checkpoint, sent, heard, a)
    && h' == (if heard.outcome == Written then VerifiedHost(p, checkpoint, sent, a) else sent)
    && Sent(h', RetryWrite(n)) == Sent(h, RetryWrite(n)) + (if a.sent then 1 else 0)
    && forall b :: b != RetryWrite(n) && b != ReversalWrite ==> Sent(h', b) == Sent(h, b)
  }

  /** What a lapse comes to: `None` where the guard wrote the old value back and a reading proved it,
      and otherwise why it is admitted. */
  function Unreverted(p: Preview, checkpoint: Option<Checkpoint>, h: Host, report: GuardReport, a: Answers)
    : Option<RecoveryReason>
  {
    var judged := LapsedHost(p, checkpoint, h, report, a);
    if !report.Reverted() then Some(WhyLapsed(report.phase))
    else if Proves(p.kind, judged, a.reread, p.before) then None
    else Some(WhyUnproved(Given(p.kind, judged, a.reread), report.mutation.value))
  }

  /** It is on record, with what the guard did. */
  predicate LapseIs(row: Row, report: GuardReport, reason: Option<RecoveryReason>) {
    && row.guard.Some? && row.guard.value.settled == Some(report.phase) && !row.guard.value.kept
    && (report.phase == PhaseFired ==>
          report.mutation.Some? && row.guard.value.reversal == Some(report.mutation.value.outcome))
    && row.change.Some? && row.change.value.result != InFlight && row.change.value.reason == reason
    && row.state == if reason.None? then RolledBack else RecoveryRequired
  }

  /** What came of restoring a field from its checkpoint: `None` where a reading proved it, and
      otherwise why not. A value nobody could read is never written over. */
  function Unrestored(p: Preview, checkpoint: Option<Checkpoint>, h: Host, a: Answers): Option<RecoveryReason> {
    var h3 := CurrentHost(p, checkpoint, h, a);
    match Given(p.kind, h3, a.current)
    case Saw(current) => UnrestoredFrom(p, checkpoint, h3, current, a)
    case NotTaken(absent) => Some(if absent then TargetAbsentAfterMutation else PreRollbackReadUnavailable)
    case _ => Some(PreRollbackReadUnavailable)
  }

  /** And where a value was read: an unknown outcome is never read back. */
  function UnrestoredFrom(p: Preview, checkpoint: Option<Checkpoint>, h3: Host, current: int, a: Answers)
    : Option<RecoveryReason>
  {
    var h4 := RestoredHost(p, checkpoint, h3, current, a);
    var report := Hearing(h4, RollbackWrite, a.restoreSent, a.restored);
    var h5 := RereadHost(p, checkpoint, h4, a);
    if report.outcome == WriteUnknown then Some(RollbackWriteUnknown)
    else if Proves(p.kind, h5, a.reread, p.before) then None
    else Some(WhyUnproved(Given(p.kind, h5, a.reread), report))
  }

  /** Where it leaves the host. */
  function AfterRestoring(p: Preview, checkpoint: Option<Checkpoint>, h: Host, a: Answers): Host {
    var h3 := CurrentHost(p, checkpoint, h, a);
    match Given(p.kind, h3, a.current)
    case Saw(current) => AfterRestoringFrom(p, checkpoint, h3, current, a)
    case _ => h3
  }

  function AfterRestoringFrom(p: Preview, checkpoint: Option<Checkpoint>, h3: Host, current: int, a: Answers): Host {
    var h4 := RestoredHost(p, checkpoint, h3, current, a);
    if Hearing(h4, RollbackWrite, a.restoreSent, a.restored).outcome == WriteUnknown then h4
    else RereadHost(p, checkpoint, h4, a)
  }

  /** The kernel's word that it wrote, and a reading that saw the end state. */
  predicate WriteProved(p: Preview, checkpoint: Option<Checkpoint>, h: Host, report: Report, a: Answers) {
    report.outcome == Written && Proves(p.kind, VerifiedHost(p, checkpoint, h, a), a.verified, p.desired)
  }

  /** The host once the write's own reading, where it gets one, has been taken. */
  function JudgedHost(p: Preview, checkpoint: Option<Checkpoint>, h: Host, report: Report, a: Answers): Host {
    if report.outcome == Written then VerifiedHost(p, checkpoint, h, a) else h
  }

  /** Why an action whose end state is not proved is admitted. */
  function WhyActionUnproved(p: Preview, checkpoint: Option<Checkpoint>, h: Host, report: Report, a: Answers)
    : RecoveryReason
  {
    if report.outcome != Written then ApplyWriteUnknown
    else
      match Given(p.kind, VerifiedHost(p, checkpoint, h, a), a.verified)
      case NotTaken(absent) => if absent then TargetAbsentAfterMutation else ActionVerificationUnavailable
      case WrongSource => ActionVerificationUnavailable
      case Unreadable => ActionVerificationUnavailable
      case _ => ActionNotProven
  }

  /** What a dispatched change comes to, by what was heard of it and what was seen. */
  predicate Concludes(p: Preview, checkpoint: Option<Checkpoint>, h: Host, report: Report, a: Answers, row: Row) {
    && row.change.Some?
    && var proved := WriteProved(p, checkpoint, h, report, a);
       && (row.state == Failed <==> report.outcome == NotWritten)
       && (row.state == Succeeded <==> proved && !p.guarded)
       && (row.state == Guarded <==> proved && p.guarded)
       && (report.outcome != NotWritten && !proved ==>
             && row.change.value.reason == WhyUnconcluded(p, checkpoint, h, report, a)
             && row.state == if row.change.value.reason.None? then RolledBack else RecoveryRequired)
  }

  /** What becomes of a change past the boundary: what was heard of its write is on record, and its
      ending follows from that and from what was seen. */
  predicate Executed(p: Preview, h: Host, a: Answers, row: Row, h': Host) {
    var checkpoint := CheckpointOf(p);
    var sent := AppliedHost(p, checkpoint, h, a);
    var heard := Hearing(sent, ApplyWrite, a.sent, a.report);
    var ended := ConcludedHost(p, checkpoint, sent, heard, a);
    && Concludes(p, checkpoint, sent, heard, a, row)
    && row.change.value.outcome == Some(heard.outcome)
    && if p.guarded && row.state != Guarded then LetGo(ended, a, row, h') else h' == ended
  }

  lemma ExecutedEnds(p: Preview, h: Host, a: Answers, row: Row, h': Host)
    requires Executed(p, h, a, row, h')
    ensures var sent := AppliedHost(p, CheckpointOf(p), h, a);
            var heard := Hearing(sent, ApplyWrite, a.sent, a.report);
            && row.change.Some?
            && (row.state in {Succeeded, Guarded}
                <==> heard.outcome == Written
                     && Proves(p.kind, VerifiedHost(p, CheckpointOf(p), sent, a), a.verified, p.desired))
            && (row.state == Guarded ==> p.guarded)
            && (row.state == Succeeded ==> !p.guarded)
            && (p.guarded && row.state != Guarded ==> row.guard.Some? && row.guard.value.settled.Some?)
  {
    hide WhyUnconcluded, ConcludedHost, AppliedHost, Hearing, Told, VerifiedHost, Proves, DisarmAnswer;
  }

  /** Nothing where the restoration was proved. */
  function WhyUnconcluded(p: Preview, checkpoint: Option<Checkpoint>, h: Host, report: Report, a: Answers)
    : Option<RecoveryReason>
  {
    if p.kind == FieldChange then Unrestored(p, checkpoint, JudgedHost(p, checkpoint, h, report, a), a)
    else Some(WhyActionUnproved(p, checkpoint, h, report, a))
  }

  function ConcludedHost(p: Preview, checkpoint: Option<Checkpoint>, h: Host, report: Report, a: Answers): Host {
    var judged := JudgedHost(p, checkpoint, h, report, a);
    if report.outcome == NotWritten || WriteProved(p, checkpoint, h, report, a) || p.kind == ActionChange then judged
    else AfterRestoring(p, checkpoint, judged, a)
  }

  /** A guard that may still act, or about which nothing was learnt. */
  predicate Outstanding(report: GuardReport) {
    report.phase in {PhaseArming, PhaseArmed, PhaseUnreachable}
  }

  /** The store refuses a firing it never knew was armed. */
  predicate SettlementRefused(row: Row, report: GuardReport) {
    GuardWaiting(row) && !row.guard.value.armed && report.phase == PhaseFired
  }

  /** The guard pass ends the Run: it was waiting to be kept, and its guard has settled. */
  predicate LapseIsSettled(row: Row, report: GuardReport) {
    row.state == Guarded && GuardWaiting(row) && !Outstanding(report)
  }

  /** The rows once the guard pass has recorded what it was told of a guard nobody is holding a
      change under. */
  function Collected(row: Row, report: GuardReport): Row {
    if GuardWaiting(row) && !Outstanding(report) then row.(guard := Some(SettleGuard(row.guard.value, report))) else row
  }

  /** What a start-up makes of the rows, given what it was told of an unsettled guard. */
  predicate StartedOn(p: Preview, row: Row, h: Host, report: GuardReport, a: Answers, served: bool, row': Row,
                      h': Host) {
    && (served <==> !SettlementRefused(row, report))
    && (!served ==> row' == row && h' == h)
    && (served && !LapseIsSettled(row, report) ==> row' == Restarted(p, Collected(row, report)) && h' == h)
    && (LapseIsSettled(row, report) ==>
          LapseIs(row', report, Unreverted(p, row.checkpoint, h, report, a))
          && h' == LapsedHost(p, row.checkpoint, h, report, a))
  }

  /** Where the backend stands after an ending, and in which request. */
  function AfterPc(p: Preview, flow: Flow): Pc {
    match flow
    case ApplyFlow => if p.guarded then InApply(Ended) else Idle
    case GuardPass => InBoot(BootChange)
    case ChangePass => InBoot(BootRecovery)
    case _ => Idle
  }

  function AfterFlow(p: Preview, flow: Flow): Flow {
    match flow
    case ApplyFlow => if p.guarded then ApplyFlow else NoFlow
    case GuardPass => ChangePass
    case ChangePass => ChangePass
    case _ => NoFlow
  }

  lemma FinishFacts(w: World, result: ChangeResult, reason: Option<RecoveryReason>)
    requires w.row.change.Some?
    ensures var w' := WritePath.Finish(w, result, reason);
            && w'.row.state == StateFor(result)
            && w'.row.guard == w.row.guard && w'.row.attempts == w.row.attempts
            && w'.row.change.Some?
            && w'.row.change.value.rollbackVerification == w.row.change.value.rollbackVerification
            && w'.row.change.value.reason == reason && SameOutcome(w'.row, w.row)
            && w'.pc == AfterPc(w.p, w.flow) && w'.flow == AfterFlow(w.p, w.flow)
  {
  }

  lemma EndAttemptFacts(w: World, ending: AttemptEnding)
    requires w.row.attempts != []
    ensures var row := EndAttempt(w, ending).row;
            && |row.attempts| == |w.row.attempts|
            && LastAttempt(row).ending == ending && LastAttempt(row).evidence == LastAttempt(w.row).evidence
            && row.locked == (w.row.locked && !Releases(ending))
            && row.spent == w.row.spent && row.granted == w.row.granted && row.change == w.row.change
  {
  }

  /** A request the backend waits for is on the wire. */
  lemma AwaitedIsOnTheWire(w: World)
    requires InOrder(w)
    ensures w.pc == InApply(Awaiting) ==> ApplyWrite in w.host.wire
    ensures w.pc == InRestore(RestoreAwaiting) ==> RollbackWrite in w.host.wire
    ensures w.pc == InRecover(RetryAwaiting) && w.row.attempts != [] ==>
              RetryWrite(|w.row.attempts| - 1) in w.host.wire
  {
    hide RowsLie, WireOk, LogsOk, ChangeTrue, AttemptsTrue, AgentOk;
  }

  lemma PlannedRows(w: World)
    requires InOrder(w)
    ensures w.row.change.Some? ==>
              && w.row.change.value.kind == w.p.kind
              && w.row.change.value.before == w.p.before && w.row.change.value.desired == w.p.desired
    ensures w.row.change.Some? && w.p.kind == FieldChange ==>
              w.row.checkpoint == Some(Checkpoint(w.p.before, w.p.desired))
    ensures w.p.guarded ==> w.p.kind == FieldChange
  {
    hide HostLies;
  }

  /** A guard being released was armed and has not settled. */
  lemma ReleasingRows(w: World, report: GuardReport)
    requires InOrder(w) && w.pc == InApply(Releasing(report))
    ensures w.row.guard == Some(GuardRow(true, false, None, false, None)) && SettlingReport(report)
  {
    hide HostLies;
  }

  /** What the operation would do now is what the Change was for, from a value that was read. */
  predicate Reaims(allowed: bool, c: Change, evidence: Reading, kind: ChangeKind, desired: int) {
    allowed && kind == c.kind && (kind == FieldChange ==> desired == c.desired && evidence.value.Some?)
  }

  /** No run of the write path leads here. */
  predicate OffCourse(w0: World, es: seq<Event>, w: World) {
    !Init(w0) || !Runs(w0, es, w)
  }

  predicate OnCourse(w0: World, es: seq<Event>, w: World) {
    !OffCourse(w0, es, w)
  }

  class Service {
    const plan: Preview
    var row: Row
    var host: Host
    ghost var pc: Pc
    ghost var flow: Flow
    ghost var quiet: bool
    ghost const origin: World
    ghost var history: seq<Event>

    ghost function View(): World
      reads this
    {
      World(plan, row, pc, flow, quiet, host)
    }

    /** Everything that has happened to this Run is a run of the write path. */
    ghost predicate Valid()
      reads this
    {
      OnCourse(origin, history, View())
    }

    /** So everything proved of the write path holds of it. */
    lemma ValidIsTrue()
      requires Valid()
      ensures Reachable(View()) && InOrder(View())
    {
      ReachableIsTrue(View());
    }

    /** What the rows say of the plan. */
    lemma RowsFollowThePlan()
      requires Valid()
      ensures row.change.Some? ==>
                && row.change.value.kind == plan.kind
                && row.change.value.before == plan.before && row.change.value.desired == plan.desired
      ensures row.change.Some? && plan.kind == FieldChange ==>
                row.checkpoint == Some(Checkpoint(plan.before, plan.desired))
      ensures plan.guarded ==> plan.kind == FieldChange
    {
      ValidIsTrue();
      PlannedRows(View());
      hide *;
    }

    constructor (plan: Preview, link: int)
      requires Published(plan)
      ensures Valid() && row == NEW_ROW && pc == Idle && host.link == link && this.plan == plan
    {
      this.plan := plan;
      row := NEW_ROW;
      host := Host(link, link, false, map[], [], [], NotAsked, NotHeld, false, false);
      pc, flow, quiet, history := Idle, NoFlow, false, [];
      origin := World(plan, NEW_ROW, Idle, NoFlow, false,
                      Host(link, link, false, map[], [], [], NotAsked, NotHeld, false, false));
    }

    /** A step of the write path has been taken. */
    ghost method Took(e: Event, was: World)
      requires OnCourse(origin, history, was) && Next(was, e) == Some(View())
      modifies this`history
      ensures Valid() && history == old(history) + [e]
    {
      RunsExtend(origin, history, was, e, View());
      history := history + [e];
    }

    /** The host, the helper and the agent go about their business. */
    method Elsewhere(moves: seq<HostMove>)
      requires Valid()
      modifies this`host, this`history
      ensures Valid()
      ensures host == HostAfter(plan.kind, row.checkpoint, old(host), moves)
      ensures forall a :: a != ReversalWrite ==> Sent(host, a) == Sent(old(host), a)
    {
      OnlyReversalsAreSent(plan.kind, row.checkpoint, host, moves);
      hide Sent;
      var i := 0;
      while i < |moves|
        invariant 0 <= i <= |moves|
        invariant Valid() && pc == old(pc) && flow == old(flow) && quiet == old(quiet)
        invariant HostAfter(plan.kind, row.checkpoint, host, moves[i..])
               == HostAfter(plan.kind, row.checkpoint, old(host), moves)
      {
        ghost var was := View();
        assert moves[i..][0] == moves[i] && moves[i..][1..] == moves[i + 1..];
        var next := HostNext(plan.kind, row.checkpoint, host, moves[i]);
        if next.Some? {
          host := next.value;
          Took(HostStep(moves[i]), was);
        }
        i := i + 1;
      }
    }

    // ------------------------------------------------------------------------------- requests

    /** A confirmation is recorded once, for a Run that could still be applied. `allowed` is what
        the policy and the plan it names say of it. */
    method Confirm(allowed: bool) returns (granted: bool)
      requires Valid() && pc == Idle
      modifies this
      ensures Valid() && pc == Idle && host == old(host)
      ensures granted <==> && allowed && old(row).state in {Previewed, AwaitingConfirmation}
                           && old(row).confirmation == Absent
      ensures row == if granted then old(row).(confirmation := Granted) else old(row)
    {
      if !allowed || !Appliable(row.state) || row.confirmation != Absent { return false; }
      ghost var was := View();
      row := row.(confirmation := Granted);
      granted := true;
      Took(Begin(ConfirmCall), was);
    }

    method Cancel() returns (cancelled: bool)
      requires Valid() && pc == Idle
      modifies this
      ensures Valid() && pc == Idle && host == old(host)
      ensures cancelled <==> old(row).state in {Previewed, AwaitingConfirmation}
      ensures row == if cancelled then old(row).(state := Cancelled) else old(row)
    {
      if !Appliable(row.state) { return false; }
      ghost var was := View();
      row := row.(state := Cancelled);
      cancelled := true;
      Took(Begin(CancelCall), was);
    }

    // ----------------------------------------------------------- before the boundary

    method Acquire() returns (taken: bool)
      requires Valid() && pc == Idle && flow == NoFlow
      modifies this
      ensures Valid() && host == old(host)
      ensures taken <==> old(row).state in {Previewed, AwaitingConfirmation}
      ensures taken ==> row == old(row).(locked := true) && pc == InApply(Acquired) && flow == ApplyFlow
      ensures !taken ==> View() == old(View())
    {
      if !Appliable(row.state) { return false; }
      ghost var was := View();
      row := row.(locked := true);
      pc, flow := InApply(Acquired), ApplyFlow;
      taken := true;
      Took(Begin(ApplyCall), was);
    }

    /** A gate refused: the lock goes back and nothing else is changed. */
    method GiveUp()
      requires Valid() && pc in {InApply(Acquired), InApply(Waiting)}
      modifies this
      ensures Valid() && pc == Idle && flow == NoFlow && host == old(host)
      ensures row == old(row).(locked := false)
    {
      ghost var was := View();
      pc := InApply(Refusing);
      Took(Refuse, was);
      was := View();
      row := row.(locked := false);
      pc, flow := Idle, NoFlow;
      Took(Commit, was);
    }

    /** The transition is committed on its own, before the confirmation is looked for. */
    method ConsumeConfirmation() returns (consumed: bool)
      requires Valid() && pc == InApply(Acquired) && flow == ApplyFlow
      modifies this
      ensures Valid() && host == old(host)
      ensures consumed <==> old(row).confirmation == Granted
      ensures consumed ==>
                pc == InApply(Authorised) && flow == ApplyFlow
                && row == old(row).(confirmation := Consumed,
                                    state := if plan.kind == FieldChange then Arming else AwaitingConfirmation)
      ensures !consumed ==> pc == InApply(Waiting) && row == old(row).(state := AwaitingConfirmation)
    {
      ghost var was := View();
      row := row.(state := AwaitingConfirmation);
      pc := InApply(Waiting);
      Took(Commit, was);
      if row.confirmation != Granted { return false; }
      was := View();
      row := row.(confirmation := Consumed);
      if plan.kind == FieldChange { row := row.(state := Arming); }
      pc := InApply(Authorised);
      consumed := true;
      Took(Commit, was);
    }

    /** The checkpoint is durable before anything could need it; where that fails, the Run ends
        with no Change. */
    method Prepare(ready: bool)
      requires Valid() && pc == InApply(Authorised) && flow == ApplyFlow
      modifies this
      ensures Valid() && host == old(host)
      ensures ready ==>
                pc == InApply(Prepared) && flow == ApplyFlow
                && row == old(row).(checkpoint := if plan.kind == FieldChange
                                                  then Some(Checkpoint(plan.before, plan.desired)) else None)
      ensures !ready ==> pc == Idle && flow == NoFlow && row == old(row).(state := Failed, locked := false)
    {
      ghost var was := View();
      if ready {
        row := row.(checkpoint := if plan.kind == FieldChange
                                  then Some(Checkpoint(plan.before, plan.desired)) else None);
        pc := InApply(Prepared);
        Took(Commit, was);
      } else {
        row := row.(state := Failed, locked := false);
        pc, flow := Idle, NoFlow;
        Took(Refuse, was);
      }
    }

    /** Asks the agent to hold the reversal. Anything but its own word that it does is a
        refusal, and a refused guard is released in case it is held after all. */
    method ArmGuard(a: Answers) returns (armed: bool)
      requires Valid() && pc == InApply(Prepared) && flow == ApplyFlow && plan.guarded
      modifies this
      ensures Valid()
      ensures armed <==> TakesGuard(plan, old(row).checkpoint, old(host), a)
      ensures armed ==>
                pc == InApply(GuardReady) && flow == ApplyFlow
                && host == ArmingHost(plan, old(row).checkpoint, old(host), a)
                && row == old(row).(guard := Some(GuardRow(true, false, None, false, None)))
      ensures !armed ==>
                && pc == Idle && flow == NoFlow
                && var asked := ArmingHost(plan, old(row).checkpoint, old(host), a);
                   && DisarmAnswer(asked, Told(asked, a), a.late) == Some(host)
                   && row == old(row).(state := Failed, locked := false,
                                       guard := Some(AbandonGuard(GuardRow(false, false, None, false, None),
                                                                  Told(asked, a))))
    {
      ghost var was := View();
      row := row.(guard := Some(GuardRow(false, false, None, false, None)));
      pc := InApply(GuardAsked);
      Took(Commit, was);
      armed := AskForGuard(a);
      if armed {
        NoteArmed();
      } else {
        var report := DisarmDeclined(a);
        SettleDeclined(report);
        EndUnarmed();
      }
    }

    method AskForGuard(a: Answers) returns (armed: bool)
      requires Valid() && pc == InApply(GuardAsked) && flow == ApplyFlow
      modifies this
      ensures Valid() && row == old(row) && flow == ApplyFlow
      ensures host == ArmingHost(plan, row.checkpoint, old(host), a)
      ensures armed <==> a.armSent && a.armed && host.armWire == Landed(true)
      ensures pc == InApply(if armed then GuardTaken else GuardDeclined)
    {
      ghost var was := View();
      if !a.armSent {
        pc := InApply(GuardDeclined);
        Took(ArmAnswer(false), was);
        return false;
      }
      host := host.(armWire := OnItsWay);
      pc := InApply(ArmAwaiting);
      Took(Send, was);
      Elsewhere(MovesAt(a, 0));
      was := View();
      armed := a.armed && host.armWire == Landed(true);
      pc := InApply(if armed then GuardTaken else GuardDeclined);
      Took(ArmAnswer(armed), was);
    }

    method NoteArmed()
      requires Valid() && pc == InApply(GuardTaken) && flow == ApplyFlow
      requires row.guard == Some(GuardRow(false, false, None, false, None))
      modifies this
      ensures Valid() && host == old(host) && pc == InApply(GuardReady) && flow == ApplyFlow
      ensures row == old(row).(guard := Some(GuardRow(true, false, None, false, None)))
    {
      ghost var was := View();
      row := row.(guard := Some(row.guard.value.(armed := true)));
      pc := InApply(GuardReady);
      Took(Commit, was);
    }

    method DisarmDeclined(a: Answers) returns (report: GuardReport)
      requires Valid() && pc == InApply(GuardDeclined) && flow == ApplyFlow
      modifies this
      ensures Valid() && pc == InApply(GuardAbandoned(report)) && flow == ApplyFlow && row == old(row)
      ensures SettlingReport(report) && report == Told(old(host), a)
      ensures DisarmAnswer(old(host), report, a.late) == Some(host)
    {
      ghost var was := View();
      report := if DisarmAnswer(host, a.released, a.late).Some? then a.released else UNREACHABLE;
      DisarmSettles(host, report, a.late);
      host := DisarmAnswer(host, report, a.late).value;
      pc := InApply(GuardAbandoned(report));
      Took(GuardAnswer(report, a.late), was);
    }

    /** A guard that turns out to be held, or to have acted, is recorded as armed after all, so
        the store accepts whatever the agent says. */
    method SettleDeclined(report: GuardReport)
      requires Valid() && pc == InApply(GuardAbandoned(report)) && flow == ApplyFlow && SettlingReport(report)
      requires row.guard == Some(GuardRow(false, false, None, false, None))
      modifies this
      ensures Valid() && host == old(host) && pc == InApply(GuardGivenUp) && flow == ApplyFlow
      ensures row == old(row).(guard := Some(AbandonGuard(old(row).guard.value, report)))
    {
      ghost var was := View();
      row := row.(guard := Some(AbandonGuard(row.guard.value, report)));
      pc := InApply(GuardGivenUp);
      Took(Commit, was);
    }

    method EndUnarmed()
      requires Valid() && pc == InApply(GuardGivenUp) && flow == ApplyFlow
      modifies this
      ensures Valid() && host == old(host) && pc == Idle && flow == NoFlow
      ensures row == old(row).(state := Failed, locked := false)
    {
      ghost var was := View();
      row := row.(state := Failed, locked := false);
      pc, flow := Idle, NoFlow;
      Took(Commit, was);
    }

    // ------------------------------------------------------------------- the write itself

    method Cross()
      requires Valid() && flow == ApplyFlow
      requires pc == InApply(GuardReady) || (pc == InApply(Prepared) && !plan.guarded)
      modifies this
      ensures Valid() && host == old(host) && flow == ApplyFlow && pc == InApply(Crossed)
      ensures row == old(row).(state := Applying, change := Some(NewChange(plan)))
    {
      ghost var was := View();
      row := row.(state := Applying, change := Some(NewChange(plan)));
      pc := InApply(Crossed);
      Took(Commit, was);
    }

    /** Durable before the request can leave. */
    method MarkDispatch()
      requires Valid() && pc == InApply(Crossed) && row.change.Some?
      modifies this
      ensures Valid() && host == old(host) && flow == old(flow) && pc == InApply(Marked)
      ensures row == old(row).(change := Some(old(row).change.value.(dispatchBegan := true)))
    {
      ghost var was := View();
      row := row.(change := Some(row.change.value.(dispatchBegan := true)));
      pc := InApply(Marked);
      Took(Commit, was);
    }

    method NeverSent()
      requires Valid() && pc == InApply(Marked)
      modifies this`pc, this`history
      ensures Valid() && pc == InApply(Reported(NEVER_LEFT))
    {
      ghost var was := View();
      pc := InApply(Reported(NEVER_LEFT));
      Took(Answer(NEVER_LEFT), was);
    }

    /** Marks the dispatch, then sends it; the request carries what the rows say. Whatever the
        outside claims, a definite outcome is only ever one the request had. */
    method Dispatch(a: Answers) returns (report: Report)
      requires Valid() && pc == InApply(Crossed) && flow == ApplyFlow && row.change.Some?
      modifies this
      ensures Valid() && flow == ApplyFlow && pc == InApply(Reported(report))
      ensures row == old(row).(change := Some(old(row).change.value.(dispatchBegan := true)))
      ensures host == AppliedHost(plan, row.checkpoint, old(host), a)
      ensures report == Hearing(host, ApplyWrite, a.sent, a.report)
      ensures a.sent ==> ApplyWrite in host.wire && Answerable(host.wire[ApplyWrite], report.outcome)
    {
      RowsFollowThePlan();
      hide WritePath.Dispatch, HostAfter;
      MarkDispatch();
      if a.sent {
        SendApply();
        Elsewhere(MovesAt(a, 1));
        report := HearApply(a.report);
      } else {
        NeverSent();
        report := NEVER_LEFT;
      }
    }

    method SendApply()
      requires Valid() && pc == InApply(Marked) && row.change.Some?
      modifies this
      ensures Valid() && pc == InApply(Awaiting) && flow == old(flow) && row == old(row)
      ensures host == WritePath.Dispatch(old(host), ApplyWrite, row.change.value.before, row.change.value.desired)
    {
      ghost var was := View();
      host := WritePath.Dispatch(host, ApplyWrite, row.change.value.before, row.change.value.desired);
      pc := InApply(Awaiting);
      Took(Send, was);
    }

    method HearApply(claim: Report) returns (report: Report)
      requires Valid() && pc == InApply(Awaiting)
      modifies this`pc, this`history
      ensures Valid() && pc == InApply(Reported(report))
      ensures ApplyWrite in host.wire && Answerable(host.wire[ApplyWrite], report.outcome)
      ensures report == Hearing(host, ApplyWrite, true, claim)
    {
      SentIsOnTheWire();
      ghost var was := View();
      report := if Answerable(host.wire[ApplyWrite], claim.outcome) then claim else UNKNOWN;
      pc := InApply(Reported(report));
      Took(Answer(report), was);
    }

    lemma SentIsOnTheWire()
      requires Valid()
      ensures pc == InApply(Awaiting) ==> ApplyWrite in host.wire
      ensures pc == InRestore(RestoreAwaiting) ==> RollbackWrite in host.wire
      ensures pc == InRecover(RetryAwaiting) && row.attempts != [] ==> RetryWrite(|row.attempts| - 1) in host.wire
    {
      ValidIsTrue();
      AwaitedIsOnTheWire(View());
      hide *;
    }

    /** The result of the dispatch, durable before anything is made of it. */
    method Settle(report: Report)
      requires Valid() && pc == InApply(Reported(report)) && row.change.Some?
      modifies this
      ensures Valid() && host == old(host) && pc == InApply(Recorded(report)) && flow == old(flow)
      ensures row == old(row).(effect := row.effect,
                               change := Some(old(row).change.value.(outcome := Some(report.outcome),
                                                                     effect := row.effect)))
      ensures row.effect == match report.outcome
                            case NotWritten => NoEffect
                            case Written => WrittenEffect
                            case WriteUnknown => UnknownEffect
    {
      ghost var was := View();
      var effect := HostEffectFor(report.outcome);
      row := row.(effect := effect,
                  change := Some(row.change.value.(outcome := Some(report.outcome), effect := effect)));
      pc := InApply(Recorded(report));
      Took(Commit, was);
    }

    method StartVerifying(report: Report)
      requires Valid() && pc == InApply(Recorded(report)) && report.outcome == Written && row.change.Some?
      modifies this
      ensures Valid() && host == old(host) && flow == old(flow) && pc == InApply(Observing)
      ensures row == old(row).(state := RunState.Verifying)
    {
      ghost var was := View();
      row := row.(state := RunState.Verifying);
      pc := InApply(Observing);
      Took(Commit, was);
    }

    method RecordReading(reading: Reading)
      requires Valid() && pc == InApply(Observed(reading)) && row.change.Some?
      modifies this
      ensures Valid() && host == old(host) && flow == old(flow) && pc == InApply(Judged(reading))
      ensures row == old(row).(change := Some(old(row).change.value.(verification := reading)))
    {
      ghost var was := View();
      row := row.(change := Some(row.change.value.(verification := reading)));
      pc := InApply(Judged(reading));
      Took(Commit, was);
    }

    /** A fresh reading through the ordinary path, judged and recorded; a reading the outside
        could not have given is no reading. */
    method Verify(report: Report, a: Answers) returns (reading: Reading)
      requires Valid() && pc == InApply(Recorded(report)) && report.outcome == Written && row.change.Some?
      modifies this
      ensures Valid() && pc == InApply(Judged(reading)) && flow == old(flow)
      ensures row == old(row).(state := RunState.Verifying,
                               change := Some(old(row).change.value.(verification := reading)))
      ensures host == VerifiedHost(plan, row.checkpoint, old(host), a)
      ensures Shows(Given(plan.kind, host, a.verified), old(row).change.value.desired, reading)
    {
      StartVerifying(report);
      Elsewhere(MovesAt(a, 2));
      reading := Look(a.verified);
      RecordReading(reading);
    }

    method Look(o: Observation) returns (reading: Reading)
      requires Valid() && pc == InApply(Observing) && row.change.Some?
      modifies this`pc, this`history
      ensures Valid() && pc == InApply(Observed(reading))
      ensures Shows(Given(plan.kind, host, o), row.change.value.desired, reading)
    {
      ghost var was := View();
      var seen := if Faithful(plan.kind, host, o) then o else NotTaken(false);
      reading := ReadBack(seen, row.change.value.desired);
      pc := InApply(Observed(reading));
      Took(Observe(seen), was);
    }

    /** Ends the Run and the Change together; only an admission keeps the lock. */
    method Finish(result: ChangeResult, reason: Option<RecoveryReason>)
      requires Valid() && row.change.Some? && CommitNext(View()) == Some(WritePath.Finish(View(), result, reason))
      modifies this
      ensures Valid() && host == old(host)
      ensures View() == WritePath.Finish(old(View()), result, reason)
    {
      ghost var was := View();
      CommitIsNext(was, WritePath.Finish(was, result, reason));
      row := row.(state := StateFor(result),
                  effect := row.change.value.effect,
                  change := Some(row.change.value.(result := result, reason := reason)));
      if reason.None? { row := row.(locked := false); }
      if flow == ApplyFlow && plan.guarded {
        pc := InApply(Ended);
      } else if flow == GuardPass {
        pc, flow := InBoot(BootChange), ChangePass;
      } else if flow == ChangePass {
        pc := InBoot(BootRecovery);
      } else {
        pc, flow := Idle, NoFlow;
      }
      Took(Commit, was);
    }

    /** The guarded change is proved, and the connection is not: the Run waits for the operator. */
    method Hold(reading: Reading)
      requires Valid() && pc == InApply(Judged(reading)) && reading.outcome == Verified && plan.guarded
      requires row.change.Some?
      modifies this
      ensures Valid() && host == old(host) && pc == Idle && flow == NoFlow
      ensures row == old(row).(state := Guarded)
    {
      ghost var was := View();
      row := row.(state := Guarded);
      pc, flow := Idle, NoFlow;
      Took(Commit, was);
    }

    // ----------------------------------------------------------------------------- restoring

    /** The wanted end state is not proved and the host may have moved: a field is to be
        restored, an action is admitted as it stands. */
    method OpenUnproven(read: Option<Reading>)
      requires Valid() && row.change.Some? && CommitNext(View()) == Some(Unproven(View(), read))
      modifies this
      ensures Valid() && View() == Unproven(old(View()), read)
    {
      ghost var was := View();
      CommitIsNext(was, Unproven(was, read));
      ghost var then_ := Unproven(was, read);
      if plan.kind == FieldChange {
        row := row.(state := RollingBack, change := Some(row.change.value.(rollbackRequired := true)));
      }
      pc := then_.pc;
      Took(Commit, was);
    }

    /** The value the restoration will start from. Without one nothing is written. */
    method ReadCurrent(o: Observation) returns (current: Option<int>, reason: RecoveryReason)
      requires Valid() && pc == InRestore(RestoreStarted) && row.change.Some?
      modifies this`pc, this`history
      ensures Valid()
      ensures current.Some? ==> pc == InRestore(RestoreReady(current.value))
      ensures current == if Given(plan.kind, host, o).Saw? then Some(Given(plan.kind, host, o).seen) else None
      ensures current.None? ==> pc == InRestore(Holding(reason))
      ensures reason == if Given(plan.kind, host, o) == NotTaken(true) then TargetAbsentAfterMutation
                        else PreRollbackReadUnavailable
    {
      ghost var was := View();
      var seen := if Faithful(plan.kind, host, o) then o else NotTaken(false);
      var reading := ReadBack(seen, row.change.value.before);
      current := reading.value;
      reason := if reading.outcome == TargetAbsent then TargetAbsentAfterMutation else PreRollbackReadUnavailable;
      pc := InRestore(if current.Some? then RestoreReady(current.value) else Holding(reason));
      Took(Observe(seen), was);
    }

    method MarkRestore(current: int)
      requires Valid() && pc == InRestore(RestoreReady(current)) && row.change.Some?
      modifies this
      ensures Valid() && host == old(host) && flow == old(flow) && pc == InRestore(RestoreMarked(current))
      ensures row == old(row).(change := Some(old(row).change.value.(rollbackAttempt := Some(RollbackWrite))))
    {
      ghost var was := View();
      row := row.(change := Some(row.change.value.(rollbackAttempt := Some(RollbackWrite))));
      pc := InRestore(RestoreMarked(current));
      Took(Commit, was);
    }

    /** The restoration expects the value just read and writes the checkpoint's. */
    method SendRestore(current: int)
      requires Valid() && pc == InRestore(RestoreMarked(current)) && row.checkpoint.Some?
      modifies this
      ensures Valid() && flow == old(flow) && row == old(row) && pc == InRestore(RestoreAwaiting)
      ensures host == WritePath.Dispatch(old(host), RollbackWrite, current, row.checkpoint.value.before)
    {
      ghost var was := View();
      host := WritePath.Dispatch(host, RollbackWrite, current, row.checkpoint.value.before);
      pc := InRestore(RestoreAwaiting);
      Took(Send, was);
    }

    method RestoreNeverSent(current: int)
      requires Valid() && pc == InRestore(RestoreMarked(current))
      modifies this`pc, this`history
      ensures Valid() && pc == InRestore(RestoreReported(NEVER_LEFT))
    {
      ghost var was := View();
      pc := InRestore(RestoreReported(NEVER_LEFT));
      Took(Answer(NEVER_LEFT), was);
    }

    method HearRestore(claim: Report) returns (report: Report)
      requires Valid() && pc == InRestore(RestoreAwaiting)
      modifies this`pc, this`history
      ensures Valid() && pc == InRestore(RestoreReported(report))
      ensures RollbackWrite in host.wire && Answerable(host.wire[RollbackWrite], report.outcome)
      ensures report == Hearing(host, RollbackWrite, true, claim)
    {
      SentIsOnTheWire();
      ghost var was := View();
      report := if Answerable(host.wire[RollbackWrite], claim.outcome) then claim else UNKNOWN;
      pc := InRestore(RestoreReported(report));
      Took(Answer(report), was);
    }

    method RecordRestore(report: Report)
      requires Valid() && pc == InRestore(RestoreReported(report)) && row.change.Some?
      modifies this
      ensures Valid() && host == old(host) && flow == old(flow) && pc == InRestore(RestoreRecorded(report))
      ensures row == old(row).(change := Some(old(row).change.value.(rollbackOutcome := Some(report.outcome))))
    {
      ghost var was := View();
      row := row.(change := Some(row.change.value.(rollbackOutcome := Some(report.outcome))));
      pc := InRestore(RestoreRecorded(report));
      Took(Commit, was);
    }

    /** An unknown outcome is admitted; a definite one is worth a reading. */
    method AfterRestore(report: Report)
      requires Valid() && pc == InRestore(RestoreRecorded(report)) && row.change.Some?
      modifies this
      ensures Valid() && host == old(host) && flow == old(flow)
      ensures report.outcome == WriteUnknown ==> row == old(row) && pc == InRestore(Holding(RollbackWriteUnknown))
      ensures report.outcome != WriteUnknown ==>
                row == old(row).(state := RollbackVerifying) && pc == InRestore(Rereading(report))
    {
      ghost var was := View();
      if report.outcome == WriteUnknown {
        pc := InRestore(Holding(RollbackWriteUnknown));
      } else {
        row := row.(state := RollbackVerifying);
        pc := InRestore(Rereading(report));
      }
      Took(Commit, was);
    }

    /** The reading that decides whether the value is back. */
    method Reread(report: Report, o: Observation) returns (reading: Reading)
      requires Valid() && pc == InRestore(Rereading(report)) && row.change.Some?
      modifies this`pc, this`quiet, this`history
      ensures Valid() && pc == InRestore(RestorePc.Reread(report, reading))
      ensures Shows(Given(plan.kind, host, o), row.change.value.before, reading)
      ensures quiet == !Open(host, ApplyWrite)
    {
      ghost var was := View();
      var seen := if Faithful(plan.kind, host, o) then o else NotTaken(false);
      reading := ReadBack(seen, row.change.value.before);
      pc := InRestore(RestorePc.Reread(report, reading));
      quiet := !Open(host, ApplyWrite);
      Took(Observe(seen), was);
    }

    method RecordReread(report: Report, reading: Reading)
      requires Valid() && pc == InRestore(RestorePc.Reread(report, reading)) && row.change.Some?
      modifies this
      ensures Valid() && host == old(host) && flow == old(flow) && pc == InRestore(Rejudged(report, reading))
      ensures row == old(row).(change := Some(old(row).change.value.(rollbackVerification := reading)))
    {
      ghost var was := View();
      row := row.(change := Some(row.change.value.(rollbackVerification := reading)));
      pc := InRestore(Rejudged(report, reading));
      Took(Commit, was);
    }

    method AdmitUnrestored(report: Report, reading: Reading)
      requires Valid() && pc == InRestore(Rejudged(report, reading)) && row.change.Some?
      requires reading.outcome != Verified
      modifies this`pc, this`history
      ensures Valid() && pc == InRestore(Holding(RestoreReason(reading.outcome, report)))
    {
      ghost var was := View();
      pc := InRestore(Holding(RestoreReason(reading.outcome, report)));
      Took(Commit, was);
    }

    /** From here on the Change is admitted as unresolved. */
    method Admit(reason: RecoveryReason)
      requires Valid() && pc == InRestore(Holding(reason)) && row.change.Some?
      modifies this
      ensures Valid() && host == old(host)
      ensures View() == WritePath.Finish(old(View()), RecoveryResult, Some(reason))
    {
      Finish(RecoveryResult, Some(reason));
    }

    lemma CheckpointIsThere()
      requires Valid() && pc.InRestore? && pc.restore.RestoreReady?
      ensures row.checkpoint == Some(Checkpoint(plan.before, plan.desired)) && row.change.Some?
    {
      ValidIsTrue();
      hide Reachable, HostLies, OffCourse;
    }

    /** The judgement on a restoration: proved, or admitted. */
    method JudgeRestoration(report: Report, o: Observation)
      requires Valid() && pc == InRestore(Rereading(report)) && row.change.Some?
      modifies this
      ensures Valid() && row.change.Some? && host == old(host)
      ensures row.guard == old(row).guard
      ensures Shows(Given(plan.kind, host, o), plan.before, row.change.value.rollbackVerification)
      ensures row.state == if Proves(plan.kind, host, o, plan.before) then RolledBack else RecoveryRequired
      ensures row.change.value.reason == if Proves(plan.kind, host, o, plan.before) then None
                                         else Some(WhyUnproved(Given(plan.kind, host, o), report))
      ensures pc == AfterPc(plan, old(flow)) && flow == AfterFlow(plan, old(flow))
      ensures SameOutcome(row, old(row))
    {
      RowsFollowThePlan();
      var reading := Reread(report, o);
      RecordReread(report, reading);
      ShownIsProved(plan.kind, host, o, plan.before, reading);
      if !Proves(plan.kind, host, o, plan.before) {
        ReasonIsShown(Given(plan.kind, host, o), plan.before, reading, report);
      }
      hide Shows, Given, Proves, WhyUnproved;
      EndRestoration(report, reading);
    }

    method EndRestoration(report: Report, reading: Reading)
      requires Valid() && pc == InRestore(Rejudged(report, reading)) && row.change.Some?
      modifies this
      requires row.change.value.rollbackVerification == reading
      ensures Valid() && row.change.Some? && row.guard == old(row).guard && host == old(host)
      ensures row.change.value.rollbackVerification == reading && SameOutcome(row, old(row))
      ensures row.state == if reading.outcome == Verified then RolledBack else RecoveryRequired
      ensures row.change.value.reason == if reading.outcome == Verified then None
                                         else Some(RestoreReason(reading.outcome, report))
      ensures pc == AfterPc(plan, old(flow)) && flow == AfterFlow(plan, old(flow))
    {
      hide WritePath.Finish, AfterFinish;
      if reading.outcome == Verified {
        FinishFacts(View(), RolledBackResult, None);
        Finish(RolledBackResult, None);
      } else {
        var reason := RestoreReason(reading.outcome, report);
        AdmitUnrestored(report, reading);
        FinishFacts(View(), RecoveryResult, Some(reason));
        Admit(reason);
      }
    }

    /** One restoring write, from the value just read to the checkpoint's, with its outcome on
        record. */
    method Restore(current: int, a: Answers) returns (report: Report)
      requires Valid() && pc == InRestore(RestoreReady(current)) && row.change.Some?
      modifies this
      ensures Valid() && row.change.Some? && flow == old(flow)
      ensures report.outcome == WriteUnknown ==> pc == InRestore(Holding(RollbackWriteUnknown))
      ensures report.outcome != WriteUnknown ==> pc == InRestore(Rereading(report))
      ensures row.change.value.rollbackOutcome == Some(report.outcome)
      ensures host == RestoredHost(plan, row.checkpoint, old(host), current, a)
      ensures report == Hearing(host, RollbackWrite, a.restoreSent, a.restored) && SameOutcome(row, old(row))
      ensures row.guard == old(row).guard && row.checkpoint == old(row).checkpoint
      ensures Sent(host, RollbackWrite) == Sent(old(host), RollbackWrite) + if a.restoreSent then 1 else 0
      ensures forall b :: b != RollbackWrite && b != ReversalWrite ==> Sent(host, b) == Sent(old(host), b)
    {
      CheckpointIsThere();
      hide Sent, RestoredHost, Hearing, Valid;
      MarkRestore(current);
      report := DispatchRestore(current, a);
      RecordRestore(report);
      AfterRestore(report);
    }

    /** From the marker to what was heard of it. */
    method DispatchRestore(current: int, a: Answers) returns (report: Report)
      requires Valid() && pc == InRestore(RestoreMarked(current)) && row.checkpoint.Some?
      requires row.checkpoint.value.before == plan.before
      modifies this
      ensures Valid() && row == old(row) && flow == old(flow) && pc == InRestore(RestoreReported(report))
      ensures host == RestoredHost(plan, row.checkpoint, old(host), current, a)
      ensures report == Hearing(host, RollbackWrite, a.restoreSent, a.restored)
      ensures Sent(host, RollbackWrite) == Sent(old(host), RollbackWrite) + if a.restoreSent then 1 else 0
      ensures forall b :: b != RollbackWrite && b != ReversalWrite ==> Sent(host, b) == Sent(old(host), b)
    {
      hide Sent, WritePath.Dispatch, Valid, HostAfter;
      DispatchIsSent(host, RollbackWrite, current, row.checkpoint.value.before);
      if a.restoreSent {
        SendRestore(current);
        Elsewhere(MovesAt(a, 4));
        report := HearRestore(a.restored);
      } else {
        RestoreNeverSent(current);
        report := NEVER_LEFT;
      }
    }

    /** Restores a field from its checkpoint, or admits that it cannot be. */
    method RollBack(a: Answers)
      requires Valid() && pc == InRestore(RestoreStarted) && row.change.Some? && flow == ApplyFlow
      requires plan.kind == FieldChange
      modifies this
      ensures Valid() && row.change.Some? && SameOutcome(row, old(row)) && row.guard == old(row).guard
      ensures host == AfterRestoring(plan, old(row).checkpoint, old(host), a)
      ensures row.change.value.reason == Unrestored(plan, old(row).checkpoint, old(host), a)
      ensures row.state == if row.change.value.reason.None? then RolledBack else RecoveryRequired
      ensures Sent(host, RollbackWrite) <= Sent(old(host), RollbackWrite) + 1
      ensures forall b :: b != RollbackWrite && b != ReversalWrite ==> Sent(host, b) == Sent(old(host), b)
      ensures pc == (if plan.guarded then InApply(Ended) else Idle)
      ensures flow == (if plan.guarded then ApplyFlow else NoFlow)
    {
      hide Sent, HostAfter, UnrestoredFrom, AfterRestoringFrom;
      Elsewhere(MovesAt(a, 3));
      var current, reason := ReadCurrent(a.current);
      if current.None? { AdmitUnread(reason); }
      else { RestoreFrom(current.value, a); }
    }

    /** Without a value to start from nothing is written. */
    method AdmitUnread(reason: RecoveryReason)
      requires Valid() && pc == InRestore(Holding(reason)) && row.change.Some? && flow == ApplyFlow
      modifies this
      ensures Valid() && host == old(host) && SameOutcome(row, old(row)) && row.guard == old(row).guard
      ensures row.state == RecoveryRequired && row.change.value.reason == Some(reason)
      ensures pc == AfterPc(plan, ApplyFlow) && flow == AfterFlow(plan, ApplyFlow)
    {
      FinishFacts(View(), RecoveryResult, Some(reason));
      hide WritePath.Finish;
      Admit(reason);
    }

    /** From the value just read. */
    method RestoreFrom(current: int, a: Answers)
      requires Valid() && pc == InRestore(RestoreReady(current)) && row.change.Some? && flow == ApplyFlow
      modifies this
      ensures Valid() && row.change.Some? && SameOutcome(row, old(row)) && row.guard == old(row).guard
      ensures host == AfterRestoringFrom(plan, old(row).checkpoint, old(host), current, a)
      ensures row.change.value.reason == UnrestoredFrom(plan, old(row).checkpoint, old(host), current, a)
      ensures row.state == if row.change.value.reason.None? then RolledBack else RecoveryRequired
      ensures Sent(host, RollbackWrite) <= Sent(old(host), RollbackWrite) + 1
      ensures forall b :: b != RollbackWrite && b != ReversalWrite ==> Sent(host, b) == Sent(old(host), b)
      ensures pc == AfterPc(plan, ApplyFlow) && flow == AfterFlow(plan, ApplyFlow)
    {
      hide Sent, WritePath.Finish, Hearing, HostAfter, Given, Shows, Proves, WhyUnproved, RestoredHost;
      var report := Restore(current, a);
      if report.outcome == WriteUnknown {
        FinishFacts(View(), RecoveryResult, Some(RollbackWriteUnknown));
        Admit(RollbackWriteUnknown);
      } else {
        Elsewhere(MovesAt(a, 5));
        JudgeRestoration(report, a.reread);
      }
    }

    // ------------------------------------------------------------------------------- apply

    method DisarmEnded(a: Answers) returns (report: GuardReport)
      requires Valid() && pc == InApply(Ended) && flow == ApplyFlow
      modifies this
      ensures Valid() && pc == InApply(Releasing(report)) && flow == ApplyFlow && row == old(row)
      ensures report == Told(old(host), a) && DisarmAnswer(old(host), report, a.late) == Some(host)
    {
      ghost var was := View();
      report := if DisarmAnswer(host, a.released, a.late).Some? then a.released else UNREACHABLE;
      DisarmSettles(host, report, a.late);
      host := DisarmAnswer(host, report, a.late).value;
      pc := InApply(Releasing(report));
      Took(GuardAnswer(report, a.late), was);
    }

    /** A guard that outlived its Run's ending is asked to let go, and what became of it is
        recorded. */
    method ReleaseGuard(a: Answers) returns (report: GuardReport)
      requires Valid() && pc == InApply(Ended) && flow == ApplyFlow
      modifies this
      ensures Valid() && pc == Idle && flow == NoFlow
      ensures report == Told(old(host), a) && DisarmAnswer(old(host), report, a.late) == Some(host)
      ensures old(row).guard.Some? && row == old(row).(guard := Some(SettleGuard(old(row).guard.value, report)))
      ensures row.guard.value.settled == Some(report.phase)
    {
      report := DisarmEnded(a);
      ReleaseIsAccepted(report);
      ghost var was := View();
      row := row.(guard := Some(SettleGuard(row.guard.value, report)));
      pc, flow := Idle, NoFlow;
      Took(Commit, was);
    }

    lemma ReleaseIsAccepted(report: GuardReport)
      requires Valid() && pc == InApply(Releasing(report))
      ensures row.guard.Some? && GuardUpdateAllowed(row.guard, SettleGuard(row.guard.value, report))
      ensures SettleGuard(row.guard.value, report).settled.Some?
    {
      ValidIsTrue();
      ReleasingRows(View(), report);
      hide Valid, Reachable, Astray;
    }

    /** An action nobody proved is admitted as it stands. */
    method AdmitAction(read: Option<Reading>)
      requires Valid() && row.change.Some? && flow == ApplyFlow && plan.kind == ActionChange
      requires pc == Unproven(View(), read).pc
      modifies this
      ensures Valid() && host == old(host) && SameOutcome(row, old(row)) && row.state == RecoveryRequired
      ensures row.guard == old(row).guard && row.change.value.reason == Some(
                match read
                case None => ApplyWriteUnknown
                case Some(r) =>
                  if r.outcome == Mismatch then ActionNotProven
                  else if r.outcome == TargetAbsent then TargetAbsentAfterMutation
                  else ActionVerificationUnavailable)
      ensures pc == AfterPc(plan, ApplyFlow) && flow == AfterFlow(plan, ApplyFlow)
    {
      var reason :=
        match read
        case None => ApplyWriteUnknown
        case Some(r) =>
          if r.outcome == Mismatch then ActionNotProven
          else if r.outcome == TargetAbsent then TargetAbsentAfterMutation
          else ActionVerificationUnavailable;
      FinishFacts(View(), RecoveryResult, Some(reason));
      hide WritePath.Finish, AfterFinish;
      Admit(reason);
    }

    /** Nothing proved: restored, or admitted. */
    method EndUnproven(read: Option<Reading>, ghost report: Report, ghost before: Host, a: Answers)
      requires Valid() && row.change.Some? && flow == ApplyFlow
      requires CommitNext(View()) == Some(Unproven(View(), read))
      requires report.outcome != NotWritten && (read.Some? <==> report.outcome == Written)
      requires host == JudgedHost(plan, row.checkpoint, before, report, a)
      requires read.Some? ==> Shows(Given(plan.kind, host, a.verified), plan.desired, read.value)
      requires read.Some? ==> read.value.outcome != Verified
      modifies this
      ensures Valid() && row.change.Some? && SameOutcome(row, old(row))
      ensures row.change.value.reason == WhyUnconcluded(plan, old(row).checkpoint, before, report, a)
      ensures row.state == if row.change.value.reason.None? then RolledBack else RecoveryRequired
      ensures row.guard == old(row).guard
      ensures host == ConcludedHost(plan, old(row).checkpoint, before, report, a)
      ensures pc == AfterPc(plan, ApplyFlow) && flow == AfterFlow(plan, ApplyFlow)
    {
      if read.Some? { ShownIsProved(plan.kind, host, a.verified, plan.desired, read.value); }
      hide Unrestored, AfterRestoring, HostAfter, SettleGuard;
      OpenUnproven(read);
      if plan.kind == FieldChange {
        hide Shows, Given, Proves;
        RollBack(a);
      } else {
        AdmitAction(read);
      }
    }

    /** The write has been dispatched and answered; what that comes to. */
    method Conclude(report: Report, a: Answers)
      requires Valid() && pc == InApply(Recorded(report)) && row.change.Some? && flow == ApplyFlow
      modifies this
      ensures Valid() && row.change.Some? && row.change.value.outcome == old(row).change.value.outcome
      ensures Concludes(plan, old(row).checkpoint, old(host), report, a, row)
      ensures host == ConcludedHost(plan, old(row).checkpoint, old(host), report, a)
      ensures pc == (if plan.guarded && row.state != Guarded then InApply(Ended) else Idle)
      ensures flow == (if plan.guarded && row.state != Guarded then ApplyFlow else NoFlow)
      ensures row.guard == old(row).guard
    {
      RowsFollowThePlan();
      hide WhyUnconcluded, AfterRestoring, VerifiedHost, WritePath.Finish;
      match report.outcome {
        case NotWritten =>
          FinishFacts(View(), FailedResult, None);
          Finish(FailedResult, None);
        case WriteUnknown => EndUnproven(None, report, host, a);
        case Written => ConcludeWritten(report, a);
      }
    }

    /** Written: a fresh reading decides whether it is what was wanted. */
    method ConcludeWritten(report: Report, a: Answers)
      requires Valid() && pc == InApply(Recorded(report)) && row.change.Some? && flow == ApplyFlow
      requires report.outcome == Written
      modifies this
      ensures Valid() && row.change.Some? && row.change.value.outcome == old(row).change.value.outcome
      ensures Concludes(plan, old(row).checkpoint, old(host), report, a, row)
      ensures host == ConcludedHost(plan, old(row).checkpoint, old(host), report, a)
      ensures pc == (if plan.guarded && row.state != Guarded then InApply(Ended) else Idle)
      ensures flow == (if plan.guarded && row.state != Guarded then ApplyFlow else NoFlow)
      ensures row.guard == old(row).guard
    {
      RowsFollowThePlan();
      ghost var before := host;
      var reading := Verify(report, a);
      ShownIsProved(plan.kind, host, a.verified, plan.desired, reading);
      hide WhyUnconcluded, AfterRestoring, VerifiedHost, Shows, Proves, Given, WritePath.Finish;
      if reading.outcome == Verified { EndProved(reading); }
      else { EndUnproven(Some(reading), report, before, a); }
    }

    /** Proved: the Run succeeds, or waits for the operator's connection to be proved too. */
    method EndProved(reading: Reading)
      requires Valid() && pc == InApply(Judged(reading)) && reading.outcome == Verified && row.change.Some?
      requires flow == ApplyFlow
      modifies this
      ensures Valid() && host == old(host) && pc == Idle && flow == NoFlow && SameOutcome(row, old(row))
      ensures row.state == (if plan.guarded then Guarded else Succeeded) && row.guard == old(row).guard
    {
      if plan.guarded { Hold(reading); }
      else {
        FinishFacts(View(), SucceededResult, None);
        hide WritePath.Finish;
        Finish(SucceededResult, None);
      }
    }

    /** From the consumed confirmation to the boundary; false where the Run ended before it. */
    method Reach(a: Answers) returns (crossed: bool)
      requires Valid() && pc == InApply(Authorised) && flow == ApplyFlow && row.change.None?
      modifies this
      ensures Valid()
      ensures crossed <==> Crosses(plan, old(host), a)
      ensures crossed ==> pc == InApply(Crossed) && flow == ApplyFlow && row.change == Some(NewChange(plan))
      ensures crossed ==> host == CrossedHost(plan, old(host), a) && row.checkpoint == CheckpointOf(plan)
      ensures crossed && plan.guarded ==> row.guard == Some(GuardRow(true, false, None, false, None))
      ensures crossed && plan.guarded ==> host.armWire == Landed(true)
      ensures !crossed ==> pc == Idle && flow == NoFlow && row.state == Failed && row.change.None? && !row.locked
      ensures !a.prepared ==> host == old(host)
      ensures !crossed && a.prepared ==> Ungranted(plan, old(host), a, row, host)
    {
      Prepare(a.prepared);
      if !a.prepared { return false; }
      hide ArmingHost, SettleGuard, AbandonGuard, Told;
      if plan.guarded {
        var armed := ArmGuard(a);
        if !armed { return false; }
      }
      Cross();
      crossed := true;
    }

    /** The gates: the lock, the preview and the confirmation, each of which can only refuse. */
    method Admitted(a: Answers) returns (admitted: bool)
      requires Valid() && pc == Idle && flow == NoFlow && row.change.None?
      modifies this
      ensures Valid() && host == old(host) && row.change.None?
      ensures admitted <==> Appliable(old(row).state) && a.eligible && old(row).confirmation == Granted
      ensures admitted ==> pc == InApply(Authorised) && flow == ApplyFlow && row.confirmation == Consumed && row.locked
      ensures !admitted ==> pc == Idle && flow == NoFlow && row.confirmation == old(row).confirmation
      ensures !admitted && Appliable(old(row).state) ==> !row.locked && Appliable(row.state)
      ensures !Appliable(old(row).state) ==> row == old(row)
    {
      var taken := Acquire();
      if !taken { return false; }
      if !a.eligible {
        GiveUp();
        return false;
      }
      admitted := ConsumeConfirmation();
      if !admitted { GiveUp(); }
    }

    /** Executes the published plan: the only request that writes to a host. A refusal changes
        nothing but the wait for a confirmation; otherwise the Run has ended, or waits under a
        guard that was armed before anything was sent, by what was heard of its write and what was
        seen of it. */
    method Apply(a: Answers) returns (refused: bool)
      requires Valid() && pc == Idle && flow == NoFlow && row.change.None?
      modifies this
      ensures Valid() && pc == Idle && flow == NoFlow
      ensures refused <==> !(old(row).state in {Previewed, AwaitingConfirmation} && a.eligible
                             && old(row).confirmation == Granted)
      ensures refused ==> row.change.None? && host == old(host) && row.confirmation == old(row).confirmation
      ensures !refused ==> (row.change.Some? <==> Crosses(plan, old(host), a))
      ensures !refused && row.change.None? ==>
                && row.state == Failed && !row.locked
                && (if a.prepared then Ungranted(plan, old(host), a, row, host) else host == old(host))
      ensures !refused && row.change.Some? ==>
                var sent := AppliedHost(plan, CheckpointOf(plan), CrossedHost(plan, old(host), a), a);
                var heard := Hearing(sent, ApplyWrite, a.sent, a.report);
                && (row.state in {Succeeded, Guarded}
                    <==> heard.outcome == Written
                         && Proves(plan.kind, VerifiedHost(plan, CheckpointOf(plan), sent, a), a.verified,
                                   plan.desired))
                && (row.state == Guarded ==> plan.guarded)
                && (row.state == Succeeded ==> !plan.guarded)
                && Executed(plan, CrossedHost(plan, old(host), a), a, row, host)
      ensures !refused && plan.guarded && row.change.Some? && row.state != Guarded ==>
                row.guard.Some? && row.guard.value.settled.Some?
    {
      hide Crosses, CrossedHost, Ungranted, Executed, VerifiedHost, Proves, AppliedHost, Hearing;
      var admitted := Admitted(a);
      if !admitted { return true; }
      refused := false;
      var crossed := Reach(a);
      if crossed {
        ghost var before := host;
        Execute(a);
        ExecutedEnds(plan, before, a, row, host);
      }
    }

    /** From the boundary on: the write, what it comes to, and the release of a guard it outlived. */
    method Execute(a: Answers)
      requires Valid() && pc == InApply(Crossed) && flow == ApplyFlow && row.change == Some(NewChange(plan))
      requires row.checkpoint == CheckpointOf(plan)
      requires plan.guarded ==> row.guard == Some(GuardRow(true, false, None, false, None))
      modifies this
      ensures Valid() && pc == Idle && flow == NoFlow && Executed(plan, old(host), a, row, host)
      ensures row.state in {Failed, Succeeded, Guarded, RolledBack, RecoveryRequired}
    {
      hide WhyUnconcluded, ConcludedHost, Told, DisarmAnswer, HostAfter, WriteProved, AppliedHost, Hearing,
        WritePath.Dispatch;
      var report := Dispatch(a);
      Settle(report);
      Conclude(report, a);
      if plan.guarded && row.state != Guarded { var settled := ReleaseGuard(a); }
    }

    // -------------------------------------------------------------------------- keep or lapse

    /** Asks about the guard: releasing it when this request proved the connection, only reading
        otherwise. */
    method AskAboutGuard(proved: bool, a: Answers) returns (report: GuardReport)
      requires Valid() && pc == InKeep(KeepAsking(proved)) && flow == KeepFlow
      modifies this
      ensures Valid() && row == old(row)
      ensures report == Replied(old(host), proved, a) && host == AskedHost(old(host), proved, a)
      ensures proved && report.phase == PhaseDisarmed ==> pc == InKeep(KeepProven) && flow == KeepFlow
      ensures !proved && report.phase == PhaseArmed ==> pc == Idle && flow == NoFlow
      ensures proved ==> report.phase != PhaseArmed
      ensures !(proved && report.phase == PhaseDisarmed) && report.phase != PhaseArmed ==>
                pc == InKeep(Lapsed(report)) && flow == KeepFlow
      ensures report.phase == PhaseFired ==> report.mutation.Some?
    {
      ghost var was := View();
      if proved {
        report := if DisarmAnswer(host, a.released, a.late).Some? then a.released else UNREACHABLE;
        DisarmSettles(host, report, a.late);
        host := DisarmAnswer(host, report, a.late).value;
        pc := InKeep(if report.phase == PhaseDisarmed then KeepProven else Lapsed(report));
      } else {
        report := if HonestReport(host.held, a.released) then a.released else UNREACHABLE;
        if report.phase == PhaseArmed { pc, flow := Idle, NoFlow; } else { pc := InKeep(Lapsed(report)); }
      }
      Took(GuardAnswer(report, a.late), was);
    }

    lemma KeepRowsHold()
      requires Valid() && pc.InKeep?
      ensures row.change.Some? && row.guard.Some?
      ensures pc.keep.KeepProven? ==> row.guard == Some(GuardRow(true, false, None, false, None))
      ensures pc.keep.Lapsed? || pc.keep.LapseOpened? || pc.keep.LapseNoted? ==>
                row.guard == Some(GuardRow(true, false, None, false, None))
    {
      ValidIsTrue();
      hide Reachable, HostLies, OffCourse;
    }

    /** The proof of connection and the guard's release become one row, and the Run succeeds in
        the transaction after it. */
    method Keep()
      requires Valid() && pc == InKeep(KeepProven) && flow == KeepFlow
      modifies this
      ensures Valid() && host == old(host) && pc == Idle && flow == NoFlow
      ensures row.state == Succeeded && !row.locked
      ensures row.guard == Some(GuardRow(true, true, Some(PhaseDisarmed), false, None))
    {
      KeepRowsHold();
      ghost var was := View();
      row := row.(guard := Some(row.guard.value.(kept := true, settled := Some(PhaseDisarmed))));
      pc := InKeep(Kept);
      Took(Commit, was);
      Finish(SucceededResult, None);
    }

    method NoteLapse(report: GuardReport)
      requires Valid() && pc == InKeep(Lapsed(report)) && report.phase == PhaseFired && report.mutation.Some?
      requires row.change.Some? && row.guard.Some?
      modifies this
      ensures Valid() && host == old(host) && flow == old(flow) && pc == InKeep(LapseNoted(report))
      ensures row == old(row).(state := RollingBack,
                               change := Some(old(row).change.value.(
                                                rollbackRequired := true,
                                                rollbackAttempt := Some(ReversalWrite),
                                                rollbackOutcome := Some(report.mutation.value.outcome))))
    {
      ghost var was := View();
      row := row.(state := RollingBack, change := Some(row.change.value.(rollbackRequired := true)));
      pc := InKeep(LapseOpened(report));
      Took(Commit, was);
      was := View();
      row := row.(change := Some(row.change.value.(rollbackAttempt := Some(ReversalWrite),
                                                   rollbackOutcome := Some(report.mutation.value.outcome))));
      pc := InKeep(LapseNoted(report));
      Took(Commit, was);
    }

    method RecordSettlement(report: GuardReport)
      requires Valid() && row.change.Some? && SettlingReport(report)
      requires pc == InKeep(LapseNoted(report)) || (pc == InKeep(Lapsed(report)) && report.phase != PhaseFired)
      requires row.guard == Some(GuardRow(true, false, None, false, None))
      modifies this
      ensures Valid() && host == old(host) && flow == old(flow) && pc == InKeep(LapseSettled(report))
      ensures row == old(row).(guard := Some(SettleGuard(old(row).guard.value, report)))
    {
      ghost var was := View();
      row := row.(guard := Some(SettleGuard(row.guard.value, report)));
      pc := InKeep(LapseSettled(report));
      Took(Commit, was);
    }

    /** Every lapse but a proven reversal is admitted. */
    method AdmitLapse(report: GuardReport) returns (reason: RecoveryReason)
      requires Valid() && pc == InKeep(LapseSettled(report)) && row.change.Some? && row.guard.Some?
      requires !report.Reverted()
      modifies this
      ensures Valid() && host == old(host) && row == old(row) && flow == old(flow) && pc == InRestore(Holding(reason))
      ensures reason == WhyLapsed(report.phase)
    {
      ghost var was := View();
      reason := if report.phase == PhaseLost then GuardLost
                else if report.phase == PhaseDisarmed then GuardReleasedWithoutRecordedProof
                else if report.phase != PhaseFired then GuardUnreachable
                else GuardReversalUnproven;
      pc := InRestore(Holding(reason));
      Took(Commit, was);
    }

    method VerifyReversal(report: GuardReport)
      requires Valid() && pc == InKeep(LapseSettled(report)) && row.change.Some? && row.guard.Some?
      requires report.Reverted()
      modifies this
      ensures Valid() && host == old(host) && flow == old(flow)
      ensures row == old(row).(state := RollbackVerifying) && pc == InRestore(Rereading(report.mutation.value))
    {
      ghost var was := View();
      row := row.(state := RollbackVerifying);
      pc := InRestore(Rereading(report.mutation.value));
      Took(Commit, was);
    }

    /** A guarded change that was not kept, ended from what the guard actually did. */
    method SettleLapsed(report: GuardReport, a: Answers)
      requires Valid() && pc == InKeep(Lapsed(report)) && flow in {KeepFlow, GuardPass}
      requires SettlingReport(report)
      modifies this
      ensures Valid() && LapseIs(row, report, Unreverted(plan, old(row).checkpoint, old(host), report, a))
      ensures host == LapsedHost(plan, old(row).checkpoint, old(host), report, a)
      ensures old(flow) == KeepFlow ==> pc == Idle && flow == NoFlow
      ensures old(flow) == GuardPass ==> pc == InBoot(BootChange) && flow == ChangePass
    {
      hide HostAfter, LapsedHost, Unreverted;
      KeepRowsHold();
      if report.phase == PhaseFired { NoteLapse(report); }
      RecordSettlement(report);
      EndLapsed(report, a);
      EndedRunHasAResult();
    }

    method EndLapsed(report: GuardReport, a: Answers)
      requires Valid() && pc == InKeep(LapseSettled(report)) && flow in {KeepFlow, GuardPass}
      requires row.change.Some? && row.guard.Some?
      modifies this
      ensures Valid() && row.change.Some? && row.guard == old(row).guard
      ensures row.change.value.reason == Unreverted(plan, old(row).checkpoint, old(host), report, a)
      ensures row.state == if row.change.value.reason.None? then RolledBack else RecoveryRequired
      ensures host == LapsedHost(plan, old(row).checkpoint, old(host), report, a)
      ensures pc == AfterPc(plan, old(flow)) && flow == AfterFlow(plan, old(flow))
    {
      hide HostAfter, Proves, Given, WhyUnproved, Shows, WritePath.Finish;
      if report.Reverted() {
        VerifyReversal(report);
        Elsewhere(MovesAt(a, 6));
        JudgeRestoration(report.mutation.value, a.reread);
      } else {
        var reason := AdmitLapse(report);
        FinishFacts(View(), RecoveryResult, Some(reason));
        Admit(reason);
      }
    }

    /** Settles a guarded change from the evidence this request carries. It is kept exactly when the
        request proved the connection and the agent let the guard go; a request that proves nothing
        leaves an armed guard alone. Anything else ends it from what the guard did. */
    method GuardKeep(proved: bool, a: Answers) returns (refused: bool)
      requires Valid() && pc == Idle && flow == NoFlow
      modifies this
      ensures Valid() && pc == Idle && flow == NoFlow
      ensures refused <==> || old(row).state != Guarded || !GuardWaiting(old(row))
                           || (!proved && old(host).held == Armed && a.released == GuardReport(PhaseArmed, None))
      ensures refused ==> row == old(row) && host == old(host)
      ensures !refused ==>
                (row.state == Succeeded
                 <==> proved && a.released == GuardReport(PhaseDisarmed, None)
                      && old(host).held in {Armed, Raised, Disarmed, DisarmedOver})
      ensures !refused && row.state == Succeeded ==>
                && row.guard == Some(GuardRow(true, true, Some(PhaseDisarmed), false, None)) && !row.locked
                && host == old(host).(held := Disarming(old(host).held))
      ensures !refused && row.state != Succeeded ==>
                var report, asked := Replied(old(host), proved, a), AskedHost(old(host), proved, a);
                && LapseIs(row, report, Unreverted(plan, old(row).checkpoint, asked, report, a))
                && host == LapsedHost(plan, old(row).checkpoint, asked, report, a)
    {
      if row.state != Guarded || row.guard.None? || row.guard.value.settled.Some? { return true; }
      LetsGoIff(host, a);
      StillHoldsIff(host, a);
      hide Told, Answered, DisarmAnswer, LapsedHost, Unreverted;
      ghost var was := View();
      pc, flow := InKeep(KeepAsking(proved)), KeepFlow;
      Took(Begin(KeepCall(proved)), was);
      var report := AskAboutGuard(proved, a);
      if report.phase == PhaseArmed { return true; }
      refused := false;
      if proved && report.phase == PhaseDisarmed {
        Keep();
      } else {
        ReportSettles(report);
        SettleLapsed(report, a);
      }
    }

    lemma ReportSettles(report: GuardReport)
      requires Valid() && pc == InKeep(Lapsed(report))
      ensures SettlingReport(report)
    {
      ValidIsTrue();
      hide Reachable, HostLies, OffCourse, RowLies;
    }

    // ------------------------------------------------------------------------------- restarting

    /** The process dies. Nothing but the rows survives it. */
    method Crash()
      requires Valid() && pc != Down
      modifies this`pc, this`flow, this`history
      ensures Valid() && pc == Down && flow == NoFlow
    {
      ghost var was := View();
      pc, flow := Down, NoFlow;
      Took(Die(true), was);
    }

    /** Asks about an unsettled guard, and never releases it. */
    method CollectGuard(a: Answers) returns (report: GuardReport)
      requires Valid() && pc == InBoot(BootGuards) && flow == GuardPass && GuardWaiting(row)
      modifies this`pc, this`flow, this`history
      ensures Valid()
      ensures report == Answered(host, a)
      ensures Outstanding(report) ==> pc == InBoot(BootChange) && flow == ChangePass
      ensures !Outstanding(report) ==>
                flow == GuardPass && SettlingReport(report)
                && pc == if row.state == Guarded && row.change.Some? then InKeep(Lapsed(report))
                         else InBoot(BootGuardSettle(report))
    {
      ghost var was := View();
      report := if HonestReport(host.held, a.released) then a.released else UNREACHABLE;
      if Outstanding(report) {
        pc, flow := InBoot(BootChange), ChangePass;
      } else if row.state == Guarded && row.change.Some? {
        pc := InKeep(Lapsed(report));
      } else {
        pc := InBoot(BootGuardSettle(report));
      }
      Took(GuardAnswer(report, a.late), was);
    }

    lemma BootGuardRow()
      requires Valid() && pc.InBoot? && GuardWaiting(row)
      ensures row.guard.value == GuardRow(row.guard.value.armed, false, None, false, None)
    {
      ValidIsTrue();
      hide Reachable, HostLies, OffCourse;
    }

    /** Records a guard's own account of itself for a Run that is not holding it. The store
        refuses a firing it never knew was armed, and that ends the start-up. */
    method RecordAtStartup(report: GuardReport) returns (accepted: bool)
      requires Valid() && pc == InBoot(BootGuardSettle(report)) && flow == GuardPass && SettlingReport(report)
      requires row.guard.Some? && row.guard.value == GuardRow(row.guard.value.armed, false, None, false, None)
      modifies this
      ensures Valid() && host == old(host)
      ensures accepted <==> report.phase != PhaseFired || old(row).guard.value.armed
      ensures accepted ==>
                pc == InBoot(BootChange) && flow == ChangePass
                && row == old(row).(guard := Some(SettleGuard(old(row).guard.value, report)))
      ensures !accepted ==> pc == Down && flow == NoFlow && row == old(row)
    {
      ghost var was := View();
      accepted := report.phase != PhaseFired || row.guard.value.armed;
      if accepted {
        row := row.(guard := Some(SettleGuard(row.guard.value, report)));
        pc, flow := InBoot(BootChange), ChangePass;
      } else {
        pc, flow := Down, NoFlow;
      }
      Took(Commit, was);
    }

    lemma EndedRunHasAResult()
      requires Valid() && row.change.Some? && row.state in {RolledBack, RecoveryRequired}
      ensures row.change.value.result != InFlight
    {
      ValidIsTrue();
      hide Reachable, HostLies, OffCourse;
    }

    lemma GuardedHasAChange()
      requires Valid()
      ensures row.state == Guarded ==> row.change.Some?
    {
      ValidIsTrue();
      hide Reachable, HostLies, OffCourse;
    }

    /** The guard pass of a start-up. */
    method SettleInterruptedGuard(a: Answers) returns (alive: bool)
      requires Valid() && pc == InBoot(BootGuards) && flow == GuardPass
      modifies this
      ensures Valid()
      ensures alive ==> pc == InBoot(BootChange) && flow == ChangePass
      ensures alive <==> !SettlementRefused(old(row), Answered(old(host), a))
      ensures !alive ==> pc == Down && row == old(row) && host == old(host)
      ensures alive && !LapseIsSettled(old(row), Answered(old(host), a)) ==>
                row == Collected(old(row), Answered(old(host), a)) && host == old(host)
      ensures LapseIsSettled(old(row), Answered(old(host), a)) ==>
                var report := Answered(old(host), a);
                && alive && LapseIs(row, report, Unreverted(plan, old(row).checkpoint, old(host), report, a))
                && host == LapsedHost(plan, old(row).checkpoint, old(host), report, a)
    {
      hide LapsedHost, Unreverted, LapseIs;
      alive := true;
      if row.guard.None? || row.guard.value.settled.Some? {
        ghost var was := View();
        pc, flow := InBoot(BootChange), ChangePass;
        Took(Commit, was);
        return;
      }
      BootGuardRow();
      var report := CollectGuard(a);
      if Outstanding(report) { return; }
      if row.state == Guarded && row.change.Some? {
        KeepRowsHold();
        SettleLapsed(report, a);
      } else {
        GuardedHasAChange();
        alive := RecordAtStartup(report);
      }
    }

    /** The change pass: an outcome nobody recorded is recorded conservatively, and the outcome
        decides the ending. Nothing is written to the host. */
    method SettleInterruptedChange()
      requires Valid() && pc == InBoot(BootChange) && flow == ChangePass
      modifies this
      ensures Valid() && host == old(host) && pc == InBoot(BootRecovery) && flow == ChangePass
      ensures row == SettledChange(plan, old(row))
    {
      ghost var was := View();
      if !Interrupted(row) {
        pc := InBoot(BootRecovery);
        Took(Commit, was);
        return;
      }
      if row.change.value.outcome.None? {
        var outcome := OutcomeOnRecovery(row.change.value.dispatchBegan, None);
        row := row.(effect := HostEffectFor(outcome),
                    change := Some(row.change.value.(outcome := Some(outcome), effect := HostEffectFor(outcome))));
      }
      pc := InBoot(BootConclude);
      Took(Commit, was);
      ConcludeInterrupted();
    }

    method ConcludeInterrupted()
      requires Valid() && pc == InBoot(BootConclude) && flow == ChangePass
      requires row.change.Some? && row.change.value.outcome.Some? && row.change.value.result == InFlight
      modifies this
      ensures Valid() && host == old(host) && pc == InBoot(BootRecovery) && flow == ChangePass
      ensures row == Concluded(plan, old(row))
    {
      var c := row.change.value;
      if c.outcome.value == NotWritten {
        Finish(FailedResult, None);
      } else if c.outcome.value == Written && c.verification.outcome == Verified && !plan.guarded {
        Finish(SucceededResult, None);
      } else {
        ghost var was := View();
        var reason := InterruptionReason(c.outcome.value);
        pc := InRestore(Holding(reason));
        Took(Commit, was);
        Admit(reason);
      }
    }

    /** The recovery pass: an attempt nobody answered for is closed as interrupted. */
    method SettleInterruptedAttempt()
      requires Valid() && pc == InBoot(BootRecovery) && flow == ChangePass
      modifies this
      ensures Valid() && host == old(host) && pc == Idle && flow == NoFlow
      ensures row == SettledAttempts(old(row))
    {
      ghost var was;
      if LastOpen(row.attempts) {
        was := View();
        var last := |row.attempts| - 1;
        row := row.(attempts := row.attempts[last := InterruptedAttempt(row.attempts[last])]);
        Took(Commit, was);
      }
      was := View();
      pc, flow := Idle, NoFlow;
      Took(Commit, was);
    }

    /** A start-up: the three passes, and then requests are served. What the agent says of a guard,
        where it can be asked, decides what the guard pass makes of it. */
    method StartUp(a: Answers) returns (served: bool)
      requires Valid() && pc == Down && flow == NoFlow
      modifies this
      ensures Valid()
      ensures served ==> pc == Idle && flow == NoFlow
      ensures HonestReport(old(host).held, a.released) ==>
                StartedOn(plan, old(row), old(host), a.released, a, served, row, host)
      ensures !HonestReport(old(host).held, a.released) ==>
                StartedOn(plan, old(row), old(host), UNREACHABLE, a, served, row, host)
      ensures !served ==> pc == Down
      ensures served && row.change.Some? && row.change.value.result == InFlight ==> row.state == Guarded
    {
      ghost var was := View();
      ghost var report := Answered(host, a);
      pc, flow := InBoot(BootGuards), GuardPass;
      Took(Begin(StartupCall), was);
      served := SettleInterruptedGuard(a);
      if !served { return; }
      ghost var collected := row;
      SettleInterruptedChange();
      SettleInterruptedAttempt();
      assert row == Restarted(plan, collected);
      ghost var reason := Unreverted(plan, was.row.checkpoint, was.host, report, a);
      hide Restarted, Collected, LapseIs, LapseIsSettled, SettlementRefused, Unreverted, LapsedHost;
      if LapseIs(collected, report, reason) { RestartKeepsLapses(plan, collected, report, reason); }
      if row.change.Some? && row.change.value.result == InFlight { RestartLeavesOnlyGuarded(plan, collected); }
    }

    // ------------------------------------------------------------------------------- recovering

    /** Authority for one retry: only for an open hold whose plan was confirmed by
        acknowledgement, and only one at a time. */
    method RecoveryConfirm(allowed: bool) returns (granted: bool)
      requires Valid() && pc == Idle && flow == NoFlow
      modifies this
      ensures Valid() && pc == Idle && flow == NoFlow && host == old(host)
      ensures granted <==> allowed && HoldOpen(old(row)) && !plan.typed && !old(row).granted
      ensures row == if granted then old(row).(granted := true) else old(row)
    {
      granted := allowed && HoldOpen(row) && !plan.typed && !row.granted;
      if !granted { return; }
      ghost var was := View();
      row := row.(granted := true);
      Took(Begin(GrantCall), was);
    }

    method OpenAttempt()
      requires Valid() && pc == Idle && flow == NoFlow && HoldOpen(row)
      modifies this
      ensures Valid() && host == old(host) && pc == InRecover(RetryOpened) && flow == RecoveryFlow
      ensures row == old(row).(attempts := old(row).attempts + [NewAttempt(RetryAttempt)])
    {
      ghost var was := View();
      row := row.(attempts := row.attempts + [NewAttempt(RetryAttempt)]);
      pc, flow := InRecover(RetryOpened), RecoveryFlow;
      Took(Begin(RetryCall), was);
    }

    /** Replaces the record of the attempt under way. */
    method Rewrite(a: RecoveryAttempt, next: RecoverPc)
      requires Valid() && row.attempts != []
      requires CommitNext(View()) == Some(WithAttempt(View(), a).(pc := InRecover(next)))
      modifies this
      ensures Valid() && host == old(host) && flow == old(flow) && pc == InRecover(next)
      ensures row == old(row).(attempts := old(row).attempts[|old(row).attempts| - 1 := a])
    {
      ghost var was := View();
      CommitIsNext(was, WithAttempt(was, a).(pc := InRecover(next)));
      row := row.(attempts := row.attempts[|row.attempts| - 1 := a]);
      pc := InRecover(next);
      Took(Commit, was);
    }

    /** The first reading, on record before anything is made of it. */
    method GatherEvidence(o: Observation) returns (reading: Reading)
      requires Valid() && pc == InRecover(RetryOpened) && flow == RecoveryFlow
      requires row.change.Some? && row.attempts != []
      modifies this
      ensures Valid() && host == old(host) && flow == RecoveryFlow && pc == InRecover(RetryJudged(reading))
      ensures row == old(row).(attempts := old(row).attempts[|old(row).attempts| - 1
                                             := LastAttempt(old(row)).(evidence := reading)])
      ensures Shows(Given(plan.kind, host, o), row.change.value.desired, reading)
    {
      ghost var was := View();
      var seen := if Faithful(plan.kind, host, o) then o else NotTaken(false);
      reading := ReadBack(seen, row.change.value.desired);
      pc := InRecover(RetryRead(reading));
      Took(Observe(seen), was);
      Rewrite(LastAttempt(row).(evidence := reading), RetryJudged(reading));
    }

    /** Settles the attempt; only a release gives the lock back. */
    method CloseAttempt(ending: AttemptEnding)
      requires Valid() && row.attempts != [] && CommitNext(View()) == Some(EndAttempt(View(), ending))
      modifies this
      ensures Valid() && host == old(host) && pc == Idle && flow == NoFlow
      ensures row == EndAttempt(old(View()), ending).row
    {
      ghost var was := View();
      CommitIsNext(was, EndAttempt(was, ending));
      var last := |row.attempts| - 1;
      row := row.(attempts := row.attempts[last := row.attempts[last].(ending := ending,
                                                                       releases := Releases(ending))]);
      if Releases(ending) { row := row.(locked := false); }
      pc, flow := Idle, NoFlow;
      Took(Commit, was);
    }

    /** The re-plan: whatever the operation would do now has to be what the Change was for. */
    method ReplanRetry(evidence: Reading, allowed: bool, kind: ChangeKind, desired: int) returns (same: bool)
      requires Valid() && pc == InRecover(RetryJudged(evidence)) && evidence.outcome != Verified && row.change.Some?
      modifies this`pc, this`history
      ensures Valid()
      ensures pc == InRecover(if same then RetryPlanned(evidence) else RetryRefusing)
      ensures same <==> Reaims(allowed, row.change.value, evidence, kind, desired)
    {
      ghost var was := View();
      same := false;
      if !allowed {
        pc := InRecover(RetryRefusing);
        Took(Refuse, was);
        return;
      }
      same := kind == row.change.value.kind
              && (kind == FieldChange ==> desired == row.change.value.desired && evidence.value.Some?);
      pc := InRecover(if same then RetryPlanned(evidence) else RetryRefusing);
      Took(Replan(kind, desired), was);
    }

    /** The grant is spent in the transaction that marks the dispatch, or the retry is refused. */
    method SpendGrant(evidence: Reading) returns (spent: bool)
      requires Valid() && pc == InRecover(RetryPlanned(evidence)) && flow == RecoveryFlow
      requires row.change.Some? && row.attempts != []
      modifies this
      ensures Valid() && host == old(host) && flow == RecoveryFlow
      ensures spent == old(row).granted
      ensures spent ==>
                pc == InRecover(RecoverPc.RetryMarked(evidence))
                && row == old(row).(granted := false, spent := old(row).spent + 1,
                                    attempts := old(row).attempts[|old(row).attempts| - 1
                                                  := LastAttempt(old(row)).(dispatchBegan := true)])
      ensures !spent ==> pc == InRecover(RetryRefusing) && row == old(row)
    {
      ghost var was := View();
      spent := row.granted;
      if spent {
        var last := |row.attempts| - 1;
        row := row.(granted := false, spent := row.spent + 1,
                    attempts := row.attempts[last := row.attempts[last].(dispatchBegan := true)]);
        pc := InRecover(RecoverPc.RetryMarked(evidence));
      } else {
        pc := InRecover(RetryRefusing);
      }
      Took(Commit, was);
    }

    /** The retry's write: from the value just read to exactly what the Change was for. */
    method SendRetry(evidence: Reading)
      requires Valid() && pc == InRecover(RecoverPc.RetryMarked(evidence)) && row.change.Some? && row.attempts != []
      modifies this
      ensures Valid() && row == old(row) && flow == old(flow) && pc == InRecover(RetryAwaiting)
      ensures host == WritePath.Dispatch(old(host), RetryWrite(|row.attempts| - 1),
                                         if evidence.value.Some? then evidence.value.value else 0,
                                         row.change.value.desired)
    {
      ghost var was := View();
      host := WritePath.Dispatch(host, RetryWrite(|row.attempts| - 1),
                                 if evidence.value.Some? then evidence.value.value else 0, row.change.value.desired);
      pc := InRecover(RetryAwaiting);
      Took(Send, was);
    }

    method RetryNeverSent(evidence: Reading)
      requires Valid() && pc == InRecover(RecoverPc.RetryMarked(evidence))
      modifies this`pc, this`history
      ensures Valid() && pc == InRecover(RetryReported(NEVER_LEFT))
    {
      ghost var was := View();
      pc := InRecover(RetryReported(NEVER_LEFT));
      Took(Answer(NEVER_LEFT), was);
    }

    method HearRetry(claim: Report) returns (report: Report)
      requires Valid() && pc == InRecover(RetryAwaiting) && row.attempts != []
      modifies this`pc, this`history
      ensures Valid() && pc == InRecover(RetryReported(report))
      ensures RetryWrite(|row.attempts| - 1) in host.wire
              && Answerable(host.wire[RetryWrite(|row.attempts| - 1)], report.outcome)
      ensures report == Hearing(host, RetryWrite(|row.attempts| - 1), true, claim)
    {
      SentIsOnTheWire();
      ghost var was := View();
      var sent := RetryWrite(|row.attempts| - 1);
      report := if Answerable(host.wire[sent], claim.outcome) then claim else UNKNOWN;
      pc := InRecover(RetryReported(report));
      Took(Answer(report), was);
    }

    /** Looks again after a write, and puts what it saw on record. */
    method VerifyRetry(report: Report, o: Observation) returns (reading: Reading)
      requires Valid() && pc == InRecover(RetryRecorded(report)) && report.outcome == Written && flow == RecoveryFlow
      requires row.change.Some? && row.attempts != []
      modifies this
      ensures Valid() && host == old(host) && flow == RecoveryFlow && pc == InRecover(RetryRejudged(reading))
      ensures row == old(row).(attempts := old(row).attempts[|old(row).attempts| - 1
                                             := LastAttempt(old(row)).(verification := reading)])
      ensures Shows(Given(plan.kind, host, o), row.change.value.desired, reading)
    {
      ghost var was := View();
      var seen := if Faithful(plan.kind, host, o) then o else NotTaken(false);
      reading := ReadBack(seen, row.change.value.desired);
      pc := InRecover(RetryReread(reading));
      Took(Observe(seen), was);
      Rewrite(LastAttempt(row).(verification := reading), RetryRejudged(reading));
    }

    /** The retry's dispatch, from the marker to what was heard of it. */
    method DispatchRetry(evidence: Reading, a: Answers) returns (report: Report)
      requires Valid() && pc == InRecover(RecoverPc.RetryMarked(evidence)) && flow == RecoveryFlow
      requires row.change.Some? && row.attempts != []
      modifies this
      ensures Valid() && row == old(row) && flow == RecoveryFlow && pc == InRecover(RetryReported(report))
      ensures host == RetriedHost(plan, row.checkpoint, old(host), |row.attempts| - 1, evidence, a)
      ensures report == Hearing(host, RetryWrite(|row.attempts| - 1), a.sent, a.report)
      ensures forall b :: b != ReversalWrite ==>
                Sent(host, b) == Sent(old(host), b) + if a.sent && b == RetryWrite(|row.attempts| - 1) then 1 else 0
    {
      RowsFollowThePlan();
      hide Sent, HostAfter, WritePath.Dispatch, Valid;
      ghost var n := |row.attempts| - 1;
      DispatchIsSent(host, RetryWrite(n), if evidence.value.Some? then evidence.value.value else 0, plan.desired);
      if a.sent {
        SendRetry(evidence);
        Elsewhere(MovesAt(a, 1));
        report := HearRetry(a.report);
      } else {
        RetryNeverSent(evidence);
        report := NEVER_LEFT;
      }
    }

    method RecordRetry(report: Report)
      requires Valid() && pc == InRecover(RetryReported(report)) && row.change.Some? && row.attempts != []
      modifies this
      ensures Valid() && host == old(host) && flow == old(flow) && pc == InRecover(RetryRecorded(report))
      ensures row == old(row).(attempts := old(row).attempts[|old(row).attempts| - 1
                                             := ReportedAttempt(LastAttempt(old(row)), report)])
    {
      Rewrite(ReportedAttempt(LastAttempt(row), report), RetryRecorded(report));
    }

    /** A retry that wrote nothing, or nobody knows: the hold stays. */
    method CloseUnwritten(report: Report) returns (ending: AttemptEnding)
      requires Valid() && pc == InRecover(RetryRecorded(report)) && report.outcome != Written
      requires row.change.Some? && row.attempts != []
      modifies this
      ensures Valid() && pc == Idle && flow == NoFlow && |row.attempts| == |old(row).attempts|
      ensures row.attempts != [] && LastAttempt(row).ending == ending && row.locked == old(row).locked
      ensures LastAttempt(row).evidence == LastAttempt(old(row)).evidence
      ensures ending == if report.outcome == NotWritten then NotWrittenEnding else WriteUnknownEnding
      ensures host == old(host)
    {
      ending := RecoveryEndingFor(report.outcome, NotAttempted);
      EndAttemptFacts(View(), ending);
      hide EndAttempt;
      CloseAttempt(ending);
    }

    /** A retry that wrote is judged by a reading, and only proof releases the hold. */
    method CloseWritten(report: Report, a: Answers) returns (ending: AttemptEnding)
      requires Valid() && pc == InRecover(RetryRecorded(report)) && report.outcome == Written && flow == RecoveryFlow
      requires row.change.Some? && row.attempts != []
      modifies this
      ensures Valid() && pc == Idle && flow == NoFlow && |row.attempts| == |old(row).attempts|
      ensures row.attempts != [] && LastAttempt(row).ending == ending
      ensures LastAttempt(row).evidence == LastAttempt(old(row)).evidence
      ensures host == VerifiedHost(plan, old(row).checkpoint, old(host), a)
      ensures ending == if Proves(plan.kind, host, a.verified, plan.desired) then VerifiedEnding else NotProvenEnding
      ensures row.locked == (old(row).locked && ending != VerifiedEnding)
      ensures forall b :: b != ReversalWrite ==> Sent(host, b) == Sent(old(host), b)
    {
      RowsFollowThePlan();
      hide HostAfter, Sent;
      Elsewhere(MovesAt(a, 2));
      var reading := VerifyRetry(report, a.verified);
      ShownIsProved(plan.kind, host, a.verified, plan.desired, reading);
      hide Shows, Given, Proves;
      ending := RecoveryEndingFor(Written, reading.outcome);
      EndAttemptFacts(View(), ending);
      hide EndAttempt;
      CloseAttempt(ending);
    }

    /** What a dispatched retry ends on: only a write that a reading proved releases the hold. */
    method ConcludeRetry(report: Report, a: Answers) returns (ending: AttemptEnding)
      requires Valid() && pc == InRecover(RetryRecorded(report)) && flow == RecoveryFlow
      requires row.change.Some? && row.attempts != []
      modifies this
      ensures Valid() && pc == Idle && flow == NoFlow && |row.attempts| == |old(row).attempts|
      ensures row.attempts != [] && LastAttempt(row).ending == ending
      ensures LastAttempt(row).evidence == LastAttempt(old(row)).evidence
      ensures ending == RetryEnds(plan, old(row).checkpoint, old(host), report, a)
      ensures host == if report.outcome == Written then VerifiedHost(plan, old(row).checkpoint, old(host), a)
                      else old(host)
      ensures forall b :: b != ReversalWrite ==> Sent(host, b) == Sent(old(host), b)
      ensures row.locked == (old(row).locked && ending != VerifiedEnding)
    {
      hide Proves, Sent, VerifiedHost;
      if report.outcome == Written { ending := CloseWritten(report, a); }
      else { ending := CloseUnwritten(report); }
    }

    /** The re-plan and the grant together: only a retry that aims at what the Change was for,
        with a grant to spend, gets past here. */
    method Authorise(evidence: Reading, allowed: bool, kind: ChangeKind, desired: int) returns (spent: bool)
      requires Valid() && pc == InRecover(RetryJudged(evidence)) && evidence.outcome != Verified
      requires flow == RecoveryFlow && row.change.Some? && row.attempts != []
      modifies this
      ensures Valid() && host == old(host) && flow == RecoveryFlow
      ensures spent <==> Reaims(allowed, old(row).change.value, evidence, kind, desired) && old(row).granted
      ensures spent ==>
                pc == InRecover(RecoverPc.RetryMarked(evidence))
                && row == old(row).(granted := false, spent := old(row).spent + 1,
                                    attempts := old(row).attempts[|old(row).attempts| - 1
                                                  := LastAttempt(old(row)).(dispatchBegan := true)])
      ensures !spent ==> pc == InRecover(RetryRefusing) && row == old(row)
    {
      spent := ReplanRetry(evidence, allowed, kind, desired);
      if spent { spent := SpendGrant(evidence); }
    }

    /** The dispatch, its outcome and what that comes to. */
    method SendAndConclude(evidence: Reading, a: Answers) returns (ending: AttemptEnding)
      requires Valid() && pc == InRecover(RecoverPc.RetryMarked(evidence)) && flow == RecoveryFlow
      requires row.change.Some? && row.attempts != []
      modifies this
      ensures Valid() && pc == Idle && flow == NoFlow && |row.attempts| == |old(row).attempts|
      ensures row.attempts != [] && LastAttempt(row).ending == ending
      ensures LastAttempt(row).evidence == LastAttempt(old(row)).evidence
      ensures Retried(plan, old(row).checkpoint, old(host), |row.attempts| - 1, evidence, a, ending, host)
      ensures ending !in {ProvenEnding, ResolvedEnding, StillOpen, RefusedEnding}
      ensures row.locked == (old(row).locked && ending != VerifiedEnding)
    {
      hide Sent, VerifiedHost, RetriedHost, Hearing, Valid;
      var report := DispatchRetry(evidence, a);
      RecordRetry(report);
      ending := ConcludeRetry(report, a);
    }

    method Decline()
      requires Valid() && pc == InRecover(RetryRefusing) && row.change.Some? && row.attempts != []
      modifies this
      ensures Valid() && host == old(host) && pc == Idle && flow == NoFlow && |row.attempts| == |old(row).attempts|
      ensures row.attempts != [] && LastAttempt(row).ending == RefusedEnding && row.locked == old(row).locked
      ensures LastAttempt(row).evidence == LastAttempt(old(row)).evidence
      ensures row.spent == old(row).spent && row.granted == old(row).granted
    {
      EndAttemptFacts(View(), RefusedEnding);
      hide EndAttempt;
      CloseAttempt(RefusedEnding);
    }

    /** A retry the first reading did not settle: re-planned, authorised and sent, or refused
        with nothing sent. */
    method RetryUnproven(evidence: Reading, a: Answers, kind: ChangeKind, desired: int) returns (ending: AttemptEnding)
      requires Valid() && pc == InRecover(RetryJudged(evidence)) && evidence.outcome != Verified
      requires flow == RecoveryFlow && row.change.Some? && row.attempts != []
      modifies this
      ensures Valid() && pc == Idle && flow == NoFlow && |row.attempts| == |old(row).attempts|
      ensures row.attempts != [] && LastAttempt(row).ending == ending
      ensures ending !in {ProvenEnding, ResolvedEnding, StillOpen}
      ensures LastAttempt(row).evidence == LastAttempt(old(row)).evidence
      ensures ending != RefusedEnding <==>
                Reaims(a.prepared, old(row).change.value, evidence, kind, desired) && old(row).granted
      ensures ending != RefusedEnding ==>
                Retried(plan, old(row).checkpoint, old(host), |row.attempts| - 1, evidence, a, ending, host)
      ensures row.locked == (old(row).locked && ending != VerifiedEnding)
      ensures ending == RefusedEnding ==>
                host == old(host) && row.spent == old(row).spent && row.granted == old(row).granted
    {
      hide Valid, Reaims, Retried;
      var spent := Authorise(evidence, a.prepared, kind, desired);
      if spent { ending := SendAndConclude(evidence, a); }
      else {
        Decline();
        ending := RefusedEnding;
      }
    }

    /** The target was gone when it was looked up again: the request fails where nothing catches
        it, and leaves its attempt in flight. */
    method Abandon(evidence: Reading)
      requires Valid() && pc == InRecover(RetryJudged(evidence)) && flow == RecoveryFlow
      modifies this`pc, this`flow, this`history
      ensures Valid() && pc == Idle && flow == NoFlow
    {
      ghost var was := View();
      pc, flow := Idle, NoFlow;
      Took(Die(false), was);
    }

    /** A retry the first reading did not settle, from the second look at its target on. */
    method RetryFurther(evidence: Reading, a: Answers, kind: ChangeKind, desired: int) returns (ending: AttemptEnding)
      requires Valid() && pc == InRecover(RetryJudged(evidence)) && evidence.outcome != Verified
      requires flow == RecoveryFlow && row.change.Some? && LastOpen(row.attempts) && row.locked
      modifies this
      ensures Valid() && pc == Idle && flow == NoFlow && |row.attempts| == |old(row).attempts|
      ensures row.attempts != [] && LastAttempt(row).ending == ending && ending !in {ProvenEnding, ResolvedEnding}
      ensures LastAttempt(row).evidence == LastAttempt(old(row)).evidence
      ensures ending == StillOpen <==> !a.found
      ensures ending in {StillOpen, RefusedEnding} <==>
                !(a.found && Reaims(a.prepared, old(row).change.value, evidence, kind, desired) && old(row).granted)
      ensures ending !in {StillOpen, RefusedEnding} ==>
                Retried(plan, old(row).checkpoint, old(host), |row.attempts| - 1, evidence, a, ending, host)
      ensures row.locked == (ending != VerifiedEnding)
      ensures ending in {StillOpen, RefusedEnding} ==>
                host == old(host) && row.spent == old(row).spent && row.granted == old(row).granted
    {
      hide Valid, Reaims, Retried;
      if a.found { ending := RetryUnproven(evidence, a, kind, desired); }
      else {
        Abandon(evidence);
        ending := StillOpen;
      }
    }

    /** The reading proves it: nothing is left to write. */
    method CloseProven(evidence: Reading)
      requires Valid() && pc == InRecover(RetryJudged(evidence)) && evidence.outcome == Verified
      requires row.change.Some? && row.attempts != []
      modifies this
      ensures Valid() && host == old(host) && pc == Idle && flow == NoFlow && |row.attempts| == |old(row).attempts|
      ensures row.attempts != [] && LastAttempt(row).ending == ProvenEnding && !row.locked
      ensures LastAttempt(row).evidence == LastAttempt(old(row)).evidence
      ensures row.spent == old(row).spent && row.granted == old(row).granted
    {
      EndAttemptFacts(View(), ProvenEnding);
      hide EndAttempt;
      CloseAttempt(ProvenEnding);
    }

    /** Tries again for the end state the Change wanted. Proof comes before writing: a reading
        that already proves it ends the hold with nothing sent, and a retry that would aim at
        anything else, or has no grant, sends nothing either. One whose target has gone by then
        does not end at all. One that is authorised ends on what was heard and seen of it. */
    method RecoveryRetry(a: Answers, kind: ChangeKind, desired: int) returns (ending: Option<AttemptEnding>)
      requires Valid() && pc == Idle && flow == NoFlow && row.change.Some?
      modifies this
      ensures Valid() && pc == Idle && flow == NoFlow
      ensures ending.None? <==> !(a.eligible && HoldOpen(old(row)))
      ensures ending.None? ==> row == old(row) && host == old(host)
      ensures ending.Some? ==> |row.attempts| == |old(row).attempts| + 1 && LastAttempt(row).ending == ending.value
      ensures ending.Some? ==>
                && Shows(Given(plan.kind, old(host), a.current), plan.desired, LastAttempt(row).evidence)
                && var proven := Proves(plan.kind, old(host), a.current, plan.desired);
                   var aimed := a.prepared && kind == plan.kind
                                && (kind == FieldChange ==>
                                      desired == plan.desired && a.current == Saw(old(host).link));
                   && (ending == Some(ProvenEnding) <==> proven)
                   && (ending == Some(StillOpen) <==> !proven && !a.found)
                   && (ending == Some(RefusedEnding) <==> !proven && a.found && !(aimed && old(row).granted))
                   && (!proven && a.found && aimed && old(row).granted ==>
                         Retried(plan, old(row).checkpoint, old(host), |old(row).attempts|, LastAttempt(row).evidence,
                                 a, ending.value, host))
      ensures ending.Some? ==> row.locked == (ending.value !in {ProvenEnding, VerifiedEnding})
      ensures ending in {Some(ProvenEnding), Some(RefusedEnding), Some(StillOpen)} ==>
                host == old(host) && row.spent == old(row).spent && row.granted == old(row).granted
    {
      if !a.eligible || !HoldOpen(row) { return None; }
      RowsFollowThePlan();
      assert row.locked;
      hide HoldOpen, Retried, Shows, Given, Proves, EndAttempt;
      OpenAttempt();
      var evidence := GatherEvidence(a.current);
      ShownIsProved(plan.kind, host, a.current, plan.desired, evidence);
      ReadIsShown(plan.kind, host, a.current, plan.desired, evidence);
      var ended := ProvenEnding;
      if evidence.outcome == Verified { CloseProven(evidence); }
      else { ended := RetryFurther(evidence, a, kind, desired); }
      ending := Some(ended);
    }

    /** A person says so: the hold is released and nothing is written, whatever a reading says. */
    method RecoveryResolve(allowed: bool, o: Observation) returns (released: bool)
      requires Valid() && pc == Idle && flow == NoFlow && row.change.Some?
      modifies this
      ensures Valid() && pc == Idle && flow == NoFlow && host == old(host)
      ensures released <==> allowed && HoldOpen(old(row))
      ensures !released ==> row == old(row)
      ensures released ==>
                !row.locked && row.change == old(row).change && row.spent == old(row).spent
                && |row.attempts| == |old(row).attempts| + 1
                && LastAttempt(row).ending == ResolvedEnding && LastAttempt(row).outcome.None?
                && Shows(Given(plan.kind, host, o), plan.desired, LastAttempt(row).evidence)
    {
      if !allowed || !HoldOpen(row) { return false; }
      RowsFollowThePlan();
      hide Shows, Given;
      var evidence := LookBeforeResolving(o);
      ReleaseHold(evidence);
      released := true;
    }

    method LookBeforeResolving(o: Observation) returns (evidence: Reading)
      requires Valid() && pc == Idle && flow == NoFlow && row.change.Some? && HoldOpen(row)
      modifies this`pc, this`flow, this`history
      ensures Valid() && pc == InRecover(Resolvable(evidence)) && flow == RecoveryFlow
      ensures Shows(Given(plan.kind, host, o), row.change.value.desired, evidence)
    {
      ghost var was := View();
      pc, flow := InRecover(Resolving), RecoveryFlow;
      Took(Begin(ResolveCall), was);
      was := View();
      var seen := if Faithful(plan.kind, host, o) then o else NotTaken(false);
      evidence := ReadBack(seen, row.change.value.desired);
      pc := InRecover(Resolvable(evidence));
      Took(Observe(seen), was);
    }

    method ReleaseHold(evidence: Reading)
      requires Valid() && pc == InRecover(Resolvable(evidence)) && HoldOpen(row)
      modifies this
      ensures Valid() && pc == Idle && flow == NoFlow && host == old(host)
      ensures row == old(row).(attempts := old(row).attempts
                                           + [NewAttempt(ResolveAttempt).(
                                                evidence := evidence, ending := ResolvedEnding, releases := true)],
                               locked := false)
    {
      ghost var was := View();
      row := row.(attempts := row.attempts
                              + [NewAttempt(ResolveAttempt).(
                                   evidence := evidence, ending := ResolvedEnding, releases := true)],
                  locked := false);
      pc, flow := Idle, NoFlow;
      Took(Commit, was);
    }
  }

  /** A lapse that was settled stays so. */
  lemma RestartKeepsLapses(p: Preview, row: Row, report: GuardReport, reason: Option<RecoveryReason>)
    requires LapseIs(row, report, reason)
    ensures LapseIs(Restarted(p, row), report, reason)
  {
  }

  /** What a disarm can be answered with settles a guard, and it can always go unanswered. */
  lemma DisarmSettles(h: Host, report: GuardReport, late: bool)
    ensures DisarmAnswer(h, UNREACHABLE, late).Some?
    ensures DisarmAnswer(h, report, late).Some? ==> SettlingReport(report)
  {
  }

  /** The start-up passes over every Run on record, one after another. Each Run's rows become
      what a restart makes of them, whatever order they are taken in, and no host is asked to
      write anything. */
  class Store {
    var plans: map<nat, Preview>
    var rows: map<nat, Row>

    constructor ()
      ensures plans == map[] && rows == map[]
    {
      plans, rows := map[], map[];
    }

    method SettleInterrupted()
      requires plans.Keys == rows.Keys
      modifies this`rows
      ensures rows.Keys == old(rows).Keys
      ensures forall r :: r in rows ==> rows[r] == SettledChange(plans[r], old(rows)[r])
    {
      var left := rows.Keys;
      while left != {}
        invariant left <= rows.Keys == old(rows).Keys
        invariant forall r :: r in left ==> rows[r] == old(rows)[r]
        invariant forall r :: r in rows.Keys - left ==> rows[r] == SettledChange(plans[r], old(rows)[r])
        decreases |left|
      {
        var r :| r in left;
        left := left - {r};
        if Interrupted(rows[r]) {
          var row := rows[r];
          if row.change.value.outcome.None? { row := RecordOutcomeOnRecovery(row); }
          rows := rows[r := Concluded(plans[r], row)];
        }
      }
    }

    method SettleInterruptedRecovery()
      modifies this`rows
      ensures rows.Keys == old(rows).Keys
      ensures forall r :: r in rows ==> rows[r] == SettledAttempts(old(rows)[r])
    {
      var left := rows.Keys;
      while left != {}
        invariant left <= rows.Keys == old(rows).Keys
        invariant forall r :: r in left ==> rows[r] == old(rows)[r]
        invariant forall r :: r in rows.Keys - left ==> rows[r] == SettledAttempts(old(rows)[r])
        decreases |left|
      {
        var r :| r in left;
        left := left - {r};
        if LastOpen(rows[r].attempts) {
          var last := |rows[r].attempts| - 1;
          rows := rows[r := rows[r].(attempts := rows[r].attempts[last := InterruptedAttempt(rows[r].attempts[last])])];
        }
      }
    }

    /** Both passes leave nothing unfinished but what is held under guard, and no attempt open. */
    method Restart()
      requires plans.Keys == rows.Keys && forall r :: r in rows ==> RowHolds(plans[r], rows[r])
      modifies this`rows
      ensures rows.Keys == old(rows).Keys
      ensures forall r :: r in rows ==> rows[r] == Restarted(plans[r], old(rows)[r])
      ensures forall r :: r in rows && rows[r].change.Some? && rows[r].change.value.result == InFlight ==>
                rows[r].state == Guarded
      ensures forall r :: r in rows ==> !AttemptOpen(rows[r])
    {
      SettleInterrupted();
      SettleInterruptedRecovery();
      forall r | r in rows
        ensures rows[r].change.Some? && rows[r].change.value.result == InFlight ==> rows[r].state == Guarded
        ensures !AttemptOpen(rows[r])
      {
        var before := old(rows)[r];
        if rows[r].change.Some? && rows[r].change.value.result == InFlight {
          RestartLeavesOnlyGuarded(plans[r], before);
        }
        RestartLeavesNoAttemptOpen(plans[r], before);
      }
    }
  }
}
