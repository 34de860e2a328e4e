/** One Run and the part of the host it can reach, as a state machine.

    A step is one committed transaction, one remote answer, or one thing the host does on its
    own. The backend, the agent that holds the connection guard and the privileged helper fail
    independently: a request on the wire outlives the caller that stopped waiting for it, a
    guard may fire at any moment, and the backend may die between any two steps. */
module WritePath {
  import opened Outcomes

  // ------------------------------------------------------------------ the published plan

  datatype ChangeKind = FieldChange | ActionChange

  /** What the plan an operator reviewed fixes for the life of the Run. `typed` is the
      confirmation method it demanded. */
  datatype Preview = Preview(kind: ChangeKind, before: int, desired: int, guarded: bool, typed: bool)

  predicate Published(p: Preview) {
    && (p.kind == FieldChange ==> p.before != p.desired)
    && (p.guarded ==> p.kind == FieldChange && p.typed)
  }

  // ------------------------------------------------------------------------ durable rows

  datatype RunState =
    | Previewed
    | AwaitingConfirmation
    | Arming
    | Applying
    | Verifying
    | Guarded
    | Succeeded
    | Failed
    | RollingBack
    | RollbackVerifying
    | RolledBack
    | RecoveryRequired
    | Cancelled

  datatype Confirmation = Absent | Granted | Consumed

  datatype Checkpoint = Checkpoint(before: int, desired: int)

  /** One fresh reading, judged: the value is kept beside the judgement. */
  datatype Reading = Reading(outcome: Verification, value: Option<int>)

  const NO_READING := Reading(NotAttempted, None)

  datatype GuardPhase = PhaseArming | PhaseArmed | PhaseDisarmed | PhaseFired | PhaseLost | PhaseUnreachable

  /** What the privileged path said about one write. `answered` is false when the transport
      failed before the helper could reply. */
  datatype Report = Report(outcome: MutationOutcome, answered: bool)

  datatype GuardReport = GuardReport(phase: GuardPhase, mutation: Option<Report>) {
    predicate Reverted() {
      phase == PhaseFired && mutation.Some? && mutation.value.outcome == Written
    }
  }

  datatype GuardRow = GuardRow(
    armed: bool,
    kept: bool,
    settled: Option<GuardPhase>,
    fired: bool,
    reversal: Option<MutationOutcome>)

  /** The identity a dispatched write carries to the helper. */
  datatype Attempt = ApplyWrite | RollbackWrite | ReversalWrite | RetryWrite(index: nat)

  datatype ChangeResult = InFlight | SucceededResult | FailedResult | RolledBackResult | RecoveryResult

  datatype RecoveryReason =
    | ApplyWriteUnknown
    | ApplyInterruptedAfterWrite
    | RollbackWriteUnknown
    | RollbackNotDispatched
    | RollbackRefused
    | RollbackVerificationFailed
    | RollbackVerificationUnavailable
    | PreRollbackReadUnavailable
    | TargetAbsentAfterMutation
    | ActionNotProven
    | ActionVerificationUnavailable
    | GuardReversalUnproven
    | GuardLost
    | GuardUnreachable
    | GuardReleasedWithoutRecordedProof

  datatype Change = Change(
    kind: ChangeKind,
    before: int,
    desired: int,
    dispatchBegan: bool,
    outcome: Option<MutationOutcome>,
    effect: HostEffect,
    verification: Reading,
    rollbackRequired: bool,
    rollbackAttempt: Option<Attempt>,
    rollbackOutcome: Option<MutationOutcome>,
    rollbackVerification: Reading,
    result: ChangeResult,
    reason: Option<RecoveryReason>)

  datatype AttemptKind = RetryAttempt | ResolveAttempt

  datatype AttemptEnding =
    | StillOpen
    | ProvenEnding
    | VerifiedEnding
    | NotWrittenEnding
    | WriteUnknownEnding
    | NotProvenEnding
    | RefusedEnding
    | InterruptedEnding
    | ResolvedEnding

  datatype RecoveryAttempt = RecoveryAttempt(
    kind: AttemptKind,
    evidence: Reading,
    dispatchBegan: bool,
    outcome: Option<MutationOutcome>,
    effect: HostEffect,
    verification: Reading,
    ending: AttemptEnding,
    releases: bool)

  /** Everything the store holds about one Run. `locked` says its row is in the lock table;
      `granted` and `spent` count the recovery confirmations waiting and consumed. */
  datatype Row = Row(
    state: RunState,
    effect: HostEffect,
    confirmation: Confirmation,
    checkpoint: Option<Checkpoint>,
    guard: Option<GuardRow>,
    change: Option<Change>,
    locked: bool,
    granted: bool,
    spent: nat,
    attempts: seq<RecoveryAttempt>)

  const NEW_ROW := Row(Previewed, NoEffect, Absent, None, None, None, false, false, 0, [])

  // ------------------------------------------------------------------ the host's own state

  /** Where a dispatched request stands inside the helper: queued, past its comparison with
      the kernel's value, or closed with the kernel's verdict. */
  datatype Stage = Queued | Matched | Closed(accepted: bool)

  datatype Request = Request(expected: int, desired: int, stage: Stage)

  /** The arming request: never sent, on its way, or landed at the agent that did or did not
      take it on. */
  datatype ArmWire = NotAsked | OnItsWay | Landed(taken: bool)

  /** What the agent knows about this Run's guard. One whose own write raised instead of reporting
      stays where it was, marked as fired, until it is disarmed over it. */
  datatype Held = NotHeld | Armed | Firing | Raised | Disarmed | DisarmedOver | Fired(report: Report)

  /** `sends` and `accepted` are histories: every write dispatched, and every write the kernel
      accepted, in order. `foreign` says somebody else has written the link; `start` is the
      value it held when the Run was planned; `raised` says the guard's own write has raised. */
  datatype Host = Host(
    link: int,
    start: int,
    foreign: bool,
    wire: map<Attempt, Request>,
    sends: seq<Attempt>,
    accepted: seq<Attempt>,
    armWire: ArmWire,
    held: Held,
    releaseWire: bool,
    raised: bool)

  predicate Open(h: Host, a: Attempt) {
    a in h.wire && !h.wire[a].stage.Closed?
  }

  predicate Accepted(h: Host, a: Attempt) {
    a in h.wire && h.wire[a].stage == Closed(true)
  }

  /** The answers a caller may be given about a request: the truth once it is closed, and
      "unknown" at any time. */
  predicate Answerable(request: Request, outcome: MutationOutcome) {
    match outcome
    case Written => request.stage == Closed(true)
    case NotWritten => request.stage == Closed(false)
    case WriteUnknown => true
  }

  function Dispatch(h: Host, a: Attempt, expected: int, desired: int): Host {
    h.(wire := h.wire[a := Request(expected, desired, Queued)], sends := h.sends + [a])
  }

  // -------------------------------------------------------------- where the backend stands

  datatype ApplyPc =
    | Acquired
    | Refusing
    | Waiting
    | Authorised
    | Prepared
    | GuardAsked
    | ArmAwaiting
    | GuardTaken
    | GuardReady
    | GuardDeclined
    | GuardAbandoned(guardReport: GuardReport)
    | GuardGivenUp
    | Crossed
    | Marked
    | Awaiting
    | Reported(report: Report)
    | Recorded(report: Report)
    | Observing
    | Observed(reading: Reading)
    | Judged(reading: Reading)
    | Ended
    | Releasing(guardReport: GuardReport)

  datatype RestorePc =
    | RestoreStarted
    | RestoreReady(current: int)
    | RestoreMarked(current: int)
    | RestoreAwaiting
    | RestoreReported(report: Report)
    | RestoreRecorded(report: Report)
    | Rereading(report: Report)
    | Reread(report: Report, reading: Reading)
    | Rejudged(report: Report, reading: Reading)
    | Holding(reason: RecoveryReason)

  datatype KeepPc =
    | KeepAsking(proved: bool)
    | KeepProven
    | Kept
    | Lapsed(lapse: GuardReport)
    | LapseOpened(lapse: GuardReport)
    | LapseNoted(lapse: GuardReport)
    | LapseSettled(lapse: GuardReport)

  datatype BootPc =
    | BootGuards
    | BootGuardSettle(guardReport: GuardReport)
    | BootChange
    | BootConclude
    | BootRecovery

  datatype RecoverPc =
    | RetryOpened
    | RetryRead(evidence: Reading)
    | RetryJudged(evidence: Reading)
    | RetryPlanned(evidence: Reading)
    | RetryRefusing
    | RetryMarked(evidence: Reading)
    | RetryAwaiting
    | RetryReported(report: Report)
    | RetryRecorded(report: Report)
    | RetryReread(reading: Reading)
    | RetryRejudged(reading: Reading)
    | Resolving
    | Resolvable(evidence: Reading)

  datatype Pc =
    | Down
    | Idle
    | InApply(apply: ApplyPc)
    | InRestore(restore: RestorePc)
    | InKeep(keep: KeepPc)
    | InBoot(boot: BootPc)
    | InRecover(recover: RecoverPc)

  /** Which request or restart pass the backend is in the middle of. */
  datatype Flow = NoFlow | ApplyFlow | KeepFlow | GuardPass | ChangePass | RecoveryFlow

  /** `quiet` is a history variable: whether the apply request had closed before the reading
      that judged the restoration was taken. */
  datatype World = World(p: Preview, row: Row, pc: Pc, flow: Flow, quiet: bool, host: Host)

  predicate Init(w: World) {
    && Published(w.p)
    && w.row == NEW_ROW
    && w.pc == Idle
    && w.flow == NoFlow
    && !w.quiet
    && w.host == Host(w.host.start, w.host.start, false, map[], [], [], NotAsked, NotHeld, false, false)
  }

  // ------------------------------------------------------------------------------- events

  /** What the observation path answers: nothing, a reading from another source, a reading
      without a usable value, a value, or a lifecycle state that does or does not prove. */
  datatype Observation =
    | NotTaken(absent: bool)
    | WrongSource
    | Unreadable
    | Saw(seen: int)
    | SawState(proves: bool)

  datatype Call =
    | ConfirmCall
    | CancelCall
    | ApplyCall
    | KeepCall(proved: bool)
    | GrantCall
    | RetryCall
    | ResolveCall
    | StartupCall

  datatype Event =
    | Begin(call: Call)
    | Commit
    | Refuse
    | Observe(observation: Observation)
    | Send
    | Answer(report: Report)
    | ArmAnswer(armed: bool)
    | GuardAnswer(guardReport: GuardReport, lateRelease: bool)
    | Replan(kind: ChangeKind, desired: int)
    | Die(down: bool)
    | HostStep(move: HostMove)

  datatype HostMove =
    | MatchRequest(attempt: Attempt)
    | RejectRequest(attempt: Attempt)
    | AcceptRequest(attempt: Attempt)
    | ArmLands(taken: bool)
    | ReleaseLands
    | Deadline(dispatched: bool)
    | FireReturns(report: Report)
    | FireRaises
    | AgentForgets
    | ForeignWrite(value: int)

  // -------------------------------------------------------------------- host transitions

  /** A disarm takes whatever is still held for a guard that can be released. */
  function Disarming(held: Held): Held {
    if held == Armed then Disarmed else if held == Raised then DisarmedOver else held
  }

  /** One thing the host does on its own, or `None` where it cannot happen now. */
  function HostNext(kind: ChangeKind, checkpoint: Option<Checkpoint>, h: Host, m: HostMove): Option<Host> {
    match m
    case MatchRequest(a) =>
      // The helper's own read: a field write goes on only from the value it expects, and
      // never to the value already there.
      if a in h.wire && h.wire[a].stage == Queued
         && (kind == FieldChange ==> h.link == h.wire[a].expected != h.wire[a].desired) then
        Some(h.(wire := h.wire[a := h.wire[a].(stage := Matched)]))
      else None
    case RejectRequest(a) =>
      if Open(h, a) then Some(h.(wire := h.wire[a := h.wire[a].(stage := Closed(false))])) else None
    case AcceptRequest(a) =>
      if a in h.wire && h.wire[a].stage == Matched then
        Some(h.(
          wire := h.wire[a := h.wire[a].(stage := Closed(true))],
          accepted := h.accepted + [a],
          link := if kind == FieldChange then h.wire[a].desired else h.link))
      else None
    case ArmLands(taken) =>
      if h.armWire == OnItsWay then
        Some(h.(armWire := Landed(taken), held := if taken then Armed else h.held))
      else None
    case ReleaseLands =>
      // A disarm waits for a firing in progress.
      if h.releaseWire && h.held != Firing then
        Some(h.(releaseWire := false, held := Disarming(h.held)))
      else None
    case Deadline(dispatched) =>
      if h.held != Armed || checkpoint.None? then None
      else if dispatched then
        // The reversal expects the value the change leaves behind and writes back the
        // checkpoint's.
        Some(Dispatch(h, ReversalWrite, checkpoint.value.desired, checkpoint.value.before).(held := Firing))
      else Some(h.(held := Fired(Report(NotWritten, false))))
    case FireReturns(report) =>
      if h.held == Firing && ReversalWrite in h.wire && Answerable(h.wire[ReversalWrite], report.outcome) then
        Some(h.(held := Fired(report)))
      else None
    case FireRaises =>
      // Before the reversal left, or after.
      if h.held == Firing || (h.held == Armed && checkpoint.Some?) then Some(h.(held := Raised, raised := true))
      else None
    case AgentForgets => Some(h.(held := NotHeld))
    case ForeignWrite(value) => Some(h.(link := value, foreign := true))
  }

  // -------------------------------------------------------------------------- the reading

  /** A reading through the ordinary observation path, judged against an expected value. */
  function ReadBack(o: Observation, expected: int): Reading {
    match o
    case NotTaken(absent) => Reading(if absent then TargetAbsent else ObservationUnavailable, None)
    case WrongSource => Reading(SourceIncompatible, None)
    case Unreadable => Reading(ValueUnreadable, None)
    case Saw(v) => Reading(if v == expected then Verified else Mismatch, Some(v))
    case SawState(proves) => Reading(if proves then Verified else Mismatch, None)
  }

  /** Readings are honest: a value seen is the value the link holds, and lifecycle states are
      seen of actions only. */
  predicate Faithful(kind: ChangeKind, h: Host, o: Observation) {
    && (o.Saw? ==> kind == FieldChange && o.seen == h.link)
    && (o.SawState? ==> kind == ActionChange)
  }

  // -------------------------------------------------------------------------- the guard row

  /** Recording what became of a guard. */
  function SettleGuard(g: GuardRow, report: GuardReport): GuardRow {
    if report.phase == PhaseFired then
      g.(settled := Some(report.phase), fired := true,
         reversal := Some(if report.mutation.Some? then report.mutation.value.outcome else WriteUnknown))
    else
      g.(settled := Some(report.phase))
  }

  /** The same, for a guard whose arming was refused: one that turns out to be held, or to
      have acted, is recorded as armed after all. */
  function AbandonGuard(g: GuardRow, report: GuardReport): GuardRow {
    SettleGuard(g, report).(armed := g.armed || report.phase == PhaseDisarmed || report.phase == PhaseFired)
  }

  /** The store's CHECKs on a guard row. */
  predicate GuardRowAllowed(g: GuardRow) {
    && (g.settled.Some? ==> g.settled.value in {PhaseDisarmed, PhaseFired, PhaseLost, PhaseUnreachable})
    && (g.settled.Some? ==> g.fired == (g.settled.value == PhaseFired))
    && (g.settled.Some? ==> g.reversal.Some? == (g.settled.value == PhaseFired))
    && (g.settled == Some(PhaseFired) ==> g.armed)
    && (g.kept ==> g.settled == Some(PhaseDisarmed) && g.armed)
  }

  /** An update the store accepts: the row still satisfies its CHECKs, and a settled guard is
      never touched again. */
  predicate GuardUpdateAllowed(was: Option<GuardRow>, now: GuardRow) {
    was.Some? && was.value.settled.None? && GuardRowAllowed(now)
  }

  /** A transaction the store refuses: nothing is written, and the exception ends the request,
      or the whole start-up when it happens there. */
  function Rejected(w: World): World {
    w.(pc := if w.flow in {GuardPass, ChangePass} then Down else Idle, flow := NoFlow)
  }

  function UpdateGuard(w: World, g: GuardRow, next: Pc): World {
    if GuardUpdateAllowed(w.row.guard, g) then w.(row := w.row.(guard := Some(g)), pc := next)
    else Rejected(w)
  }

  // ------------------------------------------------------------------------------ endings

  predicate Appliable(state: RunState) {
    state == Previewed || state == AwaitingConfirmation
  }

  function NewChange(p: Preview): Change {
    Change(p.kind, p.before, p.desired, false, None, NoEffect, NO_READING,
           false, None, None, NO_READING, InFlight, None)
  }

  function NewAttempt(kind: AttemptKind): RecoveryAttempt {
    RecoveryAttempt(kind, NO_READING, false, None, NoEffect, NO_READING, StillOpen, false)
  }

  function StateFor(result: ChangeResult): RunState {
    match result
    case InFlight => Applying
    case SucceededResult => Succeeded
    case FailedResult => Failed
    case RolledBackResult => RolledBack
    case RecoveryResult => RecoveryRequired
  }

  /** Ends the Run and the Change in one transaction. The lock is given up by every ending but
      the one that admits nothing is proved. */
  function FinishRow(row: Row, result: ChangeResult, reason: Option<RecoveryReason>): Row
    requires row.change.Some?
  {
    row.(
      state := StateFor(result),
      effect := row.change.value.effect,
      change := Some(row.change.value.(result := result, reason := reason)),
      locked := row.locked && reason.Some?)
  }

  /** Where the backend goes once a Run has ended: an apply that armed a guard still has to
      release it, and a restart pass goes on to the next pass. */
  function AfterFinish(w: World): World {
    match w.flow
    case ApplyFlow => if w.p.guarded then w.(pc := InApply(Ended)) else w.(pc := Idle, flow := NoFlow)
    case GuardPass => w.(pc := InBoot(BootChange), flow := ChangePass)
    case ChangePass => w.(pc := InBoot(BootRecovery))
    case _ => w.(pc := Idle, flow := NoFlow)
  }

  function Finish(w: World, result: ChangeResult, reason: Option<RecoveryReason>): World
    requires w.row.change.Some?
  {
    AfterFinish(w.(row := FinishRow(w.row, result, reason)))
  }

  function WithChange(w: World, c: Change): World {
    w.(row := w.row.(change := Some(c)))
  }

  /** The host may have moved and the wanted end state is not proved: a field is restored from
      its checkpoint, an action has no inverse and is held. */
  function Unproven(w: World, read: Option<Reading>): World
    requires w.row.change.Some?
  {
    if w.p.kind == FieldChange then
      w.(row := w.row.(state := RollingBack, change := Some(w.row.change.value.(rollbackRequired := true))),
         pc := InRestore(RestoreStarted))
    else
      w.(pc := InRestore(Holding(
        match read
        case None => ApplyWriteUnknown
        case Some(r) =>
          if r.outcome == Mismatch then ActionNotProven
          else if r.outcome == TargetAbsent then TargetAbsentAfterMutation
          else ActionVerificationUnavailable)))
  }

  /** Why a restoration could not be proved, as specifically as the evidence allows. */
  function RestoreReason(outcome: Verification, report: Report): RecoveryReason {
    if outcome == TargetAbsent then TargetAbsentAfterMutation
    else if outcome != Mismatch then RollbackVerificationUnavailable
    else if report.outcome == NotWritten then
      if report.answered then RollbackRefused else RollbackNotDispatched
    else RollbackVerificationFailed
  }

  function RecoveryEndingFor(outcome: MutationOutcome, verification: Verification): AttemptEnding {
    match outcome
    case NotWritten => NotWrittenEnding
    case WriteUnknown => WriteUnknownEnding
    case Written => if verification == Verified then VerifiedEnding else NotProvenEnding
  }

  predicate Releases(ending: AttemptEnding) {
    ending in {ProvenEnding, VerifiedEnding, ResolvedEnding}
  }

  predicate Released(row: Row) {
    exists i :: 0 <= i < |row.attempts| && row.attempts[i].releases
  }

  predicate AttemptOpen(row: Row) {
    exists i :: 0 <= i < |row.attempts| && row.attempts[i].ending == StillOpen
  }

  /** The Change ended in recovery, nobody has released it, its lock is still held, and no
      other recovery attempt is under way. */
  predicate HoldOpen(row: Row) {
    && row.change.Some?
    && row.change.value.result == RecoveryResult
    && !Released(row)
    && row.locked
    && !AttemptOpen(row)
  }

  function LastAttempt(row: Row): RecoveryAttempt
    requires row.attempts != []
  {
    row.attempts[|row.attempts| - 1]
  }

  function WithAttempt(w: World, a: RecoveryAttempt): World
    requires w.row.attempts != []
  {
    w.(row := w.row.(attempts := w.row.attempts[|w.row.attempts| - 1 := a]))
  }

  /** Settles the attempt under way. Only a release gives the lock back. */
  function EndAttempt(w: World, ending: AttemptEnding): World
    requires w.row.attempts != []
  {
    var done := WithAttempt(w, LastAttempt(w.row).(ending := ending, releases := Releases(ending)));
    done.(row := done.row.(locked := done.row.locked && !Releases(ending)), pc := Idle, flow := NoFlow)
  }

  // --------------------------------------------------------------------- backend: requests

  function BeginNext(w: World, call: Call): Option<World> {
    if call == StartupCall then
      if w.pc == Down then Some(w.(pc := InBoot(BootGuards), flow := GuardPass)) else None
    else if w.pc != Idle then None
    else match call
      case ConfirmCall =>
        if Appliable(w.row.state) && w.row.confirmation == Absent then
          Some(w.(row := w.row.(confirmation := Granted)))
        else None
      case CancelCall =>
        if Appliable(w.row.state) then Some(w.(row := w.row.(state := Cancelled))) else None
      case ApplyCall =>
        if Appliable(w.row.state) then
          Some(w.(row := w.row.(locked := true), pc := InApply(Acquired), flow := ApplyFlow))
        else None
      case KeepCall(proved) =>
        if w.row.state == Guarded && w.row.guard.Some? && w.row.guard.value.settled.None? then
          Some(w.(pc := InKeep(KeepAsking(proved)), flow := KeepFlow))
        else None
      case GrantCall =>
        if HoldOpen(w.row) && !w.p.typed && !w.row.granted then
          Some(w.(row := w.row.(granted := true)))
        else None
      case RetryCall =>
        if HoldOpen(w.row) then
          Some(w.(row := w.row.(attempts := w.row.attempts + [NewAttempt(RetryAttempt)]),
                  pc := InRecover(RetryOpened), flow := RecoveryFlow))
        else None
      case ResolveCall =>
        if HoldOpen(w.row) then Some(w.(pc := InRecover(Resolving), flow := RecoveryFlow)) else None
      case StartupCall => None
  }

  // --------------------------------------------------------------- backend: transactions

  /** The Run waits for its confirmation, its lock taken. */
  function Await(w: World): World {
    w.(row := w.row.(state := AwaitingConfirmation), pc := InApply(Waiting))
  }

  /** A refusal before anything was written gives the lock back. */
  function GiveBack(w: World): World {
    w.(row := w.row.(locked := false), pc := Idle, flow := NoFlow)
  }

  /** The grant is consumed: one confirmation authorises one Run, once. */
  function ConsumeConfirmation(w: World): World {
    w.(row := w.row.(confirmation := Consumed,
                     state := if w.p.kind == FieldChange then Arming else w.row.state),
       pc := InApply(Authorised))
  }

  /** The value to restore is durable before anything could need restoring. */
  function WriteCheckpoint(w: World): World {
    w.(row := w.row.(checkpoint := if w.p.kind == FieldChange
                                   then Some(Checkpoint(w.p.before, w.p.desired)) else None),
       pc := InApply(Prepared))
  }

  function RequestGuard(w: World): World {
    w.(row := w.row.(guard := Some(GuardRow(false, false, None, false, None))), pc := InApply(GuardAsked))
  }

  function NoteArmed(w: World): World
    requires w.row.guard.Some?
  {
    UpdateGuard(w, w.row.guard.value.(armed := true), InApply(GuardReady))
  }

  function AbandonArming(w: World, report: GuardReport): World
    requires w.row.guard.Some?
  {
    UpdateGuard(w, AbandonGuard(w.row.guard.value, report), InApply(GuardGivenUp))
  }

  /** The Run ends before the boundary, with no Change. */
  function FailBeforeBoundary(w: World): World {
    w.(row := w.row.(state := Failed, locked := false), pc := Idle, flow := NoFlow)
  }

  /** The mutation boundary: from here on there is a Change. */
  function Cross(w: World): World {
    w.(row := w.row.(state := Applying, change := Some(NewChange(w.p))), pc := InApply(Crossed))
  }

  function MarkDispatch(w: World): World
    requires w.row.change.Some?
  {
    WithChange(w, w.row.change.value.(dispatchBegan := true)).(pc := InApply(Marked))
  }

  function RecordOutcome(w: World, report: Report): World
    requires w.row.change.Some?
  {
    var effect := HostEffectFor(report.outcome);
    w.(row := w.row.(effect := effect,
                     change := Some(w.row.change.value.(outcome := Some(report.outcome), effect := effect))),
       pc := InApply(Recorded(report)))
  }

  function AfterOutcome(w: World, report: Report): World
    requires w.row.change.Some?
  {
    match report.outcome
    case NotWritten => Finish(w, FailedResult, None)
    case Written => w.(row := w.row.(state := RunState.Verifying), pc := InApply(Observing))
    case WriteUnknown => Unproven(w, None)
  }

  function RecordReading(w: World, reading: Reading): World
    requires w.row.change.Some?
  {
    WithChange(w, w.row.change.value.(verification := reading)).(pc := InApply(Judged(reading)))
  }

  function AfterReading(w: World, reading: Reading): World
    requires w.row.change.Some?
  {
    if reading.outcome != Verified then Unproven(w, Some(reading))
    else if w.p.guarded then w.(row := w.row.(state := Guarded), pc := Idle, flow := NoFlow)
    else Finish(w, SucceededResult, None)
  }

  /** A guard that outlived its Run's ending is released and settled. */
  function ReleaseGuard(w: World, report: GuardReport): World
    requires w.row.guard.Some?
  {
    UpdateGuard(w, SettleGuard(w.row.guard.value, report), Idle).(flow := NoFlow)
  }

  function ApplyCommit(w: World, pc: ApplyPc): Option<World> {
    match pc
    case Acquired => Some(Await(w))
    case Refusing => Some(GiveBack(w))
    case Waiting => if w.row.confirmation == Granted then Some(ConsumeConfirmation(w)) else None
    case Authorised => Some(WriteCheckpoint(w))
    case Prepared => Some(if w.p.guarded then RequestGuard(w) else Cross(w))
    case GuardTaken => if w.row.guard.Some? then Some(NoteArmed(w)) else None
    case GuardReady => Some(Cross(w))
    case GuardAbandoned(report) => if w.row.guard.Some? then Some(AbandonArming(w, report)) else None
    case GuardGivenUp => Some(FailBeforeBoundary(w))
    case Crossed => if w.row.change.Some? then Some(MarkDispatch(w)) else None
    case Reported(report) => if w.row.change.Some? then Some(RecordOutcome(w, report)) else None
    case Recorded(report) => if w.row.change.Some? then Some(AfterOutcome(w, report)) else None
    case Observed(reading) => if w.row.change.Some? then Some(RecordReading(w, reading)) else None
    case Judged(reading) => if w.row.change.Some? then Some(AfterReading(w, reading)) else None
    case Releasing(report) => if w.row.guard.Some? then Some(ReleaseGuard(w, report)) else None
    case _ => None
  }

  function MarkRestore(w: World, current: int): World
    requires w.row.change.Some?
  {
    WithChange(w, w.row.change.value.(rollbackAttempt := Some(RollbackWrite))).(pc := InRestore(RestoreMarked(current)))
  }

  function RecordRestore(w: World, report: Report): World
    requires w.row.change.Some?
  {
    WithChange(w, w.row.change.value.(rollbackOutcome := Some(report.outcome)))
      .(pc := InRestore(RestoreRecorded(report)))
  }

  function AfterRestore(w: World, report: Report): World {
    if report.outcome == WriteUnknown then w.(pc := InRestore(Holding(RollbackWriteUnknown)))
    else w.(row := w.row.(state := RollbackVerifying), pc := InRestore(Rereading(report)))
  }

  function RecordReread(w: World, report: Report, reading: Reading): World
    requires w.row.change.Some?
  {
    WithChange(w, w.row.change.value.(rollbackVerification := reading)).(pc := InRestore(Rejudged(report, reading)))
  }

  function AfterReread(w: World, report: Report, reading: Reading): World
    requires w.row.change.Some?
  {
    if reading.outcome == Verified then Finish(w, RolledBackResult, None)
    else w.(pc := InRestore(Holding(RestoreReason(reading.outcome, report))))
  }

  function RestoreCommit(w: World, pc: RestorePc): Option<World> {
    if w.row.change.None? then None
    else
      match pc
      case RestoreReady(current) => Some(MarkRestore(w, current))
      case RestoreReported(report) => Some(RecordRestore(w, report))
      case RestoreRecorded(report) => Some(AfterRestore(w, report))
      case Reread(report, reading) => Some(RecordReread(w, report, reading))
      case Rejudged(report, reading) => Some(AfterReread(w, report, reading))
      case Holding(reason) => Some(Finish(w, RecoveryResult, Some(reason)))
      case _ => None
  }

  /** The proof that the operator is still connected, and the guard's own answer that it let
      go, become one row. */
  function RecordProof(w: World): World
    requires w.row.guard.Some?
  {
    UpdateGuard(w, w.row.guard.value.(kept := true, settled := Some(PhaseDisarmed)), InKeep(Kept))
  }

  function OpenLapse(w: World, report: GuardReport): World
    requires w.row.change.Some?
  {
    w.(row := w.row.(state := RollingBack, change := Some(w.row.change.value.(rollbackRequired := true))),
       pc := InKeep(LapseOpened(report)))
  }

  function SettleLapse(w: World, report: GuardReport): World
    requires w.row.guard.Some?
  {
    UpdateGuard(w, SettleGuard(w.row.guard.value, report), InKeep(LapseSettled(report)))
  }

  function NoteReversal(w: World, report: GuardReport): World
    requires w.row.change.Some? && report.mutation.Some?
  {
    WithChange(w, w.row.change.value.(rollbackAttempt := Some(ReversalWrite),
                                      rollbackOutcome := Some(report.mutation.value.outcome)))
      .(pc := InKeep(LapseNoted(report)))
  }

  /** Only a firing that wrote is worth a reading; everything else is admitted. */
  function ConcludeLapse(w: World, report: GuardReport): World {
    if report.phase == PhaseLost then w.(pc := InRestore(Holding(GuardLost)))
    else if report.phase == PhaseDisarmed then w.(pc := InRestore(Holding(GuardReleasedWithoutRecordedProof)))
    else if report.phase != PhaseFired then w.(pc := InRestore(Holding(GuardUnreachable)))
    else if !report.Reverted() then w.(pc := InRestore(Holding(GuardReversalUnproven)))
    else w.(row := w.row.(state := RollbackVerifying), pc := InRestore(Rereading(report.mutation.value)))
  }

  function KeepCommit(w: World, pc: KeepPc): Option<World> {
    if w.row.change.None? || w.row.guard.None? then None
    else
      match pc
      case KeepProven => Some(RecordProof(w))
      case Kept => Some(Finish(w, SucceededResult, None))
      case Lapsed(report) =>
        Some(if report.phase == PhaseFired && report.mutation.Some? then OpenLapse(w, report)
             else SettleLapse(w, report))
      case LapseOpened(report) => if report.mutation.Some? then Some(NoteReversal(w, report)) else None
      case LapseNoted(report) => Some(SettleLapse(w, report))
      case LapseSettled(report) => Some(ConcludeLapse(w, report))
      case _ => None
  }

  /** The restart pass leaves a Change alone when it has ended, or when its Run is holding a
      guarded change. */
  predicate Interrupted(row: Row) {
    row.change.Some? && row.change.value.result == InFlight && row.state != Guarded
  }

  /** The first half of that pass: an outcome nobody recorded is recorded conservatively, and
      a recorded one is left exactly as it is. */
  function RecordOutcomeOnRecovery(row: Row): Row
    requires row.change.Some?
  {
    var c := row.change.value;
    if c.outcome.Some? then row
    else
      var outcome := OutcomeOnRecovery(c.dispatchBegan, None);
      row.(effect := HostEffectFor(outcome),
           change := Some(c.(outcome := Some(outcome), effect := HostEffectFor(outcome))))
  }

  /** A guard found settled while its Run was not holding a guarded change. */
  function SettleAtBoot(w: World, report: GuardReport): World
    requires w.row.guard.Some?
  {
    var done := UpdateGuard(w, SettleGuard(w.row.guard.value, report), InBoot(BootChange));
    if done.pc == Down then done else done.(flow := ChangePass)
  }

  function RecordAtBoot(w: World): World {
    if Interrupted(w.row) then w.(row := RecordOutcomeOnRecovery(w.row), pc := InBoot(BootConclude))
    else w.(pc := InBoot(BootRecovery))
  }

  /** The second half: the outcome decides the ending. */
  function ConcludeAtBoot(w: World): World
    requires w.row.change.Some? && w.row.change.value.outcome.Some?
  {
    var c := w.row.change.value;
    match c.outcome.value
    case NotWritten => Finish(w, FailedResult, None)
    case Written =>
      if c.verification.outcome == Verified && !w.p.guarded then Finish(w, SucceededResult, None)
      else w.(pc := InRestore(Holding(ApplyInterruptedAfterWrite)))
    case WriteUnknown => w.(pc := InRestore(Holding(ApplyWriteUnknown)))
  }

  /** A recovery attempt nobody answered for. */
  function InterruptedAttempt(a: RecoveryAttempt): RecoveryAttempt {
    var lost := a.outcome.None? && a.dispatchBegan;
    a.(ending := InterruptedEnding,
       outcome := if lost then Some(OutcomeOnRecovery(true, None)) else a.outcome,
       effect := if lost then HostEffectFor(OutcomeOnRecovery(true, None)) else a.effect)
  }

  function BootCommit(w: World, pc: BootPc): Option<World> {
    match pc
    case BootGuards =>
      if w.row.guard.Some? && w.row.guard.value.settled.None? then None
      else Some(w.(pc := InBoot(BootChange), flow := ChangePass))
    case BootGuardSettle(report) => if w.row.guard.Some? then Some(SettleAtBoot(w, report)) else None
    case BootChange => Some(RecordAtBoot(w))
    case BootConclude =>
      if w.row.change.Some? && w.row.change.value.outcome.Some? then Some(ConcludeAtBoot(w)) else None
    case BootRecovery =>
      Some(if w.row.attempts != [] && LastAttempt(w.row).ending == StillOpen then
             WithAttempt(w, InterruptedAttempt(LastAttempt(w.row)))
           else w.(pc := Idle, flow := NoFlow))
  }

  /** The operator says so: the hold is released and nothing is written. */
  function ResolveHold(w: World, evidence: Reading): World {
    if HoldOpen(w.row) then
      w.(row := w.row.(
           attempts := w.row.attempts + [NewAttempt(ResolveAttempt).(
                         evidence := evidence, ending := ResolvedEnding, releases := true)],
           locked := false),
         pc := Idle, flow := NoFlow)
    else w.(pc := Idle, flow := NoFlow)
  }

  function RecordEvidence(w: World, evidence: Reading): World
    requires w.row.attempts != []
  {
    WithAttempt(w, LastAttempt(w.row).(evidence := evidence)).(pc := InRecover(RetryJudged(evidence)))
  }

  /** The recovery confirmation is spent in the transaction that marks the dispatch. */
  function SpendGrant(w: World, evidence: Reading): World
    requires w.row.attempts != []
  {
    if w.row.granted then
      WithAttempt(w.(row := w.row.(granted := false, spent := w.row.spent + 1)),
                  LastAttempt(w.row).(dispatchBegan := true)).(pc := InRecover(RetryMarked(evidence)))
    else w.(pc := InRecover(RetryRefusing))
  }

  function ReportedAttempt(a: RecoveryAttempt, report: Report): RecoveryAttempt {
    a.(outcome := Some(report.outcome), effect := HostEffectFor(report.outcome))
  }

  function RecordRetry(w: World, report: Report): World
    requires w.row.attempts != []
  {
    WithAttempt(w, ReportedAttempt(LastAttempt(w.row), report))
      .(pc := InRecover(RetryRecorded(report)))
  }

  function RecordRetryReading(w: World, reading: Reading): World
    requires w.row.attempts != []
  {
    WithAttempt(w, LastAttempt(w.row).(verification := reading)).(pc := InRecover(RetryRejudged(reading)))
  }

  function RecoverCommit(w: World, pc: RecoverPc): Option<World> {
    if pc.Resolvable? then Some(ResolveHold(w, pc.evidence))
    else if w.row.change.None? || w.row.attempts == [] then None
    else
      match pc
      case RetryRead(evidence) => Some(RecordEvidence(w, evidence))
      case RetryJudged(evidence) =>
        if evidence.outcome == Verified then Some(EndAttempt(w, ProvenEnding)) else None
      case RetryPlanned(evidence) => Some(SpendGrant(w, evidence))
      case RetryRefusing => Some(EndAttempt(w, RefusedEnding))
      case RetryReported(report) => Some(RecordRetry(w, report))
      case RetryRecorded(report) =>
        if report.outcome == Written then None
        else Some(EndAttempt(w, RecoveryEndingFor(report.outcome, NotAttempted)))
      case RetryReread(reading) => Some(RecordRetryReading(w, reading))
      case RetryRejudged(reading) => Some(EndAttempt(w, RecoveryEndingFor(Written, reading.outcome)))
      case _ => None
  }

  function CommitNext(w: World): Option<World> {
    match w.pc
    case InApply(pc) => ApplyCommit(w, pc)
    case InRestore(pc) => RestoreCommit(w, pc)
    case InKeep(pc) => KeepCommit(w, pc)
    case InBoot(pc) => BootCommit(w, pc)
    case InRecover(pc) => RecoverCommit(w, pc)
    case Down => None
    case Idle => None
  }

  /** The gates that may refuse before anything is written. */
  function RefuseNext(w: World): Option<World> {
    match w.pc
    case InApply(Acquired) => Some(w.(pc := InApply(Refusing)))
    case InApply(Waiting) => Some(w.(pc := InApply(Refusing)))
    case InApply(Authorised) => Some(FailBeforeBoundary(w))
    case InRecover(RetryJudged(evidence)) =>
      if evidence.outcome == Verified then None else Some(w.(pc := InRecover(RetryRefusing)))
    case InRecover(RetryPlanned(evidence)) => Some(w.(pc := InRecover(RetryRefusing)))
    case _ => None
  }

  /** A fresh reading arrives, wherever the backend is waiting for one. */
  function ObserveNext(w: World, o: Observation): Option<World> {
    if !Faithful(w.p.kind, w.host, o) || w.row.change.None? then None
    else
      var c := w.row.change.value;
      match w.pc
      case InApply(Observing) => Some(w.(pc := InApply(Observed(ReadBack(o, c.desired)))))
      case InRestore(RestoreStarted) =>
        var r := ReadBack(o, c.before);
        Some(w.(pc := InRestore(
          match r.value
          case Some(v) => RestoreReady(v)
          case None => Holding(if r.outcome == TargetAbsent then TargetAbsentAfterMutation
                               else PreRollbackReadUnavailable))))
      case InRestore(Rereading(report)) =>
        Some(w.(pc := InRestore(Reread(report, ReadBack(o, c.before))), quiet := !Open(w.host, ApplyWrite)))
      case InRecover(RetryOpened) => Some(w.(pc := InRecover(RetryRead(ReadBack(o, c.desired)))))
      case InRecover(RetryRecorded(report)) =>
        if report.outcome == Written then Some(w.(pc := InRecover(RetryReread(ReadBack(o, c.desired))))) else None
      case InRecover(Resolving) => Some(w.(pc := InRecover(Resolvable(ReadBack(o, c.desired)))))
      case _ => None
  }

  /** The request leaves the backend. What it carries comes from the durable rows. */
  function SendNext(w: World): Option<World> {
    match w.pc
    case InApply(Marked) =>
      if w.row.change.None? then None
      else Some(w.(host := Dispatch(w.host, ApplyWrite, w.row.change.value.before, w.row.change.value.desired),
                   pc := InApply(Awaiting)))
    case InApply(GuardAsked) => Some(w.(host := w.host.(armWire := OnItsWay), pc := InApply(ArmAwaiting)))
    case InRestore(RestoreMarked(current)) =>
      if w.row.checkpoint.None? then None
      else Some(w.(host := Dispatch(w.host, RollbackWrite, current, w.row.checkpoint.value.before),
                   pc := InRestore(RestoreAwaiting)))
    case InRecover(RetryMarked(evidence)) =>
      if w.row.change.None? || w.row.attempts == [] then None
      else Some(w.(host := Dispatch(w.host, RetryWrite(|w.row.attempts| - 1),
                                    if evidence.value.Some? then evidence.value.value else 0,
                                    w.row.change.value.desired),
                   pc := InRecover(RetryAwaiting)))
    case _ => None
  }

  /** What the caller of a write is told. Before the request has left, the only possible
      answer is the proof that it never did. */
  function AnswerNext(w: World, report: Report): Option<World> {
    var neverLeft := report == Report(NotWritten, false);
    match w.pc
    case InApply(Marked) => if neverLeft then Some(w.(pc := InApply(Reported(report)))) else None
    case InApply(Awaiting) =>
      if ApplyWrite in w.host.wire && Answerable(w.host.wire[ApplyWrite], report.outcome) then
        Some(w.(pc := InApply(Reported(report))))
      else None
    case InRestore(RestoreMarked(current)) =>
      if neverLeft then Some(w.(pc := InRestore(RestoreReported(report)))) else None
    case InRestore(RestoreAwaiting) =>
      if RollbackWrite in w.host.wire && Answerable(w.host.wire[RollbackWrite], report.outcome) then
        Some(w.(pc := InRestore(RestoreReported(report))))
      else None
    case InRecover(RetryMarked(evidence)) =>
      if neverLeft then Some(w.(pc := InRecover(RetryReported(report)))) else None
    case InRecover(RetryAwaiting) =>
      if w.row.attempts != [] then
        var a := RetryWrite(|w.row.attempts| - 1);
        if a in w.host.wire && Answerable(w.host.wire[a], report.outcome) then
          Some(w.(pc := InRecover(RetryReported(report))))
        else None
      else None
    case _ => None
  }

  /** The arming request is answered. Only an answer that says a guard is held is one. */
  function ArmAnswerNext(w: World, armed: bool): Option<World> {
    match w.pc
    case InApply(GuardAsked) => if armed then None else Some(w.(pc := InApply(GuardDeclined)))
    case InApply(ArmAwaiting) =>
      if !armed then Some(w.(pc := InApply(GuardDeclined)))
      else if w.host.armWire == Landed(true) then Some(w.(pc := InApply(GuardTaken)))
      else None
    case _ => None
  }

  /** The honest answer to a question about the guard. An outcome the backend cannot read, or that
      is not there, is reported as unknown; a guard disarmed over a write of its own that raised is
      reported as disarmed. */
  predicate HonestReport(held: Held, report: GuardReport) {
    match held
    case NotHeld => report == GuardReport(PhaseLost, None)
    case Armed => report == GuardReport(PhaseArmed, None)
    case Firing => false
    case Raised => report.phase == PhaseFired && report.mutation.Some? && report.mutation.value.outcome == WriteUnknown
    case Disarmed => report == GuardReport(PhaseDisarmed, None)
    case DisarmedOver => report == GuardReport(PhaseDisarmed, None)
    case Fired(r) =>
      && report.phase == PhaseFired
      && report.mutation.Some?
      && (report.mutation.value == r || report.mutation.value.outcome == WriteUnknown)
  }

  /** A disarm, answered: a guard still holding is released by it. A disarm that could not be
      answered may still arrive later. */
  function DisarmAnswer(h: Host, report: GuardReport, lateRelease: bool): Option<Host> {
    if report == GuardReport(PhaseUnreachable, None) then Some(h.(releaseWire := h.releaseWire || lateRelease))
    else
      var after := h.(held := Disarming(h.held));
      if HonestReport(after.held, report) then Some(after) else None
  }

  function GuardAnswerNext(w: World, report: GuardReport, lateRelease: bool): Option<World> {
    var unreachable := report == GuardReport(PhaseUnreachable, None);
    match w.pc
    case InApply(GuardDeclined) =>
      (match DisarmAnswer(w.host, report, lateRelease)
       case None => None
       case Some(h) => Some(w.(host := h, pc := InApply(GuardAbandoned(report)))))
    case InApply(Ended) =>
      (match DisarmAnswer(w.host, report, lateRelease)
       case None => None
       case Some(h) => Some(w.(host := h, pc := InApply(Releasing(report)))))
    case InKeep(KeepAsking(proved)) =>
      if proved then
        (match DisarmAnswer(w.host, report, lateRelease)
         case None => None
         case Some(h) =>
           Some(w.(host := h, pc := InKeep(if report.phase == PhaseDisarmed then KeepProven else Lapsed(report)))))
      else if !unreachable && !HonestReport(w.host.held, report) then None
      else if report.phase == PhaseArmed then Some(w.(pc := Idle, flow := NoFlow))
      else Some(w.(pc := InKeep(Lapsed(report))))
    case InBoot(BootGuards) =>
      if w.row.guard.None? || w.row.guard.value.settled.Some? then None
      else if !unreachable && !HonestReport(w.host.held, report) then None
      else if report.phase in {PhaseArming, PhaseArmed, PhaseUnreachable} then
        Some(w.(pc := InBoot(BootChange), flow := ChangePass))
      else if w.row.state == Guarded && w.row.change.Some? then Some(w.(pc := InKeep(Lapsed(report))))
      else Some(w.(pc := InBoot(BootGuardSettle(report))))
    case _ => None
  }

  /** What the operation would do now is compared with what the Change was for; anything else
      is refused rather than substituted. */
  function ReplanNext(w: World, kind: ChangeKind, desired: int): Option<World> {
    match w.pc
    case InRecover(RetryJudged(evidence)) =>
      if evidence.outcome == Verified || w.row.change.None? then None
      else if kind != w.row.change.value.kind || (kind == FieldChange && desired != w.row.change.value.desired) then
        Some(w.(pc := InRecover(RetryRefusing)))
      else if kind == FieldChange && evidence.value.None? then Some(w.(pc := InRecover(RetryRefusing)))
      else Some(w.(pc := InRecover(RetryPlanned(evidence))))
    case _ => None
  }

  /** The thread serving a request dies, or the whole backend does. Only the rows survive. */
  function DieNext(w: World, down: bool): Option<World> {
    if w.pc == Down then None
    else if !down && w.flow in {GuardPass, ChangePass} then None
    else Some(w.(pc := if down then Down else Idle, flow := NoFlow))
  }

  function HostMoveNext(w: World, m: HostMove): Option<World> {
    match HostNext(w.p.kind, w.row.checkpoint, w.host, m)
    case None => None
    case Some(h) => Some(w.(host := h))
  }

  /** The step an event takes from a world, or `None` where it cannot happen. */
  function Next(w: World, e: Event): Option<World> {
    match e
    case Begin(call) => BeginNext(w, call)
    case Commit => CommitNext(w)
    case Refuse => RefuseNext(w)
    case Observe(o) => ObserveNext(w, o)
    case Send => SendNext(w)
    case Answer(report) => AnswerNext(w, report)
    case ArmAnswer(armed) => ArmAnswerNext(w, armed)
    case GuardAnswer(report, late) => GuardAnswerNext(w, report, late)
    case Replan(kind, desired) => ReplanNext(w, kind, desired)
    case Die(down) => DieNext(w, down)
    case HostStep(m) => HostMoveNext(w, m)
  }

  /** `w` reaches `w'` by exactly these events. */
  predicate Runs(w: World, es: seq<Event>, w': World)
    decreases |es|
  {
    if es == [] then w == w'
    else Next(w, es[0]).Some? && Runs(Next(w, es[0]).value, es[1..], w')
  }

  ghost predicate Reachable(w: World) {
    exists w0, es :: Init(w0) && Runs(w0, es, w)
  }
}
