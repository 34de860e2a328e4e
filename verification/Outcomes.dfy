/** The vocabulary every write is recorded in: three outcomes that are never interchangeable,
    what each lets a durable record claim about the host, and how a restart reads a record
    that stops half way. */
module Outcomes {

  datatype Option<+T> = None | Some(value: T)

  /** What became of one dispatched mutation. */
  datatype MutationOutcome = NotWritten | Written | WriteUnknown

  datatype HostEffect = NoEffect | WrittenEffect | UnknownEffect

  /** Whether a fresh reading proved the value that was wanted. */
  datatype Verification =
    | NotAttempted
    | Verified
    | Mismatch
    | ValueUnreadable
    | ObservationUnavailable
    | SourceIncompatible
    | TargetAbsent

  function HostEffectFor(outcome: MutationOutcome): HostEffect {
    match outcome
    case NotWritten => NoEffect
    case Written => WrittenEffect
    case WriteUnknown => UnknownEffect
  }

  /** What a Change means on restart: a recorded outcome is the answer, an unanswered dispatch
      is unknown, and a dispatch that never began is a proof that nothing was written. */
  function OutcomeOnRecovery(dispatchBegan: bool, recorded: Option<MutationOutcome>): MutationOutcome {
    match recorded
    case Some(outcome) => outcome
    case None => if dispatchBegan then WriteUnknown else NotWritten
  }

  /** The meaning of an outcome: what it promises about the number of writes the kernel
      accepted for the attempt it reports on. */
  predicate Sound(outcome: MutationOutcome, accepted: nat) {
    && accepted <= 1
    && (outcome == NotWritten ==> accepted == 0)
    && (outcome == Written ==> accepted == 1)
  }
}
