# LocalPlane write path: a Dafny model and its proofs

LocalPlane changes one controlled value on a host through four parties that fail independently:

- the backend, whose `ChangeService` moves a Run and its Change through small transactions and may
  die between any two of them;
- the agent, whose guard registry can hold a reversal and fire it on a deadline of its own;
- the privileged helper, which remembers attempts, compares the kernel's value with the expected
  one, and writes;
- the kernel link, which holds the value.

The design rests on a three-valued outcome (`not_written`, `written`, `write_unknown`) that has to
stay true across all of them. This project models that machine and proves what the outcome and the
endings promise, over every run, with crashes, lost answers, stragglers and late firings anywhere.

## How it is built

| file | what it holds |
|---|---|
| `WritePath.dfy` | one Run, its rows, its place in the program, the wire, the helper, the agent and the link, as a state machine; one step is one committed transaction, one remote answer, or one thing the host does on its own |
| `WritePathInvariant`, `WritePathRows`, `WritePathHost`, `WritePathLink`, `WritePathFrames` | the inductive invariants and their preservation: rows, truth about the host, the value on the link |
| `WritePathTheorems`, `WritePathStragglers`, `WritePathAuthority`, `WritePathRestart`, `WritePathGuardPass` | what endings mean and that they last, and what a record alone is worth; who may write, and how often; what a restart does, its guard pass included |
| `WritePathLimits`, `WritePathRuns` | where the code does less than it says: exact conditions, and concrete runs |
| `WriteLocks.dfy`, `WriteLocksRuns.dfy` | many Runs over shared links and locks; a concrete run of two |
| `ChangeService.dfy` | the service as it runs, in place, transaction by transaction; `Valid()` says that everything that has happened is a run of the machine, so every theorem above holds at every method boundary, and `Crash` may follow any of its transactions |
| `GuardRegistry.dfy` | the agent's registry, its history, and its agreement with what the machine assumes of an agent |
| `Netlink.dfy`, `MtuSetter.dfy`, `HelperService.dfy` | the bytes to and from the kernel, the compare-then-write, the attempt memory |
| `LineIpc.dfy`, `ThreeHops.dfy` | framing, envelopes, `call`, and outcome soundness from the kernel's bytes to the backend's record |
| `Management.dfy` | intent versions and drift findings |
| `RuntimeOwner.dfy` | the runtime-owner scan and its handles |

`dafny verify dfyconfig.toml` checks everything.

## What is assumed

- Requests for the same Run do not overlap; requests for different Runs interleave freely.
- Where an honest answer is a `Written` or `NotWritten`, the request has closed inside the helper
  with that verdict. A caller may be told "unknown" at any time, and its request lives on: the
  helper serves each connection on a thread of its own (`src/localplane/ipc.py:372`), and a socket
  that times out does not recall what was sent. Requests are handled one at a time only in
  `HelperService`, which is about the attempt memory.
- `write_message` is atomic: a request that has not been written completely is not read.
- Attempt and guard identifiers are fresh. The agent answers `disarmed` with its holder's name.
- A reading is honest: a value seen is the value the link holds at that moment. That it came from
  the planned source is checked by the model as the code checks it.
- Integers in netlink frames are little-endian, sequence numbers stay below 2^32, text is one byte
  a character. JSON text is a pair of functions, encode and decode, assumed only to read back what
  was written and to write no raw newline.
- What the outside will answer (the kernel, the daemon, the sockets, eligibility, the clock's
  deadlines) is a parameter or an event; nothing about it is fixed. In `ChangeService` it is
  `Answers`; one that could not be given where it is asked for is replaced by the one that always
  can be (no reading, unknown, unreachable), and every other is the one that is heard.

## Where the code and its own words disagree

The model follows the code. Each of these is proved with the exact condition under which it happens
and with a concrete run in which it does.

- `ROLLED_BACK` need not last. After `write_unknown` the apply may still be inside the helper; it
  expects the very value the rollback has just put back. `RestorationIsFinalIff` and
  `RolledBackLeavesBeforeIff` give the exact conditions, `RecordIsFinalIff` what the record alone
  settles, `RolledBackUnderAStraggler` the run. The sentence at
  `src/localplane/backend/changes.py:1492-1494` that the privileged path serialises the two
  mechanisms is not what the helper does.
- A lock does not order the helper's queue: what an ended Run left unanswered may still be accepted
  while another Run holds the target. `InterferenceIff`, and `InterferenceExists` for the run.
- "Everything after this line can therefore assume that ... something on the host will put the
  value back" (`src/localplane/backend/changes.py:545-548`) is false when the window lapses between
  arming and dispatch: the guard fires, is refused, and the change is applied unprotected.
  `ProtectedIff`, `UnprotectedRunExists`.
- A crash between the agent's answer and the commit that notes the arming, followed by a lapse,
  makes `settle_interrupted_guards` violate the store's CHECK on every start
  (`src/localplane/backend/db/migrations/0010_connection_guard.sql:661`). `StartUpStopsIff`,
  `StartUpKeepsFailing`, `UnrecordedFiringIsReachable`. `_abandon_guard` handles the same case.
- `_keep` settles the guard and finishes the Run in two transactions. A crash between them leaves a
  Run `GUARDED` for ever: the request refuses a settled guard and the restart passes skip a guarded
  Run. `GuardedCanEndIff`, `StrandedRunExists`.
- `_settle_lapsed` records a lapse in several transactions, and a restart that finds them half
  done does not take them up: a reversal that was written, and whose reading would have proved it,
  ends as `apply_interrupted_after_write`. `GuardedRestartIff`, `CutLapseExists`.
- `recovery_retry` looks its target up a second time outside the block that settles refusals
  (`src/localplane/backend/changes.py:1984`). If it is gone by then the attempt stays in flight, and
  until the next start-up nobody can retry, confirm or resolve. `RecoveryRetry` says exactly when,
  `LeftOpenClosesTheHold` what follows, `AbandonedRetryExists` that it happens.
- A guarded plan is always confirmed by typing, and a retry may only be confirmed by
  acknowledgement, so no retry of a guarded change can ever be authorised.
  `HoldsAreRetriedIff`, `HeldGuardedChangeExists`.
- A guard whose write raises stays held, marked fired and without an outcome, and disarming it
  afterwards reports it as disarmed. `FiredWithoutOutcomeIff` and `DisarmHidesAJammedWriteIff`, over
  histories; `DisarmHidesAJammedWrite` for both.
- What that costs a Run: an operator who keeps the change then is told `SUCCEEDED`, while the
  reversal may have been accepted already or still be inside the helper. `SucceededLeavesDesiredIff`
  and `SuccessIsFinalIff` give the exact conditions, `KeptAndRevertedExists` the run. Without a raise
  neither happens.
- An error message from the kernel that is too short to hold its code, or whose code is
  -0x80000000 and so has no opposite that `os.strerror` takes
  (`src/localplane/helper/mtu.py:258`), raises out of the helper before the attempt is remembered, so
  the same attempt can reach the kernel again. `ReachesTheKernelIff`, `RaisedIsRepeated`, and
  `WrittenIff` and `UnreadableQueryIff` for when that is; `ShortErrorCannotBeRead` and
  `LeastCodeCannotBeRead` for the bytes.


## Model

| member | source | states |
|---|---|---|
| `WritePathTheorems.TruthfulEndings` | src/localplane/backend/changes.py:553-583 | at every reachable state: SUCCEEDED means the kernel accepted exactly one apply, a fresh reading proved it and, if guarded, the guard was kept, can never act again and, unless its own write raised, never did; FAILED means the kernel accepted none; ROLLED_BACK means a reading proved the before-value; CANCELLED means there is no Change and nothing was ever sent |
| `WritePathTheorems.EndingsAreFinal` | src/localplane/backend/changes.py:1745-1771 | whatever follows an ending (crashes, restarts, late firings, recovery), what the Change recorded is never rewritten |
| `WritePathTheorems.SucceededLeavesDesiredIff` | src/localplane/backend/changes.py:690-714 | while nobody else writes the link, a succeeded change leaves it at the desired value if and only if the apply was the last write accepted, and a reversal was sent only if the guard's own write raised |
| `WritePathTheorems.SuccessIsFinalIff` | src/localplane/backend/changes.py:641-714 | a succeeded change keeps its value in every continuation without a foreign write if and only if the link holds it now and no reversal is open inside the helper; without a raise in the guard's own write it always does |
| `WritePathTheorems.KeptAndRevertedExists` | src/localplane/agent/guard.py:203-267 | a concrete run in which the reversal leaves, the write raises, the guard is disarmed over it, the Run is kept and SUCCEEDED, and the reversal lands |
| `WritePathTheorems.FailedLeavesBefore` | src/localplane/backend/changes.py:557-561 | a failed change leaves the link at the value it was planned from |
| `WritePathTheorems.RolledBackLeavesBeforeIff` | src/localplane/backend/changes.py:1647-1722 | a rolled-back change leaves the checkpoint's value, while nobody else writes, if and only if no write was accepted or the last accepted one was not the apply |
| `WritePathTheorems.RolledBackLeavesBefore` | src/localplane/backend/changes.py:1647-1722 | whenever the apply is on record as written it had closed before the proving reading, and whenever it had closed by then the link holds the checkpoint's value |
| `WritePathLink.ReachableLastWrite` | src/localplane/backend/changes.py:1279-1317 | at every reachable state without a foreign write the link holds what the last accepted write put there, and a proven restoration with no write accepted proves the start value |
| `WritePathTheorems.RestorationIsFinalIff` | src/localplane/backend/changes.py:1706-1720 | a rolled-back change stays restored in every continuation without a foreign write if and only if the link holds the before-value now and the apply request is no longer open inside the helper |
| `WritePathTheorems.KnownWritesAreRestoredForGood` | src/localplane/backend/changes.py:1647-1722 | a rollback whose apply is on record as written is restored for good |
| `WritePathStragglers.RecordIsFinalIff` | src/localplane/backend/changes.py:1647-1722 | the record of a rollback, whatever stands in it about the guard, guarantees that the rollback is final in every reachable world without a foreign write if and only if it says that the apply was written |
| `WritePathTheorems.StragglerUndoesTheRestoration` | src/localplane/backend/changes.py:577-583 | where the apply is still open, the run in which it lands after ROLLED_BACK |
| `WritePathRuns.RolledBackUnderAStraggler` | src/localplane/backend/changes.py:1647-1722 | a concrete reachable run that ends ROLLED_BACK on a true reading with its apply still inside the helper |
| `WritePathHost.ReachableIsTrue` | src/localplane/backend/changes.py:1279-1317 | the inductive invariant over every run: rows, program counters, wire and agent agree, and every recorded outcome is true of the host |
| `WritePathHost.NextKeepsHost` | src/localplane/backend/changes.py:1279-1317 | every step, by the backend, the agent, the helper, the kernel or a crash, keeps that invariant |
| `WritePathRows.NextKeepsRows` | src/localplane/backend/changes.py:2822-2858 | every step keeps what the durable rows may claim: state, effect, outcome, verification, restoration, lock and guard never contradict each other |
| `WritePathLink.ReachableLink` | src/localplane/backend/changes.py:1542-1605 | at every reachable state the link is where the recorded readings say it is, given only this Run and its guard write it |
| `WritePathLink.ProvenMeansClosed` | src/localplane/backend/changes.py:563-571 | once a reading proved the desired value the apply was accepted and no backend restoration is on the wire |
| `WritePathAuthority.RecordedOutcomesAreSound` | src/localplane/backend/changes.py:1298-1317 | every outcome on record (apply, rollback, guard reversal, each retry) is sound for the number of writes the kernel accepted for that attempt, and each attempt is sent at most once and accepted at most once |
| `WritePathAuthority.ApplyIsAuthorised` | src/localplane/backend/changes.py:1025-1061 | an apply is sent only after its confirmation was consumed, its checkpoint was durable and any guard was armed at the agent and recorded; it carries exactly the plan |
| `WritePathAuthority.RestorationIsAuthorised` | src/localplane/backend/changes.py:1349-1410 | a rollback or a reversal writes the checkpoint's before-value and nothing else; a rollback only for a Change that needed one, a reversal only of a guarded change and only from the desired value |
| `WritePathAuthority.RetriesSpendConfirmations` | src/localplane/backend/changes.py:2454-2504 | recovery dispatches that began equal recovery confirmations consumed, one each, and no more retries ever leave |
| `WritePathAuthority.TypedHoldsAreNeverRetried` | src/localplane/backend/changes.py:1866-1870 | a plan that demanded typed confirmation, which every guarded plan does, can be held but no retry of it is ever authorised |
| `WritePathAuthority.HoldsAreRetriedIff` | src/localplane/backend/changes.py:1824-1920 | some continuation of an open hold at rest sends a retry if and only if its plan was not confirmed by typing |
| `WritePathAuthority.HoldIsReleasedOnce` | src/localplane/backend/changes.py:2536-2566 | a hold is released at most once, by the newest attempt, exactly when that attempt is a proven reading, a verified write or an explicit resolve; and the lock is held exactly until then |
| `WritePathAuthority.ReleaseIsFinal` | src/localplane/backend/changes.py:2244-2256 | once released, no attempt follows and none changes |
| `WritePathAuthority.RetriesAimAtTheChange` | src/localplane/backend/changes.py:2941-2982 | a retry that left had a first reading that did not prove the end state, and it aims at exactly what the Change was for |
| `WritePathRestart.RestartIsIdempotent` | src/localplane/backend/changes.py:869-969 | settling the interrupted twice is settling it once |
| `WritePathRestart.RestartKeepsTheRecord` | src/localplane/backend/changes.py:874-893 | a restart never alters a recorded outcome, verification or restoration; where none was recorded, a dispatch that began becomes write_unknown and one that did not becomes not_written |
| `WritePathRestart.RestartLeavesOnlyGuarded` | src/localplane/backend/changes.py:916-923 | a Change still unfinished after a restart belongs to a Run that is GUARDED |
| `WritePathRestart.RestartEndsTruthfully` | src/localplane/backend/changes.py:943-963 | which of failed, succeeded and recovery_required an interrupted Change becomes, each as an if-and-only-if, and for which reason; it never becomes rolled_back and keeps its lock exactly when admitted |
| `WritePathRestart.RestartLeavesNoAttemptOpen` | src/localplane/backend/changes.py:2120-2188 | no recovery attempt is left open |
| `WritePathRestart.RestartClosesAttempts` | src/localplane/backend/changes.py:2120-2188 | only the newest attempt is touched, and only if open: interrupted, and unknown exactly where its dispatch had begun without an answer |
| `WritePathRestart.RestartLeavesTheRest` | src/localplane/backend/changes.py:905-923 | a Run with no Change, an ended one, or one that waits to be kept, is left as it was |
| `WritePathRestart.GuardIsApart` | src/localplane/backend/changes.py:813-865 | what the guard pass records has no bearing on what the change and recovery passes conclude |
| `WritePathRestart.RestartSurvivesCrashes` | src/localplane/backend/changes.py:869-969 | of a Run that was not waiting to be kept: however often the restart itself dies half way, a backend that comes back has settled it as one uninterrupted restart would have |
| `WritePathGuardPass.GuardedRestartIff` | src/localplane/backend/changes.py:716-811 | of a Run that was: its rows are those an uninterrupted guard pass makes of the last answer of the agent and the last reading of the run if and only if no crash fell into the recording of its lapse |
| `WritePathGuardPass.CutLapseExists` | src/localplane/backend/changes.py:738-765 | a concrete run in which the guard restored the value and said so, and a crash between two of the recording transactions leaves the Run admitted for another reason |
| `WritePathGuardPass.RestartSendsNothing` | src/localplane/backend/changes.py:813-969 | over any run of start-ups and crashes, no write but the reversal of a guard already held joins the wire, and no guard is armed or released |
| `WritePathRestart.RestartCompletes` | src/localplane/backend/changes.py:869-969 | from the change pass, transactions alone reach the served state with exactly those rows and the host untouched |
| `WritePathLimits.StartUpStopsIff` | src/localplane/backend/db/migrations/0010_connection_guard.sql:659-661 | settling a guard at start-up is refused by the store, and ends the start-up, exactly when the agent reports a firing for a row that never recorded the arming |
| `WritePathLimits.StartUpKeepsFailing` | src/localplane/backend/changes.py:813-865 | from then on, as long as the agent remembers and answers, every start-up fails and no row changes |
| `WritePathLimits.UnrecordedFiringIsReachable` | src/localplane/backend/changes.py:1351-1393 | a crash between the agent's answer and the second commit, and a window that lapses before the restart, reaches that state |
| `WritePathLimits.GuardedCanEndIff` | src/localplane/backend/changes.py:690-714 | a guarded Run at rest has some continuation that ends it if and only if its guard row is unsettled |
| `WritePathLimits.StrandedForever` | src/localplane/backend/changes.py:616-624 | no run from a GUARDED Run with a settled guard ever ends it |
| `WritePathLimits.StrandedRunExists` | src/localplane/backend/changes.py:690-714 | such a Run is reachable: kept, its guard settled, and the process dead before the finishing transaction |
| `WritePathLimits.HeldGuardedChangeExists` | src/localplane/backend/changes.py:1824-1870 | a reachable guarded change in recovery, its hold open, that nobody can be given authority to retry |
| `WritePathLimits.LeftOpenClosesTheHold` | src/localplane/backend/changes.py:2236-2241 | an attempt left in flight closes the hold to retry, grant and resolution in every run until the backend is started again |
| `WritePathLimits.AbandonedRetryExists` | src/localplane/backend/changes.py:1979-1984 | a reachable hold with an attempt nobody comes back to |
| `WritePathLimits.ProtectedIff` | src/localplane/backend/changes.py:544-549 | a guarded change in force can still be reverted by the host alone if and only if the agent holds its guard or a reversal is in flight |
| `WritePathLimits.UnprotectedRunExists` | src/localplane/backend/changes.py:544-549 | a reachable guarded change whose guard was already spent before the write |
| `WriteLocks.WriteLockExclusion` | src/localplane/backend/changes.py:973-996 | across all interleavings of Runs, crashes and restarts: two Runs on one host, object and aspect never both have a Change unfinished or unresolved, and the one that does owns the lock |
| `WriteLocks.OnlyTheUnansweredIsLeft` | src/localplane/backend/changes.py:1726-1771 | a Run that holds nothing can have inside the helper only an attempt with an unknown outcome, or the reversal of a guard that outlived it, of a kept Run only where its write raised |
| `WriteLocks.InterferenceIsLeftBehind` | src/localplane/backend/changes.py:1487-1500 | while one Run holds a target, a write accepted there for another Run is one that was left behind in that way |
| `WriteLocks.InterferenceIff` | src/localplane/backend/changes.py:1487-1500 | while one Run holds a target, the helper can take a write of another Run there, before anybody else's, if and only if one of its requests is past its comparison or would pass it with the link as it is |
| `WriteLocksRuns.InterferenceExists` | src/localplane/backend/changes.py:1487-1500 | a reachable system in which a Run that ended ROLLED_BACK has its apply accepted while the next Run holds the lock with a Change in flight |
| `WriteLocks.OnlyApplyTakesTheLock` | src/localplane/backend/changes.py:973-996 | no step but the request to apply ever takes a lock |
| `GuardRegistry.GuardsAreConserved` | src/localplane/agent/guard.py:129-283 | over any sequence of arm, disarm, status and late timers: arms equal armed plus disarmed plus fired, armed and settled are disjoint, armed targets are distinct, and a guard asks for at most one write |
| `GuardRegistry.MemoryIsExact` | src/localplane/agent/guard.py:279-283 | the settled memory is the most recent 64 settlements, in order |
| `GuardRegistry.LostMeansForgotten` | src/localplane/agent/guard.py:203-234 | a guard that was once armed is answered "lost" only if at least 64 others settled after it |
| `GuardRegistry.FiredWithoutOutcomeIff` | src/localplane/agent/guard.py:247-267 | over every history: an answer shows a fired guard without its outcome if and only if its deadline came while it was held, its write raised, and nothing has ended it since |
| `GuardRegistry.NothingRaisedNothingJammed` | src/localplane/agent/guard.py:259-266 | where no write raises, no guard is ever left in that state |
| `GuardRegistry.DisarmHidesAJammedWriteIff` | src/localplane/agent/guard.py:203-214 | over every history: a settled guard whose identifier was armed once is answered as disarmed although its write was asked for if and only if that write raised and the disarm came after; and that is when the time of its firing stays in the answer |
| `GuardRegistry.DisarmHidesAJammedWrite` | src/localplane/agent/guard.py:203-211 | a concrete history through a guard that cannot say what came of it to one answered as disarmed |
| `GuardRegistry.StatusIsHonest` | src/localplane/agent/guard.py:220-234 | the registry answers of every guard, one whose write raised included, exactly as the write path assumes an agent to answer |
| `GuardRegistry.OperationsMoveGuardsOneWay` | src/localplane/agent/guard.py:195-283 | every registry operation moves every guard whose identifier was armed once, one whose write raised included, only along the steps the write path gives an agent |
| `GuardRegistry.GuardHolder.HolderOf` | src/localplane/agent/guard.py:129-194 | the loop over held guards finds one for this interface exactly when there is one |
| `GuardRegistry.GuardHolder.Arm` | src/localplane/agent/guard.py:129-194 | holds the reversal, or refuses for the first reason that applies and leaves the registry unchanged |
| `GuardRegistry.GuardHolder.Conclude` | src/localplane/agent/guard.py:279-283 | moves one guard to the settled memory |
| `GuardRegistry.GuardHolder.Forget` | src/localplane/agent/guard.py:282-283 | the eviction loop leaves the most recent 64 |
| `GuardRegistry.GuardHolder.DisarmGuard` | src/localplane/agent/guard.py:195-216 | releases, or answers with what the guard did, or lost |
| `GuardRegistry.GuardHolder.StatusOf` | src/localplane/agent/guard.py:220-234 | the same answer, with nothing changed |
| `GuardRegistry.GuardHolder.OnDeadline` | src/localplane/agent/guard.py:236-275 | a write is asked for exactly when the guard is still held; a raised write leaves it held and marked |
| `GuardRegistry.GuardHolder.Shutdown` | src/localplane/agent/guard.py:285-296 | cancels every timer; settles nothing and claims nothing |
| `HelperService.RememberedIsNotRepeated` | src/localplane/helper/service.py:150-158 | a remembered attempt is answered with its first result and no kernel exchange |
| `HelperService.RepeatedOnlyWhenForgotten` | src/localplane/helper/service.py:169-172 | a second exchange for an attempt that came to a result implies at least 256 distinct newer attempts came to theirs in between |
| `HelperService.ReachesTheKernelIff` | src/localplane/helper/service.py:150-167 | a request reaches the kernel if and only if every result its attempt ever came to has been pushed out by at least 256 entries; otherwise it is replayed |
| `HelperService.RaisedIsRepeated` | src/localplane/helper/service.py:159-167 | asked twice in a row, an attempt is taken to the kernel twice if and only if it was not remembered and the first time raised |
| `HelperService.Service.Remember` | src/localplane/helper/service.py:169-172 | the loop leaves the most recent 256 attempts |
| `HelperService.Service.Accepts` | src/localplane/helper/service.py:133-148 | which parameters are accepted: the loop over the identifier and the ranges of the others |
| `HelperService.Service.SetInterfaceMtu` | src/localplane/helper/service.py:133-167 | bad parameters and replays send nothing and move no state; otherwise a frame is sent exactly when this call's read matched, the report follows the kernel's reply, the result is remembered, and the call fails without one exactly when a reply cannot be read |
| `MtuSetter.InterfaceMtuSetter.Check` | src/localplane/helper/mtu.py:262-299 | a link is returned exactly when this read matched index, name and expected MTU with a desired value in range and different; otherwise the first check that fails names the refusal |
| `MtuSetter.InterfaceMtuSetter.SetMtu` | src/localplane/helper/mtu.py:203-260 | a mutating frame is sent exactly on such a match and is the 40 bytes for that index and MTU; outcome and reason are what the transport and the acknowledgement say, the link seen is the one that matched, and the call raises exactly where one of its two replies cannot be read |
| `MtuSetter.ReportsAreSound` | src/localplane/helper/mtu.py:229-260 | whatever an honest kernel answers, the reported outcome is sound for the writes it accepted |
| `MtuSetter.FramesAreWhatWasChecked` | src/localplane/helper/mtu.py:372-388 | a sent frame, parsed back, is one RTM_NEWLINK for the index just read, with an MTU in range that differs from the one just read |
| `Netlink.SplitInvertsFraming` | src/localplane/helper/mtu.py:453-473 | splitting any concatenation of padded frames gives back those messages |
| `Netlink.AttributesRoundTrip` | src/localplane/helper/mtu.py:496-504 | parsing any concatenation of attributes gives each kind its last payload and nothing else |
| `Netlink.SetMtuRoundTrip` | src/localplane/helper/mtu.py:372-388 | the mutation request decodes to exactly one RTM_NEWLINK with its sequence, index and MTU |
| `Netlink.SetMtuIsTheseBytes` | src/localplane/helper/mtu.py:372-388 | the mutation, byte for byte: type 16, flags 5, zero flags and change mask, one attribute of type 4, integers low byte first |
| `Netlink.GetLinkIsTheseBytes` | src/localplane/helper/mtu.py:364-369 | the query, byte for byte |
| `Netlink.LinkRoundTrip` | src/localplane/helper/mtu.py:399-422 | the kernel's description of the link asked about, with whatever other attributes, is found and read as its index, its name up to the first zero byte and its MTU |
| `Netlink.RefusedQueryIsRead` | src/localplane/helper/mtu.py:399-412 | an error to the query is an absent link exactly for code 19, and a rejection for any other |
| `Netlink.FoundIsCorrelated` | src/localplane/helper/mtu.py:399-422 | a link is found only in the first message not passed over, correlated by sequence and index |
| `Netlink.WrittenIff` | src/localplane/helper/mtu.py:425-450 | for every reply byte string: written iff it is well formed and the first message that is an error carries this sequence, echoes no other request and has code zero; not written iff the same with a code that is neither zero nor -0x80000000; unreadable iff that error is shorter than four bytes or has that code |
| `Netlink.UnreadableQueryIff` | src/localplane/helper/mtu.py:399-412 | a query reply cannot be read if and only if the first message not passed over is an error too short to hold a code, or one whose code has no opposite in 32 bits |
| `Netlink.ShortErrorCannotBeRead` | src/localplane/helper/mtu.py:425-450 | an acknowledgement too short to be read exists for every sequence |
| `Netlink.LeastCodeCannotBeRead` | src/localplane/helper/mtu.py:244-260 | so does an error of full length whose code is -0x80000000, in a reply to the query and in one to the request |
| `Netlink.AcknowledgementRoundTrip` | src/localplane/helper/mtu.py:425-481 | the acknowledgement a kernel sends for this very request is read as the code it carries |
| `Netlink.SplitMessages` | src/localplane/helper/mtu.py:453-473 | the offset loop computes the recursive reading of the datagram, on all bytes |
| `Netlink.ReadAttributes` | src/localplane/helper/mtu.py:496-504 | the offset loop computes the recursive reading of the attributes, on all bytes |
| `Netlink.ReadLink` | src/localplane/helper/mtu.py:399-422 | the loop over messages decides as the recursive interpretation does |
| `Netlink.ReadAcknowledgement` | src/localplane/helper/mtu.py:425-450 | the whole reply is split before it is judged |
| `ThreeHops.ThreeHopSoundness` | src/localplane/backend/operations.py:516-570 | for every fault schedule over backend, agent, helper and kernel: a recorded not_written means the kernel accepted nothing, a recorded written means it accepted exactly one |
| `ThreeHops.OutcomeIff` | src/localplane/backend/operations.py:547-570 | which answers are read as which outcome; anything else is none |
| `ThreeHops.DefiniteOutcomesIff` | src/localplane/agent/service.py:442-477 | written and not_written are recorded exactly when every hop the answer needed came back with it, or the first that failed had not sent; everything else is write_unknown |
| `ThreeHops.FaultlessJourneysAreExact` | src/localplane/backend/operations.py:547-570 | where nothing fails on the way, what is recorded is exactly what the helper reported, whatever that was |
| `ThreeHops.HopKeepsItsWord` | src/localplane/ipc.py:491-539 | over one socket that delivers as much of the far side's answer as it likes, a result is the handler's own, and a request said not to have left did not arrive |
| `ThreeHops.JourneysAnswerRequests` | src/localplane/backend/operations.py:516-570 | three honest hops let a caller be told exactly what the write path machine lets it be told, wherever the request still is inside the helper |
| `LineIpc.RequestRoundTrip` | src/localplane/ipc.py:113-176 | a request that could be encoded decodes as itself, or is refused exactly for an empty id or an unknown parameter |
| `LineIpc.OkRoundTrip` | src/localplane/ipc.py:124-215 | a success response decodes as itself |
| `LineIpc.FailureRoundTrip` | src/localplane/ipc.py:132-215 | a failure response decodes as itself |
| `LineIpc.MessagesSay` | src/localplane/ipc.py:113-148 | each kind of message, key by key, and a newline; refused exactly where that would be over the limit, or for an unknown method |
| `LineIpc.RequestIff` | src/localplane/ipc.py:150-176 | exactly which bytes decode as a request, and which request, whoever sent them |
| `LineIpc.ResponseIff` | src/localplane/ipc.py:178-215 | exactly which bytes decode as a response |
| `LineIpc.RefusedFor` | src/localplane/ipc.py:235-283 | why an envelope is refused: its length, an unknown key, its version, or no object with an id |
| `LineIpc.RefusedIsAnswered` | src/localplane/ipc.py:320-346 | bytes that are no request are answered without an id, naming what is wrong with them |
| `LineIpc.TooLargeIsAnswered` | src/localplane/ipc.py:320-346 | a result there is no room for is answered under its request, saying so |
| `LineIpc.ResponsesAreExclusive` | src/localplane/ipc.py:178-215 | whoever sent it, no decoded response claims one outcome and carries the other's body |
| `LineIpc.LimitsAgree` | src/localplane/ipc.py:141-148 | a body is read back exactly when its frame, newline included, is within the limit |
| `LineIpc.FramingRoundTrip` | src/localplane/ipc.py:217-233 | reading a concatenation of frames gives exactly those bodies and then end-of-stream |
| `LineIpc.CallsAreAnsweredByTheHandler` | src/localplane/ipc.py:320-346 | whatever part of the server's answer arrives, a success that answers this request is exactly the handler's result; an answer that arrives whole is read as exactly what the server had to say |
| `LineIpc.CutFrameIsNoMessage` | src/localplane/ipc.py:224-233 | a frame cut short is refused, never read as a message |
| `LineIpc.Stream.ReadLine` | src/localplane/ipc.py:217-233 | the bounded line read takes exactly the specified prefix |
| `LineIpc.Stream.Next` | src/localplane/ipc.py:217-233 | one message, end of stream, or a refusal, and what is left |
| `LineIpc.Stream.Drain` | src/localplane/ipc.py:285-318 | the serving loop reads every message until the stream ends or is refused |
| `LineIpc.Call` | src/localplane/ipc.py:466-539 | a result is returned only when it is correlated with this call's id; every failure says whether the request had left |
| `ChangeService.Service.Apply` | src/localplane/backend/changes.py:499-583 | refuses exactly when the Run is not appliable, not eligible or not confirmed, with the host untouched; otherwise a Change exists exactly where checkpoint and guard were had; it is SUCCEEDED or GUARDED if and only if what was heard of its write is written and the reading taken saw the desired end state, GUARDED exactly where the plan is also guarded; FAILED if and only if not_written was heard; and every other ending, its reason, the host and the guard's own record follow from what was answered |
| `ChangeService.Service.Confirm` | src/localplane/backend/changes.py:235-368 | given the gates, a confirmation is recorded exactly once, for a Run that could still be applied |
| `ChangeService.Service.Cancel` | src/localplane/backend/runs.py:602-667 | only a Run that could still be applied is cancelled, and it gets no Change |
| `ChangeService.Service.Acquire` | src/localplane/backend/changes.py:973-996 | the lock is taken exactly for an appliable Run |
| `ChangeService.Service.ConsumeConfirmation` | src/localplane/backend/changes.py:998-1061 | the state moves first; the confirmation is consumed exactly if it was granted |
| `ChangeService.Service.Prepare` | src/localplane/backend/changes.py:1110-1232 | a durable checkpoint, or an ending with no Change and no lock |
| `ChangeService.Service.ArmGuard` | src/localplane/backend/changes.py:1321-1456 | armed if and only if the request left, landed at an agent that took it on, and was answered so; a refusal asks the agent to let go, records what it said and ends the Run before the boundary |
| `ChangeService.Service.Cross` | src/localplane/backend/changes.py:1234-1277 | the Change exists from here, with no outcome and no effect |
| `ChangeService.Service.Dispatch` | src/localplane/backend/changes.py:1279-1296 | the marker is durable first; the request leaves exactly where it could, with the plan's values, and the answer it could be given is the one heard |
| `ChangeService.Service.Settle` | src/localplane/backend/changes.py:1298-1317 | outcome and effect become durable together, on Run and Change |
| `ChangeService.Service.Verify` | src/localplane/backend/changes.py:1542-1605 | the reading that could be made is the one judged: a value seen on the link is recorded and verified exactly where it is the desired one, a lifecycle proof exactly where it proves, and a missing, foreign or unreadable one as itself |
| `ChangeService.Service.Conclude` | src/localplane/backend/changes.py:557-583 | failed iff not_written was heard; succeeded or guarded iff written was and the reading saw the end state; otherwise restored, or admitted for the reason that was seen |
| `ChangeService.Service.Finish` | src/localplane/backend/changes.py:1745-1771 | Run and Change end in one transaction, and only an admission keeps the lock |
| `ChangeService.Service.OpenUnproven` | src/localplane/backend/changes.py:1607-1645 | a field is to be restored, an action is admitted as it stands |
| `ChangeService.Service.RollBack` | src/localplane/backend/changes.py:1647-1724 | ROLLED_BACK exactly where the value was read, the restoring write was answered and a reading saw the before-value; otherwise admitted, for the first of those that failed; at most one rollback is sent and no other write |
| `ChangeService.Service.Restore` | src/localplane/backend/changes.py:1682-1705 | exactly one restoring write where the request leaves and none where it does not, from the value read to the checkpoint's; the answer it could be given is the one on record |
| `ChangeService.Service.Reread` | src/localplane/backend/changes.py:1707-1716 | the reading that could be made is the one judged against the before-value |
| `ChangeService.Service.ReadCurrent` | src/localplane/backend/changes.py:1647-1681 | a value that could be read is the one the restoration starts from; without one, which of the two reasons it is admitted for |
| `ChangeService.Service.ReleaseGuard` | src/localplane/backend/changes.py:1479-1540 | a guard that outlived its Run is asked to let go, after the ending, and is settled as exactly what it could and did answer |
| `ChangeService.Service.GuardKeep` | src/localplane/backend/changes.py:587-673 | SUCCEEDED if and only if the request proved the connection, the guard was held (armed, or raised) or already released, and the agent answered disarmed; refused if and only if nothing waits to be kept, or nothing was proved and an armed guard was answered as armed; otherwise ended by what the guard did, with the reason |
| `ChangeService.Service.AskAboutGuard` | src/localplane/backend/changes.py:636-671 | an answer that could be given is the answer heard, and the host is what asking it leaves: only a proved request asks the guard to let go |
| `ChangeService.LetsGoIff` | src/localplane/agent/guard.py:195-216 | a disarm is answered as disarmed exactly by a guard that is held, raised or already released, and leaves it released |
| `ChangeService.StillHoldsIff` | src/localplane/agent/guard.py:220-234 | a question is answered as armed exactly by an armed guard |
| `ChangeService.RevertedIff` | src/localplane/backend/operations.py:765-800 | a reversal is taken as written exactly where the guard's own write was reported as written, and the answer says so |
| `ChangeService.SettlementSays` | src/localplane/backend/changes.py:716-811 | what a guard's record holds after it settled, or was given up |
| `ChangeService.Service.Keep` | src/localplane/backend/changes.py:675-714 | proof and release become one row, then the Run succeeds |
| `ChangeService.Service.SettleLapsed` | src/localplane/backend/changes.py:716-811 | ROLLED_BACK exactly where the guard's reversal was written and a reading saw the before-value; otherwise admitted, for the reason its phase or that reading gives |
| `ChangeService.Service.AdmitLapse` | src/localplane/backend/changes.py:768-790 | which reason each phase is admitted with |
| `ChangeService.Service.SettleInterruptedGuard` | src/localplane/backend/changes.py:813-865 | the start-up goes on if and only if the store accepts what the agent said; an outstanding guard is left alone, a waiting Run's lapse is settled, any other guard is recorded as reported |
| `ChangeService.Service.SettleInterruptedChange` | src/localplane/backend/changes.py:869-969 | the rows become what the restart function says, and the host is untouched |
| `ChangeService.Service.SettleInterruptedAttempt` | src/localplane/backend/changes.py:2120-2188 | an open attempt is closed as interrupted, its recorded outcome preserved |
| `ChangeService.Service.StartUp` | src/localplane/backend/changes.py:813-969 | an answer the agent could give is the one heard; served if and only if the store accepts it; then the rows are what the restart function makes of them, or a waiting Run's lapse is settled as it reads; a start-up that stops changes nothing, and nothing is left unfinished but a guarded Run |
| `ChangeService.Service.RecoveryConfirm` | src/localplane/backend/changes.py:1824-1920 | given the request's own gates, authority for one retry exactly for an open hold of a plan confirmed by acknowledgement, one at a time |
| `ChangeService.Service.RecoveryRetry` | src/localplane/backend/changes.py:1922-2016 | an attempt is on record for every admitted retry of an open hold; proven exactly when the first reading saw the end state; left in flight exactly when it did not and the target was gone at the second look; refused exactly when the aim moved, nothing was read or no grant was waiting; otherwise exactly one retry leaves where it can and none where not, from the value read to the desired one, and it ends verified iff it was answered written and its second reading saw the end state, and else as it was answered; the lock goes exactly with a proven or verified ending |
| `ChangeService.Service.DispatchRetry` | src/localplane/backend/changes.py:1991-2005 | the retry is sent once where it can be and never where not, with the values of the Change, and the answer it could be given is the one heard |
| `ChangeService.Service.ConcludeRetry` | src/localplane/backend/changes.py:2005-2016 | verified iff written was heard and the second reading saw the end state |
| `ChangeService.Service.Abandon` | src/localplane/backend/changes.py:1979-1984 | a target gone at the second look ends the request and not its attempt |
| `ChangeService.Service.ReplanRetry` | src/localplane/backend/changes.py:2941-2982 | goes on exactly for the same kind and the same desired value, from a value that was read |
| `ChangeService.Service.Authorise` | src/localplane/backend/changes.py:1981-1990 | a retry is dispatched exactly when the re-plan aims at what the Change was for, from a value that was read, and a grant is waiting |
| `ChangeService.Service.Crash` | src/localplane/backend/changes.py:1279-1296 | the process may die after any transaction; only the rows survive it |
| `ChangeService.Service.SpendGrant` | src/localplane/backend/changes.py:2454-2504 | the grant is spent in the transaction that marks the dispatch, or nothing is |
| `ChangeService.Service.RetryUnproven` | src/localplane/backend/changes.py:1922-2016 | a retry the first reading did not settle is dispatched exactly with a grant and an unmoved aim, and then ends by what was heard and seen of it |
| `ChangeService.Service.RecoveryResolve` | src/localplane/backend/changes.py:2018-2118 | given the operator's acknowledgement, releases exactly an open hold, with the reading that could be made on record, writes nothing and claims no outcome |
| `ChangeService.Store.SettleInterrupted` | src/localplane/backend/changes.py:916-969 | the loop over Runs settles each as a restart does and no other row |
| `ChangeService.Store.SettleInterruptedRecovery` | src/localplane/backend/changes.py:2148-2188 | the same for recovery attempts |
| `ChangeService.Store.Restart` | src/localplane/backend/changes.py:869-969 | both passes over all Runs leave nothing unfinished but guarded Runs, and no attempt open |
| `Management.IntentsAreOneChain` | src/localplane/backend/management.py:522-571 | versions strictly increase, each intent supersedes the one before it, and managed holds iff the active intent exists and is the newest |
| `Management.FindingsAreTheFold` | src/localplane/backend/management.py:1086-1186 | a field has an open finding iff the object is managed and its latest comparable evaluation since adoption was a difference; there is at most one, and it cites the active intent |
| `Management.OneRevisionCommits` | src/localplane/backend/management.py:522-571 | of revisions that expect the same intent at most one commits, whatever happens in between |
| `Management.EndingsAreAttributed` | src/localplane/backend/management.py:1124-1145 | findings only move forward; one resolved by a revision names the revision for exactly the fields whose wanted value moved, and the reading otherwise; one resolved by a sweep names that reading |
| `Management.EvaluateKeepsFold` | src/localplane/backend/management.py:1086-1186 | one evaluation brings the incrementally kept findings back in line with the fold over the whole history |
| `Management.SweepReviews` | src/localplane/backend/management.py:1112-1186 | the same of the reference functions, in terms of reading, settings and findings alone |
| `Management.AdoptionOpensNothing` | src/localplane/backend/management.py:208-306 | right after an adoption no finding is open |
| `Management.RevisionReviews` | src/localplane/backend/management.py:497-630 | an accepted revision becomes the next intent, retains exactly the requested or the read values, and is compared at once |
| `Management.SupersededIsRefused` | src/localplane/backend/management.py:704-718 | a revision against a superseded intent changes nothing |
| `Management.ManagedObject.EvaluateIntent` | src/localplane/backend/management.py:1086-1186 | the loop over controlled fields computes one evaluation |
| `Management.ManagedObject.FindOpen` | src/localplane/backend/management.py:1086-1186 | the search finds the open finding of a field, or none |
| `Management.ManagedObject.AdoptNow` | src/localplane/backend/management.py:208-306 | adopts exactly what was verified against the current reading, with the next version, and leaves no finding open |
| `Management.ManagedObject.ReviseNow` | src/localplane/backend/management.py:497-630 | commits exactly when the expected intent and version are still in force and the source still fits; the next version retains what was requested, or what was read, and the findings follow from the reading |
| `Management.ManagedObject.Plan` | src/localplane/backend/domain/intent.py:243-378 | the fields retained: of an explicit revision what was asked for and else what was wanted, of a runtime adoption what was read; refused exactly for an uncontrolled field, an unread one, or no change |
| `Management.ManagedObject.ReleaseNow` | src/localplane/backend/management.py:824-921 | releases exactly a managed object, and every open finding ends with the intent it rested on |
| `Management.ManagedObject.SweepNow` | src/localplane/backend/management.py:941-975 | after a sweep of a managed object a controlled field the intent's source could read has an open finding if and only if its value is not the wanted one, stating both; one it could not read keeps the finding it had; no other field is touched |
| `RuntimeOwner.RelationByText` | src/localplane/agent/docker_runtime_owner.py:931-949 | equal accepted paths, or strict ancestry by whole components, and nothing else: `/a` is no ancestor of `/ab` |
| `RuntimeOwner.RelationIsAnOrder` | src/localplane/agent/docker_runtime_owner.py:931-949 | a partial order on paths below the root, to which the root is unrelated |
| `RuntimeOwner.SplitInvertsJoin` | src/localplane/agent/docker_runtime_owner.py:917-949 | splitting a path built from slash-free components gives them back |
| `RuntimeOwner.ValidIsJoined` | src/localplane/agent/docker_runtime_owner.py:917-928 | the accepted paths are the root and the joins of components that are not empty, not dots and free of slashes and line ends |
| `RuntimeOwner.OneMatchIsUnique` | src/localplane/agent/docker_runtime_owner.py:560-568 | one match in a listing is the only one |
| `RuntimeOwner.OpenCgroup` | src/localplane/agent/docker_runtime_owner.py:394-427 | opens iff the hierarchy is unified and every component opens; on every way out nothing but the result stays open |
| `RuntimeOwner.Correlator.Scan` | src/localplane/agent/docker_runtime_owner.py:504-568 | calm iff nothing failed or moved; then the pins kept are exactly the matches |
| `RuntimeOwner.Correlator.Examine` | src/localplane/agent/docker_runtime_owner.py:504-558 | a pin is kept exactly for a match and closed otherwise |
| `RuntimeOwner.Correlator.Correlate` | src/localplane/agent/docker_runtime_owner.py:446-688 | resolved iff attested, undisturbed and exactly one listed container is related; on every way out every handle opened is closed |

## Left out

- Self-impact overrides and ownership findings: they repeat the confirmation and the drift
  arguments with other names.
- Risk, protection and eligibility policy, preview planning, digests and staleness: eligibility is
  an input to apply and retry; the re-plan of a retry is modelled only by what it would do.
- The transcript, timestamps and identifiers' texts: rows carry what decisions are made from.
- JSON text syntax, UTF-8 beyond one byte a character, NaN, and duplicate keys.
- HTTP, TLS, sessions, the console, socket creation, peer credentials and logging.
- The Docker, systemd and netlink providers: their answers are events. The container and systemd
  executors' proofs of a lifecycle action are one observation, `SawState`.
- Capability discovery, host identity, attestation files and storage collection.
- A request written only in part, and clean shutdown of a server with connections open.
- The guard's clock: a deadline is an event that may come at any time after arming.
- How `runs.py` maps rows to columns, and the sanitising of provider rows.
- The parts of one pinned process: `pin` and `inspect_existing` are one handle, opened or not, and
  closing a handle does not fail.
- Progress: that an unanswered lock, hold or guarded Run is ever taken up again. The proofs are of
  safety, and of which Runs can end.
- Failures of the store other than a CHECK on a guard row: a transaction otherwise commits or the
  process dies around it.
- WritePathTheorems.RolledBackLeavesBefore: speaks of `quiet`, a history variable of the model, for
  the lemmas that use it; `RolledBackLeavesBeforeIff` says the same of the host alone.
- WritePathRestart.RestartSurvivesCrashes: Runs that are waiting to be kept are left to
  `GuardedRestartIff`, because what it says is not true of them.
- HelperService.Service.SetInterfaceMtu: one request at a time; concurrent requests of the same
  attempt are not modelled.
- GuardRegistry.GuardHolder.OnDeadline: the reversal is called under the registry's lock, so the
  write and the settlement are one step here; `WritePath` takes them apart.
