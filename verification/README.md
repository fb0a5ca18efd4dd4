# A verified model of the runtime's trust machinery

The host of a cohort of research sessions decides what each session's durable
record says. This project models that machinery and proves when its records agree
with each other and with what happened: over every schedule, stop, resource
event, crash and answer of the parts the host does not control.

| part | files |
|---|---|
| cohort lifecycle, receipts, settlement | `Contracts`, `ResourceGuard`, `ReceiptRules`, `Cohort`, `CohortInvariant`, `CohortSteps`, `CohortRuns`, `CohortCalm`, `CohortPublication`, `CohortTheorems`, `CohortFindings`, `CohortOmissions`, `CohortExample`, `Controller` |
| agenda arm: leases, clock, evidence | `Worklist`, `AgendaArm`, `AgendaTheorems`, `AgendaEvidence`, `AgendaAudit`, `AgendaFindings`, `AgendaHost` |
| durable store: launches, crashes, immutability | `LaunchStore`, `LaunchTheorems`, `RuntimeStore` |
| cohort and store, cohort and arm together | `EndToEnd`, `CohortAgenda` |
| tree accounting, process groups | `TreeScan`, `ProcessGroups` |
| agent protocol | `PiRpc`, `PiRpcTheorems`, `PiTransport` |
| output capture, verifier kit ordinals | `Capture`, `SharedCap`, `KitOrdinals` |
| source materialization and audit | `SourcePaths`, `SourceTree`, `Materializer` |
| context-window policy | `ContextPolicy` |

`dafny verify dfyconfig.toml` checks the whole project.

How it is built. A concurrent component is a step machine: one step is what runs
between two suspension points, and everything the host does not decide (backend,
publisher, measurements, disk writes, timing, crashes) is an answer given to the
step. A run is any finite schedule of steps, so a theorem over runs holds for
every interleaving. Components the source keeps in objects also appear as
classes (`Controller`, `AgendaHost`, `RuntimeStore`, `PiTransport`,
`Materializer.Staging`, `Capture.Accumulator`); each method is proved to move
its object exactly as the step machine does. The store's validators are
predicates of their own (`ReceiptRules`, `AgendaArm.AcceptsEvidence`) that share
no code with the producer, as in the source.

Readings used throughout. Session identifiers and admission references are
numbers, since only identity and order matter. A digest stands for the value it
is taken of, and canonical bytes for their document. A calm run is one in which
no building of a receipt raises and whose configured publisher does not declare
itself disabled. A contract-keeping ("trusted") run, whose backend completes with
an outcome or an exception and whose arm gives its evidence, is calm
(`TrustedIsCalm`). The theorems say which of them need that.

## Where the code and its promises part

- **A warning at start stops the cohort.** `ResourceGuard.start` returns the raw
  event of its disk check, warning or not, and the controller observes it. Under
  a profile that only warns, no session is ever dispensed exactly if the first
  reading falls short (`WarningAtStartRunsNothing`).
- **Codes and type names are measured twice.** The host allows 128 and 512
  characters, the store 128 and 512 UTF-8 bytes (`ErrorBlockAccepted` is the
  exact condition, `AccentedCodeRefused` an input, `LongNameRefused` the run that
  follows).
- **A receipt that fails to be built** can leave a run marked unsafe without an
  UNKNOWN receipt, so host and store disagree. Either the worker raises, because
  the handler or nothing at all is left to catch it (`RaisingWorkerRefused`); or
  an unproven stop had marked the run, building its UNKNOWN receipt raised once,
  and the handler wrote FAILED (`UnprovenStartRefused`). These are the only
  causes: in a calm run the two disagree only after a failed write
  (`CalmRunsSettle`). `FinishedRunsSettle` is the exact condition over all runs.
- **A published record may be missing from its receipt**, in three ways. The
  publisher's answer cannot be projected: that one record is out but not listed
  (`LostResultUnlisted`). Building the receipt raises after publication: the
  handler writes FAILED without an outcome, and no record is listed
  (`UnbuiltReceiptUnlisted`). Writing that receipt fails: the late NOT_STARTED
  lists none either (`UnwrittenReceiptUnlisted`). `ReceiptListsAllIff` is the
  exact condition over every run; without raised buildings and failed writes only
  the first way is left (`CalmReceiptListsAllIff`).
- **After a failed write** the settlement pass offers NOT_STARTED for a session
  that ran; the store takes it exactly when the arm rejected nothing
  (`LateNotStarted`; `LongNameRefused` is a run). The run stays failed either way.
- **Two notions of exclusivity.** The host's release rule can grant a second
  lease while the first is neither closed nor expired. The host's own rule
  holds (`LeaseExclusivity`), the worklist's audit does not
  (`OverrideFailsAudit`), although its documentation says that claims are
  checked so that it does. `AuditFailsOnlyByOverride` and `AuditHoldsIff` say
  exactly when it does.
- **A publisher that repeats a reference** makes the released references repeat,
  which the store refuses (`RepeatedReferenceRefused`; the exact condition is
  `SettledEvidenceAcceptedIff`).
- **A response with a wrong command** fails the transport but not its own call,
  whose pending entry was removed before the comparison; a call already
  awaiting its answer then waits for its time-out (`MismatchHappens`,
  `MismatchOnlyTimesOut`, `LeftWaitingIff`).
- **A tail bound of zero** in the transport's evidence would keep the whole
  stream (`TailsAgreeIff`); the configuration does not allow it.

## Model

| member | source | states |
|---|---|---|
| `CohortTheorems.TrustedRunsSettle` | `src/pmw_platform/runtime/orchestrator.py:1269-1303` | Over every finished run with contract-keeping backend, publisher and arm, whatever the schedule, stops and measurements: the store accepts the host's settlement if and only if no durable write failed |
| `CohortTheorems.CalmRunsSettle` | `src/pmw_platform/runtime/orchestrator.py:1269-1303` | The same over every calm finished run: no building of a receipt raised and the publisher does not declare itself disabled; ill-typed outcomes and a failing arm are allowed as long as none of them reaches a receipt |
| `EndToEnd.SettledForGood` | `src/pmw_platform/runtime/orchestrator.py:1484-1500` | Orchestrator and store together: on any store where the launch is published and no receipt or settlement is written yet, a run in which no receipt fails to be built and which finishes without a failed write can write all its receipts, the store takes its settlement, and that settlement reads back valid whatever any writer or launcher does later |
| `EndToEnd.RunIsStored` | `src/pmw_platform/runtime/orchestrator.py:698-710` | From a published launch without receipts, every run of the cohort, step by step, is a run of receipt writes the durable store accepts, and the disk then holds exactly the receipts the controller counts; a failed write is taken to leave nothing there (JointRunBacks allows for one that does) |
| `EndToEnd.StoreTakesIff` | `src/pmw_platform/runtime/store.py:1884-1899` | Over every finished run and every way its writes may end, receipts that are on disk although their write reported an error included: the store takes the settlement if and only if no write was taken for failed and an unsafe run shows an UNKNOWN receipt |
| `EndToEnd.JointRunBacks` | `src/pmw_platform/runtime/orchestrator.py:698-710` | In every such run the disk holds every receipt the controller counts, and holds others only once a write was taken for failed |
| `EndToEnd.LandedStands` | `src/pmw_platform/runtime/store.py:1009-1063` | A receipt that reached the disk at any moment of such a run is there at its end, and is the only one ever counted for its session |
| `EndToEnd.TakenForGood` | `src/pmw_platform/runtime/store.py:1884-1915` | A settlement the rules accept is taken by the store and reads back after any later operations |
| `CohortTheorems.FinishedRunsSettle` | `src/pmw_platform/runtime/store.py:1822-1882` | Over every finished run at all: the store accepts the host's settlement if and only if no write failed and a run marked unsafe shows an UNKNOWN receipt |
| `CohortTheorems.SettlementAgreement` | `src/pmw_platform/runtime/store.py:1838-1882` | For any state: host outcome and counts pass the store's independent recomputation exactly when every session has its receipt, no write failed, and unsafe implies an UNKNOWN receipt |
| `CohortTheorems.OfferedReceiptsAgree` | `src/pmw_platform/runtime/store.py:1709-1766` | In a run in which no receipt fails to be built, every receipt offered before a failed write meets all of the store's terminal, contribution-accounting and guard-evidence rules and its arm tally adds up; of the receipt as modelled, only the size of its error block can have it refused (with the arm's own block: CohortAgenda) |
| `CohortAgenda.OfferedTogetherIff` | `src/pmw_platform/runtime/store.py:1709-1766` | Cohort and arm together, every review and publication of a run answered by one arm under one lock: in a calm run the store accepts a receipt offered before a failed write, together with the arm's evidence block, exactly when its error block fits and the released references do not repeat; if the publisher never repeats a reference, the error block alone decides |
| `CohortAgenda.OfferedBlockIff` | `src/pmw_platform/runtime/orchestrator.py:554-568` | In every such run, calm or not, a receipt is offered with its session settled in the arm; the block read then shows the counts the receipt is accounted with, and the store's rules accept it exactly when the released references do not repeat, which they never do with a publisher that does not repeat a reference |
| `CohortAgenda.JoinedMatches` | `src/pmw_platform/runtime/orchestrator.py:751-805` | In every state of such a run the arm is unlocked between steps, sound, and holds for every session as many decisions, admitted and rejected, as the cohort has counted |
| `CohortAgenda.EveryRunJoins` | `src/pmw_platform/runtime/orchestrator.py:751-805` | Every schedule of the cohort at all is such a run with some arm: the answers it is given are none an arm and its publisher could not give |
| `CohortAgenda.TurnCounts` | `src/pmw_platform/experiments/agenda_arm.py:783-843` | One record before the arm, whatever becomes of it and whichever sessions settle meanwhile, adds one decision to its own session's ledger or none, as the cohort counts, and leaves the lock free |
| `CohortTheorems.ErrorBlockAccepted` | `src/pmw_platform/runtime/store.py:380-399` | Any error block the host builds, from a fixed code or from an exception, with or without an exception, is accepted exactly when its code and its type name also fit when counted in UTF-8 bytes; spelt in ASCII they always do |
| `CohortTheorems.AsciiBytes` | `src/pmw_platform/runtime/store.py:388-397` | The store's byte count is the character count the host checked if and only if the text is ASCII |
| `CohortTheorems.AccentedCodeRefused` | `src/pmw_platform/runtime/orchestrator.py:263-271` | Sixty-five two-byte letters are a code the host keeps and the store refuses |
| `CohortTheorems.LateNotStarted` | `src/pmw_platform/runtime/orchestrator.py:1248-1267` | NOT_STARTED offered again for a session after a failed write is accepted exactly when the arm had rejected nothing of that session |
| `CohortTheorems.FinishedRunsAreComplete` | `src/pmw_platform/runtime/orchestrator.py:1264-1267` | A finished run without a failed write has a receipt for every planned session, even when workers raised |
| `CohortTheorems.NoPublicationBeforeProof` | `src/pmw_platform/runtime/orchestrator.py:1094-1144` | In every state of every run, for every session, in the middle of publishing or not, receipt or not: a published record implies that the session was stopped, proven so, and cleared by its terminal measurement; a session told to stop while it ran has published nothing |
| `CohortTheorems.PublicationFollowsProof` | `src/pmw_platform/runtime/orchestrator.py:1094-1144` | In order of time: when a session has published, an earlier step of the run found it stopped by proof, measured, with no event visible to it, and until the end of that step nothing of it was published |
| `CohortPublication.StepMoves` | `src/pmw_platform/runtime/orchestrator.py:740-795` | Whoever moves, a session's clearance and its counts of published and of lost records stay as they are, or it is cleared with nothing published yet, or it publishes one record having been cleared before the step, lost exactly if its result could not be projected; its arm tally grows exactly when the arm is asked about a record of its own |
| `CohortTheorems.ReceiptsAgreeWithHistory` | `src/pmw_platform/runtime/orchestrator.py:616-710` | In every run, raised buildings and failed writes included, a durable receipt agrees with what happened: every handle was stopped, a start on record carries the proof of that stop, a session told to stop published nothing and did not succeed, and a terminal resource event excludes success |
| `CohortTheorems.ReceiptListsAllIff` | `src/pmw_platform/runtime/orchestrator.py:616-710` | Over every run: a durable receipt lists as many records as its session published if and only if the session published none, or the receipt shows an outcome and at no step of the run did a record of the session go out whose result could not be projected; what is listed are contributions in their order, with an outcome at most one is missing, and a SUCCEEDED receipt misses none |
| `CohortTheorems.CalmReceiptListsAllIff` | `src/pmw_platform/runtime/orchestrator.py:616-710` | In a run in which no receipt failed to be built and no write failed: if and only if no result of the session was lost |
| `CohortOmissions.LostResultUnlisted` | `src/pmw_platform/runtime/orchestrator.py:274-286` | For every successful outcome with contributions, a concrete run to a durable FAILED receipt that lists none of the one record published, because the answer of the publisher could not be projected; no write failed |
| `CohortOmissions.UnbuiltReceiptUnlisted` | `src/pmw_platform/runtime/orchestrator.py:1128-1235` | A concrete run in which no result is lost and no write fails: building the SUCCEEDED receipt raises once after publication, the handler writes FAILED without an outcome, and nothing is listed |
| `CohortOmissions.UnwrittenReceiptUnlisted` | `src/pmw_platform/runtime/orchestrator.py:1248-1267` | A concrete run in which writing the SUCCEEDED receipt fails and the late NOT_STARTED becomes durable for a session that ran and published |
| `CohortTheorems.ReceiptsAreFinal` | `src/pmw_platform/runtime/orchestrator.py:616-710` | A durable receipt is the same in every continuation of the run |
| `CohortTheorems.NothingDispensedAfterStop` | `src/pmw_platform/runtime/orchestrator.py:467-475` | Once stop_new is set the cursor never moves again, in any continuation |
| `CohortTheorems.DispensesNext` | `src/pmw_platform/runtime/orchestrator.py:467-475` | The cursor moves only when a free worker of a run that is not stopping takes the next planned session |
| `CohortTheorems.PoolIsBounded` | `src/pmw_platform/runtime/orchestrator.py:1457-1498` | In every run there are as many slots as workers plus the settlement pass, no session is in two, and only the dispensed prefix has been touched while a worker may still take sessions |
| `CohortTheorems.WarningAtStartRunsNothing` | `src/pmw_platform/runtime/resource_guard.py:590-603` | Under a profile that only warns of a disk breach, and with a readable disk, the check at start latches nothing and signals nobody; and no session is dispensed in any run if and only if the reading falls short, because start hands out its raw event |
| `CohortTheorems.DispensesNothingIff` | `src/pmw_platform/runtime/orchestrator.py:447-475` | No schedule dispenses a session exactly when the run is stopped from the start |
| `CohortFindings.RaisingWorkerRefused` | `src/pmw_platform/runtime/orchestrator.py:1478-1483` | A concrete run in which a worker raises: no write fails, the run is unsafe, its one receipt says CANCELLED, and the store refuses the settlement |
| `CohortFindings.UnprovenStartRefused` | `src/pmw_platform/runtime/orchestrator.py:939-1235` | A concrete run in which no worker raises: a start without a stop proof marks the run unsafe, building its UNKNOWN receipt raises once, the handler writes FAILED instead, and the store refuses the settlement |
| `CohortFindings.LongNameRefused` | `src/pmw_platform/runtime/orchestrator.py:1217-1267` | For every exception whose type name is too long in bytes, a concrete run: the store refuses the failure receipt for its spelling alone, that counts as a failed write, NOT_STARTED is offered late for the same session and becomes durable, and the settlement is refused |
| `CohortExample.CancelledRunSettles` | `src/pmw_platform/runtime/orchestrator.py:1462-1500` | A concrete contract-keeping run cancelled by its caller before anything starts: it finishes, every session has its receipt, and the store accepts the settlement |
| `CohortTheorems.StatusesContain` | `src/pmw_platform/runtime/store.py:1865-1882` | The host's positive count of a status and the store's membership test agree, and both mean that some row has it |
| `CohortTheorems.RowsOf` | `src/pmw_platform/runtime/orchestrator.py:1270-1280` | The settlement rows are complete exactly when every session has a receipt, and are then the sessions in plan order with their own statuses and digests |
| `CohortTheorems.Utf8BytesBound` | `src/pmw_platform/runtime/store.py:388-397` | The byte length of a text lies between its length and four times its length |
| `CohortRuns.RunKeepsInv` | `src/pmw_platform/runtime/orchestrator.py:397-1267` | The whole run invariant (proof before publication, one slot per session, receipts that agree with history, unsafe forces UNKNOWN) survives every schedule |
| `CohortRuns.StepKeepsInv` | `src/pmw_platform/runtime/orchestrator.py:447-1267` | Every step of every slot, live monitor or caller keeps the run invariant |
| `CohortRuns.PhaseStepLands` | `src/pmw_platform/runtime/orchestrator.py:908-1267` | One step of a busy slot, in any phase, changes only its own session, never unlatches an event, and leaves the session where the invariant wants it; if it makes a clean run unsafe an UNKNOWN receipt is certain to come |
| `CohortCalm.TrustedIsCalm` | `src/pmw_platform/runtime/orchestrator.py:616-697` | When the arm gives its evidence and a backend that completes does so with an outcome, no building of a receipt raises, in any run |
| `CohortRuns.SettleNextKeepsInv` | `src/pmw_platform/runtime/orchestrator.py:1478-1487` | Starting and walking the pass over missing receipts keeps the invariant, including the unsafe mark of a worker that raised |
| `CohortRuns.MonitorKeepsInv` | `src/pmw_platform/runtime/resource_guard.py:558-577` | Live disk and tree checks at any moment keep the invariant |
| `CohortSteps.StartFailedDraftOk` | `src/pmw_platform/runtime/orchestrator.py:939-991` | The status and reason of a failed start are provable: UNKNOWN exactly where no stop was proven or accounting is uncertain |
| `CohortSteps.OverrideIsProven` | `src/pmw_platform/runtime/orchestrator.py:628-645` | The override by a resource event latched at the terminal measurement leaves a draft the store can accept |
| `CohortSteps.BuiltReceiptAccepted` | `src/pmw_platform/runtime/orchestrator.py:645-697` | The receipt built from a sound draft meets every rule but the size of its error block |
| `CohortSteps.PublishOneLands` | `src/pmw_platform/runtime/orchestrator.py:751-795` | Each answer of identity check, arm and publisher keeps published plus rejected equal to the contributions done |
| `CohortSteps.LostOneLands` | `src/pmw_platform/runtime/orchestrator.py:274-286` | A publisher's answer that cannot be projected ends the publication with one record published and not listed, and a draft the store still accepts |
| `CohortSteps.AcceptStartLands` | `src/pmw_platform/runtime/orchestrator.py:822-855` | Whatever a start returns or raises, with or without a drift or a cancellation: the session lands where its facts hold, a handle on record for a later stop or a receipt as proven as its stop, no other session is touched, and if the run became unsafe UNKNOWN is certain to come |
| `CohortSteps.ArbitrateLands` | `src/pmw_platform/runtime/orchestrator.py:1049-1055` | Whatever is in the done set, the session lands sound: it waits on, or is to be confirmed with no stop sent, or is on record as told to stop, or is left to the handler |
| `CohortSteps.FinishStepLands` | `src/pmw_platform/runtime/resource_guard.py:645-675` | The terminal measurement, check by check, unlatches nothing, touches no other session, and ends in a receipt offered, an outcome decided or a stop, each sound |
| `CohortSteps.DeliverLands` | `src/pmw_platform/runtime/orchestrator.py:698-710` | A receipt that becomes durable is the only one added and agrees with its session's history; otherwise none is added and the store counts as failed |
| `CohortSteps.HaltLands` | `src/pmw_platform/runtime/orchestrator.py:1160-1204` | The draft of an interrupted session is sound: its status is proven by its stop, and it is not SUCCEEDED whatever outcome still arrives |
| `CohortSteps.DecideLands` | `src/pmw_platform/runtime/orchestrator.py:1094-1144` | Success, failure and resource events after a confirmed stop are classified so that the receipt stays acceptable |
| `CohortSteps.WriteLands` | `src/pmw_platform/runtime/orchestrator.py:616-710` | Building and offering a receipt, including a raising arm or an ill-typed outcome, lands in a sound state |
| `Controller.RunPreparedCohort` | `src/pmw_platform/runtime/orchestrator.py:1434-1500` | The mutable controller, run over any schedule and asked for its settlement: the store's acceptance is exactly no failed write and, if unsafe, an UNKNOWN receipt |
| `Controller.Cohort.constructor` | `src/pmw_platform/runtime/orchestrator.py:1434-1456` | A new cohort satisfies the run invariant whatever the first disk check reads |
| `Controller.Cohort.WorkerResults` | `src/pmw_platform/runtime/orchestrator.py:1478-1483` | Scans the workers and answers exactly whether all are done and whether any raised |
| `Controller.Cohort.Deliver` | `src/pmw_platform/runtime/orchestrator.py:698-710` | Touches the receipt of one session only: it becomes durable exactly if the write succeeds and the store accepts it, and otherwise the store is marked failed and new sessions stop |
| `Controller.Cohort.Step` | `src/pmw_platform/runtime/orchestrator.py:908-1267` | Any actor's step on the objects keeps the run invariant and every durable receipt, and after a stop dispenses nothing |
| `Controller.Cohort.Play` | `src/pmw_platform/runtime/orchestrator.py:1457-1498` | A whole schedule played on the objects reaches the state of the step machine |
| `Controller.Cohort.SettlementValue` | `src/pmw_platform/runtime/orchestrator.py:1269-1303` | Counts and outcome in one pass equal the specified settlement |
| `Controller.Guard.Latch` | `src/pmw_platform/runtime/resource_guard.py:385-406` | Latching an event the guard's checks produce keeps the latch invariant, replaces nothing, and makes an event that is no warning visible to its session |
| `Controller.Guard.CheckDisk` | `src/pmw_platform/runtime/resource_guard.py:431-465` | A disk check keeps the latch invariant and leaves a cohort event latched unless it only warned or one was there |
| `Controller.Guard.CheckTree` | `src/pmw_platform/runtime/resource_guard.py:517-556` | A tree check keeps the latch invariant and leaves an event visible to the session unless it only warned |
| `Controller.Guard.Evidence` | `src/pmw_platform/runtime/resource_guard.py:677-714` | The evidence block of a sound guard passes the store's rules |
| `ResourceGuard.GuardRunsAreSound` | `src/pmw_platform/runtime/resource_guard.py:377-429` | Over every run of checks: a session is signalled exactly when an event is visible to it, no visible event is a warning, and its evidence passes the store's validator |
| `ResourceGuard.GlobalEventIsForever` | `src/pmw_platform/runtime/resource_guard.py:385-406` | The first cohort-wide event stays whatever happens afterwards |
| `ResourceGuard.EvidenceIsValid` | `src/pmw_platform/runtime/store.py:413-492` | Evidence of any sound guard is accepted by the store's resource-guard rules |
| `ResourceGuard.CheckDiskKeepsGuard` | `src/pmw_platform/runtime/resource_guard.py:431-465` | A disk check keeps the latch invariant and leaves a cohort event latched unless it only warned |
| `ResourceGuard.CheckTreeKeepsGuard` | `src/pmw_platform/runtime/resource_guard.py:517-556` | A tree check keeps the latch invariant and leaves an event visible to the session unless it only warned |
| `ResourceGuard.TreeLimitEvent` | `src/pmw_platform/runtime/resource_guard.py:466-515` | There is an event exactly when the snapshot is over a limit; it is a certain event of that session |
| `AgendaTheorems.LeaseExclusivity` | `src/pmw_platform/experiments/agenda_arm.py:901-943` | For every interleaving of submissions, publisher answers and settlements: each task has at most one lease held by a session that can still act, if and only if the opening world does |
| `AgendaTheorems.ForeignWorldIsExclusive` | `src/pmw_platform/experiments/agenda_arm.py:936-943` | A world no session of this launch has written to is such an opening world |
| `AgendaTheorems.ClaimGrantedIff` | `src/pmw_platform/experiments/agenda_arm.py:901-934` | A claim is granted exactly when its task is on the worklist, open, ready, and occupied by nobody who can still act |
| `AgendaTheorems.ClockAndClosures` | `src/pmw_platform/experiments/agenda_arm.py:1005-1016` | In every run from any opening world with distinct references, exclusive or not: the clock equals the ledger length, launch entry i has tick i + 1, and no record of the launch closes a lease that was closed before |
| `AgendaTheorems.AdmittedIsAdmissible` | `src/pmw_platform/experiments/agenda_arm.py:845-899` | Whatever the review admits may be appended: a claim on a vacant task, a release or outcome of an open lease of its author |
| `AgendaTheorems.AppendKeepsExclusive` | `src/pmw_platform/experiments/agenda_arm.py:1005-1016` | Appending an admissible record keeps exclusivity: old leases only shrink |
| `AgendaTheorems.SettleKeeps` | `src/pmw_platform/experiments/agenda_arm.py:1018-1043` | Settling a session at any moment, also between a review and its observation, keeps the invariant |
| `AgendaTheorems.ActsKeep` | `src/pmw_platform/experiments/agenda_arm.py:783-1043` | Every run keeps clock, single closure, ledgers and what the lock promises, and exclusivity if the run began with it |
| `AgendaEvidence.FreshRunsAccepted` | `src/pmw_platform/runtime/store.py:672-836` | If the publisher never repeats a reference, the store accepts every session's evidence at every moment of every run, from any opening world with distinct references |
| `AgendaEvidence.EvidenceAcceptedIff` | `src/pmw_platform/runtime/store.py:672-836` | In every run from any opening world with distinct references the store's structural and counting rules come down to one: the released references must increase strictly |
| `AgendaEvidence.SettledEvidenceAcceptedIff` | `src/pmw_platform/experiments/agenda_arm.py:1018-1043` | At settlement the evidence is accepted exactly when the occupying references that are kept, the least 64, are all different; with no more than 64 that is, when all the occupying references given to the session are |
| `AgendaEvidence.EvidenceTally` | `src/pmw_platform/runtime/store.py:697-740` | In any state: reviewed is admitted plus rejected, admitted is the number of ACCEPTED decisions, and the three fit the receipt's contribution accounting |
| `AgendaEvidence.VerdictsCount` | `src/pmw_platform/experiments/agenda_arm.py:1045-1065` | The verdict table adds up to the decisions and holds each verdict as often as it was given |
| `AgendaEvidence.SortIsStrictIff` | `src/pmw_platform/experiments/agenda_arm.py:1031-1037` | Sorting references gives a strictly increasing list exactly when none repeats |
| `AgendaAudit.AuditFailsOnlyByOverride` | `src/pmw_platform/experiments/agenda_treatments/worklist.py:223-241` | Over every run on a world whose claims name its own entries: the worklist's audit holds throughout if and only if it holds at the opening and the host never publishes a claim its release rule let through over a lease that outlives the admission |
| `AgendaAudit.AuditHoldsIff` | `src/pmw_platform/experiments/agenda_treatments/worklist.py:223-241` | Over every run on any world: the audit holds throughout if and only if it holds at the opening and no admission breaks it, by claiming over a surviving lease or by listing a task two leases wait for |
| `AgendaAudit.AppendAuditIff` | `src/pmw_platform/experiments/agenda_arm.py:1005-1016` | Exactly which admission breaks the audit, read off the world before it: a claim with a lifetime on a listed task, not closed in advance, while a lease of the task outlives the next tick; or the listing of a task with two such leases |
| `AgendaAudit.OnlyOverrideBreaks` | `src/pmw_platform/experiments/agenda_arm.py:901-943` | In a world whose claims name its own entries the breaking steps are exactly the publications of a claim the worklist's own rule refuses and the host's override granted, over a surviving lease whose holder can no longer act |
| `AgendaFindings.OverrideFailsAudit` | `src/pmw_platform/experiments/agenda_arm.py:936-943` | A concrete run from an audited opening: the host's release rule grants a second lease, host exclusivity holds, and the worklist's own audit fails |
| `AgendaAudit.WorklistRuleKeepsAudit` | `src/pmw_platform/experiments/agenda_treatments/worklist.py:314-355` | A claim granted without the host's override keeps the worklist's audit; one that breaks it lands on a blocked task |
| `AgendaFindings.RepeatedReferenceRefused` | `src/pmw_platform/experiments/agenda_arm.py:971-1003` | A concrete run: a publisher that names two admissions alike makes the store refuse the session's evidence |
| `AgendaFindings.CompletionIsFinal` | `src/pmw_platform/experiments/agenda_treatments/worklist.py:191-220` | A completed task stays completed in every continuation, and every later claim on it is refused as such |
| `AgendaHost.Arm.constructor` | `src/pmw_platform/experiments/agenda_arm.py:553-609` | The arm opens with a sound clock, and with exclusive leases if no session of the launch has written before |
| `AgendaHost.Arm.ClaimVerdict` | `src/pmw_platform/experiments/agenda_arm.py:901-934` | The scan over blockers gives the specified verdict |
| `AgendaHost.Arm.Review` | `src/pmw_platform/experiments/agenda_arm.py:783-843` | A review moves no more than the session's ledger, keeps the arm sound, and what it admits may be appended |
| `AgendaHost.Arm.Append` | `src/pmw_platform/experiments/agenda_arm.py:1005-1016` | Appending what may be appended, counting a repeated reference or refusing at the last tick keeps the arm sound |
| `AgendaHost.Arm.Observe` | `src/pmw_platform/experiments/agenda_arm.py:971-1003` | Observing any answer to an admissible candidate keeps clock, exclusivity, closures and ledgers |
| `AgendaHost.Arm.Settle` | `src/pmw_platform/experiments/agenda_arm.py:1018-1043` | The loop releases exactly the occupying references, once, freezes the clock reading and keeps the arm sound |
| `AgendaHost.Arm.SessionEvidence` | `src/pmw_platform/experiments/agenda_arm.py:1045-1087` | One pass over the decisions fills every count of the specified evidence |
| `Worklist.FindClaim` | `src/pmw_platform/experiments/agenda_treatments/worklist.py:367-375` | Finds the claim admitted under a reference, or shows that there is none |
| `TreeScan.ScanTree` | `src/pmw_platform/runtime/resource_guard.py:222-308` | On any directory graph and in any enumeration order: within the limits the bytes and names are exact and the depth is that of a name and no less than the shortest way to any; over a limit the counts are of a part. Where every directory has one depth the scan is over a limit exactly when the full accounting is, and equals it otherwise |
| `TreeScan.LevelsDecide` | `src/pmw_platform/runtime/resource_guard.py:222-308` | Where every directory has one depth, a scan is over a limit exactly when the full accounting is, and equals it otherwise |
| `TreeScan.CheckTree` | `src/pmw_platform/runtime/resource_guard.py:517-556` | Without an event all bytes and names, and a way to every name, are within the limits; with one, bytes, names or the depth of some name is over. Where every directory has one depth there is an event exactly when the tree is over a limit |
| `TreeScan.LevelsExistIff` | `src/pmw_platform/runtime/resource_guard.py:261-263` | The recorded depths have a meaning exactly where no directory has two lengths of walk to it |
| `TreeScan.TreesHaveLevels` | `src/pmw_platform/runtime/resource_guard.py:222-308` | Every tree in which no directory is listed twice is such a place |
| `TreeScan.EarlyExit` | `src/pmw_platform/runtime/resource_guard.py:279-297` | What is tallied at an early exit is a part of the whole tree: no more bytes, no more names, and the depth of one of its names |
| `TreeScan.LastStep` | `src/pmw_platform/runtime/resource_guard.py:302-308` | With nothing pending the totals account for everything reachable: bytes once per inode, every name, a depth that is that of a name and reaches all |
| `TreeScan.NothingWaiting` | `src/pmw_platform/runtime/resource_guard.py:225-236` | With nothing pending the directories seen are exactly the reachable ones |
| `TreeScan.NameStep` | `src/pmw_platform/runtime/resource_guard.py:261-282` | Counting one name keeps the scan right |
| `TreeScan.WalkIsLevel` | `src/pmw_platform/runtime/resource_guard.py:262-263` | Where every directory has one depth, the depth a walk records is it |
| `ProcessGroups.DescendantGroups` | `src/pmw_platform/runtime/pi.py:2482-2524` | For any table an answer covers the subtree and an error names its cause; with unique pids the answer is exactly the sorted groups below the root other than its own, and it is refused exactly for a zero group below the root or the host's group among them |
| `ProcessGroups.ParseTable` | `src/pmw_platform/runtime/pi.py:2496-2508` | The table is refused exactly when a line is malformed; otherwise the index lists each parent's rows in order |
| `ProcessGroups.CoversIsExact` | `src/pmw_platform/runtime/pi.py:2509-2524` | With unique pids a covering set is exactly the set of groups below the root |
| `ProcessGroups.ForeignRowIsHarmless` | `src/pmw_platform/runtime/pi.py:2490-2494` | A row outside the subtree, group zero included, adds no group and no error |
| `Capture.Accumulator.Append` | `src/pmw_platform/runtime/safety.py:360-398` | Keeps the first retained-cap bytes and the last tail bytes of the whole stream, and signals the crossing on exactly this chunk if it is the first past the observed cap |
| `Capture.StreamCapture.Drain` | `src/pmw_platform/runtime/command.py:599-621` | The report depends only on the concatenation of the chunks, the cap event is set exactly if the stream exceeds the cap, and without a failed write the file is the retained prefix |
| `Capture.OneCrossing` | `src/pmw_platform/runtime/safety.py:386-397` | Some chunk crosses the cap exactly if the stream exceeds it, and no two chunks do |
| `Capture.BoundedEvidence.Append` | `src/pmw_platform/runtime/pi.py:1581-1599` | The same prefix, tail and cap flag while writes succeed |
| `Capture.CapturesAgree` | `src/pmw_platform/runtime/pi.py:1581-1599` | The two captures on one stream under the same caps: same retained bytes, same counts, same flags while writes succeed; the same tail if it is bounded alike, and with a bound of zero only while the stream fits the other's tail |
| `Capture.TailsAgreeIff` | `src/pmw_platform/runtime/pi.py:1586-1587` | The two captures agree on the tail exactly when the tail is bounded or the stream empty: a zero bound keeps everything |
| `SharedCap.SharedCapIsExact` | `src/pmw_platform/verifier.py:1072-1096` | For every chunking and interleaving of two readers: each buffer is a prefix of its stream, together they hold min(cap, observed), and overflow is set exactly if more than the cap was observed |
| `SharedCap.CompletedIsWhole` | `src/pmw_platform/verifier.py:1130-1145` | Joined, unbroken readers without overflow hold both complete streams, within the cap |
| `SharedCap.Classify` | `src/pmw_platform/verifier.py:1101-1145` | COMPLETED is reported exactly when nothing went wrong |
| `SharedCap.Judge` | `src/pmw_platform/verifier_kit_runner.py:541-566` | A pass or rejection needs a completed run, empty stderr, a well-formed answer and the matching exit code |
| `SharedCap.Verify` | `src/pmw_platform/verifier.py:1288-1313` | A pass or a rejection is the answer the whole of the verifier's output gives |
| `SharedCap.SharedBuffers.Extend` | `src/pmw_platform/verifier.py:1080-1092` | One turn inside the lock keeps both buffers prefixes of their streams, their sum at the minimum of cap and observed, and the overflow flag exact |
| `SharedCap.AccountKeeps` | `src/pmw_platform/verifier_kit_runner.py:465-482` | Accounting for a chunk keeps prefix, cap and overflow right |
| `KitOrdinals.OrdinalsAreGapFree` | `src/pmw_platform/verifier_kit_runner.py:615-642` | Under every interleaving, crashes included: receipt names are 1 to n, no ordinal is claimed twice, and the limit is reported only when every ordinal is taken |
| `KitOrdinals.VerdictNeverCollides` | `src/pmw_platform/verifier_kit_runner.py:643-649` | Whoever claimed an ordinal finds its verdict name free |
| `KitOrdinals.ClaimOrdinal` | `src/pmw_platform/verifier_kit_runner.py:626-642` | The probing loop claims the next ordinal, or reports the limit exactly when it is reached, whatever it counted |
| `KitOrdinals.ProbeKeeps` | `src/pmw_platform/verifier_kit_runner.py:626-641` | A successful exclusive creation extends the names by the next one |
| `Materializer.Materialize` | `src/pmw_platform/source_materializer.py:653-730` | Succeeds exactly when the records are safe and distinct, the blobs readable, no two names one to the file system and the digest the locked one; what it publishes is faithful to the lock |
| `Materializer.Audit` | `src/pmw_platform/source_materializer.py:735-904` | For any envelope, one without a tree included: passes exactly when the disk is what the lock names: modes, envelope, manifest in strict byte order, sums, digest, and a tree of exactly the manifest's files and their ancestors |
| `Materializer.Ensure` | `src/pmw_platform/source_materializer.py:560-583` | Cached entries are audited, missing ones materialized; the audit never refuses what was just published |
| `SourceTree.FaithfulIsUnique` | `src/pmw_platform/source_materializer.py:797-891` | Two envelopes that pass for one lock are the same envelope |
| `Materializer.StageAll` | `src/pmw_platform/source_materializer.py:677-694` | Staging fails exactly for an unreadable blob or a collision among the names of the whole listing |
| `Materializer.Staging.MakeParents` | `src/pmw_platform/source_materializer.py:321-350` | Makes exactly the missing ancestors; refuses one that already resolves to something it did not make |
| `Materializer.Staging.WriteBlob` | `src/pmw_platform/source_materializer.py:353-358` | Creates the file exactly when its name does not resolve |
| `Materializer.Staging.AddEntry` | `src/pmw_platform/source_materializer.py:680-694` | After an entry the tree holds exactly the rows so far; a refusal shows that the whole listing collides |
| `Materializer.FreezeDirectories` | `src/pmw_platform/source_materializer.py:410-423` | Only directories change, to read-only |
| `Materializer.ReadGitTree` | `src/pmw_platform/source_materializer.py:293-318` | Accepts exactly well-formed distinct records and returns them in byte order |
| `Materializer.CheckRows` | `src/pmw_platform/source_materializer.py:797-836` | Accepts exactly safe, strictly ordered rows and returns their files, ancestors and byte sum |
| `Materializer.WalkTree` | `src/pmw_platform/source_materializer.py:852-878` | In any walk order: passes exactly if files, directories and directory modes are the expected ones |
| `Materializer.CheckFiles` | `src/pmw_platform/source_materializer.py:879-891` | Passes exactly if every row's file is there with its content, size, mode and one link |
| `SourcePaths.SortOrders` | `src/pmw_platform/source_materializer.py:317-318` | Sorting keeps the entries and puts distinct paths in strict byte order |
| `SourcePaths.JoinSplit` | `src/pmw_platform/source_materializer.py:258-274` | Splitting a path into components loses nothing |
| `SourcePaths.LessIsStrict` | `src/pmw_platform/source_materializer.py:816-830` | Byte order is a strict total order |
| `SourceTree.RefusalIsCollision` | `src/pmw_platform/source_materializer.py:331-350` | A name that is refused while staging proves a collision in the listing |
| `SourceTree.DotIsRefused` | `src/pmw_platform/source_materializer.py:258-274` | The path of a single dot passes the check of paths, and no listing that has it can be staged or audited: it collides with the root |
| `LaunchTheorems.VisibleLaunchIsComplete` | `src/pmw_platform/runtime/store.py:1452-1500` | At every crash point of every interleaving of launchers: a visible launch has the complete layout of all its sessions, made by the one launcher that ran its whole program |
| `LaunchTheorems.DocumentsAreFinal` | `src/pmw_platform/runtime/store.py:1009-1063` | A launch, receipt or settlement never changes once visible; at most one launch is ever published |
| `LaunchTheorems.SettlementStaysValid` | `src/pmw_platform/runtime/store.py:1901-1915` | A settlement accepted once reads back valid after any later operations, and every receipt on disk is one the store accepts |
| `LaunchTheorems.LateLauncherStops` | `src/pmw_platform/runtime/store.py:1471-1475` | A launcher that finds a runtime root, complete or not, changes nothing |
| `LaunchTheorems.ActsKeep` | `src/pmw_platform/runtime/store.py:1452-1915` | Everything on disk is the first steps of one launcher's program plus valid documents, in every run |
| `LaunchTheorems.SettlementStays` | `src/pmw_platform/runtime/store.py:1844-1863` | Acceptance of a settlement depends only on receipts already there |
| `LaunchStore.WholeLayout` | `src/pmw_platform/runtime/store.py:1478-1499` | The whole program leaves nothing out of any session's layout |
| `LaunchStore.LaunchComesLast` | `src/pmw_platform/runtime/store.py:1494-1499` | The launch document is linked by the last step and only then |
| `RuntimeStore.Store.CreateLaunch` | `src/pmw_platform/runtime/store.py:1452-1500` | Succeeds exactly on a disk without a runtime root and then leaves exactly the full layout, which is what the launcher's program leaves; otherwise changes nothing |
| `RuntimeStore.AloneCompletes` | `src/pmw_platform/runtime/store.py:1452-1500` | A launcher that works alone on an empty disk meets no obstacle: after n advances the disk is what the first n operations of its program leave |
| `RuntimeStore.ProgramPerforms` | `src/pmw_platform/runtime/store.py:1471-1499` | The program, operation by operation, finds each name free and each parent there, and leaves the full layout under its launch document |
| `RuntimeStore.Store.WriteReceipt` | `src/pmw_platform/runtime/store.py:1768-1784` | Never alters a receipt that is there and touches no other session's; Written means this receipt is there and the store accepts it, Conflict that another one is |
| `RuntimeStore.Store.ValidateSettlement` | `src/pmw_platform/runtime/store.py:1822-1882` | The row-by-row re-reading accepts exactly the settlements the rules accept |
| `RuntimeStore.Store.WriteSettlement` | `src/pmw_platform/runtime/store.py:1884-1899` | Never alters a settlement that is there; Written if and only if this one now reads back valid |
| `RuntimeStore.LayoutHolds` | `src/pmw_platform/runtime/store.py:1478-1484` | The layout has the root and all five directories of exactly the planned sessions |
| `PiRpcTheorems.OrdinalsAreGapFree` | `src/pmw_platform/runtime/pi.py:1772-1789` | In every run the observation ordinals of both directions together are 1, 2, 3, ... without a gap |
| `PiRpcTheorems.ResponsesFollowRequests` | `src/pmw_platform/runtime/pi.py:1809-1829` | For a peer that answers only requests handed to it, every response has a greater ordinal than its request, however early it becomes readable |
| `PiRpcTheorems.ReturnsOwnAnswer` | `src/pmw_platform/runtime/pi.py:2034-2081` | A call that returns got the response with its own number and command, and no other call has that number |
| `PiRpcTheorems.FuturesAreFinal` | `src/pmw_platform/runtime/pi.py:1936-1944` | A future that was settled never changes, in any continuation |
| `PiRpcTheorems.LeftWaitingIff` | `src/pmw_platform/runtime/pi.py:1984-1994` | A waiting call is without an answer exactly when its entry is still pending or its answer carried a wrong command |
| `PiRpcTheorems.MismatchOnlyTimesOut` | `src/pmw_platform/runtime/pi.py:1988-1992` | A call awaiting its answer that is answered with a wrong command: in any continuation it still waits, unanswered, or has given up by its own time-out, although the transport failed |
| `PiRpcTheorems.MismatchHappens` | `src/pmw_platform/runtime/pi.py:1983-1994` | For any two commands, a concrete run from the start that leaves a call in that state |
| `PiRpcTheorems.MismatchNeverReturns` | `src/pmw_platform/runtime/pi.py:1983-1994` | A call answered with a wrong command while it is still being sent never returns and is never failed with the transport either |
| `PiRpcTheorems.ActKeepsOrder` | `src/pmw_platform/runtime/pi.py:1766-1829` | Every step keeps requests before responses |
| `PiRpcTheorems.ActKeeps` | `src/pmw_platform/runtime/pi.py:1936-2081` | Every step keeps numbers unique, answers matched, locks held by who holds them, and the log gap-free |
| `PiTransport.Transport.SetFailure` | `src/pmw_platform/runtime/pi.py:1936-1944` | The first failure wins and reaches every future still pending |
| `PiTransport.Transport.TakeNumber` | `src/pmw_platform/runtime/pi.py:2050-2061` | The number a call takes is no other call's, and the transport invariant is kept |
| `PiTransport.Transport.Match` | `src/pmw_platform/runtime/pi.py:1983-1994` | A response, expected or not, changes no settled future and no call's phase |
| `PiTransport.Transport.HandleFrame` | `src/pmw_platform/runtime/pi.py:1970-2007` | Handling an observed frame keeps numbers unique, answers matched, locks held by who holds them, and the log gap-free |
| `ContextPolicy.StoreAcceptsIff` | `src/pmw_platform/runtime/store.py:1369-1413` | The store accepts exactly the values some valid policy binds to, and rebuilds that very policy |
| `ContextPolicy.ReceiptLookupAgrees` | `src/pmw_platform/runtime/store.py:1666-1685` | The first effective row of a session holds what the policy gives that session |
| `ContextPolicy.SortKeeps` | `src/pmw_platform/runtime/context.py:66-85` | Normalizing overrides keeps them and orders them by session |

## Left out

- Asyncio's own races (shielding, cancellation delivered twice, `wait_for`
  completing while it times out): a step is atomic between two suspension
  points.
- Usage totals, verifier-kit evidence, context-window and timestamp fields of a
  receipt: carried along by the source, checked field by field, independent of
  the properties here.
- Disk free-space arithmetic: a reading gives available and required bytes.
- Launch and receipt identity fields other than sessions, publication mode, arm
  and wall limit; the regular expressions on codes and identifiers.
- File-system metadata races (no-follow opens, identity re-checks, stat
  stability, fsync ordering): file systems are maps with atomic creation,
  linking and replacement; a scan or an audit sees a frozen tree.
- TreeScan.ScanTree: where a directory can be reached at several depths (exactly
  off the graphs of `LevelsExistIff`), the depth lies between the shortest way to
  the deepest name and the depth of some name; which of several crossed limits an
  early exit reports depends on the enumeration order and is not stated.
- EndToEnd.RunIsStored: starts where the launch is published and nothing else is,
  and takes a failed write to leave nothing on disk; `JointRunBacks`,
  `StoreTakesIff` and `LandedStands` drop the second assumption.
- EndToEnd.SettledForGood: starts there too; no write fails in the runs it is
  about.
- CohortTheorems.OfferedReceiptsAgree: of the arm's evidence a receipt carries the
  tally; `OfferedTogetherIff` adds the block itself.
- CohortAgenda.OfferedTogetherIff: the candidates an arm reviews are any, not tied
  to the digests the cohort carries.
- Rules for routes, directives, decompositions and directive citations: their
  verdict is an input of the review. Route counters and the byte bound of the
  arm's evidence are not modelled.
- The manifest's size bound, git subprocesses and the cache root's ancestors.
- LaunchTheorems.VisibleLaunchIsComplete: input files published beside the
  layout and the runtime claim lock are not modelled; launchers may run
  together without it.
- The transport's stderr loop, event queue, spawn and shutdown, and calls
  cancelled by their callers.
- CLI, registry and configuration parsing, preflight and readiness checks, the
  simpler pool of the sessions runner: shallow checks, or covered by the pool
  modelled here.
