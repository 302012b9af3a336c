# Verified model of the deployer's lifecycle control plane

The deployer creates, closes and resets game servers on request, one at a time, and must survive a crash between any
two file writes or Docker calls. This project models that control plane and proves what it promises:

* **Admission** (`Coordination`, `Coordinator`): the lock-and-condition-variable protocol that admits one mutation at a
  time, drains for maintenance, issues single-use maintenance leases and fails closed.
* **Jobs** (`JobTable`, `LifecycleJobs`): the bounded in-memory table of jobs with its operation index.
* **Durable operations** (`OperationStore`, `DurableStore`): idempotent reservations, transitions whose file
  replacement can fail before or after it becomes visible, deferred settlements, retention and restart recovery.
* **The whole control plane** (`ControlPlane` and its proof in `ControlPlaneInvariant`, `ControlPlaneFrames`,
  `ControlPlaneSteps`, `ControlPlaneSafety`, `ControlPlaneTheorems`; `ControlPlaneOrderly` and `ControlPlaneWedge` say
  exactly when two of its properties fail, `ControlPlaneJobs` runs it together with the job table, and
  `ControlPlaneWitnesses` and `ControlPlaneOverlooked` have runs in which properties fail): requests and their workers, other mutations,
  repairs and maintenance calls as threads that interleave at every lock, file write and pre-lock read, with failing
  writes, cancellations and restarts. The store and coordinator steps it takes are the functions the classes above are
  proved to implement.
* **Crash recovery** (`Ledger`, `ResetRecovery`, `ServerRecovery`, `WebDeploy`): the workers and repairs of a reset, a
  create, a close and a web-image deploy as step machines with ambiguous Docker failures, restarts and any number of
  repairs. `Ledger` ties the status they track to the real store.
* **Codecs and evidence** (`EnvFile`, `EnvPatch`, `Registry`, `ResetTarget`, `Evidence`, `Space`): the helpers the
  recovery proofs need, and the reset's attestation chain, receipts and checked space arithmetic.

What the source updates in place is a class whose methods are proved equal, state for state, to a pure function; loops
are methods with invariants; everything over runs is proved about the functions.

## How the model reads the source

A critical section of the coordinator is one step, and each read of the marker or journal before the lock is a step of
its own, so it may be stale by the time it is merged. A blocked caller sleeps until the next broadcast and re-tests only
its loop condition. `EnterMaintenance` is two steps. Time is a number; tokens, job ids and preparations are fresh. A
crash is a crash of the process: files keep what was visible. A durable write has three outcomes: not committed,
committed with an error, committed.

Two modelling assumptions are stated where they are used. `ControlPlane.RetentionHolds`: retention (of terminal records)
outlasts the pause of a request between finding a record and replaying it, and a journal's wait for its repair. The
source does not enforce the second half (deployer/operation_store.go:527-537), so the recovery machines do without it: a
finished record may expire at any moment, and their theorems say what then fails. And in the recovery machines a Docker stack reports the scenario and generation its data was seeded with, a successful `down`
removes the data, a failed `down` may have, and `up` seeds data only where there is none.

## What the proofs found

* **The journal flag can stay up without a journal.** Then no repair can clear it and maintenance cannot be left: only a
  restart helps (`ControlPlaneWedge.WedgeLastsUntilRestart`). Exactly two events do this
  (`ControlPlaneWedge.FlagGoesWrongIff`, over runs `ControlPlaneWedge.WedgedIff`): a request merges a sight of a journal
  that its owner has removed since, with nobody at work; or an owner's removal is visible but its directory sync fails.
  Both happen in runs from the first start-up (`ControlPlaneWitnesses.StaleMergeIsReachable`,
  `ControlPlaneWitnesses.UnsyncedRemovalWedges`).
* **A record that waits for recovery can be forgotten.** If maintenance is left between the two halves of an entry, the
  second half issues a lease although there is no marker. A create that presents it, and looked for a journal before
  another mutation left one behind, is promoted over that journal and ends as recovery-required without a journal of its
  own. Repairing the other journal reopens the barrier, and nothing is left that says the record waits
  (`ControlPlaneWitnesses.RecoveryCanBeForgotten`, deployer/main.go:572-627, 898-944, 1106-1108). While maintenance is
  never left between the halves, no promotion is over a journal and nothing is forgotten, whatever stale reads there are
  (`ControlPlaneOrderly.NobodyIsPromotedOverAJournal`, `ControlPlaneOrderly.NothingIsForgottenInOrder`). No ordinary
  lease is ever installed over a journal (`ControlPlaneTheorems.OpenLeasesStartClean`).
* **A journal can outlive its record.** A journal that could not be removed after its operation was recorded as finished
  waits for a repair; retention drops the record meanwhile (`Ledger.ExpiryIgnoresTheJournal`), and from then on every
  repair refuses the journal, restarts included (`ResetRecovery.PrunedRecordStrandsTheJournal`,
  `ServerRecovery.PrunedRecordStrandsTheJournal`, deployer/main.go:1313-1320). Ordinary runs get there
  (`ResetRecovery.SuccessCanBeStranded`, `ServerRecovery.CancellationCanBeStranded`).
* **`Recover` is only safe at start-up.** It does not drop deferred settlements; run later it lets the next retry
  overwrite a cancellation (`OperationStore.RecoverKeepsDeferringIff`, `OperationStore.RecoverMidRunRewritesTerminal`).
* **A retry can strand a reset.** If the worker's success could not be written and an identical retry writes it while a
  repair in the same process has the stack down, and that repair then fails, the record reads succeeded, later repairs
  only verify, and none can bring the stack back (`ResetRecovery.FlushDuringRepairStrands`; exactly when repairs work:
  `ResetRecovery.GoodRepairConvergesIff`).
* **A create that dies over a leftover registry entry cannot be repaired** (`ServerRecovery.GoodRepairFinishesIff`,
  `ServerRecovery.LeftoverEntryStrandsACreate`): the handler refuses an existing env file but not an existing entry.
* **A patch changes only the first assignment of a key**, while readers take the last: it overlays the updates exactly
  when no updated key is assigned twice, or the last assignment already has the update (`EnvPatch.PatchOverlaysIff`).
* **A request answered with an older in-memory job leaves its new record pending.** The answer is a success (200), so the
  exit settles nothing; it is the one exception in `ControlPlaneTheorems.ExitsAreSettled` and never accompanies an error.
  Once a worker has left its job as recovery-required (`ControlPlaneJobs.WorkerLeavesJobBehind`), that job is never
  finished, so never pruned; a repair settles the record but not the job. When the record has expired, every later request
  of the operation, until the process restarts, is answered with that job
  (`ControlPlaneJobs.LeftJobLeavesItPending`); a run with the real job table gets there
  (`ControlPlaneOverlooked.ReservationCanBeOverlooked`). Nobody is ever answered so unless another request of the
  operation was given a job by the same process (`ControlPlaneJobs.OlderJobsAreAnothers`).
* **A web deploy over a drifted container can never be repaired.** It checks the env's pin before it starts but not what
  runs. If it dies before it writes the pin, the repair only looks, and refuses for good when the running image is not
  the expected one (`WebDeploy.GoodRepairClearsIff`, `WebDeploy.DriftedImageStrands`, `WebDeploy.MismatchStrandsTheJournal`).

## Model

| member | source | states |
|---|---|---|
| ControlPlaneTheorems.ReachableIsSafe | deployer/main.go:446-1026 | in every run, under any interleaving, write failure, cancellation and restart, every reachable state satisfies the whole invariant |
| ControlPlaneTheorems.BarrierFailsClosed | deployer/main.go:498-628 | a marker, a doubtful settlement, or a journal without an active lease always means the barrier is closed |
| ControlPlaneTheorems.OpenLeasesStartClean | deployer/main.go:717-758 | a lease that is not a recovery's and is installed while the barrier is open starts with no marker, no journal and nothing unsettled, even after stale reads |
| ControlPlaneTheorems.ClosedLeasesAreSingleUse | deployer/main.go:588-627 | while the barrier is closed, any lease but a recovery's is a create's or a reset's of the leased subject, presents an issued and unused token, uses it up and binds it to its operation and job |
| ControlPlaneTheorems.TokensAdmitOnce | deployer/main.go:924-944 | over a whole run, restarts included, a maintenance token is spent on at most one promotion |
| ControlPlaneTheorems.OneWorkerPerReservation | deployer/main.go:640-690 | from the start of a worker until its record leaves the store, no second worker is started for the operation: not by concurrent identical requests, retries after ambiguous commits, repairs or restarts |
| ControlPlaneTheorems.StartersOwnTheRecord | deployer/main.go:4606-4611 | a worker starts only for the request that wrote the record, which is then running with nothing deferred |
| ControlPlaneTheorems.NothingIsForgotten | deployer/main.go:3816-3835 | every unfinished record in a running process is held by its request, or awaits repair with its journal on disk, or the barrier is closed over a doubtful settlement, or its request was answered with an older job; with one more exception, a recovery-required record whose worker was promoted over another journal (`raced`) |
| ControlPlaneTheorems.LeaseReturnsSettled | deployer/main.go:4606-4665 | when a worker gives back its lease its record is terminal, or waits for recovery with a journal on disk and the barrier closed, or the settlement flag is up; the journal is the record's own unless the worker was promoted over another (`raced`) |
| ControlPlaneOrderly.NobodyIsPromotedOverAJournal | deployer/main.go:572-628 | over any run in which no leave of maintenance comes between the halves of an entry, no worker is ever promoted over a journal, whatever it read before the lock |
| ControlPlaneOrderly.NothingIsForgottenInOrder | deployer/main.go:898-944 | in such a run NothingIsForgotten holds without the exception for raced workers |
| ControlPlaneOrderly.LeaseReturnsSettledInOrder | deployer/main.go:4606-4665 | in such a run the journal that a returned lease leaves to a recovery-required record is its own |
| ControlPlaneOrderly.ForeignJournalIff | deployer/main.go:4617-4625 | in any reachable state, when a lease is about to be returned with the record recovery-required and no settlement in doubt, the journal on disk is another operation's exactly if the worker was promoted over it |
| ControlPlaneWitnesses.RecoveryCanBeForgotten | deployer/main.go:898-944 | the exception is reachable: a run ends with the barrier open, no flag, marker, journal or thread, and a record that still waits for recovery |
| ControlPlaneTheorems.ExitsAreSettled | deployer/main.go:1712-1743 | when a request that reserved its record exits without a lease, the record is terminal or the settlement flag is up with the barrier closed, except after an answer with an older job, which is a success |
| ControlPlaneJobs.NothingIsForgottenWithJobs | deployer/main.go:1800-1847 | in every run together with the job table, NothingIsForgotten with its exception for older jobs traced: the record's request met, at an earlier step, a job that another request of its operation had been given since the last restart |
| ControlPlaneJobs.OlderJobsAreAnothers | deployer/main.go:1819-1828 | a request is answered with an older job only if another request of its operation was given one by this process |
| ControlPlaneJobs.LeftBehindLasts | deployer/main.go:1932-2063 | a job left as recovery-required, under which nobody works, stays in the table over any steps, look-ups and cancellations until a restart |
| ControlPlaneJobs.WorkerLeavesJobBehind | deployer/main.go:4617-4665 | a worker that gives back its lease with its record recovery-required and no settlement in doubt leaves such a job |
| ControlPlaneJobs.LeftJobIsMet | deployer/main.go:3865-3870 | from then until a restart every request of the operation that reserves a record is answered with that job |
| ControlPlaneJobs.LeftJobLeavesItPending | deployer/main.go:3865-3870 | and such a request is gone three steps later, its new record still pending and no settlement flag raised |
| ControlPlaneJobs.BackedIsRun | deployer/main.go:1800-1954 | a run together with the job table is a run of the control plane, so whatever holds of all runs holds of it |
| ControlPlaneJobs.BackedTables | deployer/main.go:1800-1954 | in every such run the table's index is right and its limit kept |
| ControlPlaneOverlooked.ReservationCanBeOverlooked | deployer/main.go:3865-3870 | a run from the first start-up, every answer about a job the table's own, ends with the barrier open, nobody at work and a record that stays pending: a create ends recovery-required, is repaired, expires, and is asked for again |
| ControlPlaneTheorems.DoubtAdmitsOnlyRecovery | deployer/main.go:518-527 | once a settlement is in doubt no step admits a new preparation, and only recoveries get the lease |
| ControlPlaneTheorems.DoubtLastsUntilRestart | deployer/main.go:518-527 | that doubt, with the barrier closed, lasts over any run until a restart |
| ControlPlaneTheorems.OneAtATime | deployer/main.go:717-758 | no two threads hold the lease, and no two hold the preparation |
| ControlPlaneTheorems.IdleMeansNobody | deployer/main.go:947-986 | idle maintenance entry succeeds only when no thread is anywhere between its admission and its exit or release |
| ControlPlaneTheorems.ExactlyOneWins | deployer/main.go:717-758 | of a mutation and an idle maintenance entry that race, exactly one succeeds, in either order |
| ControlPlaneTheorems.RaceHasOneWinner | deployer/main.go:947-986 | in any state in which a waiting mutation and an idle entry could both go ahead, whichever comes first succeeds, the other is refused, and a marker and a lease never come together |
| ControlPlaneTheorems.SleepersHaveAHolder | deployer/main.go:860-877 | a thread that sleeps without a pending wake-up always has an awake holder of the preparation or lease to wake it |
| ControlPlaneWedge.FlagGoesWrongIff | deployer/main.go:533-545 | an event makes an honest journal flag wrong if and only if it merges a sight of a journal that is gone while nobody is active, or is an owner's removal that is visible but not synced |
| ControlPlaneWedge.WedgedIff | deployer/main.go:1270-1291 | over every run the control plane is wedged exactly if such an event has happened since the last restart, and its flag is honest otherwise |
| ControlPlaneWedge.WedgeStays | deployer/main.go:802-813 | a pending flag without a journal survives every step of every thread and maintenance call, and the barrier closes with the holder's release |
| ControlPlaneWedge.WedgeLastsUntilRestart | deployer/main.go:802-813 | so a wedged control plane stays wedged over any run until it restarts |
| ControlPlaneWedge.WedgedMeansClosed | deployer/main.go:988-1026 | once its holder is gone, a wedged control plane refuses every preparation, mutation and way of leaving maintenance |
| ControlPlaneWitnesses.UnsyncedRemovalWedges | deployer/main.go:1280-1286 | a run in which a mutation's journal removal is not synced ends wedged, the barrier closed and nobody at work |
| ControlPlaneWitnesses.StaleMergeIsReachable | deployer/main.go:533-545 | in a run a request merges its sight of a journal that was removed, and that wedges the control plane |
| ControlPlaneInvariant.StartIsOk | deployer/main.go:692-715 | the state before the first start-up satisfies the invariant |
| ControlPlaneFrames.OtherThreadOk | deployer/main.go:529-628 | whatever one thread does, every other thread keeps what it relies on about its record, the journal and the coordinator |
| ControlPlaneSteps.OrphansOk | deployer/main.go:3816-3835 | a step that lets a thread end leaves no unfinished record without somebody to answer for it |
| ControlPlaneSteps.SleepersStay | deployer/main.go:860-877 | a section that frees the preparation or the lease also broadcasts |
| ControlPlaneSteps.ReplayStoresWell | deployer/operation_store.go:184-240 | a reservation or replay moves only records it may move, and loses no record that waits for repair |
| ControlPlaneSteps.TransitStoresWell | deployer/operation_store.go:242-285 | a transition moves only its own record or the journal's, and loses no record that waits for repair |
| ControlPlaneSafety.ActKeeps | deployer/main.go:660-690 | every step a thread can take from any reachable state keeps the invariant |
| ControlPlaneSafety.RestartKeeps | deployer/main.go:2109-2126 | a restart at any moment, with start-up writes failing or not, keeps the invariant |
| ControlPlaneSafety.StepKeeps | deployer/main.go:446-1026 | every event of the control plane keeps the invariant |
| Coordination.StaleJournalReadWedges | deployer/main.go:533-545 | a request that read the journal before its owner removed it leaves an idle control plane closed, with every way of leaving maintenance refused |
| Coordination.CurrentReadsKeepTheFlagHonest | deployer/main.go:533-545 | one merge of a current read raises the flag without an active lease only over a journal; over runs see ControlPlaneWedge.WedgedIff |
| Coordination.StalePromotionOverJournal | deployer/main.go:574-602 | a stale read before a promotion installs a maintenance lease while a journal is on disk |
| Coordinator.OperationCoordinator.constructor | deployer/main.go:692-715 | a new coordinator is closed exactly when a marker or journal is present |
| Coordinator.OperationCoordinator.Prepare | deployer/main.go:529-570 | admission is granted, refused or put to sleep exactly as specified, and the barrier fails closed afterwards |
| Coordinator.OperationCoordinator.Promote | deployer/main.go:572-628 | promotion claims the job only once nothing else can refuse it, consumes the maintenance lease, and keeps the barrier |
| Coordinator.OperationCoordinator.Complete | deployer/main.go:498-516 | completing twice is completing once, and an unsettled completion closes the barrier |
| Coordinator.OperationCoordinator.MarkPreparationSettlementPending | deployer/main.go:518-527 | a doubtful settlement closes the barrier and stays |
| Coordinator.OperationCoordinator.Begin | deployer/main.go:717-758 | an ordinary lease needs an open barrier with no journal, and closes the barrier when it finds one |
| Coordinator.OperationCoordinator.BeginRecovery | deployer/main.go:760-787 | a recovery lease needs a journal or its flag, and closes the barrier |
| Coordinator.OperationCoordinator.MarkLifecycleJournalPending | deployer/main.go:789-800 | marking a journal without an active lease closes the barrier |
| Coordinator.OperationCoordinator.ClearLifecycleJournalPending | deployer/main.go:802-813 | clearing reopens only without a marker or doubtful settlement |
| Coordinator.OperationCoordinator.LifecycleRecoveryPending | deployer/main.go:815-826 | asking whether recovery is pending records a journal it finds |
| Coordinator.OperationCoordinator.Done | deployer/main.go:860-877 | releasing a lease over a journal closes the barrier, and only the active lease can be released |
| Coordinator.OperationCoordinator.EnterMaintenance | deployer/main.go:898-924 | the first half closes the barrier and cancels the holders once the marker is durable |
| Coordinator.OperationCoordinator.AwaitDrain | deployer/main.go:925-944 | the second half issues a lease only when drained, and reissues only an unused one |
| Coordinator.OperationCoordinator.EnterMaintenanceIfIdle | deployer/main.go:947-986 | an idle entry whose marker became visible without being synced still closes the barrier |
| Coordinator.OperationCoordinator.LeaveMaintenance | deployer/main.go:988-1026 | maintenance is left only when drained, settled and without a journal, and only if the marker could be removed |
| JobTable.RunKeepsInv | deployer/main.go:1800-1954 | over any calls the operation index is a bijection onto the jobs that carry an operation, and the table stays within its limit |
| JobTable.RunIsOnward | deployer/main.go:1892-1954 | a job's status only moves onward, and a terminal one never changes while the job is in the table |
| JobTable.ClaimedOnlyWhilePending | deployer/main.go:1863-1906 | a job is claimed at most once, and never after it was cancelled |
| JobTable.RecoveryJobAnswersForGood | deployer/main.go:1932-2063 | over any calls and any time a job finished as recovery-required stays, and answers every later reservation of its operation with itself or a conflict |
| JobTable.FreshIsFree | deployer/main.go:1833-1847 | a new job id is one the table does not have |
| LifecycleJobs.LifecycleJobManager.PruneExpiredTerminal | deployer/main.go:2051-2063 | pruning removes exactly the terminal jobs past their retention, with their index entries |
| LifecycleJobs.LifecycleJobManager.ReserveWithOperation | deployer/main.go:1800-1847 | a reservation answers with the operation's job, a conflict, a full table, or a new job |
| LifecycleJobs.LifecycleJobManager.Discard | deployer/main.go:1849-1861 | discarding removes the job and its index entry |
| LifecycleJobs.LifecycleJobManager.RequestCancel | deployer/main.go:1863-1890 | a pending job is cancelled at once, a running one is only signalled |
| LifecycleJobs.LifecycleJobManager.Claim | deployer/main.go:1892-1906 | only a pending job can be claimed |
| LifecycleJobs.LifecycleJobManager.FinishWithPublicMessage | deployer/main.go:1932-1956 | finishing leaves a terminal job as it is |
| OperationStore.RunKeepsInv | deployer/operation_store.go:184-374 | over any calls and write failures memory equals the visible file, capacity holds, records are valid, and deferred settlements shadow live records of the same request |
| OperationStore.TerminalIsFinal | deployer/operation_store.go:242-285 | a terminal record stays as it is until a call finds it past its retention |
| OperationStore.ReserveKeepsInv | deployer/operation_store.go:184-240 | a reservation keeps the store in order whatever its write does |
| OperationStore.TransitionKeepsInv | deployer/operation_store.go:242-285 | a transition keeps the store in order whatever its write does |
| OperationStore.ConflictChangesNothing | deployer/operation_store.go:190-196 | the same id with another kind, subject or fingerprint changes nothing |
| OperationStore.NewReservationsAreNew | deployer/operation_store.go:184-240 | a reservation is reported new exactly when this call put the record there and it is durable |
| OperationStore.ConfirmationIsExact | deployer/main.go:1689-1710 | the transition wrapper succeeds exactly when a lookup afterwards shows the requested status, HTTP status and message |
| OperationStore.RecoverSettles | deployer/operation_store.go:300-339 | recovery changes no terminal record and reports success only when nothing but the journal's operation is unfinished |
| OperationStore.StartupSettles | deployer/main.go:2109-2126 | start-up, with its one retry, succeeds only with everything settled and nothing deferred |
| OperationStore.StartupKeeps | deployer/main.go:2109-2126 | start-up keeps the journal's record and every terminal one that retention keeps |
| OperationStore.RecoverAgain | deployer/operation_store.go:300-339 | recovering again with the same journal changes no status |
| OperationStore.RecoverKeepsDeferringIff | deployer/operation_store.go:300-339 | a recovery that takes effect leaves the deferred settlements consistent exactly when the journal's operation is the only one deferred |
| OperationStore.RecoverMidRunRewritesTerminal | deployer/operation_store.go:184-240 | after a recovery in mid-run, an identical retry overwrites the cancellation with the old settlement |
| OperationStore.ReserveReplays | deployer/operation_store.go:184-240 | a reservation keeps, flushes or (past retention) drops each record, and adds none but its own |
| OperationStore.TransitionTransits | deployer/operation_store.go:242-285 | after a transition the record shows the goal, or it waits in the deferred map, or the store is unchanged; other records are kept or flushed |
| DurableStore.PruneExpired | deployer/operation_store.go:527-537 | the pruning loop keeps exactly the records within retention and reports whether it dropped any |
| DurableStore.DurableOperationStore.PersistAndInstall | deployer/operation_store.go:348-374 | memory is replaced exactly when the file's replacement became visible |
| DurableStore.DurableOperationStore.Reserve | deployer/operation_store.go:184-240 | the method does to the three maps what the proved reservation does |
| DurableStore.DurableOperationStore.Transition | deployer/operation_store.go:242-285 | the method does what the proved transition does, deferral included |
| DurableStore.DurableOperationStore.Lookup | deployer/operation_store.go:287-298 | lookup answers from memory and changes nothing |
| DurableStore.DurableOperationStore.Recover | deployer/operation_store.go:300-339 | the recovery loop does what the proved recovery does |
| DurableStore.Index | deployer/operation_store.go:158-166 | reading a document finds its first invalid or repeated record, or indexes all of it |
| DurableStore.Open | deployer/operation_store.go:100-182 | opening prunes, refuses a document over capacity, and starts with a consistent store |
| DurableStore.IndexedHolds | deployer/operation_store.go:158-166 | every record of a readable document is found under its id |
| DurableStore.IndexedSize | deployer/operation_store.go:158-166 | indexing a document with distinct ids loses no record |
| Ledger.TransitionIsMoved | deployer/operation_store.go:242-285 | a transition of the store is the ledger's move; where it would write the very record that is there, a failed write counts as visible |
| Ledger.ReplayIsFlushed | deployer/operation_store.go:184-207 | a retry of the store is the ledger's flush, with the same reading of a write that would change nothing |
| Ledger.ExpiryIgnoresTheJournal | deployer/operation_store.go:527-537 | a new reservation, another record's transition and a start-up each drop a finished record past its retention, even the journal's own |
| Ledger.StartupIsRecovered | deployer/main.go:2109-2126 | what they assume of a restart is what start-up does |
| ResetRecovery.ResetIsAllOrNothing | deployer/main.go:4406-4500 | after any crashes, failures, repairs and restarts, with no journal left and nobody at work, either nothing was touched and the record is not succeeded, or env, entry and data are the target's, the repair flag is down and the record succeeded |
| ResetRecovery.ClearingMeansConverged | deployer/main.go:1293-1514 | whichever step removes the journal, the worker's or a repair's, leaves exactly the target state |
| ResetRecovery.UninterruptedConverges | deployer/main.go:4406-4500 | a reset in which nothing fails ends in that same state |
| ResetRecovery.RepairIsNeverStranded | deployer/main.go:5102-5120 | a raised repair flag always has the reset's journal on disk, mid-crash included |
| ResetRecovery.DownIsJournaledFirst | deployer/main.go:1428-1466 | every `down`, a worker's or a repair's, happens with the target env and entry in place and the journal at the down stage |
| ResetRecovery.GoodRepairConvergesIff | deployer/main.go:1313-1358 | a repair in which every call succeeds completes the reset exactly when the store still has the record and, if that reads succeeded, the data is there and the env has every update |
| ResetRecovery.PrunedRecordStrandsTheJournal | deployer/main.go:1313-1320 | once the record is gone the journal stays for good: over any repairs, restarts and outcomes env, entry, data and journal do not change |
| ResetRecovery.SuccessCanBeStranded | deployer/operation_store.go:527-537 | a reset that went well, whose journal could not be removed before its record expired, ends in such a state |
| ResetRecovery.GoodRepairOfSucceeded | deployer/main.go:1516-1566 | a repair of a succeeded operation only verifies, and leaves everything as it was when verification fails |
| ResetRecovery.FlushDuringRepairStrands | deployer/main.go:640-658 | a deferred success written during a failing repair leads to a state no repair leaves |
| ResetRecovery.ResetsAreLawful | deployer/main.go:5466-5477 | the deployer's env patch and derived entry meet what the recovery proof needs, and the final env carries every update exactly when no updated key was assigned twice to no avail |
| ResetRecovery.SyncDerivesTheEntry | deployer/main.go:5204-5250 | the machine's entry and repair flag together are the registry's entry, and its synchronisation is that entry's derivation |
| ResetRecovery.RunKeeps | deployer/main.go:1293-1514 | every event keeps the journal's stage telling the truth about env, entry, data and record |
| ServerRecovery.ServersAreAllOrNothing | deployer/main.go:3946-4012 | a create, over a leftover entry or stack or none, ends with env, entry and stack and the operation succeeded, or with nothing done; a close ends with env, entry and stack gone and the operation succeeded, or with all of them untouched |
| ServerRecovery.NoEnvMeansNoStack | deployer/main.go:4171-4214 | in a close the env is gone only after a successful `down`, so recovery may skip `down` |
| ServerRecovery.GoodRepairFinishesIff | deployer/main.go:1313-1427 | a repair in which every call succeeds clears the journal exactly when the store still has the record and it is not a create without an env over a leftover entry |
| ServerRecovery.PrunedRecordStrandsTheJournal | deployer/main.go:1313-1320 | once the record is gone no repair and no restart changes anything, and the journal stays |
| ServerRecovery.CancellationCanBeStranded | deployer/operation_store.go:527-537 | a create that crashed early and was cancelled by its repair, but whose journal could not be removed in time, ends in such a state |
| ServerRecovery.LeftoverEntryStrandsACreate | deployer/main.go:1393-1412 | a create without an env over a leftover entry is reachable |
| ServerRecovery.RunKeeps | deployer/main.go:1485-1514 | every event of a create, a close and their repairs keeps their invariant |
| WebDeploy.WebDeploysSettle | deployer/web_game_deploy.go:165-250 | with no journal left either nothing was done or the running image is the env's pin, approved or expected; only the web pin ever changed; the refusal for a differing pin is unreachable |
| WebDeploy.ClearingMeansSettled | deployer/web_game_deploy.go:347-370 | a deploy or repair that clears its journal leaves image and pin agreeing |
| WebDeploy.GoodRepairClearsIff | deployer/web_game_deploy.go:347-370 | a repair in which every call succeeds clears the journal exactly when the env has the approved pin or the running image is the expected one, and otherwise changes nothing |
| WebDeploy.MismatchStrandsTheJournal | deployer/web_game_deploy.go:357-360 | with the old pin in the env and another image running, no repair and no restart ever changes anything |
| WebDeploy.DriftedImageStrands | deployer/web_game_deploy.go:191-222 | a deploy that starts over such a container and dies before it writes the pin ends there |
| WebDeploy.OnlyThePinChanges | deployer/web_game_deploy.go:254-277 | writing the pin changes no other value and no byte of another line |
| WebDeploy.WritePin | deployer/web_game_deploy.go:254-277 | the loop rewrites every assignment of the pin, or appends one |
| EnvFile.ParseUndoesPrint | deployer/main.go:4772-4808 | lines that are printed are read back unchanged |
| EnvFile.PrintUndoesParse | deployer/main.go:4772-4808 | a text that is read is printed back unchanged, but for a missing last newline |
| EnvFile.AssignmentIsReadable | deployer/main.go:4772-4799 | an assignment the deployer writes is read back with its key and value |
| EnvFile.ValueIsLast | deployer/main.go:5260-5268 | the value of a key is its last assignment's |
| EnvPatch.PatchLines | deployer/main.go:4731-4770 | the patch loop produces the specified lines and the values they assign |
| EnvPatch.RewriteLines | deployer/main.go:4742-4753 | the first loop rewrites exactly the first assignment of each updated key and knows what remains |
| EnvPatch.SortKeys | deployer/main.go:4755-4764 | the remaining keys are appended in one determined order |
| EnvPatch.PatchTwiceIsOnce | deployer/main.go:4731-4770 | patching again with the same updates changes no line |
| EnvPatch.PatchingTheFileTwice | deployer/main.go:4731-4808 | a repeated patch leaves the file byte for byte the same |
| EnvPatch.PatchOverlaysIff | deployer/main.go:4731-4770 | a patch overlays the updates exactly when each updated key is assigned at most once or already ends with its update |
| EnvPatch.DuplicateKeyKeepsItsOldValue | deployer/main.go:4742-4753 | a key assigned twice keeps its old value |
| Registry.NormalizedIdsAreCanonical | deployer/main.go:4960-4986 | an id is accepted exactly when its lower-case form is canonical, and canonical ids are its fixed points |
| Registry.ProjectsDiffer | deployer/main.go:4980-4984 | only the id that is refused maps to the shared stack's project |
| Registry.DerivingIsStable | deployer/main.go:5204-5250 | deriving an entry twice is deriving it once, and the repair flag passes through |
| Registry.CanonicalEntries | deployer/main.go:5634-5656 | the loop succeeds exactly on acceptable entries with distinct ids, and then returns their canonical forms |
| Registry.CanonicalsAreCanonical | deployer/main.go:5634-5656 | canonical entries are accepted as they stand |
| Registry.ReadOnce | deployer/main.go:5501-5632 | after one read a second changes nothing, and no line but the registry's is ever touched |
| ResetTarget.NormalizeTwice | deployer/main.go:5415-5464 | normalising a reset target twice is normalising it once |
| ResetTarget.NormalizedSurvivesTheJournal | deployer/reset_image_pins.go:17-45 | a normalised target comes back from a journal as it went in |
| ResetTarget.JournalTargetsAreStable | deployer/reset_image_pins.go:17-45 | whatever a journal is read as, older ones included, reads back the same |
| ResetTarget.NormalizedIsWritable | deployer/main.go:5430-5443 | every update of a normalised target has an env key and a value on one line |
| ResetTarget.NormalizedSetsTheWorld | deployer/main.go:5444-5454 | a normalised target always sets scenario, generation and seeding |
| ResetTarget.EditableTarget.NormalizeStorageInPlace | deployer/reset_storage_pins.go:33-59 | the in-place loop succeeds exactly when the specification does, and leaves its result |
| Evidence.ValidateJournal | deployer/reset_execution_journal.go:64-99 | the loop accepts exactly the journals whose attestations are each in order and each continue the one before |
| Evidence.PrefixesAreAccepted | deployer/reset_execution_journal.go:64-99 | every prefix of an accepted chain is accepted |
| Evidence.ShaDeterminesChain | deployer/reset_execution_journal.go:53-62 | under an injective hash the last digest determines header and chain |
| Evidence.AcceptedEvidenceIsOneTimeline | deployer/reset_publication_receipt.go:38-69 | window opening, preflight, acceptance, the three phases, cutoff, issue, now, expiry and deadline are in order, with one revision and one freeze receipt |
| Evidence.DistinctContainers | deployer/reset_execution_evidence.go:174-184 | the loop accepts exactly five different well-formed container ids |
| Evidence.PreflightSpaceIsReal | deployer/reset_execution_evidence.go:185-195 | an accepted preflight has the space its remaining work needs |
| Space.CheckedSum | deployer/reset_space_budget.go:32-41 | the checked sum fails exactly when the true sum exceeds 64 bits, and is exact otherwise |
| Space.RequiredSpace | deployer/reset_space_budget.go:43-56 | the requirement exists exactly for complete budgets without overflow, and is the true sum |
| Space.VerifyBudget | deployer/reset_space_budget.go:58-73 | the verdict is incomplete, overflow, unobserved, short or enough, in that order |
| Space.CapsExcludeOverflow | deployer/reset_execution_evidence.go:185-195 | under an accepted plan a preflight within its caps fails only for a missing observation or a shortage |

## Left out

- HTTP routing, authentication, JSON wire formats and response texts: plumbing around the protocol; JSON documents are modelled as the values they carry.
- Docker, nginx, the image registry and health polling: each call is a choice of success, failure or ambiguous failure.
- File permissions, ownership, symbolic links and loss of power: the model is of process crashes, and a write is atomic.
- The native owner and restore gates and the intent digest they guard: production start-up never installs them.
- Legacy requests without an operation id: they take part in the barrier and journal properties, not in those of durable records.
- bindOperationSubject and recordOperationResult: fields of a job that no property depends on; and the job ids drawn are taken not to repeat (deployer/main.go:1800-1847).
- The job table inside `ControlPlane`: there its answers are arbitrary (new job, error, older job; claimed or not). `ControlPlaneJobs` adds the table itself; the runs of `ControlPlaneWitnesses` need no older job.
- Expiry of a journal's finished record inside `ControlPlane`: see `RetentionHolds` above; the recovery machines have it.
- Commands that a crashed deployer leaves running in Docker: a crash ends its call with one of the call's outcomes.
- Other servers' env files and ports, and the allow-list of reserved ids: `Registry` takes the reserved ids as a parameter.
- Registry rewrites by readers inside the recovery machines: `Registry.ReadOnce` shows that they change nothing the machines look at.
- An image that is recognised by its digest alone in a web deploy: `WebDeploy` compares pins.
- The D101 reset's refusals during repair, and candidate image pulls: guards before the first step of `ResetRecovery`.
- The shared fields of plan, preflight and receipt that are only compared for equality (source commits, image digests, proof digests): they do not enter the timeline.
- The "patch" and "deploy" journals: repaired by one idempotent call each.
- tools/localhost-acceptance: file inventories and subprocess orchestration.
- ResetTarget.NormalizeImages: on values rather than through the pointer, since it only replaces a map by an equal one.
- EnvFile.IsSpace: characters are code points; invalid UTF-8 is not modelled.
- Registry.Lower: lower-casing beyond ASCII is not modelled; ids are ASCII and other projects never match.
- OperationStore.Record: times are unbounded naturals, so overflow of 64-bit nanoseconds is not modelled.
