# Verified models of the OpenST SaaS back end

This project models the parts of the OpenST SaaS back end in which several processes share tables and queues, and proves
what those parts are built for.  Each component is written twice: as a state machine or a declarative specification about
which the theorems are proved, and as classes and loops in the form of the program, every method of which is proved to
have the specified effect.

**The hold/block protocol** (`WorkerProtocol`, `WorkerFleet` and the modules named `Protocol...`).  The workers of a client are
moved between transaction-executing processes by associating and disassociating scripts.  Markers, hold messages and wake-ups
on the processes' queues see to it that a new process waits for the old ones.
A `World` is the worker table, both queues of every process, the consumption flags and the pending actions of the script in
flight; every interleaving of arrivals, publications, deliveries, commands and restarts is a run.  The central device is
`Flush`: it publishes everything that is pending, every handler commutes with it, and so the invariant has to be proved
only of states between operations.
`ProtocolInvariants` to `ProtocolRuns` prove the invariant of orderly runs.  `ProtocolSafety`, `ProtocolDanger` and
`ProtocolMispairing` weaken it to what runs without dangerous operations keep; `ProtocolProgress` has the theorems about
these runs.  `ProtocolStandstill`, `ProtocolAssociationDeadlock` and `ProtocolDisassociationDeadlock` construct a deadlock
after every dangerous operation, so that the danger is exactly the possibility of a deadlock.
`ProtocolPlacing` and `ProtocolGating` prove the order in which messages run, with an invariant of their own that neither
misdirected markers nor stale wake-ups disturb; `ProtocolDriving`, `ProtocolGateCondition` and `ProtocolGateRepetition` show
exactly which operations can break it.  `ProtocolAttachment` says who is attached where, and `ProtocolStatuses`,
`ProtocolStatusRuns` and `ProtocolStatusCondition` which status a worker comes back to.  `ProtocolCounterexamples` and
`ProtocolRepetitionExamples` have the concrete runs.

**Block scanning** (`BatchCutting`, `BlockDelegator`, `BalanceSync`, `RowLocks`, `BlockScanning`, `ScannerEndToEnd`).  The
delegator cuts each block into messages with a possibly fractional batch size (an exact `real` here; bounds of `slice` are
truncated, section 22.1.3.22 of ECMAScript 2015); scanners claim the known transactions by row lock and fold the Transfer
events (EIP-20, section Events) of the unknown ones into balances.  The end-to-end theorem says that cutting, classifying
and summing, interleaved and in any order, agree with one pass over the block.

**Smaller cores**: the configuration store (`ConfigStore`, `ConfigStoreRuns`), the multi-key cache (`MultiCache`), the
nonce-filling queue (`NonceFiller`), the transaction-log codec and batched writer with the cache in front
(`TransactionLogCodec`, `TransactionLogModel`, `TransactionLogCaching`) and the named bits (`BitColumns`).  `Wrappers`,
`Sequences` and `Decimals` hold what they share.

`dafny verify dfyconfig.toml` checks everything.

## What the code does not do

Eight promises turned out to need a condition.  Each is proved exactly, with a run or an input on the other side.

* A disassociation pairs the i-th process with the i-th key of a JavaScript object, and numeric keys are listed in ascending
  order (`deassociate_worker.js:251`).  Its markers reach the right processes if and only if the processes are given in
  ascending order of their workers' ids.  Otherwise the system can stop for ever, if and only if a worker whose marker goes
  astray still has an old hold message queued at its old process and another worker's marker may run after its own
  (`DisassociationCanDeadlockIff`; `CrossedMarkersDeadlock` is a run, `LateCrossingIsHarmless` a wrong pairing that does no harm).
* A wake-up left on a command queue by a restart can, after the worker has moved, activate it in place of its later
  wake-up, and its new process then stands still for ever.  An association can lead there if and only if it attaches such a
  worker, and a worker that is on a process, or blocking elsewhere, makes its new process hold (`AssociationCanDeadlockIff`;
  `StaleWakeUpDeadlock` is a run, `StaleWakeUpAloneIsHarmless` a stale wake-up that does no harm).
* The associating script looks only at workers that are on a process (`associate_worker.js:278-281`).  If a disassociated
  worker is still blocking and some worker is on a process, the gating order can break, and only then
  (`AssociationEndangersGatingIff`).
* The disassociating script accepts a process named twice and then publishes a marker that names nobody
  (`deassociate_worker.js:239-252`).  The hold messages lose their effect before that marker has run, and the gating order can
  break, if and only if some worker stays on a process that is not named (`DisassociationEndangersGatingIff`;
  `RepetitionBreaksGating` is a run).
* A hold message does not record the status it replaces, and wake-ups and restarts make active
  (`command_message_processor.js:148-155`, `init_process.js:94-113`).  A disassociation sends hold messages to all siblings, so it
  can switch an inactive worker on, if and only if one stays on a process (`DisassociationKeepsStatusesIff`;
  `InactiveSiblingSwitchedOn` is a state).  Nothing else changes a status for good: associations never do
  (`AssociationKeepsStatuses`), nobody is ever switched off (`NobodySwitchedOff`), and runs without such a disassociation give
  every worker its status back (`RunRestoresStatuses`).
* `_getLockId` turns a process id into decimals, so ids that differ in zeros at the end collide; scanners read their own
  rows if and only if no two with the same id have a claimable row between them.
* Adding a configuration under the group NULL checks for a row that no row can match, so it can be added twice.
* An addition whose identifying keys are those of any existing row succeeds with that row's id and stores nothing
  (`config_strategy.js:100-118`).  A read of the id gives what was added if and only if the row agrees in all other stored
  keys as well; the secrets are among these.  The group of the addition has no row then (`SecondSecretIsLost`).

Some smaller observations: a batch of transaction logs that stops at a failure leaves rows written but their cache entries
uncleared, so that the cache can go stale (`StoppedBatchKeepsAgreementIff`); categorisation goes through all locked records
once per hundred hashes, so a message of more than a hundred hashes lists every uuid again; the autoscaling kind is
identified by a key it does not store (`config_strategy.js:269-275`), so its digest can not be recomputed from a read; and
the exclusive-or trick for unsetting works for a mask of several bits only if all of them or none are set.

The theorems about progress hold for runs without dangerous operations (`HarmlessRun`): every accepted operation is started
in a settled state and is not dangerous.  A state is settled when no earlier operation has left behind a marker that names
nobody, a hold message away from its worker's process or ahead of another's marker, or a wake-up away from its worker's
process; that can be read off tables and queues, and whenever everything is worked off the state is settled
(`DrainedIsNormal`).  Orderly runs are such runs (`OrderlyReachesSettled`): disassociations name their processes in ascending
order of the workers' ids, and no association attaches a worker with a wake-up waiting elsewhere.  The settled start is
needed: what a repeated process leaves behind can make a later operation fatal that is not dangerous itself
(`UnsettledAssociationDeadlocks`, `UnsettledDisassociationDeadlocks`).

The gating theorems are about careful runs (`CarefulRun`), orderly or not, harmless or not: no association starts while a
worker of the client is blocking, and no disassociation names a process twice.

## Model

| member | source | states |
|---|---|---|
| ProtocolProgress.NoLostWakeUp | lib/execute_transaction_management/command_message_processor.js:107-269 | In every state reached with no script in flight by a run without dangerous operations, after any restarts, a held worker has stopped its process, and its wake-up waits on that process's command queue or some blocking worker's marker waits in the queue of a consuming process |
| ProtocolProgress.NoDeadlock | lib/execute_transaction_management/command_message_processor.js:107-269 | While anything is queued or in flight after a run without dangerous operations, some process or the script can take a step |
| ProtocolAssociationDeadlock.AssociationCanDeadlockIff | lib/execute_transaction_management/associate_worker.js:317-452 | After such a run, an association the script accepts in a settled state can lead to a deadlock if and only if a worker it attaches has a wake-up waiting on the command queue of another process than its new one, and some worker is on a process, or blocking with its marker not on the new process's queue |
| ProtocolDisassociationDeadlock.DisassociationCanDeadlockIff | lib/execute_transaction_management/deassociate_worker.js:207-331 | After such a run, a disassociation the script accepts in a settled state, its processes in any order and possibly named twice, can lead to a deadlock if and only if some worker's marker goes to another process than the one it is taken from, an old hold message for it is still queued there, and another worker's marker does not come before it on the same queue |
| ProtocolProgress.RunKeepsSafeInv | lib/execute_transaction_management/init_process.js:65-112 | What every run without dangerous operations keeps, also while a script is half way through its publications, whatever harmless leftovers of unlucky operations are about |
| ProtocolProgress.OrderlyReachesSettled | lib/execute_transaction_management/command_message_processor.js:107-269 | Every orderly run is one without dangerous operations, and the states it reaches with nothing in flight are settled |
| ProtocolDanger.HarmlessAssociation | lib/execute_transaction_management/associate_worker.js:317-452 | An accepted association without the danger leads into a safe state, stale wake-ups or not |
| ProtocolMispairing.HarmlessDisassociation | lib/execute_transaction_management/deassociate_worker.js:207-331 | An accepted disassociation without the danger leads into a safe state, however it pairs markers with processes |
| ProtocolMispairing.ReleaseEffect | lib/execute_transaction_management/deassociate_worker.js:180-331 | The published state of any accepted disassociation, in any order and with repetitions: which workers are detached and blocking, which markers each process gets in which order, and the hold messages of the siblings |
| ProtocolSafety.TakeTransactionKeepsSafe | lib/execute_transaction_management/command_message_processor.js:107-222 | Running the head of a transaction queue keeps a safe state safe, whichever of the messages it is |
| ProtocolSafety.TakeCommandKeepsSafe | lib/execute_transaction_management/command_message_processor.js:230-269 | Running a wake-up keeps a safe state safe, also one for a worker that is on another process by now |
| ProtocolStandstill.StuckLeadsToDeadlock | executables/rmq_subscribers/execute_transaction.js:82-95 | Where one process has stopped with something queued and nobody will wake it, working off everything else ends in a deadlock |
| ProtocolProgress.Draining | lib/execute_transaction_management/command_message_processor.js:129-171 | Without new work, the number of working-off steps of any run, with restarts anywhere between them, is bounded by a measure of markers, holds, transactions and wake-ups left |
| ProtocolProgress.DrainedIsNormal | executables/rmq_subscribers/execute_transaction.js:82-95 | Once nothing is left after a run without dangerous operations, no worker is on hold or blocking, every process consumes its transaction queue, and the state is settled |
| ProtocolRuns.RunKeepsInv | lib/execute_transaction_management/init_process.js:65-112 | Every orderly run keeps the ten-part invariant of tables, queues and consumption flags, also while a script is half way through its publications |
| ProtocolProgress.OneWorkerOneMarker | lib/execute_transaction_management/associate_worker.js:159-242 | After a run without dangerous operations: at most one worker on a process, and a worker is blocking exactly when a marker for it is queued, which is then the only one |
| ProtocolRuns.OfferedAfterMarker | app/models/client_worker_managed_address_id.js:103-124 | After an orderly run, a worker that can be associated has no marker and no hold message left in any queue |
| ProtocolRuns.OnlyOperationsMove | lib/execute_transaction_management/deassociate_worker.js:284-290 | No handler, restart, arrival or publication changes the process of a worker, so it does not matter when the disassociation script reads the siblings |
| ProtocolRuns.StepKeepsInv | executables/rmq_subscribers/execute_transaction.js:105-192 | Each single step (arrival, publication, message, command, restart, accepted or rejected operation) keeps the invariant, under the two conditions on operations |
| ProtocolGating.GatingOrder | lib/execute_transaction_management/associate_worker.js:273-452 | On every careful run (associations start with no blocking worker, disassociations name each process once; their order, stale wake-ups and deadlocks do not matter), a process runs a message behind its hold message only after every marker of that operation has run |
| ProtocolGating.AheadOfMarkersHasRun | lib/execute_transaction_management/associate_worker.js:273-452 | The order itself: once such a run has a process past its hold message, every message that ever stood at or ahead of the place of one of the operation's markers, on any queue, has run |
| ProtocolGating.StepIsFifo | executables/rmq_subscribers/execute_transaction.js:221-250 | No step loses, reorders or repeats what was put on a transaction queue: what has run and what waits, taken together, only grow at the end |
| ProtocolGating.RunKeepsGate | lib/execute_transaction_management/deassociate_worker.js:114-145 | What every careful run keeps: queued holds stand on their workers' own processes or ahead of their markers, each marker waits at most once, the markers waiting are those of the newest operation, and where its hold message ran while a worker is blocking it is the last thing that ran |
| ProtocolPlacing.TakeTransactionKeepsPlaced | lib/execute_transaction_management/command_message_processor.js:107-222 | Running the head of a transaction queue keeps every queued hold message on its own worker's process, or ahead of a marker if the worker was taken off, and every held worker's process stopped, whether or not earlier operations went wrong |
| ProtocolGateCondition.AssociationEndangersGatingIff | lib/execute_transaction_management/associate_worker.js:273-308 | After a careful run, any association the script accepts can break the gating order if and only if some worker is blocking and some worker is on a process: the script checks only workers on a process |
| ProtocolGateCondition.DangerousRun | lib/execute_transaction_management/associate_worker.js:278-281 | Constructs, for every such association, the continuation in which a process runs past its hold message while a marker of that operation is outstanding |
| ProtocolGateRepetition.DisassociationEndangersGatingIff | lib/execute_transaction_management/deassociate_worker.js:239-252 | After a careful run, any disassociation the script accepts can break the gating order if and only if it names a process twice and some worker stays on a process it does not name |
| ProtocolDriving.Drive | lib/execute_transaction_management/init_process.js:65-112 | A process restarted before every message runs any part of its queue, one message after another, as long as nobody on it can be put on hold |
| ProtocolRepetitionExamples.RepetitionBreaksGating | lib/execute_transaction_management/deassociate_worker.js:239-252 | A reachable state and the accepted, not dangerous disassociation of processes 0, 0 and 1 after which process 2 runs a transaction behind its hold message while an old one on process 1 still waits |
| ProtocolRepetitionExamples.UnsettledAssociationDeadlocks | lib/execute_transaction_management/associate_worker.js:317-452 | A state that is reached without dangerous operations but not settled, and an accepted association without the danger that can lead to a deadlock |
| ProtocolRepetitionExamples.UnsettledDisassociationDeadlocks | lib/execute_transaction_management/deassociate_worker.js:207-331 | In such a state an accepted disassociation with its only marker going home can lead to a deadlock as well |
| ProtocolStatusRuns.RunRestoresStatuses | lib/execute_transaction_management/command_message_processor.js:107-272 | On every run whose disassociations leave no inactive worker on a process, whatever goes wrong in it, each worker that is neither on hold nor blocking has the status it had at the start, inactive ones included |
| ProtocolStatusRuns.NobodySwitchedOff | lib/execute_transaction_management/command_message_processor.js:123-127 | On every run at all, a worker that was active at the start is active whenever it is neither on hold nor blocking |
| ProtocolStatusCondition.DisassociationKeepsStatusesIff | lib/execute_transaction_management/command_message_processor.js:148-155 | After any run, every continuation of any disassociation the script accepts gives all workers their statuses back if and only if no inactive worker stays on a process: hold messages go to these as well, and wake-ups make active |
| ProtocolStatusCondition.AssociationKeepsStatuses | lib/execute_transaction_management/associate_worker.js:317-452 | After any run, every continuation of any association the script accepts gives all workers their statuses back |
| ProtocolStatusCondition.DrainedGivesStatusesBack | lib/execute_transaction_management/command_message_processor.js:107-272 | Once everything is worked off after an accepted operation without danger that leaves no inactive worker on a process, nobody is on hold or blocking and whoever was not before has the status it had |
| ProtocolStatusCondition.InactiveSiblingSwitchedOn | lib/execute_transaction_management/init_process.js:94-113 | An initial state and an accepted, not dangerous disassociation that can switch an inactive sibling on |
| ProtocolAttachment.AssociationAttaches | lib/execute_transaction_management/associate_worker.js:159-198 | After an accepted association and its publications exactly one worker, available before, is on each of the first processes given, as many as there are both processes and available workers; nobody is on the later ones, and nobody else has moved |
| ProtocolAttachment.AssociationAcceptedIff | lib/execute_transaction_management/associate_worker.js:140-308 | Accepted exactly when a worker is available, nobody is on a given process, the processes that get a worker are different, existing and allocatable, and whoever is on a process is neither on hold nor blocking; otherwise nothing changes |
| ProtocolAttachment.DisassociationAcceptedIff | lib/execute_transaction_management/deassociate_worker.js:114-178 | Accepted exactly when somebody is on every given process and nobody is on hold or blocking; otherwise nothing changes |
| ProtocolAttachment.PublicationOrder | lib/execute_transaction_management/associate_worker.js:86-104 | An association attaches and warns before its first marker, a disassociation publishes its markers before its first hold message |
| ProtocolDisassociation.MarkersGoHomeIffAscending | lib/execute_transaction_management/deassociate_worker.js:239-263 | Every marker of a disassociation goes to the process its worker was taken from if and only if the processes are given in ascending order of their workers' ids |
| ProtocolDisassociation.PairingIsRightIffAscending | lib/execute_transaction_management/deassociate_worker.js:251-253 | The keys of the status map, in JavaScript's numeric order, are the collected ids in their order if and only if those ascend |
| ProtocolDisassociation.DisassociateHasEffect | lib/execute_transaction_management/deassociate_worker.js:180-331 | The published state of a disassociation in ascending order: its workers detached and blocking, one marker at the end of each of their processes' queues, one hold message for every sibling, nothing else changed |
| ProtocolDisassociation.DisassociateKeepsCore | lib/execute_transaction_management/deassociate_worker.js:207-331 | A disassociation in ascending order keeps the invariant |
| ProtocolOperations.AssociateHasEffect | lib/execute_transaction_management/associate_worker.js:317-452 | The published state of an association: chosen workers attached, all working rows blocking, one hold message at the end of each new queue, one marker at the end of each old one, nothing else changed |
| ProtocolOperations.AssociateKeepsCore | lib/execute_transaction_management/associate_worker.js:317-452 | An association keeps the invariant when no wake-up of a worker it attaches waits elsewhere |
| ProtocolOperations.AvailableMeaning | app/models/client_worker_managed_address_id.js:107-113 | Exactly the active, funded, unattached workers are offered, each once |
| ProtocolCounterexamples.AssociationKeepsCoreIff | lib/execute_transaction_management/associate_worker.js:350-399 | An accepted association keeps the stronger invariant of orderly runs if and only if no wake-up of a worker it attaches waits on the command queue of another process; when it can lead to a deadlock is AssociationCanDeadlockIff |
| ProtocolCounterexamples.CrossedMarkersDeadlock | lib/execute_transaction_management/deassociate_worker.js:239-263 | From two idle workers, a run with one association and one disassociation given its processes out of order ends in a deadlock |
| ProtocolCounterexamples.LateCrossingIsHarmless | lib/execute_transaction_management/deassociate_worker.js:239-263 | The same disassociation is harmless, though not orderly, once the old hold messages have run |
| ProtocolCounterexamples.StaleWakeUpAloneIsHarmless | lib/execute_transaction_management/associate_worker.js:350-399 | An association of a worker with a stale wake-up is harmless, though not orderly, while nobody is blocking or on a process |
| ProtocolCounterexamples.StaleWakeUpDeadlock | lib/execute_transaction_management/command_message_processor.js:230-269 | A concrete run in which a wake-up left over from before a restart lets a later hold stand for ever |
| ProtocolCounterexamples.GatingNeedsCare | lib/execute_transaction_management/associate_worker.js:278-281 | A concrete reachable state in which the association script sees nothing wrong and the gating order can break |
| ProtocolInvariants.MarkerKeepsCore | lib/execute_transaction_management/command_message_processor.js:107-172 | Running a marker at the head of a consuming process's queue keeps the invariant |
| ProtocolInvariants.HoldKeepsCore | lib/execute_transaction_management/command_message_processor.js:180-222 | Running a hold message keeps the invariant: it stops its own process, and no marker stands behind it there |
| ProtocolInvariants.GoToOriginalKeepsCore | lib/execute_transaction_management/command_message_processor.js:230-269 | Running a wake-up keeps the invariant, whether it wakes its worker or is ignored |
| ProtocolInvariants.RestartKeepsCore | lib/execute_transaction_management/init_process.js:65-112 | Restarting any process keeps the invariant |
| ProtocolInvariants.WakeHeldAdds | lib/execute_transaction_management/command_message_processor.js:129-171 | The wake loop adds a wake-up to the command queue of every held worker's own process, and nothing else |
| ProtocolFlush.ExecuteCommutes | executables/rmq_subscribers/execute_transaction.js:82-95 | A message executed while a script is still publishing gives the state that executing it after the publications would give |
| ProtocolFlush.AdvanceKeepsFlush | lib/execute_transaction_management/associate_worker.js:350-399 | A script's next step does not change the state in which all its publications are out |
| WorkerFleet.Fleet.ExecuteMarkBlockingToOriginalStatusCommand | lib/execute_transaction_management/command_message_processor.js:107-172 | The handler with its wake loop does to table, queues and reply what the protocol step says |
| WorkerFleet.Fleet.ExecuteGoOnHoldCommand | lib/execute_transaction_management/command_message_processor.js:180-222 | The handler does to the table and replies what the protocol step says |
| WorkerFleet.Fleet.ExecuteGoToOriginalCommand | lib/execute_transaction_management/command_message_processor.js:230-269 | The handler does to the table and replies what the protocol step says |
| WorkerFleet.Fleet.Perform | lib/execute_transaction_management/command_message_processor.js:62-77 | The dispatch on the kind of message is the protocol's |
| WorkerFleet.Fleet.CommandResponseActions | executables/rmq_subscribers/execute_transaction.js:82-95 | The reply starts, stops or leaves the consumption of this process's queue |
| WorkerFleet.Fleet.SubscribeTxQueue | executables/rmq_subscribers/execute_transaction.js:221-250 | Afterwards the process consumes its queue, and no other process changed |
| WorkerFleet.Fleet.TakeTransaction | executables/rmq_subscribers/execute_transaction.js:105-192 | Delivering the head of a consumed queue is the protocol's step |
| WorkerFleet.Fleet.TakeCommand | executables/rmq_subscribers/execute_transaction.js:258-268 | Delivering the head of a command queue is the protocol's step |
| WorkerFleet.Fleet.InitProcess | executables/rmq_subscribers/execute_transaction.js:309-355 | A process start is the protocol's restart step |
| WorkerFleet.Fleet.GetHoldWorkers | lib/execute_transaction_management/init_process.js:65-112 | Consumption is held back exactly when the process holds a worker while some worker blocks; otherwise its held workers become active |
| WorkerFleet.AssociateWorker.Perform | lib/execute_transaction_management/associate_worker.js:77-103 | The whole script, validations and loops, has the effect of the protocol's association, and none when a validation fails |
| WorkerFleet.AssociateWorker.GetAndValidateAvailableWorkers | lib/execute_transaction_management/associate_worker.js:140-197 | Accepts exactly when a worker is available and no given process has one, and cuts the processes to the number of available workers |
| WorkerFleet.AssociateWorker.GetAndValidateProcessDetails | lib/execute_transaction_management/associate_worker.js:205-264 | The count of found keys accepts exactly the lists of different, existing, allocatable processes of the client's chain |
| WorkerFleet.AssociateWorker.ValidateAllWorkers | lib/execute_transaction_management/associate_worker.js:273-308 | Accepts exactly when no worker on a process is on hold or blocking, and collects those workers in table order |
| WorkerFleet.AssociateWorker.MarkBlockingStatus | lib/execute_transaction_management/associate_worker.js:317-342 | The map by process has the first worker of each process first, and every working row becomes blocking |
| WorkerFleet.AssociateWorker.AssociateAvailableWorker | lib/execute_transaction_management/associate_worker.js:350-399 | One attachment and one hold message for each chosen worker, in order |
| WorkerFleet.AssociateWorker.SendBlockingMessage | lib/execute_transaction_management/associate_worker.js:407-452 | One marker for each working row, for its process, naming the first row there and its former status |
| WorkerFleet.DeassociateWorker.Perform | lib/execute_transaction_management/deassociate_worker.js:65-81 | The whole script has the effect of the protocol's disassociation, and none when a validation fails |
| WorkerFleet.DeassociateWorker.ValidateTemporaryStatus | lib/execute_transaction_management/deassociate_worker.js:114-145 | Accepts exactly when no worker of the client at all is on hold or blocking |
| WorkerFleet.DeassociateWorker.Validate | lib/execute_transaction_management/deassociate_worker.js:152-172 | Accepts exactly when every given process has a worker |
| WorkerFleet.DeassociateWorker.GetProcessWorkerAssociationId | lib/execute_transaction_management/deassociate_worker.js:180-200 | The ids in the order of the processes, and the status of each in the map |
| WorkerFleet.DeassociateWorker.RemoveProcessWorkerAssociation | lib/execute_transaction_management/deassociate_worker.js:207-221 | The collected rows, and no others, lose their process and become blocking |
| WorkerFleet.DeassociateWorker.SendCommandMsg | lib/execute_transaction_management/deassociate_worker.js:229-331 | Markers pair the i-th process with the i-th key of the map; then a hold message for every row still on a process |
| WorkerFleet.Run | executables/rmq_subscribers/execute_transaction.js:309-355 | Any list of events performed by these methods is a run of the protocol, so the theorems about runs hold of them |
| BatchCutting.CutIsComplete | executables/block_scanner/transaction_delegator.js:265-268 | The slices of a block, for every positive batch size, put together are the block |
| BatchCutting.BatchSizes | executables/block_scanner/transaction_delegator.js:256-270 | For every batch size from 10 to 60: each slice has 1 to 60 transactions, all but the last at least 10, so the break for an empty slice is never taken |
| BatchCutting.OneBatchPerNode | executables/block_scanner/transaction_delegator.js:251-261 | As many batches as nodes unless a clamp applies; then batches of exactly 60 or 10 |
| BatchCutting.NoOfBatchesBounds | executables/block_scanner/transaction_delegator.js:260-261 | The quotient, truncated and corrected by the remainder, is the least number of batches that reaches the end |
| BatchCutting.FirstBatches | executables/block_scanner/transaction_delegator.js:265-268 | After k slices exactly the transactions before the truncated offset have gone out, in order |
| BlockDelegator.RunKeepsSound | executables/block_scanner/transaction_delegator.js:138-190 | Through failures, exceptions, re-initialisations and crashes: every block above the start up to the last processed one, in memory or on file, was cut and published completely; every message belongs to a cut of its block; no block beyond the next was touched; messages are in ascending block order |
| BlockDelegator.EveryTransactionPublished | executables/block_scanner/transaction_delegator.js:240-310 | On every run each transaction of every such block is in some published message of its block |
| BlockDelegator.NeverRepublished | executables/block_scanner/transaction_delegator.js:345-357 | No message after a block is on file is about that block or an earlier one |
| BlockDelegator.UntroubledRun | executables/block_scanner/transaction_delegator.js:161-174 | Without trouble every cycle moves on by exactly one block and the log is exactly one cut of each block |
| BlockDelegator.Recovery | executables/block_scanner/transaction_delegator.js:92-101 | From wherever a cycle broke off or the process was stopped, one successful initialisation and any number of untroubled cycles make a run, which delegates the blocks after the one on file, one cut each |
| BlockDelegator.RefusalIsRetried | executables/block_scanner/transaction_delegator.js:164-173 | After a block that is not found or a message that is refused the next cycle is possible and takes the same block from its start |
| BlockDelegator.IdleCycle | executables/block_scanner/transaction_delegator.js:152-156 | Without a node that has the block a cycle changes nothing, and the next can follow |
| BlockDelegator.TroubleCosts | executables/block_scanner/transaction_delegator.js:138-190 | After an exception or a crash the messages sent before it stay published, no cycle is possible, and once initialised the delegator takes the block again and whole, or the next one if the file had it |
| BlockDelegator.OnlyStopsStop | executables/block_scanner/transaction_delegator.js:184-198 | Exceptions and refusals never stop the process; only a signal, a kill, a crash or a failed initialisation does |
| BlockDelegator.StaysDown | executables/block_scanner/transaction_delegator.js:140-143 | A stopped process changes nothing until it is initialised |
| BlockDelegator.TransactionDelegator.CheckForNewBlocks | executables/block_scanner/transaction_delegator.js:138-190 | One cycle, with trouble at any point, has the effect of the state machine, and leaves the process free to exit |
| BlockDelegator.TransactionDelegator.DistributeTransactions | executables/block_scanner/transaction_delegator.js:240-310 | Publishes all messages of the current block's cut, or those before the refusal, and answers accordingly |
| BlockDelegator.TransactionDelegator.PublishBatches | executables/block_scanner/transaction_delegator.js:263-309 | The loop publishes the batches in order up to the first failure |
| BlockDelegator.TransactionDelegator.UpdateScannerDataFile | executables/block_scanner/transaction_delegator.js:345-357 | Memory moves on before the file |
| BlockDelegator.TransactionDelegator.Init | executables/block_scanner/transaction_delegator.js:92-101 | A re-initialisation takes the last processed block from the file |
| BalanceSync.ComputeBalanceAdjustments | lib/block_scanner/for_tx_status_and_balance_sync.js:828-927 | The nested loops give exactly the contracts and addresses touched, each with inflow minus outflow and minus outflow; the transfers of every transaction; and a duplicate-free, exact list of affected addresses |
| BalanceSync.ParseEvent | lib/block_scanner/for_tx_status_and_balance_sync.js:844-869 | The last sender, receiver and amount of an event, in lower case |
| BalanceSync.LastParamDecides | lib/block_scanner/for_tx_status_and_balance_sync.js:848-865 | The sender, receiver and amount are those of the last parameter of that kind, the addresses in lower case; without one an end is missing |
| Sequences.LowerSameIff | lib/block_scanner/for_tx_status_and_balance_sync.js:846-846 | Two texts have the same lower case exactly when they differ at most in the case of letters, and it has no capital |
| BalanceSync.LoneTransfer | lib/block_scanner/for_tx_status_and_balance_sync.js:873-910 | A single transfer of v from a to b outside its contract adjusts exactly a by (-v, -v) and b by (v, 0), under that contract |
| BalanceSync.LoneClaim | lib/block_scanner/for_tx_status_and_balance_sync.js:873-876 | A single transfer out of its own contract adjusts nothing |
| BalanceSync.AdjustmentsAdd | lib/block_scanner/for_tx_status_and_balance_sync.js:839-922 | The adjustments of several transactions, or of several events of one, are the sums of theirs |
| BalanceSync.Adjust | lib/block_scanner/for_tx_status_and_balance_sync.js:877-911 | One transfer changes exactly the entries of its two ends as it should |
| BalanceSync.Uniq | lib/block_scanner/for_tx_status_and_balance_sync.js:916-918 | The filter leaves each element once |
| BalanceSync.Conservation | lib/block_scanner/for_tx_status_and_balance_sync.js:877-911 | The settled amounts of a contract sum to what transfers with a missing end bring in, and to zero when every transfer names both ends |
| BalanceSync.SettledSumIsImbalance | lib/block_scanner/for_tx_status_and_balance_sync.js:877-911 | The same for any duplicate-free list of users that leaves nobody out |
| BalanceSync.TotalDeltaAnyOrder | lib/block_scanner/for_tx_status_and_balance_sync.js:1066-1110 | Groups of transfers settled in any order add up to the same amounts |
| BalanceSync.TokenBalances.SettleBalancesInDb | lib/block_scanner/for_tx_status_and_balance_sync.js:1066-1110 | Every stored balance moves by exactly its adjustment, and a row exists for exactly the old and the adjusted ones |
| RowLocks.ClaimsAreSafe | app/models/lockable_base.js:22-72 | In every interleaving of scanners whose lock ids do not collide: no row is claimed twice, claimed rows went from submitted to mined and nothing else changed, a read by lock id gives exactly the claimed rows, and a finished scanner leaves nothing locked |
| RowLocks.EveryRunEnds | lib/block_scanner/for_tx_status_and_balance_sync.js:92-137 | Every scanner claims at most once and releases once, so every interleaving ends |
| RowLocks.ReadsItsOwnRows | lib/block_scanner/for_tx_status_and_balance_sync.js:102-123 | With one row per hash and every hash in one message, what a scanner reads is independent of the interleaving |
| RowLocks.ReadsRightIff | lib/block_scanner/for_tx_status_and_balance_sync.js:125-134 | Scanners never mix up rows, in any interleaving, if and only if no two of them with the same lock id have a claimable row between them |
| RowLocks.LockIdsCollideIff | lib/block_scanner/for_tx_status_and_balance_sync.js:125-128 | Two lock ids are the same number exactly when the counters agree and the process ids differ at most in zeros at the end |
| RowLocks.ProcessesOneAndTenCollide | lib/block_scanner/for_tx_status_and_balance_sync.js:125-128 | Processes 1 and 10 use the same lock id |
| RowLocks.EveryClaimablePicked | lib/block_scanner/for_tx_status_and_balance_sync.js:117-122 | With one row per hash the row limit of the update cuts nothing off |
| RowLocks.PickedAtMost | app/models/lockable_base.js:22-45 | A claiming update takes as many claimable rows as there are, up to the number of hashes |
| RowLocks.PickedAreFirst | app/models/lockable_base.js:22-45 | It takes the first ones: a claimable row before a picked one is picked as well |
| RowLocks.TransactionMeta.AcquireLock | app/models/lockable_base.js:22-45 | Claims the first submitted, unlocked rows of the given hashes, up to the limit |
| RowLocks.TransactionMeta.ReleaseLock | app/models/lockable_base.js:52-72 | Frees exactly the rows under the lock id |
| RowLocks.TransactionMeta.GetByLockId | app/models/transaction_meta.js:62-69 | The rows under the lock id, in table order |
| RowLocks.LockedRowsAppend | app/models/transaction_meta.js:62-69 | A read by lock id gives the rows in table order: a longer table adds its rows at the end |
| BlockScanning.BlockScanner.CategorizeTransactions | lib/block_scanner/for_tx_status_and_balance_sync.js:253-309 | The loop over batches of a hundred gives the grouped uuids, the recognised and the unrecognised hashes; locked records are gone through once per batch |
| BlockScanning.ListedOncePerHundred | lib/block_scanner/for_tx_status_and_balance_sync.js:262-298 | A recognised uuid is listed under its own client only, once per hundred hashes begun: exactly once if and only if the message has 1 to 100 hashes |
| BlockScanning.Partition | lib/block_scanner/for_tx_status_and_balance_sync.js:279-303 | With one row per hash each hash is in exactly one of: recognised, unrecognised, locked with another kind |
| BlockScanning.LogsCountApart | lib/block_scanner/for_tx_status_and_balance_sync.js:576-594 | The logs of a receipt each count for themselves |
| BlockScanning.TransferLogMoves | lib/block_scanner/for_tx_status_and_balance_sync.js:576-594 | A log with the signature of Transfer from a known contract moves its amount from its sender to its receiver |
| BlockScanning.OtherLogMovesNothing | lib/block_scanner/for_tx_status_and_balance_sync.js:576-594 | A log with another signature, or of an unknown contract, moves nothing |
| BlockScanning.CollectedRoundsLists | lib/block_scanner/for_tx_status_and_balance_sync.js:293-298 | Each client's list is its uuids in record order, repeated, and only clients with a uuid have one |
| BlockScanning.ListsAppend | lib/block_scanner/for_tx_status_and_balance_sync.js:293-298 | A client's uuids and the recognised hashes stand in record order: more records add theirs at the end |
| BlockScanning.BlockScanner.ShortListEvents | lib/block_scanner/for_tx_status_and_balance_sync.js:576-594 | Exactly the Transfer events of known contracts of the unrecognised transactions, in order |
| BlockScanning.BlockScanner.Perform | lib/block_scanner/for_tx_status_and_balance_sync.js:92-100 | One message from lock to release: the table afterwards, and every balance moved by the transfers of its unrecognised transactions |
| ScannerEndToEnd.CuttingClassifyingSummingAgree | lib/block_scanner/for_tx_status_and_balance_sync.js:253-309 | Cut a block, let its scanners interleave in any way and settle in any order: each contract and address gets exactly the amounts of one pass over the unknown transactions |
| ScannerEndToEnd.ClassificationIsStable | lib/block_scanner/for_tx_status_and_balance_sync.js:102-123 | In every interleaving a scanner finds unknown exactly the hashes of its message that nobody could claim at the start |
| ScannerEndToEnd.ScanBlock | lib/block_scanner/for_tx_status_and_balance_sync.js:92-100 | The scanner itself, run over a block's messages in any order, moves every balance by the amounts of one pass |
| ScannerEndToEnd.AnyOrderIsOnePass | executables/block_scanner/transaction_delegator.js:256-309 | For every list of batches and every order of them the amounts add up to those of the whole list |
| ConfigStore.RunKeepsStore | helpers/config_strategy/by_group_id.js:224-504 | Over every run: one row per identifier digest, every row with exactly its kind's keys, and one row per kind and group unless an addition is made under group NULL |
| ConfigStore.AddKeepsUniqueKindsIff | helpers/config_strategy/by_group_id.js:265-277 | An accepted addition breaks the rule of one row per kind and group exactly when it is made under NULL for a kind that needs a group and has such a row already |
| ConfigStoreRuns.LastWriteIsRead | app/models/config_strategy.js:186-244 | After any list of operations on the empty table, a read of any row gives exactly what the last operation that wrote it was given for the listed keys |
| ConfigStoreRuns.RunKeepsDigestsCurrent | app/models/config_strategy.js:685-703 | Over every run, a row of a kind whose identifiers are all stored has the digest of the identifiers a read gives |
| ConfigStoreRuns.AdditionIsReadBackIff | app/models/config_strategy.js:100-118 | A read of the id an accepted addition answers with gives what was added if and only if the identifiers are new or the row that has them reads like that already |
| ConfigStoreRuns.SharedRowIsReadBackIff | app/models/config_strategy.js:100-118 | When an addition is answered with an old row of its kind, it reads as what was added if and only if every stored key that is no identifier, the secrets among them, agrees |
| ConfigStoreRuns.GroupGetsItsRowIff | helpers/config_strategy/by_group_id.js:265-296 | An accepted addition for a group gives the group a row of the kind if and only if the identifiers are new |
| ConfigStoreRuns.SecondSecretIsLost | lib/global_constant/config_strategy.js:277-277 | The input: group 2 adds the search cluster of group 1 with another secret, is answered with success, has no row, and the row still has the first secret |
| ConfigStoreRuns.TwoRowsWithoutGroup | helpers/config_strategy/by_group_id.js:265-277 | The input: two clusters added under the group NULL give two rows without a group for one kind |
| ConfigStore.WrittenReadsBack | app/models/config_strategy.js:712-762 | Segregating, encrypting and reading back a row gives the given values of the listed keys |
| ConfigStore.RunGuardsActive | helpers/config_strategy/by_group_id.js:476-482 | While a row stays active no run of operations changes a key outside the whitelist |
| ConfigStore.CompositeFreezes | helpers/config_strategy/by_group_id.js:672-681 | An active row with a composite value outside the whitelist, or of a kind without whitelist, refuses every update |
| ConfigStore.DeactivationSparesReferenced | helpers/config_strategy/by_group_id.js:369-413 | A deactivation changes only statuses of its group, and nothing at all if a client uses one of its rows |
| ConfigStore.ActivationSwitchesOn | helpers/config_strategy/by_group_id.js:333-361 | An activation makes exactly the rows of its group and those without a group active and changes nothing else |
| ConfigStore.ActivationUndoesDeactivation | helpers/config_strategy/by_group_id.js:333-415 | Where these rows were active, an activation after an accepted deactivation restores the whole table |
| ConfigStore.LastSwitchDecides | helpers/config_strategy/by_group_id.js:305-415 | Over any further events that do not concern a row, it is inactive if the last accepted switch was a deactivation of its group and active if it was an activation |
| ConfigStore.ActivatesOne | helpers/config_strategy/by_group_id.js:305-328 | Activating one strategy makes exactly that row active, and is rejected exactly when there is none |
| ConfigStore.AdditionAcceptedIff | helpers/config_strategy/by_group_id.js:224-297 | Accepted exactly when kind and shape are right, no row is in the way, and the parameters have every listed key or some row their digest; says which row is answered or what the new one holds |
| ConfigStore.UpdateAcceptedIff | helpers/config_strategy/by_group_id.js:425-505 | Accepted exactly when one row alone is meant, its whitelist allows the change, every listed key is there in the right shape, and no other row has the digest |
| ConfigStore.ConfigStrategies.AddForKind | helpers/config_strategy/by_group_id.js:224-297 | The checks and the insertion, with the outcome; an equal digest elsewhere gives that row's id and inserts nothing |
| ConfigStore.ConfigStrategies.Create | app/models/config_strategy.js:53-177 | Rejects, finds the existing row, or appends one |
| ConfigStore.ConfigStrategies.UpdateForKind | helpers/config_strategy/by_group_id.js:425-504 | Updates the one selected row or rejects |
| ConfigStore.ConfigStrategies.UpdateStrategyId | app/models/config_strategy.js:431-551 | Overwrites the parameters and the digest of the row unless the digest is another row's |
| ConfigStore.ConfigStrategies.CheckForWhiteListing | helpers/config_strategy/by_group_id.js:661-684 | Accepts exactly when the kind has a whitelist and every other key is an equal primitive |
| ConfigStore.ConfigStrategies.GetSeparateHashes | app/models/config_strategy.js:712-762 | Succeeds exactly when all listed keys are given, with the two parts |
| ConfigStore.ConfigStrategies.GetByParams | app/models/config_strategy.js:349-362 | The first row with the digest |
| ConfigStore.ConfigStrategies.SelectExisting | helpers/config_strategy/by_group_id.js:435-467 | Finds one row exactly when one row alone matches |
| ConfigStore.ConfigStrategies.Activate | helpers/config_strategy/by_group_id.js:333-358 | Activates the group and all rows without a group |
| ConfigStore.ConfigStrategies.Deactivate | helpers/config_strategy/by_group_id.js:369-413 | Deactivates the group, or rejects |
| MultiCache.TransactionLogCache.Fetch | lib/cache_multi_management/base.js:57-85 | With any mix of hits, misses and cache errors: the result is exactly the direct lookup of the wanted ids, nothing but entries of these ids changes, these to what the source holds, and an error comes only from the source |
| MultiCache.SharedCacheAgrees | lib/cache_multi_management/transaction_log.js:41-50 | However many clients share the cache, after any list of fetches, writes with their clearing, expiries and evictions, it agrees with every client's table |
| MultiCache.ClientsApart | lib/cache_multi_management/transaction_log.js:121-125 | No cache key belongs to two clients |
| MultiCache.WriteThenClear | app/models/transaction_log.js:422-429 | A write and the clearing of its keys, as one step, keep the agreement and touch no other entry |
| MultiCache.WriteKeepsAgreementIff | app/models/transaction_log.js:422-429 | A write without clearing keeps the agreement if and only if it changes nothing cached |
| MultiCache.ForgettingKeepsAgreement | lib/cache_multi_management/base.js:92-99 | Clearing, expiry and eviction keep the agreement |
| MultiCache.TransactionLogCache.SetCacheKeys | lib/cache_multi_management/transaction_log.js:41-50 | One key per wanted id, each leading back to its id in lower case |
| MultiCache.TransactionLogCache.FetchFromCache | lib/cache_multi_management/base.js:139-167 | Every wanted id is either missed or has its cached value |
| MultiCache.TransactionLogCache.Clear | lib/cache_multi_management/base.js:92-99 | Removes exactly the keys |
| NonceFiller.EveryRunOrderly | executables/fire_brigade/fill_up_missing_nonce_range.js:69-99 | For any interleaving of additions: at most one live batchProcess, tasks started once and in order, in batches of at most 100, none left when the flag is down |
| NonceFiller.IdleMeansDone | executables/fire_brigade/fill_up_missing_nonce_range.js:79-99 | With the flag down everything ever added has been started, and nothing is live |
| NonceFiller.Drains | executables/fire_brigade/fill_up_missing_nonce_range.js:82-98 | From any busy state, one completion per hundred tasks left and one more take the flag down with everything started |
| NonceFiller.AddStartsAtOnce | executables/fire_brigade/fill_up_missing_nonce_range.js:69-77 | A task added while nothing is processed is started at once |
| NonceFiller.FillUpMissingNonceRange.AddToBatchProcess | executables/fire_brigade/fill_up_missing_nonce_range.js:69-77 | Has the effect of the queue's addition step |
| NonceFiller.FillUpMissingNonceRange.BatchProcess | executables/fire_brigade/fill_up_missing_nonce_range.js:79-99 | The loops start the next hundred tasks up to the await, or end the process |
| TransactionLogModel.RoundTrip | app/models/transaction_log.js:454-747 | Decoding an encoded row gives the row in normal form, nested transfer events included |
| TransactionLogModel.NormalTwice | app/models/transaction_log.js:600-747 | Normal form is idempotent and well typed |
| TransactionLogModel.AttributesAreKept | app/models/transaction_log.js:454-747 | Attribute by attribute: texts read back as they were but for the case of a hash, amounts and percentages with their value, gas numbers digit by digit, other numbers cut to whole ones, documents and events as they were |
| TransactionLogModel.WhatFits | app/models/transaction_log.js:454-593 | Which attribute may hold what, and which may be missing |
| TransactionLogModel.UpdateOverrides | app/models/transaction_log.js:367-432 | Updating a stored item and decoding it equals overriding the decoded row with the normal form of the update |
| TransactionLogModel.TransactionLogTable.UpdateItem | app/models/transaction_log.js:367-432 | Sets every attribute but the key, clears the cache key if asked, and rejects an update without attributes |
| TransactionLogModel.TransactionLogTable.FormatDataForPutItem | app/models/transaction_log.js:454-593 | The item has the key and exactly the attributes the row has |
| TransactionLogModel.TransactionLogTable.FormatDataForGetItem | app/models/transaction_log.js:600-747 | The row has exactly the attributes the item has |
| TransactionLogModel.WavesCoverRows | app/models/transaction_log.js:180-256 | The requests of the waves, in order, are all rows once; 25 rows a request and 15 requests a wave, only the last ones shorter |
| TransactionLogModel.TransactionLogTable.BatchPutItem | app/models/transaction_log.js:155-267 | If no request fails: all waves were sent, the table has every request of every wave put in some order within its wave, and so every row put in the order given if no wave has two requests that leave different items under one key, and exactly the rows' uuids are cleared; otherwise it stops after the wave with the first failure, clears nothing and touches no key but those of the rows sent |
| TransactionLogModel.AnyOrderIff | app/models/transaction_log.js:201-213 | Every order of a wave's parallel requests leaves the same table as their own order if and only if no two of them leave different items under one lower-cased uuid; so it does if no uuid is in two requests |
| TransactionLogModel.WrittenIsRead | app/models/transaction_log.js:155-267 | After the rows were put in order, the item under a uuid, however its letters are written, reads as the normal form of the last row given for it |
| TransactionLogCaching.BatchKeepsAgreement | app/models/transaction_log.js:258-264 | A batch followed by the clearing of its uuids keeps the cache in agreement with the table, and clears no entry but those of its rows |
| TransactionLogCaching.StoppedBatchKeepsAgreementIff | app/models/transaction_log.js:214-246 | A batch that stops at a failure clears nothing: the cache agrees afterwards exactly when no cached row was changed |
| TransactionLogCodec.ShortNamesDiffer | app/models/transaction_log.js:22-52 | The short-name map is injective |
| TransactionLogCodec.ShortNamesInvert | app/models/transaction_log.js:52-52 | The inverted map leads every short name back to its attribute, and no attribute has the key's name |
| TransactionLogCodec.ValueRoundTrip | app/models/transaction_log.js:454-593 | Each property reads back as its normal form, or is not stored at all |
| TransactionLogCodec.EventNames | app/models/transaction_log.js:546-564 | A nested event is stored under the short names of the row's own attributes of the same meaning |
| Decimals.CanonicalIffEqual | app/models/transaction_log.js:661-683 | Two decimal numerals have the same normal form exactly when they stand for the same number |
| Decimals.IntegerPartTruncates | app/models/transaction_log.js:609-619 | Integer attributes read back cut towards zero |
| BitColumns.ClearsIff | helpers/bitwise_operations.js:82-96 | Exclusive-or-and-compare clears the bits of a mask if and only if the value has all of them or none |
| BitColumns.SetLaws | helpers/bitwise_operations.js:62-118 | Setting, unsetting and testing obey the laws of a set for all names, known or not, and unsetting clears the bit |
| BitColumns.ListsExactlyWhatWasSet | helpers/bitwise_operations.js:126-142 | After setting any of a column's names from zero the listing has exactly these names |
| BitColumns.ListsInOrder | helpers/bitwise_operations.js:126-142 | Listed names stand in the order of the column's bits |
| BitColumns.ValidatedMeansUnique | helpers/bitwise_operations.js:33-53 | Columns that pass validation name every bit once |
| BitColumns.FindsIt | helpers/bitwise_operations.js:149-162 | In validated columns a name finds its own bit |
| BitColumns.BitWiseOperations.ValidateBitColumns | helpers/bitwise_operations.js:33-53 | Accepts exactly the columns whose names are all different |
| BitColumns.BitWiseOperations.UnsetBit | helpers/bitwise_operations.js:82-96 | Keeps the exclusive or only when it is smaller |
| BitColumns.BitWiseOperations.FindValueOfBit | helpers/bitwise_operations.js:149-162 | The mask of the first bit of that name |
| BitColumns.BitWiseOperations.GetAllBits | helpers/bitwise_operations.js:126-142 | The names of the column whose bits are set, in order |

## Left out

- Several clients on one process: one client's wake-up starts a queue that another client's hold stopped, so the claims are about one client with any number of workers and processes.
- Two scripts at once: at most one association or disassociation is in flight, and its validation and its marking of rows are one step; the rest of its loops is interleaved with everything else.
- Prefetching and the pause of half a second before a marker: queues are first in first out and handled one message at a time, and a handler is one step with its acknowledgement.
- Routing by a list cached before an operation: transactions arrive at any process at any time, but which process a client's transactions are sent to is not modelled.
- Failing publications: the scripts log and go on, here every publication arrives.
- WorkerFleet.AssociateWorker.Perform: the process table is a parameter, and an action behind an await is listed as pending and performed by a later step.
- WorkerFleet.DeassociateWorker.Perform: reads the siblings before the markers are out instead of after, which OnlyOperationsMove shows to make no difference.
- The original status inside a hold message: the code never reads it.
- BatchCutting.CutIsComplete: is about exact quotients; the rounding of floating-point offsets is not modelled.
- BlockDelegator.RunKeepsSound: a write of the data file happens completely or not at all.
- BalanceSync.ComputeBalanceAdjustments: an event without a value counts as zero where the code gets not-a-number; the event decoder always supplies one.
- BlockScanning.BlockScanner.Perform: all receipts have arrived; an exception between lock and release, which the code logs, would leave the rest of the message undone.
- RowLocks.ClaimsAreSafe: other programs that claim rows of the table use other lock ids and do not act between the scanners' steps; a release always reaches the database.
- RowLocks.LockIdsCollideIff: is about exact decimals; parseFloat rounds to a double, so very long process ids or large counters can collide in the code and not here.
- RowLocks.TransactionMeta.AcquireLock: the limited update takes matching rows in table order, as the database may but need not.
- Messages delivered twice to a scanner: their mined rows would count as unknown, so balances are not settled exactly once then.
- ScannerEndToEnd.ScanBlock: runs the messages one after another; for interleaved scanners the agreement is CuttingClassifyingSummingAgree.
- Shards, the payment settlement of known transactions, receipts fetching and the benchmark file: parameters or not part of this model.
- ConfigStoreRuns.SharedRowIsReadBackIff: two different sets of identifiers have different digests, as the hash function promises.
- ConfigStore.RunKeepsStore: the checks of the shape of provider lists and the lookup of the salt are one yes-or-no parameter, the key lists of the kinds and the status of a new row are parameters, and the cached row of an update is the stored one.
- MultiCache.TransactionLogCache.Fetch: a fetch and a write with its clearing are whole steps; a read that overtakes a write between source and cache is not modelled.
- NonceFiller.Drains: every fill completes; a fill that throws never resolves in the code.
- TransactionLogModel.TransactionLogTable.BatchPutItem: a request of a wave takes effect as a whole, in any order with the others of its wave; the failing ones are put not at all, where some of their rows may have been written, and the retries inside the database client are not modelled.
- TransactionLogCodec.ValueRoundTrip: the text of a nested document and its parsed value are one thing here, so that part of the round trip is the identity by construction.
- TransactionLogModel.TransactionLogTable.FormatDataForPutItem: the chain of conditions is a loop over the list of attributes in the same order.
- Decimals.CanonicalIffEqual: numerals are plain decimals; exponents and the range of JavaScript numbers are not modelled, and a percentage reads back as an exact decimal.
- Fetching several items by uuid, the table schema and shard creation: thin calls of the database client.
- BitColumns.SetLaws: masks are single bits of values below 2 to the 31.
- Cron locks, signal handling, acknowledgement counts, routes, signatures, on-boarding, staking and minting: wrappers, or code without an invariant of its own.
