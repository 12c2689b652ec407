# Budgie BBS write path: a verified model

This project models the partitioned command-log to event-log write path of
Budgie BBS, the consumers that follow the event log, and the lease that hands out
command partitions. Commands are appended to per-partition logs; workers fetch
after the committed offset, decide, and append the decided events together with
the advance of the command offset in one transaction; projections follow by
per-partition or scalar watermark.

`dafny verify dfyconfig.toml` checks everything.

## How the model is laid out

| part | files |
|---|---|
| the two broker logs, as values and as the in-memory clients | `LogModel`, `BrokerEventLog`, `BrokerCommandLog`, `MemoryBroker` |
| the atomic transaction, the store around it, and its check after the commit | `CommandEventTransaction`, `TransactionStore`, `PostCommitCheck` |
| any number of workers over shared logs, every run | `Decisions`, `Delivery`, `ExactlyOnce` |
| one worker: per-record drain and batch drain, and how they are runs of the whole | `DrainModel`, `DrainSpec`, `DrainReceipts`, `WorkerRuns`, `DrainRuns`, `CommandLogWorker` |
| the SQL event log under concurrent transactions, derived views | `SqlEventLog`, `SqlViews`, `DerivedView` |
| the lease protocol | `PartitionClaim` |
| the event-store materializer, its runs and its hot path | `EventMaterializer`, `MaterializerRuns`, `HotProjection` |
| replay, and the tables it meets | `ReplayOrder`, `CursorReplay`, `ReplayTables`, `BrokerReplay` |
| the partition index | `PartitionIndex`, `IndexedCommandLog` |
| the materialization audit | `MaterializationAudit` |
| native decisions, and attempts that answer differently | `NativeDecider`, `DecisionOrder`, `DecisionCache`, `LateDelivery`, `AttemptRuns` |

State that the program updates in place is a class whose methods are proved
against functions on values; protocols are step relations whose runs interleave
freely. What the program does not decide (clocks, cancellation, heartbeats,
failing calls, other processes) is a parameter or a step that may happen at any
time. Stable decision ids are kept as the tuple the program hashes, event and
command payloads are opaque strings, and encoding is the identity.

Thirteen properties are false as one would first state them. For each the exact
condition is proved for all inputs, with a failing input or family beside it:

- the check after a commit rejects a commit that took effect: exactly when the request
  is not in sequence (`PostCheckExactly`; at an input, `NewThenOldIsRejected`).
  Workers never send such a request (`NoCommitIsRejected`);
- a command receipt keeps naming its command: unless the log makes up the very cid of
  that receipt (`ReceiptKept`; `SyntheticCidShadowsReceipt`);
- a derived view misses nothing: exactly when every commit lies past all views
  (`CommitExactly`, `UnclearCommitLoses`), which the append gate guarantees for its own
  writers (`ViewsMissNothing`) and the ungated compatibility indexer breaks
  (`IndexerOvertakesAppend`);
- leases of different owners exclude each other: exactly while no write that takes
  effect, in time or after its call was given up, ends before a granted lease does
  (`GrantsNeverOverlap`, `ShorteningOverlaps`; `ShorterRenewalOverlaps`,
  `LateUpsertOverlaps`);
- the event-store projection is the fold of a gap-free prefix per partition: exactly
  while every landing that has an effect starts at the watermark as it is then
  (`LandExactly`, `StaleLandingBreaks`; `TwoReadersApplyTwice`), which one worker per
  partition at a time guarantees (`ExclusiveIsOrderly`);
- a hot batch equals the row-by-row path: exactly when no post precedes its thread and
  the last post of every thread has the highest sequence of that thread's posts
  (`BatchIsEachExactly`; `PostBeforeItsThread`, `SequenceGoesBack`);
- a cursor replay returns the first rows of the remaining log: exactly when each of them
  is in the page of its own partition, which is cut by offset (`CursorBatchExactly`;
  `ObservedCursorLoses`). They are where offsets agree with sequences
  (`CursorBatchIsFirst`), as in every table that the append gate guards
  (`GatedReplayIsFirst`); the compatibility indexer breaks the agreement
  (`IndexerBreaksAgreement`);
- resuming with an observed cursor loses nothing: a row is lost exactly when it was cut
  from the page of its own partition although its sequence is no higher than the last
  one delivered (`ObservedLosesExactly`; `ObservedCursorLoses`), so nothing is lost
  where offsets agree with sequences (`ObservedResumeExactly`);
- resuming with an observed cursor repeats nothing: exactly when no row past the last
  delivered one was already behind a partition offset (`ObservedResumeExactly`;
  `ObservedCursorRepeats`);
- replaying the broker log again from the last returned sequence loses nothing: exactly
  when the first row that was cut has a higher sequence (`ResumeExactly`,
  `CutTwinIsLost`; `TwinSequences`);
- the audit accounts for every committed offset: exactly when the record there is
  retained or none past it is (`AuditConserves`; `TrailingGapIsSkipped`);
- a retry of a system post derives the same events: in compact mode exactly when the
  board's presence did not change (`CompactDependsOnBoard`; `CompactRetryIsRefused`), in
  reserve mode always (`ReserveRetryIsAccepted`);
- a late attempt at a committed command is taken and changes nothing, although the facts
  it read have changed: exactly when its events are a prefix of those stored. One that
  disagrees is refused, one that goes on appends the rest (`LateDeliveryExactly`;
  `ExtraAutomodPair`, `ExtraPairMovesMailBack`). Over runs of such attempts a command is
  stored as the longest attempt taken (`StoredIsLongest`).

## Model

| member | source | states |
|---|---|---|
| `LogModel.FetchAfter` | internal/core/broker_event_log.go:321-344 | the fetch loop returns what follows the messages at or below the offset, in order, all of it or as many as a positive limit allows |
| `LogModel.NormalizeFills` | internal/core/logmodel/partition.go:26-34 | an empty kind or key becomes `global`, and nothing else changes |
| `BrokerEventLog.AppendEventValid` | internal/core/broker_event_log.go:263-319 | every append keeps the log invariant: offsets strictly increase up to the tail, ids are unique, sequences are 1..head |
| `BrokerEventLog.SeedValid` | internal/core/broker_event_log.go:358-375 | seeding a tail keeps the invariant and stores nothing |
| `BrokerEventLog.SeedRaises` | internal/core/broker_event_log.go:358-375 | a seed raises the tail of its partition to the offset if that is higher, and no other |
| `BrokerEventLog.AppendOfStored` | internal/core/broker_event_log.go:263-319 | a stored id is accepted exactly when partition, kind, sequence, scopes, payload and time are the same, and then nothing changes |
| `BrokerEventLog.AppendOfNew` | internal/core/broker_event_log.go:263-319 | anything else is accepted exactly with a kind, a payload and no offset but the next, and is then the next of its partition and of the stream |
| `BrokerEventLog.FindIdUnique` | internal/core/broker_event_log.go:263-319 | a stored id names exactly the one message that carries it |
| `BrokerEventLog.PartitionIncreases` | internal/core/broker_event_log.go:263-319 | inside a partition offsets and stream sequences increase together |
| `BrokerEventLog.StreamSeqBijection` | internal/core/broker_event_log.go:263-319 | stream sequences over all partitions are a bijection onto 1..head |
| `BrokerEventLog.IndexesPush` | internal/core/broker_event_log.go:300-318 | the client's per-partition lists and id map keep describing one stream |
| `BrokerCommandLog.AppendCommandValid` | internal/core/broker_command_log.go:179-232 | appends keep offsets 1..tail in every partition, only extend it, and leave committed offsets alone |
| `BrokerCommandLog.ReceiptKept` | internal/core/broker_command_log.go:179-232 | a receipt keeps naming its command if and only if the append is not given the synthetic cid of that receipt |
| `BrokerCommandLog.AppendOfReceipt` | internal/core/broker_command_log.go:179-232 | an actor and cid that the partition has: the latest such command is returned if cid, command, payload and time are the same, else the append is refused |
| `BrokerCommandLog.AppendOfOther` | internal/core/broker_command_log.go:179-232 | any other command with command, payload and time is the next of its partition, with a made-up cid and the clock's time where it has none |
| `BrokerCommandLog.ActorsDoNotClash` | internal/core/broker_command_log.go:179-232 | the same cid from two actors is two commands, and repeating either returns its own message |
| `BrokerCommandLog.CommitRaises` | internal/core/broker_command_log.go:259-276 | a commit raises the committed offset of its partition if the offset is higher, and no other |
| `BrokerCommandLog.TrimMeans` | internal/core/broker_command_log.go:179-232 | trimming removes blanks at both ends and nothing else |
| `BrokerCommandLog.SyntheticCidIs` | internal/core/logmodel/receipts.go:34-37 | the made-up cid, spelled out for one command |
| `BrokerCommandLog.DecimalMeans` | internal/core/logmodel/receipts.go:34-37 | its last part is the offset in decimal |
| `BrokerCommandLog.SourceFits` | internal/core/logmodel/source_position.go:34-63 | a source position is valid for the one command it names, in a named topic, with a commit offset past it |
| `BrokerCommandLog.SyntheticCidShadowsReceipt` | internal/core/logmodel/receipts.go:34-37 | the concrete failure: the retry of the shadowed command is refused |
| `MemoryBroker.MemoryEventLog.AppendEvent` | internal/core/broker_event_log.go:263-319 | the client does what the value form does, error by error; an error changes nothing |
| `MemoryBroker.MemoryEventLog.FetchEvents` | internal/core/broker_event_log.go:321-344 | exactly the stored messages of the partition past the offset, cut at the limit |
| `MemoryBroker.MemoryEventLog.SeedEventPartitionOffset` | internal/core/broker_event_log.go:358-375 | the tail becomes the maximum of itself and the seed |
| `MemoryBroker.MemoryEventLog.ListEventPartitions` | internal/core/broker_event_log.go:377-406 | every partition with a tail, each once |
| `MemoryBroker.MemoryCommandLog.AppendCommand` | internal/core/broker_command_log.go:179-232 | the client does what the value form does, with deduplication by receipt; an error changes nothing |
| `MemoryBroker.MemoryCommandLog.FetchCommands` | internal/core/broker_command_log.go:234-257 | exactly the stored commands of the partition past the offset, cut at the limit |
| `MemoryBroker.MemoryCommandLog.CommitPartition` | internal/core/broker_command_log.go:259-276 | the committed offset becomes the maximum, without a check against the tail |
| `CommandEventTransaction.AppendAllDescribes` | internal/core/command_event_transaction.go:562-673 | accepted records are all answered: stored ones by their message, new ones by fresh messages in request order, and nothing else is stored |
| `CommandEventTransaction.AppendAllConcat` | internal/core/command_event_transaction.go:562-673 | appending a batch is appending its parts one after another |
| `CommandEventTransaction.RepeatAppends` | internal/core/command_event_transaction.go:562-673 | repeating a transaction appends nothing and returns the same messages |
| `CommandEventTransaction.RepeatCommits` | internal/core/command_event_transaction.go:658-668 | repeating a transaction moves no committed offset |
| `CommandEventTransaction.ValidateMessages` | internal/core/command_event_transaction.go:456-497 | the loop accepts exactly: same identities, scalar sequences increasing, offsets increasing per partition |
| `CommandEventTransaction.PostCheckMeans` | internal/core/command_event_transaction.go:456-497 | field by field: what each answer must have, and that sequences and offsets increase |
| `CommandEventTransaction.AcceptedMeans` | internal/core/command_event_transaction.go:590-645 | one record is accepted exactly with an id and a time, stored with the same content or complete |
| `CommandEventTransaction.PositionMeans` | internal/core/command_event_transaction.go:569-588 | a command's offset is accepted exactly from 1 up to the tail of its partition, with no source or one that fits |
| `PostCommitCheck.PostCheckExactly` | internal/core/command_event_transaction.go:456-497 | for accepted requests of any kind the check after the commit passes if and only if scalar sequences increase and, inside a partition, stored events come in stream order and before new ones |
| `PostCommitCheck.NativePostCheck` | internal/core/command_event_transaction.go:456-497 | without compatibility sequences: if and only if the request is stored events in stream order, then new ones |
| `PostCommitCheck.NewBeforeStored` | internal/core/command_event_transaction.go:481-484 | a new event before a stored one of its partition, or of any without compatibility sequences, is committed and then rejected |
| `PostCommitCheck.NewThenOldIsRejected` | internal/core/command_event_transaction.go:481-484 | the failing input: one stored event, a request for a new one and then it |
| `TransactionStore.MemoryTransactions.Plan` | internal/core/command_event_transaction.go:590-645 | planning succeeds exactly for acceptable records and assigns what appending one by one would |
| `TransactionStore.MemoryTransactions.Apply` | internal/core/command_event_transaction.go:647-657 | applying the plan leaves the log of appending one by one |
| `TransactionStore.MemoryTransactions.CheckCommands` | internal/core/command_event_transaction.go:569-588 | every command position is valid and within its tail, or nothing happens |
| `TransactionStore.MemoryTransactions.CommitPositions` | internal/core/command_event_transaction.go:658-668 | offsets advance as if each command were committed in order |
| `TransactionStore.MemoryTransactions.AppendEventsAndCommitCommands` | internal/core/command_event_transaction.go:562-673 | atomic: succeeds exactly when all is acceptable, an error leaves both logs unchanged, success equals one append per record then one commit per command |
| `TransactionStore.NormalizeRecords` | internal/core/logmodel/broker_records.go:171-206 | accepts exactly records with ids, timestamps, contents and distinct ids |
| `TransactionStore.CommandEventStore.CommitCommandEvents` | internal/core/command_event_transaction.go:311-362 | takes effect exactly when accepted, and then answers with an error exactly when the messages fail the later check |
| `TransactionStore.SingleCommit` | internal/core/command_event_transaction.go:231-244 | the reported commit is in the record's partition and never below its offset, so the finalizer's own check cannot fail |
| `Decisions.DecidedOffsets` | internal/core/command_log_native_decider.go:3797-3815 | events decided for consecutive commands carry those offsets and pairwise different ids |
| `Delivery.SubmissionAccepted` | internal/core/command_event_transaction.go:311-362 | whatever part of a batch is already committed, the transaction is stored events in stream order, then new ones |
| `Delivery.SubmissionEffect` | internal/core/command_event_transaction.go:562-673 | after it the log holds exactly the events of the commands up to the new offset, and nothing changed for other partitions |
| `ExactlyOnce.NextKeeps` | internal/core/command_log_worker.go:476-578 | every step (produce, a read that answers the committed offset or a lower one, fetch, submit, late or repeated delivery, crash, foreign append, seed) keeps the invariant |
| `ExactlyOnce.ExactlyOnceInOrder` | internal/core/command_event_transaction.go:562-673 | over every run, what the log holds from a command partition is the decided events of the commands at or below the committed offset, in order |
| `ExactlyOnce.EachEventOnce` | internal/core/command_log_native_decider.go:3797-3815 | an event is stored, at one place only, if and only if its command is committed |
| `ExactlyOnce.NoCommitIsRejected` | internal/core/command_event_transaction.go:311-362 | over every run, each submitted transaction is accepted and passes the check after its commit |
| `ExactlyOnce.WorkersTrailTheLog` | internal/core/command_log_worker.go:476-578 | what a worker believes committed is durable, and the records it holds are those of the log |
| `ExactlyOnce.WorkersGetThrough` | internal/core/command_log_worker.go:494-577 | in every reachable state a worker can submit, have delivered and confirm any first part of its records, and then the events and the offset are durable |
| `ExactlyOnce.LogsStayWellFormed` | internal/core/broker_event_log.go:263-375 | over every run both logs keep their invariants |
| `WorkerRuns.DrainIsARun` | internal/core/command_log_worker.go:476-709 | an undisturbed drain in either form, from the committed offset or a lower one, is a run of the system: read, fetch, submit, deliver, confirm, ending with exactly the logs the drain leaves |
| `WorkerRuns.IndexedReadIsAStep` | internal/core/command_log_partition_index.go:103-127 | the offset that a trailing partition index answers is one that the system lets a worker start from |
| `DrainRuns.TransactionFollows` | internal/core/command_event_transaction.go:311-362 | from every reachable state a store call with records the log still has, from the committed offset or earlier, is a sequence of steps, cancelled or not |
| `DrainRuns.CommitExplained` | internal/core/command_event_transaction.go:311-362 | along any chain of calls a committed offset is where it was, or one of the calls put it there |
| `DrainRuns.TracedOn` | internal/core/command_log_worker.go:476-709 | traces compose: the chain of calls that leads from one state of the logs to the next, and the run that explains it |
| `DrainRuns.LawfulStays` | internal/core/command_log_worker.go:476-578 | a foreign call that is lawful stays so while commands are added and offsets grow |
| `DrainRuns.DrainAmongOthers` | internal/core/command_log_worker.go:476-709 | a traced drain continues every run that reached its start, whatever was lost or cancelled, as long as the other processes made steps of the system; exactly once in order holds after it |
| `DrainModel.RaisedSeq` | internal/core/command_event_transaction.go:99-105 | the recorded sequence is the highest among the reply and its events |
| `DrainReceipts.ReceiptSays` | internal/core/command_event_transaction.go:45-111 | the receipt of a committed command is failed for good if it was refused, applied at no less than the reply's sequence if it has one, and none otherwise |
| `DrainReceipts.DrainMeans` | internal/core/command_log_worker.go:494-577 | an undisturbed drain in terms of the commands: each finalized one has its receipt with the highest sequence its stored events carry, the one that asked for a retry is recorded as retrying, no other receipt changed, and the counters count them |
| `DrainModel.PhasesMerge` | internal/core/command_event_transaction.go:181-218 | writing terminal receipts first and applied ones after leaves the receipts of command order |
| `DrainModel.BatchRefinesEach` | internal/core/command_event_transaction.go:117-219 | one transaction for a batch leaves the logs, committed offset and receipts of one transaction per command, and fails when that fails |
| `DrainSpec.ReadyAfter` | internal/core/command_log_worker.go:494-577 | from a settled state, finalizing part of the fetched records leaves a settled state for the rest |
| `DrainSpec.ReadyPasses` | internal/core/command_event_transaction.go:311-362 | from a settled state any run of fetched records passes as one transaction |
| `DrainSpec.SettleAccounts` | internal/core/command_log_worker.go:747-796 | under any heartbeat outcome and commit-recording failure the counters stay accountable and the last offset durable |
| `DrainSpec.PollMeans` | internal/core/command_log_worker.go:494-540 | when a record is executed, passed over, or stops the drain, and with which error |
| `DrainSpec.SettleMeans` | internal/core/command_log_worker.go:747-796 | what is counted, advanced and reported after a finalization, for every heartbeat outcome |
| `CommandLogWorker.ValidateBatch` | internal/core/command_event_transaction.go:246-267 | accepts exactly batches of one partition, increasing offsets and valid source positions |
| `CommandLogWorker.BatchMeans` | internal/core/command_event_transaction.go:246-267 | pairwise: one partition, later offsets higher, every position valid |
| `CommandLogWorker.HighestSeq` | internal/core/command_event_transaction.go:99-105 | the loop computes the highest sequence |
| `CommandLogWorker.Worker.FinalizeRecord` | internal/core/command_event_transaction.go:45-111 | counters and commit of one record on every exit; a retryable one leaves both logs as they were; the only receipt that may change is its own, to one that is true of it |
| `CommandLogWorker.Worker.RecordReceipt` | internal/core/command_event_transaction.go:72-109 | the receipt of a finalized record is the terminal failure or the sequence of its latest event; a failing recorder leaves it as it was |
| `CommandLogWorker.Worker.DecideBatch` | internal/core/command_event_transaction.go:138-165 | events in command order with the range of each command; refuses a retryable reply |
| `CommandLogWorker.Worker.RecordReceipts` | internal/core/command_event_transaction.go:181-218 | each applied command is recorded with the sequence of its own range of the messages; when a recorder fails, the first terminal failures are written, or all of them and the first applied commands |
| `CommandLogWorker.Worker.FinalizeBatch` | internal/core/command_event_transaction.go:117-219 | counters, receipts and commit of a batch on every exit, a recorder failing half way included |
| `CommandLogWorker.Worker.FinalizeStep` | internal/core/command_log_worker.go:747-796 | one finalization under the heartbeat, whatever happens to ownership or the context |
| `CommandLogWorker.Worker.Flush` | internal/core/command_log_worker.go:590-634 | the same for a gathered batch |
| `CommandLogWorker.Worker.FlushGathered` | internal/core/command_log_worker.go:590-709 | after a flush the batch drain is where the per-record drain would be |
| `CommandLogWorker.Worker.DrainEach` | internal/core/command_log_worker.go:494-577 | accounting within one command on every exit and exact without error; the committed offset stays before a record that is retryable or for which ownership or the context was lost, unless it was past it already or a foreign call put it there; the simple drain when nothing interferes |
| `CommandLogWorker.Worker.FlushAndRetry` | internal/core/command_log_worker.go:667-702 | what was gathered is committed before the retryable record is recorded, and the committed offset stays before that record |
| `CommandLogWorker.Worker.DrainBatch` | internal/core/command_log_worker.go:580-709 | the same claims for the batch form, against the same simple drain |
| `CommandLogWorker.Worker.DrainPartition` | internal/core/command_log_worker.go:476-493 | either form, from reading the committed offset on: equal outcomes when ownership is kept, with the receipts and counters of `DrainMeans`; no error from a settled state; whatever happens, a receipt changes only to one that is true of its command, so only a committed refused command is failed for good; whatever is lost or interferes, the committed offset stays before every record that stopped the drain unless a given foreign call put it there, the logs change by exactly the listed calls, and if the given foreign calls are lawful at the start every run continues to where the drain ends |
| `CommandLogWorker.Worker.DrainInRun` | internal/core/command_log_worker.go:476-709 | from a state that a run has reached, a drain among lawful foreign calls continues that run, and exactly once in order holds after it |
| `CommandLogWorker.Interleave` | internal/core/command_log_worker.go:476-578 | foreign calls are made and noted one by one, remove no command and never move a committed offset back |
| `SqlEventLog.GateStep` | internal/core/log.go:26-138 | every interleaved step of gated appends, indexers and views keeps the writers' invariant |
| `SqlEventLog.CommitsPassTheHead` | internal/core/log.go:84-92 | under every interleaving, what a gated append commits has a sequence past every row that gated appends had committed before |
| `SqlEventLog.OffsetsHaveNoGap` | internal/core/log.go:94-138 | committed offsets of a partition whose offset row no indexer raised are exactly 1..n although sequences have gaps |
| `SqlEventLog.OffsetRowsNeverFall` | internal/core/event_store_materializer.go:551-571 | over every run, appends and indexers side by side, the last offset on record for a partition never falls |
| `SqlViews.CommitExactly` | internal/core/derived_rebuild_processor.go:158-227 | a commit leaves every view on course if and only if its rows lie past all of them, fetched batches included |
| `SqlViews.ClearCommitsMissNothing` | internal/core/derived_rebuild_processor.go:158-227 | over every mixed run whose commits lie past all views, a view is in every state the fold of exactly the committed rows at or below its watermark |
| `SqlViews.ViewsMissNothing` | internal/core/derived_rebuild_processor.go:158-227 | when every writer takes the gate this holds unconditionally, for any batch sizes, failures, commits and aborts |
| `SqlViews.PastHeadIsClear` | internal/core/log.go:84-92 | a commit past the head of the table lies past every view |
| `SqlViews.UnclearCommitLoses` | internal/core/event_store_materializer.go:551-571 | after any other commit some view misses a row, at once or on applying the batch it holds |
| `SqlViews.OvertakenCommitLoses` | internal/core/event_store_materializer.go:551-571 | if a row lies at or below the head, an idle view can catch up first and miss it |
| `SqlViews.MissedForever` | internal/core/derived_rebuild_processor.go:158-227 | a missed row stays missed in every continuation |
| `SqlViews.IndexerOvertakesAppend` | internal/core/event_store_materializer.go:551-571 | the failing input: a gated append holds sequence 1, the indexer commits sequence 2, a view catches up, the append commits and is lost |
| `DerivedView.ScanRows` | internal/core/log.go:213-254 | the rows that share a scope with the request, or all without one, in order, cut at the limit |
| `DerivedView.Processor.ProcessOnce` | internal/core/derived_rebuild_processor.go:158-227 | state and watermark move together by the whole batch, or an error leaves both |
| `DerivedView.PassKeepsFold` | internal/core/derived_rebuild_processor.go:191-227 | a pass keeps the view equal to the fold, and moves it while rows remain |
| `PartitionClaim.LeaseTable.ClaimCommandPartition` | internal/core/command_partition_claim.go:30-79 | the upsert, what lands in between, and the read-back decide the grant; alone, a row of another owner that has not expired is kept and anything else becomes the claim |
| `PartitionClaim.TtlMillis` | internal/core/command_partition_claim.go:40-47 | whole milliseconds rounded down, at least 1, and 30000 if none is asked for |
| `PartitionClaim.StepKeeps` | internal/core/command_partition_claim.go:48-78 | every interleaved step but a shortening write, late landings included, keeps granted leases within the current row and those of other owners before it |
| `PartitionClaim.GrantsNeverOverlap` | internal/core/command_partition_claim.go:48-78 | while no write that takes effect, in time or late, ends before a granted lease does, leases granted to different owners never overlap, with stale clocks and any interleaving |
| `PartitionClaim.ShorteningOverlaps` | internal/core/command_partition_claim.go:48-78 | after the first write that does, any owner that has not called yet can be granted an overlapping lease |
| `PartitionClaim.AskingForMoreIsSafe` | internal/core/command_partition_claim.go:40-55 | an owner that never asks for less than it was granted on the partition never shortens, as long as no upsert lands after its call was given up |
| `PartitionClaim.ConstantTtlExcludes` | internal/core/command_partition_claim.go:40-78 | in particular with a constant time to live per owner, a clock that does not go back and no late landing |
| `PartitionClaim.LateUpsertOverlaps` | internal/core/command_partition_claim.go:48-60 | a constant time to live is not enough: the upsert of a cancelled claim lands on the owner's newer lease and ends it early, and another owner is granted the rest |
| `PartitionClaim.ClaimIsGranted` | internal/core/command_partition_claim.go:56-78 | an undisturbed claim on a free, expired or own row is granted |
| `PartitionClaim.ShorterRenewalOverlaps` | internal/core/command_partition_claim.go:40-78 | the failing input: a renewal with a shorter time to live, then another owner |
| `EventMaterializer.CheckEvents` | internal/core/event_store_materializer.go:225-245 | repeats are skipped, a gap or a foreign partition is an error |
| `EventMaterializer.CheckedExactly` | internal/core/event_store_materializer.go:225-245 | increasing events of the partition are applied if and only if they continue the watermark without a gap |
| `MaterializerRuns.ProjectionIsAlwaysThePrefix` | internal/core/event_store_materializer.go:188-329 | over every run of reads, transactions and failures of any number of workers, interleaved with appends and seeds, without a stale landing, the projection is the ordered fold of exactly the gap-free prefix up to each watermark |
| `MaterializerRuns.LandExactly` | internal/core/projections/watermarks.go:57-74 | one landing keeps that if and only if it has no effect or what it brings starts at the watermark as it is when it lands |
| `MaterializerRuns.StaleLandingBreaks` | internal/core/projections/watermarks.go:57-74 | the first stale landing of a run leaves a partition with another number of applied events than its watermark says |
| `MaterializerRuns.ExclusiveIsOrderly` | internal/core/event_store_materializer.go:188-329 | no landing is stale when a partition is read only while no other worker holds a part of it |
| `MaterializerRuns.TwoReadersApplyTwice` | internal/core/event_store_materializer.go:208-217 | the failing input: two workers read the same event before either lands, and it is applied twice |
| `EventMaterializer.FollowsGrown` | internal/core/event_store_materializer.go:188-329 | what was applied stays a prefix of every partition while the log grows |
| `EventMaterializer.ProjectionWorker.MaterializePartition` | internal/core/event_store_materializer.go:188-329 | the projection stays the fold of a gap-free prefix per partition; an error changes nothing |
| `EventMaterializer.ProjectionWorker.MaterializeOnce` | internal/core/event_store_materializer.go:100-136 | a pass moves no watermark back and leaves a partition at its last event unless a whole batch was applied |
| `EventMaterializer.ShouldContinue` | internal/core/event_store_materializer.go:173-183 | another pass exactly when some batch was full |
| `EventMaterializer.ProjectionWorker.DrainOnce` | internal/core/event_store_materializer.go:138-150 | terminates for every batch size, with every listed partition at its last event; on a gap-free log without failures there is no error |
| `HotProjection.Aggregate` | internal/core/event_store_materializer.go:1021-1034 | the loop counts posts per thread and keeps the latest sequence and time |
| `HotProjection.MaterializeBatch` | internal/core/event_store_materializer.go:794-858 | threads, then posts, each needing its thread's row, then one update per thread |
| `HotProjection.BatchIsEach` | internal/core/rebuild.go:394-453 | the batch equals the row-by-row path, errors of clashes and missing threads included, when threads come first and every thread's last post is its latest |
| `HotProjection.SplitInvariance` | internal/core/event_store_materializer.go:794-858 | splitting a batch anywhere changes no count, last sequence, time, post or error, when sequences do not go back and threads come first |
| `HotProjection.BatchIsEachExactly` | internal/core/event_store_materializer.go:794-858 | for any positive sequences: the row-by-row path succeeds if and only if the batch does and threads come first; a batch that succeeds agrees with it if and only if threads come first and every thread's last post is its latest |
| `HotProjection.PostBeforeItsThread` | internal/core/postgres_schema.go:813-815 | the failing input: the batch stores a post listed before its thread, the row-by-row path refuses it |
| `HotProjection.SequenceGoesBack` | internal/core/event_store_materializer.go:1021-1034 | the other failing input: posts at 5 and then 3, where the batch keeps 5 as the thread's last sequence and the row-by-row path 3 |
| `HotProjection.ThreadAlone` | internal/core/rebuild.go:394-453 | a thread starts without posts at its own sequence and time, and its first post brings it to its own |
| `ReplayOrder.BeforeTotal` | internal/proto/event.go:133-148 | replay order is a strict total order on keys |
| `ReplayOrder.BeforeMeans` | internal/proto/event.go:133-148 | sequence first, then kind, then key, then offset |
| `ReplayOrder.LessMeans` | internal/proto/event.go:133-148 | strings compare by their first difference, a prefix first |
| `ReplayOrder.OrderedUnique` | internal/proto/event.go:133-148 | any correct sort gives the same list |
| `ReplayOrder.CutThenMerge` | internal/core/core.go:872-886 | cutting every partition to the limit before sorting loses none of the first `limit` events |
| `CursorReplay.OffsetsAfter` | internal/core/core.go:844-850 | the highest offset the cursor names for each partition |
| `CursorReplay.PartitionsToRead` | internal/core/core.go:855-871 | the loops over listed and named partitions, skipping what was seen, then the sort |
| `CursorReplay.ReadInOrder` | internal/core/core.go:855-871 | exactly the partitions listed or named, strictly increasing by kind and key |
| `CursorReplay.ReplayPartitionFiltered` | internal/core/log.go:189-211 | one partition past its offset, by offset and sequence, in scope, cut at the limit |
| `CursorReplay.MergedIsRemaining` | internal/core/core.go:837-887 | the partitions merge to the whole remaining log |
| `CursorReplay.ReplayCursor` | internal/core/core.go:837-887 | a scalar cursor replays by sequence; a partition cursor queries and cuts each partition, sorts and cuts again, for any table |
| `CursorReplay.CursorBatchIsFirst` | internal/core/core.go:837-887 | where offsets agree with sequences and every partition is listed, that is exactly the first `limit` matching events of the whole remaining log |
| `CursorReplay.ObserveRaises` | internal/proto/wire.go:101-122 | observing an event raises the offset of its partition and no other |
| `CursorReplay.ResumeIsExact` | internal/core/core.go:837-887 | what was returned, then what the advanced cursor still has to see, is the whole |
| `CursorReplay.Enumerate` | internal/httpapi/events.go:205-232 | a caller that keeps the sequence out of the cursor enumerates every event once, in order |
| `CursorReplay.ObservedResumeExactly` | internal/wsapi/conn.go:279-292 | where offsets agree with sequences, a caller that observes events into the cursor resumes by sequence: it loses nothing, and repeats nothing if and only if no row in scope past the last delivered one was already behind a partition offset |
| `CursorReplay.ObservedCursorRepeats` | internal/proto/wire.go:87-99 | the failing input: one partition seen ahead in sequence, one behind, and the seen row comes again |
| `ReplayTables.GatedTableAgrees` | internal/core/log.go:94-138 | over every run of gated appends, offsets agree with sequences in every partition and every partition of a row has an offset row |
| `ReplayTables.GatedReplayIsFirst` | internal/core/core.go:837-887 | so in every state of such a run a partition cursor returns exactly the first `limit` matching rows of the remaining log |
| `ReplayTables.CursorBatchExactly` | internal/core/core.go:872-886 | for any table: the batch is the first `limit` matching rows of the remaining log if and only if each of those rows is in the page of its own partition |
| `ReplayTables.IndexerBreaksAgreement` | internal/core/event_store_materializer.go:551-571 | the failing input: an append and an indexed event share offset 1, and a cursor past the first never gets to the second |
| `ReplayTables.ObservedLosesExactly` | internal/proto/wire.go:87-99 | for any table: an observed cursor loses a due row if and only if it was cut from its own partition's page and its sequence is no higher than the last one delivered |
| `ReplayTables.ObservedCursorLoses` | internal/proto/wire.go:87-99 | the failing input: offset 1 at sequence 9, offset 2 at sequence 3, a page of one |
| `BrokerReplay.ReplayPages` | internal/core/broker_event_log.go:105-136 | paging by 100 terminates and visits every message of the partition once |
| `BrokerReplay.GatheredSorts` | internal/core/broker_event_log.go:105-138 | sorting what the partitions gave is sorting the filtered stream |
| `BrokerReplay.Replay` | internal/core/broker_event_log.go:88-143 | every row returned is a stored message past the sequence that shares a scope with the request, each once, by ascending sequence; all such messages are returned unless the limit stopped it, and then what is left out comes no earlier |
| `BrokerReplay.ResumeExactly` | internal/core/broker_event_log.go:125-143 | replaying from the last returned sequence returns none of those rows, and the two together are everything asked for if and only if the first row cut has a higher sequence |
| `BrokerReplay.CutTwinIsLost` | internal/core/broker_event_log.go:125-143 | a row cut with the sequence of the last one returned is in neither |
| `BrokerReplay.TwinSequences` | internal/core/broker_event_log.go:125-143 | the failing input: two events with compatibility sequence 5 and a limit of one |
| `PartitionIndex.ProduceKeeps` | internal/core/command_log_partition_index.go:35-54 | an append after the announcement keeps the index behind the log |
| `PartitionIndex.IndexTrailsLog` | internal/core/command_log_partition_index.go:35-127 | over every run with crashes: every partition with a command is listed, listed committed <= listed tail <= real tail, listed committed <= really committed |
| `PartitionIndex.DrainSkipsNothing` | internal/core/command_log_partition_index.go:103-127 | a drain from the indexed offset starts right after it and never past an uncommitted command |
| `PartitionIndex.StartsFrom` | internal/core/command_log_partition_index.go:103-127 | a drain starts from the smaller of the row's committed offset and tail, and from zero without a row |
| `PartitionIndex.NotesRaise` | internal/core/command_log_partition_index.go:35-101 | each note raises the tail or the committed offset of one row to its offset, and nothing else touches the rows |
| `IndexedCommandLog.IndexedLog.Produce` | internal/core/command_log_partition_index.go:35-54 | on every exit exactly which row was announced or raised and what the log holds, and the index trails the log |
| `IndexedCommandLog.IndexedLog.FetchPartition` | internal/core/command_log_partition_index.go:56-73 | the row of the partition is raised to the last fetched offset that was noted, no other row changes, and the index trails the log |
| `IndexedCommandLog.IndexedLog.CommitPartition` | internal/core/command_log_partition_index.go:75-86 | on every exit the log's committed offset is the larger of the old one and the offset, for this partition only; then the row is raised the same way, or a failed note leaves it behind, never ahead |
| `IndexedCommandLog.IndexedLog.CommittedOffset` | internal/core/command_log_partition_index.go:103-127 | the smaller of listed tail and listed committed offset, never past the real ones |
| `MaterializationAudit.AuditPage` | internal/core/command_log_materialization_audit.go:83-123 | a page is tallied record by record, gaps before a record included |
| `MaterializationAudit.AuditPartition` | internal/core/command_log_materialization_audit.go:54-125 | the nested loops terminate and report the tally of what is retained |
| `MaterializationAudit.AuditConserves` | internal/core/command_log_materialization_audit.go:70-126 | the counters add up to the committed offset if and only if the record there is retained or none past it is |
| `MaterializationAudit.AuditCounts` | internal/core/command_log_materialization_audit.go:83-123 | each counter is the number of retained records of its status at or below the committed offset |
| `MaterializationAudit.CompleteExactly` | internal/core/command_log_materialization_audit.go:54-131 | where every offset is accounted for, a partition is complete if and only if every committed offset has a record that was applied or failed for good |
| `MaterializationAudit.TrailingGapIsSkipped` | internal/core/command_log_materialization_audit.go:84-86 | a lost committed record goes unreported and the partition looks complete |
| `MaterializationAudit.AuditOffsets` | internal/core/command_log_materialization_audit.go:52-131 | the report of all partitions is the sum of theirs |
| `MaterializationAudit.AuditAllConserves` | internal/core/command_log_materialization_audit.go:52-131 | over all partitions the counters add up to the committed offsets |
| `NativeDecider.SystemPostOrdinals` | internal/core/command_log_native_decider.go:3838-3887 | ordinals increase in every mode; they leave a hole exactly in reserve mode with the board present |
| `NativeDecider.ReserveIgnoresBoard` | internal/core/command_log_native_decider.go:3866-3887 | in reserve mode a retry derives the same thread and post events whether or not the board exists |
| `NativeDecider.ReserveRetryIsAccepted` | internal/core/command_log_native_decider.go:3838-3887 | so a retried transaction is accepted and appends nothing |
| `NativeDecider.CompactDependsOnBoard` | internal/core/command_log_native_decider.go:3844-3872 | in compact mode the events are the same if and only if the board's presence is |
| `NativeDecider.CompactRetryIsRefused` | internal/core/command_log_native_decider.go:3844-3872 | where the first attempt created the board, the log refuses the compact retry |
| `NativeDecider.ReserveLeavesNoRoom` | internal/core/command_log_native_decider.go:3866-3887 | an event numbered by the list length after a reserve-mode post with the board present would clash |
| `NativeDecider.ContentFilterNumbered` | internal/core/command_log_native_decider.go:4212-4260 | consecutive ordinals from the start index, for private and public boards |
| `NativeDecider.AutomodEvents` | internal/core/automod_eval.go:72-125 | the loop with its running index gives each known action its event and its audit entry |
| `NativeDecider.ActionsNumbered` | internal/core/automod_eval.go:72-125 | two consecutive ordinals per known action, none for unknown ones |
| `NativeDecider.NativeIsStable` | internal/core/command_log_native_decider.go:368-376 | the native create-thread and append-post decisions form a decider that is stable on everything the log holds |
| `NativeDecider.ClockDoesNotMatter` | internal/core/command_log_native_decider.go:350-355 | on a logged record the clock makes no difference |
| `NativeDecider.UnloggedIsNotStable` | internal/core/command_log_native_decider.go:350-355 | on a record without an enqueue time a retry derives the same id with other content, which the log refuses |
| `NativeDecider.NativeExactlyOnce` | internal/core/command_log_native_decider.go:378-627 | so every run of the write path with the native decider, its facts fixed per command, is exactly once, in order |
| `LateDelivery.LateDeliveryExactly` | internal/core/command_log_native_decider.go:478-627 | over every run, a late attempt at a committed command with other events is taken if and only if it agrees with the stored ones as far as both go; taken, it appends exactly what it has beyond them, so it then changes nothing if and only if it is no longer |
| `AttemptRuns.StoredIsLongest` | internal/core/command_log_native_decider.go:478-627 | over every run in which each attempt brings its own events: of a command the log holds exactly the longest attempt taken, every attempt taken is where that one starts, and one was taken if and only if the command is committed |
| `AttemptRuns.DeliveryTakenExactly` | internal/core/command_event_transaction.go:311-362 | in every state of such a run a transaction takes effect if and only if each of its attempts agrees with the longest one taken before |
| `LateDelivery.ExtraAutomodPair` | internal/core/automod_eval.go:72-125 | the failing family: one more automod action at the later attempt appends two events for a command already done |
| `LateDelivery.ExtraPairMovesMailBack` | internal/core/command_log_native_decider.go:478-627 | with a mail-back event behind it, the later attempt disagrees and is refused |
| `NativeDecider.CreateThreadNumbered` | internal/core/command_log_native_decider.go:378-476 | ordinals are 0, 1, 2, ... for every mix of branches |
| `NativeDecider.AppendPostNumbered` | internal/core/command_log_native_decider.go:478-627 | the same with the mail-back branch |
| `DecisionOrder.NativeLayout` | internal/core/command_log_native_decider.go:350-627 | the decider answers each record with that layout, at its enqueue time or else the clock's, and refuses with no event |
| `DecisionOrder.CreateThreadLayout` | internal/core/command_log_native_decider.go:461-476 | what each event of a create-thread decision says: the thread, the post, then the review |
| `DecisionOrder.AppendPostLayout` | internal/core/command_log_native_decider.go:478-627 | the post, then the review, and the mail-back event last |
| `DecisionOrder.FilterLayout` | internal/core/command_log_native_decider.go:4212-4260 | the flag first, and on a public board the review's board, thread and post |
| `DecisionOrder.ActionsLayout` | internal/core/automod_eval.go:72-125 | each known action's event and then its audit entry, in order |
| `DecisionOrder.SystemPostLayout` | internal/core/command_log_native_decider.go:3838-3887 | the board's event exactly when the mode says so, then the thread, then the post |
| `DecisionOrder.CreateThreadIsThreadsFirst` | internal/core/command_log_native_decider.go:461-476 | what the hot projection reads out of a create-thread decision has every thread before its posts |
| `NativeDecider.NumberedIsStable` | internal/core/command_log_native_decider.go:3797-3815 | so no two ids of a decision clash |
| `DecisionCache.Executor.Remember` | internal/core/command_log_native_decider.go:85-100 | a decision is remembered under its partition and offset |
| `DecisionCache.KeyNames` | internal/core/command_log_native_decider.go:85-118 | one key for each partition and offset of the log, none outside it |
| `DecisionCache.Executor.Take` | internal/core/command_log_native_decider.go:102-118 | a remembered decision can be taken once |
| `DecisionCache.Executor.DecideEvents` | internal/core/command_log_native_decider.go:47-66 | with or without a cached entry the events are those the command decides; a foreign reply is refused |

## Left out

- MemoryBroker.MemoryEventLog.ListEventPartitions: the order of the listing and its limit, because every caller here sorts or folds the result.
- CommandLogWorker.Worker.DrainEach: the branch for finalizers that report no commit and leave it to `commitPartition` with its retries; the transaction finalizer always commits or reports a retry or an error.
- IndexedCommandLog.IndexedLog.CommittedOffset: the listing's order by lag.
- TransactionStore.NormalizeRecords: trimming of event ids (ids are values, not strings) and the JSON test of payloads (any nonempty payload counts as valid).
- WorkerRuns.DrainIsARun: for drains that nothing disturbs; disturbed ones are covered by `Worker.DrainPartition` and `Worker.DrainInRun`.
- NativeDecider.NativeExactlyOnce: the facts read by a decision are fixed per command; attempts whose facts changed are covered by `LateDeliveryExactly` and, over runs without worker states, by `StoredIsLongest`.
- HotProjection.BatchIsEach: the reference from a thread to its board, which both paths check alike on every thread row.
- `CommitCommandEventBatch` (several commands flattened into one call): the client operation under it is modelled for any number of commands.
- 64-bit overflow of offsets and sequences; the record version field; JSON, base64 and hashing.
- Trimming removes ASCII blanks only; the program trims all Unicode white space.
- Which of several errors is reported first, beyond the error constructors of `Failure`.
- The rules that decide a command (permissions, payload normalization, SQL reads): a decision is a function of its record, and the database facts it reads are parameters of the ordinal model.
- SQLite's variant of the event log, where the single writer replaces the append gate.
- Reading back what the compatibility indexer found already indexed, feed, search and outbox tables, and watermark seeding of the materializer.
- `HeadCursor`, worker assignment, partition discovery, concurrency of several partitions inside one worker process, metrics, tickers.
- Samples and coverage fields of the audit report; looking a status up outside the receipts table.
