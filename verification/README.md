# A verified model of the IBC v2 relay pipeline

The relayer moves IBC v2 packets between two chains. Each packet has a row in `ibcv2_transfers`.
A dispatcher reads unfinished rows and pushes copies of them into a pipeline of seventeen guarded
stages. A stage asks a chain something, updates the row and the copy, or marks the copy as failed
for this pass; later passes resume from the row. This project models that pipeline and the code
around it in Dafny, and proves what holds over all runs: all answers of the chains, all patterns of
storage failures, all interleavings, any number of passes.

How the outside world appears:

- Every chain, proof-service, price and clock answer is a parameter. One `Reply` holds the answers
  one stage gets for one transfer.
- A database write is `Stored`, `Refused`, or `Lost`: applied although the caller was told it failed.
- Channels, locks and goroutines are transition systems; a run is any sequence of their steps.
- The transfers of a batch have different keys; the deduper is what guarantees it.

The files:

- `Transfers`, `Stages`: the row, the SQL statements on it, each stage's guard and effect, a pass.
  `StageLaws`: what each stage does, told from the row's columns.
- `Runs`: one transfer over any number of passes. `Gating`: what precedes what within a pass.
  `Policy`: the two switches for relaying acks.
  `Snapshots`, `OldCopies`: copies that are older than their rows.
- `TwoChains`: commitment, receipt and acknowledgement by the packet rules of ICS-04 for IBC v2
  (receiving packets, acknowledgements, timeouts), and the meaning of terminal statuses on them.
- `Progress`, `Recovery`: how many fault-free passes finish a transfer, and when they never do.
- `Store`, `Processors`, `Batches`, `Hex`: the tables, the mutable transfer, the stages and both
  middlewares as methods, proved against the functions of `Stages`.
- `Interleaving`, `PoolTruth`: many transfers, two-step stages and shared batches over one
  database, and what their terminal statuses mean.
- `BatchNetwork`, `Deduper`, `Dispatcher`: the channel network of a batch stage, the deduper and
  pipeline manager, the dispatcher's loop.
- `Once`, `CostTracker`, `EvmClient`, `PriceCache`: the single-flight cache, the cost tracker, the
  EVM finality tests and commitment paths, the price cache.

Where the code does not do what one would expect, the model follows the code:

- A row can hold an ack hash without a recv hash: the receipt check runs before, and the commitment
  check after, another relayer delivered both. Such a row never completes. Progress holds exactly for
  the other rows (`Progress.TwoPassesIff`, `Progress.OrphanIsReachable`, `Recovery.RecoversIff`).
- The update of the write-ack finality time carries no row key, so the row never gets that time.
- The dispatcher reads all rows before it pushes them. A copy loaded before its row was finished
  reopens the row and can make it unsound, with true answers only (`OldCopies.StaleCopyIsReachable`,
  and exactly when: `Snapshots.StaleCopyReopens`, `Snapshots.StaleKeepsIff`). Terminal statuses stay
  true (`OldCopies.TrueAtAnyAge`); the other run theorems take reading and pushing as one step.
- The timeout of a packet may pass between the timeout-finality guard and the timeout-batch guard;
  then a timeout is sent without the finality answer (`Gating.TimeoutWithoutFinality`; exactly then:
  `Gating.PassIsGated`).
- A transaction counts as finalized on a receipt and a head read one after the other. A block that was
  not final at the first read can be replaced before the second
  (`EvmClient.TxFinalizedCanBeWrong`, `EvmClient.TxFinalizedIsRightIff`).
- The clean-up of the single-flight cache deletes by another key than it inserts by, so nothing is
  evicted.
- An update that resolves a submission but reports an error is not counted. The counters are right
  exactly if there is none (`CostTracker.AccountsBalance`, `CostTracker.LostUpdateIsNotCounted`).
- The price cache's key is shared by pairs that differ in which side the slashes between id and
  currency belong to (`PriceCache.SameKeyIff`).

## Model

| member | source | states |
|---|---|---|
| StageLaws.ReceiptLaw | relayer/ibcv2/check_recv_packet_delivery.go:30-126 | from the columns: a transfer with no recv, ack or timeout adopts the recv that is on chain; every answer and write outcome, exactly |
| StageLaws.CommitmentLaw | relayer/ibcv2/check_packet_commitment.go:45-208 | with neither ack nor timeout recorded and the commitment gone, the one ack or the one timeout found is adopted; both or neither gives the pass up |
| StageLaws.SendFinalityLaw | relayer/ibcv2/check_send_finality.go:42-95 | without a recv the pass goes on only if the send is final; the time is recorded once |
| StageLaws.TimeoutFinalityLaw | relayer/ibcv2/check_timeout_finality.go:31-83 | past the timeout and with nothing sent the pass goes on only if the timeout is final |
| StageLaws.WriteAckFinalityLaw | relayer/ibcv2/check_write_ack_finality.go:48-130 | for a kind of ack that is switched on the pass goes on only if the write ack is final; only the copy notes the time |
| StageLaws.TimeoutLaw | relayer/ibcv2/timeout_packet.go:57-213 | a timeout is sent exactly past the timeout at both clock readings with no recv, ack or timeout recorded |
| StageLaws.RecvLaw | relayer/ibcv2/batch_recv_packet.go:55-214 | a recv is sent exactly up to the timeout at both clock readings with no recv recorded |
| StageLaws.AckLaw | relayer/ibcv2/batch_ack_packet.go:64-255 | an ack is sent exactly for a write ack of a kind that is switched on, with no ack or timeout recorded |
| StageLaws.RetryTimeoutLaw | relayer/ibcv2/retry_timeout_packet.go:44-124 | a recorded timeout that is to be retried is cleared from the row and the pass given up; otherwise it is kept |
| StageLaws.RetryRecvLaw | relayer/ibcv2/retry_recv_packet.go:44-124 | the same for a recv, as long as no write ack is recorded |
| StageLaws.RetryAckLaw | relayer/ibcv2/retry_ack_packet.go:44-124 | the same for an ack |
| StageLaws.ClearingIs | db/gen/db/ibcv2_transfers.sql.go:14-63 | the columns that each clearing statement empties, and no others |
| StageLaws.RetriedRecvIsGone | relayer/ibcv2/retry_recv_packet.go:60-83 | a recv that is to be retried is gone at the end of the pass and nothing else has changed since |
| StageLaws.WriteAckLaw | relayer/ibcv2/wait_for_write_ack.go:41-150 | with a recv and neither write ack nor timeout: the kind found is recorded with the recv's hash and time, an undecodable one as unknown, a recv without one is cleared |
| StageLaws.GasLaw | relayer/ibcv2/recv_tx_gas_calculator.go:41-89 | a configured gas stage writes the cost to its own column of the row alone, or gives the pass up |
| StageLaws.FinishLaw | relayer/ibcv2/state_finisher.go:32-106 | the finisher writes exactly the completion that the columns and the two switches call for |
| StageLaws.CompleteIff | relayer/ibcv2/ibcv2_transfer.go:381-424 | when a copy counts as complete, column by column and switch by switch |
| StageLaws.PassedOn | relayer/ibcv2/processor_mw.go:61-80 | a copy with an error or of a FAILED row passes through untouched |
| Runs.AgreementIs | relayer/ibcv2/ibcv2_transfer.go:72-153 | the columns in which a copy without error equals its row |
| Runs.DecideAllowed | relayer/ibcv2/check_packet_commitment.go:45-208 | for every stage, whatever it is told, the update it decides on is one that a sound row allows; its guard is what makes that so |
| Runs.ChangeKeeps | db/gen/db/ibcv2_transfers.sql.go:320-564 | every allowed update keeps the row sound, leaves a recorded write ack and its recv alone, and changes no status by accident |
| Runs.HandleKeeps | relayer/ibcv2/processor_mw.go:81-149 | a stage that works on a transfer keeps row soundness and copy agreement under every write outcome; the row shows the old status or the stage's |
| Runs.FinisherKeeps | relayer/ibcv2/state_finisher.go:32-106 | the finisher keeps row soundness and agreement although it sets the status in memory before the write |
| Runs.ProcessKeeps | relayer/ibcv2/processor_mw.go:61-149 | every stage keeps: not both ack and timeout, each hash with its time, write ack equal to recv with a status, copy equal to row unless failed; no stage but the finisher finishes a row |
| Runs.ReachableIsOk | relayer/ibcv2/pipeline.go:115-210 | in every reachable state of every run the row is sound and a live copy without error agrees with it; a recorded write ack and its recv never change later |
| Runs.FinishedIsForever | db/gen/db/ibcv2_transfers.sql.go:186-189 | a finished row out of the pipeline is never changed again by any run |
| Snapshots.FreshIsEnter | relayer/ibcv2/relay_dispatcher.go:92-104 | reading and pushing with nothing in between is the single step of the run theorems |
| Snapshots.StaleCopyReopens | relayer/ibcv2/relay_dispatcher.go:92-104 | a stage given a copy of any age reopens a finished row if and only if it works on the copy and its status update is applied |
| Snapshots.ChangeFitsIff | db/gen/db/ibcv2_transfers.sql.go:320-564 | for each update, exactly the sound rows it leaves sound |
| Snapshots.StaleKeepsIff | relayer/ibcv2/processor_mw.go:61-149 | a stage given a copy of any age keeps the row sound if and only if it does not write a decision to a row that the decision does not fit |
| OldCopies.StaleCopyIsReachable | relayer/ibcv2/relay_dispatcher.go:92-136 | a run with true answers: the row is finished, sound and out of the pipeline; the loop pushes a copy read before; the row is reopened and a second recv leaves it with recv and write ack that differ |
| OldCopies.TrueAtAnyAge | relayer/ibcv2/relay_dispatcher.go:92-136 | with the dispatcher's read and push as separate steps and copies of any age, every terminal status in the row is still true of the two chains |
| Runs.PassIsRun | relayer/ibcv2/pipeline.go:115-210 | entering, advancing through every stage and leaving is exactly one sequential pass |
| Gating.PassIsGated | relayer/ibcv2/pipeline.go:131-195 | in every pass: recv and timeout only after send finality, timeout and ack only after the commitment was seen, ack only after its own write-ack transaction was final; timestamp finality precedes a timeout if and only if the clock had passed the timeout at the finality stage; a terminal status only with evidence of the same pass |
| Gating.FactsAreAnswers | relayer/ibcv2/pipeline.go:131-195 | every fact in a pass's trace is an answer that the stage for it got in that pass |
| Gating.SendsAreTraced | relayer/ibcv2/processor_mw.go:204-260 | every transaction a batch stage got delivered for a transfer is in its trace |
| Gating.TimeoutWithoutFinality | relayer/ibcv2/check_timeout_finality.go:70-83 | a pass whose clock crosses the timeout between the two stages and that sends a timeout without the finality answer |
| Policy.PolicyIsKept | relayer/ibcv2/batch_ack_packet.go:224-255 | every ack that any pass sends is for the write ack in the row, and its kind is switched on: success acks by one switch, error and unknown acks by the other |
| Policy.PolicyDecides | relayer/ibcv2/ibcv2_transfer.go:393-423 | a fault-free pass over a settled row with a write ack and no ack sends an ack if and only if its kind is on and the commitment is there; with its kind off it ends with that kind's write-ack completion and no ack |
| Gating.GateStep | relayer/ibcv2/check_send_finality.go:42-95 | one stage extends the pass's trace so that what a later delivery needs is still recorded in it |
| TwoChains.OccurKeeps | relayer/ibcv2/check_packet_commitment.go:143-183 | by the packet rules ack and timeout of a packet exclude each other on chain, and known facts stay true |
| TwoChains.BothEndsArePossible | relayer/ibcv2/check_packet_commitment.go:143-183 | a received packet can be acked, and one not received by its timeout can be timed out |
| Soundness.RelayStep | relayer/ibcv2/retry_ack_packet.go:44-86 | a stage with truthful answers keeps every recorded hash backed by a chain transaction, and confirmed past its retry stage |
| Soundness.SystemKeeps | relayer/ibcv2/retry_timeout_packet.go:44-86 | this holds over every interleaving of relayer and chain steps |
| Soundness.TerminalStatusIsTrue | relayer/ibcv2/state_finisher.go:32-106 | COMPLETE_WITH_ACK is in the row only if the source commitment went by an ack, COMPLETE_WITH_TIMEOUT only if by a timeout, a write-ack completion only if that ack was written and its kind is configured not to be relayed |
| Progress.OnePass | relayer/ibcv2/pipeline.go:120-210 | one fault-free pass finishes every settled unfinished row whose ack comes with a recv, unless the clock crosses the timeout between the timeout batch and the recv batch |
| Progress.TwoPasses | relayer/ibcv2/timeout_packet.go:200-213 | two consecutive fault-free passes always finish it |
| Progress.TwoPassesIff | relayer/ibcv2/ibcv2_transfer.go:381-424 | two fault-free passes finish a settled unfinished row if and only if its ack, if any, comes with a recv |
| Progress.SunnyPassExists | relayer/ibcv2/pipeline.go:115-210 | from every row and every chain state there is a fault-free pass, so the progress results are about something |
| Progress.OrphanNeverCompletes | relayer/ibcv2/check_recv_packet_delivery.go:114-126 | a row with an ack but without the recv that happened never gets a completion status, in any run with truthful answers |
| Progress.OrphanIsReachable | relayer/ibcv2/check_packet_commitment.go:45-183 | a run with truthful answers that reaches such a row |
| Recovery.ClearingPass | relayer/ibcv2/retry_recv_packet.go:44-84 | a fault-free pass over a row that records transactions which did not take effect finishes it or clears one of them, and sends nothing |
| Recovery.RecoversIff | relayer/ibcv2/retry_ack_packet.go:44-86 | one fault-free pass for each such transaction and two more finish a row if and only if it does not hold, and will not adopt, an ack without the recv that happened; no number of passes finishes another |
| Recovery.ReachableIsTidy | relayer/ibcv2/wait_for_write_ack.go:41-123 | in every run with truthful answers a write ack is from the transaction that received the packet, and an ack that has not landed comes with a write ack |
| Recovery.ReachableRecoversIff | relayer/ibcv2/pipeline.go:115-210 | so the bound and its condition hold from every reachable unfinished row |
| Store.RecordedExactly | relayer/ibcv2/tx_submission_mapping.go:10-38 | a committed batch changes exactly its members' rows, adds one submission, and links exactly its members to it |
| Store.TrailIsKept | db/gen/db/ibcv2_transfers.sql.go:14-63 | no later statement, clears and the tracker's updates included, removes a submission, a link or a row, or changes a submission's transaction, chain, kind or time |
| Store.Database.ExecSettle | db/gen/db/ibcv2_relayer_tx_submissions.sql.go:14-27 | an update of a submission changes status and gas of that one; expiring looks at the status first, resolving does not |
| Store.SettleLaw | db/gen/db/ibcv2_relayer_tx_submissions.sql.go:14-27 | expiring touches a pending submission only; resolving overwrites |
| Store.Database.Exec | db/gen/db/ibcv2_transfers.sql.go:320-564 | a keyed update changes one existing row, and only if it was not refused |
| Store.UpdateMembers | relayer/ibcv2/batch_recv_packet.go:135-161 | the loop updates every member's row, or stops at the statement that fails |
| Store.LinkMembers | relayer/ibcv2/tx_submission_mapping.go:10-38 | the loop adds one link per member, or stops at a member without an id or at the statement that fails |
| Store.Database.ExecTx | db/tx/tx.go:26-43 | the batch transaction publishes all member rows, the submission and all links, or nothing; which of the two follows from where it failed and how the commit ended |
| Processors.Transfer.Assign | relayer/ibcv2/ibcv2_transfer.go:72-153 | assigning a query's fields in memory is the same change as the statement on the row |
| Processors.CheckRecvDelivery | relayer/ibcv2/check_recv_packet_delivery.go:30-100 | the method does to copy and row what the stage function says, for every answer and write outcome |
| Processors.CheckPacketCommitment | relayer/ibcv2/check_packet_commitment.go:45-183 | the same, for adopting an existing ack or timeout |
| Processors.CheckSendTxFinality | relayer/ibcv2/check_send_finality.go:42-72 | the same, for send finality |
| Processors.RetryPacket | relayer/ibcv2/retry_recv_packet.go:44-84 | the same, for the three clear-and-retry stages |
| Processors.WaitForWriteAckPacket | relayer/ibcv2/wait_for_write_ack.go:41-123 | the same, for recording the write ack or clearing a recv without one |
| Processors.CheckWriteAckTxFinality | relayer/ibcv2/check_write_ack_finality.go:48-80 | the same, for write-ack finality, whose update matches no row |
| Processors.RecordGasCost | relayer/ibcv2/recv_tx_gas_calculator.go:41-89 | the same, for a gas-cost stage: only the gas column of the row changes |
| Processors.FinishState | relayer/ibcv2/state_finisher.go:32-106 | the finisher as a method computes the finisher function |
| Processors.ProcessTransfer | relayer/ibcv2/processor_mw.go:61-149 | the middleware around a single-transfer stage computes the stage function on copy and row and touches no other row |
| Batches.BuildRequest | relayer/ibcv2/batch_ack_packet.go:64-93 | one sequence per transfer without error, in order; an ack batch is proved from the write-ack transactions and a recv or timeout batch from the source transactions; exactly the transfers whose hash is there and valid hex are left unmarked, and the distinct strings behind the transaction ids are exactly theirs |
| Hex.DecodesIff | relayer/ibcv2/batch_recv_packet.go:66-71 | a hash decodes if and only if it has an even number of hex digits and nothing else |
| Hex.HexRoundTrip | relayer/ibcv2/batch_recv_packet.go:66-71 | encoded bytes decode back, with and without the 0x prefix |
| Batches.BatchRow | relayer/ibcv2/batch_recv_packet.go:134-197 | after a batch each row is what its own member's view of the shared outcome gives, and other rows are as before |
| Batches.DeliverBatch | relayer/ibcv2/batch_ack_packet.go:64-208 | what goes out is what proof service and chain answer, and the commit is what the database transaction over exactly the members gives; one transaction is recorded for all members or for none, in the tables and in memory |
| Batches.Partition | relayer/ibcv2/processor_mw.go:204-254 | the batch is split by guard and status write into parts in order; each transfer and row is as the middleware leaves it, other rows are untouched |
| Batches.PickConserves | relayer/ibcv2/processor_mw.go:204-291 | splitting a batch loses and repeats nothing |
| Batches.ProcessBatch | relayer/ibcv2/processor_mw.go:195-292 | the batch middleware gives every transfer and row exactly what the single-transfer stage gives with the shared transaction and commit; these are the environment's answers for exactly the taken transfers with a usable hash, and the trail gets one submission linked to exactly those; each transfer is returned once |
| Interleaving.TwoStepsAreOne | relayer/ibcv2/processor_mw.go:81-149 | a stage whose status write and work are separate steps does what it does in one step |
| Interleaving.BeginShows | relayer/ibcv2/processor_mw.go:81-110 | a stage that works on a transfer shows its status in the row first, and others may move until it ends |
| Interleaving.CommitRows | relayer/ibcv2/batch_recv_packet.go:134-197 | the end of a batch changes each member's row as that member alone would, and no other row |
| Interleaving.StepProjects | relayer/ibcv2/pipeline.go:115-210 | every step of the pool is, for each transfer, one or no step of the single-transfer machine |
| Interleaving.PoolRefinesRun | relayer/ibcv2/pipeline.go:115-210 | for every interleaving of any number of transfers, each transfer's copy and row are those of a single-transfer run with the same answers, up to the status of a stage at work |
| Interleaving.PoolIsOk | relayer/ibcv2/processor_mw.go:195-292 | so every row of every reachable state is sound, in the middle of a stage too, and every live copy without error agrees with it |
| Interleaving.PoolKeepsTrail | relayer/ibcv2/batch_recv_packet.go:134-197 | over every run of the pool and the tracker no submission or link is lost or changes what it is about |
| PoolTruth.TerminalStatusesAreTrue | relayer/ibcv2/state_finisher.go:32-106 | in every interleaving of any number of transfers, the tracker and both chains, with answers that were true at any earlier time of the run, a terminal status in the table is true of its packet |
| PoolTruth.FairIff | relayer/ibcv2/pipeline.go:115-210 | the assumption on answers, spelled out: only what a stage is told about its packet has to have been true |
| BatchNetwork.DoKeeps | relayer/ibcv2/conditional_batch_processor.go:25-105 | every step keeps the order of closes, the batch bound and the buffer bound, and sends nothing on a closed channel |
| BatchNetwork.DoConserves | relayer/ibcv2/conditional_batch_processor.go:25-105 | no step loses or repeats a transfer anywhere in the network |
| BatchNetwork.NeverStuck | relayer/ibcv2/conditional_batch_processor.go:85-103 | while the output is read and not closed some goroutine can move: no deadlock |
| BatchNetwork.RunIsSafe | relayer/ibcv2/conditional_batch_processor.go:25-105 | over every run: no send on a closed channel, every batch between one and the maximum size, every transfer in exactly one place, passed by or batched but not both; the number of steps is bounded |
| BatchNetwork.RunEndsComplete | relayer/ibcv2/conditional_batch_processor.go:25-105 | a run can go no further if and only if the output is closed; then each input was sent exactly once, those the guard refused were passed by and those it wanted were in the batches |
| BatchNetwork.BufferTakesBatch | relayer/ibcv2/conditional_batch_processor.go:55-83 | with fewer than 1000 batches waiting the collector is not held up |
| Deduper.ActKeeps | relayer/ibcv2/pipeline.go:349-386 | every step keeps: a key is marked if and only if exactly one live copy of it is in the pipeline |
| Deduper.PipelinesAreApart | relayer/ibcv2/pipeline.go:302-323 | one pipeline per combination of source chain and client with destination chain and client |
| Deduper.OfferMarks | relayer/ibcv2/pipeline.go:260-277 | an offered transfer is marked in its own pipeline; an existing one takes it whatever the configuration says, a missing one is made only for configured chains |
| Deduper.OneLiveCopy | relayer/ibcv2/pipeline.go:260-323 | over every run of all pipelines a transfer is live at most once, even across pipelines |
| Deduper.PushFindsRoom | relayer/ibcv2/pipeline.go:92-118 | with at most 10000 marked keys a push that holds the lock finds room, and the poller can take the lock next |
| Deduper.OneMoreCanWait | relayer/ibcv2/pipeline.go:354-386 | the bound is sharp: with 10001 a push can wait for room, holding the lock |
| Deduper.PollerCanWait | relayer/ibcv2/pipeline.go:354-386 | a run in which the poller holds an output and waits for the lock of a push that waits for room |
| Deduper.EveryKeyCanLeave | relayer/ibcv2/pipeline.go:358-371 | in every sound state every marked key can be unmarked without another push |
| Deduper.EveryTransferCanLeave | relayer/ibcv2/pipeline.go:349-386 | in every reachable state of all pipelines every transfer in flight can come out without another push or a step of another pipeline |
| Dispatcher.PipelineDeduper.Push | relayer/ibcv2/pipeline.go:349-386 | returns true if and only if the key was absent; then it is marked and queued once, on a full channel after the first stage took the oldest input |
| Dispatcher.PipelineDeduper.Forget | relayer/ibcv2/pipeline.go:358-371 | an output leaves the set, no copy of it is left, and the rest is untouched |
| Dispatcher.PipelineManager.Pipeline | relayer/ibcv2/pipeline.go:260-273 | the existing pipeline of the four-part key, or a new empty one if the chains are configured; no two keys share one |
| Dispatcher.SubmitTransfer | relayer/ibcv2/relay_dispatcher.go:145-157 | pushes onto the right pipeline; tells pushed, already in flight and no pipeline apart |
| Dispatcher.SubmitWaitingUnfinishedTransfers | relayer/ibcv2/relay_dispatcher.go:92-136 | the loop computes the fold over all rows; if the read fails nothing changes |
| Dispatcher.EveryRowIsHandled | relayer/ibcv2/relay_dispatcher.go:92-136 | after it every listed row is in flight and unchanged, or, if and only if its chains are not configured, marked FAILED as far as that write got |
| Dispatcher.Unlisted | relayer/ibcv2/relay_dispatcher.go:92-136 | a transfer that is not listed is left alone in every pipeline and in the table |
| Once.RunsAtMostOnce | shared/bridges/ibcv2/once.go:64-71 | over every interleaving of calls every entry's action, the newest included, starts at most once |
| Once.EntriesAreSpaced | shared/bridges/ibcv2/once.go:30-85 | two entries of a key are at least the smaller timeout apart, the success timeout unless the older failed |
| Once.LookupRenewsIff | shared/bridges/ibcv2/once.go:31-38 | a lookup makes a new entry if and only if there is none, or the newest has a recorded error and its error timeout has come, or has none and its success timeout has come |
| Once.ResultsAreShared | shared/bridges/ibcv2/once.go:30-54 | a call returns the one result of an action given for its key; a reused success was younger than the success timeout at lookup, a reused recorded error younger than the error timeout; the result never changes |
| Once.EveryCallReturns | shared/bridges/ibcv2/once.go:39-54 | every call under way can return after at most three steps of itself and the call that runs its action, with that action's result and an error recorded |
| Once.OnceWithTimeout.Run | shared/bridges/ibcv2/once.go:64-71 | everyone gets the first result |
| Once.OnceWithKey.Do | shared/bridges/ibcv2/once.go:30-54 | an uninterrupted call gives the remembered success before the success timeout and the remembered error before the error timeout, else the action's result; the new entry's timeouts; other keys keep theirs |
| CostTracker.AccountsBalance | relayer/ibcv2/tx_submission_cost_tracker.go:117-230 | over every run a submission leaves PENDING at most once and never changes afterwards; a label's counter equals its rows if and only if no resolution of that label was applied while reporting an error, a chain's gas total equals its rows' gas if and only if such fees come to zero |
| CostTracker.LostUpdateIsNotCounted | relayer/ibcv2/tx_submission_cost_tracker.go:155-163 | a run with one such resolution, which the counters miss |
| CostTracker.TracksExactly | relayer/ibcv2/tx_submission_cost_tracker.go:117-166 | what becomes of a submission for every clock, chain answer and write outcome: only a pending one past its expiry expires, another is resolved as the chain says |
| CostTracker.NothingExpiresEarly | relayer/ibcv2/tx_submission_cost_tracker.go:118-124 | over every run a submission marked EXPIRED was older than the expiry at a clock reading |
| CostTracker.OldestIsDetermined | db/gen/db/ibcv2_relayer_tx_submissions.sql.go:29-46 | two answers of the query for one table have the same length and, place by place, the same age |
| CostTracker.OldestExists | db/gen/db/ibcv2_relayer_tx_submissions.sql.go:29-46 | the query has an answer for every table and limit |
| CostTracker.TrackBalances | relayer/ibcv2/tx_submission_cost_tracker.go:117-166 | looking at one submission keeps table, counters and unreported updates in balance |
| CostTracker.LeavesPending | db/gen/db/ibcv2_relayer_tx_submissions.sql.go:29-46 | an expired pending submission with r pending rows ahead leaves PENDING within r / batchSize + 1 calls whose writes succeed, whatever newer rows arrive |
| CostTracker.TrackIsRun | relayer/ibcv2/tx_submission_cost_tracker.go:79-98 | a call of Track is a run of the tracker's machine |
| CostTracker.SubmittedTxCostTracker.Resolve | relayer/ibcv2/tx_submission_cost_tracker.go:117-166 | expires, resolves and counts, or leaves the row for the next call; other tables are untouched |
| CostTracker.SubmittedTxCostTracker.Track | relayer/ibcv2/tx_submission_cost_tracker.go:79-98 | the loop looks at every returned submission, whatever happens to each |
| EvmClient.TimestampFinalizedIff | shared/bridges/ibcv2/evm_bridge_client.go:605-634 | the test says exactly that some block at or below the final height has reached the time |
| EvmClient.NonReceiptIsPermanent | shared/bridges/ibcv2/evm_bridge_client.go:605-634 | once the final block time reached the timeout it stays so, and the receipt at that final height is the receipt at every later height of every later view |
| EvmClient.OutcomeIsDecided | shared/bridges/ibcv2/evm_bridge_client.go:605-634 | the same over every history with reorganisations above the final height |
| EvmClient.TwoReadsAgree | shared/bridges/ibcv2/evm_bridge_client.go:613-627 | reading the height and then the header from a later view gives the first view's answer |
| EvmClient.TxFinalizedMeans | shared/bridges/ibcv2/evm_bridge_client.go:574-603 | the native and the offset test compare the receipt's block with the final height of the later read; no answer exactly for a transaction in no block |
| EvmClient.TxFinalizedIsRightIff | shared/bridges/ibcv2/evm_bridge_client.go:574-603 | a positive answer is right about the later view if the receipt's block was final at the first read; otherwise, for a transaction in no other block, if and only if the later view still holds it there |
| EvmClient.TxFinalizedCanBeWrong | shared/bridges/ibcv2/evm_bridge_client.go:574-603 | for the native tag and every positive offset, two views one block apart between which the block is replaced and the answer is wrong |
| EvmClient.FinalTxStays | shared/bridges/ibcv2/evm_bridge_client.go:574-603 | a transaction at or below the final height of one view is so in every later view, in the same block |
| EvmClient.RetryIsSafe | shared/bridges/ibcv2/evm_bridge_client.go:492-530 | every decision, exactly, of the view the possibly cached receipt was read in: keep if executed successfully, retry if it failed or is missing past the expiry in chain time, wait if missing before that, undecided if a call failed |
| EvmClient.RetryLater | shared/bridges/ibcv2/evm_bridge_client.go:492-530 | of a later view: a decision on a final receipt still holds; after a retry was ordered the transaction is successful there if and only if a block above the height that was final holds it as successful |
| EvmClient.RetryCanBeLate | shared/bridges/ibcv2/evm_bridge_client.go:492-530 | for every expiry and sending time, two views in which a retry is ordered for a transaction that has just been executed |
| EvmClient.EncodePacked | shared/bridges/ibcv2/evm_bridge_client.go:640-657 | the loop concatenates the values; an unsupported one is the only error |
| EvmClient.PathRoundTrip | shared/bridges/ibcv2/evm_bridge_client.go:113-162 | a path reads back to client id, discriminator and 64-bit sequence |
| EvmClient.Discriminators | shared/bridges/ibcv2/evm_bridge_client.go:113-162 | a commitment path has byte 1 and a receipt path byte 2 between client id and sequence |
| EvmClient.PathsAreDistinct | shared/bridges/ibcv2/evm_bridge_client.go:113-162 | paths are equal exactly if all three are; no receipt path is a commitment path |
| PriceCache.KeyRoundTrip | shared/clients/coingecko/price_client.go:41-43 | a key reads back to its pair if the currency has no leading slash |
| PriceCache.SameKeyIff | shared/clients/coingecko/price_client.go:41-43 | two pairs share a key exactly if moving the currency's leading slashes to the id makes them equal |
| PriceCache.KeyIsInjective | shared/clients/coingecko/price_client.go:41-43 | the key determines the pair for currencies without a leading slash |
| PriceCache.KeysCanCollide | shared/clients/coingecko/price_client.go:41-43 | two pairs with one key |
| PriceCache.CachedPriceClient.Lookup | shared/clients/coingecko/price_client.go:45-50 | a hit was quoted for a pair with the same key and is no older than the refresh interval; a miss says why |
| PriceCache.CachedPriceClient.Store | shared/clients/coingecko/price_client.go:55-62 | a quote goes under its own key and the cache holds only quoted prices |
| PriceCache.CachedPriceClient.GetSimplePrice | shared/clients/coingecko/price_client.go:45-65 | a hit returns the cached price and changes nothing; a miss returns the client's answer and stores exactly that; without leading slashes every price is one the client gave for this same pair, now or within the refresh interval |
| PriceCache.QuoteIsForThePair | shared/clients/coingecko/price_client.go:41-43 | without leading slashes a quote with the same key is a quote for the same pair |

## Left out

- Soundness.TerminalStatusIsTrue: assumes that chain clients and proof service do not report what is not so, and that what was executed is not reorganised away: an ack or timeout on the source chain, for whose finality the pipeline does not wait; the receipt and the block time on the destination chain. A completion on a write ack of a kind that is not relayed is written without any finality test of the recv transaction. FAILED, which only the dispatcher writes, says nothing about the chains.
- PoolTruth.TerminalStatusesAreTrue: rests on the same assumptions.
- OldCopies.TrueAtAnyAge: rests on the same assumptions.
- Interleaving.PoolRefinesRun: the dispatcher's read and push of a row are one step, so copies are fresh when they enter.
- Dispatcher.SubmitWaitingUnfinishedTransfers: the loop as a method is interrupted only by the first stage, while a push waits for room; if that stage never moves the source waits for ever. Every other interleaving is in the deduper's transition system.
- Once.OnceWithKey.Do: as a method the call is not interrupted; the interleaved case is the cache's transition system.
- The internals of `Collect`, `ProcessConcurrently` and `Emitter`: each is represented by its contract (every item forwarded once, bounded batches, closed after its input).
- Shutdown and context cancellation, where transfers are dropped on purpose.
- Relayer addresses, destination addresses and raw transaction bytes in rows and submissions.
- The USD value of gas costs and its floating-point arithmetic; a gas-cost stage writes some value or fails.
- The write-ack finality column of the row, which the code never fills.
- Building, signing and searching transactions on either chain, the Cosmos client, fee multipliers and nonces; they are answers in this model.
- The SQL schema beyond its keys: rows are keyed by source chain, source client and sequence.
- The gRPC server, configuration loading, metrics other than the two cost counters, logging and command line.
