# Partition lifecycle of go-kafka-event-source streams

This project models the part of the `streams` package that decides which
partitions a consumer works on and what happens to each partition's records.

- **The store registry** (`partitionedChangeLog`, `changeLogPartition`): a map from partition id to that partition's state store.
  - A caller-supplied factory builds each store when the partition is first assigned.
  - Each store is finalised exactly once, when the partition is revoked.
- **The partition worker** (`partitionWorker`): one per assigned partition.
  - `add` counts incoming batches as pending and queues them.
  - An intake pump turns the non-nil records into event contexts.
  - A dispatch loop takes one branch at a time: an event, an async completion or an interjection.
  - Events older than the highest processed offset are dropped, so every forwarded offset is at least the watermark.
  - The handler is invoked only when the context's execute gate is open.
  - A context is completed only when the handler reports `Complete` without an error.
  - The async completer is a bounded queue. When it is full, it blocks until the loop drains a job.
- **The group coordinator** (`eventSourceConsumer`): it turns the group's assign and revoke callbacks into store and worker lifecycles.
  - Assign creates the missing stores.
  - Partitions prepared ahead of an incremental rebalance are activated.
  - Exactly the partitions that are neither prepared nor already served get a changelog replay and a worker.
  - Revoke halts and drops the workers of the listed partitions and finalises their stores. Every other partition is left unchanged.
  - It also hands fetched batches to workers, schedules one-off interjections, moves starting offsets to the commit log's watermark, and decides how to leave the group.

Each coordinator, registry and worker operation is modelled as one atomic method. The source does not lock all of them for their whole run:

- The registry's `getStore`, `assign` and `revoke` hold the registry mutex, but `Len` takes no lock.
- `revokePartitions` holds the worker mutex throughout.
- `assignPartitions` assigns the stores before it takes the worker and prepper mutexes (`streams/source_consumer.go:167-176`).
- `receive` and `interject` hold the worker mutex only to look up the worker (`:254-256`, `:287-289`). They call `add` or send the interjection after releasing it.

Go channels are modelled as sequences bounded by their capacities. A blocking send is a precondition that the channel has room.

The calls the worker makes into collaborators are recorded in ghost logs:

- the producer pool (`addEventContext`)
- the application handler
- interjectors
- async finalize functions
- callbacks

What those collaborators answer is passed in as arguments. These answers are:

- the execute gate
- the handler's state and error
- the finalize state
- the commit log's watermark and last processed offset
- whether the group protocol is incremental

The dispatch loop's nondeterministic `select` is a `schedule` of branches supplied by the caller.

Modules:

- `Types`: shared value types and Go's 32-bit partition ids.
- `PartitionedStore`: the registry and its stores.
- `WorkerSpec`: the pure counter semantics of event handling, with the lemmas about them, and the forwarding decisions.
- `Workers`: the `PartitionWorker` class.
- `SourceConsumer`: the `EventSourceConsumer` class and the pure functions its loops are proved against.

## Model

| member | source | states |
|---|---|---|
| Types.GoQuotient | streams/partition_worker.go:71 | Go's `/` truncates toward zero: the quotient brackets the dividend from below for non-negative and from above for negative dividends |
| PartitionedStore.ChangeLogPartition.constructor | streams/partitioned_store.go:83-86 | a new store wrapper holds the factory's store and the changelog topic and has not been finalised |
| PartitionedStore.ChangeLogPartition.ToChangeLogData | streams/partitioned_store.go:25-30 | the untyped copy carries exactly the wrapper's store and topic |
| PartitionedStore.ChangeLogPartition.RevokedInternal | streams/partitioned_store.go:41-44 | finalising runs the store's `Revoked` hook once more and changes nothing else |
| PartitionedStore.PartitionedChangeLog.constructor | streams/partitioned_store.go:54-59 | a new registry is empty, has made no factory call and keeps the factory and changelog topic it was given |
| PartitionedStore.PartitionedChangeLog.Len | streams/partitioned_store.go:61-63 | the length is the number of partitions with a store, and zero exactly when the registry is empty |
| PartitionedStore.PartitionedChangeLog.GetStore | streams/partitioned_store.go:69-74 | ok exactly when the partition has a store; the store when ok, nil otherwise |
| PartitionedStore.PartitionedChangeLog.Assign | streams/partitioned_store.go:76-90 | an existing store is returned with no factory call and nothing changed; otherwise exactly one factory call for that partition of the changelog topic builds a fresh store, which is added and returned; every store stays built for its own partition; the length grows by one exactly when the partition was new |
| PartitionedStore.PartitionedChangeLog.Revoke | streams/partitioned_store.go:92-100 | the partition's entry is removed, its store is finalised exactly once, and a missing partition changes nothing |
| WorkerSpec.AfterEvent | streams/partition_worker.go:235-251 | one handled event raises the highest offset to the maximum, counts as processed exactly when its offset is not below the highest offset, and moves it from pending to processed without changing their sum |
| WorkerSpec.AfterEvents | streams/partition_worker.go:157-163 | handling events never lowers the highest offset or the processed count and preserves pending plus processed |
| WorkerSpec.MaxFromAtLeast | streams/partition_worker.go:249 | the running maximum of offsets from a starting watermark is at least that watermark |
| WorkerSpec.Forwarded | streams/partition_worker.go:236-248 | the offsets a live worker hands on, starting from a highest offset, are never more than the offsets that arrived; the lemmas below say which ones and in what order |
| WorkerSpec.AfterEventsSnoc | streams/partition_worker.go:157-163 | handling a sequence followed by one event equals handling the sequence and then that event |
| WorkerSpec.AfterEventsHighest | streams/partition_worker.go:236-249 | after a run of events the highest offset is the maximum of the start watermark and every offset seen |
| WorkerSpec.AfterEventsCountsForwarded | streams/partition_worker.go:236-250 | processed grows and pending shrinks by exactly the number of events that pass the drop test |
| WorkerSpec.InOrderTail | streams/partition_worker.go:236 | the tail of an in-order offset run is in order and no element of it is below the head |
| WorkerSpec.ForwardedAtLeast | streams/partition_worker.go:236-245 | no forwarded offset is below the starting watermark |
| WorkerSpec.ForwardedArrived | streams/partition_worker.go:236-248 | every forwarded offset is one of the offsets that arrived |
| WorkerSpec.ForwardedNondecreasing | streams/partition_worker.go:236-249 | the forwarded offsets never go backwards, whatever order the offsets arrived in |
| WorkerSpec.ForwardedOrdered | streams/partition_worker.go:236-249 | the three facts above together: forwarded offsets arrived, are in order and are at least the watermark |
| WorkerSpec.DuplicateDropped | streams/partition_worker.go:236-245 | an event strictly below the highest offset changes no counter and is not forwarded |
| WorkerSpec.ForwardedInOrder | streams/partition_worker.go:236-248 | when offsets arrive in order from the watermark on, every one of them is forwarded |
| WorkerSpec.HighestInOrder | streams/partition_worker.go:249 | when offsets arrive in order from the watermark on, the highest offset ends at the last one |
| WorkerSpec.InOrderNothingDropped | streams/partition_worker.go:236-250 | in-order arrival at or above the watermark drops nothing: all are forwarded, all count as processed and the highest offset ends at the last |
| WorkerSpec.ResumeScenario | streams/partition_worker.go:236-250 | resuming at last-processed offset 5 drops the redelivered 4 and forwards 5, 6 and 7 |
| WorkerSpec.BoundaryScenario | streams/partition_worker.go:236 | an event at exactly the highest offset is forwarded, one below it is dropped |
| WorkerSpec.ForwardDecision | streams/partition_worker.go:254-267 | the handler runs exactly when the execute gate is open, and the context completes exactly when it ran and returned `Complete` without an error |
| WorkerSpec.InterjectionDecision | streams/partition_worker.go:220-229 | the interjector runs exactly when the worker is not revoked and the gate is open, and the context completes exactly when it also returned `Complete` |
| WorkerSpec.AsyncJobCompletes | streams/partition_worker.go:167-169 | an async job completes its context exactly when finalize reports `Complete`, even if it also returned an error |
| WorkerSpec.InputCapacity | streams/partition_worker.go:71 | the event channel holds the larger of 100 and a tenth of the maximum batch size, rounded toward zero |
| WorkerSpec.AsyncCapacity | streams/partition_worker.go:72 | the async channel holds four times the event channel, so at least 400 |
| SourceConsumer.ExactOffset | streams/source_consumer.go:112 | an offset at exactly the given position, with no relative shift and no epoch |
| SourceConsumer.AdjustedOffset | streams/source_consumer.go:109-113 | a positive watermark replaces the proposal by an exact offset at the watermark; otherwise the proposal is kept |
| Workers.NonNil | streams/partition_worker.go:122-123 | keeping the non-nil records never lengthens the batch, and a record is kept exactly when it occurs in the batch |
| Workers.ContextsOf | streams/partition_worker.go:122-127 | at most one context per record, each carrying a record, for the worker's partition and store; `ContextsOfRecords` says which record |
| Workers.ContextsOfAppend | streams/partition_worker.go:122-127 | building contexts distributes over concatenated batches |
| Workers.ContextsOfRecords | streams/partition_worker.go:122-127 | the contexts carry exactly the non-nil records, in order |
| Workers.OffsetsOfStep | streams/partition_worker.go:159-162 | the offsets of one more dispatched context extend the offsets by that context's offset |
| Workers.OffsetsOfAppend | streams/partition_worker.go:159-162 | the offsets of concatenated context sequences are the concatenated offsets |
| Workers.ForwardedContexts | streams/partition_worker.go:231-248 | the contexts a live worker forwards are at most those taken, and each carries a record |
| Workers.ForwardedContextsOffsets | streams/partition_worker.go:231-248 | the forwarded contexts carry exactly the offsets `Forwarded` keeps, so the `Forwarded` lemmas hold of what a worker forwards |
| Workers.ForwardedContextsStep | streams/partition_worker.go:236-248 | one more context taken is forwarded exactly when its offset is not below the highest offset seen before it |
| Workers.CallbacksOfSnoc | streams/source_consumer.go:299-305 | one more interjector run adds its callback, if it has one, to the callbacks fired |
| Workers.SubsequenceSnoc | streams/partition_worker.go:174-175 | taking one more interjection keeps the runs an order-preserving subsequence of the interjections taken, whether the new one ran or not |
| Workers.SubsequenceBounds | streams/partition_worker.go:174-175 | a subsequence is no longer than the sequence it is taken from, and each of its elements occurs there |
| Workers.RunsOfSnoc | streams/partition_worker.go:174-175 | taking one more interjection keeps the runs a subsequence of the interjections taken (so each ran at most once, in channel order), and the callbacks fired exactly those of the runs, whether it ran or not |
| PartitionedStore.StoresCreatedExactly | streams/partitioned_store.go:76-90 | assigning a list calls the factory for exactly the listed partitions that had no store, each once, with the changelog topic |
| PartitionedStore.AssignedThroughStep | streams/source_consumer.go:167-172 | one more `Assign` of the next listed partition, as its contract says, extends the assigned prefix: stores and factory calls as `StoresCreated` says |
| Workers.SelectedStep | streams/partition_worker.go:157-176 | one more branch adds one to the count of branches reading its channel and none to the others |
| Workers.ReachedStep | streams/partition_worker.go:157-176 | the progress after one more branch is the progress before it advanced on that branch's channel, capped at what the channel held |
| Workers.PartitionWorker.constructor | streams/partition_worker.go:61-95 | a new worker has the channel capacities derived from the maximum batch size, empty channels, zero counters, highest offset -1, is neither revoked nor active, and has made no call |
| Workers.PartitionWorker.Add | streams/partition_worker.go:97-103 | a revoked worker ignores the batch; otherwise pending grows by the batch length, nil records included, and the batch is queued |
| Workers.PartitionWorker.PushInterjection | streams/source_consumer.go:296-306 | the interjection is appended to the worker's single-slot interjection channel |
| Workers.PartitionWorker.Revoke | streams/partition_worker.go:105-107 | the worker is marked revoked and nothing else changes |
| Workers.PartitionWorker.PumpPush | streams/partition_worker.go:121-128 | the pump pushes a prefix of its batch: exactly that prefix's non-nil records become contexts, registered with the producer and queued in order, and it stops early only when the event channel is full |
| Workers.PartitionWorker.PumpReceive | streams/partition_worker.go:117-129 | the pump takes the next batch; a revoked worker discards it, otherwise pushing starts as in `PumpPush` |
| Workers.PartitionWorker.ForwardToEventSource | streams/partition_worker.go:254-267 | the handler log and the completed log grow by the context exactly as `ForwardDecision` says |
| Workers.PartitionWorker.Step | streams/partition_worker.go:157-176 | a `select` branch keeps every context in the event channel carrying a record |
| Workers.PartitionWorker.Run | streams/partition_worker.go:157-186 | so does any schedule of branches |
| Workers.PartitionWorker.EventsStep | streams/partition_worker.go:159-162 | one branch keeps `EventsTaken`: the event channel lost its oldest contexts, and on a live worker the counters are `AfterEvents` and the forwarded log `ForwardedContexts` of those contexts |
| Workers.PartitionWorker.JobsStep | streams/partition_worker.go:164-173 | one branch keeps `JobsFinished`: the oldest async jobs were finalised in order and the drained signal was posted once any was |
| Workers.PartitionWorker.InterjectionsStep | streams/partition_worker.go:174-175 | one branch keeps `InterjectionsTaken`: a live worker registered one record-less context per interjection taken |
| Workers.PartitionWorker.InterjectorsStep | streams/partition_worker.go:174-175 | one branch keeps `InterjectorsRan`: the interjector runs are a subsequence of the interjections taken, so each ran at most once and in channel order, none on a revoked worker, and the callbacks fired are exactly those of the runs |
| Workers.PartitionWorker.InterjectorRanStep | streams/partition_worker.go:220-229 | handling one more interjection extends the runs and callbacks as `RunsOfSnoc` says |
| Workers.PartitionWorker.EventCompletions | streams/partition_worker.go:231-267 | handling one event keeps every handler call among the forwarded contexts and every completion among the matchable contexts |
| Workers.PartitionWorker.ForwardedAccounted | streams/partition_worker.go:247-248 | a forwarded context that reaches the handler or completes is matched by the forwarded log |
| Workers.PartitionWorker.JobCompletions | streams/partition_worker.go:164-169 | finalising one async job keeps every completion matched: its context is among the finalised jobs' contexts |
| Workers.PartitionWorker.InterjectionCompletions | streams/partition_worker.go:220-229 | handling one interjection keeps every completion matched: its context is the one just registered |
| Workers.PartitionWorker.CompletionsStep | streams/partition_worker.go:157-176 | one branch of any kind keeps `CompletionsAccounted` |
| Workers.PartitionWorker.RunEvents | streams/partition_worker.go:157-163 | after any schedule the event channel gave up its oldest contexts, as many as event branches read it, and the counters and forwarded log follow them |
| Workers.PartitionWorker.RunJobs | streams/partition_worker.go:164-173 | after any schedule the oldest async jobs, as many as job branches read, were finalised in order |
| Workers.PartitionWorker.RunInterjections | streams/partition_worker.go:174-176 | after any schedule the oldest interjections were taken, a live worker registered a context for each, the interjector runs are a subsequence of them (each at most once, in channel order) and the callbacks fired are those of the runs |
| Workers.PartitionWorker.RunCompletions | streams/partition_worker.go:157-176 | after any schedule every handler call is of a forwarded context and every completion is of a handled context, a finalised job or a registered interjection |
| Workers.PartitionWorker.RunProgressed | streams/partition_worker.go:157-186 | the facts above together, for every schedule, including that interjector runs are a subsequence of the interjections taken |
| Workers.PartitionWorker.WorkOutcome | streams/partition_worker.go:157-186 | every run of the loop progresses as `RunProgressed` says, never lowers the highest offset, and on a live worker forwards exactly the offsets `Forwarded` keeps of the contexts taken |
| Workers.PartitionWorker.HandleEvent | streams/partition_worker.go:231-252 | false exactly when revoked, with nothing changed; an event below the highest offset is dropped without touching any counter or log; otherwise it is logged as forwarded, reaches the handler and completes as `ForwardDecision` says, and the counters move as `AfterEvent` says; the highest offset never goes down |
| Workers.PartitionWorker.HandleInterjection | streams/partition_worker.go:220-229 | only an active worker handles interjections; a revoked one does nothing; otherwise a record-less context is registered with the producer pool, and the interjector runs and completes it as `InterjectionDecision` says, and the interjection's callback, if any, fires exactly when the interjector runs |
| Workers.PartitionWorker.FinishAsyncJob | streams/partition_worker.go:164-173 | on an active worker, the oldest async job is dequeued and logged as finalised, its context completed exactly when `AsyncJobCompletes`, and the queue-drained signal is set; nothing else changes |
| Workers.PartitionWorker.AwaitRoom | streams/partition_worker.go:206-212 | the wait ends with room in the queue; with room already nothing changes; on a full queue exactly the oldest job is finalised, its context completed exactly when `AsyncJobCompletes`, and its drained signal consumed |
| Workers.PartitionWorker.AsyncComplete | streams/partition_worker.go:204-214 | the job is enqueued at the tail; with room nothing else changes; on a full queue exactly the oldest job is finalised first, completed as `AsyncJobCompletes` says, and the drained signal consumed; the old queue plus the job is what was finalised followed by the new queue |
| Workers.PartitionWorker.DispatchEvent | streams/partition_worker.go:159-162 | the oldest context leaves the event channel and is handled as `HandleEventOn` says: counters, forwarded log, handler calls and completions all move as for `HandleEvent` |
| Workers.PartitionWorker.DispatchInterjection | streams/partition_worker.go:174-176 | on an active worker, the oldest interjection leaves the channel and is handled as `HandleInterjectionOn` says: registration, interjector run, callback and completion as for `HandleInterjection` |
| Workers.PartitionWorker.WorkStep | streams/partition_worker.go:157-176 | one `select` branch changes the loop's state exactly as `Step` says; a branch on an empty channel changes nothing |
| Workers.PartitionWorker.Work | streams/partition_worker.go:143-187 | the worker becomes active once, with the highest offset set to the last processed offset; after the schedule its state is `Run` of the schedule, so `RunProgressed` holds: the oldest contexts, jobs and interjections were taken, the counters are `AfterEvents` over the offsets taken, async jobs were finalised in order, completions are all matched; on a live worker the forwarded contexts carry exactly the offsets `Forwarded` keeps from the last processed offset; the highest offset ends at least at the last processed one |
| SourceConsumer.AdjustOffsetsBeforeAssign | streams/source_consumer.go:101-117 | the same topics and partitions come back; each partition starts exactly at its watermark when that is positive and keeps its proposal otherwise; no error |
| SourceConsumer.Unassigned | streams/source_consumer.go:189-193 | a partition is selected exactly when it is listed and has no worker |
| SourceConsumer.SelectUnassigned | streams/source_consumer.go:189-193 | the loop builds exactly `Unassigned` of its inputs |
| SourceConsumer.ActivationOf | streams/source_consumer.go:177-187 | every listed partition is either activated or left unprepped |
| SourceConsumer.ActivationOfSplits | streams/source_consumer.go:177-187 | exactly the listed partitions that were being prepared are activated, each once; every unprepared listed partition is left unprepped |
| SourceConsumer.ReplayBatchExact | streams/source_consumer.go:177-202 | the replay batch holds exactly the listed partitions that were neither being prepared nor served by a worker |
| SourceConsumer.RemovedStep | streams/source_consumer.go:225-231 | deleting the next listed partition from a map extends the removed prefix by one |
| SourceConsumer.RemovedAll | streams/source_consumer.go:225-231 | once every listed partition is deleted, exactly the unlisted entries remain, unchanged |
| SourceConsumer.LeaveDecision | streams/source_consumer.go:354-368 | the consumer leaves gracefully exactly when it has an incremental balancer and the group's protocol is incremental; without a balancer it stops at once |
| SourceConsumer.EventSourceConsumer.constructor | streams/source_consumer.go:50-61 | a new consumer has a fresh, empty registry over the given factory and changelog topic, and no workers or preppers |
| SourceConsumer.EventSourceConsumer.PrepareTopicPartition | streams/source_consumer.go:125-145 | a partition already being prepared changes nothing; otherwise it gets a store, keeping any existing one, and a prepper; the factory runs exactly once, building a fresh store, when the partition had no store, and not at all otherwise |
| SourceConsumer.EventSourceConsumer.ForgetPreparedTopicPartition | streams/source_consumer.go:149-160 | the prepper is cancelled and removed when there is one; otherwise nothing changes |
| SourceConsumer.EventSourceConsumer.AssignStores | streams/source_consumer.go:167-172 | every listed partition has a store afterwards; existing stores are kept and the new ones are fresh; the factory calls made are `StoresCreated`, one per listed partition that had no store |
| SourceConsumer.EventSourceConsumer.StartWorker | streams/source_consumer.go:182-183 | the partition gets a fresh worker in its initial state, bound to the registry's store for it, with channels sized from the maximum batch size |
| SourceConsumer.EventSourceConsumer.ActivatePrepper | streams/source_consumer.go:179-183 | the prepper is deleted and activated, and the partition gets a fresh worker waiting on it |
| SourceConsumer.EventSourceConsumer.ActivateStep | streams/source_consumer.go:177-187 | one pass of the activation loop keeps the state equal to `ActivationOf` on the prefix handled so far |
| SourceConsumer.EventSourceConsumer.ActivateStepPrepped | streams/source_consumer.go:179-183 | the prepared branch of that pass, with the same invariant |
| SourceConsumer.EventSourceConsumer.ActivatePrepped | streams/source_consumer.go:177-187 | the activated and unprepped partitions are exactly `ActivationOf` the listed partitions and the preppers; the activated ones lose their prepper and get fresh workers waiting on it |
| SourceConsumer.EventSourceConsumer.StartReplayStep | streams/source_consumer.go:195-202 | one pass of the replay loop gives the next partition a worker waiting on the replay, unless it already has one |
| SourceConsumer.EventSourceConsumer.StartReplayWorkers | streams/source_consumer.go:194-203 | one replay is started for the batch; every batch partition has a worker afterwards, existing workers are kept, and the new ones are fresh and wait on the replay |
| SourceConsumer.EventSourceConsumer.ReplayUnprepped | streams/source_consumer.go:189-203 | the replay batch and the new workers are exactly the listed partitions that were neither being prepared nor served |
| SourceConsumer.EventSourceConsumer.AssignWorkers | streams/source_consumer.go:173-203 | the worker and prepper part of an assignment, with the same promises as `AssignPartitions` |
| SourceConsumer.EventSourceConsumer.AssignPartitions | streams/source_consumer.go:162-205 | every listed partition has a store and a worker; preppers of listed partitions are activated in list order and replaced by fresh workers; exactly the listed partitions neither prepared nor served get a fresh worker and form the one new replay batch; unlisted workers and all existing stores are untouched; new stores are fresh and the factory calls are `StoresCreated` of the list |
| SourceConsumer.EventSourceConsumer.DropWorker | streams/source_consumer.go:226-229 | the partition's worker is revoked and removed from the map; its counters, channels and logs are as before |
| SourceConsumer.EventSourceConsumer.DropStore | streams/source_consumer.go:230 | the partition's store is removed and finalised once; the factory is not called |
| SourceConsumer.EventSourceConsumer.HaltStep | streams/source_consumer.go:226-229 | one pass halts and drops the next listed partition's worker, if any, changing only its run status, and extends the removed prefix |
| SourceConsumer.EventSourceConsumer.FinaliseStep | streams/source_consumer.go:230 | one pass finalises and drops the next listed partition's store, if any, and extends the removed prefix |
| SourceConsumer.EventSourceConsumer.RevokeStep | streams/source_consumer.go:225-231 | one loop pass: worker first, then store, touching no other worker or store |
| SourceConsumer.EventSourceConsumer.RevokeAll | streams/source_consumer.go:225-231 | the whole loop: every listed partition has lost its worker and store, dropped workers are revoked and dropped stores finalised once, changing only the listed workers' run status and the listed stores |
| SourceConsumer.EventSourceConsumer.RevokePartitions | streams/source_consumer.go:219-232 | exactly the listed partitions lose their worker and store; each dropped worker is revoked, and the frame lets nothing but its run status change; each dropped store is finalised exactly once; unlisted workers and stores stay mapped and are not modified; the factory is not called |
| SourceConsumer.EventSourceConsumer.Receive | streams/source_consumer.go:252-261 | an unassigned partition or an empty batch changes nothing; otherwise the batch goes to the partition's worker as `Add` says, and the worker's other counters, channels and logs are as before |
| SourceConsumer.EventSourceConsumer.Interject | streams/source_consumer.go:286-307 | with no worker a non-nil callback fires at once and nothing is queued; otherwise a one-off interjection for the worker's partition, carrying the command and callback, is queued on its channel, and the worker's counters, other channels and logs are as before |

## Left out

- Client construction, `start` and its fetch loop, and `stop`: these are Kafka client I/O. `Receive` models what the fetch loop does with each fetched partition.
- `currentProtocolIsIncremental`: this is a call to the Kafka admin API. Its answer is the boolean input of `LeaveDecision`. The goroutine that waits for the graceful leave, and the channel that `leave` returns, are also left out.
- `partitionsAssigned` and `partitionsRevoked`: these only iterate over topics and call `assignPartitions` or `revokePartitions`.
- The notifications to the incremental balancer (`PartitionsAssigned`, `PartitionPrepared`).
- `forEachChangeLogPartitionSync` and `forEachChangeLogPartitionAsync`: these are `interject` over every worker, joined with WaitGroups.
- Goroutines are not modelled. Leaving them out covers:
  - the prepper's `prepare`/`waitUntilPrepared` goroutine;
  - `populateChangeLogs`;
  - `waitForRevocation`;
  - the stop handshake between the pump and the dispatch loop (`stopSignal`, `stopped`, `revokedSignal` and the channel closes).

  A worker's start-up wait is recorded as its `Waiter` value.
- `receiveChangeInternal` (`streams/partitioned_store.go:35-39`): it only passes a changelog record to the store's own `ReceiveChange` while the partition is being prepared. The store is the application's code. The changelog consumer and the prepper internals that call it are not part of this model.
- The `revokePartitions` guard for a nil registry. The registry is a non-null constant created with the consumer, so that branch cannot occur in the model.
- Timers and the interjection `tick`/`cancel`, `sincer`, logging, and the floating-point throughput figures.
- The producer pool, the commit log and the event handler. They are collaborators: what they answer is passed in, and what the worker does to them is logged in ghost state.
- The mutexes and atomic counters. Each operation is modelled as one atomic step, so interleavings inside an operation are not captured. Examples: a worker revoked between `receive`'s lookup and its `add`; an `interject` send that waits while the worker is revoked; stores assigned before `assignPartitions` takes its locks; `Len` read during an update.
- Blocking channel sends are modelled as preconditions that the channel has room.
- The int64 counters are unbounded integers, so overflow is not modelled.
- Workers.PartitionWorker.PumpPush: a context is registered with the producer pool together with its send to the event channel. The source registers it first (`streams/partition_worker.go:125`) and then blocks on a full channel (`:126`). So while the pump waits, the source has registered one more context than it has queued. The model does not show that state.
- Workers.PartitionWorker.RunCompletions: completions are matched to handled contexts, finalised jobs and registered interjections by membership only. Contexts are values, so two completions of equal contexts are not told apart.
- `Workers.PartitionWorker.Work`: the setup between reading the last processed offset and the loop is not modelled. That setup is `waiter()`, the interjection `init`/`tick`, and `onPartitionActivated`.
- SourceConsumer.EventSourceConsumer.AssignPartitions: the final `incrBalancer.PartitionsAssigned` call is not modelled, so neither is its nil dereference when no incremental balancer is configured (see "## Notes on the source").
- `SourceConsumer.EventSourceConsumer.StartWorker`: the worker's initial state is stated only for the worker just created.

## Notes on the source

- `handleEvent` drops an event only when its offset is strictly below the highest offset (`partition_worker.go:236`). An event at exactly the last processed offset is forwarded again. `BoundaryScenario` states this.
- `adjustOffsetsBeforeAssign` logs `offset+1` as the starting offset (`source_consumer.go:110`), but it starts consumption at the watermark itself, `At(offset)` (`:112`). The model follows the code.
- `add` adds the whole batch length to `pending`, nil records included. The pump forwards only the non-nil records. So nil records stay pending for good.
- A one-off interjection fires its callback only when its interjector runs. If the worker has been revoked by then, or the execute gate is closed, the callback never fires.
- When a prepared partition already has a worker, `assignPartitions` replaces that worker without revoking it.
- `assignPartitions` ends by calling `sc.incrBalancer.PartitionsAssigned` (`source_consumer.go:204`) with no nil check. `incrBalancer` is set only when one of the configured balancers is incremental (`:69-74`), and `leave` does check it for nil (`:357`). With no incremental balancer configured, every assignment would panic after its bookkeeping. The same holds for `PartitionPrepared` in the prepper goroutine (`:142`). The construction of the balancers is not part of this model, so this is unconfirmed.
- The error that an async job's finalize returns is ignored. The context completes whenever the state is `Complete`.
