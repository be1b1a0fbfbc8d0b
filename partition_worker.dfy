/** The per-partition worker (`partitionWorker`): record intake, the intake
    pump, the dispatch loop's branches, event and interjection handling and the
    bounded async completer. Channels are sequences bounded by their
    capacities; the calls the worker makes into the producer pool, the
    application handler, interjectors and async jobs are recorded in ghost
    logs, and what those collaborators answer is passed in as arguments. */
module Workers {
  import opened Types
  import opened WorkerSpec
  import opened PartitionedStore

  /** A unit of work for the dispatch loop: one record, or none for an
      interjection, with the partition's store. */
  datatype EventContext<S> = EventContext(topicPartition: TopicPartition, input: Option<Record>, changeLog: ChangeLogData<S>)
  {
    function Offset(): int
      requires input.Some?
    {
      input.value.offset
    }
  }

  /** A callback the application passes to `interject`. */
  datatype CallbackId = CallbackId(id: nat)

  /** A timer-driven or one-off interjection; a one-off one built by `interject`
      runs `command` and then `callback`. */
  datatype Interjection = Interjection(isOneOff: bool, topicPartition: TopicPartition, command: nat, callback: Option<CallbackId>)

  /** A job handed to the async completer: the context to complete, and an id
      standing for its finalize function. */
  datatype AsyncJob<S> = AsyncJob(ctx: EventContext<S>, id: nat)

  /** What a worker's start-up waits for: its prepper's activation, or the
      changelog replay of the whole assignment batch it was created in. */
  datatype Waiter = PrepperActive(partition: int32) | ChangeLogReplay(batch: seq<int32>, partition: int32)

  /** The branch the dispatch loop's `select` takes, with what the external
      collaborators answer on that branch. */
  datatype Branch =
    | EventBranch(gate: bool, result: HandlerResult)
    | AsyncJobBranch(outcome: Finalization)
    | InterjectionBranch(gate: bool, state: ExecutionState)
  {
    function Kind(): BranchKind {
      match this
      case EventBranch(_, _) => EventKind
      case AsyncJobBranch(_) => JobKind
      case InterjectionBranch(_, _) => InterjectionKind
    }
  }

  /** The channel a `select` branch reads. */
  datatype BranchKind = EventKind | JobKind | InterjectionKind

  /** The non-nil records of a batch, in order. */
  function NonNil(records: seq<Option<Record>>): (rs: seq<Record>)
    ensures |rs| <= |records|
    ensures forall r :: r in rs <==> Some(r) in records
    decreases |records|
  {
    if records == [] then []
    else if records[0].None? then NonNil(records[1..])
    else [records[0].value] + NonNil(records[1..])
  }

  /** The contexts the pump builds from a batch: one per non-nil record, in
      order, each carrying the partition and its store. */
  function ContextsOf<S>(records: seq<Option<Record>>, tp: TopicPartition, cld: ChangeLogData<S>): (ecs: seq<EventContext<S>>)
    ensures |ecs| <= |records|
    ensures forall i :: 0 <= i < |ecs| ==>
              ecs[i].input.Some? && ecs[i].topicPartition == tp && ecs[i].changeLog == cld
    decreases |records|
  {
    if records == [] then []
    else if records[0].None? then ContextsOf(records[1..], tp, cld)
    else [EventContext(tp, records[0], cld)] + ContextsOf(records[1..], tp, cld)
  }

  /** Building contexts batch by batch is the same as building them at once:
      what the record-by-record pump relies on. */
  lemma {:induction false} ContextsOfAppend<S>(a: seq<Option<Record>>, b: seq<Option<Record>>, tp: TopicPartition, cld: ChangeLogData<S>)
    ensures ContextsOf(a + b, tp, cld) == ContextsOf(a, tp, cld) + ContextsOf(b, tp, cld)
    decreases |a|
  {
    if a == [] {
      assert a + b == b;
    } else {
      assert (a + b)[1..] == a[1..] + b;
      ContextsOfAppend(a[1..], b, tp, cld);
    }
  }

  /** Exactly one context per non-nil record, in order: nil records are
      skipped and no record is duplicated or reordered. */
  lemma {:induction false} ContextsOfRecords<S>(records: seq<Option<Record>>, tp: TopicPartition, cld: ChangeLogData<S>)
    ensures |ContextsOf(records, tp, cld)| == |NonNil(records)|
    ensures forall i :: 0 <= i < |NonNil(records)| ==>
              ContextsOf(records, tp, cld)[i] == EventContext(tp, Some(NonNil(records)[i]), cld)
    decreases |records|
  {
    if records != [] {
      ContextsOfRecords(records[1..], tp, cld);
    }
  }

  /** The offsets of record contexts, in order. */
  function OffsetsOf<S>(ecs: seq<EventContext<S>>): seq<int>
    requires forall i :: 0 <= i < |ecs| ==> ecs[i].input.Some?
  {
    seq(|ecs|, i requires 0 <= i < |ecs| => ecs[i].input.value.offset)
  }

  lemma OffsetsOfStep<S>(ecs: seq<EventContext<S>>, k: nat)
    requires k < |ecs|
    requires forall i :: 0 <= i < |ecs| ==> ecs[i].input.Some?
    ensures OffsetsOf(ecs[..k + 1]) == OffsetsOf(ecs[..k]) + [ecs[k].Offset()]
  {
  }

  /** Appending contexts appends their offsets. */
  lemma OffsetsOfAppend<S>(a: seq<EventContext<S>>, b: seq<EventContext<S>>)
    requires forall i :: 0 <= i < |a| ==> a[i].input.Some?
    requires forall i :: 0 <= i < |b| ==> b[i].input.Some?
    ensures OffsetsOf(a + b) == OffsetsOf(a) + OffsetsOf(b)
  {
  }

  /** The contexts, in order, that a live worker whose highest offset starts
      at `h` hands to `forwardToEventSource`: each one not below the highest
      offset seen before it. */
  function ForwardedContexts<S>(h: int, ecs: seq<EventContext<S>>): (r: seq<EventContext<S>>)
    requires forall i :: 0 <= i < |ecs| ==> ecs[i].input.Some?
    ensures |r| <= |ecs|
    ensures forall i :: 0 <= i < |r| ==> r[i].input.Some?
    decreases |ecs|
  {
    if ecs == [] then []
    else
      var init := ecs[..|ecs| - 1];
      var last := ecs[|ecs| - 1];
      ForwardedContexts(h, init) + (if last.Offset() < MaxFrom(h, OffsetsOf(init)) then [] else [last])
  }

  /** The forwarded contexts carry exactly the offsets `Forwarded` keeps, so
      the lemmas about `Forwarded` hold of what a worker forwards. */
  lemma {:induction false} ForwardedContextsOffsets<S>(h: int, ecs: seq<EventContext<S>>)
    requires forall i :: 0 <= i < |ecs| ==> ecs[i].input.Some?
    ensures OffsetsOf(ForwardedContexts(h, ecs)) == Forwarded(h, OffsetsOf(ecs))
    decreases |ecs|
  {
    if ecs != [] {
      var init := ecs[..|ecs| - 1];
      var last := ecs[|ecs| - 1];
      ForwardedContextsOffsets(h, init);
      assert ecs == init + [last];
      OffsetsOfAppend(init, [last]);
      assert OffsetsOf(ecs) == OffsetsOf(init) + [last.Offset()];
      ForwardedSnoc(h, OffsetsOf(init), last.Offset());
      var kept := if last.Offset() < MaxFrom(h, OffsetsOf(init)) then [] else [last];
      assert OffsetsOf(kept) == (if last.Offset() < MaxFrom(h, OffsetsOf(init)) then [] else [last.Offset()]);
      OffsetsOfAppend(ForwardedContexts(h, init), kept);
    }
  }

  lemma ForwardedContextsStep<S>(h: int, ecs: seq<EventContext<S>>, k: nat)
    requires k < |ecs| && forall i :: 0 <= i < |ecs| ==> ecs[i].input.Some?
    ensures ForwardedContexts(h, ecs[..k + 1]) ==
              ForwardedContexts(h, ecs[..k]) + (if ecs[k].Offset() < MaxFrom(h, OffsetsOf(ecs[..k])) then [] else [ecs[k]])
  {
    assert ecs[..k + 1][..k] == ecs[..k];
  }

  /** The contexts of async jobs, in order. */
  function JobContexts<S>(jobs: seq<AsyncJob<S>>): seq<EventContext<S>> {
    seq(|jobs|, i requires 0 <= i < |jobs| => jobs[i].ctx)
  }

  /** The callbacks interjections carry, in order. */
  function CallbacksOf(ijs: seq<Interjection>): seq<CallbackId>
    decreases |ijs|
  {
    if ijs == [] then []
    else
      var last := ijs[|ijs| - 1];
      CallbacksOf(ijs[..|ijs| - 1]) + (if last.callback.Some? then [last.callback.value] else [])
  }

  lemma CallbacksOfSnoc(ijs: seq<Interjection>, ij: Interjection)
    ensures CallbacksOf(ijs + [ij]) == CallbacksOf(ijs) + (if ij.callback.Some? then [ij.callback.value] else [])
  {
    assert (ijs + [ij])[..|ijs|] == ijs;
  }

  /** `k` copies of `x`. */
  function Repeat<T>(x: T, k: nat): (r: seq<T>)
    ensures |r| == k && forall i :: 0 <= i < k ==> r[i] == x
  {
    seq(k, _ => x)
  }

  lemma RepeatSnoc<T>(x: T, k: nat)
    ensures Repeat(x, k) + [x] == Repeat(x, k + 1)
  {
  }

  /** Every element of `xs` occurs in `pool`. */
  ghost predicate AllIn<T>(xs: seq<T>, pool: seq<T>) {
    forall j :: 0 <= j < |xs| ==> xs[j] in pool
  }

  /** `xs` is `ys` with some elements left out: each element of `ys`
      appears in `xs` at most once, and in the same order. */
  ghost predicate IsSubsequence<T>(xs: seq<T>, ys: seq<T>)
    decreases |ys|
  {
    if xs == [] then true
    else if ys == [] then false
    else
      || IsSubsequence(xs, ys[..|ys| - 1])
      || (xs[|xs| - 1] == ys[|ys| - 1] && IsSubsequence(xs[..|xs| - 1], ys[..|ys| - 1]))
  }

  /** One more element of `ys` may be kept or left out. */
  lemma SubsequenceSnoc<T>(xs: seq<T>, ys: seq<T>, y: T, taken: bool)
    requires IsSubsequence(xs, ys)
    ensures IsSubsequence(xs + (if taken then [y] else []), ys + [y])
  {
    assert (ys + [y])[..|ys|] == ys;
    if taken {
      assert (xs + [y])[..|xs|] == xs;
    } else {
      assert xs + [] == xs;
    }
  }

  /** A subsequence is no longer than the sequence and takes its elements
      from it. */
  lemma {:induction false} SubsequenceBounds<T>(xs: seq<T>, ys: seq<T>)
    requires IsSubsequence(xs, ys)
    ensures |xs| <= |ys| && AllIn(xs, ys)
    decreases |ys|
  {
    if xs != [] {
      var init := ys[..|ys| - 1];
      assert ys == init + [ys[|ys| - 1]];
      if IsSubsequence(xs, init) {
        SubsequenceBounds(xs, init);
        forall j | 0 <= j < |xs| ensures xs[j] in ys {
          assert xs[j] in init;
        }
      } else {
        SubsequenceBounds(xs[..|xs| - 1], init);
        forall j | 0 <= j < |xs| ensures xs[j] in ys {
          if j < |xs| - 1 {
            assert xs[j] == xs[..|xs| - 1][j];
            assert xs[j] in init;
          }
        }
      }
    }
  }

  /** `runs` are interjector runs of the interjections in `pool`: each of
      them ran at most once, in the order taken, and `callbacks` are exactly
      the runs' callbacks, in order. */
  ghost predicate RunsOf(pool: seq<Interjection>, runs: seq<Interjection>, callbacks: seq<CallbackId>) {
    && IsSubsequence(runs, pool)
    && callbacks == CallbacksOf(runs)
  }

  lemma RunsOfSnoc(pool: seq<Interjection>, runs: seq<Interjection>, callbacks: seq<CallbackId>, ij: Interjection, ran: bool)
    requires RunsOf(pool, runs, callbacks)
    ensures RunsOf(pool + [ij], runs + (if ran then [ij] else []),
                   callbacks + (if ran && ij.callback.Some? then [ij.callback.value] else []))
  {
    SubsequenceSnoc(runs, pool, ij, ran);
    if ran {
      CallbacksOfSnoc(runs, ij);
    } else {
      assert runs + [] == runs && callbacks + [] == callbacks;
    }
  }

  /** `AllIn` survives a step that grows the pool and adds to `xs` only an
      element of the new pool. */
  lemma AllInStep<T>(xs: seq<T>, pool: seq<T>, pool': seq<T>, x: T, added: bool)
    requires AllIn(xs, pool)
    requires forall y :: y in pool ==> y in pool'
    requires added ==> x in pool'
    ensures AllIn(xs + (if added then [x] else []), pool')
  {
  }

  /** How many branches of a schedule read the channel of `kind`. */
  function Selected(schedule: seq<Branch>, kind: BranchKind): nat
    decreases |schedule|
  {
    if schedule == [] then 0
    else Selected(schedule[..|schedule| - 1], kind) + (if schedule[|schedule| - 1].Kind() == kind then 1 else 0)
  }

  lemma SelectedStep(schedule: seq<Branch>, i: nat, kind: BranchKind)
    requires i < |schedule|
    ensures Selected(schedule[..i + 1], kind) == Selected(schedule[..i], kind) + (if schedule[i].Kind() == kind then 1 else 0)
  {
    assert schedule[..i + 1][..i] == schedule[..i];
  }

  /** The part of a worker that the dispatch loop of `work` reads and
      changes: the revoked flag, the counters, the three channels it selects
      on, the drained signal, and what it has done to its collaborators. */
  datatype WorkerState<S> = WorkerState(
    revoked: bool, counters: Counters,
    input: seq<EventContext<S>>, jobs: seq<AsyncJob<S>>, interjections: seq<Interjection>, fullReply: bool,
    forwarded: seq<EventContext<S>>, handlerCalls: seq<EventContext<S>>, completed: seq<EventContext<S>>,
    finalized: seq<AsyncJob<S>>, registered: seq<EventContext<S>>,
    interjectorRuns: seq<Interjection>, callbacksFired: seq<CallbackId>)
  {
    /** Every context waiting in the event channel carries a record. */
    predicate WellFormed() {
      forall i :: 0 <= i < |input| ==> input[i].input.Some?
    }
  }

  /** `handleEvent` on the loop's state: nothing on a revoked worker; a
      duplicate (offset below the highest offset) is dropped without reaching
      the handler; any other context is forwarded, reaches the handler
      through an open gate, is completed as `ForwardDecision` says, and
      advances the counters as `AfterEvent` says. */
  function HandleEventOn<S>(st: WorkerState<S>, ec: EventContext<S>, gate: bool, result: HandlerResult): WorkerState<S>
    requires ec.input.Some?
  {
    if st.revoked || ec.Offset() < st.counters.highestOffset then st
    else
      var d := ForwardDecision(gate, result);
      st.(counters := AfterEvent(st.counters, ec.Offset()),
          forwarded := st.forwarded + [ec],
          handlerCalls := st.handlerCalls + (if d.invokesHandler then [ec] else []),
          completed := st.completed + (if d.completes then [ec] else []))
  }

  /** The async-job branch on the loop's state: the oldest job is finalised,
      its context completed as `AsyncJobCompletes` says, and the drained
      signal posted. */
  function FinishJobOn<S>(st: WorkerState<S>, outcome: Finalization): WorkerState<S>
    requires st.jobs != []
  {
    st.(jobs := st.jobs[1..],
        finalized := st.finalized + [st.jobs[0]],
        completed := st.completed + (if AsyncJobCompletes(outcome) then [st.jobs[0].ctx] else []),
        fullReply := true)
  }

  /** The loop, started from `s0`, has taken the oldest `n` contexts: on a
      live worker the counters are `AfterEvents` of their offsets and the
      forwarded log grew by `ForwardedContexts` of them; on a revoked one
      neither moved. */
  ghost predicate EventsTaken<S>(s0: WorkerState<S>, n: nat, st: WorkerState<S>) {
    && s0.WellFormed()
    && st.revoked == s0.revoked
    && n <= |s0.input|
    && st.input == s0.input[n..]
    && st.counters == (if s0.revoked then s0.counters else AfterEvents(s0.counters, OffsetsOf(s0.input[..n])))
    && st.forwarded == s0.forwarded + (if s0.revoked then [] else ForwardedContexts(s0.counters.highestOffset, s0.input[..n]))
  }

  /** The loop, started from `s0`, has finalised the oldest `n` async jobs,
      in order, posting the drained signal for each. */
  ghost predicate JobsFinished<S>(s0: WorkerState<S>, n: nat, st: WorkerState<S>) {
    && n <= |s0.jobs|
    && st.jobs == s0.jobs[n..]
    && st.finalized == s0.finalized + s0.jobs[..n]
    && st.fullReply == (s0.fullReply || n > 0)
  }

  /** How many contexts, async jobs and interjections the loop has taken. */
  datatype Progress = Progress(events: nat, jobs: nat, interjections: nat)

  /** One more branch takes the oldest item of its channel, if there is one
      (a `select` does not pick an empty channel). */
  function Advance<S>(s0: WorkerState<S>, p: Progress, b: Branch): Progress {
    match b
    case EventBranch(_, _) => p.(events := Min(|s0.input|, p.events + 1))
    case AsyncJobBranch(_) => p.(jobs := Min(|s0.jobs|, p.jobs + 1))
    case InterjectionBranch(_, _) => p.(interjections := Min(|s0.interjections|, p.interjections + 1))
  }

  /** The progress after a whole schedule: each channel gives up as many
      items as branches read it, up to what it held. */
  function Reached<S>(s0: WorkerState<S>, schedule: seq<Branch>): Progress {
    Progress(Min(|s0.input|, Selected(schedule, EventKind)), Min(|s0.jobs|, Selected(schedule, JobKind)),
             Min(|s0.interjections|, Selected(schedule, InterjectionKind)))
  }

  lemma ReachedStep<S>(s0: WorkerState<S>, schedule: seq<Branch>, i: nat)
    requires i < |schedule|
    ensures Reached(s0, schedule[..i + 1]) == Advance(s0, Reached(s0, schedule[..i]), schedule[i])
  {
    SelectedStep(schedule, i, EventKind);
    SelectedStep(schedule, i, JobKind);
    SelectedStep(schedule, i, InterjectionKind);
  }

  class PartitionWorker<S> {
    const topicPartition: TopicPartition
    const changeLog: ChangeLogData<S>
    const waiter: Waiter
    const inputCapacity: int
    const asyncCapacity: int

    /** Batches handed over by `add` (capacity 1). */
    var partitionInput: seq<seq<Option<Record>>>
    /** The rest of the batch the intake pump is still pushing. */
    var pumpBatch: seq<Option<Record>>
    /** Contexts waiting for the dispatch loop (capacity `inputCapacity`). */
    var eventInput: seq<EventContext<S>>
    /** Pending interjections (capacity 1). */
    var interjectionChannel: seq<Interjection>
    /** Jobs of the async completer (capacity `asyncCapacity`). */
    var asyncJobs: seq<AsyncJob<S>>
    /** The single-slot "queue drained" signal. */
    var asyncFullReply: bool
    /** The worker's run status has been halted. */
    var revoked: bool
    var pending: int
    var processed: int
    var highestOffset: int

    /** Contexts registered with the producer pool (`addEventContext`). */
    ghost var registered: seq<EventContext<S>>
    /** Contexts handed to the application handler. */
    ghost var handlerCalls: seq<EventContext<S>>
    /** Contexts marked complete, which lets their offsets commit. */
    ghost var completed: seq<EventContext<S>>
    /** Async jobs whose finalize function has run. */
    ghost var finalized: seq<AsyncJob<S>>
    /** Interjections whose interjector has run. */
    ghost var interjectorRuns: seq<Interjection>
    /** Callbacks of one-off interjections that have fired. */
    ghost var callbacksFired: seq<CallbackId>
    /** Contexts that passed the drop test and went to `forwardToEventSource`. */
    ghost var forwarded: seq<EventContext<S>>
    /** `work` has read the last processed offset and entered its loop. */
    ghost var activated: bool

    ghost predicate Valid()
      reads this
    {
      && inputCapacity >= 100 && asyncCapacity == 4 * inputCapacity
      && |partitionInput| <= PartitionInputCapacity
      && |eventInput| <= inputCapacity
      && |interjectionChannel| <= InterjectionCapacity
      && |asyncJobs| <= asyncCapacity
      && (forall i :: 0 <= i < |eventInput| ==> eventInput[i].input.Some?)
      && (forall i :: 0 <= i < |forwarded| ==> forwarded[i].input.Some?)
    }

    function Snapshot(): Counters
      reads this
    {
      Counters(pending, processed, highestOffset)
    }

    /** Everything the dispatch loop and the pump exchange. */
    ghost function Queues(): (seq<seq<Option<Record>>>, seq<Option<Record>>, seq<EventContext<S>>, seq<Interjection>, seq<AsyncJob<S>>, bool)
      reads this
    {
      (partitionInput, pumpBatch, eventInput, interjectionChannel, asyncJobs, asyncFullReply)
    }

    /** Everything the worker has done to its collaborators. */
    ghost function Effects(): (seq<EventContext<S>>, seq<EventContext<S>>, seq<EventContext<S>>, seq<EventContext<S>>, seq<AsyncJob<S>>, seq<Interjection>, seq<CallbackId>)
      reads this
    {
      (registered, forwarded, handlerCalls, completed, finalized, interjectorRuns, callbacksFired)
    }

    /** A worker as `newPartitionWorker` leaves it. */
    ghost predicate Initial()
      reads this
    {
      && Snapshot() == InitialCounters && !revoked && !activated
      && Queues() == ([], [], [], [], [], false)
      && Effects() == ([], [], [], [], [], [], [])
    }

    /** `newPartitionWorker`: channels sized from the configured maximum batch
        size, counters at their start values. */
    constructor (tp: TopicPartition, changeLog: ChangeLogData<S>, waiter: Waiter, maxBatchSize: int)
      ensures Valid() && Initial()
      ensures topicPartition == tp && this.changeLog == changeLog && this.waiter == waiter
      ensures inputCapacity == InputCapacity(maxBatchSize) && asyncCapacity == AsyncCapacity(maxBatchSize)
    {
      topicPartition := tp;
      this.changeLog := changeLog;
      this.waiter := waiter;
      inputCapacity := InputCapacity(maxBatchSize);
      asyncCapacity := AsyncCapacity(maxBatchSize);
      partitionInput, pumpBatch, eventInput := [], [], [];
      interjectionChannel, asyncJobs, asyncFullReply := [], [], false;
      revoked := false;
      pending, processed, highestOffset := 0, 0, -1;
      registered, handlerCalls, completed := [], [], [];
      finalized, interjectorRuns, callbacksFired := [], [], [];
      forwarded, activated := [], false;
    }

    /** `add`: a revoked worker ignores the batch; otherwise `pending` grows by
        the batch length (nil records included) and the batch is queued. The
        send blocks while `partitionInput` is full, so the step is enabled only
        when it has room. */
    method Add(records: seq<Option<Record>>)
      requires Valid()
      requires !revoked ==> |partitionInput| < PartitionInputCapacity
      modifies this`pending, this`partitionInput
      ensures Valid()
      ensures revoked ==> pending == old(pending) && partitionInput == old(partitionInput)
      ensures !revoked ==>
                && pending == old(pending) + |records|
                && partitionInput == old(partitionInput) + [records]
    {
      if revoked {
        return;
      }
      pending := pending + |records|;
      partitionInput := partitionInput + [records];
    }

    /** The send `interject` makes on `interjectionChannel`; it blocks while
        the single slot is taken, so the step is enabled only when it is free. */
    method PushInterjection(ij: Interjection)
      requires Valid() && |interjectionChannel| < InterjectionCapacity
      modifies this`interjectionChannel
      ensures Valid()
      ensures interjectionChannel == old(interjectionChannel) + [ij]
    {
      interjectionChannel := interjectionChannel + [ij];
    }

    /** `revoke`: halts the worker's run status; nothing else changes. */
    method Revoke()
      requires Valid()
      modifies this`revoked
      ensures Valid() && revoked
    {
      revoked := true;
    }

    /** The intake pump pushes what it can of its current batch: each non-nil
        record becomes one context, registered with the producer pool and then
        sent to `eventInput`; nil records are skipped. It stops when the batch
        is done or when `eventInput` is full before a record. */
    method PumpPush()
      requires Valid()
      modifies this`pumpBatch, this`eventInput, this`registered
      ensures Valid()
      ensures |pumpBatch| <= |old(pumpBatch)|
      ensures pumpBatch == old(pumpBatch)[|old(pumpBatch)| - |pumpBatch|..]
      ensures eventInput == old(eventInput) + ContextsOf(old(pumpBatch)[..|old(pumpBatch)| - |pumpBatch|], topicPartition, changeLog)
      ensures registered == old(registered) + ContextsOf(old(pumpBatch)[..|old(pumpBatch)| - |pumpBatch|], topicPartition, changeLog)
      ensures pumpBatch == [] || (pumpBatch[0].Some? && |eventInput| == inputCapacity)
    {
      ghost var batch := pumpBatch;
      while pumpBatch != [] && (pumpBatch[0].None? || |eventInput| < inputCapacity)
        invariant Valid()
        invariant |pumpBatch| <= |batch|
        invariant pumpBatch == batch[|batch| - |pumpBatch|..]
        invariant eventInput == old(eventInput) + ContextsOf(batch[..|batch| - |pumpBatch|], topicPartition, changeLog)
        invariant registered == old(registered) + ContextsOf(batch[..|batch| - |pumpBatch|], topicPartition, changeLog)
        decreases |pumpBatch|
      {
        ghost var done := batch[..|batch| - |pumpBatch|];
        var record := pumpBatch[0];
        ContextsOfAppend(done, [record], topicPartition, changeLog);
        assert batch[..|batch| - |pumpBatch| + 1] == done + [record];
        if record.Some? {
          var ec := EventContext(topicPartition, record, changeLog);
          registered := registered + [ec];
          eventInput := eventInput + [ec];
        }
        pumpBatch := pumpBatch[1..];
      }
    }

    /** The pump's `partitionInput` branch: a revoked worker discards the
        whole batch; otherwise the pump starts pushing it. */
    method PumpReceive()
      requires Valid() && partitionInput != [] && pumpBatch == []
      modifies this`partitionInput, this`pumpBatch, this`eventInput, this`registered
      ensures Valid()
      ensures partitionInput == old(partitionInput)[1..]
      ensures old(revoked) ==> pumpBatch == [] && eventInput == old(eventInput) && registered == old(registered)
      ensures !old(revoked) ==>
                var batch := old(partitionInput)[0];
                var pushed := |batch| - |pumpBatch|;
                && 0 <= pushed
                && pumpBatch == batch[pushed..]
                && eventInput == old(eventInput) + ContextsOf(batch[..pushed], topicPartition, changeLog)
                && registered == old(registered) + ContextsOf(batch[..pushed], topicPartition, changeLog)
      ensures pumpBatch == [] || (pumpBatch[0].Some? && |eventInput| == inputCapacity)
    {
      var records := partitionInput[0];
      partitionInput := partitionInput[1..];
      if !revoked {
        pumpBatch := records;
        PumpPush();
      }
    }

    /** `forwardToEventSource`: waits on the execute gate; a closed gate
        abandons the event; otherwise the handler runs and the context is
        completed only on `Complete` without error. */
    method ForwardToEventSource(ec: EventContext<S>, gate: bool, result: HandlerResult)
      modifies this`handlerCalls, this`completed
      ensures handlerCalls == old(handlerCalls) + (if ForwardDecision(gate, result).invokesHandler then [ec] else [])
      ensures completed == old(completed) + (if ForwardDecision(gate, result).completes then [ec] else [])
    {
      if !gate {
        return;
      }
      handlerCalls := handlerCalls + [ec];
      if !result.failed && result.state == Complete {
        completed := completed + [ec];
      }
    }

    /** The loop's part of this worker. */
    ghost function State(): WorkerState<S>
      reads this
    {
      WorkerState(revoked, Snapshot(), eventInput, asyncJobs, interjectionChannel, asyncFullReply,
                  forwarded, handlerCalls, completed, finalized, registered, interjectorRuns, callbacksFired)
    }

    /** The record-less context an interjection runs in. */
    function InterjectionContext(): EventContext<S> {
      EventContext(topicPartition, None, changeLog)
    }

    /** `handleInterjection` on the loop's state: nothing on a revoked
        worker; otherwise a record-less context is registered with the
        producer pool, and through an open gate the interjector runs (a
        one-off one fires its callback) and a `Complete` result completes the
        context. */
    function HandleInterjectionOn(st: WorkerState<S>, ij: Interjection, gate: bool, state: ExecutionState): WorkerState<S> {
      if st.revoked then st
      else
        var d := InterjectionDecision(st.revoked, gate, state);
        st.(registered := st.registered + [InterjectionContext()],
            interjectorRuns := st.interjectorRuns + (if d.invokesHandler then [ij] else []),
            callbacksFired := st.callbacksFired + (if d.invokesHandler && ij.callback.Some? then [ij.callback.value] else []),
            completed := st.completed + (if d.completes then [InterjectionContext()] else []))
    }

    /** One `select` branch of `work`: it takes the oldest item of its
        channel and handles it; a branch whose channel is empty is not
        selectable and changes nothing. */
    function Step(st: WorkerState<S>, b: Branch): (r: WorkerState<S>)
      requires st.WellFormed()
      ensures r.WellFormed()
    {
      match b
      case EventBranch(gate, result) =>
        if st.input == [] then st
        else HandleEventOn(st.(input := st.input[1..]), st.input[0], gate, result)
      case AsyncJobBranch(outcome) =>
        if st.jobs == [] then st else FinishJobOn(st, outcome)
      case InterjectionBranch(gate, state) =>
        if st.interjections == [] then st
        else HandleInterjectionOn(st.(interjections := st.interjections[1..]), st.interjections[0], gate, state)
    }

    /** The loop's state after a schedule of branches. */
    function Run(st: WorkerState<S>, schedule: seq<Branch>): (r: WorkerState<S>)
      requires st.WellFormed()
      ensures r.WellFormed()
      decreases |schedule|
    {
      if schedule == [] then st
      else Step(Run(st, schedule[..|schedule| - 1]), schedule[|schedule| - 1])
    }

    /** The loop, started from `s0`, has taken the oldest `n` interjections,
        and a live worker registered a record-less context for each. */
    ghost predicate InterjectionsTaken(s0: WorkerState<S>, n: nat, st: WorkerState<S>) {
      && st.revoked == s0.revoked
      && n <= |s0.interjections|
      && st.interjections == s0.interjections[n..]
      && st.registered == s0.registered + Repeat(InterjectionContext(), if s0.revoked then 0 else n)
    }

    /** Since `s0` the interjector ran at most once per interjection taken,
        only for those, never on a revoked worker, and the callbacks fired
        are exactly those of the interjector runs, in order. */
    ghost predicate InterjectorsRan(s0: WorkerState<S>, n: nat, st: WorkerState<S>) {
      && st.revoked == s0.revoked
      && n <= |s0.interjections|
      && |s0.interjectorRuns| <= |st.interjectorRuns|
      && st.interjectorRuns[..|s0.interjectorRuns|] == s0.interjectorRuns
      && |s0.callbacksFired| <= |st.callbacksFired|
      && st.callbacksFired[..|s0.callbacksFired|] == s0.callbacksFired
      && (s0.revoked ==> st.interjectorRuns == s0.interjectorRuns)
      && RunsOf(s0.interjections[..n], st.interjectorRuns[|s0.interjectorRuns|..], st.callbacksFired[|s0.callbacksFired|..])
    }

    /** Since `s0`, each handler call was of a forwarded context, and each
        completion is of a context handed to the handler, of a finalised
        async job, or of a registered interjection. */
    ghost predicate CompletionsAccounted(s0: WorkerState<S>, st: WorkerState<S>) {
      && |s0.forwarded| <= |st.forwarded|
      && |s0.finalized| <= |st.finalized|
      && |s0.registered| <= |st.registered|
      && |s0.handlerCalls| <= |st.handlerCalls|
      && st.handlerCalls[..|s0.handlerCalls|] == s0.handlerCalls
      && |s0.completed| <= |st.completed|
      && st.completed[..|s0.completed|] == s0.completed
      && AllIn(st.handlerCalls[|s0.handlerCalls|..], st.forwarded[|s0.forwarded|..])
      && AllIn(st.completed[|s0.completed|..], Matchable(s0, st))
    }

    /** What a completion since `s0` can be matched to. */
    ghost function Matchable(s0: WorkerState<S>, st: WorkerState<S>): seq<EventContext<S>>
      requires |s0.handlerCalls| <= |st.handlerCalls| && |s0.finalized| <= |st.finalized| && |s0.registered| <= |st.registered|
    {
      st.handlerCalls[|s0.handlerCalls|..] + JobContexts(st.finalized[|s0.finalized|..]) + st.registered[|s0.registered|..]
    }

    /** The loop, started from `s0`, has made progress `p` and reached `st`. */
    ghost predicate Progressed(s0: WorkerState<S>, p: Progress, st: WorkerState<S>) {
      && EventsTaken(s0, p.events, st)
      && JobsFinished(s0, p.jobs, st)
      && InterjectionsTaken(s0, p.interjections, st)
      && InterjectorsRan(s0, p.interjections, st)
      && CompletionsAccounted(s0, st)
    }

    lemma EventsStep(s0: WorkerState<S>, p: Progress, st: WorkerState<S>, b: Branch)
      requires st.WellFormed() && EventsTaken(s0, p.events, st)
      ensures EventsTaken(s0, Advance(s0, p, b).events, Step(st, b))
    {
      if b.EventBranch? && st.input != [] {
        var n := p.events;
        assert st.input[0] == s0.input[n];
        OffsetsOfStep(s0.input, n);
        AfterEventsSnoc(s0.counters, OffsetsOf(s0.input[..n]), s0.input[n].Offset());
        AfterEventsHighest(s0.counters, OffsetsOf(s0.input[..n]));
        ForwardedContextsStep(s0.counters.highestOffset, s0.input, n);
      }
    }

    lemma JobsStep(s0: WorkerState<S>, p: Progress, st: WorkerState<S>, b: Branch)
      requires st.WellFormed() && JobsFinished(s0, p.jobs, st)
      ensures JobsFinished(s0, Advance(s0, p, b).jobs, Step(st, b))
    {
      if b.AsyncJobBranch? && st.jobs != [] {
        var n := p.jobs;
        assert st.jobs[0] == s0.jobs[n];
        assert s0.jobs[..n + 1] == s0.jobs[..n] + [s0.jobs[n]];
      }
    }

    lemma InterjectionsStep(s0: WorkerState<S>, p: Progress, st: WorkerState<S>, b: Branch)
      requires st.WellFormed() && InterjectionsTaken(s0, p.interjections, st)
      ensures InterjectionsTaken(s0, Advance(s0, p, b).interjections, Step(st, b))
    {
      if b.InterjectionBranch? && st.interjections != [] {
        var n := p.interjections;
        var st' := Step(st, b);
        assert st'.interjections == s0.interjections[n + 1..];
        if !st.revoked {
          RepeatSnoc(InterjectionContext(), n);
          assert st'.registered == st.registered + [InterjectionContext()];
        }
      }
    }

    lemma InterjectorsStep(s0: WorkerState<S>, p: Progress, st: WorkerState<S>, b: Branch)
      requires st.WellFormed() && InterjectorsRan(s0, p.interjections, st)
      requires InterjectionsTaken(s0, p.interjections, st)
      ensures InterjectorsRan(s0, Advance(s0, p, b).interjections, Step(st, b))
    {
      if b.InterjectionBranch? && st.interjections != [] {
        var ij := st.interjections[0];
        var st' := Step(st, b);
        var ran := !st.revoked && b.gate;
        assert st'.interjectorRuns == st.interjectorRuns + (if ran then [ij] else []);
        assert st'.callbacksFired == st.callbacksFired + (if ran && ij.callback.Some? then [ij.callback.value] else []);
        InterjectorRanStep(s0, p.interjections, st, st', ij, ran);
      }
    }

    lemma InterjectorRanStep(s0: WorkerState<S>, n: nat, st: WorkerState<S>, st': WorkerState<S>, ij: Interjection, ran: bool)
      requires InterjectorsRan(s0, n, st) && n < |s0.interjections| && ij == s0.interjections[n]
      requires st'.revoked == st.revoked && (st.revoked ==> !ran)
      requires st'.interjectorRuns == st.interjectorRuns + (if ran then [ij] else [])
      requires st'.callbacksFired == st.callbacksFired + (if ran && ij.callback.Some? then [ij.callback.value] else [])
      ensures InterjectorsRan(s0, n + 1, st')
    {
      var runs := st.interjectorRuns[|s0.interjectorRuns|..];
      var callbacks := st.callbacksFired[|s0.callbacksFired|..];
      var tail := if ran then [ij] else [];
      var fired := if ran && ij.callback.Some? then [ij.callback.value] else [];
      assert s0.interjections[..n + 1] == s0.interjections[..n] + [ij];
      assert st'.interjectorRuns[..|s0.interjectorRuns|] == s0.interjectorRuns;
      assert st'.interjectorRuns[|s0.interjectorRuns|..] == runs + tail;
      assert st'.callbacksFired[..|s0.callbacksFired|] == s0.callbacksFired;
      assert st'.callbacksFired[|s0.callbacksFired|..] == callbacks + fired;
      RunsOfSnoc(s0.interjections[..n], runs, callbacks, ij, ran);
    }

    lemma EventCompletions(s0: WorkerState<S>, st: WorkerState<S>, gate: bool, result: HandlerResult)
      requires st.WellFormed() && CompletionsAccounted(s0, st) && st.input != []
      ensures CompletionsAccounted(s0, Step(st, EventBranch(gate, result)))
    {
      var st' := Step(st, EventBranch(gate, result));
      var ec := st.input[0];
      if !st.revoked && ec.Offset() >= st.counters.highestOffset {
        ForwardedAccounted(s0, st, st', ec, ForwardDecision(gate, result));
      } else {
        assert st'.forwarded == st.forwarded && st'.handlerCalls == st.handlerCalls && st'.completed == st.completed;
        assert st'.finalized == st.finalized && st'.registered == st.registered;
      }
    }

    lemma ForwardedAccounted(s0: WorkerState<S>, st: WorkerState<S>, st': WorkerState<S>, ec: EventContext<S>, d: Forward)
      requires CompletionsAccounted(s0, st)
      requires d.completes ==> d.invokesHandler
      requires st'.forwarded == st.forwarded + [ec]
      requires st'.handlerCalls == st.handlerCalls + (if d.invokesHandler then [ec] else [])
      requires st'.completed == st.completed + (if d.completes then [ec] else [])
      requires st'.finalized == st.finalized && st'.registered == st.registered
      ensures CompletionsAccounted(s0, st')
    {
      var fs := st.forwarded[|s0.forwarded|..];
      var hs := st.handlerCalls[|s0.handlerCalls|..];
      var cs := st.completed[|s0.completed|..];
      assert st'.forwarded[|s0.forwarded|..] == fs + [ec];
      assert st'.handlerCalls[..|s0.handlerCalls|] == s0.handlerCalls;
      assert st'.handlerCalls[|s0.handlerCalls|..] == hs + (if d.invokesHandler then [ec] else []);
      assert st'.completed[..|s0.completed|] == s0.completed;
      assert st'.completed[|s0.completed|..] == cs + (if d.completes then [ec] else []);
      AllInStep(hs, fs, fs + [ec], ec, d.invokesHandler);
      AllInStep(cs, Matchable(s0, st), Matchable(s0, st'), ec, d.completes);
    }

    lemma JobCompletions(s0: WorkerState<S>, st: WorkerState<S>, outcome: Finalization)
      requires st.WellFormed() && CompletionsAccounted(s0, st) && st.jobs != []
      ensures CompletionsAccounted(s0, Step(st, AsyncJobBranch(outcome)))
    {
      var st' := Step(st, AsyncJobBranch(outcome));
      var ctx := st.jobs[0].ctx;
      var cs := st.completed[|s0.completed|..];
      var completes := AsyncJobCompletes(outcome);
      assert st'.handlerCalls == st.handlerCalls && st'.registered == st.registered && st'.forwarded == st.forwarded;
      assert st'.finalized[|s0.finalized|..] == st.finalized[|s0.finalized|..] + [st.jobs[0]];
      assert JobContexts(st'.finalized[|s0.finalized|..]) == JobContexts(st.finalized[|s0.finalized|..]) + [ctx];
      assert st'.completed[..|s0.completed|] == s0.completed;
      assert st'.completed[|s0.completed|..] == cs + (if completes then [ctx] else []);
      AllInStep(cs, Matchable(s0, st), Matchable(s0, st'), ctx, completes);
    }

    lemma InterjectionCompletions(s0: WorkerState<S>, st: WorkerState<S>, gate: bool, state: ExecutionState)
      requires st.WellFormed() && CompletionsAccounted(s0, st) && st.interjections != []
      ensures CompletionsAccounted(s0, Step(st, InterjectionBranch(gate, state)))
    {
      var st' := Step(st, InterjectionBranch(gate, state));
      var d := InterjectionDecision(st.revoked, gate, state);
      var ctx := InterjectionContext();
      if !st.revoked {
        var cs := st.completed[|s0.completed|..];
        assert st'.handlerCalls == st.handlerCalls && st'.finalized == st.finalized && st'.forwarded == st.forwarded;
        assert st'.registered[|s0.registered|..] == st.registered[|s0.registered|..] + [ctx];
        assert st'.completed[..|s0.completed|] == s0.completed;
        assert st'.completed[|s0.completed|..] == cs + (if d.completes then [ctx] else []);
        AllInStep(cs, Matchable(s0, st), Matchable(s0, st'), ctx, d.completes);
      } else {
        assert st' == st.(interjections := st.interjections[1..]);
      }
    }

    lemma CompletionsStep(s0: WorkerState<S>, st: WorkerState<S>, b: Branch)
      requires st.WellFormed() && CompletionsAccounted(s0, st)
      ensures CompletionsAccounted(s0, Step(st, b))
    {
      match b
      case EventBranch(gate, result) =>
        if st.input != [] { EventCompletions(s0, st, gate, result); }
      case AsyncJobBranch(outcome) =>
        if st.jobs != [] { JobCompletions(s0, st, outcome); }
      case InterjectionBranch(gate, state) =>
        if st.interjections != [] { InterjectionCompletions(s0, st, gate, state); }
    }

    lemma {:induction false} RunEvents(s0: WorkerState<S>, schedule: seq<Branch>)
      requires s0.WellFormed()
      ensures EventsTaken(s0, Reached(s0, schedule).events, Run(s0, schedule))
      decreases |schedule|
    {
      if schedule == [] {
        assert s0.input[..0] == [];
      } else {
        var k := |schedule| - 1;
        RunEvents(s0, schedule[..k]);
        ReachedStep(s0, schedule, k);
        assert schedule[..k + 1] == schedule;
        EventsStep(s0, Reached(s0, schedule[..k]), Run(s0, schedule[..k]), schedule[k]);
      }
    }

    lemma {:induction false} RunJobs(s0: WorkerState<S>, schedule: seq<Branch>)
      requires s0.WellFormed()
      ensures JobsFinished(s0, Reached(s0, schedule).jobs, Run(s0, schedule))
      decreases |schedule|
    {
      if schedule == [] {
        assert s0.jobs[..0] == [];
      } else {
        var k := |schedule| - 1;
        RunJobs(s0, schedule[..k]);
        ReachedStep(s0, schedule, k);
        assert schedule[..k + 1] == schedule;
        JobsStep(s0, Reached(s0, schedule[..k]), Run(s0, schedule[..k]), schedule[k]);
      }
    }

    lemma {:induction false} RunInterjections(s0: WorkerState<S>, schedule: seq<Branch>)
      requires s0.WellFormed()
      ensures InterjectionsTaken(s0, Reached(s0, schedule).interjections, Run(s0, schedule))
      ensures InterjectorsRan(s0, Reached(s0, schedule).interjections, Run(s0, schedule))
      decreases |schedule|
    {
      if schedule == [] {
        assert s0.interjections[..0] == [];
      } else {
        var k := |schedule| - 1;
        RunInterjections(s0, schedule[..k]);
        ReachedStep(s0, schedule, k);
        assert schedule[..k + 1] == schedule;
        InterjectionsStep(s0, Reached(s0, schedule[..k]), Run(s0, schedule[..k]), schedule[k]);
        InterjectorsStep(s0, Reached(s0, schedule[..k]), Run(s0, schedule[..k]), schedule[k]);
      }
    }

    lemma {:induction false} RunCompletions(s0: WorkerState<S>, schedule: seq<Branch>)
      requires s0.WellFormed()
      ensures CompletionsAccounted(s0, Run(s0, schedule))
      decreases |schedule|
    {
      if schedule != [] {
        var k := |schedule| - 1;
        RunCompletions(s0, schedule[..k]);
        assert schedule[..k + 1] == schedule;
        CompletionsStep(s0, Run(s0, schedule[..k]), schedule[k]);
      }
    }

    /** Whatever the schedule, the loop's outcome is accounted for: each
        channel gave up its oldest items, as many as branches read it; the
        counters are `AfterEvents` of the offsets taken and the contexts
        forwarded are `ForwardedContexts` of them; the async jobs taken were
        finalised in order; each interjection ran at most once; and each
        handler call and completion is matched as `CompletionsAccounted`
        says. */
    /** What a run of the loop promises: it progressed as `Progressed`
        says, never lowered `highestOffset`, and on a live worker forwarded
        exactly the offsets `Forwarded` keeps of the contexts it took. */
    lemma WorkOutcome(s0: WorkerState<S>, schedule: seq<Branch>)
      requires s0.WellFormed()
      ensures var st, k := Run(s0, schedule), Min(|s0.input|, Selected(schedule, EventKind));
              && Progressed(s0, Reached(s0, schedule), st)
              && st.counters.highestOffset >= s0.counters.highestOffset
              && (!s0.revoked ==>
                    OffsetsOf(st.forwarded[|s0.forwarded|..]) == Forwarded(s0.counters.highestOffset, OffsetsOf(s0.input[..k])))
    {
      RunProgressed(s0, schedule);
      var st, taken := Run(s0, schedule), s0.input[..Reached(s0, schedule).events];
      assert st.forwarded[|s0.forwarded|..] ==
               (if s0.revoked then [] else ForwardedContexts(s0.counters.highestOffset, taken));
      if !s0.revoked {
        ForwardedContextsOffsets(s0.counters.highestOffset, taken);
        AfterEventsHighest(s0.counters, OffsetsOf(taken));
      }
    }

    lemma RunProgressed(s0: WorkerState<S>, schedule: seq<Branch>)
      requires s0.WellFormed()
      ensures Progressed(s0, Reached(s0, schedule), Run(s0, schedule))
    {
      RunEvents(s0, schedule);
      RunJobs(s0, schedule);
      RunInterjections(s0, schedule);
      RunCompletions(s0, schedule);
    }

    /** `handleEvent`: false on a revoked worker, true otherwise; the loop's
        state changes as `HandleEventOn` says. Only an active worker handles
        events. */
    method HandleEvent(ec: EventContext<S>, gate: bool, result: HandlerResult) returns (ok: bool)
      requires Valid() && activated && ec.input.Some?
      modifies this`pending, this`processed, this`highestOffset, this`forwarded, this`handlerCalls, this`completed
      ensures Valid()
      ensures ok <==> !revoked
      ensures State() == HandleEventOn(old(State()), ec, gate, result)
      ensures highestOffset >= old(highestOffset)
    {
      if revoked {
        return false;
      }
      var offset := ec.Offset();
      if offset < highestOffset {
        return true;
      }
      pending := pending - 1;
      forwarded := forwarded + [ec];
      ForwardToEventSource(ec, gate, result);
      highestOffset := offset;
      processed := processed + 1;
      return true;
    }

    /** `handleInterjection`, as `HandleInterjectionOn` says. Only an active
        worker handles interjections. */
    method HandleInterjection(ij: Interjection, gate: bool, state: ExecutionState)
      requires Valid() && activated
      modifies this`registered, this`interjectorRuns, this`callbacksFired, this`completed
      ensures Valid()
      ensures State() == HandleInterjectionOn(old(State()), ij, gate, state)
    {
      if revoked {
        return;
      }
      var ec := EventContext(topicPartition, None, changeLog);
      registered := registered + [ec];
      if gate {
        interjectorRuns := interjectorRuns + [ij];
        if ij.callback.Some? {
          callbacksFired := callbacksFired + [ij.callback.value];
        }
        if state == Complete {
          completed := completed + [ec];
        }
      }
    }

    /** The async-job branch of `work`: the oldest job is finalised, its
        context completed on `Complete` (finalize's error is ignored), and the
        drained signal is posted if its slot is free. Only the loop of an
        active worker finalises jobs. */
    method FinishAsyncJob(outcome: Finalization)
      requires Valid() && activated && asyncJobs != []
      modifies this`asyncJobs, this`asyncFullReply, this`finalized, this`completed
      ensures Valid()
      ensures State() == FinishJobOn(old(State()), outcome)
    {
      var job := asyncJobs[0];
      asyncJobs := asyncJobs[1..];
      finalized := finalized + [job];
      if outcome.state == Complete {
        completed := completed + [job.ctx];
      }
      if !asyncFullReply {
        asyncFullReply := true;
      }
    }

    /** The wait of `asyncComplete` on a full queue: it retries on each
        drained signal until the dispatch loop has finalised the oldest job
        (with `headOutcome`); a stale signal just causes another try. With
        room nothing changes; on a full queue exactly the oldest job is
        finalised and completed as `AsyncJobCompletes` says, and its drained
        signal is consumed. */
    method AwaitRoom(headOutcome: Finalization)
      requires Valid() && activated
      modifies this`asyncJobs, this`asyncFullReply, this`finalized, this`completed
      ensures Valid() && |asyncJobs| < asyncCapacity
      ensures |old(asyncJobs)| < asyncCapacity ==>
                && asyncJobs == old(asyncJobs) && finalized == old(finalized)
                && completed == old(completed) && asyncFullReply == old(asyncFullReply)
      ensures |old(asyncJobs)| >= asyncCapacity ==>
                && asyncJobs == old(asyncJobs)[1..]
                && finalized == old(finalized) + [old(asyncJobs)[0]]
                && completed == old(completed) + (if AsyncJobCompletes(headOutcome) then [old(asyncJobs)[0].ctx] else [])
                && !asyncFullReply
    {
      ghost var drained := false;
      while |asyncJobs| >= asyncCapacity
        invariant Valid() && activated
        invariant !drained ==> asyncJobs == old(asyncJobs) && finalized == old(finalized) && completed == old(completed)
        invariant !drained && |old(asyncJobs)| < asyncCapacity ==> asyncFullReply == old(asyncFullReply)
        invariant drained ==>
                    && |old(asyncJobs)| >= asyncCapacity
                    && asyncJobs == old(asyncJobs)[1..]
                    && finalized == old(finalized) + [old(asyncJobs)[0]]
                    && completed == old(completed) + (if AsyncJobCompletes(headOutcome) then [old(asyncJobs)[0].ctx] else [])
                    && !asyncFullReply
        decreases (if drained then 0 else 2) + (if asyncFullReply then 1 else 0)
      {
        if !asyncFullReply {
          // Only the dispatch loop posts the drained signal: the wait lasts
          // until it has finalised the oldest job.
          FinishAsyncJob(headOutcome);
          drained := true;
        }
        asyncFullReply := false;
      }
    }

    /** `asyncComplete`: returns only once the job is queued, after waiting
        for room as `AwaitRoom` says. No job is lost: the old queue plus the
        new job is exactly what was finalised meanwhile followed by the new
        queue. Jobs come from handlers, which only an active worker runs. */
    method AsyncComplete(job: AsyncJob<S>, headOutcome: Finalization)
      requires Valid() && activated
      modifies this`asyncJobs, this`asyncFullReply, this`finalized, this`completed
      ensures Valid()
      ensures asyncJobs != [] && asyncJobs[|asyncJobs| - 1] == job
      ensures |old(asyncJobs)| < asyncCapacity ==>
                && asyncJobs == old(asyncJobs) + [job] && finalized == old(finalized)
                && completed == old(completed) && asyncFullReply == old(asyncFullReply)
      ensures |old(asyncJobs)| >= asyncCapacity ==>
                && asyncJobs == old(asyncJobs)[1..] + [job]
                && finalized == old(finalized) + [old(asyncJobs)[0]]
                && completed == old(completed) + (if AsyncJobCompletes(headOutcome) then [old(asyncJobs)[0].ctx] else [])
                && !asyncFullReply
      ensures old(asyncJobs) + [job] == finalized[|old(finalized)|..] + asyncJobs
    {
      AwaitRoom(headOutcome);
      asyncJobs := asyncJobs + [job];
    }

    /** The event branch of `work`: the oldest context in `eventInput` is
        taken and handled. */
    method DispatchEvent(gate: bool, result: HandlerResult)
      requires Valid() && activated && eventInput != []
      modifies this`eventInput, this`pending, this`processed, this`highestOffset, this`forwarded
      modifies this`handlerCalls, this`completed
      ensures Valid()
      ensures State() == Step(old(State()), EventBranch(gate, result))
    {
      var ec := eventInput[0];
      eventInput := eventInput[1..];
      var _ := HandleEvent(ec, gate, result);
    }

    /** The interjection branch of `work`: the oldest interjection is taken
        and handled. Re-arming the timer is not modelled. */
    method DispatchInterjection(gate: bool, state: ExecutionState)
      requires Valid() && activated && interjectionChannel != []
      modifies this`interjectionChannel, this`registered, this`interjectorRuns, this`callbacksFired, this`completed
      ensures Valid()
      ensures State() == Step(old(State()), InterjectionBranch(gate, state))
    {
      var ij := interjectionChannel[0];
      interjectionChannel := interjectionChannel[1..];
      HandleInterjection(ij, gate, state);
    }

    /** One scheduled `select` branch of `work`, as `Step` says. */
    method WorkStep(branch: Branch)
      requires Valid() && activated
      modifies this`eventInput, this`pending, this`processed, this`highestOffset, this`forwarded
      modifies this`handlerCalls, this`completed, this`asyncJobs, this`asyncFullReply, this`finalized
      modifies this`interjectionChannel, this`registered, this`interjectorRuns, this`callbacksFired
      ensures Valid()
      ensures State() == Step(old(State()), branch)
    {
      match branch {
        case EventBranch(gate, result) =>
          if eventInput != [] {
            DispatchEvent(gate, result);
          }
        case AsyncJobBranch(outcome) =>
          if asyncJobs != [] {
            FinishAsyncJob(outcome);
          }
        case InterjectionBranch(gate, state) =>
          if interjectionChannel != [] {
            DispatchInterjection(gate, state);
          }
      }
    }

    /** `work`, run once when the worker is activated: `highestOffset` is
        first set to the commit log's last processed offset, then the loop
        takes the scheduled `select` branches in turn and ends as `Run` says,
        so what `RunProgressed` proves holds of it; in particular the contexts
        forwarded carry the offsets `Forwarded` keeps. */
    method Work(lastProcessed: int, schedule: seq<Branch>)
      requires Valid() && !activated
      modifies this`highestOffset, this`activated
      modifies this`eventInput, this`pending, this`processed, this`forwarded
      modifies this`handlerCalls, this`completed, this`asyncJobs, this`asyncFullReply, this`finalized
      modifies this`interjectionChannel, this`registered, this`interjectorRuns, this`callbacksFired
      ensures Valid() && activated
      ensures var s0 := old(State()).(counters := old(Snapshot()).(highestOffset := lastProcessed));
              && State() == Run(s0, schedule)
              && Progressed(s0, Reached(s0, schedule), State())
      ensures highestOffset >= lastProcessed
      ensures var k := Min(|old(eventInput)|, Selected(schedule, EventKind));
              !revoked ==> OffsetsOf(forwarded[|old(forwarded)|..]) == Forwarded(lastProcessed, OffsetsOf(old(eventInput)[..k]))
    {
      highestOffset := lastProcessed;
      activated := true;
      ghost var s0 := State();
      var i := 0;
      while i < |schedule|
        invariant 0 <= i <= |schedule|
        invariant Valid() && activated
        invariant State() == Run(s0, schedule[..i])
        decreases |schedule| - i
      {
        WorkStep(schedule[i]);
        assert schedule[..i + 1][..i] == schedule[..i];
        i := i + 1;
      }
      assert schedule[..|schedule|] == schedule;
      WorkOutcome(s0, schedule);
    }
  }
}
