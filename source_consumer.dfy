/** The group coordinator (`eventSourceConsumer`): it turns the consumer
    group's assign and revoke callbacks into store and worker lifecycles, keeps
    the partitions prepared ahead of an incremental rebalance, hands fetched
    batches to workers, schedules one-off interjections, and picks the starting
    offsets of newly assigned partitions from the commit log. Each operation is
    modelled as one atomic step, although `assignPartitions` assigns stores
    before it locks and `receive` and `interject` lock only for the lookup. */
module SourceConsumer {
  import opened Types
  import opened WorkerSpec
  import opened PartitionedStore
  import opened Workers

  /** A consumer start position as the Kafka client represents it. */
  datatype Offset = Offset(at: int, relative: int, epoch: int, currentEpoch: int)

  /** `kgo.NewOffset().At(at)`: start exactly at `at`. */
  function ExactOffset(at: int): (o: Offset)
    ensures o.at == at && o.relative == 0 && o.epoch == -1
  {
    Offset(at, 0, -1, 0)
  }

  /** Proposed start offsets per topic and partition. */
  type Assignments = map<string, map<int32, Offset>>

  /** The start offset of one partition after adjustment: the commit log's
      watermark itself when it is positive, the proposal otherwise. */
  function AdjustedOffset(proposed: Offset, watermark: int): (o: Offset)
    ensures watermark > 0 ==> o.at == watermark && o.relative == 0 && o.epoch == -1
    ensures watermark <= 0 ==> o == proposed
  {
    if watermark > 0 then ExactOffset(watermark) else proposed
  }

  /** `adjustOffsetsBeforeAssign`: every partition whose commit-log watermark is
      positive starts at that watermark; the others keep their proposed
      offset. No topic or partition is added or removed, and it never fails.
      The commit log's `Watermark` is the function `watermark`. */
  method AdjustOffsetsBeforeAssign(assignments: Assignments, watermark: TopicPartition -> int)
    returns (adjusted: Assignments, err: Option<string>)
    ensures err == None
    ensures adjusted.Keys == assignments.Keys
    ensures forall t :: t in adjusted ==> adjusted[t].Keys == assignments[t].Keys
    ensures forall t, p :: t in assignments && p in assignments[t] ==>
              adjusted[t][p] == AdjustedOffset(assignments[t][p], watermark(TopicPartition(p, t)))
  {
    adjusted := assignments;
    var topics := assignments.Keys;
    while topics != {}
      invariant topics <= assignments.Keys
      invariant adjusted.Keys == assignments.Keys
      invariant forall t :: t in adjusted ==> adjusted[t].Keys == assignments[t].Keys
      invariant forall t :: t in topics ==> adjusted[t] == assignments[t]
      invariant forall t, p :: t in assignments && t !in topics && p in assignments[t] ==>
                  adjusted[t][p] == AdjustedOffset(assignments[t][p], watermark(TopicPartition(p, t)))
      decreases topics
    {
      var topic :| topic in topics;
      var partitionAssignments := adjusted[topic];
      var partitions := partitionAssignments.Keys;
      while partitions != {}
        invariant partitions <= assignments[topic].Keys
        invariant partitionAssignments.Keys == assignments[topic].Keys
        invariant forall p :: p in partitions ==> partitionAssignments[p] == assignments[topic][p]
        invariant forall p :: p in assignments[topic] && p !in partitions ==>
                    partitionAssignments[p] == AdjustedOffset(assignments[topic][p], watermark(TopicPartition(p, topic)))
        decreases partitions
      {
        var p :| p in partitions;
        var offset := watermark(TopicPartition(p, topic));
        if offset > 0 {
          partitionAssignments := partitionAssignments[p := ExactOffset(offset)];
        }
        partitions := partitions - {p};
      }
      adjusted := adjusted[topic := partitionAssignments];
      topics := topics - {topic};
    }
    err := None;
  }

  /** The partitions of `partitions`, in order, that have no worker in
      `withWorker`. */
  function Unassigned(partitions: seq<int32>, withWorker: set<int32>): (r: seq<int32>)
    ensures forall p :: p in r <==> p in partitions && p !in withWorker
    ensures |r| <= |partitions|
    decreases |partitions|
  {
    if partitions == [] then []
    else
      var last := partitions[|partitions| - 1];
      var init := partitions[..|partitions| - 1];
      assert partitions == init + [last];
      Unassigned(init, withWorker) + (if last in withWorker then [] else [last])
  }

  /** The `validPartitions` loop of `assignPartitions`: the unprepped
      partitions that still have no worker. */
  method SelectUnassigned(unprepped: seq<int32>, withWorker: set<int32>) returns (valid: seq<int32>)
    ensures valid == Unassigned(unprepped, withWorker)
  {
    valid := [];
    var i := 0;
    while i < |unprepped|
      invariant 0 <= i <= |unprepped|
      invariant valid == Unassigned(unprepped[..i], withWorker)
    {
      assert unprepped[..i + 1][..i] == unprepped[..i];
      assert Unassigned(unprepped[..i + 1], withWorker) ==
             Unassigned(unprepped[..i], withWorker) + (if unprepped[i] in withWorker then [] else [unprepped[i]]);
      if unprepped[i] !in withWorker {
        valid := valid + [unprepped[i]];
      }
      i := i + 1;
    }
    assert unprepped[..i] == unprepped;
  }

  /** The partitions of a list, as a set. */
  function Elems(s: seq<int32>): set<int32> {
    set p | p in s
  }

  /** A partition prepared ahead of an incremental rebalance. */
  datatype PartitionPrepper = PartitionPrepper(topicPartition: TopicPartition)

  /** How the second loop of `assignPartitions` splits a partition list: the
      partitions whose prepper it activates, in order, and the others. */
  datatype Activation = Activation(activated: seq<int32>, unprepped: seq<int32>)

  /** The split when the partitions in `prepped` are being prepared: a listed
      partition is activated when it is being prepared and was not activated
      earlier in the list (activation deletes its prepper). */
  function ActivationOf(prepped: set<int32>, partitions: seq<int32>): (r: Activation)
    ensures |r.activated| + |r.unprepped| == |partitions|
    decreases |partitions|
  {
    if partitions == [] then Activation([], [])
    else
      var r0 := ActivationOf(prepped, partitions[..|partitions| - 1]);
      var p := partitions[|partitions| - 1];
      if p in prepped && p !in r0.activated then Activation(r0.activated + [p], r0.unprepped)
      else Activation(r0.activated, r0.unprepped + [p])
  }

  predicate Distinct(s: seq<int32>) {
    forall i, j :: 0 <= i < j < |s| ==> s[i] != s[j]
  }

  /** Exactly the listed partitions that are being prepared are activated, each
      once; every other listed partition is left unprepped, and nothing
      unlisted appears. */
  lemma {:induction false} ActivationOfSplits(prepped: set<int32>, partitions: seq<int32>)
    ensures var r := ActivationOf(prepped, partitions);
            && (forall p :: p in r.activated <==> p in partitions && p in prepped)
            && Distinct(r.activated)
            && (forall p :: p in r.unprepped ==> p in partitions)
            && (forall p :: p in partitions && p !in prepped ==> p in r.unprepped)
    decreases |partitions|
  {
    if partitions != [] {
      var init := partitions[..|partitions| - 1];
      var last := partitions[|partitions| - 1];
      ActivationOfSplits(prepped, init);
      assert partitions == init + [last];
      var r0 := ActivationOf(prepped, init);
      if last in prepped && last !in r0.activated {
        var a := r0.activated + [last];
        forall i, j | 0 <= i < j < |a| ensures a[i] != a[j] {
          if j == |a| - 1 {
            assert a[i] in r0.activated;
          }
        }
      }
    }
  }

  /** The changelog replay of `assignPartitions` covers exactly the listed
      partitions that were neither being prepared nor already served by a
      worker. */
  lemma ReplayBatchExact(prepped: set<int32>, withWorker: set<int32>, partitions: seq<int32>)
    ensures var act := ActivationOf(prepped, partitions);
            forall p :: p in Unassigned(act.unprepped, withWorker + Elems(act.activated)) <==>
                          p in partitions && p !in prepped && p !in withWorker
  {
    ActivationOfSplits(prepped, partitions);
  }

  /** `m` is what is left of `m0` once the first `n` listed partitions have
      been deleted from it one by one. */
  predicate RemovedSoFar<V(==)>(m: map<int32, V>, m0: map<int32, V>, partitions: seq<int32>, n: nat)
    requires n <= |partitions|
  {
    && (forall j :: 0 <= j < n ==> partitions[j] !in m)
    && (forall p :: p in m ==> p in m0 && m[p] == m0[p])
    && (forall p :: p in m0 && p !in m ==> p in partitions)
  }

  /** Deleting the next listed partition extends the prefix by one. */
  lemma RemovedStep<V>(m: map<int32, V>, m0: map<int32, V>, partitions: seq<int32>, n: nat)
    requires n < |partitions| && RemovedSoFar(m, m0, partitions, n)
    ensures RemovedSoFar(m - {partitions[n]}, m0, partitions, n + 1)
  {
  }

  /** After every listed partition has been deleted, exactly the unlisted
      ones remain, unchanged. */
  lemma RemovedAll<V>(m: map<int32, V>, m0: map<int32, V>, partitions: seq<int32>)
    requires RemovedSoFar(m, m0, partitions, |partitions|)
    ensures forall p :: p in m <==> p in m0 && p !in partitions
    ensures forall p :: p in m ==> m[p] == m0[p]
  {
  }

  datatype LeaveMode = StopNow | LeaveGracefully

  /** `leave`: the consumer waits for the group to be vacated gracefully only
      when it has an incremental balancer and the group's current protocol is
      the incremental cooperative one (the protocol is only asked about when
      the balancer exists); otherwise it stops at once. */
  function LeaveDecision(hasIncrementalBalancer: bool, protocolIsIncremental: bool): (m: LeaveMode)
    ensures m == LeaveGracefully <==> hasIncrementalBalancer && protocolIsIncremental
    ensures !hasIncrementalBalancer ==> m == StopNow
  {
    if !hasIncrementalBalancer || !protocolIsIncremental then StopNow else LeaveGracefully
  }

  class EventSourceConsumer<S> {
    /** The partitioned store, created with the consumer. */
    const registry: PartitionedChangeLog<S>
    var workers: map<int32, PartitionWorker<S>>
    var prepping: map<int32, PartitionPrepper>
    /** The configured maximum batch size, which sizes new workers' channels. */
    const maxBatchSize: int
    /** Partitions whose prepper was activated, in order. */
    ghost var prepperActivations: seq<int32>
    /** Partitions whose prepper was cancelled, in order. */
    ghost var prepperCancels: seq<int32>
    /** The partition lists of the changelog replays started, in order. */
    ghost var replayBatches: seq<seq<int32>>
    /** Callbacks `interject` fired itself, in order. */
    ghost var callbacksFired: seq<CallbackId>

    /** The store registry is consistent, every worker is a live worker of its
        own partition, and every worker is bound to the store the registry holds for its partition. */
    ghost predicate Valid()
      reads this, registry, registry.data.Values, workers.Values
    {
      registry.Valid() && WorkersLive() && WorkersBound()
    }

    /** Each worker is live and serves its own partition, so no worker serves
        two partitions. */
    ghost predicate WorkersLive()
      reads this, workers.Values
    {
      forall p :: p in workers ==> LiveWorker(workers[p], p)
    }

    static ghost predicate LiveWorker(w: PartitionWorker<S>, p: int32)
      reads w
    {
      w.Valid() && !w.revoked && w.topicPartition.partition == p
    }

    ghost predicate WorkersBound()
      reads this, registry
    {
      forall p :: p in workers ==>
        p in registry.data && workers[p].changeLog == registry.data[p].ToChangeLogData()
    }

    /** The worker of `partition`, if any: what `Receive` and `Interject` may change. */
    ghost function WorkerOf(partition: int32): set<PartitionWorker<S>>
      reads this
    {
      if partition in workers then {workers[partition]} else {}
    }

    constructor (factory: TopicPartition -> S, changeLogTopic: string, maxBatchSize: int)
      ensures Valid() && fresh(registry)
      ensures registry.data == map[]
      ensures registry.factory == factory && registry.changeLogTopic == changeLogTopic
      ensures workers == map[] && prepping == map[] && this.maxBatchSize == maxBatchSize
    {
      registry := new PartitionedChangeLog(factory, changeLogTopic);
      workers := map[];
      prepping := map[];
      this.maxBatchSize := maxBatchSize;
      prepperActivations, prepperCancels := [], [];
      replayBatches, callbacksFired := [], [];
    }

    /** `PrepareTopicPartition`: a partition not yet being prepared gets its
        store and a prepper; one already being prepared is left alone. */
    method PrepareTopicPartition(tp: TopicPartition)
      requires Valid()
      modifies this`prepping, registry
      ensures Valid()
      ensures tp.partition in old(prepping) ==>
                prepping == old(prepping) && registry.data == old(registry.data)
      ensures tp.partition !in old(prepping) ==>
                && prepping == old(prepping)[tp.partition := PartitionPrepper(tp)]
                && (forall p :: p in registry.data <==> p in old(registry.data) || p == tp.partition)
                && (forall p :: p in old(registry.data) ==> registry.data[p] == old(registry.data)[p])
      ensures tp.partition !in old(prepping) && tp.partition !in old(registry.data) ==>
                && fresh(registry.data[tp.partition])
                && registry.factoryCalls == old(registry.factoryCalls) + [TopicPartition(tp.partition, registry.changeLogTopic)]
      ensures tp.partition in old(prepping) || tp.partition in old(registry.data) ==>
                registry.factoryCalls == old(registry.factoryCalls)
    {
      var partition := tp.partition;
      if partition !in prepping {
        AssignStores([partition]);
        prepping := prepping[partition := PartitionPrepper(tp)];
      }
    }

    /** `ForgetPreparedTopicPartition`: a prepper being kept is cancelled and
        dropped; otherwise nothing changes. */
    method ForgetPreparedTopicPartition(tp: TopicPartition)
      requires Valid()
      modifies this`prepping, this`prepperCancels
      ensures Valid()
      ensures prepping == old(prepping) - {tp.partition}
      ensures prepperCancels == old(prepperCancels) + (if tp.partition in old(prepping) then [tp.partition] else [])
    {
      if tp.partition in prepping {
        prepperCancels := prepperCancels + [tp.partition];
        prepping := prepping - {tp.partition};
      }
    }

    /** First loop of `assignPartitions`: every listed partition gets a store;
        stores that exist are kept, and the factory runs once for each listed
        partition that had none. */
    method AssignStores(partitions: seq<int32>)
      requires Valid()
      modifies registry
      ensures Valid()
      ensures forall p :: p in registry.data <==> p in old(registry.data) || p in partitions
      ensures forall p :: p in old(registry.data) ==> registry.data[p] == old(registry.data)[p]
      ensures forall p :: p in registry.data && p !in old(registry.data) ==> fresh(registry.data[p])
      ensures registry.factoryCalls ==
                old(registry.factoryCalls) + StoresCreated(old(registry.data).Keys, partitions, registry.changeLogTopic)
    {
      ghost var d0, fc0 := registry.data, registry.factoryCalls;
      var i := 0;
      while i < |partitions|
        invariant 0 <= i <= |partitions|
        invariant registry.Valid()
        invariant AssignedThrough(registry.data, registry.factoryCalls, d0, fc0, partitions, i, registry.changeLogTopic)
        invariant forall p :: p in registry.data && p !in d0 ==> fresh(registry.data[p])
      {
        ghost var data, calls := registry.data, registry.factoryCalls;
        var store := registry.Assign(partitions[i]);
        AssignedThroughStep(data, calls, registry.data, registry.factoryCalls, store,
                            d0, fc0, partitions, i, registry.changeLogTopic);
        i := i + 1;
      }
      assert partitions[..i] == partitions;
    }

    /** A `newPartitionWorker` for `partition` of `topic`, bound to the store
        the registry holds for it, becomes the partition's worker. */
    method StartWorker(topic: string, partition: int32, waiter: Waiter) returns (w: PartitionWorker<S>)
      requires Valid() && partition in registry.data
      modifies this`workers
      ensures Valid()
      ensures workers == old(workers)[partition := w]
      ensures fresh(w) && w.Initial() && w.waiter == waiter
      ensures w.topicPartition == TopicPartition(partition, topic)
      ensures w.changeLog == registry.data[partition].ToChangeLogData()
      ensures w.inputCapacity == InputCapacity(maxBatchSize) && w.asyncCapacity == AsyncCapacity(maxBatchSize)
    {
      var store, _ := registry.GetStore(partition);
      w := new PartitionWorker(TopicPartition(partition, topic), store.ToChangeLogData(), waiter, maxBatchSize);
      workers := workers[partition := w];
    }

    /** A prepared partition's prepper is deleted and activated, and the
        partition gets a new worker waiting on it, replacing (without
        revoking) any worker it had. */
    method ActivatePrepper(topic: string, partition: int32) returns (w: PartitionWorker<S>)
      requires Valid() && partition in prepping && partition in registry.data
      modifies this`prepping, this`workers, this`prepperActivations
      ensures Valid()
      ensures prepping == old(prepping) - {partition}
      ensures prepperActivations == old(prepperActivations) + [partition]
      ensures workers == old(workers)[partition := w]
      ensures fresh(w) && w.waiter == PrepperActive(partition) && w.topicPartition == TopicPartition(partition, topic)
    {
      prepping := prepping - {partition};
      prepperActivations := prepperActivations + [partition];
      w := StartWorker(topic, partition, PrepperActive(partition));
    }

    /** The first `n` listed partitions have been through the prepper loop
        since the preppers were `p0`, the workers `w0` and the activation log
        `a0`: the split so far is `ActivationOf(p0.Keys, partitions[..n])`, its
        activated partitions lost their preppers and have new workers (in
        `started`) waiting on them, and everything else is as it was. */
    ghost predicate ActivatedSoFar(topic: string, partitions: seq<int32>, n: nat, p0: map<int32, PartitionPrepper>,
                                   w0: map<int32, PartitionWorker<S>>, a0: seq<int32>,
                                   unprepped: seq<int32>, started: set<PartitionWorker<S>>)
      requires n <= |partitions|
      reads this, registry, registry.data.Values, workers.Values
    {
      var act := ActivationOf(p0.Keys, partitions[..n]);
      && Valid()
      && unprepped == act.unprepped
      && prepperActivations == a0 + act.activated
      && (forall p :: p in prepping <==> p in p0 && p !in act.activated)
      && (forall p :: p in prepping ==> prepping[p] == p0[p])
      && (forall p :: p in workers <==> p in w0 || p in act.activated)
      && (forall p :: p in w0 && p !in act.activated ==> workers[p] == w0[p])
      && (forall p :: p in act.activated ==>
            && workers[p] in started
            && workers[p].waiter == PrepperActive(p)
            && workers[p].topicPartition == TopicPartition(p, topic))
    }

    /** One step of the prepper loop, on partition `n` of the list. */
    method ActivateStep(topic: string, partitions: seq<int32>, n: nat, ghost p0: map<int32, PartitionPrepper>,
                        ghost w0: map<int32, PartitionWorker<S>>, ghost a0: seq<int32>,
                        unprepped: seq<int32>, ghost started: set<PartitionWorker<S>>)
      returns (unprepped': seq<int32>, ghost started': set<PartitionWorker<S>>)
      requires n < |partitions| && ActivatedSoFar(topic, partitions, n, p0, w0, a0, unprepped, started)
      requires partitions[n] in registry.data
      modifies this`prepping, this`workers, this`prepperActivations
      ensures ActivatedSoFar(topic, partitions, n + 1, p0, w0, a0, unprepped', started')
      ensures forall w :: w in started' ==> w in started || fresh(w)
    {
      var p := partitions[n];
      assert partitions[..n + 1][..n] == partitions[..n];
      if p in prepping {
        started' := ActivateStepPrepped(topic, partitions, n, p0, w0, a0, unprepped, started);
        unprepped' := unprepped;
      } else {
        ghost var act := ActivationOf(p0.Keys, partitions[..n]);
        assert ActivationOf(p0.Keys, partitions[..n + 1]) == Activation(act.activated, act.unprepped + [p]);
        started' := started;
        unprepped' := unprepped + [p];
      }
    }

    /** The step on a partition that is being prepared. */
    method ActivateStepPrepped(topic: string, partitions: seq<int32>, n: nat, ghost p0: map<int32, PartitionPrepper>,
                               ghost w0: map<int32, PartitionWorker<S>>, ghost a0: seq<int32>,
                               unprepped: seq<int32>, ghost started: set<PartitionWorker<S>>)
      returns (ghost started': set<PartitionWorker<S>>)
      requires n < |partitions| && ActivatedSoFar(topic, partitions, n, p0, w0, a0, unprepped, started)
      requires partitions[n] in registry.data && partitions[n] in prepping
      modifies this`prepping, this`workers, this`prepperActivations
      ensures ActivatedSoFar(topic, partitions, n + 1, p0, w0, a0, unprepped, started')
      ensures forall w :: w in started' ==> w in started || fresh(w)
    {
      var p := partitions[n];
      assert partitions[..n + 1][..n] == partitions[..n];
      ghost var act := ActivationOf(p0.Keys, partitions[..n]);
      assert ActivationOf(p0.Keys, partitions[..n + 1]) == Activation(act.activated + [p], act.unprepped);
      var w := ActivatePrepper(topic, p);
      started' := started + {w};
    }

    /** Second loop of `assignPartitions`: a listed partition with a prepper
        loses the prepper, which is activated, and gets a new worker waiting
        on that prepper, replacing (without revoking) any worker it had. The
        other partitions are returned, in order. */
    method ActivatePrepped(topic: string, partitions: seq<int32>) returns (unprepped: seq<int32>)
      requires Valid()
      requires forall p :: p in partitions ==> p in registry.data
      modifies this`prepping, this`workers, this`prepperActivations
      ensures Valid()
      ensures var act := ActivationOf(old(prepping).Keys, partitions);
              && unprepped == act.unprepped
              && prepperActivations == old(prepperActivations) + act.activated
              && (forall p :: p in prepping <==> p in old(prepping) && p !in act.activated)
              && (forall p :: p in prepping ==> prepping[p] == old(prepping)[p])
              && (forall p :: p in workers <==> p in old(workers) || p in act.activated)
              && (forall p :: p in old(workers) && p !in act.activated ==> workers[p] == old(workers)[p])
              && (forall p :: p in act.activated ==>
                    && fresh(workers[p])
                    && workers[p].waiter == PrepperActive(p)
                    && workers[p].topicPartition == TopicPartition(p, topic))
    {
      ghost var p0, w0, a0 := prepping, workers, prepperActivations;
      // The workers started so far.
      ghost var started: set<PartitionWorker<S>> := {};
      unprepped := [];
      var i := 0;
      while i < |partitions|
        invariant 0 <= i <= |partitions|
        invariant forall w :: w in started ==> fresh(w)
        invariant ActivatedSoFar(topic, partitions, i, p0, w0, a0, unprepped, started)
      {
        unprepped, started := ActivateStep(topic, partitions, i, p0, w0, a0, unprepped, started);
        i := i + 1;
      }
      assert partitions[..i] == partitions;
      ghost var act := ActivationOf(p0.Keys, partitions);
      forall p | p in act.activated ensures fresh(workers[p]) {
        assert workers[p] in started;
      }
    }

    /** The first `n` partitions of `valid` have been handled by the replay
        loop since the workers were `w0`: each has a worker, the old workers
        are kept, and every new worker serves a partition of `valid`, is in
        `started`, waits on the replay of `valid` and serves its own
        partition of `topic`. */
    ghost predicate ReplaySoFar(topic: string, valid: seq<int32>, n: nat, w0: map<int32, PartitionWorker<S>>,
                                started: set<PartitionWorker<S>>)
      requires n <= |valid|
      reads this, registry, registry.data.Values, workers.Values
    {
      && Valid()
      && (forall j :: 0 <= j < n ==> valid[j] in workers)
      && (forall p :: p in w0 ==> p in workers && workers[p] == w0[p])
      && (forall p :: p in workers && p !in w0 ==>
            && p in valid && workers[p] in started
            && workers[p].waiter == ChangeLogReplay(valid, p)
            && workers[p].topicPartition == TopicPartition(p, topic))
    }

    /** One step of the replay loop: partition `n` of `valid` gets a worker
        waiting on the replay unless it already has one. */
    method StartReplayStep(topic: string, valid: seq<int32>, n: nat, ghost w0: map<int32, PartitionWorker<S>>,
                           ghost started: set<PartitionWorker<S>>)
      returns (ghost started': set<PartitionWorker<S>>)
      requires n < |valid| && ReplaySoFar(topic, valid, n, w0, started)
      requires valid[n] in registry.data
      modifies this`workers
      ensures ReplaySoFar(topic, valid, n + 1, w0, started')
      ensures forall w :: w in started' ==> w in started || fresh(w)
    {
      started' := started;
      var partition := valid[n];
      if partition !in workers {
        var w := StartWorker(topic, partition, ChangeLogReplay(valid, partition));
        started' := started + {w};
      }
    }

    /** Last loop of `assignPartitions`: one changelog replay is started for the
        whole list, and each listed partition still without a worker gets one
        whose start-up waits on that replay. */
    method StartReplayWorkers(topic: string, valid: seq<int32>)
      requires Valid()
      requires forall p :: p in valid ==> p in registry.data
      modifies this`workers, this`replayBatches
      ensures Valid()
      ensures replayBatches == old(replayBatches) + [valid]
      ensures forall p :: p in workers <==> p in old(workers) || p in valid
      ensures forall p :: p in old(workers) ==> workers[p] == old(workers)[p]
      ensures forall p :: p in workers && p !in old(workers) ==>
                && fresh(workers[p])
                && workers[p].waiter == ChangeLogReplay(valid, p)
                && workers[p].topicPartition == TopicPartition(p, topic)
    {
      ghost var w0 := workers;
      // The workers started so far.
      ghost var started: set<PartitionWorker<S>> := {};
      var i := 0;
      while i < |valid|
        invariant 0 <= i <= |valid|
        invariant replayBatches == old(replayBatches)
        invariant forall w :: w in started ==> fresh(w)
        invariant ReplaySoFar(topic, valid, i, w0, started)
      {
        started := StartReplayStep(topic, valid, i, w0, started);
        i := i + 1;
      }
      forall p | p in valid ensures p in workers {
        var j :| 0 <= j < |valid| && valid[j] == p;
      }
      replayBatches := replayBatches + [valid];
    }

    /** The `validPartitions` and replay loops of `assignPartitions`, after the
        prepper loop has split `partitions` when the preppers were `p0` and
        the workers `w0`: the replay batch is exactly the listed partitions
        that were neither being prepared nor served by a worker, and each of
        them gets a worker waiting on it. */
    method ReplayUnprepped(topic: string, partitions: seq<int32>, unprepped: seq<int32>,
                           ghost p0: set<int32>, ghost w0: set<int32>)
      requires Valid()
      requires forall p :: p in partitions ==> p in registry.data
      requires var act := ActivationOf(p0, partitions);
               && unprepped == act.unprepped
               && (forall p :: p in workers <==> p in w0 || p in act.activated)
      modifies this`workers, this`replayBatches
      ensures Valid()
      ensures forall p :: p in workers <==> p in old(workers) || (p in partitions && p !in p0 && p !in w0)
      ensures forall p :: p in old(workers) ==> workers[p] == old(workers)[p]
      ensures |replayBatches| == |old(replayBatches)| + 1
      ensures replayBatches[..|old(replayBatches)|] == old(replayBatches)
      ensures forall p :: p in replayBatches[|old(replayBatches)|] <==> p in partitions && p !in p0 && p !in w0
      ensures forall p :: p in workers && p !in old(workers) ==>
                && fresh(workers[p])
                && workers[p].waiter == ChangeLogReplay(replayBatches[|old(replayBatches)|], p)
    {
      ActivationOfSplits(p0, partitions);
      var valid := SelectUnassigned(unprepped, workers.Keys);
      StartReplayWorkers(topic, valid);
    }

    /** The part of `assignPartitions` under the worker and prepper locks,
        once every listed partition has a store. */
    method AssignWorkers(topic: string, partitions: seq<int32>)
      requires Valid()
      requires forall p :: p in partitions ==> p in registry.data
      modifies this`prepping, this`workers, this`prepperActivations, this`replayBatches
      ensures Valid()
      ensures forall p :: p in prepping <==> p in old(prepping) && p !in partitions
      ensures prepperActivations == old(prepperActivations) + ActivationOf(old(prepping).Keys, partitions).activated
      ensures forall p :: p in workers <==> p in old(workers) || p in partitions
      ensures forall p :: p in old(workers) && !(p in partitions && p in old(prepping)) ==>
                workers[p] == old(workers)[p]
      ensures forall p :: p in partitions && p in old(prepping) ==>
                fresh(workers[p]) && workers[p].waiter == PrepperActive(p)
      ensures |replayBatches| == |old(replayBatches)| + 1
      ensures replayBatches[..|old(replayBatches)|] == old(replayBatches)
      ensures forall p :: p in replayBatches[|old(replayBatches)|] <==>
                p in partitions && p !in old(prepping) && p !in old(workers)
      ensures forall p :: p in partitions && p !in old(prepping) && p !in old(workers) ==>
                && fresh(workers[p])
                && workers[p].waiter == ChangeLogReplay(replayBatches[|old(replayBatches)|], p)
    {
      ActivationOfSplits(prepping.Keys, partitions);
      ghost var p0, w0 := prepping.Keys, workers.Keys;
      var unprepped := ActivatePrepped(topic, partitions);
      ReplayUnprepped(topic, partitions, unprepped, p0, w0);
    }

    /** `assignPartitions`: every listed partition ends with a store and a
        worker. A prepared partition gets a new worker waiting on its prepper
        (replacing any it had); an unprepared one keeps its worker, or else
        gets a new worker waiting on the one changelog replay of the batch,
        which covers exactly those partitions. Unlisted partitions keep their
        workers. */
    method AssignPartitions(topic: string, partitions: seq<int32>)
      requires Valid()
      modifies this`prepping, this`workers, this`prepperActivations, this`replayBatches, registry
      ensures Valid()
      ensures forall p :: p in registry.data <==> p in old(registry.data) || p in partitions
      ensures forall p :: p in old(registry.data) ==> registry.data[p] == old(registry.data)[p]
      ensures forall p :: p in registry.data && p !in old(registry.data) ==> fresh(registry.data[p])
      ensures registry.factoryCalls ==
                old(registry.factoryCalls) + StoresCreated(old(registry.data).Keys, partitions, registry.changeLogTopic)
      ensures forall p :: p in prepping <==> p in old(prepping) && p !in partitions
      ensures prepperActivations == old(prepperActivations) + ActivationOf(old(prepping).Keys, partitions).activated
      ensures forall p :: p in workers <==> p in old(workers) || p in partitions
      ensures forall p :: p in old(workers) && !(p in partitions && p in old(prepping)) ==>
                workers[p] == old(workers)[p]
      ensures forall p :: p in partitions && p in old(prepping) ==>
                fresh(workers[p]) && workers[p].waiter == PrepperActive(p)
      ensures |replayBatches| == |old(replayBatches)| + 1
      ensures replayBatches[..|old(replayBatches)|] == old(replayBatches)
      ensures forall p :: p in replayBatches[|old(replayBatches)|] <==>
                p in partitions && p !in old(prepping) && p !in old(workers)
      ensures forall p :: p in partitions && p !in old(prepping) && p !in old(workers) ==>
                && fresh(workers[p])
                && workers[p].waiter == ChangeLogReplay(replayBatches[|old(replayBatches)|], p)
    {
      AssignStores(partitions);
      AssignWorkers(topic, partitions);
    }

    /** A partition's worker is revoked and dropped. */
    method DropWorker(partition: int32)
      requires Valid() && partition in workers
      modifies this`workers, WorkerOf(partition)`revoked
      ensures Valid()
      ensures workers == old(workers) - {partition}
      ensures var w := old(workers)[partition];
                && w.revoked
                && w.Snapshot() == old(w.Snapshot()) && w.Queues() == old(w.Queues())
                && w.Effects() == old(w.Effects())
    {
      var worker := workers[partition];
      workers := workers - {partition};
      assert forall q :: q in workers ==> workers[q] != worker;
      worker.Revoke();
    }

    /** A partition without a worker loses its store, which is finalised. */
    method DropStore(partition: int32)
      requires Valid() && partition !in workers
      modifies registry, registry.StoreOf(partition)
      ensures Valid()
      ensures registry.data == old(registry.data) - {partition}
      ensures registry.factoryCalls == old(registry.factoryCalls)
      ensures partition in old(registry.data) ==> old(registry.data)[partition].revokedCalls == 1
    {
      registry.Revoke(partition);
    }

    /** The first `n` listed partitions have lost their workers since the
        workers were `w0`; those workers are in `halted`, which holds only
        revoked workers, and every other partition keeps its worker. */
    ghost predicate HaltedSoFar(w0: map<int32, PartitionWorker<S>>, partitions: seq<int32>, n: nat,
                                halted: set<PartitionWorker<S>>)
      requires n <= |partitions|
      reads this, halted
    {
      && RemovedSoFar(workers, w0, partitions, n)
      && (forall p :: p in w0 && p !in workers ==> w0[p] in halted)
      && (forall w :: w in halted ==> w.revoked)
    }

    /** The first `n` listed partitions have lost their stores since the stores
        were `d0`; those stores are in `finalised`, which holds only stores
        finalised once, and every other partition keeps its store. */
    ghost predicate FinalisedSoFar(d0: map<int32, ChangeLogPartition<S>>, partitions: seq<int32>, n: nat,
                                   finalised: set<ChangeLogPartition<S>>)
      requires n <= |partitions|
      reads registry, finalised
    {
      && RemovedSoFar(registry.data, d0, partitions, n)
      && (forall p :: p in d0 && p !in registry.data ==> d0[p] in finalised)
      && (forall s :: s in finalised ==> s.revokedCalls == 1)
    }

    /** Both halves of `revokePartitions` have reached partition `n`. */
    ghost predicate RevokedSoFar(w0: map<int32, PartitionWorker<S>>, d0: map<int32, ChangeLogPartition<S>>,
                                 partitions: seq<int32>, n: nat,
                                 halted: set<PartitionWorker<S>>, finalised: set<ChangeLogPartition<S>>)
      requires n <= |partitions|
      reads this, registry, registry.data.Values, workers.Values, halted, finalised
    {
      Valid() && HaltedSoFar(w0, partitions, n, halted) && FinalisedSoFar(d0, partitions, n, finalised)
    }

    /** The worker half of one partition of `revokePartitions`: its worker,
        if any, is revoked and dropped. */
    method HaltStep(ghost w0: map<int32, PartitionWorker<S>>, partitions: seq<int32>, n: nat,
                    ghost halted: set<PartitionWorker<S>>)
      returns (ghost halted': set<PartitionWorker<S>>)
      requires n < |partitions| && Valid() && HaltedSoFar(w0, partitions, n, halted)
      modifies this`workers, WorkerOf(partitions[n])`revoked
      ensures Valid() && HaltedSoFar(w0, partitions, n + 1, halted')
    {
      var partition := partitions[n];
      RemovedStep(workers, w0, partitions, n);
      halted' := halted;
      if partition in workers {
        halted' := halted + {workers[partition]};
        DropWorker(partition);
      } else {
        assert workers - {partition} == workers;
      }
    }

    /** The store half of one partition of `revokePartitions`: its store, if
        any, is removed and finalised. */
    method FinaliseStep(ghost d0: map<int32, ChangeLogPartition<S>>, partitions: seq<int32>, n: nat,
                        ghost finalised: set<ChangeLogPartition<S>>)
      returns (ghost finalised': set<ChangeLogPartition<S>>)
      requires n < |partitions| && Valid() && partitions[n] !in workers
      requires FinalisedSoFar(d0, partitions, n, finalised)
      modifies registry, registry.StoreOf(partitions[n])
      ensures Valid() && FinalisedSoFar(d0, partitions, n + 1, finalised')
      ensures registry.factoryCalls == old(registry.factoryCalls)
    {
      var partition := partitions[n];
      RemovedStep(registry.data, d0, partitions, n);
      finalised' := finalised;
      if partition in registry.data {
        finalised' := finalised + {registry.data[partition]};
      }
      DropStore(partition);
    }

    /** One partition of `revokePartitions`: its worker, if any, is revoked and
        dropped, then its store, if any, is removed and finalised. */
    method RevokeStep(ghost w0: map<int32, PartitionWorker<S>>, ghost d0: map<int32, ChangeLogPartition<S>>,
                      partitions: seq<int32>, n: nat,
                      ghost halted: set<PartitionWorker<S>>, ghost finalised: set<ChangeLogPartition<S>>)
      returns (ghost halted': set<PartitionWorker<S>>, ghost finalised': set<ChangeLogPartition<S>>)
      requires n < |partitions| && RevokedSoFar(w0, d0, partitions, n, halted, finalised)
      modifies this`workers, registry, registry.StoreOf(partitions[n]), WorkerOf(partitions[n])`revoked
      ensures RevokedSoFar(w0, d0, partitions, n + 1, halted', finalised')
      ensures registry.factoryCalls == old(registry.factoryCalls)
    {
      halted' := HaltStep(w0, partitions, n, halted);
      finalised' := FinaliseStep(d0, partitions, n, finalised);
    }

    /** The loop of `revokePartitions`: every listed partition in turn loses
        its worker and its store, touching only the listed workers' run status
        and the listed stores. */
    method RevokeAll(ghost w0: map<int32, PartitionWorker<S>>, ghost d0: map<int32, ChangeLogPartition<S>>,
                     partitions: seq<int32>)
      returns (ghost halted: set<PartitionWorker<S>>, ghost finalised: set<ChangeLogPartition<S>>)
      requires Valid() && workers == w0 && registry.data == d0
      modifies this`workers, registry
      modifies set p | p in partitions && p in d0 :: d0[p]
      modifies (set p | p in partitions && p in w0 :: w0[p])`revoked
      ensures RevokedSoFar(w0, d0, partitions, |partitions|, halted, finalised)
      ensures registry.factoryCalls == old(registry.factoryCalls)
    {
      halted, finalised := {}, {};
      var i := 0;
      while i < |partitions|
        invariant 0 <= i <= |partitions|
        invariant RevokedSoFar(w0, d0, partitions, i, halted, finalised)
        invariant registry.factoryCalls == old(registry.factoryCalls)
      {
        assert WorkerOf(partitions[i]) <= set p | p in partitions && p in w0 :: w0[p];
        assert registry.StoreOf(partitions[i]) <= set p | p in partitions && p in d0 :: d0[p];
        halted, finalised := RevokeStep(w0, d0, partitions, i, halted, finalised);
        i := i + 1;
      }
    }

    /** `revokePartitions`: each listed partition's worker, if any, is revoked
        and dropped, and its store, if any, is removed and finalised exactly
        once, worker or not. Unlisted partitions keep their workers and
        stores, untouched; of a revoked worker only the run status may change
        (the frame says so). */
    method RevokePartitions(topic: string, partitions: seq<int32>)
      requires Valid()
      modifies this`workers, registry
      modifies set p | p in partitions && p in registry.data :: registry.data[p]
      modifies (set p | p in partitions && p in workers :: workers[p])`revoked
      ensures Valid()
      ensures forall p :: p in workers <==> p in old(workers) && p !in partitions
      ensures forall p :: p in workers ==> workers[p] == old(workers)[p] && unchanged(workers[p])
      ensures forall p :: p in registry.data <==> p in old(registry.data) && p !in partitions
      ensures forall p :: p in registry.data ==> registry.data[p] == old(registry.data)[p] && unchanged(registry.data[p])
      ensures forall p :: p in partitions && p in old(workers) ==> old(workers)[p].revoked
      ensures forall p :: p in partitions && p in old(registry.data) ==> old(registry.data)[p].revokedCalls == 1
      ensures registry.factoryCalls == old(registry.factoryCalls)
    {
      ghost var w0, d0 := workers, registry.data;
      ghost var halted, finalised := RevokeAll(w0, d0, partitions);
      RemovedAll(workers, w0, partitions);
      RemovedAll(registry.data, d0, partitions);
    }

    /** `receive`: a non-empty batch for a partition with a worker is handed to
        that worker's `add`; anything else is dropped. */
    method Receive(partition: int32, records: seq<Option<Record>>)
      requires Valid()
      requires partition in workers && records != [] ==>
                 |workers[partition].partitionInput| < PartitionInputCapacity
      modifies WorkerOf(partition)`pending, WorkerOf(partition)`partitionInput
      ensures Valid()
      ensures partition !in workers || records == [] ==> unchanged(WorkerOf(partition))
      ensures partition in workers && records != [] ==>
                var w := workers[partition];
                && w.pending == old(w.pending) + |records|
                && w.partitionInput == old(w.partitionInput) + [records]
                && w.processed == old(w.processed) && w.highestOffset == old(w.highestOffset)
                && w.pumpBatch == old(w.pumpBatch) && w.eventInput == old(w.eventInput)
                && w.interjectionChannel == old(w.interjectionChannel)
                && w.asyncJobs == old(w.asyncJobs) && w.asyncFullReply == old(w.asyncFullReply)
                && w.Effects() == old(w.Effects())
    {
      if partition !in workers || |records| == 0 {
        return;
      }
      var worker := workers[partition];
      worker.Add(records);
    }

    /** `interject`: with no worker for the partition a non-nil callback fires
        at once and nothing is queued; otherwise exactly one one-off
        interjection, running `command` and then the callback, is sent to the
        worker (a send that waits for the single slot to be free). */
    method Interject(partition: int32, command: nat, callback: Option<CallbackId>)
      requires Valid()
      requires partition in workers ==> |workers[partition].interjectionChannel| < InterjectionCapacity
      modifies this`callbacksFired, WorkerOf(partition)`interjectionChannel
      ensures Valid()
      ensures partition !in workers ==>
                callbacksFired == old(callbacksFired) + (if callback.Some? then [callback.value] else [])
      ensures partition in workers ==>
                var w := workers[partition];
                && callbacksFired == old(callbacksFired)
                && w.interjectionChannel == old(w.interjectionChannel) + [Interjection(true, w.topicPartition, command, callback)]
                && w.Snapshot() == old(w.Snapshot())
                && w.partitionInput == old(w.partitionInput) && w.pumpBatch == old(w.pumpBatch)
                && w.eventInput == old(w.eventInput)
                && w.asyncJobs == old(w.asyncJobs) && w.asyncFullReply == old(w.asyncFullReply)
                && w.Effects() == old(w.Effects())
    {
      if partition !in workers {
        if callback.Some? {
          callbacksFired := callbacksFired + [callback.value];
        }
        return;
      }
      var w := workers[partition];
      w.PushInterjection(Interjection(true, w.topicPartition, command, callback));
    }
  }
}
