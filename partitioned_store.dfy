/** The per-partition state-store registry (`partitionedChangeLog`) and the
    wrapper it keeps for each store (`changeLogPartition`). Each operation is
    modelled as one atomic step; all but `Len` hold the registry's mutex. */
module PartitionedStore {
  import opened Types

  /** The untyped copy of a partition's store and changelog topic that event
      contexts carry. */
  datatype ChangeLogData<S> = ChangeLogData(store: S, topic: string)

  /** One partition's state store. `revokedCalls` counts how often the
      application store's `Revoked()` hook has run. */
  class ChangeLogPartition<S> {
    const store: S
    const topic: string
    /** The partition the store was built for. */
    ghost const partition: int32
    var revokedCalls: nat

    constructor (store: S, topic: string, ghost partition: int32)
      ensures this.store == store && this.topic == topic && this.partition == partition
      ensures revokedCalls == 0
    {
      this.store := store;
      this.topic := topic;
      this.partition := partition;
      revokedCalls := 0;
    }

    /** A fresh value carrying this partition's store and topic. */
    function ToChangeLogData(): (d: ChangeLogData<S>)
      ensures d.store == store && d.topic == topic
    {
      ChangeLogData(store, topic)
    }

    /** Finalises the store: its `Revoked()` hook runs once, then `release`,
        which does nothing. */
    method RevokedInternal()
      modifies this`revokedCalls
      ensures revokedCalls == old(revokedCalls) + 1
    {
      revokedCalls := revokedCalls + 1;
    }
  }

  /** Map from partition id to that partition's store, built on demand by a
      caller-supplied factory. */
  class PartitionedChangeLog<S> {
    var data: map<int32, ChangeLogPartition<S>>
    const factory: TopicPartition -> S
    const changeLogTopic: string
    /** The arguments of every factory call, in order. */
    ghost var factoryCalls: seq<TopicPartition>

    /** Every live store was built by the factory for its own partition and
        the changelog topic, and has not been finalised; so no store serves
        two partitions. */
    ghost predicate Valid()
      reads this, data.Values
    {
      forall p :: p in data ==> BuiltFor(data[p], p) && data[p].revokedCalls == 0
    }

    /** `cp` holds the store the factory builds for `partition` of the
        changelog topic. */
    ghost predicate BuiltFor(cp: ChangeLogPartition<S>, partition: int32) {
      && cp.partition == partition && cp.topic == changeLogTopic
      && cp.store == factory(TopicPartition(partition, changeLogTopic))
    }

    /** The store object of `partition`, if any: what `Revoke` may change. */
    ghost function StoreOf(partition: int32): set<object>
      reads this
    {
      if partition in data then {data[partition]} else {}
    }

    constructor (factory: TopicPartition -> S, changeLogTopic: string)
      ensures Valid()
      ensures data == map[] && factoryCalls == []
      ensures this.factory == factory && this.changeLogTopic == changeLogTopic
    {
      this.factory := factory;
      this.changeLogTopic := changeLogTopic;
      data := map[];
      factoryCalls := [];
    }

    /** Number of partitions that currently have a store. */
    function Len(): (n: nat)
      reads this
      ensures n == |data.Keys|
      ensures n == 0 <==> data == map[]
    {
      |data|
    }

    /** Looks a partition's store up; nil and not ok when it has none. */
    method GetStore(partition: int32) returns (sp: ChangeLogPartition?<S>, ok: bool)
      ensures ok <==> partition in data
      ensures ok ==> sp == data[partition]
      ensures !ok ==> sp == null
    {
      ok := partition in data;
      if ok {
        sp := data[partition];
      } else {
        sp := null;
      }
    }

    /** Returns the partition's store, creating it through the factory only
        when the partition has none yet. */
    method Assign(partition: int32) returns (sp: ChangeLogPartition<S>)
      requires Valid()
      modifies this
      ensures Valid()
      ensures partition in data && sp == data[partition]
      ensures partition in old(data) ==>
                && data == old(data) && sp == old(data)[partition]
                && factoryCalls == old(factoryCalls)
      ensures partition !in old(data) ==>
                && fresh(sp) && data == old(data)[partition := sp]
                && sp.store == factory(TopicPartition(partition, changeLogTopic))
                && sp.topic == changeLogTopic && sp.revokedCalls == 0
                && factoryCalls == old(factoryCalls) + [TopicPartition(partition, changeLogTopic)]
      ensures Len() == old(Len()) + (if partition in old(data) then 0 else 1)
    {
      if partition in data {
        sp := data[partition];
      } else {
        var tp := TopicPartition(partition, changeLogTopic);
        factoryCalls := factoryCalls + [tp];
        sp := new ChangeLogPartition(factory(tp), changeLogTopic, partition);
        data := data[partition := sp];
      }
    }

    /** Removes the partition's store and finalises it; does nothing when the
        partition has no store. */
    method Revoke(partition: int32)
      requires Valid()
      modifies this, StoreOf(partition)
      ensures Valid()
      ensures data == old(data) - {partition}
      ensures factoryCalls == old(factoryCalls)
      ensures partition in old(data) ==> old(data)[partition].revokedCalls == 1
      ensures Len() == old(Len()) - (if partition in old(data) then 1 else 0)
    {
      if partition in data {
        var store := data[partition];
        data := data - {partition};
        store.RevokedInternal();
      }
    }
  }

  /** The factory calls made by assigning `partitions` in order to a registry
      that already holds stores for `existing`: one per partition without a
      store, at its first listing. */
  function StoresCreated(existing: set<int32>, partitions: seq<int32>, topic: string): (r: seq<TopicPartition>)
    ensures |r| <= |partitions|
    decreases |partitions|
  {
    if partitions == [] then []
    else
      var init, p := partitions[..|partitions| - 1], partitions[|partitions| - 1];
      StoresCreated(existing, init, topic) + (if p in existing || p in init then [] else [TopicPartition(p, topic)])
  }

  /** Assigning one more listed partition adds its factory call only when it
      has no store yet and was not listed before. */
  lemma StoresCreatedStep(existing: set<int32>, partitions: seq<int32>, i: nat, topic: string)
    requires i < |partitions|
    ensures StoresCreated(existing, partitions[..i + 1], topic) ==
              StoresCreated(existing, partitions[..i], topic)
                + (if partitions[i] in existing || partitions[i] in partitions[..i] then [] else [TopicPartition(partitions[i], topic)])
  {
    assert partitions[..i + 1][..i] == partitions[..i];
  }

  /** The first `n` listed partitions have been assigned to a registry that
      held the stores `d0` and had made the factory calls `fc0`, giving the
      stores `data` and the calls `calls`: exactly those partitions were
      added, existing stores were kept, and the factory ran once for each
      partition that was new. */
  ghost predicate AssignedThrough<T>(data: map<int32, T>, calls: seq<TopicPartition>,
                                     d0: map<int32, T>, fc0: seq<TopicPartition>,
                                     partitions: seq<int32>, n: nat, topic: string)
    requires n <= |partitions|
  {
    && (forall p :: p in data <==> p in d0 || p in partitions[..n])
    && (forall p :: p in d0 ==> data[p] == d0[p])
    && calls == fc0 + StoresCreated(d0.Keys, partitions[..n], topic)
  }

  /** One more `Assign`, as its contract describes it, extends
      `AssignedThrough` by one partition. */
  lemma AssignedThroughStep<T>(data: map<int32, T>, calls: seq<TopicPartition>,
                               data': map<int32, T>, calls': seq<TopicPartition>, store: T,
                               d0: map<int32, T>, fc0: seq<TopicPartition>,
                               partitions: seq<int32>, n: nat, topic: string)
    requires n < |partitions| && AssignedThrough(data, calls, d0, fc0, partitions, n, topic)
    requires partitions[n] in data ==> data' == data && calls' == calls
    requires partitions[n] !in data ==>
               data' == data[partitions[n] := store] && calls' == calls + [TopicPartition(partitions[n], topic)]
    ensures AssignedThrough(data', calls', d0, fc0, partitions, n + 1, topic)
  {
    StoresCreatedStep(d0.Keys, partitions, n, topic);
    assert partitions[..n + 1] == partitions[..n] + [partitions[n]];
  }

  /** No two entries name the same partition. */
  ghost predicate DistinctPartitions(r: seq<TopicPartition>) {
    forall i, j :: 0 <= i < j < |r| ==> r[i].partition != r[j].partition
  }

  /** Assigning a list makes exactly one factory call for each listed
      partition that had no store, and none for any other. */
  lemma {:induction false} StoresCreatedExactly(existing: set<int32>, partitions: seq<int32>, topic: string)
    ensures forall tp :: tp in StoresCreated(existing, partitions, topic) <==>
              tp.partition in partitions && tp.partition !in existing && tp.topic == topic
    ensures DistinctPartitions(StoresCreated(existing, partitions, topic))
    decreases |partitions|
  {
    if partitions != [] {
      var init, p := partitions[..|partitions| - 1], partitions[|partitions| - 1];
      StoresCreatedExactly(existing, init, topic);
      assert partitions == init + [p];
      assert forall q :: q in partitions <==> q in init || q == p;
      var r0, r := StoresCreated(existing, init, topic), StoresCreated(existing, partitions, topic);
      if p in existing || p in init {
        assert r == r0;
      } else {
        assert r == r0 + [TopicPartition(p, topic)];
        assert forall i :: 0 <= i < |r0| ==> r0[i] in r0 && r0[i].partition != p;
      }
    }
  }
}
