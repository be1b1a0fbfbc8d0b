/** Pure specification of a partition worker: its counters and the
    duplicate-drop rule of `handleEvent`, the completion decisions of
    `forwardToEventSource`, `handleInterjection` and the async-job branch of
    `work`, and the sizes of its channels. */
module WorkerSpec {
  import opened Types

  /** The `pending`, `processed` and `highestOffset` fields of a worker. */
  datatype Counters = Counters(pending: int, processed: int, highestOffset: int)

  /** A worker's counters when it is created: `highestOffset` starts at -1. */
  const InitialCounters := Counters(0, 0, -1)

  /** `handleEvent` on a live worker: an event below `highestOffset` is a
      duplicate and leaves the counters alone; any other event (an equal
      offset included) is consumed and becomes the new `highestOffset`. */
  function AfterEvent(c: Counters, offset: int): (r: Counters)
    ensures r.highestOffset == Max(c.highestOffset, offset)
    ensures r.processed == c.processed + (if offset < c.highestOffset then 0 else 1)
    ensures r.pending + r.processed == c.pending + c.processed
  {
    if offset < c.highestOffset then c
    else Counters(c.pending - 1, c.processed + 1, offset)
  }

  /** The counters after a live worker has handled events with these offsets,
      in this order. */
  function AfterEvents(c: Counters, offsets: seq<int>): (r: Counters)
    ensures r.highestOffset >= c.highestOffset
    ensures r.processed >= c.processed
    ensures r.pending + r.processed == c.pending + c.processed
    decreases |offsets|
  {
    if offsets == [] then c else AfterEvents(AfterEvent(c, offsets[0]), offsets[1..])
  }

  /** The largest of `h` and the offsets. */
  function MaxFrom(h: int, offsets: seq<int>): int
    decreases |offsets|
  {
    if offsets == [] then h else MaxFrom(Max(h, offsets[0]), offsets[1..])
  }

  /** The offsets a live worker, starting from `highestOffset == h`, hands on to
      the application handler, in the order it handles them. */
  function Forwarded(h: int, offsets: seq<int>): (r: seq<int>)
    ensures |r| <= |offsets|
    decreases |offsets|
  {
    if offsets == [] then []
    else if offsets[0] < h then Forwarded(h, offsets[1..])
    else [offsets[0]] + Forwarded(offsets[0], offsets[1..])
  }

  /** One more event extends the forwarded offsets by its offset exactly when
      that is not below the highest offset seen before it. */
  lemma {:induction false} ForwardedSnoc(h: int, offsets: seq<int>, x: int)
    ensures Forwarded(h, offsets + [x]) == Forwarded(h, offsets) + (if x < MaxFrom(h, offsets) then [] else [x])
    decreases |offsets|
  {
    if offsets == [] {
      assert [x][1..] == [];
    } else {
      assert (offsets + [x])[1..] == offsets[1..] + [x];
      if offsets[0] < h {
        ForwardedSnoc(h, offsets[1..], x);
      } else {
        ForwardedSnoc(offsets[0], offsets[1..], x);
      }
    }
  }

  lemma {:induction false} MaxFromAtLeast(h: int, offsets: seq<int>)
    ensures MaxFrom(h, offsets) >= h
    decreases |offsets|
  {
    if offsets != [] {
      MaxFromAtLeast(Max(h, offsets[0]), offsets[1..]);
    }
  }

  predicate Nondecreasing(s: seq<int>) {
    forall i, j :: 0 <= i < j < |s| ==> s[i] <= s[j]
  }

  /** Handling one more event extends the fold by one step: what the dispatch
      loop relies on. */
  lemma {:induction false} AfterEventsSnoc(c: Counters, offsets: seq<int>, x: int)
    ensures AfterEvents(c, offsets + [x]) == AfterEvent(AfterEvents(c, offsets), x)
    decreases |offsets|
  {
    if offsets == [] {
      assert [x][1..] == [];
    } else {
      assert (offsets + [x])[1..] == offsets[1..] + [x];
      AfterEventsSnoc(AfterEvent(c, offsets[0]), offsets[1..], x);
    }
  }

  /** `highestOffset` ends at the largest of its start value and every offset
      handled: it never decreases, and nothing above it is lost. */
  lemma {:induction false} AfterEventsHighest(c: Counters, offsets: seq<int>)
    ensures AfterEvents(c, offsets).highestOffset == MaxFrom(c.highestOffset, offsets)
    decreases |offsets|
  {
    if offsets != [] {
      AfterEventsHighest(AfterEvent(c, offsets[0]), offsets[1..]);
    }
  }

  /** The `processed` counter grows, and `pending` shrinks, by exactly the
      number of events forwarded to the handler; dropped duplicates count for
      neither. */
  lemma {:induction false} AfterEventsCountsForwarded(c: Counters, offsets: seq<int>)
    ensures AfterEvents(c, offsets).processed == c.processed + |Forwarded(c.highestOffset, offsets)|
    ensures AfterEvents(c, offsets).pending == c.pending - |Forwarded(c.highestOffset, offsets)|
    decreases |offsets|
  {
    if offsets != [] {
      var c' := AfterEvent(c, offsets[0]);
      AfterEventsCountsForwarded(c', offsets[1..]);
      if offsets[0] >= c.highestOffset {
        assert c'.highestOffset == offsets[0];
      }
    }
  }

  /** The tail of a list of offsets in fetch order is in fetch order, and no
      offset in it is below the head. */
  lemma InOrderTail(offsets: seq<int>)
    requires offsets != [] && Nondecreasing(offsets)
    ensures Nondecreasing(offsets[1..])
    ensures forall i :: 0 <= i < |offsets[1..]| ==> offsets[1..][i] >= offsets[0]
  {
    var rest := offsets[1..];
    forall i, j | 0 <= i < j < |rest| ensures rest[i] <= rest[j] {
      assert rest[i] == offsets[i + 1] && rest[j] == offsets[j + 1];
    }
    forall i | 0 <= i < |rest| ensures rest[i] >= offsets[0] {
      assert rest[i] == offsets[i + 1];
    }
  }

  /** No event below the starting `highestOffset` reaches the handler. */
  lemma {:induction false} ForwardedAtLeast(h: int, offsets: seq<int>)
    ensures forall i :: 0 <= i < |Forwarded(h, offsets)| ==> Forwarded(h, offsets)[i] >= h
    decreases |offsets|
  {
    if offsets != [] {
      var rest := offsets[1..];
      if offsets[0] < h {
        ForwardedAtLeast(h, rest);
      } else {
        var g := Forwarded(offsets[0], rest);
        ForwardedAtLeast(offsets[0], rest);
        var f := [offsets[0]] + g;
        assert Forwarded(h, offsets) == f;
        forall i | 0 <= i < |f| ensures f[i] >= h {
          if i > 0 {
            assert f[i] == g[i - 1];
          }
        }
      }
    }
  }

  /** Only events that arrived reach the handler. */
  lemma {:induction false} ForwardedArrived(h: int, offsets: seq<int>)
    ensures forall i :: 0 <= i < |Forwarded(h, offsets)| ==> Forwarded(h, offsets)[i] in offsets
    decreases |offsets|
  {
    if offsets != [] {
      var rest := offsets[1..];
      assert offsets == [offsets[0]] + rest;
      if offsets[0] < h {
        var f := Forwarded(h, rest);
        ForwardedArrived(h, rest);
        forall i | 0 <= i < |f| ensures f[i] in offsets {
          assert f[i] in rest;
        }
      } else {
        var g := Forwarded(offsets[0], rest);
        ForwardedArrived(offsets[0], rest);
        var f := [offsets[0]] + g;
        assert Forwarded(h, offsets) == f;
        forall i | 0 <= i < |f| ensures f[i] in offsets {
          if i > 0 {
            assert f[i] == g[i - 1];
            assert f[i] in rest;
          }
        }
      }
    }
  }

  /** Events reach the handler in nondecreasing offset order. */
  lemma {:induction false} ForwardedNondecreasing(h: int, offsets: seq<int>)
    ensures Nondecreasing(Forwarded(h, offsets))
    decreases |offsets|
  {
    if offsets != [] {
      var rest := offsets[1..];
      if offsets[0] < h {
        ForwardedNondecreasing(h, rest);
      } else {
        var g := Forwarded(offsets[0], rest);
        ForwardedNondecreasing(offsets[0], rest);
        ForwardedAtLeast(offsets[0], rest);
        var f := [offsets[0]] + g;
        assert Forwarded(h, offsets) == f;
        forall i, j | 0 <= i < j < |f| ensures f[i] <= f[j] {
          assert f[j] == g[j - 1];
          if i > 0 {
            assert f[i] == g[i - 1];
          }
        }
      }
    }
  }

  /** Events reach the handler in nondecreasing offset order,
      never below the starting `highestOffset`, and only if they arrived. */
  lemma ForwardedOrdered(h: int, offsets: seq<int>)
    ensures Nondecreasing(Forwarded(h, offsets))
    ensures forall i :: 0 <= i < |Forwarded(h, offsets)| ==> Forwarded(h, offsets)[i] >= h
    ensures forall i :: 0 <= i < |Forwarded(h, offsets)| ==> Forwarded(h, offsets)[i] in offsets
  {
    ForwardedNondecreasing(h, offsets);
    ForwardedAtLeast(h, offsets);
    ForwardedArrived(h, offsets);
  }

  /** A duplicate is dropped: an event below the current `highestOffset` is
      never handed to the handler and changes no counter. */
  lemma {:induction false} DuplicateDropped(c: Counters, offset: int, rest: seq<int>)
    requires offset < c.highestOffset
    ensures AfterEvents(c, [offset] + rest) == AfterEvents(c, rest)
    ensures Forwarded(c.highestOffset, [offset] + rest) == Forwarded(c.highestOffset, rest)
  {
    assert ([offset] + rest)[1..] == rest;
  }

  /** Offsets in fetch order at or above `h` are all forwarded, in order. */
  lemma {:induction false} ForwardedInOrder(h: int, offsets: seq<int>)
    requires Nondecreasing(offsets)
    requires forall i :: 0 <= i < |offsets| ==> offsets[i] >= h
    ensures Forwarded(h, offsets) == offsets
    decreases |offsets|
  {
    if offsets != [] {
      var rest := offsets[1..];
      InOrderTail(offsets);
      ForwardedInOrder(offsets[0], rest);
      assert Forwarded(h, offsets) == [offsets[0]] + Forwarded(offsets[0], rest);
      assert offsets == [offsets[0]] + rest;
    }
  }

  /** After offsets in fetch order at or above the current `highestOffset`,
      `highestOffset` is the last of them. */
  lemma {:induction false} HighestInOrder(c: Counters, offsets: seq<int>)
    requires offsets != [] && Nondecreasing(offsets)
    requires forall i :: 0 <= i < |offsets| ==> offsets[i] >= c.highestOffset
    ensures AfterEvents(c, offsets).highestOffset == offsets[|offsets| - 1]
    decreases |offsets|
  {
    var c' := AfterEvent(c, offsets[0]);
    var rest := offsets[1..];
    assert c'.highestOffset == offsets[0];
    assert AfterEvents(c, offsets) == AfterEvents(c', rest);
    if rest == [] {
      assert AfterEvents(c', rest) == c';
    } else {
      InOrderTail(offsets);
      HighestInOrder(c', rest);
      assert rest[|rest| - 1] == offsets[|offsets| - 1];
    }
  }

  /** Records arriving in fetch order at or above the current `highestOffset`
      are all processed, in that order, and `highestOffset` ends at the largest. */
  lemma InOrderNothingDropped(c: Counters, offsets: seq<int>)
    requires Nondecreasing(offsets)
    requires forall i :: 0 <= i < |offsets| ==> offsets[i] >= c.highestOffset
    ensures Forwarded(c.highestOffset, offsets) == offsets
    ensures AfterEvents(c, offsets).processed == c.processed + |offsets|
    ensures offsets != [] ==> AfterEvents(c, offsets).highestOffset == offsets[|offsets| - 1]
  {
    ForwardedInOrder(c.highestOffset, offsets);
    AfterEventsCountsForwarded(c, offsets);
    if offsets != [] {
      HighestInOrder(c, offsets);
    }
  }

  /** Resume at commit-log position 5 and receive offsets 4, 5, 6, 7: only 4 is
      dropped (the test is strict), so three events are processed. */
  lemma ResumeScenario()
    ensures Forwarded(5, [4, 5, 6, 7]) == [5, 6, 7]
    ensures AfterEvents(Counters(4, 0, 5), [4, 5, 6, 7]) == Counters(1, 3, 7)
  {
  }

  /** Resume at 10 and receive 9, 10, 11: 9 is dropped, 10 and 11 are processed. */
  lemma BoundaryScenario()
    ensures Forwarded(10, [9, 10, 11]) == [10, 11]
    ensures AfterEvents(Counters(3, 0, 10), [9, 10, 11]) == Counters(1, 2, 11)
  {
  }

  /** What the application handler returned for one event. */
  datatype HandlerResult = HandlerResult(state: ExecutionState, failed: bool)

  /** What an async job's finalize function returned. */
  datatype Finalization = Finalization(state: ExecutionState, failed: bool)

  /** Whether the handler (or interjector) runs and whether the context is
      completed, which lets its offset commit. */
  datatype Forward = Forward(invokesHandler: bool, completes: bool)

  /** `forwardToEventSource`: a closed execute gate abandons the event; a
      handler error leaves it uncommitted even with `Complete`. */
  function ForwardDecision(gate: bool, result: HandlerResult): (f: Forward)
    ensures f.invokesHandler <==> gate
    ensures f.completes <==> gate && !result.failed && result.state == Complete
    ensures f.completes ==> f.invokesHandler
  {
    if !gate then Forward(false, false)
    else Forward(true, !result.failed && result.state == Complete)
  }

  /** `handleInterjection`: nothing on a revoked worker; otherwise the
      interjector runs only through an open gate and completes on `Complete`. */
  function InterjectionDecision(revoked: bool, gate: bool, state: ExecutionState): (f: Forward)
    ensures f.invokesHandler <==> !revoked && gate
    ensures f.completes <==> !revoked && gate && state == Complete
  {
    if revoked || !gate then Forward(false, false)
    else Forward(true, state == Complete)
  }

  /** The async-job branch of `work` completes the job's context exactly when
      finalize reports `Complete`; the error finalize returns is ignored. */
  function AsyncJobCompletes(f: Finalization): (b: bool)
    ensures b <==> f.state == Complete
    ensures f.failed && f.state == Complete ==> b
  {
    f.state == Complete
  }

  /** Capacity of `eventInput`: a tenth of the configured maximum batch size
      (Go division), but never below 100. */
  function InputCapacity(maxBatchSize: int): (n: int)
    ensures n >= 100
    ensures n >= GoQuotient(maxBatchSize, 10)
    ensures n == 100 || n == GoQuotient(maxBatchSize, 10)
    ensures n > 100 ==> 10 * n <= maxBatchSize < 10 * n + 10
  {
    Max(GoQuotient(maxBatchSize, 10), 100)
  }

  /** Capacity of the async-job queue: four times the input capacity. */
  function AsyncCapacity(maxBatchSize: int): (n: int)
    ensures n >= 400 && n == 4 * InputCapacity(maxBatchSize)
  {
    4 * InputCapacity(maxBatchSize)
  }

  /** `partitionInput` and `interjectionChannel` each hold one item. */
  const PartitionInputCapacity := 1
  const InterjectionCapacity := 1
}
