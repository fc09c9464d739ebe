/**
 * The per-trip intersection queue: `put` replaces a trip's queue wholesale,
 * `getNextIntersections` polls up to `n` items off its front, and `remove`
 * drops the trip's entry.
 */
module IntersectionCache {
  import opened Domain

  /**
   * How many items a poll loop of `n` rounds takes from `q`: never more
   * than either bound, and the loop stops only on one of them.
   */
  function BatchCount<T>(q: seq<T>, n: int): (k: nat)
    ensures k <= |q|
    ensures n <= 0 ==> k == 0
    ensures n > 0 ==> k <= n && (k == n || k == |q|)
  {
    if n <= 0 then 0 else if n < |q| then n else |q|
  }

  /** The batch a request of size `n` returns from queue `q`. */
  function NextBatch<T>(q: seq<T>, n: int): seq<T>
  {
    q[..BatchCount(q, n)]
  }

  /** What remains of queue `q` after a request of size `n`. */
  function AfterBatch<T>(q: seq<T>, n: int): seq<T>
  {
    q[BatchCount(q, n)..]
  }

  /**
   * One poll splits the queue: the batch is a prefix of the requested size
   * (or the whole queue when it is shorter) and the rest stays queued.
   */
  lemma PollSplitsQueue<T>(q: seq<T>, n: int)
    ensures NextBatch(q, n) + AfterBatch(q, n) == q
    ensures n > 0 ==> |NextBatch(q, n)| == (if n <= |q| then n else |q|)
    ensures n <= 0 ==> NextBatch(q, n) == [] && AfterBatch(q, n) == q
  {
    assert q[..BatchCount(q, n)] + q[BatchCount(q, n)..] == q;
  }

  /** The batches returned by successive requests of the given sizes. */
  function Batches<T>(q: seq<T>, sizes: seq<int>): (bs: seq<seq<T>>)
    decreases |sizes|
  {
    if sizes == [] then [] else [NextBatch(q, sizes[0])] + Batches(AfterBatch(q, sizes[0]), sizes[1..])
  }

  /** The queue left after successive requests of the given sizes. */
  function Leftover<T>(q: seq<T>, sizes: seq<int>): seq<T>
    decreases |sizes|
  {
    if sizes == [] then q else Leftover(AfterBatch(q, sizes[0]), sizes[1..])
  }

  /** The batches laid end to end. */
  function Flatten<T>(bs: seq<seq<T>>): seq<T>
    decreases |bs|
  {
    if bs == [] then [] else bs[0] + Flatten(bs[1..])
  }

  /** The most items requests of the given sizes can take; a size of zero or less takes none. */
  function Capacity(sizes: seq<int>): nat
    decreases |sizes|
  {
    if sizes == [] then 0 else (if sizes[0] > 0 then sizes[0] else 0) + Capacity(sizes[1..])
  }

  /**
   * Whatever the batch sizes, the batches handed out followed by what is
   * left are exactly the queue that was put: nothing is duplicated, lost or
   * reordered.
   */
  lemma {:induction false} DrainPreservesOrder<T>(q: seq<T>, sizes: seq<int>)
    ensures Flatten(Batches(q, sizes)) + Leftover(q, sizes) == q
    decreases |sizes|
  {
    if sizes != [] {
      var n := sizes[0];
      DrainPreservesOrder(AfterBatch(q, n), sizes[1..]);
      calc {
        Flatten(Batches(q, sizes)) + Leftover(q, sizes);
        NextBatch(q, n) + Flatten(Batches(AfterBatch(q, n), sizes[1..])) + Leftover(AfterBatch(q, n), sizes[1..]);
        NextBatch(q, n) + AfterBatch(q, n);
        q;
      }
    }
  }

  /** The requests take min(capacity, |q|) items, so enough capacity empties the queue. */
  lemma {:induction false} DrainTakes<T>(q: seq<T>, sizes: seq<int>)
    ensures |Leftover(q, sizes)| == if Capacity(sizes) >= |q| then 0 else |q| - Capacity(sizes)
    decreases |sizes|
  {
    if sizes != [] {
      DrainTakes(AfterBatch(q, sizes[0]), sizes[1..]);
    }
  }

  /** Requests whose sizes add up to at least the queue's length hand out exactly the put list. */
  lemma DrainComplete<T>(q: seq<T>, sizes: seq<int>)
    requires Capacity(sizes) >= |q|
    ensures Leftover(q, sizes) == []
    ensures Flatten(Batches(q, sizes)) == q
  {
    DrainTakes(q, sizes);
    DrainPreservesOrder(q, sizes);
  }

  /** Once the queue is exhausted every further request returns an empty batch. */
  lemma {:induction false} ExhaustedStaysEmpty<T>(q: seq<T>, sizes: seq<int>)
    requires q == []
    ensures Flatten(Batches(q, sizes)) == [] && Leftover(q, sizes) == []
    decreases |sizes|
  {
    if sizes != [] {
      ExhaustedStaysEmpty(AfterBatch(q, sizes[0]), sizes[1..]);
    }
  }

  class IntersectionCacheService {
    var cache: map<string, seq<Intersection>>

    constructor ()
      ensures cache == map[]
    {
      cache := map[];
    }

    /** Replaces the trip's queue with exactly `intersections`; other trips keep theirs. */
    method PutIntersections(tripId: string, intersections: seq<Intersection>)
      modifies this
      ensures cache == old(cache)[tripId := intersections]
    {
      cache := cache[tripId := intersections];
    }

    /**
     * Polls up to `batchSize` items off the trip's queue, in order. An unknown
     * trip gives an empty batch and creates no entry; an exhausted queue stays
     * mapped to the empty queue.
     */
    method GetNextIntersections(tripId: string, batchSize: int) returns (batch: seq<Intersection>)
      modifies this
      ensures tripId !in old(cache) ==> batch == [] && cache == old(cache)
      ensures tripId in old(cache) ==>
        var q := old(cache)[tripId];
        batch == NextBatch(q, batchSize) && cache == old(cache)[tripId := AfterBatch(q, batchSize)]
    {
      if tripId !in cache {
        return [];
      }
      batch := [];
      var i := 0;
      while i < batchSize
        invariant tripId in cache
        invariant 0 <= i == |batch| && (i == 0 || i <= batchSize)
        invariant batch + cache[tripId] == old(cache)[tripId]
        invariant cache == old(cache)[tripId := cache[tripId]]
        decreases batchSize - i
      {
        var queue := cache[tripId];
        if queue == [] {
          break;
        }
        batch := batch + [queue[0]];
        cache := cache[tripId := queue[1..]];
        i := i + 1;
      }
      ghost var q := old(cache)[tripId];
      assert batch == q[..|batch|] && cache[tripId] == q[|batch|..];
    }

    /** Drops the trip's queue; other trips keep theirs. */
    method RemoveIntersections(tripId: string)
      modifies this
      ensures cache == old(cache) - {tripId}
    {
      cache := cache - {tripId};
    }
  }

  /** A client: after a removal, a request for that trip returns nothing. */
  method RemoveThenPoll(c: IntersectionCacheService, tripId: string, n: int) returns (batch: seq<Intersection>)
    modifies c
    ensures batch == [] && c.cache == old(c.cache) - {tripId}
  {
    c.RemoveIntersections(tripId);
    batch := c.GetNextIntersections(tripId, n);
  }
}
