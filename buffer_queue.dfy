/**
 * `BufferQueen<T>`: the hand-off between producers and the worker, a
 * `CircularQueue` behind a mutex. In this sequential model the lock is implicit,
 * each blocking wait becomes a precondition (the state it waits for), and the
 * batch dequeue's timed wait is the case where the queue is empty and nothing is
 * taken.
 */
module BufferQueues {
  import opened CircularQueues

  /**
   * The batch dequeue's loop: while the batch is shorter than `batchSize` and the
   * queue is not empty, move the oldest queued item to the end of the batch.
   * Yields the final batch and what is left in the queue.
   */
  function Drain<T>(batch: seq<T>, queue: seq<T>, batchSize: nat): (r: (seq<T>, seq<T>))
    decreases |queue|
  {
    if |batch| < batchSize && queue != [] then Drain(batch + [queue[0]], queue[1..], batchSize)
    else (batch, queue)
  }

  /** How many items `Drain` moves: as many as fit, and no more than are queued. */
  function Taken(batchLength: nat, queueLength: nat, batchSize: nat): (k: nat)
    ensures k <= queueLength
    ensures batchLength >= batchSize ==> k == 0
    ensures batchLength < batchSize ==> batchLength + k <= batchSize
    ensures batchLength < batchSize ==> batchLength + k == batchSize || k == queueLength
  {
    if batchLength >= batchSize then 0
    else if batchSize - batchLength < queueLength then batchSize - batchLength
    else queueLength
  }

  /**
   * `Drain` takes the oldest `Taken(..)` queued items, in order, onto the end of
   * the batch and leaves the rest queued: nothing is lost, duplicated or reordered.
   */
  lemma {:induction false} DrainTakesPrefix<T>(batch: seq<T>, queue: seq<T>, batchSize: nat)
    ensures var k := Taken(|batch|, |queue|, batchSize);
            Drain(batch, queue, batchSize) == (batch + queue[..k], queue[k..])
    decreases |queue|
  {
    if |batch| < batchSize && queue != [] {
      DrainTakesPrefix(batch + [queue[0]], queue[1..], batchSize);
      var k := Taken(|batch|, |queue|, batchSize);
      assert Taken(|batch| + 1, |queue| - 1, batchSize) == k - 1;
      assert batch + [queue[0]] + queue[1..][..k - 1] == batch + queue[..k];
      assert queue[1..][k - 1..] == queue[k..];
    } else {
      assert Taken(|batch|, |queue|, batchSize) == 0;
      assert batch + queue[..0] == batch && queue[0..] == queue;
    }
  }

  /**
   * What the batch dequeue promises its caller: the old batch is kept as a prefix,
   * the batch followed by the queue is the same sequence as before, items are only
   * added while the batch is shorter than `batchSize`, and at the end either the
   * batch has reached `batchSize` or the queue is empty.
   */
  lemma DrainProperties<T>(batch: seq<T>, queue: seq<T>, batchSize: nat)
    ensures var (b, q) := Drain(batch, queue, batchSize);
            && |b| >= |batch| && b[..|batch|] == batch
            && b + q == batch + queue
            && (|b| > |batch| ==> |b| <= batchSize)
            && (|batch| <= batchSize ==> |b| == batchSize || q == [])
            && (|batch| > batchSize ==> b == batch && q == queue)
  {
    DrainTakesPrefix(batch, queue, batchSize);
    var k := Taken(|batch|, |queue|, batchSize);
    assert batch + queue[..k] + queue[k..] == batch + queue;
  }

  class BufferQueue<T(0)> {
    /** `_dataQueen`. */
    const queue: CircularQueue<T>
    ghost var Repr: set<object>

    /** `_iBufferSize`: the capacity of a default-constructed queue. */
    static const DefaultBufferSize: nat := 1024 * 10

    ghost predicate Valid()
      reads this, Repr
      ensures Valid() ==> this in Repr
    {
      && this in Repr && queue in Repr && queue.Repr <= Repr && this !in queue.Repr
      && queue.Valid()
    }

    ghost function Contents(): seq<T>
      reads this, queue
    {
      queue.Contents
    }

    ghost function Capacity(): nat
      reads this, queue
      requires 1 <= queue.maxItem
    {
      queue.Capacity()
    }

    /** `BufferQueen()`. */
    constructor ()
      ensures Valid() && fresh(Repr)
      ensures Contents() == [] && Capacity() == DefaultBufferSize
      ensures queue.head == 0 && queue.tail == 0
    {
      queue := new CircularQueue(DefaultBufferSize);
      new;
      Repr := {this} + queue.Repr;
    }

    /** `BufferQueen(size_t buffer_size)`. */
    constructor WithSize(bufferSize: nat)
      ensures Valid() && fresh(Repr)
      ensures Contents() == [] && Capacity() == bufferSize
      ensures queue.head == 0 && queue.tail == 0
    {
      queue := new CircularQueue(bufferSize);
      new;
      Repr := {this} + queue.Repr;
    }

    /**
     * `enqueen`: waits until the queue is not full, then adds the item as the
     * newest one. The wait is the precondition.
     */
    method Enqueue(item: T)
      requires Valid() && |Contents()| < Capacity()
      modifies Repr
      ensures Valid() && Repr == old(Repr) && Capacity() == old(Capacity())
      ensures Contents() == old(Contents()) + [item]
    {
      var ok := queue.Push(item);
    }

    /**
     * `dequeen(T&)`: waits until the queue is not empty, then removes and returns
     * the oldest item. The wait is the precondition.
     */
    method Dequeue() returns (item: T)
      requires Valid() && Contents() != []
      modifies Repr
      ensures Valid() && Repr == old(Repr) && Capacity() == old(Capacity())
      ensures item == old(Contents())[0] && Contents() == old(Contents())[1..]
    {
      item := queue.Pop();
    }

    /**
     * `dequeen(vector&, batchSize)`: moves queued items, oldest first, onto the
     * end of `batch` while it is shorter than `batchSize` and the queue is not
     * empty. On an empty queue the timed wait ends with nothing taken.
     */
    method DequeueBatch(batch: seq<T>, batchSize: nat) returns (batch': seq<T>)
      requires Valid()
      modifies Repr
      ensures Valid() && Repr == old(Repr) && Capacity() == old(Capacity())
      ensures (batch', Contents()) == Drain(batch, old(Contents()), batchSize)
    {
      batch' := batch;
      var empty := queue.IsEmpty();
      while |batch'| < batchSize && !empty
        invariant Valid() && Repr == old(Repr) && queue.maxItem == old(queue.maxItem)
        invariant empty <==> Contents() == []
        invariant Drain(batch', Contents(), batchSize) == Drain(batch, old(Contents()), batchSize)
        decreases |Contents()|
      {
        var item := queue.Pop();
        batch' := batch' + [item];
        empty := queue.IsEmpty();
      }
    }

    /** `isEmpty`. */
    method IsEmpty() returns (empty: bool)
      requires Valid()
      ensures empty <==> Contents() == []
    {
      empty := queue.IsEmpty();
    }

    /** `resize`: `setMaxSize` on the queue, under the same restriction. */
    method Resize(size: nat)
      requires Valid() && Contents() == [] && queue.head <= size
      modifies Repr
      ensures Valid() && fresh(Repr - old(Repr))
      ensures Contents() == [] && Capacity() == size
    {
      queue.SetMaxSize(size);
      Repr := {this} + queue.Repr;
    }
  }
}
