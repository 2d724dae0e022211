/**
 * `CirculQueen<T>`: a ring buffer of `maxSize + 1` slots whose `head` and `tail`
 * indices advance modulo the slot count. One slot always stays free, so that an
 * empty queue (`tail == head`) and a full one (`tail + 1 == head` modulo the slot
 * count) look different.
 */
module CircularQueues {

  /** Advancing an index modulo the slot count wraps only at the last slot. */
  lemma NextIndex(i: nat, m: nat)
    requires i < m
    ensures (i + 1) % m == if i + 1 == m then 0 else i + 1
  {
  }

  /** The distance from `h` forward to `t` modulo `m`. */
  lemma Distance(h: nat, t: nat, m: nat)
    requires h < m && t < m
    ensures (t + m - h) % m == if h <= t then t - h else t + m - h
  {
  }

  class CircularQueue<T(0)> {
    /** The queued items, oldest first. */
    ghost var Contents: seq<T>
    ghost var Repr: set<object>

    /** `_iMaxItem`: the number of slots, one more than the capacity. */
    var maxItem: nat
    /** `_vQueen`. */
    var slots: array<T>
    /** `_Head`: the slot of the oldest item. */
    var head: nat
    /** `_Tail`: the slot the next item goes into. */
    var tail: nat

    ghost predicate Valid()
      reads this, Repr
      ensures Valid() ==> this in Repr
    {
      && this in Repr && slots in Repr
      && 1 <= maxItem && slots.Length == maxItem
      && head < maxItem && tail < maxItem
      && Contents == (if head <= tail then slots[head..tail] else slots[head..] + slots[..tail])
    }

    /** The number of items the queue can hold. */
    ghost function Capacity(): nat
      reads this
      requires 1 <= maxItem
    {
      maxItem - 1
    }

    /** `CirculQueen(size_t maxSize)`. */
    constructor (maxSize: nat)
      ensures Valid() && fresh(Repr)
      ensures Contents == [] && Capacity() == maxSize
      ensures head == 0 && tail == 0
    {
      maxItem := maxSize + 1;
      slots := new T[maxSize + 1];
      head, tail := 0, 0;
      Contents := [];
      Repr := {this, slots};
    }

    /** `getNum`: the number of queued items, never above the capacity. */
    method GetNum() returns (n: nat)
      requires Valid()
      ensures n == |Contents| && n <= Capacity()
    {
      n := (tail + maxItem - head) % maxItem;
      Distance(head, tail, maxItem);
    }

    /** `isFull`: the queue holds as many items as it can. */
    method IsFull() returns (full: bool)
      requires Valid()
      ensures full <==> |Contents| == Capacity()
    {
      full := (tail + 1) % maxItem == head;
      NextIndex(tail, maxItem);
    }

    /** `isEmpty`. */
    method IsEmpty() returns (empty: bool)
      requires Valid()
      ensures empty <==> Contents == []
    {
      empty := tail == head;
    }

    /**
     * `push`: on a full queue, fails and changes nothing; otherwise the item
     * becomes the newest one and the earlier items stay as they were.
     */
    method Push(item: T) returns (ok: bool)
      requires Valid()
      modifies Repr
      ensures Valid() && Repr == old(Repr) && maxItem == old(maxItem)
      ensures ok <==> |old(Contents)| < Capacity()
      ensures ok ==> Contents == old(Contents) + [item]
      ensures !ok ==> Contents == old(Contents) && unchanged(this) && unchanged(slots)
    {
      var full := IsFull();
      if full {
        return false;
      }
      NextIndex(tail, maxItem);
      ghost var before := slots[..];
      slots[tail] := item;
      assert forall k :: 0 <= k < maxItem && k != tail ==> slots[k] == before[k];
      tail := (tail + 1) % maxItem;
      Contents := Contents + [item];
      ok := true;
    }

    /**
     * `front`: the oldest item when there is one. The source reads the head slot
     * without checking, so on an empty queue this yields whatever the slot holds.
     */
    method Front() returns (item: T)
      requires Valid()
      ensures Contents != [] ==> item == Contents[0]
    {
      item := slots[head];
    }

    /** `front_pop`: drops the oldest item. */
    method FrontPop()
      requires Valid() && Contents != []
      modifies this
      ensures Valid() && Repr == old(Repr) && maxItem == old(maxItem) && slots == old(slots)
      ensures Contents == old(Contents)[1..]
    {
      NextIndex(head, maxItem);
      head := (head + 1) % maxItem;
      Contents := Contents[1..];
    }

    /** `pop`: removes the oldest item and returns it. */
    method Pop() returns (item: T)
      requires Valid() && Contents != []
      modifies this
      ensures Valid() && Repr == old(Repr) && maxItem == old(maxItem) && slots == old(slots)
      ensures item == old(Contents)[0] && Contents == old(Contents)[1..]
    {
      item := Front();
      FrontPop();
    }

    /**
     * `setMaxSize`: sets the slot count to `maxSize + 1`. Resizing keeps `head` and
     * `tail`, so it is only meaningful on an empty queue whose indices fit the new
     * size, the state the logger resizes its fresh queue in.
     */
    method SetMaxSize(maxSize: nat)
      requires Valid() && Contents == [] && head <= maxSize
      modifies this
      ensures Valid() && fresh(Repr - old(Repr))
      ensures Contents == [] && Capacity() == maxSize
      ensures head == old(head) && tail == old(tail)
    {
      maxItem := maxSize + 1;
      slots := new T[maxSize + 1];
      Repr := {this, slots};
    }
  }
}
