/**
 Queue cursors that wrap at twice the capacity.

 Both lock-free queues of the source use them: their distance tells full from
 empty, and because two laps are a whole number of laps the storage index stays
 aligned across every wrap, for any capacity.
 */
module TwoLap {
  import opened Common

  /** Forward distance from read to written, as the source computes it. */
  function Distance(capacity: nat, written: nat, read: nat): nat
    requires capacity >= 1 && read <= written + capacity * 2
  {
    (written + capacity * 2 - read) % (capacity * 2)
  }

  function Next(capacity: nat, cursor: nat): nat
    requires capacity >= 1
  {
    (cursor + 1) % (capacity * 2)
  }

  function Slot(capacity: nat, cursor: nat): nat
    requires capacity >= 1
  {
    cursor % capacity
  }

  predicate Cursor(capacity: nat, cursor: nat) {
    capacity >= 1 && cursor < capacity * 2
  }

  lemma DistanceCases(capacity: nat, written: nat, read: nat)
    requires Cursor(capacity, written) && Cursor(capacity, read)
    ensures Distance(capacity, written, read) ==
      if written >= read then written - read else written + capacity * 2 - read
  {
    if written >= read {
      Remainder(written + capacity * 2 - read, 1, written - read, capacity * 2);
    } else {
      Remainder(written + capacity * 2 - read, 0, written + capacity * 2 - read, capacity * 2);
    }
  }

  lemma NextCases(capacity: nat, cursor: nat)
    requires Cursor(capacity, cursor)
    ensures Next(capacity, cursor) == if cursor + 1 == capacity * 2 then 0 else cursor + 1
    ensures Cursor(capacity, Next(capacity, cursor))
  {
    if cursor + 1 == capacity * 2 {
      Remainder(cursor + 1, 1, 0, capacity * 2);
    } else {
      Remainder(cursor + 1, 0, cursor + 1, capacity * 2);
    }
  }

  lemma SlotCases(capacity: nat, cursor: nat)
    requires Cursor(capacity, cursor)
    ensures Slot(capacity, cursor) == if cursor < capacity then cursor else cursor - capacity
    ensures Slot(capacity, cursor) < capacity
  {
    if cursor < capacity {
      Remainder(cursor, 0, cursor, capacity);
    } else {
      Remainder(cursor, 1, cursor - capacity, capacity);
    }
  }

  lemma SlotInRange(capacity: nat, cursor: nat)
    requires capacity >= 1
    ensures Slot(capacity, cursor) < capacity
  {
  }

  /** Storage index of the k-th unread entry. */
  function Index(capacity: nat, read: nat, k: nat): (i: nat)
    requires Cursor(capacity, read) && k < capacity
    ensures i < capacity
  {
    var at := read + k;
    if at < capacity then at else if at < 2 * capacity then at - capacity else at - 2 * capacity
  }

  /** A queue is never over-full. */
  predicate Valid<T>(slots: seq<T>, written: nat, read: nat) {
    && Cursor(|slots|, written) && Cursor(|slots|, read)
    && Distance(|slots|, written, read) <= |slots|
  }

  /** The unread entries, oldest first. */
  function Contents<T>(slots: seq<T>, written: nat, read: nat): (r: seq<T>)
    requires Valid(slots, written, read)
    ensures |r| == Distance(|slots|, written, read)
  {
    seq(Distance(|slots|, written, read),
        k requires 0 <= k < Distance(|slots|, written, read) => slots[Index(|slots|, read, k)])
  }

  /** A producer's slot is never one a consumer may read, until it is published. */
  lemma OwnedSlotIsUnread<T>(slots: seq<T>, written: nat, read: nat, k: nat)
    requires Valid(slots, written, read) && k < Distance(|slots|, written, read) < |slots|
    ensures Slot(|slots|, written) < |slots| && Index(|slots|, read, k) != Slot(|slots|, written)
  {
    DistanceCases(|slots|, written, read);
    SlotCases(|slots|, written);
  }

  /** Writing the owned slot changes nothing readable. */
  lemma WriteIsInvisible<T>(slots: seq<T>, written: nat, read: nat, x: T)
    requires Valid(slots, written, read) && Distance(|slots|, written, read) < |slots|
    ensures Slot(|slots|, written) < |slots|
    ensures Valid(slots[Slot(|slots|, written) := x], written, read)
    ensures Contents(slots[Slot(|slots|, written) := x], written, read) == Contents(slots, written, read)
  {
    SlotCases(|slots|, written);
    forall k | 0 <= k < Distance(|slots|, written, read)
      ensures Index(|slots|, read, k) != Slot(|slots|, written)
    {
      OwnedSlotIsUnread(slots, written, read, k);
    }
  }

  /** Advancing the written cursor publishes exactly the owned slot. */
  lemma PublishAppends<T>(slots: seq<T>, written: nat, read: nat)
    requires Valid(slots, written, read) && Distance(|slots|, written, read) < |slots|
    ensures Slot(|slots|, written) < |slots|
    ensures Valid(slots, Next(|slots|, written), read)
    ensures Contents(slots, Next(|slots|, written), read)
         == Contents(slots, written, read) + [slots[Slot(|slots|, written)]]
  {
    DistanceCases(|slots|, written, read);
    NextCases(|slots|, written);
    DistanceCases(|slots|, Next(|slots|, written), read);
    SlotCases(|slots|, written);
  }

  /** Advancing the read cursor releases exactly the oldest entry. */
  lemma ReleaseRemoves<T>(slots: seq<T>, written: nat, read: nat)
    requires Valid(slots, written, read) && written != read
    ensures Slot(|slots|, read) < |slots|
    ensures Contents(slots, written, read) != [] && slots[Slot(|slots|, read)] == Contents(slots, written, read)[0]
    ensures Valid(slots, written, Next(|slots|, read))
    ensures Contents(slots, written, Next(|slots|, read)) == Contents(slots, written, read)[1..]
  {
    DistanceCases(|slots|, written, read);
    NextCases(|slots|, read);
    DistanceCases(|slots|, written, Next(|slots|, read));
    SlotCases(|slots|, read);
  }

  /** Equal cursors mean empty, and only they do; a full queue is capacity apart. */
  lemma EmptyIffEqual<T>(slots: seq<T>, written: nat, read: nat)
    requires Valid(slots, written, read)
    ensures Contents(slots, written, read) == [] <==> written == read
  {
    DistanceCases(|slots|, written, read);
  }
}
