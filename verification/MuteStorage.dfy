/** The mailbox and the interval history as the two endpoints hold them. */
module MuteStorage {
  import opened Common
  import opened Mute
  import TwoLap

  /** The nonempty part of each span before the accepted end, in order. */
  function Clipped(generation: nat, spans: seq<Span>, end: nat): (r: seq<Interval>)
    ensures |r| <= |spans|
    ensures forall k | 0 <= k < |r| :: Nonempty(r[k]) && r[k].generation == generation && r[k].span.end <= end
    decreases |spans|
  {
    if spans == [] then []
    else
      var last := spans[|spans| - 1];
      var clipped := Interval(generation, Span(last.start, Min(last.end, end)));
      Clipped(generation, spans[..|spans| - 1], end) + if Nonempty(clipped) then [clipped] else []
  }

  predicate Announced(spans: seq<Span>, x: nat) {
    exists k | 0 <= k < |spans| :: spans[k].start <= x < spans[k].end
  }

  /** A batch mutes exactly the announced source samples that its accepted prefix holds. */
  lemma {:induction false} ClippedCovers(generation: nat, spans: seq<Span>, end: nat, g: nat, x: nat)
    ensures Covers(Clipped(generation, spans, end), g, x) <==> g == generation && x < end && Announced(spans, x)
    decreases |spans|
  {
    if spans != [] {
      var last, rest := spans[|spans| - 1], spans[..|spans| - 1];
      ClippedCovers(generation, rest, end, g, x);
      var clipped := Interval(generation, Span(last.start, Min(last.end, end)));
      var more := if Nonempty(clipped) then [clipped] else [];
      assert Clipped(generation, spans, end) == Clipped(generation, rest, end) + more;
      CoversJoin(Clipped(generation, rest, end), more, g, x);
      assert Covers(more, g, x) <==> Holds(clipped, g, x) by {
        if Nonempty(clipped) {
          assert more[0] == clipped;
        }
      }
      AnnouncedLast(spans, x);
    }
  }

  lemma AnnouncedLast(spans: seq<Span>, x: nat)
    requires spans != []
    ensures var last := spans[|spans| - 1];
            Announced(spans, x) <==> last.start <= x < last.end || Announced(spans[..|spans| - 1], x)
  {
    var rest := spans[..|spans| - 1];
    if Announced(rest, x) {
      var k :| 0 <= k < |rest| && rest[k].start <= x < rest[k].end;
      assert spans[k] == rest[k];
    }
    if Announced(spans, x) {
      var k :| 0 <= k < |spans| && spans[k].start <= x < spans[k].end;
      assert k < |rest| ==> rest[k] == spans[k];
    }
  }

  lemma CoversJoin(a: seq<Interval>, b: seq<Interval>, g: nat, x: nat)
    ensures Covers(a + b, g, x) <==> Covers(a, g, x) || Covers(b, g, x)
  {
    if Covers(a, g, x) {
      var k :| 0 <= k < |a| && Holds(a[k], g, x);
      assert Holds((a + b)[k], g, x);
    }
    if Covers(b, g, x) {
      var k :| 0 <= k < |b| && Holds(b[k], g, x);
      assert Holds((a + b)[|a| + k], g, x);
    }
  }

  predicate AllNonempty(records: seq<Interval>) {
    forall k | 0 <= k < |records| :: Nonempty(records[k])
  }

  /** One producer publishes whole batches; one consumer copies before releasing. */
  class Mailbox {
    const slots: array<Interval>
    var written: nat
    var read: nat

    ghost predicate Valid()
      reads this, slots
    {
      && slots.Length == QUEUE && TwoLap.Valid(slots[..], written, read)
      && AllNonempty(TwoLap.Contents(slots[..], written, read))
    }

    /** Published, unread records, oldest first. */
    ghost function Contents(): seq<Interval>
      requires Valid()
      reads this, slots
    {
      TwoLap.Contents(slots[..], written, read)
    }

    constructor ()
      ensures Valid() && Contents() == [] && fresh(slots)
    {
      slots := new Interval[QUEUE](_ => Interval(0, Span(0, 0)));
      written, read := 0, 0;
      new;
      TwoLap.DistanceCases(QUEUE, 0, 0);
    }

    /** Credit the producer may spend without overwriting an unread record. */
    method Free() returns (credit: nat)
      requires Valid()
      ensures credit == QUEUE - |Contents()|
    {
      credit := QUEUE - TwoLap.Distance(QUEUE, written, read);
    }

    /** Nothing is readable until the last store publishes the whole clipped batch. */
    method Publish(generation: nat, spans: seq<Span>, end: nat)
      requires Valid() && |spans| <= QUEUE - |Contents()|
      modifies this`written, slots
      ensures Valid() && Contents() == old(Contents()) + Clipped(generation, spans, end)
    {
      var next := written;
      assert Contents() + Clipped(generation, spans[..0], end) == Contents();
      for i := 0 to |spans|
        invariant written == old(written) && Valid() && Contents() == old(Contents())
        invariant TwoLap.Valid(slots[..], next, read)
        invariant TwoLap.Contents(slots[..], next, read) == old(Contents()) + Clipped(generation, spans[..i], end)
      {
        var clipped := Span(spans[i].start, Min(spans[i].end, end));
        assert spans[..i + 1][..i] == spans[..i];
        assert Clipped(generation, spans[..i + 1], end) == Clipped(generation, spans[..i], end)
            + if Nonempty(Interval(generation, clipped)) then [Interval(generation, clipped)] else [];
        if clipped.start < clipped.end {
          StoreAhead(next, Interval(generation, clipped));
          next := TwoLap.Next(QUEUE, next);
        }
      }
      assert spans[..|spans|] == spans;
      written := next;
    }

    /** Fill the slot at an unpublished cursor; neither queue view changes but the next one. */
    method StoreAhead(next: nat, record: Interval)
      requires Valid() && TwoLap.Valid(slots[..], next, read) && TwoLap.Distance(QUEUE, next, read) < QUEUE
      requires Contents() <= TwoLap.Contents(slots[..], next, read)
      modifies slots
      ensures Valid() && Contents() == old(Contents())
      ensures TwoLap.Valid(slots[..], TwoLap.Next(QUEUE, next), read)
      ensures TwoLap.Contents(slots[..], TwoLap.Next(QUEUE, next), read)
           == old(TwoLap.Contents(slots[..], next, read)) + [record]
    {
      TwoLap.WriteIsInvisible(slots[..], next, read, record);
      ghost var was := slots[..];
      slots[next % QUEUE] := record;
      assert slots[..] == was[TwoLap.Slot(QUEUE, next) := record];
      TwoLap.PublishAppends(slots[..], next, read);
      PrefixKept(was, slots[..], written, next, read);
    }

    lemma PrefixKept(before: seq<Interval>, after: seq<Interval>, near: nat, far: nat, from: nat)
      requires |before| == |after|
      requires TwoLap.Valid(before, near, from) && TwoLap.Valid(before, far, from)
      requires TwoLap.Contents(before, near, from) <= TwoLap.Contents(before, far, from)
      requires TwoLap.Contents(after, far, from) == TwoLap.Contents(before, far, from)
      ensures TwoLap.Valid(after, near, from)
      ensures TwoLap.Contents(after, near, from) == TwoLap.Contents(before, near, from)
    {
      var a, b := TwoLap.Contents(after, near, from), TwoLap.Contents(before, near, from);
      forall k | 0 <= k < |a|
        ensures a[k] == b[k]
      {
        assert b[k] == TwoLap.Contents(before, far, from)[k];
        assert a[k] == TwoLap.Contents(after, far, from)[k];
      }
    }

    method Pop() returns (record: Option<Interval>)
      requires Valid()
      modifies this`read
      ensures Valid()
      ensures old(Contents()) == [] ==> record.None? && Contents() == []
      ensures old(Contents()) != [] ==>
          record == Some(old(Contents())[0]) && Contents() == old(Contents())[1..]
    {
      TwoLap.EmptyIffEqual(slots[..], written, read);
      if read == written {
        return None;
      }
      TwoLap.ReleaseRemoves(slots[..], written, read);
      record := Some(slots[read % QUEUE]);
      read := TwoLap.Next(QUEUE, read);
    }

    /** Discard everything published so far. */
    method Reset()
      requires Valid()
      modifies this`read
      ensures Valid() && Contents() == []
    {
      TwoLap.DistanceCases(QUEUE, written, written);
      read := written;
    }
  }

  /** What the pass will come to: the entries before the index stay, the rest is still to be absorbed. */
  function Passing(list: seq<Interval>, index: nat, merged: Interval): Absorbed
    requires index <= |list|
  {
    var tail := Absorb(list[index..], merged);
    Absorbed(list[..index] + tail.rest, tail.merged)
  }

  lemma PassBegins(list: seq<Interval>, interval: Interval)
    ensures Passing(list, 0, interval) == Absorb(list, interval)
  {
    assert list[0..] == list;
  }

  lemma PassMoves(list: seq<Interval>, index: nat, merged: Interval)
    requires index < |list|
    ensures
      var other := list[index];
      if Touches(other, merged) then
        Passing(list[..index] + list[index + 1..], index, Join(merged, other)) == Passing(list, index, merged)
      else Passing(list, index + 1, merged) == Passing(list, index, merged)
  {
    hide Touches, Join;
    var other, less := list[index], list[..index] + list[index + 1..];
    assert list[index..][1..] == list[index + 1..];
    assert less[index..] == list[index + 1..] && less[..index] == list[..index];
    assert list[..index + 1] == list[..index] + [other];
    var rest := Absorb(list[index + 1..], merged).rest;
    assert list[..index + 1] + rest == list[..index] + ([other] + rest);
  }

  lemma PassEnds(list: seq<Interval>, merged: Interval)
    ensures Passing(list, |list|, merged) == Absorbed(list, merged)
  {
    assert list[..|list|] == list && list[|list|..] == [];
  }

  /** Consumer-owned union of intervals in a list that never grows past its preparation. */
  class History {
    const capacity: nat
    var entries: seq<Interval>

    ghost predicate Valid()
      reads this
    {
      |entries| <= capacity && Separated(entries)
    }

    constructor (budget: nat)
      ensures Valid() && entries == [] && capacity == budget
    {
      capacity := budget;
      entries := [];
    }

    method Clear()
      modifies this`entries
      ensures entries == []
    {
      entries := [];
    }

    /** One pass over the list, removing every entry the growing interval touches. */
    method AbsorbTouching(interval: Interval) returns (merged: Interval)
      modifies this`entries
      ensures Absorb(old(entries), interval) == Absorbed(entries, merged)
    {
      hide *;
      var index := 0;
      merged := interval;
      PassBegins(entries, interval);
      while index < |entries|
        invariant index <= |entries|
        invariant Passing(entries, index, merged) == Absorb(old(entries), interval)
        decreases |entries| - index
      {
        var other := entries[index];
        PassMoves(entries, index, merged);
        if Touches(other, merged) {
          merged := Join(merged, other);
          entries := entries[..index] + entries[index + 1..];
        } else {
          index := index + 1;
        }
      }
      PassEnds(entries, merged);
    }

    /** Merge into the sorted union, or refuse and change nothing. */
    method Insert(interval: Interval) returns (ok: bool)
      requires Valid() && Nonempty(interval)
      modifies this`entries
      ensures Valid()
      ensures var r := Inserted(old(entries), capacity, interval);
          ok == r.Some? && entries == if ok then r.value else old(entries)
    {
      InsertAdds(entries, capacity, interval);
      AbsorbSeparates(entries, interval);
      FullMeansUnchanged(entries, interval);
      hide Absorb, Separated;
      var merged := AbsorbTouching(interval);
      if |entries| == capacity {
        return false;
      }
      var at := PartitionPoint(merged.generation, merged.span.start);
      entries := entries[..at] + [merged] + entries[at..];
      ok := true;
    }

    /** Binary search for the first entry the key comparison rejects. */
    method PartitionPoint(generation: nat, start: nat) returns (at: nat)
      requires Separated(entries)
      ensures at == CountBelow(entries, generation, start)
    {
      CountBelowSplits(entries, generation, start);
      var low, high := 0, |entries|;
      while low < high
        invariant low <= CountBelow(entries, generation, start) <= high <= |entries|
      {
        var middle := low + (high - low) / 2;
        if Below(entries[middle], generation, start) {
          low := middle + 1;
        } else {
          high := middle;
        }
      }
      at := low;
    }

    /** Does the support of an output meet the union? */
    method Muted(position: Option<Position>) returns (muted: bool)
      requires Valid()
      ensures muted <==> position.Some? && IsMuted(entries, position.value)
      ensures position.Some? && position.value.low <= position.value.high ==>
          (muted <==> Meets(entries, position.value))
    {
      if position.None? {
        return false;
      }
      var p := position.value;
      if p.low <= p.high {
        LookupIsExact(entries, p);
      }
      var index := PartitionPoint(p.generation, p.high + 1);
      muted := index > 0 && entries[index - 1].generation == p.generation && entries[index - 1].span.end > p.low;
    }

    /** Drop what an emitted output has passed. */
    method Retire(position: Option<Position>)
      requires Valid()
      modifies this`entries
      ensures Valid()
      ensures entries == if position.Some? then Retired(old(entries), position.value) else old(entries)
    {
      if position.Some? {
        var p := position.value;
        RetireSpares(entries, p);
        while entries != [] && (entries[0].generation != p.generation || entries[0].span.end <= p.low)
          invariant Retired(entries, p) == Retired(old(entries), p)
          decreases |entries|
        {
          entries := entries[1..];
        }
      }
    }
  }
}
