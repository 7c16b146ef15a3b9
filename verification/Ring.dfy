/**
 The shared ring as one endpoint runs it: cursors, payload array, finish word and
 reset epoch, each method against the queue of unread slots. One call at a time;
 Spsc.dfy and Handoff.dfy cover every interleaving of the single steps.
 */
module Ring {
  import opened Common
  import opened Mute
  import opened MuteStorage
  import opened Engine
  import opened Producer
  import Handoff
  import TwoLap

  /** A span the producer may still announce: nonempty, not past the end, at most one capacity old. */
  predicate Admissible(span: Span, end: nat, oldest: nat) {
    span.start < span.end <= end && oldest <= span.start
  }

  predicate AllAdmissible(spans: seq<Span>, end: nat, oldest: nat) {
    |spans| <= MAX_SPANS && forall k | 0 <= k < |spans| :: Admissible(spans[k], end, oldest)
  }

  /** What becomes of a tagged block: malformed, short of mute credit, nowhere to put it, or a prefix taken. */
  datatype Tagging = Refused | NoCredit | NoRoom | Taken(count: nat)

  function TaggingOf(capacity: nat, maxProducer: nat, unread: nat, credit: nat, pen: Option<Stamp>,
                     length: nat, generation: nat, start: nat, spans: seq<Span>): (r: Tagging)
    requires unread <= capacity
    ensures r.Taken? ==> 0 < r.count <= length && r.count <= capacity - unread && start + r.count <= WORD_MAX
  {
    if start + length > WORD_MAX || length > maxProducer
       || !AllAdmissible(spans, start + length, Monus(start, capacity))
       || (pen.Some? && pen.value.generation == generation && pen.value.source != start) then Refused
    else if credit < |spans| then NoCredit
    else if Min(length, capacity - unread) == 0 then NoRoom
    else Taken(Min(length, capacity - unread))
  }

  /** Some span is empty or backward, ends past the block, or starts more than a capacity before it. */
  predicate SomeSpanBad(spans: seq<Span>, start: nat, end: nat, capacity: nat) {
    exists k | 0 <= k < |spans| ::
      spans[k].start >= spans[k].end || spans[k].end > end || spans[k].start + capacity < start
  }

  /** Exactly when a tagged block is an error, and how much is taken of one that is not and has mute credit. */
  lemma TaggingIsExact(capacity: nat, maxProducer: nat, unread: nat, credit: nat, pen: Option<Stamp>,
                       length: nat, generation: nat, start: nat, spans: seq<Span>)
    requires unread <= capacity
    ensures
      var r := TaggingOf(capacity, maxProducer, unread, credit, pen, length, generation, start, spans);
      && (r.Refused? <==>
            || start + length > 0xFFFF_FFFF_FFFF_FFFF || length > maxProducer || |spans| > 64
            || SomeSpanBad(spans, start, start + length, capacity)
            || (pen.Some? && pen.value.generation == generation && pen.value.source != start))
      && (!r.Refused? ==> (r.NoCredit? <==> credit < |spans|))
      && (!r.Refused? && !r.NoCredit? ==>
            if length == 0 || unread == capacity then r.NoRoom?
            else r.Taken? && (r.count == length || r.count == capacity - unread))
  {
    var oldest := Monus(start, capacity);
    if |spans| <= 64 && !AllAdmissible(spans, start + length, oldest) {
      var k :| 0 <= k < |spans| && !Admissible(spans[k], start + length, oldest);
      assert spans[k].start >= spans[k].end || spans[k].end > start + length || spans[k].start + capacity < start;
    }
    if SomeSpanBad(spans, start, start + length, capacity) {
      var k :| 0 <= k < |spans| &&
        (spans[k].start >= spans[k].end || spans[k].end > start + length || spans[k].start + capacity < start);
      assert !Admissible(spans[k], start + length, oldest);
    }
  }

  /** What is taken continues the running generation: it is an act the timeline accepts. */
  lemma TakenIsAccepted(capacity: nat, maxProducer: nat, unread: nat, credit: nat, t: Timeline,
                        length: nat, generation: nat, start: nat, spans: seq<Span>, pcm: seq<real>)
    requires unread <= capacity
    requires TaggingOf(capacity, maxProducer, unread, credit, t.pen, length, generation, start, spans).Taken?
    ensures Accepted(t, Tagged(generation, start, pcm))
  {
  }

  class Ring {
    const storage: array<Slot>
    const maxProducer: nat
    const mailbox: Mailbox
    var written: nat
    var read: nat
    var discarded: nat
    var producerStamp: Option<Stamp>
    var producerEpoch: nat
    var resetSerial: nat
    var finish: nat

    ghost predicate Valid()
      reads this, storage, mailbox, mailbox.slots
    {
      && TwoLap.Valid(storage[..], written, read)
      && mailbox.Valid() && (storage as object) != mailbox.slots
      && discarded <= WORD_MAX && finish / 4 < Handoff.TOKEN_LIMIT && producerEpoch <= resetSerial
      && (producerStamp.Some? ==> producerStamp.value.source <= WORD_MAX)
    }

    /** Published, unread slots, oldest first. */
    ghost function Fifo(): (r: seq<Slot>)
      requires TwoLap.Valid(storage[..], written, read)
      reads this`written, this`read, storage
      ensures |r| <= storage.Length
    {
      TwoLap.Contents(storage[..], written, read)
    }

    /** The stamp the next publication would carry. */
    ghost function Pen(): Option<Stamp>
      reads this`producerStamp, this`producerEpoch, this`resetSerial
    {
      Synced(producerStamp, producerEpoch, resetSerial)
    }

    constructor (capacity: nat, maxProducer: nat)
      requires capacity >= 1
      ensures Valid() && Fifo() == [] && Pen().None? && finish == 0 && resetSerial == 0 && storage.Length == capacity
      ensures mailbox.Contents() == [] && fresh(storage) && fresh(mailbox) && fresh(mailbox.slots)
    {
      storage := new Slot[capacity](_ => Slot(0.0, false, None));
      this.maxProducer := maxProducer;
      mailbox := new Mailbox();
      written, read, discarded := 0, 0, 0;
      producerStamp, producerEpoch, resetSerial, finish := None, 0, 0, 0;
      new;
      TwoLap.DistanceCases(capacity, 0, 0);
    }

    /** Readable slots, bounded to the capacity. */
    method Available() returns (n: nat)
      requires Valid()
      ensures n == |Fifo()|
    {
      n := Min(TwoLap.Distance(storage.Length, written, read), storage.Length);
    }

    method FinishPending() returns (pending: bool)
      ensures pending == Handoff.Pending(finish)
    {
      pending := finish != 0 && finish % 4 == 0;
    }

    /** A reset shows only as a new epoch; on seeing one the producer drops its own stamp. */
    method SyncProducerEpoch()
      modifies this`producerStamp, this`producerEpoch
      ensures producerEpoch == resetSerial && producerStamp == old(Pen()) && Pen() == old(Pen())
    {
      if producerEpoch != resetSerial {
        producerStamp := None;
        producerEpoch := resetSerial;
      }
    }

    /** One slot: gated while a boundary is pending, refused when full or out of source numbers. */
    method ProducerPublish(slot: Slot) returns (ok: bool)
      requires Valid() && slot.stamp.None?
      modifies this`written, this`discarded, this`producerStamp, this`producerEpoch, storage
      ensures Valid() && mailbox.Contents() == old(mailbox.Contents())
      ensures ok == (!Handoff.Pending(finish) && Accepts(1, storage.Length - |old(Fifo())|, old(Pen())) == 1)
      ensures Fifo() == old(Fifo()) + if ok then [Inked(slot, old(Pen()))] else []
      ensures Pen() == if ok then StampAt(old(Pen()), 1) else old(Pen())
      ensures discarded == if !Handoff.Pending(finish) && |old(Fifo())| == storage.Length
                           then SaturatingAdd(old(discarded), 1) else old(discarded)
    {
      SyncProducerEpoch();
      if finish != 0 && finish % 4 == 0 {
        return false;
      }
      if TwoLap.Distance(storage.Length, written, read) >= storage.Length {
        discarded := SaturatingAdd(discarded, 1);
        return false;
      }
      var sample := slot;
      if producerStamp.Some? {
        if producerStamp.value.source + 1 > WORD_MAX {
          return false;
        }
        sample := slot.(stamp := producerStamp);
        producerStamp := Some(producerStamp.value.(source := producerStamp.value.source + 1));
      }
      StoreAndPublish(sample);
      ok := true;
    }

    /** Write the owned slot, then let the cursor publish it. */
    method StoreAndPublish(sample: Slot)
      requires Valid() && |Fifo()| < storage.Length
      modifies this`written, storage
      ensures Valid() && Fifo() == old(Fifo()) + [sample] && mailbox.Contents() == old(mailbox.Contents())
    {
      TwoLap.WriteIsInvisible(storage[..], written, read, sample);
      ghost var was := storage[..];
      storage[written % storage.Length] := sample;
      assert storage[..] == was[TwoLap.Slot(|was|, written) := sample];
      TwoLap.PublishAppends(storage[..], written, read);
      written := TwoLap.Next(storage.Length, written);
    }

    /** Take the oldest slot, if any. */
    method ConsumerTakeSourceSample() returns (slot: Option<Slot>)
      requires Valid()
      modifies this`read
      ensures Valid() && mailbox.Contents() == old(mailbox.Contents())
      ensures old(Fifo()) == [] ==> slot.None? && Fifo() == []
      ensures old(Fifo()) != [] ==> slot == Some(old(Fifo())[0]) && Fifo() == old(Fifo())[1..]
    {
      TwoLap.EmptyIffEqual(storage[..], written, read);
      if read == written {
        return None;
      }
      TwoLap.ReleaseRemoves(storage[..], written, read);
      slot := Some(storage[read % storage.Length]);
      read := TwoLap.Next(storage.Length, read);
    }

    /** Discard everything unread. */
    method DropUnread()
      requires Valid()
      modifies this`read
      ensures Valid() && Fifo() == [] && mailbox.Contents() == old(mailbox.Contents())
    {
      TwoLap.DistanceCases(storage.Length, written, written);
      read := written;
    }

    /** One sample, brought into range. */
    method ProducerPushSample(sample: real) returns (ok: bool)
      requires Valid()
      modifies this`written, this`discarded, this`producerStamp, this`producerEpoch, storage
      ensures Valid() && mailbox.Contents() == old(mailbox.Contents())
      ensures ok == (!Handoff.Pending(finish) && Accepts(1, storage.Length - |old(Fifo())|, old(Pen())) == 1)
      ensures Fifo() == old(Fifo()) + if ok then [Inked(Slot(Canonical(sample), false, None), old(Pen()))] else []
      ensures Pen() == if ok then StampAt(old(Pen()), 1) else old(Pen())
      ensures discarded == if !Handoff.Pending(finish) && |old(Fifo())| == storage.Length
                           then SaturatingAdd(old(discarded), 1) else old(discarded)
    {
      ok := ProducerPublish(Slot(Canonical(sample), false, None));
    }

    /** A call has published the first slots of its own behind those that were there, and lost none. */
    ghost predicate Pushed(slots: seq<Slot>, index: nat, fifo: seq<Slot>, pen: Option<Stamp>, records: seq<Interval>,
                           lost: nat)
      reads this, storage, mailbox, mailbox.slots
    {
      && Valid() && mailbox.Contents() == records && index <= |slots| && |fifo| <= storage.Length
      && (pen.Some? ==> pen.value.source <= WORD_MAX)
      && index == Accepts(index, storage.Length - |fifo|, pen)
      && Fifo() == fifo + InkedAll(slots[..index], pen) && Pen() == StampAt(pen, index) && discarded == lost
    }

    /** The next slot went out behind them, or no further one can. */
    ghost predicate Advanced(slots: seq<Slot>, index: nat, fifo: seq<Slot>, pen: Option<Stamp>,
                             records: seq<Interval>, lost: nat, ok: bool)
      reads this, storage, mailbox, mailbox.slots
    {
      if ok then Pushed(slots, index + 1, fifo, pen, records, lost)
      else
        && Pushed(slots, index, fifo, pen, records, discarded) && index < |slots|
        && index == Accepts(|slots|, storage.Length - |fifo|, pen)
        && discarded == if |Fifo()| == storage.Length then SaturatingAdd(lost, 1) else lost
    }

    /** Whether one more is accepted says whether the whole prefix can be longer. */
    lemma OneMoreAccepted(n: nat, index: nat, room: nat, pen: Option<Stamp>)
      requires (pen.Some? ==> pen.value.source <= WORD_MAX) && index == Accepts(index, room, pen) && index < n
      ensures StampAt(pen, index).Some? ==> StampAt(pen, index).value.source <= WORD_MAX
      ensures Accepts(1, room - index, StampAt(pen, index)) == 1 <==> index + 1 == Accepts(index + 1, room, pen)
      ensures Accepts(1, room - index, StampAt(pen, index)) != 1 ==> index == Accepts(n, room, pen)
    {
    }

    lemma InkedGrows(slots: seq<Slot>, index: nat, pen: Option<Stamp>)
      requires index < |slots|
      ensures InkedAll(slots[..index + 1], pen) ==
        InkedAll(slots[..index], pen) + [Inked(slots[index], StampAt(pen, index))]
    {
    }

    /** Push the next sample of a block. */
    method PushNext(sample: real, ghost slots: seq<Slot>, ghost index: nat, ghost fifo: seq<Slot>,
                    ghost pen: Option<Stamp>, ghost records: seq<Interval>, ghost lost: nat)
      returns (ok: bool)
      requires Pushed(slots, index, fifo, pen, records, lost) && !Handoff.Pending(finish)
      requires index < |slots| && slots[index] == Slot(Canonical(sample), false, None)
      modifies this`written, this`discarded, this`producerStamp, this`producerEpoch, storage
      ensures Advanced(slots, index, fifo, pen, records, lost, ok)
    {
      hide InkedAll, TwoLap.Valid, TwoLap.Contents, Inked, Canonical, Handoff.Pending, Synced, Accepts;
      OneMoreAccepted(|slots|, index, storage.Length - |fifo|, pen);
      InkedGrows(slots, index, pen);
      ok := ProducerPushSample(sample);
    }

    /** Publish the next missing slot of a gap. */
    method GapNext(ghost slots: seq<Slot>, ghost index: nat, ghost fifo: seq<Slot>, ghost pen: Option<Stamp>,
                   ghost records: seq<Interval>, ghost lost: nat)
      returns (ok: bool)
      requires Pushed(slots, index, fifo, pen, records, lost) && !Handoff.Pending(finish)
      requires index < |slots| && slots[index] == Slot(0.0, true, None)
      modifies this`written, this`discarded, this`producerStamp, this`producerEpoch, storage
      ensures Advanced(slots, index, fifo, pen, records, lost, ok)
    {
      hide InkedAll, TwoLap.Valid, TwoLap.Contents, Inked, Handoff.Pending, Synced, Accepts;
      OneMoreAccepted(|slots|, index, storage.Length - |fifo|, pen);
      InkedGrows(slots, index, pen);
      ok := ProducerPublish(Slot(0.0, true, None));
    }

    lemma NothingPushed(slots: seq<Slot>)
      requires Valid()
      ensures Pushed(slots, 0, Fifo(), Pen(), mailbox.Contents(), discarded)
    {
      assert InkedAll(slots[..0], Pen()) == [];
      hide InkedAll, TwoLap.Valid, TwoLap.Contents;
    }

    lemma PcmPrefix(input: seq<real>, index: nat)
      requires index <= |input|
      ensures PcmSlots(input)[..index] == PcmSlots(input[..index])
    {
    }

    lemma GapPrefix(samples: nat, index: nat)
      requires index <= samples
      ensures GapSlots(samples)[..index] == GapSlots(index)
      ensures index < samples ==> GapSlots(samples)[index] == Slot(0.0, true, None)
    {
    }

    /** Publish a chronological prefix: nothing is accepted after the first rejection. */
    method ProducerPush(input: seq<real>) returns (accepted: nat)
      requires Valid()
      modifies this`written, this`discarded, this`producerStamp, this`producerEpoch, storage
      ensures Valid() && mailbox.Contents() == old(mailbox.Contents())
      ensures accepted == if Handoff.Pending(finish) then 0
                          else Accepts(|input|, storage.Length - |old(Fifo())|, old(Pen()))
      ensures Fifo() == old(Fifo()) + InkedAll(PcmSlots(input[..accepted]), old(Pen()))
      ensures Sound(Fifo()[|old(Fifo())|..], input[..accepted])
      ensures Pen() == StampAt(old(Pen()), accepted)
      ensures discarded == SaturatingAdd(old(discarded), Lost(|input|, accepted))
    {
      accepted := 0;
      hide InkedAll, PcmSlots, TwoLap.Valid, TwoLap.Contents, Synced, Accepts, Sound;
      ghost var slots := PcmSlots(input);
      NothingPushed(slots);
      PcmPrefix(input, 0);
      PushMeans(Fifo(), input[..0], Pen());
      if finish != 0 && finish % 4 == 0 {
        return 0;
      }
      ghost var fifo, pen, records, lost := Fifo(), Pen(), mailbox.Contents(), discarded;
      hide Pushed, Handoff.Pending;
      for index := 0 to |input|
        invariant Pushed(slots, index, fifo, pen, records, lost) && accepted == index
      {
        var ok := PushNext(input[index], slots, index, fifo, pen, records, lost);
        if !ok {
          Settled(slots, index, fifo, pen, records, discarded);
          PcmPrefix(input, index);
          PushMeans(fifo, input[..index], pen);
          discarded := SaturatingAdd(discarded, |input| - (index + 1));
          return;
        }
        accepted := accepted + 1;
      }
      Settled(slots, accepted, fifo, pen, records, lost);
      PcmPrefix(input, accepted);
      PushMeans(fifo, input[..accepted], pen);
    }

    /** What a push has done, read off its progress. */
    lemma Settled(slots: seq<Slot>, index: nat, fifo: seq<Slot>, pen: Option<Stamp>, records: seq<Interval>, lost: nat)
      requires Pushed(slots, index, fifo, pen, records, lost)
      ensures Valid() && mailbox.Contents() == records && index <= |slots| && |fifo| <= storage.Length
      ensures (pen.Some? ==> pen.value.source <= WORD_MAX) && index == Accepts(index, storage.Length - |fifo|, pen)
      ensures Fifo() == fifo + InkedAll(slots[..index], pen) && Pen() == StampAt(pen, index) && discarded == lost
    {
    }

    /** Samples of a push counted as discarded: all of the rejected tail, but for one that found no stamp left. */
    ghost function Lost(offered: nat, accepted: nat): (r: nat)
      requires TwoLap.Valid(storage[..], written, read) && accepted <= offered
      reads this, storage
      ensures r <= offered - accepted
      ensures !Handoff.Pending(finish) && |Fifo()| == storage.Length ==> r == offered - accepted
    {
      if Handoff.Pending(finish) || accepted == offered then 0
      else if |Fifo()| == storage.Length then offered - accepted
      else offered - accepted - 1
    }

    /** Publish a prefix of missing slots. */
    method ProducerGap(samples: nat) returns (accepted: nat)
      requires Valid()
      modifies this`written, this`discarded, this`producerStamp, this`producerEpoch, storage
      ensures Valid() && mailbox.Contents() == old(mailbox.Contents())
      ensures accepted == if Handoff.Pending(finish) then 0
                          else Accepts(samples, storage.Length - |old(Fifo())|, old(Pen()))
      ensures Fifo() == old(Fifo()) + InkedAll(GapSlots(accepted), old(Pen()))
      ensures AllMissing(Fifo()[|old(Fifo())|..])
      ensures Pen() == StampAt(old(Pen()), accepted)
      ensures discarded == SaturatingAdd(old(discarded), Lost(samples, accepted))
    {
      hide InkedAll, GapSlots, TwoLap.Valid, TwoLap.Contents, Synced, Accepts, AllMissing;
      ghost var slots := GapSlots(samples);
      NothingPushed(slots);
      GapPrefix(samples, 0);
      GapMeans(Fifo(), 0, Pen());
      if finish != 0 && finish % 4 == 0 {
        return 0;
      }
      ghost var fifo, pen, records, lost := Fifo(), Pen(), mailbox.Contents(), discarded;
      hide Pushed, Handoff.Pending;
      for index := 0 to samples
        invariant Pushed(slots, index, fifo, pen, records, lost)
      {
        GapPrefix(samples, index);
        var ok := GapNext(slots, index, fifo, pen, records, lost);
        if !ok {
          Settled(slots, index, fifo, pen, records, discarded);
          GapMeans(fifo, index, pen);
          discarded := SaturatingAdd(discarded, samples - index - 1);
          return index;
        }
      }
      Settled(slots, samples, fifo, pen, records, lost);
      GapPrefix(samples, samples);
      GapMeans(fifo, samples, pen);
      accepted := samples;
    }

    /**
     Mute spans first, then the PCM prefix they belong to. What is taken is
     stamped from source_start on; the rest is counted as discarded.
     */
    method ProducerPushTagged(input: seq<real>, generation: nat, start: nat, spans: seq<Span>) returns (r: Option<nat>)
      requires Valid()
      modifies this`written, this`discarded, this`producerStamp, this`producerEpoch, storage
      modifies mailbox`written, mailbox.slots
      ensures Valid()
      ensures
        var verdict := TaggingOf(storage.Length, maxProducer, |old(Fifo())|, QUEUE - |old(mailbox.Contents())|,
                                 old(Pen()), |input|, generation, start, spans);
        if Handoff.Pending(finish) then
          r == Some(0) && Leaves(old(Fifo()), old(Pen()), old(mailbox.Contents()), old(discarded))
        else match verdict
          case Refused => r.None? && Leaves(old(Fifo()), old(Pen()), old(mailbox.Contents()), old(discarded))
          case NoCredit => r == Some(0) && Leaves(old(Fifo()), old(Pen()), old(mailbox.Contents()), old(discarded))
          case NoRoom =>
            r == Some(0)
            && Leaves(old(Fifo()), old(Pen()), old(mailbox.Contents()), SaturatingAdd(old(discarded), |input|))
          case Taken(count) =>
            var pen := Some(Stamp(generation, start));
            && r == Some(count)
            && Leaves(old(Fifo()) + InkedAll(PcmSlots(input[..count]), pen), StampAt(pen, count),
                         old(mailbox.Contents()) + Clipped(generation, spans, start + count),
                         SaturatingAdd(old(discarded), |input| - count))
    {
      hide InkedAll, PcmSlots, Clipped, TwoLap.Contents, AllAdmissible, Sound;
      SyncProducerEpoch();
      var pending := FinishPending();
      if pending {
        return Some(0);
      }
      var end := start + |input|;
      if end > WORD_MAX {
        return None;
      }
      if |input| > maxProducer || !AllAdmissible(spans, end, Monus(start, storage.Length)) {
        return None;
      }
      if producerStamp.Some? && producerStamp.value.generation == generation && producerStamp.value.source != start {
        return None;
      }
      var credit := mailbox.Free();
      if credit < |spans| {
        return Some(0);
      }
      var unread := Available();
      var count := Min(|input|, storage.Length - unread);
      if count == 0 {
        discarded := SaturatingAdd(discarded, |input|);
        return Some(0);
      }
      var accepted := PublishTagged(input[..count], generation, start, spans);
      discarded := SaturatingAdd(discarded, |input| - accepted);
      r := Some(accepted);
    }

    /** A block that fits goes in whole, behind its mute spans. */
    method PublishTagged(block: seq<real>, generation: nat, start: nat, spans: seq<Span>) returns (accepted: nat)
      requires Valid() && !Handoff.Pending(finish) && producerEpoch == resetSerial
      requires |block| <= storage.Length - |Fifo()| && start + |block| <= WORD_MAX
      requires |spans| <= QUEUE - |mailbox.Contents()|
      modifies this`written, this`discarded, this`producerStamp, this`producerEpoch, storage
      modifies mailbox`written, mailbox.slots
      ensures Valid() && accepted == |block|
      ensures Leaves(old(Fifo()) + InkedAll(PcmSlots(block), Some(Stamp(generation, start))),
                     StampAt(Some(Stamp(generation, start)), |block|),
                     old(mailbox.Contents()) + Clipped(generation, spans, start + |block|), old(discarded))
    {
      hide InkedAll, PcmSlots, Clipped, TwoLap.Contents, Sound;
      mailbox.Publish(generation, spans, start + |block|);
      producerStamp := Some(Stamp(generation, start));
      accepted := ProducerPush(block);
      assert block[..accepted] == block;
    }

    /** The ring's unread slots, pen, mailbox and counter are exactly these. */
    ghost predicate Leaves(fifo: seq<Slot>, pen: Option<Stamp>, records: seq<Interval>, lost: nat)
      requires Valid()
      reads this, storage, mailbox, mailbox.slots
    {
      Fifo() == fifo && Pen() == pen && mailbox.Contents() == records && discarded == lost
    }

    /** Announce mutes for positions already accepted; only the credited prefix is taken. */
    method ProducerMute(generation: nat, spans: seq<Span>) returns (r: Option<nat>)
      requires Valid()
      modifies this`producerStamp, this`producerEpoch, mailbox`written, mailbox.slots
      ensures Valid() && Fifo() == old(Fifo()) && Pen() == old(Pen())
      ensures
        var pen := old(Pen());
        if pen.None? || pen.value.generation != generation
           || !AllAdmissible(spans, pen.value.source, Monus(pen.value.source, storage.Length))
        then r.None? && mailbox.Contents() == old(mailbox.Contents())
        else
          var count := Min(|spans|, QUEUE - |old(mailbox.Contents())|);
          && count >= 0 && r == Some(count)
          && mailbox.Contents() == old(mailbox.Contents()) + Clipped(generation, spans[..count], pen.value.source)
    {
      hide Clipped, TwoLap.Contents, AllAdmissible;
      SyncProducerEpoch();
      if producerStamp.None? {
        return None;
      }
      var current := producerStamp.value;
      if current.generation != generation
          || !AllAdmissible(spans, current.source, Monus(current.source, storage.Length)) {
        return None;
      }
      var credit := mailbox.Free();
      var count := Min(|spans|, credit);
      mailbox.Publish(generation, spans[..count], current.source);
      r := Some(count);
    }

    /** Ask for a boundary: the next token, unless one is pending or tokens ran out. */
    method ProducerFinish() returns (token: Option<nat>)
      requires Valid()
      modifies this`finish
      ensures Valid() && Fifo() == old(Fifo()) && Pen() == old(Pen())
      ensures token.None? <==> Handoff.Pending(old(finish)) || old(finish) / 4 + 1 >= Handoff.TOKEN_LIMIT
      ensures token.None? ==> finish == old(finish)
      ensures token.Some? ==>
          && token.value == old(finish) / 4 + 1 && Handoff.Pending(finish)
          && Handoff.FinishStatus(finish, token.value) == Some(Handoff.PENDING)
    {
      if finish != 0 && finish % 4 == 0 {
        return None;
      }
      if finish / 4 + 1 >= Handoff.TOKEN_LIMIT {
        return None;
      }
      token := Some(finish / 4 + 1);
      finish := (finish / 4 + 1) * 4;
    }

    /** The outcome of the latest token; any other is an error. */
    method FinishStatus(token: nat) returns (status: Option<nat>)
      ensures status == Handoff.FinishStatus(finish, token)
    {
      if token == 0 || finish / 4 != token {
        return None;
      }
      status := Some(finish % 4);
    }
  }
}
