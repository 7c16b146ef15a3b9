/**
 One producer, one consumer and one bystander over a two-lap ring, each atomic
 load, payload access and store a step of its own, interleaved in any order.

 The PCM storage publishes one slot at a time; the mute mailbox fills a batch of
 slots and publishes it with one store. Both are runs of this machine. The log
 and the counts exist only in the model: they never wrap, and every property is
 stated against them.
 */
module Spsc {
  import opened Common
  import TwoLap

  /** The producer holds a read cursor it acquired earlier and slots filled past its own. */
  datatype Producer<T> = Idle | Filling(seen: nat, seenCount: nat, draft: seq<T>)
  datatype Consumer<T> = Waiting | Readable(limit: nat) | Copied(item: T) | Discarding(target: nat, targetCount: nat)
  datatype Bystander = Away | Halfway(written: nat, writtenCount: nat)

  datatype State<T> = State(
    slots: seq<T>, written: nat, read: nat,
    producer: Producer<T>, consumer: Consumer<T>, bystander: Bystander,
    log: seq<T>, released: nat)

  datatype Step<T> =
    | AcquireRead
    | Fill(item: T)
    | PublishRelease
    | AcquireWritten
    | CopyPayload
    | StoreRead
    | AcquireDiscard
    | StoreDiscard
    | WatchWritten
    | WatchRead

  function Start<T>(slots: seq<T>): State<T> {
    State(slots, 0, 0, Idle, Waiting, Away, [], 0)
  }

  function Advance(capacity: nat, cursor: nat, n: nat): nat
    requires capacity >= 1
  {
    (cursor + n) % (capacity * 2)
  }

  predicate Enabled<T>(s: State<T>, step: Step<T>) {
    |s.slots| >= 1 &&
    match step
    case AcquireRead => s.producer.Idle?
    // The snapshot must leave room: distance of the next unpublished slot below capacity.
    case Fill(_) =>
      && s.producer.Filling?
      && s.producer.seen <= s.written + |s.slots| * 2
      && TwoLap.Distance(|s.slots|, s.written, s.producer.seen) + |s.producer.draft| < |s.slots|
    case PublishRelease => s.producer.Filling?
    case AcquireWritten => s.consumer.Waiting? && s.read != s.written
    case CopyPayload => s.consumer.Readable?
    case StoreRead => s.consumer.Copied?
    case AcquireDiscard => s.consumer.Waiting?
    case StoreDiscard => s.consumer.Discarding?
    case WatchWritten => s.bystander.Away?
    case WatchRead => s.bystander.Halfway?
  }

  function Do<T>(s: State<T>, step: Step<T>): State<T>
    requires Enabled(s, step)
  {
    var capacity := |s.slots|;
    match step
    case AcquireRead => s.(producer := Filling(s.read, s.released, []))
    case Fill(item) =>
      var at := TwoLap.Slot(capacity, Advance(capacity, s.written, |s.producer.draft|));
      TwoLap.SlotInRange(capacity, Advance(capacity, s.written, |s.producer.draft|));
      s.(slots := s.slots[at := item], producer := s.producer.(draft := s.producer.draft + [item]))
    case PublishRelease =>
      s.(written := Advance(capacity, s.written, |s.producer.draft|),
         log := s.log + s.producer.draft, producer := Idle)
    case AcquireWritten => s.(consumer := Readable(s.written))
    case CopyPayload =>
      TwoLap.SlotInRange(capacity, s.read);
      s.(consumer := Copied(s.slots[TwoLap.Slot(capacity, s.read)]))
    case StoreRead =>
      s.(read := TwoLap.Next(capacity, s.read), released := s.released + 1, consumer := Waiting)
    case AcquireDiscard => s.(consumer := Discarding(s.written, |s.log|))
    case StoreDiscard =>
      s.(read := s.consumer.target, released := s.consumer.targetCount, consumer := Waiting)
    case WatchWritten => s.(bystander := Halfway(s.written, |s.log|))
    case WatchRead => s.(bystander := Away)
  }

  predicate Legal<T>(s: State<T>, steps: seq<Step<T>>)
    decreases |steps|
  {
    steps == [] || (Enabled(s, steps[0]) && Legal(Do(s, steps[0]), steps[1..]))
  }

  function Run<T>(s: State<T>, steps: seq<Step<T>>): State<T>
    requires Legal(s, steps)
    decreases |steps|
  {
    if steps == [] then s else Run(Do(s, steps[0]), steps[1..])
  }

  // ---------------------------------------------------------------- unbounded view

  /** The cursor a never-wrapping count shows as. */
  function CursorOf(capacity: nat, count: nat): nat
    requires capacity >= 1
  {
    count % (capacity * 2)
  }

  function SlotOf(capacity: nat, count: nat): nat
    requires capacity >= 1
  {
    count % capacity
  }

  lemma CursorDistance(capacity: nat, w: nat, r: nat)
    requires capacity >= 1 && r <= w <= r + capacity
    ensures TwoLap.Cursor(capacity, CursorOf(capacity, w)) && TwoLap.Cursor(capacity, CursorOf(capacity, r))
    ensures TwoLap.Distance(capacity, CursorOf(capacity, w), CursorOf(capacity, r)) == w - r
  {
    var m := capacity * 2;
    var x := CursorOf(capacity, w) + m - CursorOf(capacity, r);
    assert x == (1 + r / m - w / m) * m + (w - r);
    Remainder(x, 1 + r / m - w / m, w - r, m);
  }

  lemma CursorAdvance(capacity: nat, count: nat, n: nat)
    requires capacity >= 1
    ensures Advance(capacity, CursorOf(capacity, count), n) == CursorOf(capacity, count + n)
    ensures n == 1 ==> TwoLap.Next(capacity, CursorOf(capacity, count)) == CursorOf(capacity, count + 1)
  {
    var m := capacity * 2;
    var y := CursorOf(capacity, count) + n;
    var q, r := (count + n) / m, (count + n) % m;
    assert y == (q - count / m) * m + r;
    Remainder(y, q - count / m, r, m);
  }

  lemma CursorSlot(capacity: nat, count: nat)
    requires capacity >= 1
    ensures TwoLap.Slot(capacity, CursorOf(capacity, count)) == SlotOf(capacity, count)
  {
    var c := CursorOf(capacity, count);
    var q, r := c / capacity, c % capacity;
    assert count == (count / (capacity * 2) * 2 + q) * capacity + r by {
      TwiceLaps(count / (capacity * 2), q, capacity);
    }
    Remainder(count, count / (capacity * 2) * 2 + q, r, capacity);
  }

  lemma TwiceLaps(laps: nat, q: nat, capacity: nat)
    ensures laps * (capacity * 2) + q * capacity == (laps * 2 + q) * capacity
  {
  }

  /** Fewer than capacity counts apart, two slots are different. */
  lemma SlotsDiffer(capacity: nat, i: nat, j: nat)
    requires capacity >= 1 && i < j < i + capacity
    ensures SlotOf(capacity, i) != SlotOf(capacity, j)
  {
    if SlotOf(capacity, i) == SlotOf(capacity, j) {
      assert j - i == (j / capacity - i / capacity) * capacity;
      if j / capacity - i / capacity >= 1 {
        MulMonotone(1, j / capacity - i / capacity, capacity);
      } else {
        MulMonotone(j / capacity - i / capacity, 0, capacity);
      }
    }
  }

  // ---------------------------------------------------------------- invariant

  /** The cursors show the counts, which never cross nor drift apart by more than capacity. */
  ghost predicate CursorsExact<T>(s: State<T>) {
    && |s.slots| >= 1
    && s.written == CursorOf(|s.slots|, |s.log|) && s.read == CursorOf(|s.slots|, s.released)
    && s.released <= |s.log| <= s.released + |s.slots|
  }

  /** Every unread entry sits in its slot. */
  ghost predicate Stored<T>(s: State<T>)
    requires |s.slots| >= 1
  {
    forall k | s.released <= k < |s.log| :: s.slots[SlotOf(|s.slots|, k)] == s.log[k]
  }

  /** An old read snapshot only understates the room; drafts sit in the producer's own slots. */
  ghost predicate ProducerSafe<T>(s: State<T>)
    requires |s.slots| >= 1
  {
    s.producer.Filling? ==>
      && s.producer.seen == CursorOf(|s.slots|, s.producer.seenCount)
      && s.producer.seenCount <= s.released
      && |s.log| + |s.producer.draft| <= s.producer.seenCount + |s.slots|
      && (forall j | 0 <= j < |s.producer.draft| ::
            s.slots[SlotOf(|s.slots|, |s.log| + j)] == s.producer.draft[j])
  }

  ghost predicate ConsumerSafe<T>(s: State<T>)
    requires |s.slots| >= 1
  {
    match s.consumer
    case Waiting => true
    case Readable(_) => s.released < |s.log|
    case Copied(item) => s.released < |s.log| && item == s.log[s.released]
    case Discarding(target, count) => target == CursorOf(|s.slots|, count) && s.released <= count <= |s.log|
  }

  ghost predicate BystanderSafe<T>(s: State<T>)
    requires |s.slots| >= 1
  {
    s.bystander.Halfway? ==>
      s.bystander.written == CursorOf(|s.slots|, s.bystander.writtenCount) && s.bystander.writtenCount <= |s.log|
  }

  ghost predicate Inv<T>(s: State<T>) {
    CursorsExact(s) && Stored(s) && ProducerSafe(s) && ConsumerSafe(s) && BystanderSafe(s)
  }

  lemma StartInv<T>(slots: seq<T>)
    requires |slots| >= 1
    ensures Inv(Start(slots))
  {
    Remainder(0, 0, 0, |slots| * 2);
  }

  lemma FillKeeps<T>(s: State<T>, item: T)
    requires Inv(s) && Enabled(s, Fill(item))
    ensures Inv(Do(s, Fill(item)))
    ensures s.consumer.Readable? ==>
        Do(s, Fill(item)).slots[SlotOf(|s.slots|, s.released)] == s.slots[SlotOf(|s.slots|, s.released)]
  {
    var c, n := |s.slots|, |s.log| + |s.producer.draft|;
    CursorDistance(c, |s.log|, s.producer.seenCount);
    CursorAdvance(c, |s.log|, |s.producer.draft|);
    CursorSlot(c, n);
    forall k | s.released <= k < n
      ensures SlotOf(c, k) != SlotOf(c, n)
    {
      SlotsDiffer(c, k, n);
    }
    hide SlotOf, CursorOf;
  }

  lemma PublishKeeps<T>(s: State<T>)
    requires Inv(s) && Enabled(s, PublishRelease)
    ensures Inv(Do(s, PublishRelease))
  {
    CursorAdvance(|s.slots|, |s.log|, |s.producer.draft|);
    hide SlotOf, CursorOf;
  }

  lemma ConsumeKeeps<T>(s: State<T>, step: Step<T>)
    requires Inv(s) && Enabled(s, step)
    requires step.AcquireWritten? || step.CopyPayload? || step.StoreRead? || step.AcquireDiscard? || step.StoreDiscard?
    ensures Inv(Do(s, step))
  {
    CursorAdvance(|s.slots|, s.released, 1);
    CursorSlot(|s.slots|, s.released);
    hide SlotOf, CursorOf;
  }

  lemma StepKeeps<T>(s: State<T>, step: Step<T>)
    requires Inv(s) && Enabled(s, step)
    ensures Inv(Do(s, step))
  {
    match step {
      case Fill(item) => FillKeeps(s, item);
      case PublishRelease => PublishKeeps(s);
      case AcquireRead =>
      case WatchWritten =>
      case WatchRead =>
      case _ => ConsumeKeeps(s, step);
    }
  }

  /** Every interleaving of every length keeps the invariant. */
  lemma {:induction false} RunKeeps<T>(s: State<T>, steps: seq<Step<T>>)
    requires Inv(s) && Legal(s, steps)
    ensures Inv(Run(s, steps))
    decreases |steps|
  {
    if steps != [] {
      StepKeeps(s, steps[0]);
      RunKeeps(Do(s, steps[0]), steps[1..]);
    }
  }

  // ---------------------------------------------------------------- what the endpoints may rely on

  /** What is published and not yet released. */
  function Queue<T>(s: State<T>): seq<T>
    requires s.released <= |s.log|
  {
    s.log[s.released..]
  }

  /**
   Each step is one step of an unbounded first-in first-out queue or none at
   all: a publication appends the whole draft, a release removes the very item
   copied before it, a discard drops a prefix.
   */
  lemma StepRefinesQueue<T>(s: State<T>, step: Step<T>)
    requires Inv(s) && Enabled(s, step)
    ensures Inv(Do(s, step))
    ensures
      var q, r := Queue(s), Queue(Do(s, step));
      match step
      case PublishRelease => r == q + s.producer.draft
      case StoreRead => q == [s.consumer.item] + r
      case StoreDiscard => s.consumer.targetCount - s.released <= |q| && r == q[s.consumer.targetCount - s.released..]
      case _ => r == q
  {
    StepKeeps(s, step);
  }

  /** In every reachable state the source's own arithmetic gives the true count. */
  lemma ReachableDistance<T>(slots: seq<T>, steps: seq<Step<T>>)
    requires |slots| >= 1 && Legal(Start(slots), steps)
    ensures
      var s := Run(Start(slots), steps);
      && |s.slots| >= 1 && s.released <= |s.log| && s.read <= s.written + |s.slots| * 2
      && TwoLap.Distance(|s.slots|, s.written, s.read) == |Queue(s)| <= |s.slots|
      && TwoLap.Valid(s.slots, s.written, s.read)
      && TwoLap.Contents(s.slots, s.written, s.read) == Queue(s)
  {
    StartInv(slots);
    RunKeeps(Start(slots), steps);
    var s := Run(Start(slots), steps);
    CursorDistance(|s.slots|, |s.log|, s.released);
    forall k | 0 <= k < |Queue(s)|
      ensures TwoLap.Index(|s.slots|, s.read, k) == SlotOf(|s.slots|, s.released + k)
    {
      IndexIsSlot(|s.slots|, s.released, k);
    }
  }

  lemma IndexIsSlot(capacity: nat, count: nat, k: nat)
    requires capacity >= 1 && k < capacity
    ensures TwoLap.Cursor(capacity, CursorOf(capacity, count))
    ensures TwoLap.Index(capacity, CursorOf(capacity, count), k) == SlotOf(capacity, count + k)
  {
    var pairs := CursorParts(capacity, count);
    hide CursorOf;
    var c := CursorOf(capacity, count);
    var index := TwoLap.Index(capacity, c, k);
    var laps := if c + k < capacity then 0 else if c + k < 2 * capacity then 1 else 2;
    LapsAndIndex(capacity, count, k, pairs, c, laps, index);
  }

  lemma CursorParts(capacity: nat, count: nat) returns (pairs: nat)
    requires capacity >= 1
    ensures TwoLap.Cursor(capacity, CursorOf(capacity, count))
    ensures count == pairs * (capacity * 2) + CursorOf(capacity, count)
  {
    pairs := count / (capacity * 2);
  }

  lemma LapsAndIndex(capacity: nat, count: nat, k: nat, pairs: nat, c: nat, laps: nat, index: nat)
    requires count == pairs * (capacity * 2) + c && index < capacity
    requires laps <= 2 && c + k == index + if laps == 0 then 0 else if laps == 1 then capacity else 2 * capacity
    ensures (count + k) % capacity == index
  {
    TwiceLaps(pairs, laps, capacity);
    Remainder(count + k, pairs * 2 + laps, index, capacity);
  }

  /** A slot being filled is never the one being copied, nor any other published one. */
  lemma NoSharedSlot<T>(s: State<T>, item: T, k: nat)
    requires Inv(s) && Enabled(s, Fill(item)) && s.released <= k < |s.log|
    ensures
      TwoLap.Slot(|s.slots|, Advance(|s.slots|, s.written, |s.producer.draft|)) != SlotOf(|s.slots|, k)
  {
    var n := |s.log| + |s.producer.draft|;
    CursorDistance(|s.slots|, |s.log|, s.producer.seenCount);
    CursorAdvance(|s.slots|, |s.log|, |s.producer.draft|);
    CursorSlot(|s.slots|, n);
    SlotsDiffer(|s.slots|, k, n);
  }

  /**
   A third party loads the two cursors at different moments. Its clipped count
   never exceeds capacity, and is the true difference of the two moments
   whenever the consumer has not overtaken the first load.
   */
  lemma BystanderCount<T>(s: State<T>)
    requires Inv(s) && s.bystander.Halfway?
    ensures
      && s.read <= s.bystander.written + |s.slots| * 2
      && var shown := Min(TwoLap.Distance(|s.slots|, s.bystander.written, s.read), |s.slots|);
      && 0 <= shown <= |s.slots|
      && (s.released <= s.bystander.writtenCount ==> shown == s.bystander.writtenCount - s.released)
  {
    if s.released <= s.bystander.writtenCount {
      CursorDistance(|s.slots|, s.bystander.writtenCount, s.released);
    } else {
      assert s.read < |s.slots| * 2;
    }
  }

  /** One more step in front of a legal run. */
  lemma Prepend<T>(s: State<T>, step: Step<T>, rest: seq<Step<T>>)
    requires Enabled(s, step) && Legal(Do(s, step), rest)
    ensures Legal(s, [step] + rest) && Run(s, [step] + rest) == Run(Do(s, step), rest)
  {
    hide Do, Enabled;
    assert ([step] + rest)[1..] == rest;
  }

  /** The clip matters: when the consumer overtakes the first load the raw distance can exceed capacity. */
  lemma RawDistanceCanExceedCapacity(item: int)
    ensures
      exists steps: seq<Step<int>> ::
        && Legal(Start([0, 0]), steps)
        && var s := Run(Start([0, 0]), steps);
        && s.bystander.Halfway? && s.read <= s.bystander.written + |s.slots| * 2 && |s.slots| == 2
        && TwoLap.Distance(|s.slots|, s.bystander.written, s.read) == 3
  {
    var s0 := Start([0, 0]);
    var s1 := Do(s0, WatchWritten);
    var s2 := Do(s1, AcquireRead);
    var s3 := Do(s2, Fill(item));
    var s4 := Do(s3, PublishRelease);
    var s5 := Do(s4, AcquireWritten);
    var s6 := Do(s5, CopyPayload);
    var s7 := Do(s6, StoreRead);
    var none: seq<Step<int>> := [];
    assert Legal(s7, none) && Run(s7, none) == s7;
    assert s7.bystander == Halfway(0, 0) && s7.read == 1 && |s7.slots| == 2;
    assert TwoLap.Distance(2, 0, 1) == 3;
    hide Legal, Run;
    Prepend(s6, StoreRead, none);
    var r6 := [StoreRead] + none;
    Prepend(s5, CopyPayload, r6);
    var r5 := [CopyPayload] + r6;
    Prepend(s4, AcquireWritten, r5);
    var r4 := [AcquireWritten] + r5;
    Prepend(s3, PublishRelease, r4);
    var r3 := [PublishRelease] + r4;
    Prepend(s2, Fill(item), r3);
    var r2 := [Fill(item)] + r3;
    Prepend(s1, AcquireRead, r2);
    var r1 := [AcquireRead] + r2;
    Prepend(s0, WatchWritten, r1);
    assert Legal(s0, [WatchWritten] + r1);
  }
}
