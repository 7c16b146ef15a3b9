/** What the producer puts on the source timeline: consecutive stamps, so the consumer's fence never trips. */
module Producer {
  import opened Common
  import opened Mute
  import opened Engine
  import opened EngineSource

  /** The producer's stamp is forgotten once it notices that a reset happened. */
  function Synced(stamp: Option<Stamp>, epoch: nat, serial: nat): Option<Stamp> {
    if epoch != serial then None else stamp
  }

  /** The stamp the k-th slot from now would get. */
  function StampAt(pen: Option<Stamp>, k: nat): Option<Stamp> {
    if pen.Some? then Some(Stamp(pen.value.generation, pen.value.source + k)) else None
  }

  function Inked(slot: Slot, stamp: Option<Stamp>): Slot {
    if stamp.Some? then slot.(stamp := stamp) else slot
  }

  /** A run of slots as consecutive publications leave them. */
  function InkedAll(slots: seq<Slot>, pen: Option<Stamp>): (r: seq<Slot>)
    ensures |r| == |slots|
  {
    seq(|slots|, k requires 0 <= k < |slots| => Inked(slots[k], StampAt(pen, k)))
  }

  function PcmSlots(input: seq<real>): (r: seq<Slot>)
    ensures |r| == |input|
  {
    seq(|input|, k requires 0 <= k < |input| => Slot(Canonical(input[k]), false, None))
  }

  function GapSlots(n: nat): (r: seq<Slot>)
    ensures |r| == n
  {
    seq(n, _ => Slot(0.0, true, None))
  }

  /** Slots carrying these samples: each as it is if in range, otherwise as the bound it lies beyond. */
  predicate Sound(slots: seq<Slot>, samples: seq<real>) {
    && |slots| == |samples|
    && (forall k | 0 <= k < |slots| ::
          && !slots[k].missing
          && slots[k].pcm == if samples[k] < -1.0 then -1.0 else if samples[k] > 1.0 then 1.0 else samples[k])
  }

  predicate AllMissing(slots: seq<Slot>) {
    forall k | 0 <= k < |slots| :: slots[k].missing && slots[k].pcm == 0.0
  }

  /** What a push appends carries its samples. */
  lemma PushMeans(fifo: seq<Slot>, samples: seq<real>, pen: Option<Stamp>)
    ensures Sound((fifo + InkedAll(PcmSlots(samples), pen))[|fifo|..], samples)
  {
  }

  /** What a gap appends carries nothing. */
  lemma GapMeans(fifo: seq<Slot>, n: nat, pen: Option<Stamp>)
    ensures AllMissing((fifo + InkedAll(GapSlots(n), pen))[|fifo|..])
  {
  }

  lemma StampsCountOn(slots: seq<Slot>, pen: Option<Stamp>, k: nat)
    requires k < |slots| && slots[k].stamp.None?
    ensures
      InkedAll(slots, pen)[k].stamp ==
      if pen.None? then None else Some(Stamp(pen.value.generation, pen.value.source + k))
    ensures InkedAll(slots, pen)[k].pcm == slots[k].pcm && InkedAll(slots, pen)[k].missing == slots[k].missing
  {
  }

  /** How many of n publications in a row succeed: the FIFO may fill up, or the source count end. */
  function Accepts(n: nat, room: nat, pen: Option<Stamp>): (r: nat)
    requires pen.Some? ==> pen.value.source <= WORD_MAX
    ensures r <= n && r <= room && (pen.Some? ==> pen.value.source + r <= WORD_MAX)
    ensures r < n && r < room ==> pen.Some? && pen.value.source + r == WORD_MAX
  {
    Min(Min(n, room), if pen.Some? then WORD_MAX - pen.value.source else n)
  }

  // ---------------------------------------------------------------- the timeline since a reset

  /** One accepted publication: untagged slots, or the accepted prefix of a tagged block. */
  datatype Act = Write(slots: seq<Slot>) | Tagged(generation: nat, start: nat, pcm: seq<real>)

  datatype Timeline = Timeline(log: seq<Slot>, pen: Option<Stamp>)

  /** The source refuses a block of the running generation that does not continue it. */
  predicate Accepted(t: Timeline, act: Act) {
    match act
    case Write(slots) => forall k | 0 <= k < |slots| :: slots[k].stamp.None?
    case Tagged(generation, start, _) => t.pen.Some? && t.pen.value.generation == generation ==>
        t.pen.value.source == start
  }

  /** What callers promise besides: a new generation only after a reset. */
  predicate OneGeneration(t: Timeline, act: Act) {
    act.Tagged? && t.pen.Some? ==> act.generation == t.pen.value.generation
  }

  function Extended(t: Timeline, act: Act): Timeline {
    match act
    case Write(slots) => Timeline(t.log + InkedAll(slots, t.pen), StampAt(t.pen, |slots|))
    case Tagged(generation, start, pcm) =>
      var pen := Some(Stamp(generation, start));
      Timeline(t.log + InkedAll(PcmSlots(pcm), pen), StampAt(pen, |pcm|))
  }

  function ExtendedAll(t: Timeline, acts: seq<Act>): Timeline
    decreases |acts|
  {
    if acts == [] then t else ExtendedAll(Extended(t, acts[0]), acts[1..])
  }

  predicate Contractual(t: Timeline, acts: seq<Act>)
    decreases |acts|
  {
    acts == [] ||
    (Accepted(t, acts[0]) && OneGeneration(t, acts[0]) && Contractual(Extended(t, acts[0]), acts[1..]))
  }

  /** The pen holds the stamp that continues the log. */
  predicate PenContinues(t: Timeline) {
    && Stamped(t.log)
    && (t.log != [] && t.log[|t.log| - 1].stamp.Some? ==>
          t.pen == StampAt(t.log[|t.log| - 1].stamp, 1))
    && (t.pen.None? ==> forall k | 0 <= k < |t.log| :: t.log[k].stamp.None?)
  }

  lemma ExtendedContinues(t: Timeline, act: Act)
    requires PenContinues(t) && Accepted(t, act) && OneGeneration(t, act)
    ensures PenContinues(Extended(t, act))
  {
    var pen := if act.Tagged? then Some(Stamp(act.generation, act.start)) else t.pen;
    var slots := if act.Tagged? then PcmSlots(act.pcm) else act.slots;
    assert Extended(t, act) == Timeline(t.log + InkedAll(slots, pen), StampAt(pen, |slots|));
    assert t.log != [] && t.log[|t.log| - 1].stamp.Some? ==> pen == StampAt(t.log[|t.log| - 1].stamp, 1);
    AppendedContinues(t.log, slots, pen);
  }

  lemma AppendedContinues(log: seq<Slot>, slots: seq<Slot>, pen: Option<Stamp>)
    requires Stamped(log) && forall k | 0 <= k < |slots| :: slots[k].stamp.None?
    requires log != [] && log[|log| - 1].stamp.Some? ==> pen == StampAt(log[|log| - 1].stamp, 1)
    requires pen.None? ==> forall k | 0 <= k < |log| :: log[k].stamp.None?
    ensures PenContinues(Timeline(log + InkedAll(slots, pen), StampAt(pen, |slots|)))
  {
    var n := log + InkedAll(slots, pen);
    assert forall k | |log| <= k < |n| :: n[k].stamp == StampAt(pen, k - |log|);
    forall i | 0 <= i < |n| - 1 && n[i].stamp.Some?
      ensures n[i + 1].stamp == Some(Stamp(n[i].stamp.value.generation, n[i].stamp.value.source + 1))
    {
      if i + 1 < |log| {
        assert log[i + 1].stamp == Some(Stamp(log[i].stamp.value.generation, log[i].stamp.value.source + 1));
      }
    }
  }

  lemma {:induction false} RunContinues(t: Timeline, acts: seq<Act>)
    requires PenContinues(t) && Contractual(t, acts)
    ensures PenContinues(ExtendedAll(t, acts))
    decreases |acts|
  {
    if acts != [] {
      ExtendedContinues(t, acts[0]);
      hide PenContinues, Extended;
      RunContinues(Extended(t, acts[0]), acts[1..]);
    }
  }

  /**
   Under the caller contract, whatever mix of tagged blocks, untagged pushes, gaps
   and partial acceptances follows a reset, the stamps are consecutive once
   tagging has begun; so no fill of any prefix is ever fenced.
   */
  lemma StampsNeverFence(acts: seq<Act>, c: Config, w: Window, offered: seq<Slot>, room: nat)
    requires Contractual(Timeline([], None), acts)
    requires
      var log := ExtendedAll(Timeline([], None), acts).log;
      SourceInv(w, log) && w.taken <= |log| && offered <= log[w.taken..]
    ensures Stamped(ExtendedAll(Timeline([], None), acts).log)
    ensures !Fill(c, w, offered, room).Fenced?
  {
    RunContinues(Timeline([], None), acts);
    FillKeeps(c, w, ExtendedAll(Timeline([], None), acts).log, offered, room);
    hide SourceInv, ExtendedAll, Fill;
  }

  /** Exactly when a nonempty tagged block keeps the stamps consecutive behind a stamped slot. */
  lemma TaggedBlockContinues(t: Timeline, generation: nat, start: nat, pcm: seq<real>)
    requires PenContinues(t) && t.log != [] && t.log[|t.log| - 1].stamp.Some? && pcm != []
    ensures Stamped(Extended(t, Tagged(generation, start, pcm)).log) <==>
            generation == t.pen.value.generation && start == t.pen.value.source
  {
    var act := Tagged(generation, start, pcm);
    var n, at := Extended(t, act).log, |t.log| - 1;
    assert n[at] == t.log[at] && n[at + 1].stamp == Some(Stamp(generation, start));
    if generation == t.pen.value.generation && start == t.pen.value.source {
      ExtendedContinues(t, act);
    } else {
      assert n[at + 1].stamp != Some(Stamp(n[at].stamp.value.generation, n[at].stamp.value.source + 1));
    }
  }

  /** The contract is needed: the source accepts a second generation without a reset, and the consumer faults on it. */
  lemma UnannouncedGenerationFaults(c: Config)
    requires ValidConfig(c)
    ensures
      var first, second := Tagged(1, 0, [0.5]), Tagged(2, 0, [0.5]);
      var t := Extended(Timeline([], None), first);
      && Accepted(Timeline([], None), first) && Accepted(t, second)
      && Fill(c, EMPTY_WINDOW, Extended(t, second).log, QUANTUM).Fenced?
  {
    var first, second := Tagged(1, 0, [0.5]), Tagged(2, 0, [0.5]);
    var a, b := Slot(0.5, false, Some(Stamp(1, 0))), Slot(0.5, false, Some(Stamp(2, 0)));
    var t := Extended(Timeline([], None), first);
    assert t.log == [a];
    assert Extended(t, second).log == [a, b];
    hide Extended;
    SecondGenerationFenced(c, a, b);
  }

  lemma SecondGenerationFenced(c: Config, a: Slot, b: Slot)
    requires !a.missing && a.stamp.Some? && b.stamp.Some? && a.stamp.value.generation != b.stamp.value.generation
    ensures Fill(c, EMPTY_WINDOW, [a, b], QUANTUM).Fenced?
  {
    var t := TakeSlot(c, EMPTY_WINDOW, a);
    assert t.Kept? && t.window.base == Some(Base(a.stamp.value.generation, a.stamp.value.source));
    assert [a, b][1..] == [b] && TakeSlot(c, t.window, b).Fenced?;
    hide TakeSlot;
    FenceShows(c, EMPTY_WINDOW, [a, b], QUANTUM);
    FenceShows(c, t.window, [b], QUANTUM - 1);
  }

  lemma FenceShows(c: Config, w: Window, offered: seq<Slot>, room: nat)
    requires room > 0 && !w.padding && offered != []
    ensures
      var t := TakeSlot(c, w, offered[0]);
      Fill(c, w, offered, room) == if t.Kept? then Fill(c, t.window, offered[1..], room - 1) else t
  {
  }
}
