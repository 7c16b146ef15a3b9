/**
 The converting half of the consumer, in place: the input workspace with its
 compaction, the gap list, the converter calls and the output cache. Each method
 is proved to do what the Engine function of the same step says.
 */
module Conversion {
  import opened Common
  import opened Mute
  import opened Engine
  import E = Engine
  import EnginePlay
  import Ring
  import Settings
  import TwoLap

  /** Slots a fill removes from the FIFO; a refused slot is one of them. */
  function Removed(c: Config, w: Window, offered: seq<Slot>, room: nat): (n: nat)
    ensures n <= |offered|
    decreases room
  {
    if room == 0 || w.padding || offered == [] then 0
    else
      var t := TakeSlot(c, w, offered[0]);
      if t.Kept? then 1 + Removed(c, t.window, offered[1..], room - 1) else 1
  }

  /** Slots a whole refill removes from the FIFO. */
  function RefillRemoves(c: Config, e: E.Engine, fifo: seq<Slot>): (n: nat)
    ensures n <= |fifo|
  {
    if e.resetFailed || e.cache.pcm != [] then 0 else Removed(c, e.window, fifo, E.Room(c, e.window))
  }

  /** What a refill of one call sees: the whole FIFO, and what it leaves of it. */
  function Seen(c: Config, e: E.Engine, fifo: seq<Slot>, r: Replies): Supply {
    Supply(fifo, |fifo| - RefillRemoves(c, e, fifo), r)
  }

  /** The count only steers; which slots were offered does not matter to the conversion. */
  lemma ProceedSees(c: Config, e: E.Engine, finite: bool, offered: seq<Slot>, available: nat, r: Replies)
    ensures Proceed(c, e, finite, Supply(offered, available, r)) == Proceed(c, e, finite, Supply([], available, r))
  {
    hide Convert, E.Steered;
  }

  lemma EmptyRefill(c: Config, e: E.Engine, finite: bool, fifo: seq<Slot>, r: Replies)
    requires !e.resetFailed && e.cache.pcm == []
    ensures
      var room := E.Room(c, e.window);
      var t, left := Fill(c, e.window, fifo, room), |fifo| - Removed(c, e.window, fifo, room);
      && RefillRemoves(c, e, fifo) == Removed(c, e.window, fifo, room)
      && Refill(c, e, finite, Seen(c, e, fifo, r)) ==
           if t.Kept? then Proceed(c, e.(window := Pad(t.window, finite)), finite, Supply([], left, r))
           else Refilled(e.(window := t.window, muteFault := e.muteFault || t.Fenced?), AdapterError)
  {
    hide Fill, Removed, E.Room, Pad, Proceed;
    var room := E.Room(c, e.window);
    var t := Fill(c, e.window, fifo, room);
    ProceedSees(c, e.(window := Pad(t.window, finite)), finite, fifo, |fifo| - Removed(c, e.window, fifo, room), r);
  }

  lemma FillUnfold(c: Config, w: Window, offered: seq<Slot>, room: nat)
    ensures room == 0 || w.padding || offered == [] ==>
        Fill(c, w, offered, room) == Kept(w) && Removed(c, w, offered, room) == 0
    ensures room > 0 && !w.padding && offered != [] ==>
        var t := E.TakeSlot(c, w, offered[0]);
        && Fill(c, w, offered, room) == (if t.Kept? then Fill(c, t.window, offered[1..], room - 1) else t)
        && Removed(c, w, offered, room) == (if t.Kept? then 1 + Removed(c, t.window, offered[1..], room - 1) else 1)
  {
  }

  /** The end of Conclude when something was made. */
  function Booked(e: E.Engine, start: int, generated: seq<real>, r: Replies): Refilled {
    var after := InputDelay(r.delayAfter);
    if after.None? then Refilled(e, AdapterError)
    else
      var end := Total(e.window) * BILLION - after.value;
      if end < start then Refilled(e.(cache := e.cache.(start := start, end := end), muteFault := true), AdapterError)
      else
        Refilled(e.(window := e.window.(zeroProgress := false),
                    cache := Cache(generated, 0, |generated|, e.cache.missing, start, end)), Ready)
  }

  /** The end of Conclude when nothing was. */
  function Stalled(c: Config, e: E.Engine, stalled: bool): Refilled {
    Refilled(e.(window := e.window.(zeroProgress := stalled), cache := e.cache.(offset := 0)),
             if stalled && |e.window.input| == c.settings.capacity then AdapterError else Starved)
  }

  lemma ConcludeSplits(c: Config, e: E.Engine, start: int, made: Converted, r: Replies)
    requires made.used <= |e.window.input|
    ensures
      var n := e.(window := Consume(e.window, made.used));
      Conclude(c, e, start, made, r) ==
        if made.generated != [] then Booked(n, start, made.generated, r) else Stalled(c, n, made.used == 0)
  {
  }

  class Conversion {
    const config: Config
    const input: array<real>
    const output: array<real>
    var inputOffset: nat
    var inputPending: nat
    var outputOffset: nat
    var outputPending: nat
    var outputMissing: bool
    var sourceTaken: nat
    var sourceAccepted: nat
    var paddingAccepted: nat
    var inputPadding: bool
    var gaps: seq<GapSpan>
    var zeroProgress: bool
    var occupancy: nat
    var ratio: real
    var resetFailed: bool
    var sourceBase: Option<Base>
    var cacheStart: int
    var cacheEnd: int
    var cacheCount: nat
    var muteFault: bool
    ghost var fed: seq<real>
    ghost var floor: int

    ghost predicate Sized() {
      && ValidConfig(config) && input != output
      && input.Length == output.Length == config.settings.capacity
    }

    ghost predicate Valid()
      reads this`inputOffset, this`inputPending, this`outputOffset, this`outputPending
    {
      Sized() && inputOffset + inputPending <= input.Length && outputOffset + outputPending <= output.Length
    }

    /** The source side as Engine sees it: only the pending part of the workspace matters. */
    ghost function Window(): Window
      requires inputOffset + inputPending <= input.Length
      reads this`inputOffset, this`inputPending, this`inputPadding, this`sourceTaken, this`sourceAccepted
      reads this`paddingAccepted, this`gaps, this`sourceBase, this`zeroProgress, this`fed, this`floor, input
    {
      E.Window(input[inputOffset..inputOffset + inputPending], inputPadding, sourceTaken, sourceAccepted,
                    paddingAccepted, gaps, sourceBase, zeroProgress, fed, floor)
    }

    ghost function Cached(): Cache
      requires outputOffset + outputPending <= output.Length
      reads this`outputOffset, this`outputPending, this`cacheCount, this`outputMissing, this`cacheStart,
          this`cacheEnd, output
    {
      Cache(output[outputOffset..outputOffset + outputPending], outputOffset, cacheCount, outputMissing, cacheStart,
            cacheEnd)
    }

    ghost function Now(): E.Engine
      requires Valid()
      reads this, input, output
    {
      E.Engine(Window(), Cached(), Settings.Control(occupancy, ratio), muteFault, resetFailed)
    }

    constructor (c: Config)
      requires ValidConfig(c)
      ensures Valid() && config == c && fresh(input) && fresh(output)
      ensures Now() == E.Engine(EMPTY_WINDOW, Cache([], 0, 0, false, 0, 0), Settings.RESTING, false, false)
    {
      config := c;
      input := new real[c.settings.capacity](_ => 0.0);
      output := new real[c.settings.capacity](_ => 0.0);
      inputOffset, inputPending, outputOffset, outputPending, outputMissing := 0, 0, 0, 0, false;
      sourceTaken, sourceAccepted, paddingAccepted, inputPadding, gaps := 0, 0, 0, false, [];
      zeroProgress, occupancy, ratio, resetFailed, sourceBase := false, 0, 0.0, false, None;
      cacheStart, cacheEnd, cacheCount, muteFault := 0, 0, 0, false;
      fed, floor := [], 0;
    }

    /** Move pending input to the front before more is appended, unless it fits where it is. */
    method MakeInputSpace(additional: nat)
      requires Valid() && inputPending + additional <= input.Length
      modifies this`inputOffset, input
      ensures Valid() && inputOffset + inputPending + additional <= input.Length
      ensures Window() == old(Window())
    {
      if inputOffset == 0 || inputOffset + inputPending + additional <= input.Length {
        return;
      }
      ghost var was := input[..];
      forall i | 0 <= i < inputPending {
        input[i] := input[inputOffset + i];
      }
      assert input[..inputPending] == was[inputOffset..inputOffset + inputPending];
      inputOffset := 0;
    }

    /** Remember the first stamp as the base; any later one must continue it. */
    method NoteStamp(stamp: Stamp) returns (continues: bool)
      modifies this`sourceBase
      ensures old(sourceBase).None? ==>
          sourceBase == Some(Base(stamp.generation, stamp.source - sourceTaken)) && continues
      ensures old(sourceBase).Some? ==>
          && sourceBase == old(sourceBase)
          && continues == (sourceBase.value.generation == stamp.generation
                           && sourceBase.value.offset + sourceTaken == stamp.source)
    {
      if sourceBase.None? {
        sourceBase := Some(Base(stamp.generation, stamp.source - sourceTaken));
      }
      continues := sourceBase.value.generation == stamp.generation
          && sourceBase.value.offset + sourceTaken == stamp.source;
    }

    /** Extend the last span, or start one if the preallocated list still has room. */
    method NoteGap() returns (ok: bool)
      modifies this`gaps
      ensures ok == !(!(old(gaps) != [] && old(gaps)[|old(gaps)| - 1].end == sourceTaken)
                      && |old(gaps)| == config.gapRoom)
      ensures gaps == if ok then Mark(old(gaps), sourceTaken) else old(gaps)
    {
      if gaps != [] && gaps[|gaps| - 1].end == sourceTaken {
        gaps := gaps[..|gaps| - 1] + [gaps[|gaps| - 1].(end := gaps[|gaps| - 1].end + 1)];
      } else {
        if |gaps| == config.gapRoom {
          return false;
        }
        gaps := gaps + [GapSpan(sourceTaken, sourceTaken + 1)];
      }
      ok := true;
    }

    method Append(pcm: real)
      requires Valid() && inputOffset + inputPending < input.Length
      modifies this`sourceTaken, this`inputPending, input
      ensures Valid() && inputPending == old(inputPending) + 1
      ensures Window() == old(Window()).(taken := old(sourceTaken) + 1, input := old(Window()).input + [pcm])
    {
      ghost var was := Window();
      sourceTaken := sourceTaken + 1;
      input[inputOffset + inputPending] := pcm;
      inputPending := inputPending + 1;
      assert Window().input == was.input + [pcm];
    }

    /** Check the stamp and note a gap: everything a slot changes but the sample itself. */
    method Inspect(slot: Slot) returns (kept: bool)
      requires Valid()
      modifies this`sourceBase, this`muteFault, this`gaps
      ensures
        var w, t := old(Window()), E.TakeSlot(config, old(Window()), slot);
        && kept == t.Kept? && muteFault == (old(muteFault) || t.Fenced?)
        && Window() == w.(base := BaseAfter(w, slot),
                          gaps := if kept && slot.missing then Mark(w.gaps, w.taken) else w.gaps)
    {
      hide Mark;
      if slot.stamp.Some? {
        var continues := NoteStamp(slot.stamp.value);
        if !continues {
          muteFault := true;
          return false;
        }
      }
      kept := true;
      if slot.missing {
        kept := NoteGap();
      }
    }

    /** Take a slot into the workspace, or refuse it. */
    method TakeSlot(slot: Slot) returns (kept: bool)
      requires Valid() && inputOffset + inputPending < input.Length
      modifies this`sourceBase, this`muteFault, this`gaps, this`sourceTaken, this`inputPending, input
      ensures Valid()
      ensures
        var t := E.TakeSlot(config, old(Window()), slot);
        Window() == t.window && kept == t.Kept? && muteFault == (old(muteFault) || t.Fenced?)
      ensures inputPending == if kept then old(inputPending) + 1 else old(inputPending)
    {
      ghost var w := Window();
      kept := Inspect(slot);
      hide Mark, Window, Continues, BaseAfter;
      if kept {
        Append(slot.pcm);
      }
    }

    /** This object's arrays are not the ring's. */
    ghost predicate Apart(ring: Ring.Ring) {
      {input as object, output} !! {ring.storage, ring.mailbox.slots}
    }

    /** Move the oldest FIFO slot into the workspace, if there is one. */
    method TakeNext(ring: Ring.Ring) returns (found: bool, kept: bool)
      requires Valid() && ring.Valid() && Apart(ring) && inputOffset + inputPending < input.Length
      modifies this`sourceBase, this`muteFault, this`gaps, this`sourceTaken, this`inputPending, input, ring`read
      ensures Valid() && ring.Valid() && ring.mailbox.Contents() == old(ring.mailbox.Contents())
      ensures found == (old(ring.Fifo()) != [])
      ensures !found ==> Window() == old(Window()) && ring.Fifo() == [] && inputPending == old(inputPending)
                         && muteFault == old(muteFault)
      ensures found ==>
          var t := E.TakeSlot(config, old(Window()), old(ring.Fifo())[0]);
          && Window() == t.window && kept == t.Kept? && muteFault == (old(muteFault) || t.Fenced?)
          && ring.Fifo() == old(ring.Fifo())[1..]
          && inputPending == if kept then old(inputPending) + 1 else old(inputPending)
    {
      hide E.TakeSlot;
      var slot := ring.ConsumerTakeSourceSample();
      found, kept := slot.Some?, true;
      if found {
        kept := TakeSlot(slot.value);
      }
    }

    /** Fill up to the wanted count, or until the FIFO is empty or a slot is refused. */
    method FillInput(ring: Ring.Ring, desired: nat) returns (kept: bool)
      requires Valid() && ring.Valid() && Apart(ring) && inputOffset + Max(desired, inputPending) <= input.Length
      modifies this`sourceBase, this`muteFault, this`gaps, this`sourceTaken, this`inputPending, input, ring`read
      ensures Valid() && ring.Valid() && ring.mailbox.Contents() == old(ring.mailbox.Contents())
      ensures
        var room := Monus(desired, old(inputPending));
        var t := Fill(config, old(Window()), old(ring.Fifo()), room);
        && Window() == t.window && kept == t.Kept? && muteFault == (old(muteFault) || t.Fenced?)
        && ring.Fifo() == old(ring.Fifo())[Removed(config, old(Window()), old(ring.Fifo()), room)..]
    {
      hide Fill, Removed, E.TakeSlot, TwoLap.Valid, TwoLap.Contents, TwoLap.Distance, ValidConfig;
      ghost var w, fifo, room := Window(), ring.Fifo(), Monus(desired, inputPending);
      while inputPending < desired
        invariant Valid() && ring.Valid() && ring.mailbox.Contents() == old(ring.mailbox.Contents())
        invariant inputOffset + Max(desired, inputPending) <= input.Length && muteFault == old(muteFault)
        invariant Fill(config, Window(), ring.Fifo(), Monus(desired, inputPending)) == Fill(config, w, fifo, room)
        invariant ring.Fifo()[Removed(config, Window(), ring.Fifo(), Monus(desired, inputPending))..]
               == fifo[Removed(config, w, fifo, room)..]
      {
        FillUnfold(config, Window(), ring.Fifo(), Monus(desired, inputPending));
        if inputPadding {
          break;
        }
        var found, ok := TakeNext(ring);
        if !found {
          break;
        }
        if !ok {
          return false;
        }
      }
      FillUnfold(config, Window(), ring.Fifo(), Monus(desired, inputPending));
      kept := true;
    }

    /** A finite source that is exhausted is extended by zeros that are not missing. */
    method PadInput(finite: bool)
      requires Valid()
      modifies this`inputOffset, this`inputPending, this`inputPadding, input
      ensures Valid() && Window() == Pad(old(Window()), finite)
    {
      if inputPending == 0 && finite {
        forall i | 0 <= i < QUANTUM {
          input[i] := 0.0;
        }
        inputOffset, inputPending, inputPadding := 0, QUANTUM, true;
      }
    }

    /** Follow the occupancy slowly; a finite tail or an empty system only needs some ratio. */
    method SteerRatio(available: nat, queued: nat, finite: bool)
      requires Valid()
      modifies this`occupancy, this`ratio
      ensures Now() == E.Steered(config, old(Now()), finite, available, queued)
    {
      var observed := (available + inputPending + queued) * 1000;
      if observed != 0 && !finite {
        occupancy := if occupancy == 0 then observed else Settings.Filtered(occupancy, observed);
        var next := if ratio == 0.0 then Settings.Nominal(config.settings)
                    else ratio + (Settings.Desired(config.settings, occupancy) - ratio) / 512.0;
        ratio := Settings.Clamp(next, Settings.MINIMUM_RATIO, Settings.MAXIMUM_RATIO);
      } else if ratio == 0.0 {
        ratio := Settings.Nominal(config.settings);
      }
    }

    /** Forget the spans the position has passed. */
    method PruneGaps(position: nat)
      modifies this`gaps
      ensures gaps == Prune(old(gaps), position)
    {
      while gaps != [] && position >= gaps[0].end
        invariant Prune(gaps, position) == Prune(old(gaps), position)
        decreases |gaps|
      {
        gaps := gaps[1..];
      }
    }

    /** Prune to the next output's frame and see whether the first span left covers it. */
    method LocateNext(delay: nat) returns (missing: bool)
      requires Valid() && gaps != []
      modifies this`gaps, this`floor
      ensures Window() == Locate(old(Window()), delay) && missing == LiesInGap(old(Window()), delay)
    {
      hide Prune, CeilDiv;
      var position := sourceAccepted + paddingAccepted - CeilDiv(delay, BILLION);
      missing := false;
      if position >= 0 {
        PruneGaps(position);
        missing := gaps != [] && position >= gaps[0].start;
      }
      floor := Max(floor, position);
    }

    method SetMissing(missing: bool)
      requires Valid()
      modifies this`outputMissing
      ensures outputMissing == missing && Cached() == old(Cached()).(missing := missing)
    {
      outputMissing := missing;
    }

    /** Mark the next output by the slot it lies on, if any gap is still listed. */
    method MarkNext(r: Replies) returns (ok: bool)
      requires Valid()
      modifies this`gaps, this`outputMissing, this`floor
      ensures Now() == EnginePlay.Marked(old(Now()), r)
      ensures ok == !(old(gaps) != [] && InputDelay(r.delayForGaps).None?)
    {
      assert Window().gaps == gaps;
      hide Window, Cached, Locate, LiesInGap;
      var missing := false;
      ok := true;
      if gaps != [] {
        var delay := InputDelay(r.delayForGaps);
        if delay.None? {
          ok := false;
        } else {
          missing := LocateNext(delay.value);
        }
      }
      SetMissing(missing);
    }

    /** The adapter writes its outputs from the start of the cache. */
    method Receive(generated: seq<real>)
      requires Valid() && outputPending == 0 && |generated| <= output.Length
      modifies output
      ensures output[..|generated|] == generated && Cached() == old(Cached())
    {
      forall i | 0 <= i < |generated| {
        output[i] := generated[i];
      }
    }

    static lemma SliceTail(s: seq<real>, from: nat, end: nat, used: nat)
      requires from + used <= end <= |s|
      ensures s[from..end][used..] == s[from + used..end]
    {
    }

    /** Count the frames the converter accepted. */
    method Consume(used: nat)
      requires Valid() && used <= inputPending
      modifies this`inputOffset, this`inputPending, this`paddingAccepted, this`sourceAccepted, this`fed
      ensures Valid() && Window() == E.Consume(old(Window()), used)
    {
      hide ValidConfig;
      ghost var w := Window();
      SliceTail(input[..], inputOffset, inputOffset + inputPending, used);
      inputOffset, inputPending := inputOffset + used, inputPending - used;
      if inputPadding {
        paddingAccepted := paddingAccepted + used;
      } else {
        sourceAccepted := sourceAccepted + used;
        fed := fed + w.input[..used];
      }
      assert Window().input == w.input[used..];
    }

    method SetProgress(stalled: bool)
      requires Valid()
      modifies this`zeroProgress
      ensures zeroProgress == stalled && Window() == old(Window()).(zeroProgress := stalled)
    {
      zeroProgress := stalled;
    }

    /** Note where a batch lies. */
    method SetSpan(start: int, end: int)
      requires Valid()
      modifies this`cacheStart, this`cacheEnd
      ensures Cached() == old(Cached()).(start := start, end := end)
    {
      cacheStart, cacheEnd := start, end;
    }

    /** The first samples of the cache are now waiting to be played. */
    method SetBatch(generated: seq<real>)
      requires Valid() && outputPending == 0 && |generated| <= output.Length && output[..|generated|] == generated
      modifies this`cacheCount, this`outputOffset, this`outputPending
      ensures Valid()
      ensures Cached() == if generated == [] then old(Cached()).(offset := 0)
                          else old(Cached()).(pcm := generated, offset := 0, count := |generated|)
    {
      if generated != [] {
        cacheCount := |generated|;
      }
      outputOffset, outputPending := 0, |generated|;
    }

    /** Store a batch that does not end before it starts; the alternative is a fault. */
    method StoreBatch(start: int, end: int, generated: seq<real>) returns (outcome: Outcome)
      requires Valid() && outputPending == 0 && 0 < |generated| <= output.Length && output[..|generated|] == generated
      modifies this`cacheStart, this`cacheEnd, this`cacheCount, this`outputOffset, this`outputPending
      modifies this`zeroProgress, this`muteFault
      ensures Valid()
      ensures outcome == if end < start then AdapterError else Ready
      ensures muteFault == (old(muteFault) || end < start)
      ensures Window() == if end < start then old(Window()) else old(Window()).(zeroProgress := false)
      ensures Cached() == if end < start then old(Cached()).(start := start, end := end)
                          else Cache(generated, 0, |generated|, old(Cached()).missing, start, end)
    {
      hide Window, Cached;
      SetSpan(start, end);
      if end < start {
        muteFault := true;
        outcome := AdapterError;
      } else {
        SetBatch(generated);
        SetProgress(false);
        outcome := Ready;
      }
    }

    /** Where the new batch lies, by the adapter's last answer. */
    method BookBatch(start: int, generated: seq<real>, r: Replies) returns (outcome: Outcome)
      requires Valid() && outputPending == 0 && 0 < |generated| <= output.Length && output[..|generated|] == generated
      modifies this`cacheStart, this`cacheEnd, this`cacheCount, this`outputOffset, this`outputPending
      modifies this`zeroProgress, this`muteFault
      ensures Valid()
      ensures var out := Booked(old(Now()), start, generated, r); Now() == out.engine && outcome == out.outcome
    {
      assert Total(Window()) == sourceAccepted + paddingAccepted;
      hide Window, Cached, Total;
      var after := InputDelay(r.delayAfter);
      if after.None? {
        outcome := AdapterError;
      } else {
        outcome := StoreBatch(start, (sourceAccepted + paddingAccepted) * BILLION - after.value, generated);
      }
    }

    method BookNothing(used: nat) returns (outcome: Outcome)
      requires Valid() && outputPending == 0
      modifies this`cacheCount, this`outputOffset, this`outputPending, this`zeroProgress
      ensures Valid()
      ensures var out := Stalled(config, old(Now()), used == 0); Now() == out.engine && outcome == out.outcome
    {
      assert |Window().input| == inputPending;
      hide Window, Cached;
      SetBatch([]);
      SetProgress(used == 0);
      outcome := if zeroProgress && inputPending == config.settings.capacity then AdapterError else Starved;
    }

    /** Take the adapter's outputs in and its accepted inputs out. */
    method Accept(made: Converted)
      requires Valid() && outputPending == 0 && made.used <= inputPending && |made.generated| <= output.Length
      modifies this`inputOffset, this`inputPending, this`paddingAccepted, this`sourceAccepted, this`fed, output
      ensures Valid() && output[..|made.generated|] == made.generated
      ensures Window() == E.Consume(old(Window()), made.used) && Cached() == old(Cached())
    {
      hide E.Consume, Window, Cached;
      Receive(made.generated);
      Consume(made.used);
      RewindEmpty();
    }

    /** Book what the converter used and made. */
    method ConcludeConversion(start: int, made: Converted, r: Replies) returns (outcome: Outcome)
      requires Valid() && outputPending == 0 && made.used <= inputPending && |made.generated| <= output.Length
      modifies this`inputOffset, this`inputPending, this`paddingAccepted, this`sourceAccepted, this`fed
      modifies this`cacheStart, this`cacheEnd, this`cacheCount, this`outputOffset, this`outputPending
      modifies this`zeroProgress, this`muteFault, output
      ensures Valid()
      ensures
        var out := Conclude(config, old(Now()), start, made, r);
        Now() == out.engine && outcome == out.outcome
    {
      assert |Window().input| == inputPending;
      hide Conclude, E.Consume, Booked, Stalled, Window, Cached;
      ConcludeSplits(config, Now(), start, made, r);
      Accept(made);
      if made.generated != [] {
        outcome := BookBatch(start, made.generated, r);
      } else {
        outcome := BookNothing(made.used);
      }
    }

    /** An empty workspace starts over at its front. */
    method RewindEmpty()
      requires Valid()
      modifies this`inputOffset
      ensures Valid() && Window() == old(Window())
    {
      if inputPending == 0 {
        inputOffset := 0;
      }
    }

    /** Model bookkeeping of the second delay query. */
    ghost method NoteFloor(delay: nat)
      requires Valid()
      modifies this`floor
      ensures Window() == See(old(Window()), delay)
    {
      if gaps == [] {
        floor := Max(floor, Frame(Window(), delay));
      }
    }

    /** One conversion of what the workspace holds: mark, query, convert, book. */
    method ConvertQuantum(r: Replies) returns (outcome: Outcome)
      requires Valid() && outputPending == 0
      modifies this`gaps, this`outputMissing, this`floor
      modifies this`inputOffset, this`inputPending, this`paddingAccepted, this`sourceAccepted, this`fed
      modifies this`cacheStart, this`cacheEnd, this`cacheCount, this`outputOffset, this`outputPending
      modifies this`zeroProgress, this`muteFault, output
      ensures Valid()
      ensures
        var out := Convert(config, old(Now()), r);
        Now() == out.engine && outcome == out.outcome
    {
      hide Convert, Conclude, EnginePlay.Marked, See, Window, Cached;
      WindowFacts();
      EnginePlay.ConvertCases(config, Now(), r);
      var ok := MarkNext(r);
      outcome := AdapterError;
      if ok {
        outcome := ConvertMarked(r);
      }
    }

    /** Total frames accepted and the pending count, as the window has them. */
    lemma WindowFacts()
      requires Valid()
      ensures Total(Window()) == sourceAccepted + paddingAccepted && |Window().input| == inputPending
      ensures Window().gaps == gaps && Window().zeroProgress == zeroProgress && Window().padding == inputPadding
      ensures QUANTUM <= output.Length
    {
    }

    /** The next output is marked: query its position, convert, and book. */
    method ConvertMarked(r: Replies) returns (outcome: Outcome)
      requires Valid() && outputPending == 0
      modifies this`floor
      modifies this`inputOffset, this`inputPending, this`paddingAccepted, this`sourceAccepted, this`fed
      modifies this`cacheStart, this`cacheEnd, this`cacheCount, this`outputOffset, this`outputPending
      modifies this`zeroProgress, this`muteFault, output
      ensures Valid()
      ensures
        var m := old(Now());
        var made := Process(|m.window.input|, if m.window.gaps == [] then QUANTUM else 1, m.control.ratio, r.processed);
        var before := InputDelay(r.delayBefore);
        if before.None? || made.None? then Now() == m && outcome.AdapterError?
        else
          var seen := See(m.window, before.value);
          && made.value.used <= |seen.input|
          && var out := Conclude(config, m.(window := seen), Total(m.window) * BILLION - before.value, made.value, r);
          Now() == out.engine && outcome == out.outcome
    {
      hide Conclude, See, Window, Cached, Total, Frame;
      WindowFacts();
      outcome := AdapterError;
      var before := InputDelay(r.delayBefore);
      if before.Some? {
        var start := (sourceAccepted + paddingAccepted) * BILLION - before.value;
        var made := Process(inputPending, if gaps == [] then QUANTUM else 1, ratio, r.processed);
        if made.Some? {
          NoteFloor(before.value);
          WindowFacts();
          outcome := ConcludeConversion(start, made.value, r);
        }
      }
    }

    lemma RoomFits()
      requires Valid()
      ensures
        var desired := if zeroProgress then Min(inputPending + QUANTUM, config.settings.capacity) else QUANTUM;
        Monus(desired, inputPending) == E.Room(config, Window()) && Max(desired, inputPending) <= input.Length
    {
    }

    /** Fill the workspace: make space, take slots, pad an exhausted finite tail. */
    method FillWorkspace(ring: Ring.Ring, finite: bool) returns (kept: bool)
      requires Valid() && ring.Valid() && Apart(ring)
      modifies this`inputOffset, this`inputPending, this`inputPadding
      modifies this`sourceBase, this`muteFault, this`gaps, this`sourceTaken, input, ring`read
      ensures Valid() && ring.Valid() && ring.mailbox.Contents() == old(ring.mailbox.Contents())
      ensures
        var room := E.Room(config, old(Window()));
        var t := Fill(config, old(Window()), old(ring.Fifo()), room);
        && kept == t.Kept? && muteFault == (old(muteFault) || t.Fenced?)
        && Window() == (if kept then Pad(t.window, finite) else t.window)
        && ring.Fifo() == old(ring.Fifo())[Removed(config, old(Window()), old(ring.Fifo()), room)..]
    {
      hide Fill, Removed, Window, E.Room, Pad, TwoLap.Valid, TwoLap.Contents, TwoLap.Distance, ValidConfig;
      var desired := if zeroProgress then Min(inputPending + QUANTUM, config.settings.capacity) else QUANTUM;
      RoomFits();
      MakeInputSpace(Monus(desired, inputPending));
      kept := FillInput(ring, desired);
      if kept {
        PadInput(finite);
      }
    }

    /** Steer by what is queued, then convert once. */
    method SteerAndConvert(ring: Ring.Ring, finite: bool, r: Replies) returns (outcome: Outcome)
      requires Valid() && ring.Valid() && Apart(ring) && outputPending == 0
      modifies this`occupancy, this`ratio
      modifies this`gaps, this`outputMissing, this`floor
      modifies this`inputOffset, this`inputPending, this`paddingAccepted, this`sourceAccepted, this`fed
      modifies this`cacheStart, this`cacheEnd, this`cacheCount, this`outputOffset, this`outputPending
      modifies this`zeroProgress, this`muteFault, output
      ensures Valid() && ring.Valid() && ring.Fifo() == old(ring.Fifo())
      ensures ring.mailbox.Contents() == old(ring.mailbox.Contents())
      ensures
        var out := Proceed(config, old(Now()), finite, Supply([], |old(ring.Fifo())|, r));
        Now() == out.engine && outcome == out.outcome
    {
      WindowFacts();
      hide Convert, E.Steered, Window, Cached;
      if inputPending == 0 && zeroProgress {
        return Starved;
      }
      if r.queued.None? {
        return AdapterError;
      }
      var available := ring.Available();
      SteerRatio(available, r.queued.value, finite);
      outcome := ConvertQuantum(r);
    }

    /** The same with the whole state in view. */
    method FillNow(ring: Ring.Ring, finite: bool) returns (kept: bool)
      requires Valid() && ring.Valid() && Apart(ring) && outputPending == 0
      modifies this, input, ring`read
      ensures Valid() && ring.Valid() && ring.mailbox.Contents() == old(ring.mailbox.Contents()) && outputPending == 0
      ensures
        var e, fifo := old(Now()), old(ring.Fifo());
        var room := E.Room(config, e.window);
        var t := Fill(config, e.window, fifo, room);
        && kept == t.Kept?
        && Now() == e.(window := if kept then Pad(t.window, finite) else t.window,
                       muteFault := e.muteFault || t.Fenced?)
        && ring.Fifo() == fifo[Removed(config, e.window, fifo, room)..]
    {
      hide Fill, Removed, Window, Cached, E.Room, Pad, TwoLap.Valid, TwoLap.Contents, TwoLap.Distance, ValidConfig;
      kept := FillWorkspace(ring, finite);
    }

    method SteerAndConvertNow(ring: Ring.Ring, finite: bool, r: Replies) returns (outcome: Outcome)
      requires Valid() && ring.Valid() && Apart(ring) && outputPending == 0
      modifies this, output
      ensures Valid() && ring.Valid() && ring.Fifo() == old(ring.Fifo())
      ensures ring.mailbox.Contents() == old(ring.mailbox.Contents())
      ensures Refilled(Now(), outcome) == Proceed(config, old(Now()), finite, Supply([], |old(ring.Fifo())|, r))
    {
      hide Proceed, Window, Cached, TwoLap.Valid, TwoLap.Contents, TwoLap.Distance, ValidConfig;
      outcome := SteerAndConvert(ring, finite, r);
    }

    /** With nothing cached: fill, steer, convert. */
    method RefillEmpty(ring: Ring.Ring, finite: bool, r: Replies, ghost e: E.Engine, ghost fifo: seq<Slot>)
      returns (outcome: Outcome)
      requires Valid() && ring.Valid() && Apart(ring) && outputPending == 0 && !resetFailed
      requires e == Now() && fifo == ring.Fifo()
      modifies this, input, output, ring`read
      ensures Valid() && ring.Valid() && ring.mailbox.Contents() == old(ring.mailbox.Contents())
      ensures ring.Fifo() == fifo[RefillRemoves(config, e, fifo)..]
      ensures Refilled(Now(), outcome) == Refill(config, e, finite, Seen(config, e, fifo, r))
    {
      assert e.cache.pcm == [];
      EmptyRefill(config, e, finite, fifo, r);
      hide Fill, Removed, Window, Cached, E.Room, Pad, Proceed, Refill, RefillRemoves, Seen, TwoLap.Valid,
        TwoLap.Contents, TwoLap.Distance, ValidConfig;
      outcome := AdapterError;
      var kept := FillNow(ring, finite);
      if kept {
        outcome := SteerAndConvertNow(ring, finite, r);
      }
    }

    /** Keep what is cached; otherwise fill, steer and convert once. */
    method RefillOutput(ring: Ring.Ring, finite: bool, r: Replies) returns (outcome: Outcome)
      requires Valid() && ring.Valid() && Apart(ring)
      modifies this, input, output, ring`read
      ensures Valid() && ring.Valid() && ring.mailbox.Contents() == old(ring.mailbox.Contents())
      ensures ring.Fifo() == old(ring.Fifo())[RefillRemoves(config, old(Now()), old(ring.Fifo()))..]
      ensures
        var out := Refill(config, old(Now()), finite, Seen(config, old(Now()), old(ring.Fifo()), r));
        Now() == out.engine && outcome == out.outcome
    {
      assert outputPending == |Cached().pcm|;
      hide Fill, Removed, Window, Cached, E.Room, Pad, Proceed;
      if resetFailed {
        outcome := AdapterError;
      } else if outputPending != 0 {
        outcome := Ready;
      } else {
        outcome := RefillEmpty(ring, finite, r, Now(), ring.Fifo());
      }
    }

    /** Where the next cached output lies, in billionths of a frame. */
    method CacheSourcePosition() returns (at: int)
      requires Valid() && cacheCount > 0 && cacheStart <= cacheEnd
      ensures at == CachePosition(Cached())
    {
      at := cacheStart + (cacheEnd - cacheStart) * outputOffset / cacheCount;
    }

    /** The same on the producer's timeline, as the slots on both sides of it. */
    method CacheSupport() returns (at: Option<Position>)
      requires Valid() && cacheCount > 0 && cacheStart <= cacheEnd
      ensures at == Support(Now())
    {
      if sourceBase.None? {
        return None;
      }
      var source := CacheSourcePosition();
      var position := source + sourceBase.value.offset * BILLION;
      hide CachePosition, PositionAt;
      var low, high := position / BILLION, (position + 999_999_999) / BILLION;
      if low < 0 || low > LARGEST_POSITION || high < 0 || high > LARGEST_POSITION {
        return None;
      }
      at := Some(Position(sourceBase.value.generation, low, high));
    }

    /** Play the next cached sample. */
    method TakeCached() returns (sample: real)
      requires Valid() && outputPending > 0
      modifies this`outputOffset, this`outputPending
      ensures Valid() && sample == old(Cached()).pcm[0] && Now() == PopCache(old(Now()), Ready)
    {
      ghost var k := Cached();
      sample := output[outputOffset];
      outputOffset, outputPending := outputOffset + 1, outputPending - 1;
      if outputPending == 0 {
        outputOffset := 0;
      }
      assert Cached().pcm == k.pcm[1..];
    }

    method ResetSource()
      requires Valid()
      modifies this`inputOffset, this`inputPending, this`inputPadding, this`sourceTaken, this`sourceAccepted
      modifies this`paddingAccepted, this`gaps, this`sourceBase, this`zeroProgress, this`fed, this`floor
      ensures Valid() && Window() == EMPTY_WINDOW
    {
      inputOffset, inputPending := 0, 0;
      sourceTaken, sourceAccepted, paddingAccepted, inputPadding := 0, 0, 0, false;
      gaps, sourceBase, zeroProgress := [], None, false;
      fed, floor := [], 0;
    }

    method ResetCache()
      requires Valid()
      modifies this`outputOffset, this`outputPending, this`outputMissing, this`cacheCount
      ensures Valid() && Cached() == old(Cached()).(pcm := [], offset := 0, missing := false, count := 0)
    {
      outputOffset, outputPending, outputMissing, cacheCount := 0, 0, false, 0;
    }

    /** Forget the ended burst even if the adapter cannot reset; then stay blocked until it can. */
    method Reset(ok: bool)
      requires Valid()
      modifies this
      ensures Valid() && Now() == Cleared(old(Now()), ok)
    {
      hide Window, Cached, ValidConfig;
      ResetSource();
      ResetCache();
      resetFailed, muteFault, occupancy, ratio := !ok, false, 0, 0.0;
    }
  }
}
