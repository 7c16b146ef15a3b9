/** The preallocated gap list always suffices while the adapter keeps its retention bound. */
module EngineBounds {
  import opened Common
  import opened Engine
  import opened EngineSource
  import Settings

  /**
   Assumption: the adapter never holds more than its declared backlog, one
   capacity and the FIR history, behind what it has accepted.
   */
  predicate Retained(c: Config, r: Replies) {
    var most := (c.settings.capacity + c.history) * BILLION;
    && (r.delayForGaps.Some? ==> r.delayForGaps.value <= most)
    && (r.delayBefore.Some? ==> r.delayBefore.value <= most)
  }

  /** The workspace fits, and the furthest frame seen is at most one conversion out of date. */
  predicate Near(c: Config, w: Window) {
    && |w.input| <= c.settings.capacity
    && 0 <= w.floor <= Total(w) <= w.floor + 2 * c.settings.capacity + c.history
  }

  lemma {:induction false} SpansTakeRoom(gaps: seq<GapSpan>, floor: nat)
    requires Apart(gaps) && gaps != [] && forall k | 0 <= k < |gaps| :: floor < gaps[k].end
    ensures 2 * |gaps| - 1 <= gaps[|gaps| - 1].end - floor
    decreases |gaps|
  {
    if |gaps| > 1 {
      var front := gaps[..|gaps| - 1];
      SpansTakeRoom(front, floor);
      assert front[|front| - 1] == gaps[|gaps| - 2];
    }
  }

  /** Non-touching spans in a window of three capacities and the history never fill the list. */
  lemma TakeNotCrowded(c: Config, w: Window, log: seq<Slot>, slot: Slot)
    requires ValidConfig(c) && SourceInv(w, log) && Near(c, w) && !w.padding
    ensures !TakeSlot(c, w, slot).Crowded?
  {
    if w.gaps != [] {
      SpansTakeRoom(w.gaps, w.floor);
    }
  }

  /** Taking one slot keeps the window near and within one more frame of room. */
  lemma TakeStaysNear(c: Config, w: Window, log: seq<Slot>, slot: Slot)
    requires ValidConfig(c) && SourceInv(w, log) && Near(c, w) && !w.padding && |w.input| < c.settings.capacity
    ensures
      var t := TakeSlot(c, w, slot);
      !t.Crowded? && (t.Kept? ==> Near(c, t.window) && |t.window.input| == |w.input| + 1)
  {
    TakeNotCrowded(c, w, log, slot);
    hide SourceInv, Continues, Mark, ValidConfig;
  }

  lemma {:induction false} FillNotCrowded(c: Config, w: Window, log: seq<Slot>, offered: seq<Slot>, room: nat)
    requires ValidConfig(c) && SourceInv(w, log) && Near(c, w) && w.taken <= |log| && offered <= log[w.taken..]
    requires |w.input| + room <= c.settings.capacity
    ensures !Fill(c, w, offered, room).Crowded?
    ensures Fill(c, w, offered, room).Kept? ==> Near(c, Fill(c, w, offered, room).window)
    decreases room
  {
    hide SourceInv, TakeSlot, Near, ValidConfig, Stamped;
    if room > 0 && !w.padding && offered != [] {
      NextOffered(log, w.taken, offered);
      TakeKeeps(c, w, log);
      TakeStaysNear(c, w, log, offered[0]);
      var t := TakeSlot(c, w, offered[0]);
      if t.Kept? {
        FillNotCrowded(c, t.window, log, offered[1..], room - 1);
      }
    }
  }

  lemma RoomFits(c: Config, w: Window)
    requires ValidConfig(c) && |w.input| <= c.settings.capacity
    ensures |w.input| + Room(c, w) <= c.settings.capacity
  {
  }

  /** What a prune or a look leaves: the converter's backlog, no more. */
  predicate Close(c: Config, w: Window) {
    && |w.input| <= c.settings.capacity
    && 0 <= w.floor <= Total(w) <= w.floor + c.settings.capacity + c.history
  }

  lemma FrameIsClose(c: Config, w: Window, delay: nat)
    requires delay <= (c.settings.capacity + c.history) * BILLION
    ensures Frame(w, delay) >= Total(w) - (c.settings.capacity + c.history)
    ensures Frame(w, delay) <= Total(w)
  {
    CeilDivCovers(delay, BILLION, c.settings.capacity + c.history);
  }

  lemma LocateIsClose(c: Config, w: Window, delay: nat)
    requires Near(c, w) && delay <= (c.settings.capacity + c.history) * BILLION
    ensures Close(c, Locate(w, delay)) && Near(c, Locate(w, delay))
  {
    FrameIsClose(c, w, delay);
    hide Frame, Prune, BILLION;
  }

  lemma SeeIsClose(c: Config, w: Window, delay: nat)
    requires Near(c, w) && delay <= (c.settings.capacity + c.history) * BILLION
    requires w.gaps == [] || Close(c, w)
    ensures Close(c, See(w, delay))
  {
    FrameIsClose(c, w, delay);
    hide Frame, BILLION;
  }

  lemma ConsumeIsNear(c: Config, w: Window, used: nat, stalled: bool)
    requires Close(c, w) && used <= |w.input|
    ensures Near(c, Consume(w, used)) && Near(c, Consume(w, used).(zeroProgress := stalled))
  {
  }

  lemma ConcludeNear(c: Config, e: Engine, start: int, made: Converted, r: Replies)
    requires Close(c, e.window) && made.used <= |e.window.input|
    ensures Near(c, Conclude(c, e, start, made, r).engine.window)
  {
    ConsumeIsNear(c, e.window, made.used, false);
    ConsumeIsNear(c, e.window, made.used, true);
    hide Consume, Near, Close;
  }

  lemma ConvertNear(c: Config, e: Engine, r: Replies)
    requires Near(c, e.window) && Retained(c, r)
    ensures Near(c, Convert(c, e, r).engine.window)
  {
    hide Near, Close, Locate, See, Conclude, LiesInGap;
    var gapDelay := InputDelay(r.delayForGaps);
    if e.window.gaps != [] && gapDelay.Some? {
      LocateIsClose(c, e.window, gapDelay.value);
    }
    var w := if e.window.gaps != [] && gapDelay.Some? then Locate(e.window, gapDelay.value) else e.window;
    var missing := e.window.gaps != [] && gapDelay.Some? && LiesInGap(e.window, gapDelay.value);
    var before := InputDelay(r.delayBefore);
    var converted := Process(|w.input|, if w.gaps == [] then QUANTUM else 1, e.control.ratio, r.processed);
    if !(e.window.gaps != [] && gapDelay.None?) && before.Some? && converted.Some? {
      SeeIsClose(c, w, before.value);
      var seen := See(w, before.value);
      SeeInput(w, before.value);
      ConcludeNear(c, e.(window := seen, cache := e.cache.(missing := missing)),
                   Total(w) * BILLION - before.value, converted.value, r);
    }
  }

  lemma SeeInput(w: Window, delay: nat)
    ensures See(w, delay).input == w.input
  {
  }

  /** With the retention bound the exhaustion error is unreachable, and stays so. */
  lemma GapListSuffices(c: Config, e: Engine, finite: bool, s: Supply, log: seq<Slot>)
    requires ValidConfig(c) && SourceInv(e.window, log) && Near(c, e.window)
    requires e.window.taken <= |log| && s.offered <= log[e.window.taken..] && Retained(c, s.replies)
    ensures !Fill(c, e.window, s.offered, Room(c, e.window)).Crowded?
    ensures !Refused(c, e, s) ==> Near(c, Refill(c, e, finite, s).engine.window)
    ensures Stamped(log) ==> !Refused(c, e, s)
  {
    RoomFits(c, e.window);
    FillNotCrowded(c, e.window, log, s.offered, Room(c, e.window));
    RefillKeeps(c, e, finite, s, log);
    hide SourceInv, Stamped, Fill, Convert, Retained, Settings.Steer, Room;
    var t := Fill(c, e.window, s.offered, Room(c, e.window));
    if !Refused(c, e, s) && !e.resetFailed && e.cache.pcm == [] {
      var w := Pad(t.window, finite);
      PadNear(c, t.window, finite);
      if s.replies.queued.Some? {
        ConvertNear(c, Steered(c, e.(window := w), finite, s.available, s.replies.queued.value), s.replies);
      }
    }
  }

  lemma PadNear(c: Config, w: Window, finite: bool)
    requires ValidConfig(c) && Near(c, w)
    ensures Near(c, Pad(w, finite))
  {
  }
}
