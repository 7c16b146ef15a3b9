/** What goes wrong fails closed: exactly what stops a refill, and what the listener and the caller get of it. */
module EngineFaults {
  import opened Common
  import opened Mute
  import opened Engine
  import opened EngineSource
  import opened EnginePlay
  import PlcSpec
  import Settings

  // ---------------------------------------------------------------- exactly what stops a refill

  /** A delay query answered with an error, or below zero. */
  predicate BadDelay(raw: Option<int>) {
    raw.None? || raw.value < 0
  }

  /** A conversion answered with an error, or with more than was offered. */
  predicate BadConversion(raw: Option<Converted>, offered: nat, room: nat) {
    raw.None? || raw.value.used > offered || |raw.value.generated| > room
  }

  /** The next output lies before the end of the last gap known. */
  predicate GapAhead(w: Window, delay: Option<int>) {
    w.gaps != [] && delay.Some? && delay.value >= 0 && Frame(w, delay.value) < w.gaps[|w.gaps| - 1].end
  }

  /** After accepting so many frames the converter says it is further behind than those can explain. */
  predicate RanBack(r: Replies) {
    r.processed.Some? && r.delayBefore.Some? && r.delayAfter.Some? &&
    r.delayAfter.value > r.delayBefore.value + r.processed.value.used * 1_000_000_000
  }

  /** Of a filled workspace: an error or a nonsense reply, a clock running back, or no progress and no room. */
  predicate CannotConvert(c: Config, w: Window, r: Replies) {
    || r.queued.None? || (w.gaps != [] && BadDelay(r.delayForGaps)) || BadDelay(r.delayBefore)
    || BadConversion(r.processed, |w.input|, if GapAhead(w, r.delayForGaps) then 1 else 256)
    || (r.processed.value.generated != [] && (BadDelay(r.delayAfter) || RanBack(r)))
    || (r.processed.value.generated == [] && r.processed.value.used == 0 && |w.input| == c.settings.capacity)
  }

  lemma {:induction false} PruneLeaves(gaps: seq<GapSpan>, position: nat)
    requires Apart(gaps)
    ensures Prune(gaps, position) != [] <==> gaps != [] && position < gaps[|gaps| - 1].end
    decreases |gaps|
  {
    if gaps != [] && position >= gaps[0].end {
      PruneLeaves(gaps[1..], position);
    } else if |gaps| > 1 {
      assert gaps[0].end < gaps[|gaps| - 1].start;
    }
  }

  lemma LocateLeaves(w: Window, delay: nat)
    requires Apart(w.gaps)
    ensures Locate(w, delay).gaps != [] <==> GapAhead(w, Some(delay))
    ensures Locate(w, delay).input == w.input && Total(Locate(w, delay)) == Total(w)
  {
    if Frame(w, delay) >= 0 {
      PruneLeaves(w.gaps, Frame(w, delay));
    } else if w.gaps != [] {
      assert w.gaps[|w.gaps| - 1].start >= 0;
    }
  }

  lemma ConvertFailsExactly(c: Config, e: Engine, r: Replies)
    requires e.cache.pcm == [] && Apart(e.window.gaps) && e.control.ratio > 0.0 && r.queued.Some?
    ensures Convert(c, e, r).outcome.AdapterError? <==> CannotConvert(c, e.window, r)
    ensures Convert(c, e, r).engine.muteFault <==>
      e.muteFault || (Booked(e.window, r) && RanBack(r))
  {
    hide Convert, Conclude, Marked, See, Total, GapAhead, Frame, Apart, Locate, LiesInGap;
    ConvertCases(c, e, r);
    MarkedLeaves(e, r);
    var m := Marked(e, r);
    var made := Process(|m.window.input|, if m.window.gaps == [] then QUANTUM else 1, e.control.ratio, r.processed);
    var before := InputDelay(r.delayBefore);
    if before.Some? && made.Some? {
      SeeShape(m.window, before.value);
      ConcludeFails(c, m, before.value, made.value, r);
    }
  }

  /** The converter was asked, answered sensibly and made output. */
  predicate Booked(w: Window, r: Replies) {
    && !(w.gaps != [] && BadDelay(r.delayForGaps)) && !BadDelay(r.delayBefore) && !BadDelay(r.delayAfter)
    && !BadConversion(r.processed, |w.input|, if GapAhead(w, r.delayForGaps) then 1 else 256)
    && r.processed.value.generated != []
  }

  lemma MarkedLeaves(e: Engine, r: Replies)
    requires Apart(e.window.gaps)
    ensures
      var m := Marked(e, r);
      && m.muteFault == e.muteFault && m.window.input == e.window.input && Total(m.window) == Total(e.window)
      && m.cache.pcm == e.cache.pcm
      && (!(e.window.gaps != [] && BadDelay(r.delayForGaps)) ==>
            (m.window.gaps != [] <==> GapAhead(e.window, r.delayForGaps)))
  {
    hide GapAhead, Frame, Total, Locate, LiesInGap, Apart;
    NoGapAhead(e.window, r.delayForGaps);
    if e.window.gaps != [] && r.delayForGaps.Some? && r.delayForGaps.value >= 0 {
      LocateLeaves(e.window, r.delayForGaps.value);
    }
  }

  lemma NoGapAhead(w: Window, delay: Option<int>)
    ensures w.gaps == [] ==> !GapAhead(w, delay)
  {
  }

  lemma ConcludeFails(c: Config, m: Engine, before: nat, made: Converted, r: Replies)
    requires made.used <= |m.window.input| && r.processed == Some(made) && r.delayBefore == Some(before)
    ensures
      var e := m.(window := See(m.window, before));
      var out := Conclude(c, e, Total(m.window) * BILLION - before, made, r);
      && made.used <= |e.window.input|
      && (out.outcome.AdapterError? <==>
            if made.generated != [] then BadDelay(r.delayAfter) || RanBack(r)
            else made.used == 0 && |m.window.input| == c.settings.capacity)
      && (out.engine.muteFault <==> m.muteFault || (made.generated != [] && !BadDelay(r.delayAfter) && RanBack(r)))
  {
    SeeShape(m.window, before);
    ConsumeTotal(See(m.window, before), made.used);
  }

  lemma ConsumeTotal(w: Window, used: nat)
    requires used <= |w.input|
    ensures Total(Consume(w, used)) == Total(w) + used && |Consume(w, used).input| == |w.input| - used
  {
  }

  /** What the fill leaves for the converter, zero extension of an ended source included. */
  function Workspace(c: Config, e: Engine, finite: bool, s: Supply): Window {
    Pad(Fill(c, e.window, s.offered, Room(c, e.window)).window, finite)
  }

  /** A refill that has something to convert. */
  predicate Converts(c: Config, e: Engine, finite: bool, s: Supply) {
    && !e.resetFailed && e.cache.pcm == [] && Fill(c, e.window, s.offered, Room(c, e.window)).Kept?
    && var w := Workspace(c, e, finite, s); !(w.input == [] && w.zeroProgress)
  }

  /**
   Whatever the adapter answers, a refill fails if and only if the last reset
   failed, a slot was refused, or it has something to convert and cannot; it then
   leaves nothing to play. It raises a mute fault if and only if a stamp broke the
   source timeline or the converter's clock ran back.
   */
  lemma RefillFailsExactly(c: Config, e: Engine, finite: bool, s: Supply)
    requires ValidConfig(c) && Settings.RatioInRange(c.settings, e.control) && Apart(Workspace(c, e, finite, s).gaps)
    ensures
      var r, t, w := Refill(c, e, finite, s), Fill(c, e.window, s.offered, Room(c, e.window)),
                     Workspace(c, e, finite, s);
      && (r.outcome.AdapterError? <==>
            e.resetFailed || (e.cache.pcm == [] && !t.Kept?)
            || (Converts(c, e, finite, s) && CannotConvert(c, w, s.replies)))
      && (r.engine.muteFault <==>
            e.muteFault || (!e.resetFailed && e.cache.pcm == [] && t.Fenced?)
            || (Converts(c, e, finite, s) && s.replies.queued.Some? && Booked(w, s.replies) && RanBack(s.replies)))
      && (r.outcome.Ready? <==> !e.resetFailed && r.engine.cache.pcm != [])
  {
    hide Fill, Room, Pad, Convert, CannotConvert, Booked, RanBack, Apart, Steered, Settings.RatioInRange, ValidConfig;
    var w := Workspace(c, e, finite, s);
    if Converts(c, e, finite, s) && s.replies.queued.Some? {
      var ready := Steered(c, e.(window := w), finite, s.available, s.replies.queued.value);
      SteeredShape(c, e.(window := w), finite, s.available, s.replies.queued.value);
      ConvertFailsExactly(c, ready, s.replies);
      ConvertBehind(c, ready, s.replies);
    }
    QueuedFirst(c, w, s.replies);
  }

  lemma QueuedFirst(c: Config, w: Window, r: Replies)
    ensures r.queued.None? ==> CannotConvert(c, w, r)
  {
  }

  lemma SteeredShape(c: Config, e: Engine, finite: bool, available: nat, queued: nat)
    requires ValidConfig(c) && Settings.RatioInRange(c.settings, e.control)
    ensures
      var n := Steered(c, e, finite, available, queued);
      n.control.ratio > 0.0 && n == e.(control := n.control)
  {
    Settings.SteerInRange(c.settings, e.control, (available + |e.window.input| + queued) * 1000, finite);
    hide Settings.Steer, Settings.RatioInRange;
  }

  // ---------------------------------------------------------------- the gap list keeps its room

  lemma {:induction false} FillWithinRoom(c: Config, w: Window, offered: seq<Slot>, room: nat)
    requires |w.gaps| <= c.gapRoom
    ensures |Fill(c, w, offered, room).window.gaps| <= c.gapRoom
    decreases room
  {
    if room > 0 && !w.padding && offered != [] {
      var t := TakeSlot(c, w, offered[0]);
      assert |t.window.gaps| <= c.gapRoom;
      if t.Kept? {
        FillWithinRoom(c, t.window, offered[1..], room - 1);
      }
    }
  }

  lemma RefillWithinRoom(c: Config, e: Engine, finite: bool, s: Supply)
    requires |e.window.gaps| <= c.gapRoom
    ensures |Refill(c, e, finite, s).engine.window.gaps| <= c.gapRoom
  {
    hide Fill, Room, Convert, Settings.Steer;
    FillWithinRoom(c, e.window, s.offered, Room(c, e.window));
    if Converts(c, e, finite, s) && s.replies.queued.Some? {
      ConvertWithinRoom(
        c, Steered(c, e.(window := Workspace(c, e, finite, s)), finite, s.available, s.replies.queued.value),
        s.replies);
    }
  }

  lemma ConvertWithinRoom(c: Config, e: Engine, r: Replies)
    ensures |Convert(c, e, r).engine.window.gaps| <= |e.window.gaps|
  {
    hide Convert, Marked, See;
    ConvertCases(c, e, r);
    MarkedShape(e, r);
    if InputDelay(r.delayBefore).Some? {
      SeeShape(Marked(e, r).window, InputDelay(r.delayBefore).value);
    }
  }

  lemma {:induction false} LoopWithinRoom(c: Config, e: Engine, supplies: seq<Supply>)
    requires supplies != [] && |e.window.gaps| <= c.gapRoom
    ensures |RefillLoop(c, e, supplies).engine.window.gaps| <= c.gapRoom
    decreases |supplies|
  {
    hide Refill;
    RefillWithinRoom(c, e, true, supplies[0]);
    if Refill(c, e, true, supplies[0]).outcome.Starved? && |supplies| > 1 {
      LoopWithinRoom(c, Refill(c, e, true, supplies[0]).engine, supplies[1..]);
    }
  }

  lemma RenderWithinRoom(c: Config, p: Player, s: Scene)
    requires WellFormed(c, p) && ValidScene(c, s) && |p.engine.window.gaps| <= c.gapRoom
    ensures |Render(c, p, s).player.engine.window.gaps| <= c.gapRoom
  {
    EnterKeepsShape(c, p, s);
    RenderShape(c, p, s);
    if Render(c, p, s).acknowledged.None? {
      WindowAfter(c, p, s);
      if Enter(c, p, s).Playing? {
        var q := Enter(c, p, s).player;
        if q.finite.Some? {
          LoopWithinRoom(c, q.engine, s.supplies);
        } else {
          RefillWithinRoom(c, q.engine, false, s.supplies[0]);
        }
      }
    }
    hide Render, Enter, Refill, WellFormed, RefillLoop;
  }

  /** Whatever the adapter and the producer do, over any run the gap list stays within the room reserved for it. */
  lemma {:induction false} GapListKeepsItsRoom(c: Config, w: World, events: seq<Event>)
    requires Possible(c, w, events) && |w.player.engine.window.gaps| <= c.gapRoom
    ensures |Run(c, w, events).player.engine.window.gaps| <= c.gapRoom
    decreases |events|
  {
    if events != [] {
      if events[0].Call? {
        RenderWithinRoom(c, w.player, events[0].scene);
      }
      hide Render, Allowed, WellFormed, Reached, RefusedDuring;
      GapListKeepsItsRoom(c, Then(c, w, events[0]), events[1..]);
    }
  }

  // ---------------------------------------------------------------- what is heard and reported of it

  /** What a call gives the concealer or plays: real silence where muted, the sample in range, or nothing. */
  function Given(muted: bool, ready: bool, cache: Cache): Option<real> {
    if muted then Some(0.0)
    else if !ready || cache.pcm == [] || cache.missing then None
    else Some(if cache.pcm[0] > 1.0 then 1.0 else if cache.pcm[0] < -1.0 then -1.0 else cache.pcm[0])
  }

  /** The player of a converting call once its cache is refilled, and how the refill went. */
  function Refreshed(c: Config, p: Player, s: Scene): (Player, Outcome)
    requires ValidScene(c, s)
  {
    var q := Enter(c, p, s).player;
    var r := Refilling(c, q, s);
    (q.(engine := r.engine), r.outcome)
  }

  /**
   A call that plays takes a muted output for real silence and never for a loss; a
   missing one, or none, for a loss. Without the concealer that is what is heard,
   flagged real exactly if it is; with it, what enters the lookahead.
   */
  lemma LossIsConcealed(c: Config, p: Player, s: Scene)
    requires WellFormed(c, p) && ValidScene(c, s) && Enter(c, p, s).Playing?
    requires
      var (n, outcome) := Refreshed(c, p, s);
      (n.finite.Some? ==> outcome.Ready? && !PastEnd(n)) && !n.engine.muteFault && !n.engine.resetFailed
    ensures
      var (n, outcome) := Refreshed(c, p, s);
      var r, at := Render(c, p, s), if outcome.Ready? then Support(n.engine) else None;
      var given := Given(MutedAt(n, at), outcome.Ready?, n.engine.cache);
      if p.plc.None? then
        r.sample == (if given.Some? then given.value else 0.0) && r.fromPcm == given.Some?
      else
        && WellFormed(c, n)
        && var call := PlcSpec.Process(c.settings.outputRate, p.plc.value, given);
           && r.player.plc == Some(call.state) && r.fromPcm == call.played.fromPcm
           && r.sample == if MutedAt(n, p.positions[0]) then 0.0 else call.played.sample
  {
    EnterKeepsShape(c, p, s);
    hide Enter, Refilling, Support, PlcSpec.Process, PopCache, MutedAt;
  }

  lemma HeldReports(c: Config, p: Player, s: Scene)
    requires WellFormed(c, p) && ValidScene(c, s) && Enter(c, p, s).Held?
    ensures
      var q, r := Enter(c, p, s).player, Render(c, p, s);
      && r == Silent(q, r.failed)
      && (r.failed <==> q.engine.muteFault || (q.quiet && q.engine.resetFailed))
  {
    hide Absorbing;
  }

  lemma DrainReports(c: Config, q: Player, ok: bool)
    requires WellFormed(c, q) && q.finite.Some?
    ensures
      var r := DrainFinite(c, q, ok);
      && r.player.engine.muteFault == (r.acknowledged.None? && q.engine.muteFault)
      && if r.acknowledged.Some? then r.sample == 0.0 && !r.fromPcm && (r.failed <==> r.acknowledged == Some(3))
         else !r.failed
  {
    hide PlcSpec.Drain;
  }

  lemma CompleteReports(q: Player, ok: bool)
    requires q.finite.Some?
    ensures
      var r := Complete(q, true, ok);
      r.sample == 0.0 && !r.fromPcm && r.failed && r.acknowledged == Some(3) && !r.player.engine.muteFault
  {
  }

  lemma PlayReports(c: Config, q: Player, outcome: Outcome)
    requires WellFormed(c, q)
    ensures
      var r := Play(c, q, outcome);
      r.acknowledged.None? && (r.failed <==> outcome.AdapterError?) && r.player.engine.muteFault == q.engine.muteFault
  {
    hide PlcSpec.Process, Support, MutedAt;
  }

  /** Short of an error a refill raises no fault. */
  lemma UnfailedIsHealthy(c: Config, e: Engine, finite: bool, s: Supply)
    requires !Refill(c, e, finite, s).outcome.AdapterError?
    ensures Refill(c, e, finite, s).engine.muteFault == e.muteFault
  {
    hide Fill, Room, Settings.Steer, Convert;
    if Converts(c, e, finite, s) && s.replies.queued.Some? {
      ConvertIsHealthy(
        c, Steered(c, e.(window := Workspace(c, e, finite, s)), finite, s.available, s.replies.queued.value),
        s.replies);
    }
  }

  lemma ConvertIsHealthy(c: Config, e: Engine, r: Replies)
    requires !Convert(c, e, r).outcome.AdapterError?
    ensures Convert(c, e, r).engine.muteFault == e.muteFault
  {
    hide Convert, Marked, See;
    ConvertCases(c, e, r);
    MarkedShape(e, r);
  }

  lemma {:induction false} LoopIsHealthy(c: Config, e: Engine, supplies: seq<Supply>)
    requires supplies != [] && !RefillLoop(c, e, supplies).outcome.AdapterError?
    ensures RefillLoop(c, e, supplies).engine.muteFault == e.muteFault
    decreases |supplies|
  {
    hide Refill;
    var r := Refill(c, e, true, supplies[0]);
    if !r.outcome.AdapterError? {
      UnfailedIsHealthy(c, e, true, supplies[0]);
    }
    if r.outcome.Starved? && |supplies| > 1 {
      LoopIsHealthy(c, r.engine, supplies[1..]);
    }
  }

  lemma RefreshedIsHealthy(c: Config, p: Player, s: Scene)
    requires ValidScene(c, s) && Enter(c, p, s).Playing?
    ensures var (n, outcome) := Refreshed(c, p, s); n.engine.muteFault ==> outcome.AdapterError?
  {
    hide RefillLoop, Refill, Enter;
    EnterKeepsShape(c, p, s);
    var q := Enter(c, p, s).player;
    if !Refilling(c, q, s).outcome.AdapterError? {
      if q.finite.Some? {
        LoopIsHealthy(c, q.engine, s.supplies);
      } else {
        UnfailedIsHealthy(c, q.engine, false, s.supplies[0]);
      }
    }
  }

  /** What the answer of a call says of a failure, and that failing ends are silent. */
  predicate Reports(r: Rendered, failed: bool) {
    && (r.player.engine.muteFault ==> r.failed && r.sample == 0.0 && !r.fromPcm)
    && (r.acknowledged.Some? ==> (r.failed <==> r.acknowledged == Some(3)) && r.sample == 0.0 && !r.fromPcm)
    && (r.acknowledged.None? && !r.player.engine.muteFault ==> (r.failed <==> failed))
  }

  lemma ResolveReports(c: Config, n: Player, outcome: Outcome, ok: bool)
    requires WellFormed(c, n) && (n.engine.muteFault ==> outcome.AdapterError?)
    ensures Reports(Resolve(c, n, outcome, ok), n.finite.None? && outcome.AdapterError?)
  {
    hide Play, DrainFinite, Complete, CachePosition;
    PlayReports(c, n, outcome);
    if n.finite.Some? {
      CompleteReports(n, ok);
      DrainReports(c, n, ok);
    }
  }

  /**
   The failure flag of a call: up under a mute fault, up exactly with an
   adapter-error outcome where a burst ends, and otherwise up exactly if the call
   is held quiet behind a failed reset or its refill failed.
   */
  lemma FailureIsReported(c: Config, p: Player, s: Scene)
    requires WellFormed(c, p) && ValidScene(c, s)
    ensures
      var entry := Enter(c, p, s);
      Reports(Render(c, p, s),
              || (entry.Held? && entry.player.quiet && p.engine.resetFailed)
              || (entry.Playing? && entry.player.finite.None? && Refreshed(c, p, s).1.AdapterError?))
  {
    hide Enter, Resolve, DrainFinite, Refilling, Render, WellFormed, ValidScene;
    EnterKeepsShape(c, p, s);
    RenderByEntry(c, p, s);
    var entry := Enter(c, p, s);
    if entry.Held? {
      HeldReports(c, p, s);
    } else if entry.Ending? {
      DrainReports(c, entry.player, s.resetOk);
    } else {
      RefreshedIsHealthy(c, p, s);
      var (n, outcome) := Refreshed(c, p, s);
      ResolveReports(c, n, outcome, s.resetOk);
    }
  }

  lemma RenderByEntry(c: Config, p: Player, s: Scene)
    requires WellFormed(c, p) && ValidScene(c, s)
    ensures
      var entry := Enter(c, p, s);
      && WellFormed(c, entry.player)
      && (entry.Ending? ==> entry.player.finite.Some? && Render(c, p, s) == DrainFinite(c, entry.player, s.resetOk))
      && (entry.Playing? ==>
            var (n, outcome) := Refreshed(c, p, s);
            WellFormed(c, n) && Render(c, p, s) == Resolve(c, n, outcome, s.resetOk))
  {
    EnterKeepsShape(c, p, s);
    hide Enter, Resolve, DrainFinite, Refilling;
  }
}
