/**
 Whole runs of the player, with any adapter replies and any interleaving of the
 producer: the source is conserved, and a boundary reported drained was played.
 */
module EnginePlay {
  import opened Common
  import opened Mute
  import opened Engine
  import opened EngineSource
  import Handoff
  import PlcSpec
  import Settings

  // ---------------------------------------------------------------- one refill

  /** The cache's span lies behind what the converter has accepted. */
  predicate CacheBehind(e: Engine) {
    e.cache.pcm != [] ==>
      && e.cache.count == e.cache.offset + |e.cache.pcm|
      && e.cache.start <= e.cache.end <= Total(e.window) * BILLION
  }

  predicate PaddingIsLast(w: Window, log: seq<Slot>) {
    w.padding ==> w.taken == |log|
  }

  lemma ConcludeBehind(c: Config, e: Engine, start: int, made: Converted, r: Replies)
    requires made.used <= |e.window.input| && e.cache.pcm == []
    ensures CacheBehind(Conclude(c, e, start, made, r).engine)
    ensures Conclude(c, e, start, made, r).outcome.Ready? <==> Conclude(c, e, start, made, r).engine.cache.pcm != []
    ensures Conclude(c, e, start, made, r).engine.window.padding == e.window.padding
    ensures Conclude(c, e, start, made, r).engine.window.taken == e.window.taken
  {
  }

  /** What the first delay query leaves: the located window and the mark of the next output. */
  function Marked(e: Engine, r: Replies): Engine {
    if e.window.gaps == [] then e.(cache := e.cache.(missing := false))
    else
      var delay := InputDelay(r.delayForGaps);
      if delay.None? then e.(cache := e.cache.(missing := false))
      else e.(window := Locate(e.window, delay.value), cache := e.cache.(missing := LiesInGap(e.window, delay.value)))
  }

  lemma MarkedShape(e: Engine, r: Replies)
    ensures
      var m := Marked(e, r);
      && m == e.(window := e.window.(gaps := m.window.gaps, floor := m.window.floor),
                 cache := e.cache.(missing := m.cache.missing))
      && |m.window.gaps| <= |e.window.gaps|
  {
  }

  /** A conversion either fails on a reply or comes to book what the converter did. */
  lemma ConvertCases(c: Config, e: Engine, r: Replies)
    ensures
      var m := Marked(e, r);
      var made := Process(|m.window.input|, if m.window.gaps == [] then QUANTUM else 1, e.control.ratio, r.processed);
      var before := InputDelay(r.delayBefore);
      if (e.window.gaps != [] && InputDelay(r.delayForGaps).None?) || before.None? || made.None?
      then Convert(c, e, r) == Refilled(m, AdapterError)
      else
        var seen := See(m.window, before.value);
        && made.value.used <= |seen.input|
        && Convert(c, e, r) ==
             Conclude(c, m.(window := seen), Total(m.window) * BILLION - before.value, made.value, r)
  {
    hide Conclude, Locate, LiesInGap, Frame;
    SeeAny(Marked(e, r).window);
  }

  lemma SeeAny(w: Window)
    ensures forall d: nat :: See(w, d).input == w.input
  {
  }

  lemma ConvertBehind(c: Config, e: Engine, r: Replies)
    requires e.cache.pcm == []
    ensures CacheBehind(Convert(c, e, r).engine)
    ensures Convert(c, e, r).outcome.Ready? <==> Convert(c, e, r).engine.cache.pcm != []
    ensures Convert(c, e, r).engine.window.padding == e.window.padding
    ensures Convert(c, e, r).engine.window.taken == e.window.taken
  {
    hide Convert, Conclude, Marked, See, CacheBehind, Total;
    ConvertCases(c, e, r);
    MarkedShape(e, r);
    var m, before := Marked(e, r), InputDelay(r.delayBefore);
    var made := Process(|m.window.input|, if m.window.gaps == [] then QUANTUM else 1, e.control.ratio, r.processed);
    NothingCachedIsBehind(m);
    if before.Some? && made.Some? {
      SeeShape(m.window, before.value);
      ConcludeBehind(c, m.(window := See(m.window, before.value)), Total(m.window) * BILLION - before.value,
                     made.value, r);
    }
  }

  lemma SeeShape(w: Window, delay: nat)
    ensures See(w, delay) == w.(floor := See(w, delay).floor)
  {
  }

  lemma NothingCachedIsBehind(e: Engine)
    requires e.cache.pcm == []
    ensures CacheBehind(e)
  {
  }

  /** Padding begins only when a fill that could take everything found nothing. */
  lemma PadComesLast(c: Config, w: Window, log: seq<Slot>, finite: bool)
    requires ValidConfig(c) && w.taken <= |log| && PaddingIsLast(w, log)
    requires Fill(c, w, log[w.taken..], Room(c, w)).Kept?
    ensures finite ==> PaddingIsLast(Pad(Fill(c, w, log[w.taken..], Room(c, w)).window, finite), log)
    ensures !finite ==> Pad(Fill(c, w, log[w.taken..], Room(c, w)).window, finite).padding == w.padding
  {
    FillCounts(c, w, log[w.taken..], Room(c, w));
  }

  /** Everything a refill preserves of the source and the cache, short of a refusal. */
  predicate EngineInv(e: Engine, log: seq<Slot>) {
    SourceInv(e.window, log) && CacheBehind(e)
  }

  lemma RefillUnrefused(c: Config, e: Engine, finite: bool, s: Supply, log: seq<Slot>)
    requires EngineInv(e, log) && e.window.taken <= |log| && s.offered <= log[e.window.taken..]
    requires !Refused(c, e, s)
    ensures
      var out := Refill(c, e, finite, s);
      && EngineInv(out.engine, log)
      && (out.outcome.Ready? ==> out.engine.cache.pcm != [])
  {
    RefillKeeps(c, e, finite, s, log);
    hide SourceInv, Fill, Room, Pad, Convert, Settings.Steer;
    if !e.resetFailed && e.cache.pcm == [] {
      var w := Pad(Fill(c, e.window, s.offered, Room(c, e.window)).window, finite);
      ProceedBehind(c, e.(window := w), finite, s);
      hide Proceed;
    }
  }

  lemma ProceedBehind(c: Config, e: Engine, finite: bool, s: Supply)
    requires e.cache.pcm == []
    ensures
      var out := Proceed(c, e, finite, s);
      && CacheBehind(out.engine) && (out.outcome.Ready? ==> out.engine.cache.pcm != [])
      && out.engine.window.padding == e.window.padding && out.engine.window.taken == e.window.taken
  {
    hide Convert, CacheBehind, Settings.Steer;
    NothingCachedIsBehind(e);
    if s.replies.queued.Some? {
      ConvertBehind(c, Steered(c, e, finite, s.available, s.replies.queued.value), s.replies);
    }
  }

  /** A refill with any replies and any slots keeps the cache behind what was accepted. */
  lemma RefillBehind(c: Config, e: Engine, finite: bool, s: Supply)
    requires CacheBehind(e)
    ensures
      var out := Refill(c, e, finite, s);
      CacheBehind(out.engine) && (out.outcome.Ready? ==> out.engine.cache.pcm != [])
  {
    hide CacheBehind, Fill, Room, Pad, Proceed;
    if !e.resetFailed && e.cache.pcm == [] {
      var t := Fill(c, e.window, s.offered, Room(c, e.window));
      NothingCachedIsBehind(e.(window := t.window));
      NothingCachedIsBehind(e.(window := t.window, muteFault := true));
      ProceedBehind(c, e.(window := Pad(t.window, finite)), finite, s);
    }
  }

  lemma RefillPadsLast(c: Config, e: Engine, s: Supply, log: seq<Slot>)
    requires ValidConfig(c) && EngineInv(e, log) && e.window.taken <= |log| && s.offered == log[e.window.taken..]
    requires !Refused(c, e, s) && PaddingIsLast(e.window, log)
    ensures PaddingIsLast(Refill(c, e, true, s).engine.window, log)
  {
    hide SourceInv, CacheBehind, Fill, Room, Pad;
    if !e.resetFailed && e.cache.pcm == [] {
      PadComesLast(c, e.window, log, true);
      var w := Pad(Fill(c, e.window, s.offered, Room(c, e.window)).window, true);
      ProceedBehind(c, e.(window := w), true, s);
      hide Proceed;
    }
  }

  // ---------------------------------------------------------------- the finite retries

  /** Each refill of a finite tail can take every slot still in the FIFO: nothing is being published. */
  predicate LoopSees(c: Config, e: Engine, log: seq<Slot>, supplies: seq<Supply>)
    decreases |supplies|
  {
    && supplies != []
    && e.window.taken <= |log| && supplies[0].offered == log[e.window.taken..]
    && (Refill(c, e, true, supplies[0]).outcome.Starved? && |supplies| > 1 ==>
          LoopSees(c, Refill(c, e, true, supplies[0]).engine, log, supplies[1..]))
  }

  predicate LoopRefused(c: Config, e: Engine, supplies: seq<Supply>)
    decreases |supplies|
  {
    supplies != [] &&
    (Refused(c, e, supplies[0]) ||
     (Refill(c, e, true, supplies[0]).outcome.Starved? && |supplies| > 1
      && LoopRefused(c, Refill(c, e, true, supplies[0]).engine, supplies[1..])))
  }

  lemma {:induction false} LoopKeeps(c: Config, e: Engine, supplies: seq<Supply>, log: seq<Slot>)
    requires ValidConfig(c) && EngineInv(e, log) && PaddingIsLast(e.window, log)
    requires LoopSees(c, e, log, supplies) && !LoopRefused(c, e, supplies)
    ensures
      var out := RefillLoop(c, e, supplies);
      && EngineInv(out.engine, log) && PaddingIsLast(out.engine.window, log)
      && (out.outcome.Ready? ==> out.engine.cache.pcm != [])
    decreases |supplies|
  {
    hide EngineInv, PaddingIsLast, Refill, Refused;
    RefillUnrefused(c, e, true, supplies[0], log);
    RefillPadsLast(c, e, supplies[0], log);
    var r := Refill(c, e, true, supplies[0]);
    if r.outcome.Starved? && |supplies| > 1 {
      LoopKeeps(c, r.engine, supplies[1..], log);
    }
  }

  // ---------------------------------------------------------------- positions against the boundary

  lemma PositionWithin(k: Cache, o: nat)
    requires k.count >= 1 && k.start <= k.end && o <= k.count
    ensures k.start <= PositionAt(k, o) <= k.end
  {
    var span := k.end - k.start;
    MulMonotone(0, o, span);
    MulMonotone(o, k.count, span);
    assert (span + 1) * k.count == span * k.count + k.count;
    QuotientBetween(span * o, 0, span + 1, k.count);
  }

  predicate AllAccepted(w: Window, log: seq<Slot>) {
    w.taken == w.accepted == |log|
  }

  /** An output at or past the last published slot exists only once every slot was accepted. */
  lemma PastEndMeansAllAccepted(p: Player, log: seq<Slot>)
    requires EngineInv(p.engine, log) && PaddingIsLast(p.engine.window, log) && p.engine.cache.pcm != []
    requires p.finite.Some? && p.finite.value.end == |log| && PastEnd(p)
    ensures AllAccepted(p.engine.window, log)
  {
    PositionWithin(p.engine.cache, p.engine.cache.offset);
    assert Total(p.engine.window) >= |log|;
    hide GapsExact, Stamped, CachePosition;
  }

  /** Once one output lies at or past the boundary so does every later one: none before it is dropped. */
  lemma RestIsPastEnd(p: Player, o: nat)
    requires CacheBehind(p.engine) && p.engine.cache.pcm != [] && p.finite.Some? && PastEnd(p)
    requires p.engine.cache.offset <= o <= p.engine.cache.count
    ensures p.finite.value.end * BILLION <= PositionAt(p.engine.cache, o)
  {
    var k := p.engine.cache;
    var span := k.end - k.start;
    MulMonotone(k.offset, o, span);
    var q, r := span * k.offset / k.count, span * o / k.count;
    if r < q {
      MulMonotone(r + 1, q, k.count);
    }
  }

  // ---------------------------------------------------------------- the player between calls

  /** Everything the player remembers of the published slots, and what it knows of a boundary. */
  predicate PlayerInv(c: Config, p: Player, log: seq<Slot>) {
    && EngineInv(p.engine, log)
    && (p.finite.None? ==> !p.engine.window.padding)
    && (p.finite.Some? ==>
          && !p.quiet && p.finite.value.end == |log| && PaddingIsLast(p.engine.window, log)
          && (p.finite.value.draining.Some? ==> AllAccepted(p.engine.window, log)))
  }

  /** What a call sees agrees with the slots published: Spsc.dfy and Handoff.dfy justify it. */
  predicate Sees(c: Config, p: Player, log: seq<Slot>, s: Scene) {
    && p.engine.window.taken <= |log|
    && (p.finite.None? && Handoff.Pending(s.word) ==> s.atCapture == |log| - p.engine.window.taken)
    && (var entry := Enter(c, p, s);
        entry.Playing? ==>
          if entry.player.finite.Some? then LoopSees(c, entry.player.engine, log, s.supplies)
          else s.supplies != [] && s.supplies[0].offered <= log[p.engine.window.taken..])
  }

  /** A refill of this call was refused a slot, by the stamp fence or the gap list. */
  predicate RefusedDuring(c: Config, p: Player, s: Scene)
    requires s.supplies != []
  {
    var entry := Enter(c, p, s);
    entry.Playing? &&
      if entry.player.finite.Some? then LoopRefused(c, entry.player.engine, s.supplies)
      else Refused(c, entry.player.engine, s.supplies[0])
  }

  lemma EnterKeeps(c: Config, p: Player, log: seq<Slot>, s: Scene)
    requires PlayerInv(c, p, log) && Sees(c, p, log, s)
    ensures PlayerInv(c, Enter(c, p, s).player, log)
    ensures Enter(c, p, s).Ending? ==> AllAccepted(Enter(c, p, s).player.engine.window, log)
  {
    EnterKeepsShape(c, p, s);
    hide Enter, GapsExact, Stamped;
  }

  lemma RefillingKeeps(c: Config, q: Player, log: seq<Slot>, s: Scene)
    requires ValidConfig(c) && PlayerInv(c, q, log) && q.engine.window.taken <= |log| && s.supplies != []
    requires q.finite.Some? ==> LoopSees(c, q.engine, log, s.supplies) && !LoopRefused(c, q.engine, s.supplies)
    requires q.finite.None? ==>
      s.supplies[0].offered <= log[q.engine.window.taken..] && !Refused(c, q.engine, s.supplies[0])
    ensures
      var r := Refilling(c, q, s);
      && EngineInv(r.engine, log)
      && (q.finite.Some? ==> PaddingIsLast(r.engine.window, log))
      && (q.finite.None? ==> !r.engine.window.padding)
      && (r.outcome.Ready? ==> r.engine.cache.pcm != [])
  {
    if q.finite.Some? {
      LoopKeeps(c, q.engine, s.supplies, log);
    } else {
      RefillUnrefused(c, q.engine, false, s.supplies[0], log);
      RefillNeverPads(c, q.engine, s.supplies[0]);
    }
    hide EngineInv, Refill, Refused;
  }

  lemma RefillNeverPads(c: Config, e: Engine, s: Supply)
    requires !e.window.padding && !Refused(c, e, s)
    ensures !Refill(c, e, false, s).engine.window.padding
  {
    hide Fill, Room;
    if !e.resetFailed && e.cache.pcm == [] {
      var t := Fill(c, e.window, s.offered, Room(c, e.window));
      FillCounts(c, e.window, s.offered, Room(c, e.window));
      ProceedBehind(c, e.(window := Pad(t.window, false)), false, s);
      hide Proceed;
    }
  }

  // ---------------------------------------------------------------- one call

  lemma DrainShape(c: Config, q: Player, ok: bool)
    requires WellFormed(c, q) && q.finite.Some?
    ensures
      var r := DrainFinite(c, q, ok);
      && WellFormed(c, r.player)
      && (r.acknowledged.None? ==>
            && r.player == q.(finite := r.player.finite, plc := r.player.plc,
                              positions := r.player.positions, mutes := r.player.mutes)
            && r.player.finite.Some? && r.player.finite.value.end == q.finite.value.end
            && r.player.finite.value.token == q.finite.value.token && r.player.finite.value.draining.Some?)
      && (r.acknowledged.Some? ==>
            && (q.finite.value.draining == Some(0) || (q.finite.value.draining.None? && q.positions == []))
            && (r.acknowledged.value == Handoff.DRAINED <==> ok)
            && r.player.finite.None? && r.player.engine.window == EMPTY_WINDOW && r.player.engine.cache.pcm == [])
  {
    hide PlcSpec.Drain;
    if q.plc.Some? {
      CompleteShape(c, q, false, ok);
    }
  }

  lemma CompleteShape(c: Config, q: Player, adapterFailed: bool, ok: bool)
    requires WellFormed(c, q) && q.finite.Some?
    ensures
      var r := Complete(q, adapterFailed, ok);
      && WellFormed(c, r.player) && r.player.finite.None? && r.player.engine.window == EMPTY_WINDOW
      && r.player.engine.cache.pcm == [] && r.acknowledged.Some?
      && (r.acknowledged.value == Handoff.DRAINED <==> ok && !adapterFailed)
  {
  }

  lemma PlayShape(c: Config, q: Player, outcome: Outcome)
    requires WellFormed(c, q)
    ensures
      var r := Play(c, q, outcome);
      && WellFormed(c, r.player) && r.acknowledged.None?
      && r.player == q.(engine := PopCache(q.engine, outcome), plc := r.player.plc,
                        positions := r.player.positions, mutes := r.player.mutes)
  {
    hide PlcSpec.Process, Support, PopCache;
  }

  lemma PopKeeps(e: Engine, outcome: Outcome, log: seq<Slot>)
    requires EngineInv(e, log)
    ensures EngineInv(PopCache(e, outcome), log)
    ensures PopCache(e, outcome).window == e.window
  {
    hide SourceInv;
  }

  /** How one call ends for a player that has kept its account of the source. */
  predicate Kept(c: Config, p: Player, log: seq<Slot>, reached: Window, r: Rendered) {
    && WellFormed(c, r.player)
    && (r.acknowledged.None? ==> PlayerInv(c, r.player, log))
    && (r.acknowledged.Some? ==>
          && r.player.finite.None? && r.player.engine.window == EMPTY_WINDOW && r.player.engine.cache.pcm == []
          && (r.acknowledged.value == Handoff.DRAINED ==> AllAccepted(reached, log)))
  }

  lemma DrainKept(c: Config, q: Player, log: seq<Slot>, ok: bool)
    requires WellFormed(c, q) && q.finite.Some? && PlayerInv(c, q, log) && AllAccepted(q.engine.window, log)
    ensures Kept(c, q, log, q.engine.window, DrainFinite(c, q, ok))
  {
    DrainShape(c, q, ok);
    hide EngineInv, DrainFinite, WellFormed;
  }

  lemma AdvanceKept(c: Config, q: Player, log: seq<Slot>, s: Scene)
    requires ValidConfig(c) && WellFormed(c, q) && ValidScene(c, s) && PlayerInv(c, q, log)
    requires q.finite.Some? ==> q.finite.value.draining.None?
    requires q.engine.window.taken <= |log|
    requires q.finite.Some? ==> LoopSees(c, q.engine, log, s.supplies) && !LoopRefused(c, q.engine, s.supplies)
    requires q.finite.None? ==>
      s.supplies[0].offered <= log[q.engine.window.taken..] && !Refused(c, q.engine, s.supplies[0])
    ensures Kept(c, q, log, Refilling(c, q, s).engine.window, Advance(c, q, s))
  {
    RefillingKeeps(c, q, log, s);
    var r := Refilling(c, q, s);
    var n := q.(engine := r.engine);
    hide EngineInv, Refilling, Play, DrainFinite, Complete, PopCache, AllAccepted, CachePosition;
    if q.finite.Some? && !r.outcome.Ready? {
      CompleteShape(c, n, true, s.resetOk);
    } else if PastEnd(n) {
      PastEndMeansAllAccepted(n, log);
      DrainKept(c, n, log, s.resetOk);
    } else if !n.engine.muteFault {
      PlayShape(c, n, r.outcome);
      PopKeeps(n.engine, r.outcome, log);
    }
  }

  /** The window at the moment a call would complete a boundary. */
  function Reached(c: Config, p: Player, s: Scene): Window
    requires s.supplies != []
  {
    var entry := Enter(c, p, s);
    if entry.Playing? then Refilling(c, entry.player, s).engine.window else p.engine.window
  }

  lemma RenderKept(c: Config, p: Player, log: seq<Slot>, s: Scene)
    requires ValidConfig(c) && WellFormed(c, p) && ValidScene(c, s) && PlayerInv(c, p, log)
    requires Sees(c, p, log, s) && !RefusedDuring(c, p, s)
    ensures Kept(c, p, log, Reached(c, p, s), Render(c, p, s))
  {
    EnterKeeps(c, p, log, s);
    EnterKeepsShape(c, p, s);
    var q := Enter(c, p, s).player;
    hide EngineInv, Enter, Advance, DrainFinite, AllAccepted, Refused, Refilling;
    match Enter(c, p, s) {
      case Held(_, _) =>
      case Ending(_) => DrainKept(c, q, log, s.resetOk);
      case Playing(_) => AdvanceKept(c, q, log, s);
    }
  }

  // ---------------------------------------------------------------- whole runs

  /**
   The player, every slot published since its last reset, and whether no slot has
   been refused since then. A refusal is the fail-closed exit the account ends at.
   */
  datatype World = World(player: Player, log: seq<Slot>, intact: bool)

  datatype Event = Arrive(slots: seq<Slot>) | Call(scene: Scene) | ResetCall(ok: bool)

  /** While a boundary is captured the producer is gated; a call sees published slots only. */
  predicate Allowed(c: Config, w: World, ev: Event) {
    match ev
    case Arrive(_) => w.player.finite.None?
    case Call(s) => ValidScene(c, s) && (w.intact ==> Sees(c, w.player, w.log, s))
    case ResetCall(_) => true
  }

  /**
   A drained completion never touches the read cursor: whatever it had not taken
   stays published. A failed one, like a reset, discards the rest of the FIFO.
   */
  function Then(c: Config, w: World, ev: Event): World
    requires WellFormed(c, w.player) && Allowed(c, w, ev)
  {
    match ev
    case Arrive(slots) => w.(log := w.log + slots)
    case ResetCall(ok) => World(Reset(w.player, ok), [], true)
    case Call(s) =>
      var r := Render(c, w.player, s);
      if r.acknowledged == Some(Handoff.DRAINED) then
        World(r.player, w.log[Min(Reached(c, w.player, s).taken, |w.log|)..],
              w.intact && !RefusedDuring(c, w.player, s))
      else if r.acknowledged.Some? then World(r.player, [], true)
      else World(r.player, w.log, w.intact && !RefusedDuring(c, w.player, s))
  }

  predicate WorldInv(c: Config, w: World) {
    ValidConfig(c) && WellFormed(c, w.player) && (w.intact ==> PlayerInv(c, w.player, w.log))
  }

  /** Whatever a call sees, it leaves a well-formed player; an acknowledged one is emptied. */
  lemma RenderShape(c: Config, p: Player, s: Scene)
    requires WellFormed(c, p) && ValidScene(c, s)
    ensures
      var n := Render(c, p, s).player;
      && WellFormed(c, n)
      && (Render(c, p, s).acknowledged.Some? ==>
            n.finite.None? && n.engine.window == EMPTY_WINDOW && n.engine.cache.pcm == [])
  {
    EnterKeepsShape(c, p, s);
    var q := Enter(c, p, s).player;
    hide Enter, Play, DrainFinite, Complete, Refilling, CachePosition;
    if Enter(c, p, s).Ending? {
      DrainShape(c, q, s.resetOk);
    } else if Enter(c, p, s).Playing? {
      var r := Refilling(c, q, s);
      var n := q.(engine := r.engine);
      PlayShape(c, n, r.outcome);
      if q.finite.Some? {
        CompleteShape(c, n, true, s.resetOk);
        DrainShape(c, n, s.resetOk);
      }
    }
  }

  lemma ResetKeeps(c: Config, p: Player, ok: bool)
    requires WellFormed(c, p)
    ensures WellFormed(c, Reset(p, ok)) && PlayerInv(c, Reset(p, ok), [])
  {
    EmptyWindowInv([]);
    hide SourceInv;
  }

  lemma EmptiedKeeps(c: Config, p: Player, log: seq<Slot>)
    requires p.finite.None? && p.engine.window == EMPTY_WINDOW && p.engine.cache.pcm == []
    ensures PlayerInv(c, p, log)
  {
    EmptyWindowInv(log);
    hide SourceInv;
  }

  lemma ArriveKeeps(c: Config, p: Player, log: seq<Slot>, slots: seq<Slot>)
    requires PlayerInv(c, p, log) && p.finite.None?
    ensures PlayerInv(c, p, log + slots)
  {
    LogGrows(p.engine.window, log, slots);
    hide SourceInv;
  }

  lemma StepKeeps(c: Config, w: World, ev: Event)
    requires WorldInv(c, w) && Allowed(c, w, ev)
    ensures WorldInv(c, Then(c, w, ev))
  {
    hide PlayerInv, Render, RefusedDuring, Sees, WellFormed, Reset, Reached, AllAccepted, ValidConfig;
    match ev {
      case Arrive(slots) =>
        if w.intact {
          ArriveKeeps(c, w.player, w.log, slots);
        }
      case ResetCall(ok) => ResetKeeps(c, w.player, ok);
      case Call(s) =>
        RenderShape(c, w.player, s);
        var n := Then(c, w, ev);
        if w.intact && !RefusedDuring(c, w.player, s) {
          RenderKept(c, w.player, w.log, s);
        }
        if Render(c, w.player, s).acknowledged.Some? {
          EmptiedKeeps(c, n.player, n.log);
        }
    }
  }

  /** A call that completes nothing leaves the window the refills left. */
  lemma WindowAfter(c: Config, p: Player, s: Scene)
    requires WellFormed(c, p) && ValidScene(c, s) && Render(c, p, s).acknowledged.None?
    ensures Render(c, p, s).player.engine.window == Reached(c, p, s)
  {
    EnterKeepsShape(c, p, s);
    var q := Enter(c, p, s).player;
    hide Enter, Play, DrainFinite, Complete, Refilling, CachePosition, PopCache;
    if Enter(c, p, s).Ending? {
      DrainShape(c, q, s.resetOk);
    } else if Enter(c, p, s).Playing? {
      var r := Refilling(c, q, s);
      var n := q.(engine := r.engine);
      PlayShape(c, n, r.outcome);
      PopWindow(n.engine, r.outcome);
      if q.finite.Some? {
        CompleteShape(c, n, true, s.resetOk);
        DrainShape(c, n, s.resetOk);
      }
    }
  }

  lemma PopWindow(e: Engine, outcome: Outcome)
    ensures PopCache(e, outcome).window == e.window
  {
  }

  predicate Possible(c: Config, w: World, events: seq<Event>)
    decreases |events|
  {
    events == [] ||
    (WellFormed(c, w.player) && Allowed(c, w, events[0]) && Possible(c, Then(c, w, events[0]), events[1..]))
  }

  function Run(c: Config, w: World, events: seq<Event>): World
    requires Possible(c, w, events)
    decreases |events|
  {
    if events == [] then w else Run(c, Then(c, w, events[0]), events[1..])
  }

  lemma {:induction false} RunKeeps(c: Config, w: World, events: seq<Event>)
    requires WorldInv(c, w) && Possible(c, w, events)
    ensures WorldInv(c, Run(c, w, events))
    decreases |events|
  {
    if events != [] {
      StepKeeps(c, w, events[0]);
      hide WorldInv, Then;
      RunKeeps(c, Then(c, w, events[0]), events[1..]);
    }
  }

  /** A newly created player: nothing taken, an untouched lookahead. */
  function Created(c: Config): Player
    requires ValidConfig(c)
  {
    var engaged := c.settings.plc.G711AppendixI?;
    Player(Engine(EMPTY_WINDOW, Cache([], 0, 0, false, 0, 0), Settings.RESTING, false, false),
           None, false, false, [],
           if engaged then Some(PlcSpec.Fresh(c.settings.outputRate)) else None,
           if engaged then seq(PlcSpec.Delay(c.settings.outputRate), _ => None) else [])
  }

  lemma CreatedInv(c: Config)
    requires ValidConfig(c) && c.settings.outputRate <= PlcSpec.RATE_MAX
    ensures WorldInv(c, World(Created(c), [], true))
  {
    EmptyWindowInv([]);
    PlcSpec.Geometry(c.settings.outputRate);
    hide SourceInv, CeilDiv;
  }

  /**
   Stream conservation over every run: short of a refused slot, what the
   converter was fed, what waits and what is in the FIFO are together exactly
   the slots published since the last reset, in order and once each.
   */
  lemma RunConservesStream(c: Config, events: seq<Event>)
    requires ValidConfig(c) && c.settings.outputRate <= PlcSpec.RATE_MAX
    requires Possible(c, World(Created(c), [], true), events)
    ensures
      var w := Run(c, World(Created(c), [], true), events);
      w.intact ==>
        var window := w.player.engine.window;
        && window.taken <= |w.log|
        && window.taken == window.accepted + |Waiting(window)|
        && window.fed + Waiting(window) + Pcm(w.log[window.taken..]) == Pcm(w.log)
  {
    CreatedInv(c);
    RunKeeps(c, World(Created(c), [], true), events);
    var w := Run(c, World(Created(c), [], true), events);
    if w.intact {
      StreamConserved(w.player.engine.window, w.log);
    }
  }

  /**
   Meaning of Drained, after every run: the reset succeeded, the whole lookahead
   had been released, every published slot was taken and accepted by the
   converter, so the FIFO is empty though its read cursor was never moved for it.
   */
  lemma DrainedMeansPlayed(c: Config, events: seq<Event>, s: Scene)
    requires ValidConfig(c) && c.settings.outputRate <= PlcSpec.RATE_MAX
    requires Possible(c, World(Created(c), [], true), events)
    requires
      var w := Run(c, World(Created(c), [], true), events);
      && w.intact && WellFormed(c, w.player) && Allowed(c, w, Call(s)) && !RefusedDuring(c, w.player, s)
      && Render(c, w.player, s).acknowledged == Some(Handoff.DRAINED)
    ensures
      var w := Run(c, World(Created(c), [], true), events);
      && s.resetOk
      && Reached(c, w.player, s).taken == Reached(c, w.player, s).accepted == |w.log|
      && Then(c, w, Call(s)).log == []
      && LookaheadReleased(w.player)
  {
    CreatedInv(c);
    RunKeeps(c, World(Created(c), [], true), events);
    var w := Run(c, World(Created(c), [], true), events);
    RenderKept(c, w.player, w.log, s);
    DrainedIsLast(c, w.player, s);
    hide Render, PlayerInv, RefusedDuring, Sees, WellFormed, Reached;
  }

  /** No retained sample is left to play. */
  predicate LookaheadReleased(p: Player) {
    p.positions == [] || (p.finite.Some? && p.finite.value.draining == Some(0))
  }

  lemma DrainedIsLast(c: Config, p: Player, s: Scene)
    requires WellFormed(c, p) && ValidScene(c, s)
    requires Render(c, p, s).acknowledged == Some(Handoff.DRAINED)
    ensures s.resetOk && LookaheadReleased(p)
  {
    EnterKeepsShape(c, p, s);
    var q := Enter(c, p, s).player;
    hide Enter, Play, DrainFinite, Complete, Refilling, CachePosition;
    if Enter(c, p, s).Ending? {
      DrainShape(c, q, s.resetOk);
    } else if Enter(c, p, s).Playing? {
      var r := Refilling(c, q, s);
      var n := q.(engine := r.engine);
      PlayShape(c, n, r.outcome);
      if q.finite.Some? {
        CompleteShape(c, n, true, s.resetOk);
        DrainShape(c, n, s.resetOk);
      }
    }
  }
}
