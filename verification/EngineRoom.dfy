/** Over whole runs the preallocated gap list never runs out while the adapter keeps its retention bound. */
module EngineRoom {
  import opened Common
  import opened Engine
  import opened EngineSource
  import opened EngineBounds
  import opened EngineEnding
  import opened EnginePlay
  import Handoff
  import PlcSpec

  /** A refill found the gap list full: the exhaustion error. */
  predicate Exhausted(c: Config, e: Engine, s: Supply) {
    !e.resetFailed && e.cache.pcm == [] && Fill(c, e.window, s.offered, Room(c, e.window)).Crowded?
  }

  predicate LoopExhausted(c: Config, e: Engine, supplies: seq<Supply>)
    decreases |supplies|
  {
    supplies != [] &&
    (Exhausted(c, e, supplies[0]) ||
     (Refill(c, e, true, supplies[0]).outcome.Starved? && |supplies| > 1
      && LoopExhausted(c, Refill(c, e, true, supplies[0]).engine, supplies[1..])))
  }

  /** Some refill of this call did. */
  predicate ExhaustedDuring(c: Config, p: Player, s: Scene)
    requires s.supplies != []
  {
    var entry := Enter(c, p, s);
    entry.Playing? &&
      if entry.player.finite.Some? then LoopExhausted(c, entry.player.engine, s.supplies)
      else Exhausted(c, entry.player.engine, s.supplies[0])
  }

  /** Every refill the call may make keeps the retention bound. */
  predicate AllRetained(c: Config, supplies: seq<Supply>) {
    forall k | 0 <= k < |supplies| :: Retained(c, supplies[k].replies)
  }

  predicate RetainedEvents(c: Config, events: seq<Event>) {
    forall k | 0 <= k < |events| && events[k].Call? :: AllRetained(c, events[k].scene.supplies)
  }

  // ---------------------------------------------------------------- one call

  /** Without the exhaustion error only the stamp fence refuses, and it leaves a lasting fault. */
  lemma RefusedIsFault(c: Config, e: Engine, finite: bool, s: Supply)
    requires Refused(c, e, s) && !Exhausted(c, e, s)
    ensures Refill(c, e, finite, s).outcome.AdapterError? && Refill(c, e, finite, s).engine.muteFault
  {
    hide Fill, Room, Proceed;
  }

  /** What a refill leaves: room for the next, or a lasting fault. */
  predicate Roomy(c: Config, refused: bool, out: Refilled) {
    if refused then out.outcome.AdapterError? && out.engine.muteFault else Near(c, out.engine.window)
  }

  lemma RefillRoomy(c: Config, e: Engine, finite: bool, s: Supply, log: seq<Slot>)
    requires ValidConfig(c) && SourceInv(e.window, log) && Near(c, e.window)
    requires e.window.taken <= |log| && s.offered <= log[e.window.taken..] && Retained(c, s.replies)
    ensures !Exhausted(c, e, s) && Roomy(c, Refused(c, e, s), Refill(c, e, finite, s))
  {
    GapListSuffices(c, e, finite, s, log);
    if Refused(c, e, s) {
      RefusedIsFault(c, e, finite, s);
    }
    hide SourceInv, Near, Fill, Room, Refill, Retained;
  }

  lemma {:induction false} LoopRoomy(c: Config, e: Engine, supplies: seq<Supply>, log: seq<Slot>)
    requires ValidConfig(c) && SourceInv(e.window, log) && Near(c, e.window)
    requires LoopSees(c, e, log, supplies) && AllRetained(c, supplies)
    ensures !LoopExhausted(c, e, supplies)
    ensures Roomy(c, LoopRefused(c, e, supplies), RefillLoop(c, e, supplies))
    decreases |supplies|
  {
    hide SourceInv, Near, Refill, Refused, Exhausted, Retained, ValidConfig;
    RefillRoomy(c, e, true, supplies[0], log);
    var r := Refill(c, e, true, supplies[0]);
    if r.outcome.Starved? && |supplies| > 1 {
      RefillKeeps(c, e, true, supplies[0], log);
      assert forall k | 0 <= k < |supplies[1..]| :: supplies[1..][k] == supplies[k + 1];
      LoopRoomy(c, r.engine, supplies[1..], log);
    }
  }

  /** Between calls: room in the list, or a fault that lets no refill happen. */
  predicate RoomInv(c: Config, w: World) {
    WorldInv(c, w) && (w.player.engine.muteFault || (w.intact && Near(c, w.player.engine.window)))
  }

  lemma RefillsRoomy(c: Config, w: World, s: Scene)
    requires RoomInv(c, w) && Allowed(c, w, Call(s)) && AllRetained(c, s.supplies) && Enter(c, w.player, s).Playing?
    ensures
      var q := Enter(c, w.player, s).player;
      && w.intact && !ExhaustedDuring(c, w.player, s)
      && Roomy(c, RefusedDuring(c, w.player, s), Refilling(c, q, s))
  {
    if w.player.engine.muteFault {
      FaultHolds(c, w.player, s);
    }
    EnterKeepsShape(c, w.player, s);
    var q := Enter(c, w.player, s).player;
    hide Enter, SourceInv, Near, CacheBehind, Refill, Refused, Exhausted, Retained, ValidConfig, WellFormed;
    if q.finite.Some? {
      LoopRoomy(c, q.engine, s.supplies, w.log);
    } else {
      RefillRoomy(c, q.engine, false, s.supplies[0], w.log);
    }
  }

  lemma EmptyIsNear(c: Config)
    ensures Near(c, EMPTY_WINDOW)
  {
  }

  /** How a call that converts ends: completed, faulted, or with the refilled window. */
  lemma AdvanceEnds(c: Config, q: Player, s: Scene)
    requires WellFormed(c, q) && ValidScene(c, s)
    ensures
      var r, out := Refilling(c, q, s), Advance(c, q, s);
      || (out.acknowledged.Some? && out.player.engine.window == EMPTY_WINDOW)
      || (out.acknowledged.None? && out.player.engine.window == r.engine.window
          && out.player.engine.muteFault == r.engine.muteFault)
  {
    hide Refilling, Play, DrainFinite, Complete, CachePosition, PopCache, WellFormed;
    var r := Refilling(c, q, s);
    var n := q.(engine := r.engine);
    assert WellFormed(c, n) by {
      SameShape(c, q, n);
    }
    if q.finite.Some? {
      CompleteShape(c, n, true, s.resetOk);
      DrainShape(c, n, s.resetOk);
    }
    PlayShape(c, n, r.outcome);
    PopKeepsSource(n.engine, r.outcome);
  }

  lemma SameShape(c: Config, p: Player, q: Player)
    requires WellFormed(c, p) && q == p.(engine := q.engine)
    ensures WellFormed(c, q)
  {
  }

  lemma PopKeepsSource(e: Engine, outcome: Outcome)
    ensures PopCache(e, outcome).window == e.window && PopCache(e, outcome).muteFault == e.muteFault
  {
  }

  lemma EnteredFits(c: Config, p: Player, s: Scene)
    requires WellFormed(c, p)
    ensures WellFormed(c, Enter(c, p, s).player)
  {
    EnterKeepsShape(c, p, s);
    hide Enter;
  }

  lemma RenderRoomy(c: Config, w: World, s: Scene)
    requires RoomInv(c, w) && Allowed(c, w, Call(s)) && AllRetained(c, s.supplies)
    ensures
      var n := Then(c, w, Call(s));
      n.player.engine.muteFault || (n.intact && Near(c, n.player.engine.window))
  {
    hide SourceInv, Near, CacheBehind, Refilling, Refill, Refused, Retained, ValidConfig, WellFormed, Advance,
      DrainFinite, Enter, RefusedDuring, AllRetained, ExhaustedDuring, PlayerInv, Sees, Reached;
    EnterKeepsShape(c, w.player, s);
    EnteredFits(c, w.player, s);
    EmptyIsNear(c);
    if w.player.engine.muteFault {
      FaultHolds(c, w.player, s);
    }
    var q := Enter(c, w.player, s).player;
    match Enter(c, w.player, s) {
      case Held(_, _) => NoRefusal(c, w.player, s);
      case Ending(_) =>
        NoRefusal(c, w.player, s);
        DrainShape(c, q, s.resetOk);
      case Playing(_) =>
        RefillsRoomy(c, w, s);
        AdvanceEnds(c, q, s);
        if RefusedDuring(c, w.player, s) {
          RefusalFails(c, w, s);
        }
    }
  }

  lemma NoRefusal(c: Config, p: Player, s: Scene)
    requires s.supplies != [] && !Enter(c, p, s).Playing?
    ensures !RefusedDuring(c, p, s)
  {
  }

  /** A refused call never ends drained. */
  lemma RefusalFails(c: Config, w: World, s: Scene)
    requires RoomInv(c, w) && Allowed(c, w, Call(s)) && Enter(c, w.player, s).Playing?
    requires RefusedDuring(c, w.player, s)
      && Refilling(c, Enter(c, w.player, s).player, s).outcome.AdapterError?
    ensures Render(c, w.player, s).acknowledged != Some(Handoff.DRAINED)
  {
    EnterKeepsShape(c, w.player, s);
    var q := Enter(c, w.player, s).player;
    hide Enter, Refilling, Play, DrainFinite, CachePosition, RefusedDuring;
    var n := q.(engine := Refilling(c, q, s).engine);
    PlayShape(c, n, Refilling(c, q, s).outcome);
  }

  // ---------------------------------------------------------------- whole runs

  lemma StepRoomy(c: Config, w: World, ev: Event)
    requires RoomInv(c, w) && Allowed(c, w, ev) && (ev.Call? ==> AllRetained(c, ev.scene.supplies))
    ensures RoomInv(c, Then(c, w, ev))
  {
    hide PlayerInv, Render, RefusedDuring, Sees, WellFormed, Reached, AllRetained, Near, ValidConfig;
    StepKeeps(c, w, ev);
    if ev.Call? {
      RenderRoomy(c, w, ev.scene);
    } else {
      EmptyIsNear(c);
    }
  }

  lemma {:induction false} RunRoomy(c: Config, w: World, events: seq<Event>)
    requires RoomInv(c, w) && Possible(c, w, events) && RetainedEvents(c, events)
    ensures RoomInv(c, Run(c, w, events))
    decreases |events|
  {
    hide RoomInv, Then, AllRetained, Allowed;
    if events != [] {
      assert RoomInv(c, Then(c, w, events[0])) by {
        WellFormedAnyway(c, w);
        StepRoomy(c, w, events[0]);
      }
      assert forall k | 0 <= k < |events[1..]| :: events[1..][k] == events[k + 1];
      RunRoomy(c, Then(c, w, events[0]), events[1..]);
    }
  }

  lemma WellFormedAnyway(c: Config, w: World)
    requires RoomInv(c, w)
    ensures WellFormed(c, w.player)
  {
  }

  /**
   Over every run from creation, with any publications, any resets and any other
   replies, an adapter that keeps its retention bound never makes a refill find
   the gap list full; and a refill is refused only by the stamp fence, which
   leaves no call converting until the next reset.
   */
  lemma GapListNeverFull(c: Config, events: seq<Event>, s: Scene)
    requires ValidConfig(c) && c.settings.outputRate <= PlcSpec.RATE_MAX
    requires Possible(c, World(Created(c), [], true), events) && RetainedEvents(c, events)
    requires
      var w := Run(c, World(Created(c), [], true), events);
      WellFormed(c, w.player) && Allowed(c, w, Call(s)) && AllRetained(c, s.supplies)
    ensures
      var w := Run(c, World(Created(c), [], true), events);
      && !ExhaustedDuring(c, w.player, s)
      && (!w.intact ==> w.player.engine.muteFault && Enter(c, w.player, s).Held?)
  {
    CreatedInv(c);
    EmptyIsNear(c);
    hide Near, ValidConfig, PlayerInv, WellFormed, Then, AllRetained, Sees, Enter;
    RunRoomy(c, World(Created(c), [], true), events);
    var w := Run(c, World(Created(c), [], true), events);
    if w.player.engine.muteFault {
      FaultHolds(c, w.player, s);
    }
    if Enter(c, w.player, s).Playing? {
      RefillsRoomy(c, w, s);
    }
  }
}
