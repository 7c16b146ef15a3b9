/** Before playout starts, and when the converter stops making progress. */
module EngineStall {
  import opened Common
  import opened Engine
  import opened EngineSource
  import opened EnginePlay
  import Handoff
  import PlcSpec
  import Settings

  // ---------------------------------------------------------------- priming

  /** Calls before the reserve is there: no boundary is requested. */
  predicate Filling(c: Config, s: Scene) {
    ValidScene(c, s) && s.atPriming < c.settings.reserve && !Handoff.Pending(s.word)
  }

  predicate AllFilling(c: Config, p: Player, scenes: seq<Scene>)
    decreases |scenes|
  {
    scenes == [] ||
    (WellFormed(c, p) && Filling(c, scenes[0]) && AllFilling(c, Render(c, p, scenes[0]).player, scenes[1..]))
  }

  function After(c: Config, p: Player, scenes: seq<Scene>): Player
    requires AllFilling(c, p, scenes)
    decreases |scenes|
  {
    if scenes == [] then p else After(c, Render(c, p, scenes[0]).player, scenes[1..])
  }

  lemma FillingStep(c: Config, p: Player, s: Scene)
    requires WellFormed(c, p) && Filling(c, s) && !p.primed && !p.engine.resetFailed && p.finite.None?
    ensures
      var r := Render(c, p, s);
      && r.sample == 0.0 && !r.fromPcm && r.acknowledged.None?
      && r.player.engine == p.engine.(muteFault := r.player.engine.muteFault)
      && !r.player.primed && r.player.finite.None? && r.player.plc == p.plc && r.player.positions == p.positions
  {
    AbsorbingKeepsShape(c, Capture(p, s), s.records);
    EnterKeepsShape(c, p, s);
    hide Absorbing, Advance, DrainFinite;
  }

  /** Until the reserve is there nothing is taken, converted or concealed, however many calls are made. */
  lemma {:induction false} PrimingConsumesNothing(c: Config, p: Player, scenes: seq<Scene>)
    requires AllFilling(c, p, scenes) && !p.primed && !p.engine.resetFailed && p.finite.None?
    ensures
      var n := After(c, p, scenes);
      && n.engine == p.engine.(muteFault := n.engine.muteFault) && n.plc == p.plc && n.positions == p.positions
      && !n.primed
    decreases |scenes|
  {
    hide Render, WellFormed;
    if scenes != [] {
      FillingStep(c, p, scenes[0]);
      PrimingConsumesNothing(c, Render(c, p, scenes[0]).player, scenes[1..]);
    }
  }

  // ---------------------------------------------------------------- when playout starts, stops and starts again

  /**
   Without a boundary a call plays exactly if nothing is faulted, the player is
   awake or something is readable, and it is primed or the reserve is readable
   (a failed reset waits for nothing); and from then on it is primed.
   */
  lemma PlayoutStartsExactly(c: Config, p: Player, s: Scene)
    requires p.finite.None? && !Handoff.Pending(s.word)
    ensures
      var e := Enter(c, p, s);
      && (e.Playing? <==>
            && !e.player.engine.muteFault && (p.quiet ==> s.atQuiet > 0)
            && (p.primed || p.engine.resetFailed || s.atPriming >= c.settings.reserve))
      && !e.Ending? && e.player.finite.None?
      && (e.Playing? && !p.engine.resetFailed ==> e.player.primed)
    ensures s.records == [] ==> Enter(c, p, s).player.engine.muteFault == p.engine.muteFault
  {
    AbsorbingKeepsShape(c, Capture(p, s), s.records);
    hide Absorbing;
    if s.records == [] {
      NothingAbsorbed(c, Capture(p, s));
    }
  }

  lemma NothingAbsorbed(c: Config, p: Player)
    ensures Absorbing(c, p, []) == p
  {
  }

  /**
   A boundary, captured or now pending, opens playout whatever the reserve: short
   of a fault the call converts, or if nothing or only the lookahead is left, ends.
   */
  lemma BoundaryStartsPlayout(c: Config, p: Player, s: Scene)
    requires p.finite.Some? || Handoff.Pending(s.word)
    requires p.finite.Some? ==> !p.quiet
    ensures
      var e := Enter(c, p, s);
      && e.player.finite.Some? && (e.Held? <==> e.player.engine.muteFault)
      && (e.Ending? ==> e.player.finite.value.end == 0 || e.player.finite.value.draining.Some?)
      && (e.Playing? ==> e.player.finite.value.end > 0 && e.player.finite.value.draining.None?)
      && (p.finite.None? ==>
            e.player.finite == Some(Finite(s.word / 4, p.engine.window.taken + s.atCapture, None)))
  {
    AbsorbingKeepsShape(c, Capture(p, s), s.records);
    hide Absorbing;
  }

  /** Calls none of which completes a burst. */
  predicate Uncompleted(c: Config, p: Player, scenes: seq<Scene>)
    decreases |scenes|
  {
    scenes == [] ||
    (WellFormed(c, p) && ValidScene(c, scenes[0]) && Render(c, p, scenes[0]).acknowledged.None?
     && Uncompleted(c, Render(c, p, scenes[0]).player, scenes[1..]))
  }

  function PlayerAfter(c: Config, p: Player, scenes: seq<Scene>): Player
    requires Uncompleted(c, p, scenes)
    decreases |scenes|
  {
    if scenes == [] then p else PlayerAfter(c, Render(c, p, scenes[0]).player, scenes[1..])
  }

  /** A call keeps the player primed and awake, or completes a burst and leaves it unprimed and quiet. */
  lemma PrimedUntilCompleted(c: Config, p: Player, s: Scene)
    requires WellFormed(c, p) && ValidScene(c, s)
    ensures
      var r := Render(c, p, s);
      && (r.acknowledged.None? ==> (p.primed ==> r.player.primed) && (r.player.quiet ==> p.quiet))
      && (r.acknowledged.Some? ==>
            && !r.player.primed && r.player.quiet && r.player.finite.None? && r.player.engine.resetFailed == !s.resetOk)
  {
    EnterKeepsShape(c, p, s);
    AbsorbingKeepsShape(c, Capture(p, s), s.records);
    var q := Enter(c, p, s).player;
    EnterKeepsPrimed(c, p, s);
    hide Enter, Play, DrainFinite, Refilling, CachePosition, Absorbing;
    if Enter(c, p, s).Ending? {
      DrainLeaves(c, q, s.resetOk);
    } else if Enter(c, p, s).Playing? {
      var r := Refilling(c, q, s);
      var n := q.(engine := r.engine);
      PlayShape(c, n, r.outcome);
      if q.finite.Some? {
        DrainLeaves(c, n, s.resetOk);
      }
    }
  }

  lemma EnterKeepsPrimed(c: Config, p: Player, s: Scene)
    ensures p.primed ==> Enter(c, p, s).player.primed
    ensures Enter(c, p, s).player.quiet ==> p.quiet
  {
    AbsorbingKeepsShape(c, Capture(p, s), s.records);
    hide Absorbing;
  }

  lemma DrainLeaves(c: Config, q: Player, ok: bool)
    requires WellFormed(c, q) && q.finite.Some?
    ensures
      var r := DrainFinite(c, q, ok);
      && (r.acknowledged.None? ==> r.player.primed == q.primed && r.player.quiet == q.quiet)
      && (r.acknowledged.Some? ==>
            && !r.player.primed && r.player.quiet && r.player.finite.None? && r.player.engine.resetFailed == !ok)
  {
    hide PlcSpec.Drain;
  }

  /** Once primed a player stays primed: a shortfall, however long, is not followed by another wait for the reserve. */
  lemma {:induction false} NoRepriming(c: Config, p: Player, scenes: seq<Scene>)
    requires Uncompleted(c, p, scenes) && p.primed
    ensures PlayerAfter(c, p, scenes).primed
    decreases |scenes|
  {
    hide Render, WellFormed;
    if scenes != [] {
      PrimedUntilCompleted(c, p, scenes[0]);
      NoRepriming(c, Render(c, p, scenes[0]).player, scenes[1..]);
    }
  }

  /** Calls that find nothing readable and no boundary. */
  predicate AllIdle(c: Config, p: Player, scenes: seq<Scene>)
    decreases |scenes|
  {
    scenes == [] ||
    (WellFormed(c, p) && ValidScene(c, scenes[0]) && scenes[0].atQuiet == 0 && !Handoff.Pending(scenes[0].word)
     && AllIdle(c, Render(c, p, scenes[0]).player, scenes[1..]))
  }

  function AfterIdle(c: Config, p: Player, scenes: seq<Scene>): Player
    requires AllIdle(c, p, scenes)
    decreases |scenes|
  {
    if scenes == [] then p else AfterIdle(c, Render(c, p, scenes[0]).player, scenes[1..])
  }

  lemma IdleStep(c: Config, p: Player, s: Scene)
    requires WellFormed(c, p) && ValidScene(c, s) && s.atQuiet == 0 && !Handoff.Pending(s.word)
    requires p.quiet && p.finite.None?
    ensures
      var r := Render(c, p, s);
      && r.sample == 0.0 && !r.fromPcm && r.acknowledged.None? && r.player.quiet && r.player.finite.None?
      && r.player == p.(mutes := r.player.mutes, engine := p.engine.(muteFault := r.player.engine.muteFault))
  {
    AbsorbingKeepsShape(c, Capture(p, s), s.records);
    EnterKeepsShape(c, p, s);
    hide Absorbing, Advance, DrainFinite;
  }

  /** After a completed burst the player stays silent and untouched until something is published or finished. */
  lemma CompletedStaysQuiet(c: Config, p: Player, s: Scene, scenes: seq<Scene>)
    requires WellFormed(c, p) && ValidScene(c, s) && Render(c, p, s).acknowledged.Some?
    requires AllIdle(c, Render(c, p, s).player, scenes)
    ensures
      var done, n := Render(c, p, s).player, AfterIdle(c, Render(c, p, s).player, scenes);
      n == done.(mutes := n.mutes, engine := done.engine.(muteFault := n.engine.muteFault))
  {
    PrimedUntilCompleted(c, p, s);
    hide Render, WellFormed;
    QuietStays(c, Render(c, p, s).player, scenes);
  }

  lemma {:induction false} QuietStays(c: Config, p: Player, scenes: seq<Scene>)
    requires AllIdle(c, p, scenes) && p.quiet && p.finite.None?
    ensures
      var n := AfterIdle(c, p, scenes);
      n == p.(mutes := n.mutes, engine := p.engine.(muteFault := n.engine.muteFault))
    decreases |scenes|
  {
    hide Render, WellFormed;
    if scenes != [] {
      IdleStep(c, p, scenes[0]);
      QuietStays(c, Render(c, p, scenes[0]).player, scenes[1..]);
    }
  }

  /** And the next burst waits for the reserve anew; until then nothing of it is taken, converted or concealed. */
  lemma CompletionReprimes(c: Config, p: Player, s: Scene, scenes: seq<Scene>)
    requires WellFormed(c, p) && ValidScene(c, s) && Render(c, p, s).acknowledged.Some? && s.resetOk
    requires AllFilling(c, Render(c, p, s).player, scenes)
    ensures
      var done, n := Render(c, p, s).player, After(c, Render(c, p, s).player, scenes);
      n.engine == done.engine.(muteFault := n.engine.muteFault) && n.plc == done.plc && n.positions == done.positions
  {
    PrimedUntilCompleted(c, p, s);
    hide Render, WellFormed;
    PrimingConsumesNothing(c, Render(c, p, s).player, scenes);
  }

  /** A reset from outside neither wakes a quiet player nor quiets another; quiet, it stays silent and untouched. */
  lemma QuietSurvivesReset(c: Config, p: Player, ok: bool, scenes: seq<Scene>)
    requires AllIdle(c, Reset(p, ok), scenes)
    ensures Reset(p, ok).quiet == p.quiet
    ensures
      var reset, n := Reset(p, ok), AfterIdle(c, Reset(p, ok), scenes);
      p.quiet ==> n == reset.(mutes := n.mutes, engine := reset.engine.(muteFault := n.engine.muteFault))
  {
    hide AllIdle, AfterIdle;
    if p.quiet {
      QuietStays(c, Reset(p, ok), scenes);
    }
  }

  /** So does a player that was reset from outside, whatever it was doing. */
  lemma ResetReprimes(c: Config, p: Player, scenes: seq<Scene>)
    requires WellFormed(c, Reset(p, true)) && AllFilling(c, Reset(p, true), scenes)
    ensures
      var n := After(c, Reset(p, true), scenes);
      && n.engine.window == EMPTY_WINDOW && n.engine.cache.pcm == [] && !n.primed
      && n.positions == seq(|p.positions|, _ => None)
  {
    PrimingConsumesNothing(c, Reset(p, true), scenes);
    hide After, AllFilling;
  }

  // ---------------------------------------------------------------- a stuck converter

  /** The converter answers every query but neither takes nor makes anything, with source at hand. */
  predicate Stuck(c: Config, e: Engine, s: Supply) {
    && Fill(c, e.window, s.offered, Room(c, e.window)).Kept? && |s.offered| >= Room(c, e.window)
    && s.replies.queued.Some?
    && InputDelay(s.replies.delayForGaps).Some? && InputDelay(s.replies.delayBefore).Some?
    && s.replies.processed == Some(Converted(0, []))
  }

  /** A running converter with nothing cached and no padding. */
  predicate AtWork(c: Config, e: Engine) {
    && ValidConfig(c) && Settings.RatioInRange(c.settings, e.control)
    && !e.resetFailed && e.cache.pcm == [] && !e.window.padding && |e.window.input| <= c.settings.capacity
  }

  lemma StuckConverts(c: Config, e: Engine, r: Replies)
    requires AtWork(c, e) && e.control.ratio > 0.0
    requires InputDelay(r.delayForGaps).Some? && InputDelay(r.delayBefore).Some?
        && r.processed == Some(Converted(0, []))
    ensures
      var out := Convert(c, e, r);
      && AtWork(c, out.engine) && out.engine.window.input == e.window.input && out.engine.window.zeroProgress
      && out.engine.control == e.control
      && out.outcome == if |e.window.input| == c.settings.capacity then AdapterError else Starved
  {
    ConvertCases(c, e, r);
    MarkedShape(e, r);
    SeeShape(Marked(e, r).window, r.delayBefore.value);
    hide Convert, Marked, See, Settings.RatioInRange, ValidConfig;
    assert forall w: Window :: Consume(w, 0).input == w.input && Consume(w, 0).padding == w.padding;
  }

  /** Each stalled refill grows the workspace, and the one that fills it is an error. */
  lemma StuckRefill(c: Config, e: Engine, s: Supply)
    requires AtWork(c, e) && Stuck(c, e, s)
    ensures
      var out := Refill(c, e, false, s);
      && AtWork(c, out.engine) && out.engine.window.zeroProgress
      && |out.engine.window.input| ==
           (if e.window.zeroProgress then Min(|e.window.input| + QUANTUM, c.settings.capacity)
            else Max(QUANTUM, |e.window.input|))
      && out.outcome == if |out.engine.window.input| == c.settings.capacity then AdapterError else Starved
  {
    FillCounts(c, e.window, s.offered, Room(c, e.window));
    var w := Fill(c, e.window, s.offered, Room(c, e.window)).window;
    assert Pad(w, false) == w;
    var n := Steered(c, e.(window := w), false, s.available, s.replies.queued.value);
    SteeredStaysReady(c, e.(window := w), s.available, s.replies.queued.value);
    StuckConverts(c, n, s.replies);
    hide Fill, Convert, Steered, Settings.RatioInRange;
  }

  lemma SteeredStaysReady(c: Config, e: Engine, available: nat, queued: nat)
    requires AtWork(c, e)
    ensures
      var n := Steered(c, e, false, available, queued);
      n == e.(control := n.control) && AtWork(c, n) && n.control.ratio > 0.0
  {
    Settings.SteerInRange(c.settings, e.control, (available + |e.window.input| + queued) * 1000, false);
    hide Settings.Steer, Settings.RatioInRange, Settings.GeometryAdmitted;
  }

  predicate StaysStuck(c: Config, e: Engine, supplies: seq<Supply>)
    decreases |supplies|
  {
    supplies == [] ||
    (Stuck(c, e, supplies[0]) && StaysStuck(c, Refill(c, e, false, supplies[0]).engine, supplies[1..]))
  }

  function LastOutcome(c: Config, e: Engine, supplies: seq<Supply>): Outcome
    requires supplies != []
    decreases |supplies|
  {
    var r := Refill(c, e, false, supplies[0]);
    if |supplies| == 1 then r.outcome else LastOutcome(c, r.engine, supplies[1..])
  }

  lemma {:induction false} StuckWithin(c: Config, e: Engine, supplies: seq<Supply>)
    requires AtWork(c, e) && StaysStuck(c, e, supplies) && supplies != [] && e.window.zeroProgress
    requires |e.window.input| + |supplies| * QUANTUM >= c.settings.capacity
    ensures LastOutcome(c, e, supplies).AdapterError?
    decreases |supplies|
  {
    StuckRefill(c, e, supplies[0]);
    hide Refill, Stuck, AtWork;
    if |supplies| > 1 {
      StuckWithin(c, Refill(c, e, false, supplies[0]).engine, supplies[1..]);
    }
  }

  /** A converter that stops making progress is reported as failed once one workspace of source has piled up. */
  lemma StuckConverterIsReported(c: Config, e: Engine, supplies: seq<Supply>)
    requires AtWork(c, e) && StaysStuck(c, e, supplies)
    requires |supplies| == CeilDiv(c.settings.capacity, QUANTUM) + 1
    ensures LastOutcome(c, e, supplies).AdapterError?
  {
    CeilDivCovers(c.settings.capacity, QUANTUM, |supplies| - 1);
    StuckRefill(c, e, supplies[0]);
    hide Refill, Stuck, CeilDiv;
    StuckWithin(c, Refill(c, e, false, supplies[0]).engine, supplies[1..]);
  }
}
