/** Gap classification over whole healthy runs: what each call plays is missing exactly if its slot was. */
module EngineMarks {
  import opened Common
  import opened Engine
  import opened EngineSource
  import opened EngineTime
  import opened EnginePlay
  import opened EngineLive
  import PlcSpec

  /** A healthy run from creation. */
  predicate FromCreation(c: Config, start: int, events: seq<LiveEvent>) {
    && ValidConfig(c) && c.settings.outputRate <= PlcSpec.RATE_MAX && start <= 0
    && HealthyRun(c, Live(Created(c), [], start), events)
  }

  function LiveAfter(c: Config, start: int, events: seq<LiveEvent>): Live
    requires FromCreation(c, start, events)
  {
    LiveRun(c, Live(Created(c), [], start), events)
  }

  /** A healthy call that has something to play. */
  predicate Converting(c: Config, l: Live, s: Scene) {
    && WellFormed(c, l.player) && HealthyScene(c, l, s) && Enter(c, l.player, s).Playing?
    && CallRefill(c, l, s).outcome.Ready?
  }

  /** The refill of that call. */
  function CallRefill(c: Config, l: Live, s: Scene): Refilled
    requires ValidScene(c, s)
  {
    Refilling(c, Enter(c, l.player, s).player, s)
  }

  lemma ConvertingRuns(c: Config, start: int, events: seq<LiveEvent>, s: Scene)
    requires FromCreation(c, start, events) && Converting(c, LiveAfter(c, start, events), s)
    ensures
      var l := LiveAfter(c, start, events);
      var e := CallRefill(c, l, s).engine;
      && ValidScene(c, s) && s.supplies != [] && CallRefill(c, l, s).outcome.Ready?
      && Running(c, e, l.log, AtAfter(c, l, s)) && e.cache.pcm != []
      && e.cache.offset < e.cache.count && CachePosition(e.cache) == PositionAt(e.cache, e.cache.offset)
  {
    var l := LiveAfter(c, start, events);
    assert LiveInv(c, l) by {
      hide LiveInv, Created;
      CreatedLives(c, start);
      LiveRunKeeps(c, Live(Created(c), [], start), events);
    }
    assert RefilledWell(c, Enter(c, l.player, s).player.engine, Enter(c, l.player, s).player.finite.Some?, l.log, l.at,
                        CallRefill(c, l, s), AtAfter(c, l, s)) by {
      hide LiveInv, HealthyScene, RefilledWell, Enter, Refilling;
      HealthyRefilling(c, l, s);
    }
    hide LiveInv, HealthyScene, Enter, Refilling, AtAfter, NextPosition, SourceInv, Classified, LiveAfter;
  }

  /**
   After every healthy run a call converts its output as missing exactly if the
   slot under the output's position was published as a gap, whatever is published
   later: with gaps at hand or in a batch, the first output of it or any other.
   */
  lemma EveryOutputIsMarkedExactly(c: Config, start: int, events: seq<LiveEvent>, s: Scene, later: seq<Slot>)
    requires FromCreation(c, start, events) && Converting(c, LiveAfter(c, start, events), s)
    requires LiveAfter(c, start, events).log <= later
    ensures
      var r := CallRefill(c, LiveAfter(c, start, events), s);
      var k, frame := r.engine.cache, CachePosition(r.engine.cache) / BILLION;
      && (ConvertedSample(r.engine, r.outcome).None? <==> frame < r.engine.window.taken && GapAt(later, frame))
      && (frame < r.engine.window.taken || r.engine.window.padding)
      && (forall o: nat | k.offset <= o < k.count && k.count >= 1 ::
            k.missing <==>
              PositionAt(k, o) / BILLION < r.engine.window.taken && GapAt(later, PositionAt(k, o) / BILLION))
  {
    hide FromCreation, Converting, LiveAfter, Running, CallRefill, PositionAt, GapAt, CachePosition;
    ConvertingRuns(c, start, events, s);
    var l := LiveAfter(c, start, events);
    var e := CallRefill(c, l, s).engine;
    forall o: nat | e.cache.offset <= o < e.cache.count
      ensures
        && (PositionAt(e.cache, o) / BILLION < e.window.taken || e.window.padding)
        && (e.cache.missing <==>
              PositionAt(e.cache, o) / BILLION < e.window.taken && GapAt(later, PositionAt(e.cache, o) / BILLION))
    {
      CachedMarkIsExact(c, e, l.log, AtAfter(c, l, s), o, later);
    }
  }

  /**
   So the batched fast path refines the slow one: any output of the batch, had it
   been converted alone by a window that has meanwhile learnt of any number of
   later slots, would have got the very mark it has.
   */
  lemma FastPathRefinesSlow(
      c: Config, start: int, events: seq<LiveEvent>, s: Scene, o: nat, slow: Window, later: seq<Slot>)
    requires FromCreation(c, start, events) && Converting(c, LiveAfter(c, start, events), s)
    requires LiveAfter(c, start, events).log <= later && SourceInv(slow, later)
    requires
      var e := CallRefill(c, LiveAfter(c, start, events), s).engine;
      && e.cache.offset <= o < e.cache.count && Passed(slow, PositionAt(e.cache, o))
      && e.window.taken <= slow.taken && (e.window.padding ==> slow.taken == e.window.taken)
    ensures
      var k := CallRefill(c, LiveAfter(c, start, events), s).engine.cache;
      LiesInGap(slow, Backlog(slow, PositionAt(k, o))) <==> k.missing
  {
    hide FromCreation, Converting, LiveAfter, Running, CallRefill, PositionAt, LiesInGap, SourceInv;
    ConvertingRuns(c, start, events, s);
    var l := LiveAfter(c, start, events);
    CachedMatchesSlow(c, CallRefill(c, l, s).engine, l.log, AtAfter(c, l, s), o, slow, later);
  }
}
