/** Muting reaches the right sample: an output's support is the producer's own stamp of the slot it was made from. */
module EngineStamps {
  import opened Common
  import opened Mute
  import opened Engine
  import opened EngineSource
  import opened EngineTime
  import opened EnginePlay
  import opened EngineEnding
  import opened EngineLive
  import opened EngineMute
  import PlcSpec

  /** From a stamped slot on every taken slot carries the stamp the base says. */
  lemma {:induction false} BaseIsStamp(w: Window, log: seq<Slot>, k: nat)
    requires w.taken <= |log| && k < w.taken && Stamped(log) && BaseAgrees(w, log) && log[k].stamp.Some?
    ensures w.base.Some?
    ensures log[k].stamp.value.generation == w.base.value.generation
    ensures log[k].stamp.value.source == w.base.value.offset + k
    decreases w.taken - k
  {
    if k + 1 < w.taken {
      assert log[k + 1].stamp == Some(Stamp(log[k].stamp.value.generation, log[k].stamp.value.source + 1));
      BaseIsStamp(w, log, k + 1);
    }
  }

  /**
   The support of an output made from a stamped slot is that slot's own stamp, and
   the next one too if the output lies between the two.
   */
  lemma SupportIsStamp(e: Engine, log: seq<Slot>)
    requires SourceInv(e.window, log) && Stamped(log)
    requires
      var frame := CachePosition(e.cache) / BILLION;
      && 0 <= frame < e.window.taken <= |log| && log[frame].stamp.Some?
      && log[frame].stamp.value.source < LARGEST_POSITION
    ensures
      var position := CachePosition(e.cache);
      var stamp := log[position / BILLION].stamp.value;
      Support(e) == Some(Position(stamp.generation, stamp.source,
                                  if position % BILLION == 0 then stamp.source else stamp.source + 1))
  {
    var position := CachePosition(e.cache);
    BaseIsStamp(e.window, log, position / BILLION);
    hide CachePosition, Accounted, GapsExact, Stamped;
    Shifted(position, e.window.base.value.offset);
  }

  lemma Shifted(position: int, offset: int)
    ensures (position + offset * BILLION) / BILLION == position / BILLION + offset
    ensures (position + offset * BILLION + 999_999_999) / BILLION ==
      position / BILLION + offset + if position % BILLION == 0 then 0 else 1
  {
  }

  /** An interval recorded by now holds one of the source samples the output was made from. */
  ghost predicate Covered(c: Config, ops: seq<Op>, log: seq<Slot>, position: int)
    requires 0 <= position / BILLION < |log| && log[position / BILLION].stamp.Some?
  {
    var stamp, naive := log[position / BILLION].stamp.value, Naive(c.muteRoom, ops);
    || Covers(naive, stamp.generation, stamp.source)
    || (position % BILLION != 0 && Covers(naive, stamp.generation, stamp.source + 1))
  }

  lemma MeetsIsCovered(entries: seq<Interval>, generation: nat, source: nat, between: bool)
    ensures
      var high := if between then source + 1 else source;
      Meets(entries, Position(generation, source, high)) <==>
      Covers(entries, generation, source) || (between && Covers(entries, generation, source + 1))
  {
    var high := if between then source + 1 else source;
    var p := Position(generation, source, high);
    hide Covers;
    if Covers(entries, generation, source) || (between && Covers(entries, generation, source + 1)) {
      var x := if Covers(entries, generation, source) then source else source + 1;
      assert p.low <= x <= p.high && Covers(entries, p.generation, x);
    }
    if Meets(entries, p) {
      var x: nat :| p.low <= x <= p.high && Covers(entries, p.generation, x);
      assert x == source || x == source + 1;
    }
  }

  lemma SilencesIsCovered(c: Config, ops: seq<Op>, e: Engine, log: seq<Slot>)
    requires SourceInv(e.window, log) && Stamped(log)
    requires
      var frame := CachePosition(e.cache) / BILLION;
      && 0 <= frame < e.window.taken <= |log| && log[frame].stamp.Some?
      && log[frame].stamp.value.source < LARGEST_POSITION
    ensures Silences(c, ops, Support(e)) <==> Covered(c, ops, log, CachePosition(e.cache))
  {
    SupportIsStamp(e, log);
    var position := CachePosition(e.cache);
    var stamp := log[position / BILLION].stamp.value;
    hide CachePosition, Support, SourceInv, Stamped, Meets, Covers, Naive;
    MeetsIsCovered(Naive(c.muteRoom, ops), stamp.generation, stamp.source, position % BILLION != 0);
  }

  // ---------------------------------------------------------------- over whole runs

  /** The refilled player of a converting call, about to play. */
  function Refreshed(c: Config, l: Live, s: Scene): Player
    requires ValidScene(c, s)
  {
    var q := Enter(c, l.player, s).player;
    q.(engine := Refilling(c, q, s).engine)
  }

  /** A healthy call that plays an output made from a stamped slot. */
  predicate PlaysStamped(c: Config, l: Live, s: Scene) {
    && WellFormed(c, l.player) && HealthyScene(c, l, s) && Enter(c, l.player, s).Playing?
    && Refilling(c, Enter(c, l.player, s).player, s).outcome.Ready? && !PastEnd(Refreshed(c, l, s))
    && (var e := Refreshed(c, l, s).engine;
        var frame := CachePosition(e.cache) / BILLION;
        && 0 <= frame < e.window.taken <= |l.log| && l.log[frame].stamp.Some?
        && l.log[frame].stamp.value.source < LARGEST_POSITION)
  }

  lemma RefreshedHears(c: Config, l: Live, ops: seq<Op>, s: Scene)
    requires LiveInv(c, l) && PlaysStamped(c, l, s) && HeardPlayer(c, l.player, l.at, ops)
    requires forall k | 0 <= k < |s.records| :: Nonempty(s.records[k])
    ensures ValidScene(c, s)
    ensures
      var n, more := Refreshed(c, l, s), ops + Records(s.records);
      && WellFormed(c, n) && SourceInv(n.engine.window, l.log) && Stamped(l.log) && !n.engine.resetFailed
      && (MutedAt(n, Support(n.engine)) <==> Silences(c, more, Support(n.engine)))
      && Render(c, l.player, s) == Play(c, n, Ready)
      && n.plc == l.player.plc && n.positions == l.player.positions
  {
    hide PlayerInv, Running, Enter, NextPosition, AllAccepted, WellFormed, Refilling, Play, DrainFinite, PlayEmission,
      DrainEmission, HeardPlayer, Silences, AtAfter, HealthyScene, CachePosition, Support;
    EnterHears(c, l, ops, s);
    EnterRuns(c, l, s);
    EnterKeepsShape(c, l.player, s);
    SceneFacts(c, l, s);
    HealthyRefilling(c, l, s);
    RefilledPlayer(c, l, s);
    RenderAdvances(c, l.player, s);
    var q := Enter(c, l.player, s).player;
    PlayingBase(c, q, s);
    var r, next, more := Refilling(c, q, s), AtAfter(c, l, s), ops + Records(s.records);
    var n := q.(engine := r.engine);
    RefillHears(c, q, n, l.at, next, more);
    PlayHears(c, n, l.log, next, more, r.outcome);
    RunningSource(c, n.engine, l.log, next);
  }

  lemma RunningSource(c: Config, e: Engine, log: seq<Slot>, at: int)
    requires Running(c, e, log, at)
    ensures SourceInv(e.window, log) && Stamped(log) && !e.resetFailed
  {
  }

  /** What a player hears of an output whose slot is covered: silence that is real; of another, itself. */
  predicate HeardAs(c: Config, p: Player, r: Rendered, given: Option<real>)
    requires WellFormed(c, p)
  {
    if p.plc.None? then r.sample == (if given.Some? then given.value else 0.0) && r.fromPcm == given.Some?
    else r.player.plc == Some(PlcSpec.Process(c.settings.outputRate, p.plc.value, given).state)
  }

  lemma PlayHearsAs(c: Config, n: Player)
    requires WellFormed(c, n) && !n.engine.resetFailed
    ensures HeardAs(c, n, Play(c, n, Ready),
                    if MutedAt(n, Support(n.engine)) then Some(0.0) else ConvertedSample(n.engine, Ready))
  {
    hide PlcSpec.Process, Support, PopCache, MutedAt, ConvertedSample;
  }

  /**
   After every healthy run of publications, calls, mutes, endings and resets: an
   output is real silence, to the ear or to the concealer, exactly if an interval
   received by then holds the stamp of the slot it was made from, or the next one
   too where it lies between two; otherwise it is the converted sample, or missing.
   */
  lemma CoveredSlotIsSilent(c: Config, start: int, events: seq<LiveEvent>, s: Scene)
    requires ValidConfig(c) && c.settings.outputRate <= PlcSpec.RATE_MAX && start <= 0
    requires HeardRunOk(c, Heard(Live(Created(c), [], start), []), events)
    requires
      var h := HeardRun(c, Heard(Live(Created(c), [], start), []), events);
      PlaysStamped(c, h.live, s) && forall k | 0 <= k < |s.records| :: Nonempty(s.records[k])
    ensures
      var h := HeardRun(c, Heard(Live(Created(c), [], start), []), events);
      && ValidScene(c, s)
      && var e := Refreshed(c, h.live, s).engine;
      HeardAs(c, h.live.player, Render(c, h.live.player, s),
              if Covered(c, h.ops + Records(s.records), h.live.log, CachePosition(e.cache)) then Some(0.0)
              else ConvertedSample(e, Ready))
  {
    hide Render, LiveInv, Created, HeardPlayer, Silences, AtAfter, Refreshed, Support, Covered, MutedAt,
      ConvertedSample, PlcSpec.Process, CachePosition, HealthyScene;
    CreatedHears(c, start);
    HeardRunKeeps(c, Heard(Live(Created(c), [], start), []), events);
    var h := HeardRun(c, Heard(Live(Created(c), [], start), []), events);
    RefreshedHears(c, h.live, h.ops, s);
    var n := Refreshed(c, h.live, s);
    SilencesIsCovered(c, h.ops + Records(s.records), n.engine, h.live.log);
    PlayHearsAs(c, n);
  }
}
