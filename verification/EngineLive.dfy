/**
 Whole runs with a healthy converter: no false adapter error, and every finite
 burst is resolved after a bounded number of calls.
 */
module EngineLive {
  import opened Common
  import opened Mute
  import opened Engine
  import opened EngineSource
  import opened EngineBounds
  import opened EngineTime
  import opened EnginePlay
  import opened EngineEnding
  import Handoff
  import PlcSpec
  import Settings

  /** The player, the slots published since its reset, and where its converter stands. */
  datatype Live = Live(player: Player, log: seq<Slot>, at: int)

  /** A call that sees the published slots, gets healthy replies, and whose resets succeed. */
  predicate HealthyScene(c: Config, l: Live, s: Scene) {
    && ValidScene(c, s) && s.resetOk && Sees(c, l.player, l.log, s)
    && (var entry := Enter(c, l.player, s);
        entry.Playing? ==>
          if entry.player.finite.Some? then HealthyLoop(c, entry.player.engine, l.log, l.at, s.supplies)
          else HealthySupply(c, entry.player.engine, false, l.at, s.supplies[0]))
  }

  /** Where the converter stands after the call, completion apart. */
  function AtAfter(c: Config, l: Live, s: Scene): int
    requires s.supplies != []
  {
    var entry := Enter(c, l.player, s);
    if !entry.Playing? then l.at
    else if entry.player.finite.Some? then LoopAt(c, entry.player.engine, l.at, s.supplies)
    else NextAt(c, entry.player.engine, false, l.at, s.supplies[0])
  }

  predicate LiveInv(c: Config, l: Live) {
    && ValidConfig(c) && WellFormed(c, l.player)
    && PlayerInv(c, l.player, l.log) && Running(c, l.player.engine, l.log, l.at)
  }

  lemma FaultIsNoMatter(c: Config, e: Engine, log: seq<Slot>, at: int, fault: bool)
    requires Running(c, e, log, at)
    ensures Running(c, e.(muteFault := fault), log, at)
    ensures NextPosition(e.(muteFault := fault), at) == NextPosition(e, at)
  {
    hide SourceInv, Near, Passed, Stamped, CacheTimed, Classified, CachePosition;
  }

  lemma EnterRuns(c: Config, l: Live, s: Scene)
    requires LiveInv(c, l) && HealthyScene(c, l, s)
    ensures
      var q := Enter(c, l.player, s).player;
      && LiveInv(c, l.(player := q)) && NextPosition(q.engine, l.at) == NextPosition(l.player.engine, l.at)
      && q.engine.window == l.player.engine.window
      && (Enter(c, l.player, s).Ending? ==> AllAccepted(q.engine.window, l.log))
  {
    EnterKeeps(c, l.player, l.log, s);
    EnterKeepsShape(c, l.player, s);
    FaultIsNoMatter(c, l.player.engine, l.log, l.at, Enter(c, l.player, s).player.engine.muteFault);
    hide PlayerInv, Running, Enter, NextPosition;
  }

  lemma UnrefusedRefill(c: Config, e: Engine, finite: bool, s: Supply, log: seq<Slot>, at: int)
    requires Running(c, e, log, at) && s.offered <= log[e.window.taken..]
    ensures !Refused(c, e, s)
  {
    hide SourceInv, Near, Fill, Room;
    FilledKeeps(c, e, finite, s, log, at);
  }

  lemma {:induction false} HealthyLoopUnrefused(c: Config, e: Engine, log: seq<Slot>, at: int, supplies: seq<Supply>)
    requires Running(c, e, log, at) && HealthyLoop(c, e, log, at, supplies)
    ensures !LoopRefused(c, e, supplies)
    decreases |supplies|
  {
    hide Running, Refill, NextAt, HealthySupply, Refused;
    UnrefusedRefill(c, e, true, supplies[0], log, at);
    HealthyRefill(c, e, true, supplies[0], log, at);
    var r := Refill(c, e, true, supplies[0]);
    if r.outcome.Starved? && |supplies| > 1 {
      HealthyLoopUnrefused(c, r.engine, log, NextAt(c, e, true, at, supplies[0]), supplies[1..]);
    }
  }

  /** A healthy call refills well: a finite one always ends with output. */
  lemma HealthyRefilling(c: Config, l: Live, s: Scene)
    requires LiveInv(c, l) && HealthyScene(c, l, s) && Enter(c, l.player, s).Playing?
    ensures !RefusedDuring(c, l.player, s)
    ensures
      var q := Enter(c, l.player, s).player;
      var r := Refilling(c, q, s);
      && RefilledWell(c, q.engine, q.finite.Some?, l.log, l.at, r, AtAfter(c, l, s))
      && (q.finite.Some? ==> r.outcome.Ready?)
  {
    hide PlayerInv, Running, Enter, RefilledWell, Refill, NextAt, HealthyLoop, HealthySupply, LoopAt, Refused,
      LoopSees;
    EnterRuns(c, l, s);
    EnterKeepsShape(c, l.player, s);
    var q := Enter(c, l.player, s).player;
    if q.finite.Some? {
      LoopSettles(c, q.engine, l.log, l.at, s.supplies);
      HealthyLoopUnrefused(c, q.engine, l.log, l.at, s.supplies);
    } else {
      HealthyRefill(c, q.engine, false, s.supplies[0], l.log, l.at);
      UnrefusedRefill(c, q.engine, false, s.supplies[0], l.log, l.at);
    }
  }

  // ---------------------------------------------------------------- one healthy call

  /** What a burst still has to play: source positions before its end, then the lookahead. */
  function Measure(p: Player, at: int): nat
    requires p.finite.Some?
  {
    if p.finite.value.draining.Some? then p.finite.value.draining.value
    else Max(0, p.finite.value.end * BILLION - NextPosition(p.engine, at)) + |p.positions|
  }

  /** A call either keeps the run healthy, or completes the burst as drained. */
  predicate StepsWell(c: Config, q: Player, log: seq<Slot>, at: int, r: Rendered, next: int) {
    && WellFormed(c, r.player) && !r.failed
    && (r.acknowledged.None? ==>
          && PlayerInv(c, r.player, log) && Running(c, r.player.engine, log, next)
          && NextPosition(q.engine, at) <= NextPosition(r.player.engine, next)
          && (q.finite.Some? ==> r.player.finite.Some? && Measure(r.player, next) < Measure(q, at))
          && r.player.engine.muteFault == q.engine.muteFault)
    && (r.acknowledged.Some? ==> r.acknowledged.value == Handoff.DRAINED)
  }

  lemma PlaySteps(c: Config, q: Player, n: Player, log: seq<Slot>, at: int, next: int, outcome: Outcome)
    requires WellFormed(c, n) && PlayerInv(c, n, log) && Running(c, n.engine, log, next) && n == q.(engine := n.engine)
    requires NextPosition(n.engine, next) == NextPosition(q.engine, at) && n.engine.muteFault == q.engine.muteFault
    requires !outcome.AdapterError? && (outcome.Ready? <==> n.engine.cache.pcm != [])
    requires q.finite.Some? ==>
      q.finite.value.draining.None? && outcome.Ready? && CachePosition(n.engine.cache) < q.finite.value.end * BILLION
    ensures StepsWell(c, q, log, at, Play(c, n, outcome), next)
    ensures Play(c, n, outcome).acknowledged.None?
  {
    PlayShape(c, n, outcome);
    PopKeeps(n.engine, outcome, log);
    assert !Play(c, n, outcome).failed;
    assert |Play(c, n, outcome).player.positions| == |n.positions|;
    hide Play, EngineInv, Running, CachePosition, WellFormed, AllAccepted, PaddingIsLast;
    if outcome.Ready? {
      PlayingAdvances(c, n.engine, log, next);
      PopIsQuietAboutFault(n.engine, outcome);
    } else {
      assert PopCache(n.engine, outcome) == n.engine;
    }
    hide PopCache;
  }

  lemma PopIsQuietAboutFault(e: Engine, outcome: Outcome)
    ensures PopCache(e, outcome).muteFault == e.muteFault
  {
  }

  lemma DrainSteps(c: Config, q: Player, n: Player, log: seq<Slot>, at: int, next: int)
    requires WellFormed(c, n) && PlayerInv(c, n, log) && Running(c, n.engine, log, next)
    requires q.finite.Some? && n == q.(engine := n.engine) && AllAccepted(n.engine.window, log)
    requires NextPosition(n.engine, next) == NextPosition(q.engine, at) && n.engine.muteFault == q.engine.muteFault
    ensures StepsWell(c, q, log, at, DrainFinite(c, n, true), next)
  {
    DrainShape(c, n, true);
    DrainKept(c, n, log, true);
    LeftFits(c, n);
    if Left(n) > 0 {
      DrainStep(c, n, true);
    }
    assert !DrainFinite(c, n, true).failed;
    hide DrainFinite, EngineInv, Running, NextPosition, WellFormed, AllAccepted, PaddingIsLast;
  }

  lemma AdvanceSteps(c: Config, l: Live, s: Scene)
    requires LiveInv(c, l) && HealthyScene(c, l, s) && Enter(c, l.player, s).Playing?
    ensures WellFormed(c, Enter(c, l.player, s).player)
    ensures
      var q := Enter(c, l.player, s).player;
      StepsWell(c, q, l.log, l.at, Advance(c, q, s), AtAfter(c, l, s))
  {
    hide EngineInv, Running, Enter, Refill, NextAt, AtAfter, Refilling, Play, DrainFinite, NextPosition, WellFormed,
      AllAccepted, StepsWell;
    EnterRuns(c, l, s);
    EnterKeepsShape(c, l.player, s);
    HealthyRefilling(c, l, s);
    var q := Enter(c, l.player, s).player;
    RefilledPlayer(c, l, s);
    var r, next := Refilling(c, q, s), AtAfter(c, l, s);
    var n := q.(engine := r.engine);
    if PastEnd(n) {
      PastEndMeansAllAccepted(n, l.log);
      DrainSteps(c, q, n, l.log, l.at, next);
    } else {
      PlaySteps(c, q, n, l.log, l.at, next, r.outcome);
    }
  }

  /** After the refill the player still accounts for the source. */
  lemma RefilledPlayer(c: Config, l: Live, s: Scene)
    requires LiveInv(c, l) && HealthyScene(c, l, s) && Enter(c, l.player, s).Playing?
    ensures
      var q := Enter(c, l.player, s).player;
      var n := q.(engine := Refilling(c, q, s).engine);
      && PlayerInv(c, n, l.log) && WellFormed(c, n) && EngineInv(n.engine, l.log)
      && (q.finite.Some? ==> PaddingIsLast(n.engine.window, l.log))
  {
    hide EngineInv, Running, Enter, Refilling, AllAccepted, RefilledWell, LoopSees, LoopRefused, Refused, HealthyLoop,
      HealthySupply, AtAfter;
    EnterRuns(c, l, s);
    EnterKeepsShape(c, l.player, s);
    HealthyRefilling(c, l, s);
    RefillingKeeps(c, Enter(c, l.player, s).player, l.log, s);
  }

  /** Held back, nothing changes but mutes and flags. */
  lemma HeldKeeps(c: Config, l: Live, s: Scene)
    requires LiveInv(c, l) && HealthyScene(c, l, s) && Enter(c, l.player, s).Held?
    ensures
      var r := Render(c, l.player, s);
      && r.acknowledged.None? && r.player == Enter(c, l.player, s).player && LiveInv(c, l.(player := r.player))
      && (r.failed ==> r.player.engine.muteFault)
      && (r.player.finite.Some? ==> r.player.engine.muteFault)
      && NextPosition(r.player.engine, l.at) == NextPosition(l.player.engine, l.at)
  {
    EnterRuns(c, l, s);
    NotFailedReset(c, l);
    HeldReasons(c, l.player, s);
    hide PlayerInv, Running, Enter, NextPosition, AllAccepted, WellFormed;
  }

  lemma NotFailedReset(c: Config, l: Live)
    requires LiveInv(c, l)
    ensures !l.player.engine.resetFailed && (l.player.finite.Some? ==> !l.player.quiet)
  {
  }

  lemma HeldReasons(c: Config, p: Player, s: Scene)
    requires WellFormed(c, p) && ValidScene(c, s) && Enter(c, p, s).Held?
    requires !p.engine.resetFailed && (p.finite.Some? ==> !p.quiet)
    ensures
      var r := Render(c, p, s);
      && r == Silent(Enter(c, p, s).player, r.failed)
      && (r.failed ==> r.player.engine.muteFault)
      && (r.player.finite.Some? ==> r.player.engine.muteFault)
  {
    EnterKeepsShape(c, p, s);
    AbsorbingKeepsShape(c, Capture(p, s), s.records);
    hide Absorbing, Advance, DrainFinite;
  }

  /** The world after a call; a completed burst leaves an emptied one, its converter at `restart`. */
  function LiveThen(c: Config, l: Live, s: Scene, restart: int): Live
    requires WellFormed(c, l.player) && ValidScene(c, s)
  {
    var r := Render(c, l.player, s);
    if r.acknowledged.Some? then Live(r.player, [], restart) else Live(r.player, l.log, AtAfter(c, l, s))
  }

  lemma CompletedRuns(c: Config, p: Player, s: Scene, restart: int)
    requires ValidConfig(c) && WellFormed(c, p) && ValidScene(c, s) && s.resetOk && restart <= 0
    ensures
      var r := Render(c, p, s);
      r.acknowledged.Some? ==>
        WellFormed(c, r.player) && PlayerInv(c, r.player, []) && Running(c, r.player.engine, [], restart)
  {
    hide Render, PlayerInv, Running, Cleared, WellFormed, Settings.Validate;
    RenderShape(c, p, s);
    var r := Render(c, p, s);
    if r.acknowledged.Some? {
      EmptiedKeeps(c, r.player, []);
      AcknowledgedIsReset(c, p, s);
      var e: Engine :| r.player.engine == Cleared(e, true);
      ResetRuns(c, e, restart);
    }
  }

  lemma AcknowledgedIsReset(c: Config, p: Player, s: Scene)
    requires WellFormed(c, p) && ValidScene(c, s) && s.resetOk && Render(c, p, s).acknowledged.Some?
    ensures exists e: Engine :: Render(c, p, s).player.engine == Cleared(e, true)
  {
    EnterKeepsShape(c, p, s);
    var q := Enter(c, p, s).player;
    hide Enter, Refilling, CachePosition, Cleared;
    if Enter(c, p, s).Playing? {
      var n := q.(engine := Refilling(c, q, s).engine);
      assert Render(c, p, s).player.engine == Cleared(n.engine, true);
    } else {
      assert Render(c, p, s).player.engine == Cleared(q.engine, true);
    }
  }

  /**
   A healthy call keeps the run healthy. It fails only on a mute fault, completes
   only as drained, never moves a position back, and unless faulted brings a
   captured burst closer to its end.
   */
  lemma LiveStep(c: Config, l: Live, s: Scene, restart: int)
    requires LiveInv(c, l) && HealthyScene(c, l, s) && restart <= 0
    ensures
      var q, r, n := Enter(c, l.player, s).player, Render(c, l.player, s), LiveThen(c, l, s, restart);
      && LiveInv(c, n)
      && (r.failed ==> r.player.engine.muteFault)
      && (r.acknowledged.Some? ==> r.acknowledged.value == Handoff.DRAINED)
      && (r.acknowledged.None? ==>
            NextPosition(l.player.engine, l.at) <= NextPosition(n.player.engine, n.at))
      && (r.acknowledged.None? && q.finite.Some? && !r.player.engine.muteFault ==>
            n.player.finite.Some? && Measure(n.player, n.at) < Measure(q, l.at))
  {
    hide PlayerInv, Running, Enter, NextPosition, AllAccepted, WellFormed, Advance, DrainFinite, Render, AtAfter,
      Measure, HealthyScene, ValidConfig;
    EnterRuns(c, l, s);
    CompletedRuns(c, l.player, s, restart) by { SceneFacts(c, l, s); }
    SceneFacts(c, l, s);
    match Enter(c, l.player, s) {
      case Held(_, _) =>
        HeldKeeps(c, l, s);
        HeldStays(c, l, s);
      case Ending(_) => EndingSteps(c, l, s);
      case Playing(_) =>
        AdvanceSteps(c, l, s);
        RenderAdvances(c, l.player, s);
    }
  }

  lemma SceneFacts(c: Config, l: Live, s: Scene)
    requires HealthyScene(c, l, s)
    ensures ValidScene(c, s) && s.resetOk && s.supplies != []
  {
  }

  lemma HeldStays(c: Config, l: Live, s: Scene)
    requires s.supplies != [] && !Enter(c, l.player, s).Playing?
    ensures AtAfter(c, l, s) == l.at
  {
  }

  lemma EndingSteps(c: Config, l: Live, s: Scene)
    requires LiveInv(c, l) && HealthyScene(c, l, s) && Enter(c, l.player, s).Ending?
    ensures
      var q := Enter(c, l.player, s).player;
      && q.finite.Some? && AtAfter(c, l, s) == l.at
      && StepsWell(c, q, l.log, l.at, Render(c, l.player, s), l.at)
  {
    hide PlayerInv, Running, Enter, NextPosition, AllAccepted, DrainFinite, StepsWell;
    EnterRuns(c, l, s);
    EnterKeepsShape(c, l.player, s);
    var q := Enter(c, l.player, s).player;
    DrainSteps(c, q, q, l.log, l.at, l.at);
  }

  // ---------------------------------------------------------------- whole healthy runs

  datatype LiveEvent = Published(slots: seq<Slot>) | Called(scene: Scene, restart: int) | WasReset(restart: int)

  /** Slots continue the stamps and come only while no boundary is captured; calls are healthy; resets succeed. */
  predicate HealthyEvent(c: Config, l: Live, ev: LiveEvent) {
    match ev
    case Published(slots) => l.player.finite.None? && Stamped(l.log + slots)
    case Called(s, restart) => HealthyScene(c, l, s) && restart <= 0
    case WasReset(restart) => restart <= 0
  }

  function LiveNext(c: Config, l: Live, ev: LiveEvent): Live
    requires WellFormed(c, l.player) && HealthyEvent(c, l, ev)
  {
    match ev
    case Published(slots) => l.(log := l.log + slots)
    case Called(s, restart) => LiveThen(c, l, s, restart)
    case WasReset(restart) => Live(Reset(l.player, true), [], restart)
  }

  predicate HealthyRun(c: Config, l: Live, events: seq<LiveEvent>)
    decreases |events|
  {
    events == [] ||
    (WellFormed(c, l.player) && HealthyEvent(c, l, events[0]) && HealthyRun(c, LiveNext(c, l, events[0]), events[1..]))
  }

  function LiveRun(c: Config, l: Live, events: seq<LiveEvent>): Live
    requires HealthyRun(c, l, events)
    decreases |events|
  {
    if events == [] then l else LiveRun(c, LiveNext(c, l, events[0]), events[1..])
  }

  lemma LiveNextKeeps(c: Config, l: Live, ev: LiveEvent)
    requires LiveInv(c, l) && HealthyEvent(c, l, ev)
    ensures LiveInv(c, LiveNext(c, l, ev))
  {
    hide PlayerInv, Running, WellFormed, HealthyScene, LiveThen, Stamped, Settings.Validate, Cleared;
    match ev {
      case Published(slots) =>
        ArriveKeeps(c, l.player, l.log, slots);
        RunningLogGrows(c, l.player.engine, l.log, slots, l.at);
      case Called(s, restart) => LiveStep(c, l, s, restart);
      case WasReset(restart) =>
        ResetKeeps(c, l.player, true);
        ResetRuns(c, l.player.engine, restart);
    }
  }

  lemma {:induction false} LiveRunKeeps(c: Config, l: Live, events: seq<LiveEvent>)
    requires LiveInv(c, l) && HealthyRun(c, l, events)
    ensures LiveInv(c, LiveRun(c, l, events))
    decreases |events|
  {
    if events != [] {
      LiveNextKeeps(c, l, events[0]);
      hide LiveInv, LiveNext;
      LiveRunKeeps(c, LiveNext(c, l, events[0]), events[1..]);
    }
  }

  lemma CreatedLives(c: Config, start: int)
    requires ValidConfig(c) && c.settings.outputRate <= PlcSpec.RATE_MAX && start <= 0
    ensures LiveInv(c, Live(Created(c), [], start))
  {
    CreatedInv(c);
    var e := Created(c).engine;
    assert e == Cleared(e, true);
    ResetRuns(c, e, start);
    hide Running, Created, PlayerInv;
  }

  /** Over every healthy run no call reports a failure but a mute fault, and every boundary ends drained. */
  lemma NoFalseAdapterError(c: Config, start: int, events: seq<LiveEvent>, s: Scene)
    requires ValidConfig(c) && c.settings.outputRate <= PlcSpec.RATE_MAX && start <= 0
    requires HealthyRun(c, Live(Created(c), [], start), events)
    requires
      var l := LiveRun(c, Live(Created(c), [], start), events);
      WellFormed(c, l.player) && HealthyScene(c, l, s)
    ensures
      var r := Render(c, LiveRun(c, Live(Created(c), [], start), events).player, s);
      && (r.failed ==> r.player.engine.muteFault)
      && (r.acknowledged.Some? ==> r.acknowledged.value == Handoff.DRAINED)
  {
    hide HealthyScene, Render, LiveInv, Created;
    CreatedLives(c, start);
    LiveRunKeeps(c, Live(Created(c), [], start), events);
    LiveStep(c, LiveRun(c, Live(Created(c), [], start), events), s, 0);
  }

  // ---------------------------------------------------------------- every burst ends

  /** Calls of one burst: healthy, neither completed nor faulted. */
  predicate Unresolved(c: Config, l: Live, scenes: seq<Scene>)
    decreases |scenes|
  {
    scenes == [] ||
    (WellFormed(c, l.player) && HealthyScene(c, l, scenes[0])
     && Render(c, l.player, scenes[0]).acknowledged.None?
     && !Render(c, l.player, scenes[0]).player.engine.muteFault
     && Unresolved(c, LiveThen(c, l, scenes[0], 0), scenes[1..]))
  }

  /** Once captured, a boundary is resolved within as many calls as its measure allows. */
  lemma {:induction false} BurstResolves(c: Config, l: Live, scenes: seq<Scene>)
    requires LiveInv(c, l) && l.player.finite.Some? && Unresolved(c, l, scenes)
    ensures |scenes| <= Measure(l.player, l.at)
    decreases |scenes|
  {
    hide LiveInv, HealthyScene, Render, LiveThen, Enter, Measure;
    if scenes != [] {
      SceneFacts(c, l, scenes[0]);
      LiveStep(c, l, scenes[0], 0);
      CapturedOnce(c, l, scenes[0]);
      BurstResolves(c, LiveThen(c, l, scenes[0], 0), scenes[1..]);
    }
  }

  lemma CapturedOnce(c: Config, l: Live, s: Scene)
    requires LiveInv(c, l) && HealthyScene(c, l, s) && l.player.finite.Some?
    ensures Enter(c, l.player, s).player.finite == l.player.finite
    ensures Measure(Enter(c, l.player, s).player, l.at) == Measure(l.player, l.at)
  {
    hide PlayerInv, Running, Enter, NextPosition, AllAccepted, HealthyScene;
    EnterRuns(c, l, s);
    EnterKeepsShape(c, l.player, s);
  }
}
