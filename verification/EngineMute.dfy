/**
 Muting over whole healthy runs: every sample is looked up at the position it was
 converted at, however long it waited in the lookahead, and a sample whose
 support meets any interval received before it is played is silence.
 */
module EngineMute {
  import opened Common
  import opened Mute
  import opened Engine
  import opened EngineTime
  import opened EnginePlay
  import opened EngineEnding
  import opened EngineLive
  import PlcSpec
  import Settings

  // ---------------------------------------------------------------- order of positions

  /** Emitted positions, the ones still queued and the one to come: one generation, never moving back. */
  ghost predicate Order(generation: nat, ops: seq<Op>, queue: seq<Option<Position>>, low: int) {
    && Mute.Playing(generation, ops)
    && (forall i | 0 <= i < |queue| && queue[i].Some? ::
          && queue[i].value.generation == generation
          && queue[i].value.low <= queue[i].value.high && queue[i].value.low <= low)
    && (forall i, j | 0 <= i < j < |queue| && queue[i].Some? && queue[j].Some? ::
          queue[i].value.low <= queue[j].value.low)
    && (forall k, i | 0 <= k < |ops| && 0 <= i < |queue| && ops[k].Emit? && queue[i].Some? ::
          ops[k].position.low <= queue[i].value.low)
    && (forall k | 0 <= k < |ops| && ops[k].Emit? :: ops[k].position.low <= low)
  }

  /** Before the first stamp nothing has a position. */
  predicate Blank(ops: seq<Op>, queue: seq<Option<Position>>) {
    && (forall k | 0 <= k < |ops| :: ops[k].Record? && Nonempty(ops[k].interval))
    && (forall i | 0 <= i < |queue| :: queue[i].None?)
  }

  lemma BlankIsOrdered(generation: nat, ops: seq<Op>, queue: seq<Option<Position>>, low: int)
    requires Blank(ops, queue)
    ensures Order(generation, ops, queue, low)
  {
  }

  lemma OrderPush(generation: nat, ops: seq<Op>, queue: seq<Option<Position>>, low: int, at: Option<Position>,
                  next: int)
    requires Order(generation, ops, queue, low) && low <= next
    requires at.Some? ==> at.value.generation == generation && at.value.low == low && at.value.low <= at.value.high
    ensures Order(generation, ops, queue + [at], next)
  {
  }

  function Emitting(at: Option<Position>): seq<Op> {
    if at.Some? then [Emit(at.value)] else []
  }

  lemma OrderEmit(generation: nat, ops: seq<Op>, queue: seq<Option<Position>>, low: int)
    requires Order(generation, ops, queue, low) && queue != []
    ensures Order(generation, ops + Emitting(queue[0]), queue[1..], low)
  {
    var more := ops + Emitting(queue[0]);
    assert forall k | 0 <= k < |ops| :: more[k] == ops[k];
    if queue[0].Some? {
      assert more[|ops|] == Emit(queue[0].value);
    }
    assert forall i | 0 <= i < |queue| - 1 :: queue[1..][i] == queue[i + 1];
  }

  function Records(intervals: seq<Interval>): (r: seq<Op>)
    ensures |r| == |intervals| && forall k | 0 <= k < |r| :: r[k] == Record(intervals[k])
  {
    seq(|intervals|, k requires 0 <= k < |intervals| => Record(intervals[k]))
  }

  lemma OrderRecords(generation: nat, ops: seq<Op>, queue: seq<Option<Position>>, low: int, intervals: seq<Interval>)
    requires Order(generation, ops, queue, low) && forall k | 0 <= k < |intervals| :: Nonempty(intervals[k])
    ensures Order(generation, ops + Records(intervals), queue, low)
  {
    var more := ops + Records(intervals);
    assert forall k | 0 <= k < |ops| :: more[k] == ops[k];
    assert forall k | |ops| <= k < |more| :: more[k] == Record(intervals[k - |ops|]);
  }

  /** In order, the pruned history answers the next emission as all intervals ever recorded would. */
  lemma OrderedLookup(capacity: nat, generation: nat, ops: seq<Op>, queue: seq<Option<Position>>, low: int, i: nat)
    requires Order(generation, ops, queue, low) && i < |queue| && queue[i].Some?
    ensures IsMuted(HistoryAfter(capacity, ops), queue[i].value) <==> Meets(Naive(capacity, ops), queue[i].value)
  {
    var more := ops + [Emit(queue[i].value)];
    assert forall k | 0 <= k < |ops| :: more[k] == ops[k];
    assert more[|ops|] == Emit(queue[i].value);
    HistoryRefinesNaive(capacity, generation, ops, queue[i].value);
  }

  /** Receiving intervals is what the history does with records. */
  lemma {:induction false} AbsorbingIsHistory(c: Config, p: Player, intervals: seq<Interval>, ops: seq<Op>)
    requires p.mutes == HistoryAfter(c.muteRoom, ops)
    ensures Absorbing(c, p, intervals).mutes == HistoryAfter(c.muteRoom, ops + Records(intervals))
    decreases |intervals|
  {
    hide Inserted;
    if intervals == [] {
      assert ops + Records(intervals) == ops;
    } else {
      var r := Inserted(p.mutes, c.muteRoom, intervals[0]);
      var next := if r.Some? then p.(mutes := r.value) else p.(engine := p.engine.(muteFault := true));
      var more := ops + [Record(intervals[0])];
      assert more[..|more| - 1] == ops;
      AbsorbingIsHistory(c, next, intervals[1..], more);
      assert more + Records(intervals[1..]) == ops + Records(intervals);
    }
  }

  // ---------------------------------------------------------------- the source base

  /** What is queued and emitted agrees with the base and lies at or before a source position. */
  ghost predicate Tracked(base: Option<Base>, position: int, ops: seq<Op>, queue: seq<Option<Position>>) {
    if base.None? then Blank(ops, queue)
    else Order(base.value.generation, ops, queue, (position + base.value.offset * BILLION) / BILLION)
  }

  lemma TrackBase(base: Option<Base>, later: Option<Base>, position: int, ops: seq<Op>, queue: seq<Option<Position>>)
    requires Tracked(base, position, ops, queue) && (base.Some? ==> later == base)
    ensures Tracked(later, position, ops, queue)
  {
    if base.None? && later.Some? {
      BlankIsOrdered(later.value.generation, ops, queue, (position + later.value.offset * BILLION) / BILLION);
    }
  }

  /** A support is the floor and the ceiling of the position: the same slot or two neighbours. */
  lemma SupportIsTight(e: Engine)
    requires Support(e).Some?
    ensures
      var at, s := CachePosition(e.cache) + e.window.base.value.offset * BILLION, Support(e).value;
      && s.generation == e.window.base.value.generation
      && s.low == at / BILLION && s.low <= s.high <= s.low + 1
      && s.low * BILLION <= at <= s.high * BILLION
      && (s.high == s.low <==> at % BILLION == 0)
  {
    hide CachePosition;
  }

  lemma TrackPush(base: Option<Base>, position: int, next: int, ops: seq<Op>, queue: seq<Option<Position>>,
                  at: Option<Position>)
    requires Tracked(base, position, ops, queue) && position <= next
    requires at.Some? ==>
      && base.Some? && at.value.generation == base.value.generation && at.value.low <= at.value.high
      && at.value.low == (position + base.value.offset * BILLION) / BILLION
    ensures Tracked(base, next, ops, queue + [at])
  {
    if base.Some? {
      Monotone(position + base.value.offset * BILLION, next + base.value.offset * BILLION);
      OrderPush(base.value.generation, ops, queue,
                (position + base.value.offset * BILLION) / BILLION, at, (next + base.value.offset * BILLION) / BILLION);
    }
  }

  lemma TrackEmit(base: Option<Base>, position: int, ops: seq<Op>, queue: seq<Option<Position>>)
    requires Tracked(base, position, ops, queue) && queue != []
    ensures Tracked(base, position, ops + Emitting(queue[0]), queue[1..])
  {
    if base.Some? {
      OrderEmit(base.value.generation, ops, queue, (position + base.value.offset * BILLION) / BILLION);
    } else {
      assert ops + Emitting(queue[0]) == ops;
    }
  }

  lemma TrackRecords(base: Option<Base>, position: int, ops: seq<Op>, queue: seq<Option<Position>>,
                     intervals: seq<Interval>)
    requires Tracked(base, position, ops, queue) && forall k | 0 <= k < |intervals| :: Nonempty(intervals[k])
    ensures Tracked(base, position, ops + Records(intervals), queue)
  {
    if base.Some? {
      OrderRecords(base.value.generation, ops, queue, (position + base.value.offset * BILLION) / BILLION, intervals);
    }
  }

  lemma TrackedLookup(capacity: nat, base: Option<Base>, position: int, ops: seq<Op>, queue: seq<Option<Position>>,
                      i: nat)
    requires Tracked(base, position, ops, queue) && i < |queue| && queue[i].Some?
    ensures IsMuted(HistoryAfter(capacity, ops), queue[i].value) <==> Meets(Naive(capacity, ops), queue[i].value)
  {
    OrderedLookup(capacity, base.value.generation, ops, queue, (position + base.value.offset * BILLION) / BILLION, i);
  }

  lemma {:induction false} FillKeepsBase(c: Config, w: Window, offered: seq<Slot>, room: nat)
    ensures w.base.Some? ==> Fill(c, w, offered, room).window.base == w.base
    decreases room
  {
    if room > 0 && !w.padding && offered != [] && TakeSlot(c, w, offered[0]).Kept? {
      FillKeepsBase(c, TakeSlot(c, w, offered[0]).window, offered[1..], room - 1);
    }
  }

  lemma ConvertKeepsBase(c: Config, e: Engine, r: Replies)
    ensures Convert(c, e, r).engine.window.base == e.window.base
  {
    hide Convert, Conclude, Marked, See;
    ConvertCases(c, e, r);
    MarkedShape(e, r);
    var m, before := Marked(e, r), InputDelay(r.delayBefore);
    var made := Process(|m.window.input|, if m.window.gaps == [] then QUANTUM else 1, e.control.ratio, r.processed);
    if before.Some? && made.Some? {
      SeeShape(m.window, before.value);
      ConcludeKeepsBase(c, m.(window := See(m.window, before.value)), Total(m.window) * BILLION - before.value,
                        made.value, r);
    }
  }

  lemma ConcludeKeepsBase(c: Config, e: Engine, start: int, made: Converted, r: Replies)
    requires made.used <= |e.window.input|
    ensures Conclude(c, e, start, made, r).engine.window.base == e.window.base
  {
  }

  lemma RefillKeepsBase(c: Config, e: Engine, finite: bool, s: Supply)
    ensures e.window.base.Some? ==> Refill(c, e, finite, s).engine.window.base == e.window.base
  {
    hide Fill, Room, Convert, Settings.Steer;
    FillKeepsBase(c, e.window, s.offered, Room(c, e.window));
    var t := Fill(c, e.window, s.offered, Room(c, e.window));
    var filled := e.(window := Pad(t.window, finite));
    var queued := if s.replies.queued.Some? then s.replies.queued.value else 0;
    ConvertKeepsBase(c, Steered(c, filled, finite, s.available, queued), s.replies);
  }

  lemma {:induction false} LoopKeepsBase(c: Config, e: Engine, supplies: seq<Supply>)
    requires supplies != []
    ensures e.window.base.Some? ==> RefillLoop(c, e, supplies).engine.window.base == e.window.base
    decreases |supplies|
  {
    RefillKeepsBase(c, e, true, supplies[0]);
    hide Refill;
    var r := Refill(c, e, true, supplies[0]);
    if r.outcome.Starved? && |supplies| > 1 {
      LoopKeepsBase(c, r.engine, supplies[1..]);
    }
  }

  // ---------------------------------------------------------------- what a call plays

  /** Supports still to be emitted: the whole lookahead, or what an ending has left of it. */
  function Coming(p: Player): seq<Option<Position>> {
    if p.finite.Some? && p.finite.value.draining.Some?
    then p.positions[..Min(p.finite.value.draining.value, |p.positions|)]
    else p.positions
  }

  /** One sample leaving the player: its support and the value it has before the last mute. */
  datatype Emission = Emission(at: Option<Position>, sample: real)

  function DrainEmission(c: Config, n: Player): Option<Emission>
    requires WellFormed(c, n) && n.finite.Some?
  {
    if Left(n) == 0 then None
    else Some(Emission(n.positions[0], PlcSpec.Drain(c.settings.outputRate, n.plc.value).played.sample))
  }

  /** What the concealer is given for the output a call converts. */
  function Given(n: Player, outcome: Outcome): Option<real> {
    if MutedAt(n, Entering(n, outcome)) then Some(0.0) else ConvertedSample(n.engine, outcome)
  }

  function PlayEmission(c: Config, n: Player, outcome: Outcome): Emission
    requires WellFormed(c, n)
  {
    var given := Given(n, outcome);
    Emission((n.positions + [Entering(n, outcome)])[0],
             if n.engine.resetFailed then 0.0
             else if n.plc.Some? then PlcSpec.Process(c.settings.outputRate, n.plc.value, given).played.sample
             else if given.Some? then given.value else 0.0)
  }

  function Emitted(c: Config, p: Player, s: Scene): Option<Emission>
    requires WellFormed(c, p) && ValidScene(c, s)
  {
    EnterKeepsShape(c, p, s);
    match Enter(c, p, s)
    case Held(_, _) => None
    case Ending(q) => DrainEmission(c, q)
    case Playing(q) =>
      var r := Refilling(c, q, s);
      var n := q.(engine := r.engine);
      if q.finite.Some? && !r.outcome.Ready? then None
      else if PastEnd(n) then DrainEmission(c, n)
      else if n.engine.muteFault then None
      else Some(PlayEmission(c, n, r.outcome))
  }

  lemma DrainEmits(c: Config, n: Player, ok: bool)
    requires WellFormed(c, n) && n.finite.Some?
    ensures DrainEmission(c, n).Some? ==> Coming(n) != []
    ensures
      var r, e := DrainFinite(c, n, ok), DrainEmission(c, n);
      if e.None? then r.acknowledged.Some?
      else
        && r.acknowledged.None?
        && e.value.at == Coming(n)[0]
        && r.sample == (if MutedAt(n, e.value.at) then 0.0 else e.value.sample)
        && r.player.mutes == RetiredAt(n.mutes, e.value.at)
        && Coming(r.player) == Coming(n)[1..]
  {
    LeftFits(c, n);
    hide PlcSpec.Drain, PlcSpec.Valid, PlcSpec.Delay;
  }

  lemma PlayEmits(c: Config, n: Player, outcome: Outcome)
    requires WellFormed(c, n) && (n.finite.Some? ==> n.finite.value.draining.None?)
    ensures
      var r, e, queue := Play(c, n, outcome), PlayEmission(c, n, outcome), n.positions + [Entering(n, outcome)];
      && r.acknowledged.None? && e.at == queue[0]
      && r.sample == (if MutedAt(n, e.at) then 0.0 else e.sample)
      && r.player.mutes == RetiredAt(n.mutes, e.at)
      && Coming(n) == n.positions && Coming(r.player) == queue[1..]
      && r.player.engine == PopCache(n.engine, outcome) && r.player.finite == n.finite
  {
    hide PlcSpec.Process, PlcSpec.Valid, PlcSpec.Delay, Support, PopCache, IsMuted, Retired;
  }

  // ---------------------------------------------------------------- healthy runs with mutes

  /** The history is that of the operations so far, and every position is in order. */
  ghost predicate HeardPlayer(c: Config, p: Player, at: int, ops: seq<Op>) {
    && p.mutes == HistoryAfter(c.muteRoom, ops)
    && Tracked(p.engine.window.base, NextPosition(p.engine, at), ops, Coming(p))
  }

  /** The interval set a position is answered from: everything ever recorded. */
  ghost predicate Silences(c: Config, ops: seq<Op>, at: Option<Position>) {
    at.Some? && Meets(Naive(c.muteRoom, ops), at.value)
  }

  lemma HistoryEmit(capacity: nat, ops: seq<Op>, at: Option<Position>)
    ensures HistoryAfter(capacity, ops + Emitting(at)) == RetiredAt(HistoryAfter(capacity, ops), at)
  {
    if at.Some? {
      var more := ops + [Emit(at.value)];
      assert more[..|more| - 1] == ops;
    } else {
      assert ops + Emitting(at) == ops;
    }
  }

  lemma EnterMutes(c: Config, p: Player, s: Scene)
    ensures Enter(c, p, s).player.mutes == Absorbing(c, Capture(p, s), s.records).mutes
  {
    hide Absorbing;
  }

  lemma EnterHears(c: Config, l: Live, ops: seq<Op>, s: Scene)
    requires LiveInv(c, l) && HealthyScene(c, l, s) && HeardPlayer(c, l.player, l.at, ops)
    requires forall k | 0 <= k < |s.records| :: Nonempty(s.records[k])
    ensures HeardPlayer(c, Enter(c, l.player, s).player, l.at, ops + Records(s.records))
  {
    hide PlayerInv, Running, Enter, NextPosition, AllAccepted, HealthyScene, Tracked, WellFormed, HistoryAfter,
      Absorbing, Settings.Validate;
    EnterRuns(c, l, s);
    EnterKeepsShape(c, l.player, s);
    EnterMutes(c, l.player, s);
    AbsorbingIsHistory(c, Capture(l.player, s), s.records, ops);
    var p := l.player;
    TrackRecords(p.engine.window.base, NextPosition(p.engine, l.at), ops, Coming(p), s.records);
  }

  lemma RefillHears(c: Config, q: Player, n: Player, at: int, next: int, ops: seq<Op>)
    requires HeardPlayer(c, q, at, ops) && n == q.(engine := n.engine)
    requires NextPosition(n.engine, next) == NextPosition(q.engine, at)
    requires q.engine.window.base.Some? ==> n.engine.window.base == q.engine.window.base
    ensures HeardPlayer(c, n, next, ops)
  {
    TrackBase(q.engine.window.base, n.engine.window.base, NextPosition(q.engine, at), ops, Coming(q));
    hide Tracked, NextPosition, HistoryAfter;
  }

  /** The oldest support is looked up exactly. */
  lemma LookupHears(c: Config, p: Player, base: Option<Base>, position: int, ops: seq<Op>,
                    queue: seq<Option<Position>>, i: nat)
    requires p.mutes == HistoryAfter(c.muteRoom, ops) && Tracked(base, position, ops, queue) && i < |queue|
    ensures MutedAt(p, queue[i]) <==> Silences(c, ops, queue[i])
  {
    if queue[i].Some? {
      TrackedLookup(c.muteRoom, base, position, ops, queue, i);
    }
    hide Tracked, HistoryAfter, IsMuted, Meets, Naive;
  }

  lemma DrainHears(c: Config, n: Player, next: int, ops: seq<Op>, ok: bool)
    requires WellFormed(c, n) && n.finite.Some? && HeardPlayer(c, n, next, ops)
    ensures
      var r, e := DrainFinite(c, n, ok), DrainEmission(c, n);
      if e.None? then r.acknowledged.Some?
      else
        && r.acknowledged.None? && HeardPlayer(c, r.player, next, ops + Emitting(e.value.at))
        && r.sample == if Silences(c, ops, e.value.at) then 0.0 else e.value.sample
  {
    hide Tracked, NextPosition, HistoryAfter, Coming, DrainFinite, DrainEmission, WellFormed, MutedAt, RetiredAt,
      Silences;
    DrainEmits(c, n, ok);
    DrainShape(c, n, ok);
    var e := DrainEmission(c, n);
    if e.Some? {
      var base, position := n.engine.window.base, NextPosition(n.engine, next);
      TrackEmit(base, position, ops, Coming(n));
      LookupHears(c, n, base, position, ops, Coming(n), 0);
      HistoryEmit(c.muteRoom, ops, e.value.at);
    }
  }

  lemma EnteringFits(c: Config, n: Player, outcome: Outcome, next: int)
    requires outcome.Ready? ==> n.engine.cache.pcm != []
    ensures
      var at, base, position := Entering(n, outcome), n.engine.window.base, NextPosition(n.engine, next);
      at.Some? ==>
        && base.Some? && at.value.generation == base.value.generation && at.value.low <= at.value.high
        && at.value.low == (position + base.value.offset * BILLION) / BILLION
  {
    if Entering(n, outcome).Some? {
      SupportIsTight(n.engine);
    }
    hide CachePosition, Support;
  }

  /** Playing: the support goes in with its sample and comes out with its sample. */
  lemma PlayHears(c: Config, n: Player, log: seq<Slot>, next: int, ops: seq<Op>, outcome: Outcome)
    requires WellFormed(c, n) && (n.finite.Some? ==> n.finite.value.draining.None?)
    requires Running(c, n.engine, log, next) && HeardPlayer(c, n, next, ops)
    requires outcome.Ready? <==> n.engine.cache.pcm != []
    ensures
      var r, e := Play(c, n, outcome), PlayEmission(c, n, outcome);
      && r.acknowledged.None? && HeardPlayer(c, r.player, next, ops + Emitting(e.at))
      && r.sample == (if Silences(c, ops, e.at) then 0.0 else e.sample)
      && (MutedAt(n, Entering(n, outcome)) <==> Silences(c, ops, Entering(n, outcome)))
  {
    hide Tracked, NextPosition, HistoryAfter, Play, PlayEmission, WellFormed, MutedAt, RetiredAt, Silences, Running,
      Entering, PopCache;
    PlayEmits(c, n, outcome);
    PopAdvances(c, n.engine, log, next, outcome);
    EnteringFits(c, n, outcome, next);
    var at, base := Entering(n, outcome), n.engine.window.base;
    var position, later := NextPosition(n.engine, next), NextPosition(PopCache(n.engine, outcome), next);
    var queue := n.positions + [at];
    TrackPush(base, position, later, ops, n.positions, at);
    TrackEmit(base, later, ops, queue);
    LookupHears(c, n, base, later, ops, queue, 0);
    LookupHears(c, n, base, later, ops, queue, |n.positions|);
    HistoryEmit(c.muteRoom, ops, queue[0]);
  }

  lemma PopAdvances(c: Config, e: Engine, log: seq<Slot>, next: int, outcome: Outcome)
    requires Running(c, e, log, next) && (outcome.Ready? <==> e.cache.pcm != [])
    ensures NextPosition(e, next) <= NextPosition(PopCache(e, outcome), next)
    ensures PopCache(e, outcome).window == e.window
  {
    hide Running, CachePosition;
    if outcome.Ready? {
      PlayingAdvances(c, e, log, next);
    }
  }

  /** The operations of the history after a call that did not complete a burst. */
  function OpsAfter(ops: seq<Op>, s: Scene, e: Option<Emission>): seq<Op> {
    ops + Records(s.records) + if e.Some? then Emitting(e.value.at) else []
  }

  /** What a call promises about muting. */
  ghost predicate MutesExactly(c: Config, ops: seq<Op>, s: Scene, r: Rendered, e: Option<Emission>, next: int) {
    && (e.Some? ==>
          && r.acknowledged.None?
          && r.sample == if Silences(c, ops + Records(s.records), e.value.at) then 0.0 else e.value.sample)
    && (r.acknowledged.None? ==> HeardPlayer(c, r.player, next, OpsAfter(ops, s, e)))
  }

  lemma PlayingBase(c: Config, q: Player, s: Scene)
    requires s.supplies != []
    ensures q.engine.window.base.Some? ==> Refilling(c, q, s).engine.window.base == q.engine.window.base
  {
    if q.finite.Some? {
      LoopKeepsBase(c, q.engine, s.supplies);
    } else {
      RefillKeepsBase(c, q.engine, false, s.supplies[0]);
    }
  }

  lemma PlayingHears(c: Config, l: Live, ops: seq<Op>, s: Scene)
    requires LiveInv(c, l) && HealthyScene(c, l, s) && HeardPlayer(c, l.player, l.at, ops)
    requires forall k | 0 <= k < |s.records| :: Nonempty(s.records[k])
    requires Enter(c, l.player, s).Playing?
    ensures MutesExactly(c, ops, s, Render(c, l.player, s), Emitted(c, l.player, s), AtAfter(c, l, s))
  {
    hide PlayerInv, Running, Enter, NextPosition, AllAccepted, WellFormed, Refilling, Play, DrainFinite, PlayEmission,
      DrainEmission, HeardPlayer, Silences, AtAfter, HealthyScene, OpsAfter, CachePosition;
    EnterHears(c, l, ops, s);
    EnterRuns(c, l, s);
    EnterKeepsShape(c, l.player, s);
    SceneFacts(c, l, s);
    HealthyRefilling(c, l, s);
    RefilledPlayer(c, l, s);
    RenderAdvances(c, l.player, s);
    var q := Enter(c, l.player, s).player;
    PlayingBase(c, q, s);
    var r, next, more := Refilling(c, q, s), AtAfter(c, l, s), ops + Records(s.records);
    var n := q.(engine := r.engine);
    RefillHears(c, q, n, l.at, next, more);
    OpsUnfold(ops, s);
    if PastEnd(n) {
      DrainHears(c, n, next, more, s.resetOk);
    } else {
      PlayHears(c, n, l.log, next, more, r.outcome);
    }
  }

  lemma OpsUnfold(ops: seq<Op>, s: Scene)
    ensures forall e: Emission :: OpsAfter(ops, s, Some(e)) == ops + Records(s.records) + Emitting(e.at)
    ensures OpsAfter(ops, s, None) == ops + Records(s.records)
  {
  }

  /**
   One healthy call: the sample it plays is silence exactly where the oldest
   support meets an interval recorded so far, and otherwise untouched.
   */
  lemma RenderHears(c: Config, l: Live, ops: seq<Op>, s: Scene)
    requires LiveInv(c, l) && HealthyScene(c, l, s) && HeardPlayer(c, l.player, l.at, ops)
    requires forall k | 0 <= k < |s.records| :: Nonempty(s.records[k])
    ensures MutesExactly(c, ops, s, Render(c, l.player, s), Emitted(c, l.player, s), AtAfter(c, l, s))
  {
    hide PlayerInv, Running, Enter, NextPosition, AllAccepted, WellFormed, Refilling, Advance, DrainFinite,
      DrainEmission, HeardPlayer, Silences, AtAfter, HealthyScene, OpsAfter;
    EnterHears(c, l, ops, s);
    EnterRuns(c, l, s);
    EnterKeepsShape(c, l.player, s);
    SceneFacts(c, l, s);
    OpsUnfold(ops, s);
    var q := Enter(c, l.player, s).player;
    match Enter(c, l.player, s) {
      case Held(_, _) => HeldStays(c, l, s);
      case Ending(_) =>
        HeldStays(c, l, s);
        DrainHears(c, q, l.at, ops + Records(s.records), s.resetOk);
      case Playing(_) => PlayingHears(c, l, ops, s);
    }
  }

  /** The healthy world with its recorded history. */
  datatype Heard = Heard(live: Live, ops: seq<Op>)

  ghost predicate HeardInv(c: Config, h: Heard) {
    LiveInv(c, h.live) && HeardPlayer(c, h.live.player, h.live.at, h.ops)
  }

  /** Popped records are nonempty: the mailbox publishes no others. */
  predicate HeardEvent(c: Config, h: Heard, ev: LiveEvent) {
    HealthyEvent(c, h.live, ev)
    && (ev.Called? ==> forall k | 0 <= k < |ev.scene.records| :: Nonempty(ev.scene.records[k]))
  }

  function HeardNext(c: Config, h: Heard, ev: LiveEvent): Heard
    requires WellFormed(c, h.live.player) && HeardEvent(c, h, ev)
  {
    var next := LiveNext(c, h.live, ev);
    match ev
    case Published(_) => Heard(next, h.ops)
    case WasReset(_) => Heard(next, [])
    case Called(s, _) =>
      SceneFacts(c, h.live, s);
      Heard(next, if Render(c, h.live.player, s).acknowledged.Some? then []
                  else OpsAfter(h.ops, s, Emitted(c, h.live.player, s)))
  }

  predicate HeardRunOk(c: Config, h: Heard, events: seq<LiveEvent>)
    decreases |events|
  {
    events == [] ||
    (WellFormed(c, h.live.player) && HeardEvent(c, h, events[0])
     && HeardRunOk(c, HeardNext(c, h, events[0]), events[1..]))
  }

  function HeardRun(c: Config, h: Heard, events: seq<LiveEvent>): Heard
    requires HeardRunOk(c, h, events)
    decreases |events|
  {
    if events == [] then h else HeardRun(c, HeardNext(c, h, events[0]), events[1..])
  }

  lemma ClearedHears(c: Config, p: Player, at: int)
    requires p.engine.window == EMPTY_WINDOW && p.mutes == []
        && forall k | 0 <= k < |p.positions| :: p.positions[k].None?
    ensures HeardPlayer(c, p, at, [])
  {
  }

  lemma CompletedIsCleared(c: Config, p: Player, s: Scene)
    requires WellFormed(c, p) && ValidScene(c, s) && Render(c, p, s).acknowledged.Some?
    ensures
      var n := Render(c, p, s).player;
      n.engine.window == EMPTY_WINDOW && n.mutes == [] && forall k | 0 <= k < |n.positions| :: n.positions[k].None?
  {
    EnterKeepsShape(c, p, s);
    hide Enter, Refilling, CachePosition;
  }

  lemma HeardNextKeeps(c: Config, h: Heard, ev: LiveEvent)
    requires HeardInv(c, h) && HeardEvent(c, h, ev)
    ensures HeardInv(c, HeardNext(c, h, ev))
  {
    hide LiveInv, HeardPlayer, Render, Emitted, AtAfter, HealthyScene, OpsAfter, Silences;
    LiveNextKeeps(c, h.live, ev);
    match ev {
      case Published(_) =>
      case WasReset(restart) => ClearedHears(c, Reset(h.live.player, true), restart);
      case Called(s, restart) =>
        LiveIsWellFormed(c, h.live);
        SceneFacts(c, h.live, s);
        RenderHears(c, h.live, h.ops, s);
        if Render(c, h.live.player, s).acknowledged.Some? {
          CompletedIsCleared(c, h.live.player, s);
          ClearedHears(c, Render(c, h.live.player, s).player, restart);
        }
    }
  }

  lemma LiveIsWellFormed(c: Config, l: Live)
    requires LiveInv(c, l)
    ensures WellFormed(c, l.player)
  {
  }

  lemma {:induction false} HeardRunKeeps(c: Config, h: Heard, events: seq<LiveEvent>)
    requires HeardInv(c, h) && HeardRunOk(c, h, events)
    ensures HeardInv(c, HeardRun(c, h, events))
    decreases |events|
  {
    if events != [] {
      HeardNextKeeps(c, h, events[0]);
      hide HeardInv, HeardNext;
      HeardRunKeeps(c, HeardNext(c, h, events[0]), events[1..]);
    }
  }

  lemma CreatedHears(c: Config, start: int)
    requires ValidConfig(c) && c.settings.outputRate <= PlcSpec.RATE_MAX && start <= 0
    ensures HeardInv(c, Heard(Live(Created(c), [], start), []))
  {
    CreatedLives(c, start);
    ClearedHears(c, Created(c), start);
    hide LiveInv, HeardPlayer;
  }

  /**
   Muting is exact over every healthy run: a played sample is silence if its own
   support meets any interval whose record was accepted since the last reset and
   before it is played, and is otherwise what the concealer made.
   */
  lemma MutingIsExact(c: Config, start: int, events: seq<LiveEvent>, s: Scene)
    requires ValidConfig(c) && c.settings.outputRate <= PlcSpec.RATE_MAX && start <= 0
    requires HeardRunOk(c, Heard(Live(Created(c), [], start), []), events)
    requires
      var h := HeardRun(c, Heard(Live(Created(c), [], start), []), events);
      && WellFormed(c, h.live.player) && HealthyScene(c, h.live, s)
      && forall k | 0 <= k < |s.records| :: Nonempty(s.records[k])
    ensures
      var h := HeardRun(c, Heard(Live(Created(c), [], start), []), events);
      && ValidScene(c, s)
      && var r, e := Render(c, h.live.player, s), Emitted(c, h.live.player, s);
      e.Some? ==>
        && (Silences(c, h.ops + Records(s.records), e.value.at) ==> r.sample == 0.0)
        && (!Silences(c, h.ops + Records(s.records), e.value.at) ==> r.sample == e.value.sample)
  {
    hide HealthyScene, Render, LiveInv, Created, HeardPlayer, Silences, Emitted, AtAfter, OpsAfter;
    CreatedHears(c, start);
    HeardRunKeeps(c, Heard(Live(Created(c), [], start), []), events);
    var h := HeardRun(c, Heard(Live(Created(c), [], start), []), events);
    SceneFacts(c, h.live, s);
    RenderHears(c, h.live, h.ops, s);
  }
}
