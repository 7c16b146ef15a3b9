/**
 A converter at unity ratio without history: it meets every assumption made of a
 healthy one, and with it what is played is exactly what was published.
 */
module PassThrough {
  import opened Common
  import opened Mute
  import opened Engine
  import opened EngineSource
  import opened EngineBounds
  import opened EngineTime
  import opened EnginePlay
  import opened EngineEnding
  import opened EngineLive
  import EngineStall
  import Handoff
  import PlcSpec
  import Settings

  /** Outputs one conversion of this window may make. */
  function Quota(w: Window): nat {
    if Located(w, Total(w) * BILLION).gaps == [] then QUANTUM else 1
  }

  /** Copy input to output; nothing is ever held back. */
  function Copied(w: Window): Converted {
    var n := Min(|w.input|, Quota(w));
    Converted(n, w.input[..n])
  }

  function PassReplies(w: Window): Replies {
    Replies(Some(0), Some(0), Some(0), Some(Copied(w)), Some(0))
  }

  /** The assumptions made of a converter can be met, by one that does something. */
  lemma PassIsHealthy(c: Config, w: Window)
    ensures Healthy(c, w, Total(w) * BILLION, PassReplies(w))
    ensures Moved(w, Total(w) * BILLION, PassReplies(w)) == (Total(w) + Copied(w).used) * BILLION
    ensures w.input != [] ==> Copied(w).generated != []
  {
    hide Located;
  }

  // ---------------------------------------------------------------- the cache is the fed suffix

  /** Everything the converter accepted, padding included. */
  function Accepted(w: Window): seq<real> {
    w.fed + PlcSpec.Zeros(w.padded)
  }

  /** With `played` outputs gone, the cache is the rest of what was accepted, each output at its own frame. */
  predicate Aligned(e: Engine, played: nat) {
    var w, k := e.window, e.cache;
    && |w.fed| == w.accepted && Total(w) == played + |k.pcm|
    && k.pcm == Accepted(w)[played..]
    && (w.padding ==> w.input == PlcSpec.Zeros(|w.input|))
    && (w.padded > 0 ==> w.padding)
    && (k.pcm != [] ==>
          && k.count >= 1 && k.end - k.start == k.count * BILLION
          && k.start + k.offset * BILLION == played * BILLION)
  }

  lemma AlignedPosition(e: Engine, played: nat)
    requires Aligned(e, played) && e.cache.pcm != []
    ensures CachePosition(e.cache) == played * BILLION
  {
    var k := e.cache;
    assert (k.end - k.start) * k.offset == k.offset * BILLION * k.count by {
      assert k.count * BILLION * k.offset == k.offset * BILLION * k.count;
    }
    Remainder((k.end - k.start) * k.offset, k.offset * BILLION, 0, k.count);
  }

  lemma FilledAligned(c: Config, e: Engine, finite: bool, s: Supply, played: nat)
    requires Aligned(e, played) && Fill(c, e.window, s.offered, Room(c, e.window)).Kept?
    ensures Aligned(Primed(c, e, finite, s), played)
    ensures Primed(c, e, finite, s).cache == e.cache
  {
    FillFeedsNothing(c, e.window, s.offered, Room(c, e.window));
    hide Fill, Room, Settings.Steer;
  }

  lemma {:induction false} FillFeedsNothing(c: Config, w: Window, offered: seq<Slot>, room: nat)
    requires Fill(c, w, offered, room).Kept?
    ensures
      var n := Fill(c, w, offered, room).window;
      && n.fed == w.fed && n.padded == w.padded && n.accepted == w.accepted && n.padding == w.padding
      && (w.padding ==> n.input == w.input)
    decreases room
  {
    if room > 0 && !w.padding && offered != [] {
      FillFeedsNothing(c, TakeSlot(c, w, offered[0]).window, offered[1..], room - 1);
    }
  }

  lemma ZerosSplit(a: nat, b: nat)
    ensures PlcSpec.Zeros(a + b) == PlcSpec.Zeros(a) + PlcSpec.Zeros(b)
    ensures PlcSpec.Zeros(a + b)[..a] == PlcSpec.Zeros(a) && PlcSpec.Zeros(a + b)[a..] == PlcSpec.Zeros(b)
  {
  }

  /** What a conversion accepts is what it adds to the cache. */
  lemma ConsumeAccepts(w: Window, used: nat)
    requires used <= |w.input| && (w.padding ==> w.input == PlcSpec.Zeros(|w.input|)) && (w.padded > 0 ==> w.padding)
    ensures Accepted(Consume(w, used)) == Accepted(w) + w.input[..used]
    ensures w.padding ==> Consume(w, used).input == PlcSpec.Zeros(|w.input| - used)
  {
    if w.padding {
      ZerosSplit(used, |w.input| - used);
      ZerosSplit(w.padded, used);
    }
  }

  lemma ConvertAligned(c: Config, e: Engine, played: nat)
    requires ValidConfig(c) && Aligned(e, played) && e.cache.pcm == [] && e.control.ratio > 0.0
    ensures Aligned(Convert(c, e, PassReplies(e.window)).engine, played)
  {
    hide Convert, Settled, Healthy, LiesInGap, Quota, ValidConfig, Aligned;
    PassIsHealthy(c, e.window);
    var made := Copied(e.window);
    AlignedStart(e, played);
    HealthyOutcome(c, e, Total(e.window) * BILLION, PassReplies(e.window));
    SettledAccepts(e.window, made, played);
    BookedAligned(e, Convert(c, e, PassReplies(e.window)).engine, made, played);
  }

  lemma AlignedStart(e: Engine, played: nat)
    requires Aligned(e, played) && e.cache.pcm == []
    ensures Total(e.window) == played && |e.window.fed| == e.window.accepted
    ensures (e.window.padding ==> e.window.input == PlcSpec.Zeros(|e.window.input|))
        && (e.window.padded > 0 ==> e.window.padding)
  {
  }

  /** What the conversion accepts is just what it makes. */
  lemma SettledAccepts(w: Window, made: Converted, played: nat)
    requires Total(w) == played && |w.fed| == w.accepted && made == Copied(w)
    requires (w.padding ==> w.input == PlcSpec.Zeros(|w.input|)) && (w.padded > 0 ==> w.padding)
    ensures
      var n := Settled(w, Total(w) * BILLION, made);
      && Accepted(n)[played..] == made.generated && Total(n) == played + made.used && |n.fed| == n.accepted
      && (n.padding ==> n.input == PlcSpec.Zeros(|n.input|)) && (n.padded > 0 ==> n.padding)
  {
    SettledShape(w, Total(w) * BILLION, made);
    ConsumeAccepts(w, made.used);
    var n := Settled(w, Total(w) * BILLION, made);
    assert Accepted(n) == Accepted(w) + made.generated && |Accepted(w)| == played;
    hide Settled, Accepted, Quota;
  }

  lemma BookedAligned(e: Engine, n: Engine, made: Converted, played: nat)
    requires Total(e.window) == played && made == Copied(e.window)
    requires n.window == Settled(e.window, Total(e.window) * BILLION, made)
    requires |n.window.fed| == n.window.accepted && Total(n.window) == played + made.used
    requires Accepted(n.window)[played..] == made.generated
    requires (n.window.padding ==> n.window.input == PlcSpec.Zeros(|n.window.input|))
        && (n.window.padded > 0 ==> n.window.padding)
    requires
      if made.generated != [] then
        n.cache == Cache(made.generated, 0, |made.generated|, n.cache.missing, played * BILLION,
                         (played + made.used) * BILLION)
      else n.cache.pcm == []
    ensures Aligned(n, played)
  {
    hide Settled, Accepted, Quota;
  }

  lemma SettledShape(w: Window, at: int, made: Converted)
    requires at <= Total(w) * BILLION && made.used <= |w.input|
    ensures
      var n := Settled(w, at, made);
      n == Consume(w, made.used).(gaps := n.gaps, floor := n.floor, zeroProgress := n.zeroProgress)
  {
    LocatedInput(w, at);
    hide Frame, Prune;
  }

  // ---------------------------------------------------------------- refills

  predicate PassSupply(c: Config, e: Engine, finite: bool, s: Supply) {
    Converts(c, e, finite, s) ==> s.replies == PassReplies(Filled(c, e, finite, s))
  }

  predicate PassEngine(c: Config, e: Engine, log: seq<Slot>, played: nat) {
    Running(c, e, log, Total(e.window) * BILLION) && Aligned(e, played)
  }

  lemma RefillPasses(c: Config, e: Engine, finite: bool, s: Supply, log: seq<Slot>, played: nat)
    requires PassEngine(c, e, log, played) && s.offered <= log[e.window.taken..] && PassSupply(c, e, finite, s)
    ensures HealthySupply(c, e, finite, Total(e.window) * BILLION, s)
    ensures
      var out := Refill(c, e, finite, s);
      && PassEngine(c, out.engine, log, played)
      && NextAt(c, e, finite, Total(e.window) * BILLION, s) == Total(out.engine.window) * BILLION
  {
    hide SourceInv, Near, Filled, Passed, Classified, Convert, Settings.RatioInRange, Settings.Validate, Stamped,
      Primed, Aligned, Healthy, Copied, RefilledWell, Fill, CacheTimed;
    var at := Total(e.window) * BILLION;
    if e.cache.pcm == [] {
      FilledKeeps(c, e, finite, s, log, at);
      PassIsHealthy(c, Filled(c, e, finite, s));
      HealthyRefill(c, e, finite, s, log, at);
      RefillIsConvert(c, e, finite, s);
      PrimedKeeps(c, e, finite, s, log, at);
      FilledAligned(c, e, finite, s, played);
      if Converts(c, e, finite, s) {
        ConvertAligned(c, Primed(c, e, finite, s), played);
        ConvertTotal(c, Primed(c, e, finite, s));
      } else {
        IdleAligned(c, e, finite, s, played);
      }
      WellRuns(c, e, finite, log, at, Refill(c, e, finite, s), NextAt(c, e, finite, at, s));
    }
  }

  lemma WellRuns(c: Config, e: Engine, finite: bool, log: seq<Slot>, at: int, out: Refilled, next: int)
    requires RefilledWell(c, e, finite, log, at, out, next)
    ensures Running(c, out.engine, log, next)
  {
  }

  lemma ConvertTotal(c: Config, e: Engine)
    requires ValidConfig(c) && e.cache.pcm == [] && e.control.ratio > 0.0
    ensures Total(Convert(c, e, PassReplies(e.window)).engine.window) == Total(e.window) + Copied(e.window).used
  {
    PassIsHealthy(c, e.window);
    HealthyOutcome(c, e, Total(e.window) * BILLION, PassReplies(e.window));
    SettledShape(e.window, Total(e.window) * BILLION, Copied(e.window));
    hide Convert, Settled, Healthy, LiesInGap, Copied;
  }

  lemma IdleAligned(c: Config, e: Engine, finite: bool, s: Supply, played: nat)
    requires Aligned(Primed(c, e, finite, s), played)
    ensures Aligned(e.(window := Filled(c, e, finite, s)), played)
  {
    hide Filled, Settings.Steer, Accepted;
  }

  /** Every refill of a finite loop is answered by the pass-through converter. */
  predicate PassLoop(c: Config, e: Engine, supplies: seq<Supply>)
    decreases |supplies|
  {
    && supplies != [] && PassSupply(c, e, true, supplies[0])
    && (Refill(c, e, true, supplies[0]).outcome.Starved? && |supplies| > 1 ==>
          PassLoop(c, Refill(c, e, true, supplies[0]).engine, supplies[1..]))
  }

  lemma {:induction false} LoopPasses(c: Config, e: Engine, log: seq<Slot>, supplies: seq<Supply>, played: nat)
    requires PassEngine(c, e, log, played) && PassLoop(c, e, supplies) && LoopSees(c, e, log, supplies)
    ensures HealthyLoop(c, e, log, Total(e.window) * BILLION, supplies)
    ensures
      var out := RefillLoop(c, e, supplies);
      && PassEngine(c, out.engine, log, played)
      && LoopAt(c, e, Total(e.window) * BILLION, supplies) == Total(out.engine.window) * BILLION
    decreases |supplies|
  {
    hide PassEngine, Refill, PassSupply, HealthySupply, NextAt;
    RefillPasses(c, e, true, supplies[0], log, played);
    var r := Refill(c, e, true, supplies[0]);
    if r.outcome.Starved? && |supplies| > 1 {
      LoopPasses(c, r.engine, log, supplies[1..], played);
    }
  }

  // ---------------------------------------------------------------- end to end

  /** What a listener should hear of the published slots: PCM in range, gaps as silence that is not real. */
  function Sounds(slots: seq<Slot>): (r: seq<PlcSpec.Played>)
    ensures |r| == |slots|
  {
    seq(|slots|, k requires 0 <= k < |slots| =>
      if slots[k].missing then PlcSpec.Played(0.0, false) else PlcSpec.Played(Canonical(slots[k].pcm), true))
  }

  /** A slot heard: a gap as silence not real, a sample in range as it is, any other as the bound it lies beyond. */
  predicate Heard(played: seq<PlcSpec.Played>, slots: seq<Slot>) {
    && |played| == |slots|
    && (forall k | 0 <= k < |slots| ::
          if slots[k].missing then played[k].sample == 0.0 && !played[k].fromPcm
          else
            && played[k].fromPcm
            && played[k].sample ==
                 if slots[k].pcm < -1.0 then -1.0 else if slots[k].pcm > 1.0 then 1.0 else slots[k].pcm)
  }

  lemma SoundsAreHeard(slots: seq<Slot>)
    ensures Heard(Sounds(slots), slots)
  {
  }

  /** A concealment-free player on the pass-through converter, and the outputs it has played since its reset. */
  datatype Direct = Direct(live: Live, heard: seq<PlcSpec.Played>)

  /** Without a lookahead an ending completes in the call it begins in. */
  predicate Undrained(p: Player) {
    p.finite.Some? ==> p.finite.value.draining.None?
  }

  predicate DirectInv(c: Config, d: Direct) {
    && LiveInv(c, d.live) && d.live.at == Total(d.live.player.engine.window) * BILLION
    && Aligned(d.live.player.engine, |d.heard|)
    && d.live.player.plc.None? && d.live.player.mutes == [] && !d.live.player.engine.muteFault
    && Undrained(d.live.player)
    && |d.heard| <= |d.live.log| && d.heard == Sounds(d.live.log[..|d.heard|])
  }

  predicate PassScene(c: Config, l: Live, s: Scene) {
    && ValidScene(c, s) && s.resetOk && Sees(c, l.player, l.log, s) && s.records == []
    && (var entry := Enter(c, l.player, s);
        entry.Playing? ==>
          if entry.player.finite.Some? then PassLoop(c, entry.player.engine, s.supplies)
          else PassSupply(c, entry.player.engine, false, s.supplies[0]))
  }

  /** The call takes an output from the cache and plays it. */
  predicate Pops(c: Config, p: Player, s: Scene)
    requires WellFormed(c, p) && ValidScene(c, s)
  {
    var entry := Enter(c, p, s);
    entry.Playing? && Refilling(c, entry.player, s).outcome.Ready? && Render(c, p, s).acknowledged.None?
  }

  function DirectNext(c: Config, d: Direct, s: Scene): Direct
    requires WellFormed(c, d.live.player) && ValidScene(c, s)
  {
    var r, next := Render(c, d.live.player, s), LiveThen(c, d.live, s, 0);
    Direct(next,
           if r.acknowledged.Some? then []
           else if Pops(c, d.live.player, s) then d.heard + [PlcSpec.Played(r.sample, r.fromPcm)]
           else d.heard)
  }

  /** Entering leaves the pass-through player as it was, but for the boundary and the flags. */
  lemma EnterPasses(c: Config, l: Live, s: Scene, played: nat)
    requires LiveInv(c, l) && PassScene(c, l, s) && Aligned(l.player.engine, played)
    requires l.player.mutes == [] && !l.player.engine.muteFault
    ensures
      var q := Enter(c, l.player, s).player;
      && q.engine == l.player.engine && q.mutes == [] && q.plc == l.player.plc
  {
    hide LiveInv, Aligned, Sees, PassLoop, PassSupply;
    EnterKeepsShape(c, l.player, s);
    NothingToAbsorb(c, l.player, s);
  }

  /** Without records entering leaves mutes and faults alone. */
  lemma NothingToAbsorb(c: Config, p: Player, s: Scene)
    requires s.records == []
    ensures Enter(c, p, s).player.mutes == p.mutes && Enter(c, p, s).player.engine == p.engine
  {
  }

  /** The pass-through converter makes every call healthy. */
  lemma PassIsHealthyScene(c: Config, l: Live, s: Scene, played: nat)
    requires LiveInv(c, l) && PassScene(c, l, s) && Aligned(l.player.engine, played)
    requires l.player.mutes == [] && !l.player.engine.muteFault
    requires l.at == Total(l.player.engine.window) * BILLION
    ensures HealthyScene(c, l, s)
    ensures Enter(c, l.player, s).Playing? ==>
        var q := Enter(c, l.player, s).player;
        var r := Refilling(c, q, s);
        && PassEngine(c, r.engine, l.log, played)
        && AtAfter(c, l, s) == Total(r.engine.window) * BILLION
  {
    hide Running, Aligned, PlayerInv, Refill, Enter, PassSupply, HealthySupply, NextAt, HealthyLoop, LoopSees,
      PassLoop;
    EnterPasses(c, l, s, played);
    EnterKeepsShape(c, l.player, s);
    var q := Enter(c, l.player, s).player;
    if Enter(c, l.player, s).Playing? {
      if q.finite.Some? {
        LoopPasses(c, q.engine, l.log, s.supplies, played);
      } else {
        RefillPasses(c, q.engine, false, s.supplies[0], l.log, played);
      }
    }
  }

  /** The next cached output is the slot at its own index. */
  lemma NextIsItsSlot(c: Config, e: Engine, log: seq<Slot>, played: nat)
    requires PassEngine(c, e, log, played) && e.cache.pcm != []
    requires e.window.padding ==> e.window.taken == |log| && played < |log|
    ensures played < |log|
    ensures e.cache.pcm[0] == log[played].pcm && (e.cache.missing <==> log[played].missing)
  {
    AlignedPosition(e, played);
    CachedMarkIsExact(c, e, log, Total(e.window) * BILLION, e.cache.offset, log);
    var w := e.window;
    assert Accounted(w, log);
    assert e.cache.pcm[0] == Accepted(w)[played];
    hide Running, PositionAt;
    assert played < w.accepted;
    assert Accepted(w)[played] == w.fed[played];
    assert (w.fed + Waiting(w))[played] == w.fed[played];
    assert Pcm(log[..w.taken])[played] == log[played].pcm;
  }

  lemma PopAligned(e: Engine, played: nat)
    requires Aligned(e, played) && e.cache.pcm != []
    ensures Aligned(PopCache(e, Ready), played + 1) && PopCache(e, Ready).window == e.window
    ensures PopCache(e, Ready).muteFault == e.muteFault
  {
    assert |Accepted(e.window)| == Total(e.window);
    assert Accepted(e.window)[played..][1..] == Accepted(e.window)[played + 1..];
    hide Accepted;
  }

  /** What a direct player makes of an output: itself in range, or silence that is not real. */
  lemma PlaysDirectly(c: Config, n: Player, outcome: Outcome)
    requires WellFormed(c, n) && n.plc.None? && n.mutes == [] && !n.engine.resetFailed
    ensures
      var r, k := Play(c, n, outcome), n.engine.cache;
      && r.player.mutes == [] && r.player.plc.None? && r.player.engine == PopCache(n.engine, outcome)
      && r.acknowledged.None? && r.player.finite == n.finite
      && (outcome.Ready? && k.pcm != [] ==>
            r.sample == (if k.missing then 0.0 else Canonical(k.pcm[0])) && r.fromPcm == !k.missing)
  {
    NothingMuted(n, Entering(n, outcome));
    hide Support, PopCache;
  }

  lemma NothingMuted(n: Player, at: Option<Position>)
    requires n.mutes == []
    ensures !MutedAt(n, at) && RetiredAt(n.mutes, at) == []
  {
  }

  lemma SoundsNext(log: seq<Slot>, played: nat)
    requires played < |log|
    ensures Sounds(log[..played + 1]) == Sounds(log[..played]) + [Sounds(log)[played]]
  {
  }

  /** The refilled player of a pass-through call, before it plays or ends. */
  predicate PassReady(c: Config, n: Player, log: seq<Slot>, played: nat) {
    && WellFormed(c, n) && PassEngine(c, n.engine, log, played) && n.mutes == [] && !n.engine.muteFault
    && PlayerInv(c, n, log)
    && (n.finite.None? ==> !n.engine.window.padding)
    && (n.finite.Some? ==>
          n.finite.value.end == |log| && PaddingIsLast(n.engine.window, log) && n.engine.cache.pcm != [])
  }

  lemma PassPlays(c: Config, n: Player, log: seq<Slot>, played: nat, outcome: Outcome)
    requires PassReady(c, n, log, played) && !PastEnd(n) && (outcome.Ready? <==> n.engine.cache.pcm != [])
    requires n.plc.None?
    ensures
      var r := Play(c, n, outcome);
      && r.acknowledged.None? && r.player.mutes == [] && r.player.plc.None? && !r.player.engine.muteFault
      && r.player.finite == n.finite
      && r.player.engine.window == n.engine.window
      && (outcome.Ready? ==>
            && played < |log| && PlcSpec.Played(r.sample, r.fromPcm) == Sounds(log)[played]
            && Aligned(r.player.engine, played + 1))
      && (!outcome.Ready? ==> r.player.engine == n.engine)
  {
    PlaysDirectly(c, n, outcome) by { RunsUnreset(c, n.engine, log, played); }
    if outcome.Ready? {
      AlignedPosition(n.engine, played);
      NextIsItsSlot(c, n.engine, log, played);
      PopAligned(n.engine, played);
    }
    hide PlayerInv, PassEngine, Aligned, Play, Support, Retired;
  }

  lemma RunsUnreset(c: Config, e: Engine, log: seq<Slot>, played: nat)
    requires PassEngine(c, e, log, played)
    ensures !e.resetFailed
  {
  }

  /** Past the end everything published has been heard. */
  lemma PastEndHeardAll(c: Config, n: Player, log: seq<Slot>, played: nat)
    requires PassReady(c, n, log, played) && n.finite.Some? && PastEnd(n)
    ensures played >= |log|
  {
    AlignedPosition(n.engine, played);
    hide PlayerInv, PositionAt;
  }

  lemma PassIsReady(c: Config, l: Live, s: Scene, played: nat)
    requires LiveInv(c, l) && PassScene(c, l, s) && Enter(c, l.player, s).Playing? && Aligned(l.player.engine, played)
    requires l.player.mutes == [] && !l.player.engine.muteFault && l.at == Total(l.player.engine.window) * BILLION
    ensures
      var q := Enter(c, l.player, s).player;
      var r := Refilling(c, q, s);
      && PassReady(c, q.(engine := r.engine), l.log, played) && q.plc == l.player.plc
      && !r.outcome.AdapterError? && (r.outcome.Ready? <==> r.engine.cache.pcm != [])
      && (q.finite.Some? ==> r.outcome.Ready?)
      && AtAfter(c, l, s) == Total(r.engine.window) * BILLION
  {
    hide Running, Aligned, PlayerInv, Enter, Refilling, AtAfter, HealthyScene, PastEnd, RefilledWell, Sees, PassLoop,
      PassSupply;
    PassIsHealthyScene(c, l, s, played);
    EnterPasses(c, l, s, played);
    HealthyRefilling(c, l, s);
    RefilledPlayer(c, l, s);
    var q := Enter(c, l.player, s).player;
    var r := Refilling(c, q, s);
    WellOutcome(c, q.engine, q.finite.Some?, l.log, l.at, r, AtAfter(c, l, s));
    BoundaryKept(c, q.(engine := r.engine), l.log);
  }

  lemma BoundaryKept(c: Config, n: Player, log: seq<Slot>)
    requires PlayerInv(c, n, log)
    ensures n.finite.None? ==> !n.engine.window.padding
    ensures n.finite.Some? ==> n.finite.value.end == |log|
  {
  }

  lemma WellOutcome(c: Config, e: Engine, finite: bool, log: seq<Slot>, at: int, out: Refilled, next: int)
    requires RefilledWell(c, e, finite, log, at, out, next)
    ensures !out.outcome.AdapterError? && (out.outcome.Ready? <==> out.engine.cache.pcm != [])
    ensures out.engine.muteFault == e.muteFault
  {
  }

  lemma DirectPlayingStep(c: Config, d: Direct, s: Scene)
    requires DirectInv(c, d) && PassScene(c, d.live, s) && Enter(c, d.live.player, s).Playing?
    ensures WellFormed(c, d.live.player) && ValidScene(c, s)
    ensures
      var n := DirectNext(c, d, s);
      && n.live.at == Total(n.live.player.engine.window) * BILLION
      && Aligned(n.live.player.engine, |n.heard|)
      && n.live.player.plc.None? && n.live.player.mutes == [] && !n.live.player.engine.muteFault
      && Undrained(n.live.player)
      && |n.heard| <= |n.live.log| && n.heard == Sounds(n.live.log[..|n.heard|])
      && (Render(c, d.live.player, s).acknowledged.Some? ==> d.heard == Sounds(d.live.log))
  {
    hide Running, Aligned, PlayerInv, Enter, Refilling, AtAfter, PassScene, LiveInv, PassEngine, Play, CachePosition,
      Complete, Sounds;
    PassIsReady(c, d.live, s, |d.heard|);
    DirectFacts(c, d, s);
    RenderAdvances(c, d.live.player, s);
    EnterKeepsShape(c, d.live.player, s);
    var q := Enter(c, d.live.player, s).player;
    var r := Refilling(c, q, s);
    var n := q.(engine := r.engine);
    if PastEnd(n) {
      PastEndHeardAll(c, n, d.live.log, |d.heard|);
      assert d.live.log[..|d.heard|] == d.live.log;
      CompletesDirectly(c, n, s);
    } else {
      PassPlays(c, n, d.live.log, |d.heard|, r.outcome);
      if r.outcome.Ready? {
        SoundsNext(d.live.log, |d.heard|);
      } else {
        StaysAligned(c, n, d.live.log, |d.heard|);
      }
    }
  }

  lemma StaysAligned(c: Config, n: Player, log: seq<Slot>, played: nat)
    requires PassReady(c, n, log, played)
    ensures Aligned(n.engine, played)
  {
  }

  lemma DirectFacts(c: Config, d: Direct, s: Scene)
    requires DirectInv(c, d) && PassScene(c, d.live, s)
    ensures ValidConfig(c) && WellFormed(c, d.live.player) && ValidScene(c, s) && s.supplies != [] && s.resetOk
    ensures d.live.player.positions == []
  {
    hide Running, PlayerInv, Aligned, Sounds, Enter, PassLoop, PassSupply, Sees;
  }

  lemma EmptyAligned(e: Engine)
    requires e.window == EMPTY_WINDOW && e.cache.pcm == []
    ensures Aligned(e, 0) && Total(e.window) == 0
  {
    assert Accepted(EMPTY_WINDOW) == [];
  }

  /** Without a lookahead the boundary completes at once, leaving nothing. */
  lemma CompletesDirectly(c: Config, n: Player, s: Scene)
    requires WellFormed(c, n) && n.finite.Some? && n.positions == [] && n.plc.None? && s.resetOk
    ensures
      var r := DrainFinite(c, n, s.resetOk);
      && r.acknowledged == Some(Handoff.DRAINED)
      && r.player.plc.None? && r.player.mutes == [] && !r.player.engine.muteFault && r.player.finite.None?
      && Aligned(r.player.engine, 0) && Total(r.player.engine.window) == 0
  {
    DrainShape(c, n, s.resetOk);
    var r := DrainFinite(c, n, s.resetOk);
    assert r.acknowledged.Some?;
    assert r.player.plc.None? && r.player.mutes == [] && !r.player.engine.muteFault;
    hide DrainFinite;
    EmptyAligned(r.player.engine);
    hide Aligned;
  }

  lemma DirectOtherStep(c: Config, d: Direct, s: Scene)
    requires DirectInv(c, d) && PassScene(c, d.live, s) && !Enter(c, d.live.player, s).Playing?
    ensures WellFormed(c, d.live.player) && ValidScene(c, s)
    ensures
      var n := DirectNext(c, d, s);
      && n.live.at == Total(n.live.player.engine.window) * BILLION
      && Aligned(n.live.player.engine, |n.heard|)
      && n.live.player.plc.None? && n.live.player.mutes == [] && !n.live.player.engine.muteFault
      && Undrained(n.live.player)
      && |n.heard| <= |n.live.log| && n.heard == Sounds(n.live.log[..|n.heard|])
      && (Render(c, d.live.player, s).acknowledged.Some? ==> d.heard == Sounds(d.live.log))
  {
    hide Running, Aligned, PlayerInv, Enter, AtAfter, PassScene, LiveInv, Sounds, DrainFinite;
    DirectFacts(c, d, s);
    EnterPasses(c, d.live, s, |d.heard|);
    EnterKeepsShape(c, d.live.player, s);
    HeldStays(c, d.live, s);
    var q := Enter(c, d.live.player, s).player;
    if Enter(c, d.live.player, s).Ending? {
      CompletesDirectly(c, q, s);
      EndingHeardAll(c, d, s);
      assert d.live.log[..|d.heard|] == d.live.log;
    }
  }

  /** A direct player ends only an empty burst this way: it never has a lookahead to drain. */
  lemma EndingHeardAll(c: Config, d: Direct, s: Scene)
    requires DirectInv(c, d) && PassScene(c, d.live, s) && Enter(c, d.live.player, s).Ending?
    ensures |d.heard| == |d.live.log|
  {
    hide Running, Enter, Sounds, PassLoop, PassSupply, Accepted, EngineInv;
    PassIsHealthyScene(c, d.live, s, |d.heard|);
    EnterRuns(c, d.live, s);
    EnterKeepsShape(c, d.live.player, s);
  }

  /** One call of the direct player. */
  lemma DirectStep(c: Config, d: Direct, s: Scene)
    requires DirectInv(c, d) && PassScene(c, d.live, s)
    ensures WellFormed(c, d.live.player) && ValidScene(c, s) && DirectInv(c, DirectNext(c, d, s))
    ensures Render(c, d.live.player, s).acknowledged.Some? ==> d.heard == Sounds(d.live.log)
  {
    hide Running, Aligned, PlayerInv, Enter, AtAfter, PassScene, LiveInv, Sounds, Render, HealthyScene, LiveThen;
    DirectFacts(c, d, s);
    PassIsHealthyScene(c, d.live, s, |d.heard|);
    LiveStep(c, d.live, s, 0);
    if Enter(c, d.live.player, s).Playing? {
      DirectPlayingStep(c, d, s);
    } else {
      DirectOtherStep(c, d, s);
    }
  }

  // ---------------------------------------------------------------- nothing published stays unheard

  /** If a slot is still unread the call's first refill is offered one. */
  predicate Offers(l: Live, s: Scene) {
    s.supplies != [] && (l.player.engine.window.taken < |l.log| ==> s.supplies[0].offered != [])
  }

  /** With a slot still unheard an empty cache leaves source to convert. */
  lemma SourceIsLeft(c: Config, e: Engine, s: Supply, log: seq<Slot>, played: nat)
    requires PassEngine(c, e, log, played) && s.offered <= log[e.window.taken..] && e.cache.pcm == []
    requires !e.window.padding && played < |log| && (e.window.taken < |log| ==> s.offered != [])
    ensures Filled(c, e, false, s).input != []
  {
    FilledKeeps(c, e, false, s, log, Total(e.window) * BILLION);
    FillCounts(c, e.window, s.offered, Room(c, e.window));
    hide GapsExact, Near, Passed, Classified, CacheTimed, Stamped, Settings.RatioInRange, Fill, Accepted;
  }

  /** So the refill has output ready. */
  lemma RefillMakes(c: Config, e: Engine, s: Supply, log: seq<Slot>, played: nat)
    requires PassEngine(c, e, log, played) && s.offered <= log[e.window.taken..] && PassSupply(c, e, false, s)
    requires !e.window.padding && played < |log| && (e.window.taken < |log| ==> s.offered != [])
    ensures Refill(c, e, false, s).outcome.Ready?
  {
    if e.cache.pcm == [] {
      var at := Total(e.window) * BILLION;
      SourceIsLeft(c, e, s, log, played);
      FilledKeeps(c, e, false, s, log, at);
      PassIsHealthy(c, Filled(c, e, false, s));
      RefillIsConvert(c, e, false, s);
      PrimedKeeps(c, e, false, s, log, at);
      hide SourceInv, Near, Filled, Passed, Classified, Convert, Settings.RatioInRange, Settings.Validate, Stamped,
        Primed, Healthy, Copied, Fill, CacheTimed, Aligned;
      HealthyOutcome(c, Primed(c, e, false, s), at, s.replies);
    } else {
      RunsUnreset(c, e, log, played);
      hide PassEngine;
    }
  }

  /**
   Liveness: every call that playout lets through, with the slots the producer
   published on offer, plays the next published slot that was not yet heard.
   */
  lemma NextSlotIsHeard(c: Config, d: Direct, s: Scene)
    requires DirectInv(c, d) && PassScene(c, d.live, s) && Enter(c, d.live.player, s).Playing?
    requires Offers(d.live, s) && |d.heard| < |d.live.log|
    ensures WellFormed(c, d.live.player) && ValidScene(c, s)
    ensures DirectNext(c, d, s).heard == d.heard + [Sounds(d.live.log)[|d.heard|]]
    ensures DirectNext(c, d, s).live.log == d.live.log
  {
    hide Running, Aligned, PlayerInv, Enter, Refilling, AtAfter, PassScene, LiveInv, PassEngine, Play, CachePosition,
      Sounds;
    PassIsReady(c, d.live, s, |d.heard|);
    DirectFacts(c, d, s);
    RenderAdvances(c, d.live.player, s);
    EnterKeepsShape(c, d.live.player, s);
    DirectIsReady(c, d, s);
    var q := Enter(c, d.live.player, s).player;
    var n := q.(engine := Refilling(c, q, s).engine);
    if PastEnd(n) {
      PastEndHeardAll(c, n, d.live.log, |d.heard|);
      assert false;
    } else {
      PassPlays(c, n, d.live.log, |d.heard|, Ready);
    }
  }

  /** Calls of a stream that goes on: no boundary asked for, something readable, what is published on offer. */
  predicate Steady(c: Config, d: Direct, scenes: seq<Scene>)
    decreases |scenes|
  {
    scenes == [] ||
    (WellFormed(c, d.live.player) && PassScene(c, d.live, scenes[0]) && !Handoff.Pending(scenes[0].word)
     && scenes[0].atQuiet > 0 && Offers(d.live, scenes[0]) && Steady(c, DirectNext(c, d, scenes[0]), scenes[1..]))
  }

  function AfterSteady(c: Config, d: Direct, scenes: seq<Scene>): Direct
    requires Steady(c, d, scenes)
    decreases |scenes|
  {
    if scenes == [] then d else AfterSteady(c, DirectNext(c, d, scenes[0]), scenes[1..])
  }

  lemma SteadyStep(c: Config, d: Direct, s: Scene)
    requires DirectInv(c, d) && PassScene(c, d.live, s) && !Handoff.Pending(s.word) && s.atQuiet > 0
    requires Offers(d.live, s) && d.live.player.finite.None? && |d.heard| < |d.live.log|
    requires d.live.player.primed || s.atPriming >= c.settings.reserve
    ensures WellFormed(c, d.live.player) && ValidScene(c, s)
    ensures
      var n := DirectNext(c, d, s);
      && n.heard == d.heard + [Sounds(d.live.log)[|d.heard|]] && n.live.log == d.live.log
      && DirectInv(c, n) && n.live.player.finite.None? && n.live.player.primed
  {
    DirectFacts(c, d, s);
    DirectAwake(c, d);
    EngineStall.PlayoutStartsExactly(c, d.live.player, s);
    EngineStall.NothingAbsorbed(c, Capture(d.live.player, s));
    NoRecords(c, d.live, s);
    hide DirectInv, PassScene, Enter, Render, Sounds, Offers;
    NextSlotIsHeard(c, d, s);
    DirectStep(c, d, s);
    RenderStaysOpen(c, d.live.player, s);
    StaysPrimed(c, d.live.player, s);
  }

  lemma NoRecords(c: Config, l: Live, s: Scene)
    requires PassScene(c, l, s)
    ensures s.records == []
  {
  }

  lemma DirectAwake(c: Config, d: Direct)
    requires DirectInv(c, d)
    ensures !d.live.player.engine.muteFault && !d.live.player.engine.resetFailed
  {
    hide PlayerInv, Aligned, Sounds;
  }

  /** Without a boundary asked for a playing call captures and completes none. */
  lemma RenderStaysOpen(c: Config, p: Player, s: Scene)
    requires WellFormed(c, p) && ValidScene(c, s) && p.finite.None? && !Handoff.Pending(s.word)
    ensures Render(c, p, s).player.finite.None? && Render(c, p, s).acknowledged.None?
  {
    EnterKeepsShape(c, p, s);
    EngineStall.PlayoutStartsExactly(c, p, s);
    var q := Enter(c, p, s).player;
    hide Enter, Play, Refilling, CachePosition;
    if Enter(c, p, s).Playing? {
      PlayShape(c, q.(engine := Refilling(c, q, s).engine), Refilling(c, q, s).outcome);
    }
  }

  lemma StaysPrimed(c: Config, p: Player, s: Scene)
    requires WellFormed(c, p) && ValidScene(c, s) && Enter(c, p, s).Playing? && Enter(c, p, s).player.primed
    requires Render(c, p, s).acknowledged.None? && p.finite.None? && !Handoff.Pending(s.word)
    ensures Render(c, p, s).player.primed
  {
    EnterKeepsShape(c, p, s);
    var q := Enter(c, p, s).player;
    hide Enter, Play, Refilling, CachePosition, DrainFinite;
    PlayShape(c, q.(engine := Refilling(c, q, s).engine), Refilling(c, q, s).outcome);
  }

  /**
   So a stream comes out at the rate it is asked for: from the call that finds the
   reserve readable, or at once if playout has already started, every call plays
   one more of the published slots, in order, until all have been heard.
   */
  lemma {:induction false} StreamIsHeard(c: Config, d: Direct, scenes: seq<Scene>)
    requires DirectInv(c, d) && d.live.player.finite.None? && Steady(c, d, scenes)
    requires d.live.player.primed || (scenes != [] ==> scenes[0].atPriming >= c.settings.reserve)
    requires |d.heard| + |scenes| <= |d.live.log|
    ensures
      var n := AfterSteady(c, d, scenes);
      n.heard == d.heard + Sounds(d.live.log)[|d.heard|..|d.heard| + |scenes|] && n.live.log == d.live.log
    decreases |scenes|
  {
    hide DirectInv, DirectNext, PassScene, Sounds, Offers;
    if scenes != [] {
      SteadyStep(c, d, scenes[0]);
      StreamIsHeard(c, DirectNext(c, d, scenes[0]), scenes[1..]);
      var all, at := Sounds(d.live.log), |d.heard|;
      assert [all[at]] + all[at + 1..at + |scenes|] == all[at..at + |scenes|];
    }
  }

  lemma DirectIsReady(c: Config, d: Direct, s: Scene)
    requires DirectInv(c, d) && PassScene(c, d.live, s) && Enter(c, d.live.player, s).Playing?
    requires Offers(d.live, s) && |d.heard| < |d.live.log|
    ensures Refilling(c, Enter(c, d.live.player, s).player, s).outcome.Ready?
  {
    var q := Enter(c, d.live.player, s).player;
    PassIsReady(c, d.live, s, |d.heard|);
    if q.finite.None? {
      EnterPasses(c, d.live, s, |d.heard|);
      EnterKeepsShape(c, d.live.player, s);
      OffersSeen(c, d.live, s);
      DirectEngine(c, d);
      hide DirectInv, PassScene, Enter, Refill, PassEngine, LiveInv;
      RefillMakes(c, q.engine, s.supplies[0], d.live.log, |d.heard|);
    }
  }

  lemma OffersSeen(c: Config, l: Live, s: Scene)
    requires LiveInv(c, l) && PassScene(c, l, s) && Enter(c, l.player, s).Playing?
    requires Enter(c, l.player, s).player.finite.None? && l.player.mutes == [] && !l.player.engine.muteFault
    ensures
      var q := Enter(c, l.player, s).player;
      && s.supplies != [] && s.supplies[0].offered <= l.log[q.engine.window.taken..] && q.engine == l.player.engine
      && PassSupply(c, q.engine, false, s.supplies[0]) && !q.engine.window.padding && q.finite.None?
  {
    EnterKeepsShape(c, l.player, s);
    NothingToAbsorb(c, l.player, s);
    hide Enter, EngineInv, Running, PassLoop, PassSupply, LoopSees;
  }

  lemma DirectEngine(c: Config, d: Direct)
    requires DirectInv(c, d)
    ensures PassEngine(c, d.live.player.engine, d.live.log, |d.heard|)
  {
    hide Running, Aligned, PlayerInv, Sounds;
  }

  // ---------------------------------------------------------------- whole runs

  datatype DirectEvent = Arriving(slots: seq<Slot>) | Calling(scene: Scene)

  predicate DirectAllowed(c: Config, d: Direct, ev: DirectEvent) {
    match ev
    case Arriving(slots) => d.live.player.finite.None? && Stamped(d.live.log + slots)
    case Calling(s) => PassScene(c, d.live, s)
  }

  function DirectThen(c: Config, d: Direct, ev: DirectEvent): Direct
    requires WellFormed(c, d.live.player) && DirectAllowed(c, d, ev)
  {
    match ev
    case Arriving(slots) => d.(live := d.live.(log := d.live.log + slots))
    case Calling(s) => DirectNext(c, d, s)
  }

  predicate DirectPossible(c: Config, d: Direct, events: seq<DirectEvent>)
    decreases |events|
  {
    events == [] ||
    (WellFormed(c, d.live.player) && DirectAllowed(c, d, events[0])
     && DirectPossible(c, DirectThen(c, d, events[0]), events[1..]))
  }

  function DirectRun(c: Config, d: Direct, events: seq<DirectEvent>): Direct
    requires DirectPossible(c, d, events)
    decreases |events|
  {
    if events == [] then d else DirectRun(c, DirectThen(c, d, events[0]), events[1..])
  }

  lemma DirectThenKeeps(c: Config, d: Direct, ev: DirectEvent)
    requires DirectInv(c, d) && DirectAllowed(c, d, ev)
    ensures WellFormed(c, d.live.player) && DirectInv(c, DirectThen(c, d, ev))
  {
    hide PlayerInv, Running, Aligned, Stamped, PassScene, Sounds, DirectNext;
    match ev {
      case Arriving(slots) =>
        ArriveKeeps(c, d.live.player, d.live.log, slots);
        RunningLogGrows(c, d.live.player.engine, d.live.log, slots, d.live.at);
        assert (d.live.log + slots)[..|d.heard|] == d.live.log[..|d.heard|];
      case Calling(s) => DirectStep(c, d, s);
    }
  }

  lemma {:induction false} DirectRunKeeps(c: Config, d: Direct, events: seq<DirectEvent>)
    requires DirectInv(c, d) && DirectPossible(c, d, events)
    ensures DirectInv(c, DirectRun(c, d, events))
    decreases |events|
  {
    if events != [] {
      DirectThenKeeps(c, d, events[0]);
      hide DirectInv, DirectThen;
      DirectRunKeeps(c, DirectThen(c, d, events[0]), events[1..]);
    }
  }

  lemma StartsSilent(c: Config, p: Player)
    requires LiveInv(c, Live(p, [], 0)) && Aligned(p.engine, 0) && Total(p.engine.window) == 0
    requires p.plc.None? && p.mutes == [] && !p.engine.muteFault && p.finite.None?
    ensures DirectInv(c, Direct(Live(p, [], 0), []))
  {
    hide LiveInv, Aligned, Total;
    var log: seq<Slot> := [];
    assert log[..0] == log && Sounds(log) == [];
  }

  lemma CreatedDirect(c: Config)
    requires ValidConfig(c) && c.settings.outputRate <= PlcSpec.RATE_MAX && c.settings.plc.Disabled?
    ensures DirectInv(c, Direct(Live(Created(c), [], 0), []))
  {
    hide LiveInv, Aligned, ValidConfig, WellFormed, Accepted;
    CreatedLives(c, 0);
    var p := Created(c);
    assert p.engine.window == EMPTY_WINDOW && p.engine.cache.pcm == [] && p.finite.None?;
    assert p.plc.None? && p.mutes == [] && !p.engine.muteFault;
    hide Created;
    EmptyAligned(p.engine);
    StartsSilent(c, p);
  }

  /**
   End to end over every run, however publications and calls interleave and
   however they cross buffers, batches and gap modes: the outputs taken from the
   converter are the published slots, each once, in order, gaps as missing
   silence; and a burst completes only when all of it has been heard.
   */
  lemma WhatIsPublishedIsHeard(c: Config, events: seq<DirectEvent>, s: Scene)
    requires ValidConfig(c) && c.settings.outputRate <= PlcSpec.RATE_MAX && c.settings.plc.Disabled?
    requires DirectPossible(c, Direct(Live(Created(c), [], 0), []), events)
    requires PassScene(c, DirectRun(c, Direct(Live(Created(c), [], 0), []), events).live, s)
    ensures
      var d := DirectRun(c, Direct(Live(Created(c), [], 0), []), events);
      && |d.heard| <= |d.live.log| && Heard(d.heard, d.live.log[..|d.heard|])
      && WellFormed(c, d.live.player) && ValidScene(c, s)
      && (Render(c, d.live.player, s).acknowledged.Some? ==> Heard(d.heard, d.live.log))
  {
    hide PlayerInv, LiveInv, Running, Aligned, PassScene, Sounds, Render, Created, Heard;
    CreatedDirect(c);
    DirectRunKeeps(c, Direct(Live(Created(c), [], 0), []), events);
    var d := DirectRun(c, Direct(Live(Created(c), [], 0), []), events);
    DirectStep(c, d, s);
    SoundsAreHeard(d.live.log);
    SoundsAreHeard(d.live.log[..|d.heard|]);
  }
}
