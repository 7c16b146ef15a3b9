/**
 The concealing player on the pass-through converter: while nothing is lost and
 playout never starves, what is heard is what was published, one lookahead later.
 */
module PassDelayed {
  import opened Common
  import opened Engine
  import opened EngineSource
  import opened EngineTime
  import opened EnginePlay
  import opened EngineEnding
  import opened EngineLive
  import opened PassThrough
  import PlcSpec

  // ---------------------------------------------------------------- the concealer without loss

  /** The samples waiting in the lookahead, oldest first. */
  function Waits(s: PlcSpec.State): (r: seq<PlcSpec.Played>)
    requires |s.flags| <= |s.line|
    ensures |r| == |s.flags|
  {
    seq(|s.flags|, i requires 0 <= i < |s.flags| => PlcSpec.Played(s.line[|s.line| - |s.flags| + i], s.flags[i]))
  }

  /** Neither concealing nor recovering. */
  predicate Clean(rate: nat, s: PlcSpec.State) {
    PlcSpec.Valid(rate, s) && s.lost == 0 && s.recoveryLeft == 0 && 0 < |s.flags| <= |s.line|
  }

  lemma CleanShift(rate: nat, s: PlcSpec.State, sample: real, flag: bool)
    requires Clean(rate, s)
    ensures
      var call := PlcSpec.Shift(rate, s, sample, flag);
      && Clean(rate, call.state) && call.played == Waits(s)[0]
      && Waits(call.state) == Waits(s)[1..] + [PlcSpec.Played(sample, flag)]
  {
    hide PlcSpec.Valid, CeilDiv;
  }

  /** Unbroken audio only moves through the lookahead. */
  lemma CleanProcess(rate: nat, s: PlcSpec.State, sample: real)
    requires Clean(rate, s)
    ensures
      var call := PlcSpec.Process(rate, s, Some(sample));
      && Clean(rate, call.state) && call.played == Waits(s)[0]
      && Waits(call.state) == Waits(s)[1..] + [PlcSpec.Played(sample, true)]
  {
    CleanShift(rate, s, sample, true);
    assert PlcSpec.Fill(rate, s, Some(sample)) == PlcSpec.Step(s, sample);
    hide PlcSpec.Shift, PlcSpec.Valid, Waits;
  }

  lemma CleanDrain(rate: nat, s: PlcSpec.State)
    requires Clean(rate, s)
    ensures
      var call := PlcSpec.Drain(rate, s);
      && Clean(rate, call.state) && call.played == Waits(s)[0]
      && Waits(call.state) == Waits(s)[1..] + [PlcSpec.Played(0.0, false)]
  {
    CleanShift(rate, s, 0.0, false);
    hide PlcSpec.Shift, PlcSpec.Valid, Waits;
  }

  // ---------------------------------------------------------------- the delayed stream

  /** What comes out of a lookahead before anything that was put in: silence that is not real. */
  function Quiet(length: nat): (r: seq<PlcSpec.Played>)
    ensures |r| == length
  {
    seq(length, _ => PlcSpec.Played(0.0, false))
  }

  /** What a lookahead of this length makes of the published slots: silence, then their sounds. */
  function DelayedBy(length: nat, slots: seq<Slot>): (r: seq<PlcSpec.Played>)
    ensures |r| == length + |slots|
  {
    Quiet(length) + Sounds(slots)
  }

  /** The lookahead's length of silence that is not real, then the slots in order, each as it should be heard. */
  predicate HeardLater(played: seq<PlcSpec.Played>, slots: seq<Slot>, delay: nat)
    requires |played| <= delay + |slots|
  {
    && (forall k | 0 <= k < |played| && k < delay :: played[k].sample == 0.0 && !played[k].fromPcm)
    && (|played| > delay ==> Heard(played[delay..], slots[..|played| - delay]))
  }

  /** The player and the slots published since its reset, and what its calls have played of them. */
  datatype Delayed = Delayed(live: Live, heard: seq<PlcSpec.Played>)

  /** Outputs that have left the converted cache. */
  function Popped(e: Engine): int {
    Total(e.window) - |e.cache.pcm|
  }

  /** Lookahead samples still to be released. */
  function Remaining(p: Player): nat {
    if p.finite.Some? then Left(p) else |p.positions|
  }

  predicate Draining(p: Player) {
    p.finite.Some? && p.finite.value.draining.Some?
  }

  predicate NoneMissing(log: seq<Slot>) {
    forall k | 0 <= k < |log| :: !log[k].missing
  }

  /** The player conceals, without loss or mutes so far. */
  predicate Engaged(c: Config, p: Player) {
    && WellFormed(c, p) && p.plc.Some? && Clean(c.settings.outputRate, p.plc.value)
    && |Waits(p.plc.value)| == |p.positions| && p.mutes == [] && !p.engine.muteFault
  }

  /** What was heard and what waits are the delayed stream of the outputs popped. */
  predicate Conveys(p: Player, log: seq<Slot>, popped: nat, heard: seq<PlcSpec.Played>)
    requires p.plc.Some? && |p.plc.value.flags| <= |p.plc.value.line|
    requires |p.positions| == |p.plc.value.flags|
  {
    && popped <= |log| && Remaining(p) <= |p.positions|
    && (Draining(p) ==> popped == |log|)
    && heard + Waits(p.plc.value)[..Remaining(p)] == DelayedBy(|p.positions|, log[..popped])
  }

  /** A concealing player that has popped so many outputs and conveyed just those. */
  predicate Carries(c: Config, p: Player, log: seq<Slot>, popped: nat, heard: seq<PlcSpec.Played>) {
    Engaged(c, p) && Aligned(p.engine, popped) && Conveys(p, log, popped, heard)
  }

  predicate DelayedInv(c: Config, d: Delayed) {
    var p := d.live.player;
    && LiveInv(c, d.live) && d.live.at == Total(p.engine.window) * BILLION && NoneMissing(d.live.log)
    && Popped(p.engine) >= 0 && Carries(c, p, d.live.log, Popped(p.engine), d.heard)
  }

  /** A pass-through call that never finds the converter without output. */
  predicate FedScene(c: Config, l: Live, s: Scene) {
    && PassScene(c, l, s)
    && (var entry := Enter(c, l.player, s); entry.Playing? ==> Refilling(c, entry.player, s).outcome.Ready?)
  }

  /** Every call that is not held back plays one sample; a completing one plays nothing more. */
  function DelayedNext(c: Config, d: Delayed, s: Scene): Delayed
    requires WellFormed(c, d.live.player) && ValidScene(c, s)
  {
    var r, next := Render(c, d.live.player, s), LiveThen(c, d.live, s, 0);
    Delayed(next,
            if r.acknowledged.Some? then []
            else if Enter(c, d.live.player, s).Held? then d.heard
            else d.heard + [PlcSpec.Played(r.sample, r.fromPcm)])
  }

  // ---------------------------------------------------------------- one sample out

  lemma DelayedGrows(length: nat, log: seq<Slot>, popped: nat)
    requires popped < |log| && !log[popped].missing
    ensures DelayedBy(length, log[..popped + 1]) ==
            DelayedBy(length, log[..popped]) + [PlcSpec.Played(Canonical(log[popped].pcm), true)]
  {
    SoundsNext(log, popped);
  }

  /** One of the retained samples is played. */
  lemma DrainConveys(c: Config, n: Player, log: seq<Slot>, popped: nat, heard: seq<PlcSpec.Played>)
    requires Carries(c, n, log, popped, heard) && n.finite.Some? && popped == |log| && Left(n) > 0
    ensures
      var r := DrainFinite(c, n, true);
      && r.acknowledged.None? && r.player.engine == n.engine
      && Carries(c, r.player, log, popped, heard + [PlcSpec.Played(r.sample, r.fromPcm)])
  {
    CleanDrain(c.settings.outputRate, n.plc.value);
    NothingMuted(n, n.positions[0]);
    DrainShape(c, n, true);
    DrainCall(c, n);
    hide DrainFinite, WellFormed, PlcSpec.Drain, Clean, DelayedBy, Waits, Aligned;
    var r := DrainFinite(c, n, true);
    var w, left := Waits(n.plc.value), Left(n);
    assert heard + w[..left] == (heard + [w[0]]) + w[1..][..left - 1];
    assert (w[1..] + [PlcSpec.Played(0.0, false)])[..left - 1] == w[1..][..left - 1];
  }

  lemma DrainCall(c: Config, n: Player)
    requires WellFormed(c, n) && n.finite.Some? && Left(n) > 0 && n.plc.Some? && n.mutes == [] && n.positions != []
    ensures
      var r, call := DrainFinite(c, n, true), PlcSpec.Drain(c.settings.outputRate, n.plc.value);
      && r.acknowledged.None? && r.player.plc == Some(call.state) && PlcSpec.Played(r.sample, r.fromPcm) == call.played
      && r.player.finite.Some? && r.player.finite.value.draining == Some(Left(n) - 1)
      && |r.player.positions| == |n.positions| && r.player.mutes == [] && r.player.engine == n.engine
  {
    NothingMuted(n, n.positions[0]);
    hide PlcSpec.Drain;
  }

  lemma PlayCall(c: Config, n: Player)
    requires WellFormed(c, n) && n.plc.Some? && n.mutes == [] && !n.engine.resetFailed
    requires n.engine.cache.pcm != [] && !n.engine.cache.missing
    ensures
      var r := Play(c, n, Ready);
      var call := PlcSpec.Process(c.settings.outputRate, n.plc.value, Some(Canonical(n.engine.cache.pcm[0])));
      && r.acknowledged.None? && r.player.plc == Some(call.state) && PlcSpec.Played(r.sample, r.fromPcm) == call.played
      && r.player.finite == n.finite && |r.player.positions| == |n.positions| && r.player.mutes == []
      && r.player.engine == PopCache(n.engine, Ready)
  {
    NothingMuted(n, Entering(n, Ready));
    NothingMuted(n, n.positions[0]);
    hide PlcSpec.Process, Support, PopCache;
  }

  /** What the refilled player is about to play: the next slot. */
  lemma NextSlot(c: Config, n: Player, log: seq<Slot>, popped: nat)
    requires PassReady(c, n, log, popped) && n.engine.cache.pcm != [] && !PastEnd(n) && NoneMissing(log)
    ensures popped < |log| && !n.engine.resetFailed && !n.engine.cache.missing
    ensures n.engine.cache.pcm[0] == log[popped].pcm
    ensures Aligned(PopCache(n.engine, Ready), popped + 1) && PopCache(n.engine, Ready).window == n.engine.window
    ensures PopCache(n.engine, Ready).muteFault == n.engine.muteFault
  {
    RunsUnreset(c, n.engine, log, popped);
    assert Aligned(n.engine, popped);
    AlignedPosition(n.engine, popped);
    hide PlayerInv, Aligned, CachePosition;
    NextIsItsSlot(c, n.engine, log, popped);
    PopAligned(n.engine, popped);
  }

  /** An output is played into the lookahead, and the oldest sample out of it. */
  lemma PlayConveys(c: Config, n: Player, log: seq<Slot>, popped: nat, heard: seq<PlcSpec.Played>)
    requires Carries(c, n, log, popped, heard) && !Draining(n) && NoneMissing(log)
    requires PassReady(c, n, log, popped) && n.engine.cache.pcm != []
    requires !PastEnd(n) && |n.positions| > 0
    ensures
      var r := Play(c, n, Ready);
      && r.acknowledged.None? && r.player.engine.window == n.engine.window
      && Carries(c, r.player, log, popped + 1, heard + [PlcSpec.Played(r.sample, r.fromPcm)])
  {
    hide Clean, DelayedBy, Waits, Play, PassReady, WellFormed, Aligned, CachePosition, NoneMissing, PlcSpec.Process,
      PopCache, Canonical;
    var x := Canonical(n.engine.cache.pcm[0]);
    NextSlot(c, n, log, popped);
    Unmissing(log, popped);
    CleanSized(c, n);
    CleanProcess(c.settings.outputRate, n.plc.value, x);
    PlayCall(c, n);
    PlayShape(c, n, Ready);
    DelayedGrows(|n.positions|, log, popped);
    WindowSlides(heard, Waits(n.plc.value), PlcSpec.Played(x, true));
  }

  lemma Unmissing(log: seq<Slot>, k: nat)
    requires NoneMissing(log) && k < |log|
    ensures !log[k].missing
  {
  }

  lemma CleanSized(c: Config, p: Player)
    requires Engaged(c, p)
    ensures WellFormed(c, p) && p.plc.Some? && Clean(c.settings.outputRate, p.plc.value)
    ensures 0 < |p.plc.value.flags| <= |p.plc.value.line|
    ensures |Waits(p.plc.value)| == |p.positions| && p.mutes == [] && !p.engine.muteFault
  {
  }

  lemma WindowSlides(heard: seq<PlcSpec.Played>, w: seq<PlcSpec.Played>, x: PlcSpec.Played)
    requires w != []
    ensures (heard + w[..|w|]) + [x] == (heard + [w[0]]) + (w[1..] + [x])[..|w|]
  {
  }

  // ---------------------------------------------------------------- one call

  /** Everything published, one lookahead later. */
  predicate AllHeard(d: Delayed) {
    d.heard == DelayedBy(|d.live.player.positions|, d.live.log)
  }

  lemma AlignedPops(e: Engine, popped: nat)
    requires Aligned(e, popped)
    ensures Popped(e) == popped
  {
  }

  /** The boundary is only captured, so what remains to be released is as before. */
  lemma SameConveys(p: Player, q: Player, log: seq<Slot>, popped: nat, heard: seq<PlcSpec.Played>)
    requires p.plc.Some? && |p.plc.value.flags| <= |p.plc.value.line| && |p.positions| == |p.plc.value.flags|
    requires q.plc == p.plc && q.positions == p.positions && Remaining(q) == Remaining(p)
    requires Conveys(p, log, popped, heard) && (Draining(q) ==> Draining(p))
    ensures Conveys(q, log, popped, heard)
  {
    hide DelayedBy, Waits, Left;
  }

  /** Entering changes nothing of what is conveyed. */
  lemma EnterConveys(c: Config, d: Delayed, s: Scene)
    requires DelayedInv(c, d) && PassScene(c, d.live, s)
    ensures
      var p, q := d.live.player, Enter(c, d.live.player, s).player;
      && q.engine == p.engine && q.positions == p.positions && Carries(c, q, d.live.log, Popped(p.engine), d.heard)
      && (Enter(c, p, s).Ending? ==> q.finite.Some? && (q.finite.value.end == 0 || Draining(q)))
      && (Enter(c, p, s).Playing? ==> !Draining(q))
  {
    hide LiveInv, Enter, Aligned, PassScene, Clean, NoneMissing, DelayedBy, Waits, Conveys;
    EnterPasses(c, d.live, s, Popped(d.live.player.engine));
    EnterKeepsShape(c, d.live.player, s);
    var p, q := d.live.player, Enter(c, d.live.player, s).player;
    EnteredEngaged(c, p, q);
    SameConveys(p, q, d.live.log, Popped(p.engine), d.heard);
  }

  lemma EnteredEngaged(c: Config, p: Player, q: Player)
    requires Engaged(c, p) && q.engine == p.engine && q.plc == p.plc && q.positions == p.positions && q.mutes == []
    requires q.finite.Some? && q.finite.value.draining.Some? ==> q.finite == p.finite
    ensures Engaged(c, q)
  {
    hide Clean, Waits;
  }

  lemma CleanReset(rate: nat, s: PlcSpec.State)
    requires Clean(rate, s)
    ensures
      var r := PlcSpec.Reset(s);
      && Clean(rate, r) && |r.flags| == |s.flags| && |r.line| == |s.line| && Waits(r) == Quiet(|s.flags|)
  {
    hide CeilDiv, PlcSpec.HistoryLength, PlcSpec.Delay;
    var w := Waits(PlcSpec.Reset(s));
    assert forall i | 0 <= i < |w| :: w[i] == PlcSpec.Played(0.0, false);
  }

  lemma NothingYet(length: nat)
    ensures Quiet(length) == DelayedBy(length, [])
  {
  }

  /** Nothing but silence waits in this player, and nothing has been converted. */
  predicate Rested(p: Player, q: Player) {
    && p.plc.Some? && q.finite.None? && q.plc == Some(PlcSpec.Reset(p.plc.value)) && |q.positions| == |p.positions|
    && q.mutes == [] && !q.engine.muteFault && Total(q.engine.window) == 0 && q.engine.cache.pcm == []
    && Aligned(q.engine, 0)
  }

  lemma CompletionRests(c: Config, n: Player)
    requires WellFormed(c, n) && n.plc.Some? && n.finite.Some? && Left(n) == 0
    ensures DrainFinite(c, n, true).acknowledged.Some? && Rested(n, DrainFinite(c, n, true).player)
  {
    hide PlcSpec.Reset, WellFormed, Aligned, Total;
    EmptyAligned(DrainFinite(c, n, true).player.engine);
  }

  lemma RestedConveys(c: Config, p: Player, q: Player)
    requires Engaged(c, p) && WellFormed(c, q) && Rested(p, q)
    ensures Carries(c, q, [], 0, [])
  {
    CleanSized(c, p);
    CleanReset(c.settings.outputRate, p.plc.value);
    hide Aligned, Waits, Clean, DelayedBy, WellFormed, PlcSpec.Reset, Quiet, Conveys, Popped, Engaged;
    CleanlyEngaged(c, q);
    RestedSilent(q, Waits(q.plc.value));
  }

  lemma CleanlyEngaged(c: Config, q: Player)
    requires WellFormed(c, q) && q.plc.Some? && Clean(c.settings.outputRate, q.plc.value)
    requires |Waits(q.plc.value)| == |q.positions| && q.mutes == [] && !q.engine.muteFault
    ensures Engaged(c, q)
  {
  }

  lemma RestedSilent(q: Player, w: seq<PlcSpec.Played>)
    requires q.plc.Some? && |q.plc.value.flags| <= |q.plc.value.line| && |q.positions| == |q.plc.value.flags|
    requires q.finite.None? && w == Waits(q.plc.value) && w == Quiet(|q.positions|)
    ensures Conveys(q, [], 0, [])
  {
    hide DelayedBy, Waits, Quiet;
    NothingYet(|q.positions|);
    var log: seq<Slot> := [];
    assert [] + w[..|q.positions|] == w && log[..0] == log;
  }

  lemma DrainFits(c: Config, n: Player)
    requires WellFormed(c, n) && n.finite.Some?
    ensures WellFormed(c, DrainFinite(c, n, true).player)
  {
    DrainShape(c, n, true);
  }

  /** Ending plays a retained sample, or completes with everything heard. */
  predicate EndsWell(c: Config, n: Player, log: seq<Slot>, heard: seq<PlcSpec.Played>, r: Rendered) {
    if r.acknowledged.None? then
      r.player.engine == n.engine && Carries(c, r.player, log, |log|, heard + [PlcSpec.Played(r.sample, r.fromPcm)])
    else
      heard == DelayedBy(|n.positions|, log) && Carries(c, r.player, [], 0, []) && Total(r.player.engine.window) == 0
  }

  lemma EndingConveys(c: Config, n: Player, log: seq<Slot>, heard: seq<PlcSpec.Played>)
    requires Carries(c, n, log, |log|, heard) && n.finite.Some?
    ensures WellFormed(c, n) && EndsWell(c, n, log, heard, DrainFinite(c, n, true))
  {
    CleanSized(c, n);
    hide Engaged, Conveys, DrainFinite, Aligned, Clean, Waits, WellFormed, DelayedBy, PlcSpec.Reset;
    if Left(n) > 0 {
      DrainConveys(c, n, log, |log|, heard);
    } else {
      CompletionRests(c, n);
      DrainFits(c, n);
      RestedConveys(c, n, DrainFinite(c, n, true).player);
      NothingWaits(n, log, heard);
    }
  }

  lemma NothingWaits(n: Player, log: seq<Slot>, heard: seq<PlcSpec.Played>)
    requires n.plc.Some? && |n.plc.value.flags| <= |n.plc.value.line| && |n.positions| == |n.plc.value.flags|
    requires n.finite.Some? && Left(n) == 0 && Conveys(n, log, |log|, heard)
    ensures heard == DelayedBy(|n.positions|, log)
  {
    hide DelayedBy, Waits;
    assert log[..|log|] == log;
  }

  lemma CarriesPops(c: Config, p: Player, log: seq<Slot>, popped: nat, heard: seq<PlcSpec.Played>)
    requires Carries(c, p, log, popped, heard)
    ensures Popped(p.engine) == popped && |p.positions| > 0
  {
    AlignedPops(p.engine, popped);
    hide Aligned, Waits, DelayedBy;
  }

  /** What a call leaves, besides a healthy run. */
  predicate Carried(c: Config, d: Delayed) {
    var p := d.live.player;
    && d.live.at == Total(p.engine.window) * BILLION && Popped(p.engine) >= 0
    && Carries(c, p, d.live.log, Popped(p.engine), d.heard)
  }

  /** Refilled, the player still carries what it did. */
  lemma RefilledCarries(c: Config, q: Player, n: Player, log: seq<Slot>, popped: nat, heard: seq<PlcSpec.Played>)
    requires Carries(c, q, log, popped, heard) && n == q.(engine := n.engine) && PassReady(c, n, log, popped)
    ensures Carries(c, n, log, popped, heard)
  {
    hide Aligned, Waits, DelayedBy, Clean, PlayerInv, Running;
  }

  lemma HeldCarries(c: Config, d: Delayed, s: Scene)
    requires DelayedInv(c, d) && FedScene(c, d.live, s) && Enter(c, d.live.player, s).Held?
    ensures WellFormed(c, d.live.player) && ValidScene(c, s)
    ensures Carried(c, DelayedNext(c, d, s)) && Render(c, d.live.player, s).acknowledged.None?
  {
    hide LiveInv, Enter, Carries, NoneMissing, Popped, Total;
    DelayedFacts(c, d, s);
    EnterConveys(c, d, s);
    EnterKeepsShape(c, d.live.player, s);
    HeldStays(c, d.live, s);
  }

  lemma DelayedFacts(c: Config, d: Delayed, s: Scene)
    requires DelayedInv(c, d) && PassScene(c, d.live, s)
    ensures WellFormed(c, d.live.player) && ValidScene(c, s) && s.supplies != [] && s.resetOk
  {
    hide Running, PlayerInv, Aligned, Enter, PassLoop, PassSupply, Sees;
  }

  /** One sample of an ending, or its completion. */
  lemma EndedCarries(c: Config, d: Delayed, s: Scene, n: Player)
    requires WellFormed(c, d.live.player) && ValidScene(c, s) && WellFormed(c, n) && n.finite.Some?
    requires !Enter(c, d.live.player, s).Held? && Render(c, d.live.player, s) == DrainFinite(c, n, true)
    requires EndsWell(c, n, d.live.log, d.heard, DrainFinite(c, n, true)) && n.positions == d.live.player.positions
    requires AtAfter(c, d.live, s) == Total(n.engine.window) * BILLION
    ensures Carried(c, DelayedNext(c, d, s))
    ensures Render(c, d.live.player, s).acknowledged.Some? ==> AllHeard(d)
  {
    hide Enter, Render, Carries, DrainFinite, DelayedBy, WellFormed, Popped, Total, AtAfter;
    var r := Render(c, d.live.player, s);
    if r.acknowledged.None? {
      CarriesPops(c, r.player, d.live.log, |d.live.log|, d.heard + [PlcSpec.Played(r.sample, r.fromPcm)]);
    } else {
      CarriesPops(c, r.player, [], 0, []);
    }
  }

  lemma EndingCarries(c: Config, d: Delayed, s: Scene)
    requires DelayedInv(c, d) && FedScene(c, d.live, s) && Enter(c, d.live.player, s).Ending?
    ensures WellFormed(c, d.live.player) && ValidScene(c, s) && Carried(c, DelayedNext(c, d, s))
    ensures Render(c, d.live.player, s).acknowledged.Some? ==> AllHeard(d)
  {
    hide LiveInv, Enter, Carries, NoneMissing, DelayedBy, EndsWell, Carried, DrainFinite, AllHeard, WellFormed, Total;
    DelayedFacts(c, d, s);
    EnterConveys(c, d, s);
    EndingPoppedAll(c, d, s);
    HeldStays(c, d.live, s);
    var q := Enter(c, d.live.player, s).player;
    EndingConveys(c, q, d.live.log, d.heard);
    EndedCarries(c, d, s, q);
  }

  /** A burst without slots has nothing to pop; any other begins to drain with all of it popped. */
  lemma EndingPoppedAll(c: Config, d: Delayed, s: Scene)
    requires DelayedInv(c, d) && FedScene(c, d.live, s) && Enter(c, d.live.player, s).Ending?
    ensures Popped(d.live.player.engine) == |d.live.log|
  {
    EnterConveys(c, d, s);
    EntersAtLog(c, d.live, s);
    hide LiveInv, Enter, FedScene, NoneMissing, DelayedBy, Waits, Aligned, Clean;
  }

  lemma EntersAtLog(c: Config, l: Live, s: Scene)
    requires LiveInv(c, l) && FedScene(c, l, s)
    ensures
      var q := Enter(c, l.player, s).player;
      q.finite.Some? ==> q.finite.value.end == |l.log|
  {
    EnterKeeps(c, l.player, l.log, s);
    hide Enter, EngineInv, Running, PassLoop, PassSupply;
  }

  lemma PlayingCarries(c: Config, d: Delayed, s: Scene)
    requires DelayedInv(c, d) && FedScene(c, d.live, s) && Enter(c, d.live.player, s).Playing?
    ensures WellFormed(c, d.live.player) && ValidScene(c, s) && Carried(c, DelayedNext(c, d, s))
    ensures Render(c, d.live.player, s).acknowledged.Some? ==> AllHeard(d)
  {
    hide LiveInv, Enter, Carries, NoneMissing, DelayedBy, EndsWell, AllHeard, Total, PassScene, Popped, Refilling,
      PassReady, DrainFinite, Play, AtAfter, Aligned, CachePosition, WellFormed;
    DelayedFacts(c, d, s);
    EnterConveys(c, d, s);
    var popped, log := Popped(d.live.player.engine), d.live.log;
    ReadyToPlay(c, d, s);
    RenderAdvances(c, d.live.player, s);
    var q := Enter(c, d.live.player, s).player;
    var n := q.(engine := Refilling(c, q, s).engine);
    RefilledCarries(c, q, n, log, popped, d.heard);
    if PastEnd(n) {
      PastEndPopped(c, n, log, popped, d.heard);
      EndingConveys(c, n, log, d.heard);
      EndedCarries(c, d, s, n);
    } else {
      CarriesPops(c, n, log, popped, d.heard);
      PlayConveys(c, n, log, popped, d.heard);
      var r := Play(c, n, Ready);
      CarriesPops(c, r.player, log, popped + 1, d.heard + [PlcSpec.Played(r.sample, r.fromPcm)]);
    }
  }

  lemma ReadyToPlay(c: Config, d: Delayed, s: Scene)
    requires DelayedInv(c, d) && FedScene(c, d.live, s) && Enter(c, d.live.player, s).Playing?
    ensures WellFormed(c, d.live.player) && ValidScene(c, s) && s.resetOk
    ensures
      var q := Enter(c, d.live.player, s).player;
      var r := Refilling(c, q, s);
      var n := q.(engine := r.engine);
      && r.outcome.Ready? && r.engine.cache.pcm != [] && !r.engine.muteFault && WellFormed(c, n)
      && PassReady(c, n, d.live.log, Popped(d.live.player.engine))
      && !Draining(n) && AtAfter(c, d.live, s) == Total(r.engine.window) * BILLION
  {
    hide LiveInv, Enter, NoneMissing, Conveys, Total, PassScene, Refilling, AtAfter, Aligned, Clean, Waits,
      PassEngine, PlayerInv;
    DelayedFacts(c, d, s);
    EnterConveys(c, d, s);
    PassIsReady(c, d.live, s, Popped(d.live.player.engine));
  }

  lemma PastEndPopped(c: Config, n: Player, log: seq<Slot>, popped: nat, heard: seq<PlcSpec.Played>)
    requires PassReady(c, n, log, popped) && PastEnd(n) && Carries(c, n, log, popped, heard)
    ensures popped == |log|
  {
    PastEndHeardAll(c, n, log, popped);
    hide PassReady, PastEnd, Aligned, Waits, DelayedBy, Clean;
  }

  /** One call of the delayed player. */
  lemma DelayedStep(c: Config, d: Delayed, s: Scene)
    requires DelayedInv(c, d) && FedScene(c, d.live, s)
    ensures WellFormed(c, d.live.player) && ValidScene(c, s) && DelayedInv(c, DelayedNext(c, d, s))
    ensures Render(c, d.live.player, s).acknowledged.Some? ==> AllHeard(d)
  {
    hide Running, PlayerInv, Enter, AtAfter, PassScene, LiveInv, Render, HealthyScene, Carries, AllHeard;
    DelayedFacts(c, d, s);
    DelayedIsHealthy(c, d, s);
    LiveStep(c, d.live, s, 0);
    match Enter(c, d.live.player, s) {
      case Held(_, _) => HeldCarries(c, d, s);
      case Ending(_) => EndingCarries(c, d, s);
      case Playing(_) => PlayingCarries(c, d, s);
    }
  }

  lemma DelayedIsHealthy(c: Config, d: Delayed, s: Scene)
    requires DelayedInv(c, d) && PassScene(c, d.live, s)
    ensures HealthyScene(c, d.live, s)
  {
    hide LiveInv, HealthyScene, PassScene, Aligned, Clean, Waits, Conveys, WellFormed;
    PassIsHealthyScene(c, d.live, s, Popped(d.live.player.engine));
  }

  /** No call starves that is offered what is published: while a slot has not been popped there is output. */
  lemma OfferedIsFed(c: Config, d: Delayed, s: Scene)
    requires DelayedInv(c, d) && PassScene(c, d.live, s) && Offers(d.live, s)
    requires Popped(d.live.player.engine) < |d.live.log|
    ensures FedScene(c, d.live, s)
  {
    if Enter(c, d.live.player, s).Playing? {
      var q, popped := Enter(c, d.live.player, s).player, Popped(d.live.player.engine);
      DelayedEngine(c, d);
      PassIsReady(c, d.live, s, popped);
      if q.finite.None? {
        OffersSeen(c, d.live, s);
        hide DelayedInv, PassScene, Enter, Refill, PassEngine, LiveInv, Offers, Popped, PassReady;
        OffersMeans(d.live, s);
        RefillMakes(c, q.engine, s.supplies[0], d.live.log, popped);
      }
    }
  }

  lemma OffersMeans(l: Live, s: Scene)
    requires Offers(l, s)
    ensures s.supplies != [] && (l.player.engine.window.taken < |l.log| ==> s.supplies[0].offered != [])
  {
  }

  lemma DelayedEngine(c: Config, d: Delayed)
    requires DelayedInv(c, d)
    ensures LiveInv(c, d.live) && PassEngine(c, d.live.player.engine, d.live.log, Popped(d.live.player.engine))
    ensures d.live.player.mutes == [] && !d.live.player.engine.muteFault
    ensures Aligned(d.live.player.engine, Popped(d.live.player.engine))
    ensures d.live.at == Total(d.live.player.engine.window) * BILLION
  {
    hide Running, Aligned, PlayerInv, Sounds, Conveys, Clean, Waits;
  }

  // ---------------------------------------------------------------- whole runs

  /** Publications lose nothing; no call starves. */
  predicate DelayedAllowed(c: Config, d: Delayed, ev: DirectEvent) {
    match ev
    case Arriving(slots) => d.live.player.finite.None? && Stamped(d.live.log + slots) && NoneMissing(slots)
    case Calling(s) => FedScene(c, d.live, s)
  }

  function DelayedThen(c: Config, d: Delayed, ev: DirectEvent): Delayed
    requires WellFormed(c, d.live.player) && DelayedAllowed(c, d, ev)
  {
    match ev
    case Arriving(slots) => d.(live := d.live.(log := d.live.log + slots))
    case Calling(s) => DelayedNext(c, d, s)
  }

  predicate DelayedPossible(c: Config, d: Delayed, events: seq<DirectEvent>)
    decreases |events|
  {
    events == [] ||
    (WellFormed(c, d.live.player) && DelayedAllowed(c, d, events[0])
     && DelayedPossible(c, DelayedThen(c, d, events[0]), events[1..]))
  }

  function DelayedRun(c: Config, d: Delayed, events: seq<DirectEvent>): Delayed
    requires DelayedPossible(c, d, events)
    decreases |events|
  {
    if events == [] then d else DelayedRun(c, DelayedThen(c, d, events[0]), events[1..])
  }

  /** More slots change nothing of what was conveyed. */
  lemma ArrivingConveys(p: Player, log: seq<Slot>, slots: seq<Slot>, popped: nat, heard: seq<PlcSpec.Played>)
    requires p.plc.Some? && |p.plc.value.flags| <= |p.plc.value.line| && |p.positions| == |p.plc.value.flags|
    requires Conveys(p, log, popped, heard) && !Draining(p)
    ensures Conveys(p, log + slots, popped, heard)
  {
    assert (log + slots)[..popped] == log[..popped];
    hide Waits, DelayedBy;
  }

  lemma ArrivingKeeps(c: Config, d: Delayed, slots: seq<Slot>)
    requires DelayedInv(c, d) && DelayedAllowed(c, d, Arriving(slots))
    ensures WellFormed(c, d.live.player) && DelayedInv(c, DelayedThen(c, d, Arriving(slots)))
  {
    CleanSized(c, d.live.player);
    hide PlayerInv, Running, Aligned, Stamped, Conveys, Waits, Clean, WellFormed;
    ArriveKeeps(c, d.live.player, d.live.log, slots);
    RunningLogGrows(c, d.live.player.engine, d.live.log, slots, d.live.at);
    ArrivingConveys(d.live.player, d.live.log, slots, Popped(d.live.player.engine), d.heard);
  }

  lemma {:induction false} DelayedRunKeeps(c: Config, d: Delayed, events: seq<DirectEvent>)
    requires DelayedInv(c, d) && DelayedPossible(c, d, events)
    ensures DelayedInv(c, DelayedRun(c, d, events))
    decreases |events|
  {
    hide DelayedInv, DelayedNext, FedScene, Stamped, NoneMissing;
    if events != [] {
      if events[0].Arriving? {
        ArrivingKeeps(c, d, events[0].slots);
      } else {
        DelayedStep(c, d, events[0].scene);
      }
      DelayedRunKeeps(c, DelayedThen(c, d, events[0]), events[1..]);
    }
  }

  lemma CreatedEmpty(c: Config)
    requires ValidConfig(c)
    ensures Total(Created(c).engine.window) == 0 && Aligned(Created(c).engine, 0)
  {
    EmptyAligned(Created(c).engine);
    hide Aligned, Total, PlcSpec.Fresh, PlcSpec.Delay;
  }

  lemma CreatedEngaged(c: Config)
    requires ValidConfig(c) && c.settings.outputRate <= PlcSpec.RATE_MAX && c.settings.plc.G711AppendixI?
    ensures
      var p := Created(c);
      && p.plc.Some? && p.plc.value == PlcSpec.Fresh(c.settings.outputRate) && |p.positions| == |p.plc.value.flags|
      && p.mutes == [] && !p.engine.muteFault && p.finite.None? && p.engine.cache.pcm == []
      && Clean(c.settings.outputRate, p.plc.value) && Waits(p.plc.value) == Quiet(|p.positions|)
  {
    FreshIsClean(c.settings.outputRate);
    hide CeilDiv, PlcSpec.Delay, PlcSpec.Fresh, Clean, Quiet, Waits;
  }

  lemma FreshIsClean(rate: nat)
    requires 1 <= rate <= PlcSpec.RATE_MAX
    ensures
      var s := PlcSpec.Fresh(rate);
      && Clean(rate, s) && |s.flags| == PlcSpec.Delay(rate) && Waits(s) == Quiet(|s.flags|)
  {
    PlcSpec.Geometry(rate);
    hide CeilDiv;
  }

  /**
   With the concealer in between, end to end over every run in which no slot is
   missing and no call starves: the samples played are the lookahead's silence
   and then the published slots, each once, in order and unchanged; and a burst
   completes only when the very last of them has been heard.
   */
  lemma WhatIsPublishedIsHeardDelayed(c: Config, events: seq<DirectEvent>, s: Scene)
    requires ValidConfig(c) && c.settings.outputRate <= PlcSpec.RATE_MAX && c.settings.plc.G711AppendixI?
    requires DelayedPossible(c, Delayed(Live(Created(c), [], 0), []), events)
    requires FedScene(c, DelayedRun(c, Delayed(Live(Created(c), [], 0), []), events).live, s)
    ensures
      var d := DelayedRun(c, Delayed(Live(Created(c), [], 0), []), events);
      var delay := |d.live.player.positions|;
      && WellFormed(c, d.live.player) && ValidScene(c, s) && delay == PlcSpec.Delay(c.settings.outputRate)
      && |d.heard| <= delay + |d.live.log| && HeardLater(d.heard, d.live.log, delay)
      && (Render(c, d.live.player, s).acknowledged.Some? ==> |d.heard| == delay + |d.live.log|)
  {
    hide PlayerInv, LiveInv, Running, Aligned, FedScene, Sounds, Render, Created, Clean;
    var first := Delayed(Live(Created(c), [], 0), []);
    CreatedDelayed(c);
    DelayedRunKeeps(c, first, events);
    var d := DelayedRun(c, first, events);
    DelayedStep(c, d, s);
    HeardIsPrefix(d.live.player, d.live.log, Popped(d.live.player.engine), d.heard);
    PrefixIsHeardLater(|d.live.player.positions|, d.live.log, d.heard);
    DelayIs(c, d);
  }

  lemma DelayIs(c: Config, d: Delayed)
    requires DelayedInv(c, d)
    ensures |d.live.player.positions| == PlcSpec.Delay(c.settings.outputRate)
  {
    hide LiveInv, Aligned, Conveys, Waits, Clean, PlcSpec.Delay;
  }

  lemma PrefixIsHeardLater(delay: nat, log: seq<Slot>, heard: seq<PlcSpec.Played>)
    requires heard <= DelayedBy(delay, log)
    ensures |heard| <= delay + |log| && HeardLater(heard, log, delay)
  {
    SoundsAreHeard(log);
    forall k | 0 <= k < |heard|
      ensures heard[k] == DelayedBy(delay, log)[k]
    {
    }
    if |heard| > delay {
      assert heard[delay..] == Sounds(log)[..|heard| - delay] by {
        forall k | 0 <= k < |heard| - delay
          ensures heard[delay..][k] == Sounds(log)[k]
        {
          assert heard[delay + k] == DelayedBy(delay, log)[delay + k];
        }
      }
    }
    hide Sounds;
  }

  lemma HeardIsPrefix(p: Player, log: seq<Slot>, popped: nat, heard: seq<PlcSpec.Played>)
    requires p.plc.Some? && |p.plc.value.flags| <= |p.plc.value.line| && |p.positions| == |p.plc.value.flags|
    requires Conveys(p, log, popped, heard)
    ensures heard <= DelayedBy(|p.positions|, log)
  {
    var d := |p.positions|;
    assert Sounds(log)[..popped] == Sounds(log[..popped]);
    assert DelayedBy(d, log)[..d + popped] == DelayedBy(d, log[..popped]);
    hide Waits, Sounds, Quiet;
  }

  lemma NothingPopped(e: Engine)
    requires Total(e.window) == 0 && e.cache.pcm == []
    ensures Popped(e) == 0
  {
  }

  lemma LivesFit(c: Config, p: Player)
    requires LiveInv(c, Live(p, [], 0))
    ensures WellFormed(c, p)
  {
  }

  lemma CreatedDelayed(c: Config)
    requires ValidConfig(c) && c.settings.outputRate <= PlcSpec.RATE_MAX && c.settings.plc.G711AppendixI?
    ensures DelayedInv(c, Delayed(Live(Created(c), [], 0), []))
  {
    hide LiveInv, Aligned, ValidConfig, WellFormed, Created, Clean, Waits, Quiet, DelayedBy, Popped, Conveys;
    CreatedLives(c, 0);
    CreatedEngaged(c);
    CreatedEmpty(c);
    var p := Created(c);
    NothingPopped(p.engine);
    CleanlyEngaged(c, p) by { LivesFit(c, p); }
    RestedSilent(p, Waits(p.plc.value));
  }
}
