/** How a finite burst ends: the cut at the boundary, the lookahead played out, silence after a failed reset. */
module EngineEnding {
  import opened Common
  import opened Mute
  import opened Engine
  import opened EngineSource
  import opened EnginePlay
  import Handoff
  import PlcSpec

  // ---------------------------------------------------------------- the cut

  /**
   With a boundary captured, a converted output is played exactly when it lies
   before the boundary; the first that does not ends playout, and every output
   cached behind it lies past the boundary too.
   */
  lemma BoundaryCutsExactly(c: Config, p: Player, log: seq<Slot>, s: Scene, o: nat)
    requires ValidConfig(c) && WellFormed(c, p) && ValidScene(c, s) && PlayerInv(c, p, log)
    requires Sees(c, p, log, s) && !RefusedDuring(c, p, s)
    requires Enter(c, p, s).Playing? && Enter(c, p, s).player.finite.Some?
    requires
      var r := Refilling(c, Enter(c, p, s).player, s);
      r.outcome.Ready? && !r.engine.muteFault
    ensures
      var q := Enter(c, p, s).player;
      var r, k, end := Render(c, p, s), Refilling(c, q, s).engine.cache, q.finite.value.end * BILLION;
      && k.pcm != [] && k.count == k.offset + |k.pcm|
      && (CachePosition(k) < end <==>
            r.acknowledged.None? && r.player.finite == q.finite && r.player.engine.cache.pcm == k.pcm[1..])
      && (CachePosition(k) >= end && k.offset <= o < k.count ==> end <= PositionAt(k, o))
  {
    hide EngineInv, PlayerInv, Enter, Refilling, Advance, Sees, RefusedDuring, PositionAt, LoopSees, LoopRefused,
      Refused, AllAccepted, PaddingIsLast, CachePosition;
    EnterKeepsShape(c, p, s);
    var q := Enter(c, p, s).player;
    EnteredRefills(c, p, log, s);
    var r := Refilling(c, q, s);
    RenderAdvances(c, p, s);
    CutAtBoundary(c, q, s, o);
  }

  lemma RenderAdvances(c: Config, p: Player, s: Scene)
    requires WellFormed(c, p) && ValidScene(c, s) && Enter(c, p, s).Playing?
    ensures WellFormed(c, Enter(c, p, s).player)
    ensures Render(c, p, s) == Advance(c, Enter(c, p, s).player, s)
  {
    EnterKeepsShape(c, p, s);
  }

  lemma EnteredRefills(c: Config, p: Player, log: seq<Slot>, s: Scene)
    requires ValidConfig(c) && ValidScene(c, s) && PlayerInv(c, p, log) && Sees(c, p, log, s) && !RefusedDuring(c, p, s)
    requires Enter(c, p, s).Playing?
    ensures
      var r := Refilling(c, Enter(c, p, s).player, s);
      CacheBehind(r.engine) && (r.outcome.Ready? ==> r.engine.cache.pcm != [])
  {
    EnterKeeps(c, p, log, s);
    EnterKeepsShape(c, p, s);
    hide Enter, SourceInv, CacheBehind, Refilling, LoopSees, LoopRefused, Refused, AllAccepted;
    RefillingKeeps(c, Enter(c, p, s).player, log, s);
  }

  lemma CutAtBoundary(c: Config, q: Player, s: Scene, o: nat)
    requires WellFormed(c, q) && ValidScene(c, s) && q.finite.Some? && q.finite.value.draining.None?
    requires
      var r := Refilling(c, q, s);
      r.outcome.Ready? && !r.engine.muteFault && CacheBehind(r.engine) && r.engine.cache.pcm != []
    ensures
      var r, k, end := Advance(c, q, s), Refilling(c, q, s).engine.cache, q.finite.value.end * BILLION;
      && (CachePosition(k) < end <==>
            r.acknowledged.None? && r.player.finite == q.finite && r.player.engine.cache.pcm == k.pcm[1..])
      && (CachePosition(k) >= end && k.offset <= o < k.count ==> end <= PositionAt(k, o))
  {
    var r := Refilling(c, q, s);
    var n := q.(engine := r.engine);
    hide Refilling, Play, DrainFinite, PositionAt;
    if PastEnd(n) {
      if n.engine.cache.offset <= o <= n.engine.cache.count {
        RestIsPastEnd(n, o);
      }
      DrainShape(c, n, s.resetOk);
    } else {
      PlayShape(c, n, r.outcome);
    }
  }

  // ---------------------------------------------------------------- the lookahead

  lemma DrainStep(c: Config, q: Player, ok: bool)
    requires WellFormed(c, q) && q.finite.Some? && Left(q) > 0
    ensures
      var r, rate := DrainFinite(c, q, ok), c.settings.outputRate;
      && q.plc.Some? && r.player.plc.Some? && WellFormed(c, r.player)
      && r.acknowledged.None? && r.player.finite.Some? && r.player.finite.value.draining == Some(Left(q) - 1)
      && r.player.plc.value.line == q.plc.value.line[1..] + [0.0]
      && r.player.plc.value.flags == q.plc.value.flags[1..] + [false]
      && r.player.positions == q.positions[1..] + [q.positions[0]]
      && r.fromPcm == q.plc.value.flags[0]
      && r.sample == if MutedAt(q, q.positions[0]) then 0.0 else Oldest(q)
  {
    DrainShape(c, q, ok);
    PlcSpec.Geometry(c.settings.outputRate);
    hide CeilDiv, PlcSpec.HistoryLength, PlcSpec.MaxPitch, PlcSpec.MinPitch, PlcSpec.Delay;
  }

  /** The oldest sample not yet played. */
  function Oldest(p: Player): real
    requires p.plc.Some? && |p.plc.value.flags| <= |p.plc.value.line| && p.plc.value.flags != []
  {
    p.plc.value.line[|p.plc.value.line| - |p.plc.value.flags|]
  }

  /** Every call goes straight to the ending. */
  predicate AllEnding(c: Config, p: Player, scenes: seq<Scene>)
    decreases |scenes|
  {
    scenes == [] ||
    (WellFormed(c, p) && ValidScene(c, scenes[0]) && Enter(c, p, scenes[0]).Ending?
     && AllEnding(c, Render(c, p, scenes[0]).player, scenes[1..]))
  }

  function Renders(c: Config, p: Player, scenes: seq<Scene>): (r: seq<Rendered>)
    requires AllEnding(c, p, scenes)
    ensures |r| == |scenes|
    decreases |scenes|
  {
    if scenes == [] then []
    else
      var r := Render(c, p, scenes[0]);
      [r] + Renders(c, r.player, scenes[1..])
  }

  lemma EndingStep(c: Config, p: Player, s: Scene)
    requires WellFormed(c, p) && p.finite.Some? && ValidScene(c, s) && Enter(c, p, s).Ending? && Left(p) > 0
    ensures
      var r := Render(c, p, s);
      && WellFormed(c, r.player) && r.acknowledged.None?
      && p.plc.Some? && r.player.plc.Some? && r.player.finite.Some?
      && r.player.finite.value.draining == Some(Left(p) - 1)
      && r.player.plc.value.line == p.plc.value.line[1..] + [0.0]
      && r.player.plc.value.flags == p.plc.value.flags[1..] + [false]
      && r.player.positions == p.positions[1..] + [p.positions[0]]
      && r.fromPcm == p.plc.value.flags[0]
      && r.sample == if MutedAt(Enter(c, p, s).player, p.positions[0]) then 0.0 else Oldest(p)
  {
    EnterKeepsShape(c, p, s);
    hide Enter, DrainFinite, CeilDiv, PlcSpec.HistoryLength, PlcSpec.Valid;
    DrainStep(c, Enter(c, p, s).player, s.resetOk);
  }

  /** The player after the first i of these calls. */
  function PlayerAfter(c: Config, p: Player, scenes: seq<Scene>, i: nat): Player
    requires AllEnding(c, p, scenes) && i <= |scenes|
    decreases i
  {
    if i == 0 then p else PlayerAfter(c, Render(c, p, scenes[0]).player, scenes[1..], i - 1)
  }

  /**
   Ending plays out exactly the retained lookahead, oldest first, each sample with
   its own real flag, silenced exactly if an interval received by its own call
   meets its own position; then, and only then, completes.
   */
  lemma {:induction false} LookaheadIsPlayedOut(c: Config, p: Player, scenes: seq<Scene>, i: nat)
    requires WellFormed(c, p) && p.finite.Some? && AllEnding(c, p, scenes) && i < |scenes| <= Left(p) + 1
    ensures p.plc.Some? || Left(p) == 0
    ensures
      var r, q := Renders(c, p, scenes)[i], PlayerAfter(c, p, scenes, i);
      if i < Left(p) then
        && r.acknowledged.None? && r.fromPcm == p.plc.value.flags[i]
        && r.sample == (if MutedAt(Enter(c, q, scenes[i]).player, p.positions[i]) then 0.0
                        else p.plc.value.line[|p.plc.value.line| - |p.plc.value.flags| + i])
      else r.acknowledged == Some(if scenes[i].resetOk then Handoff.DRAINED else Handoff.ADAPTER_ERROR)
    decreases i
  {
    hide Enter, Render, CeilDiv, PlcSpec.HistoryLength, WellFormed, MutedAt;
    LeftFits(c, p);
    if Left(p) == 0 {
      CompletionStep(c, p, scenes[0]);
    } else {
      EndingStep(c, p, scenes[0]);
      if i > 0 {
        LookaheadIsPlayedOut(c, Render(c, p, scenes[0]).player, scenes[1..], i - 1);
      }
    }
  }

  lemma LeftFits(c: Config, p: Player)
    requires WellFormed(c, p) && p.finite.Some?
    ensures Left(p) <= |p.positions|
    ensures p.plc.Some? || Left(p) == 0
    ensures p.plc.Some? ==>
      0 < |p.plc.value.flags| == |p.positions| <= |p.plc.value.line|
  {
    if p.plc.Some? {
      PlcSpec.Geometry(c.settings.outputRate);
    }
  }

  lemma CompletionStep(c: Config, p: Player, s: Scene)
    requires WellFormed(c, p) && p.finite.Some? && ValidScene(c, s) && Enter(c, p, s).Ending? && Left(p) == 0
    ensures Render(c, p, s).acknowledged == Some(if s.resetOk then Handoff.DRAINED else Handoff.ADAPTER_ERROR)
  {
    EnterKeepsShape(c, p, s);
    hide Enter;
  }

  // ---------------------------------------------------------------- after a failed reset

  predicate AllZero(line: seq<real>) {
    forall k | 0 <= k < |line| :: line[k] == 0.0
  }

  /** Nothing the player could play is anything but silence. */
  predicate Silenced(p: Player) {
    && p.engine.resetFailed && p.engine.cache.pcm == []
    && (p.plc.Some? ==> AllZero(p.plc.value.line))
  }

  lemma ResetSilences(p: Player)
    ensures Silenced(Reset(p, false))
  {
  }

  lemma DrainSilent(c: Config, q: Player, ok: bool)
    requires WellFormed(c, q) && q.finite.Some? && Silenced(q)
    ensures DrainFinite(c, q, ok).sample == 0.0
    ensures (ok && DrainFinite(c, q, ok).acknowledged.Some?) || Silenced(DrainFinite(c, q, ok).player)
  {
    LeftFits(c, q);
    if Left(q) > 0 {
      DrainStep(c, q, ok);
      DrainShape(c, q, ok);
      hide DrainFinite, WellFormed, CeilDiv;
    }
  }

  lemma RefillBlocked(c: Config, q: Player, s: Scene)
    requires q.engine.resetFailed && ValidScene(c, s)
    ensures Refilling(c, q, s) == Refilled(q.engine, AdapterError)
  {
  }

  lemma AdvanceSilent(c: Config, q: Player, s: Scene)
    requires WellFormed(c, q) && ValidScene(c, s) && Silenced(q)
    ensures Advance(c, q, s).sample == 0.0
    ensures (s.resetOk && Advance(c, q, s).acknowledged.Some?) || Silenced(Advance(c, q, s).player)
  {
    RefillBlocked(c, q, s);
    hide Refilling, DrainFinite, PlcSpec.Process, CachePosition;
  }

  lemma SilentStep(c: Config, p: Player, s: Scene)
    requires WellFormed(c, p) && ValidScene(c, s) && Silenced(p)
    ensures Render(c, p, s).sample == 0.0
    ensures (s.resetOk && Render(c, p, s).acknowledged.Some?) || Silenced(Render(c, p, s).player)
  {
    EnterKeepsShape(c, p, s);
    var q := Enter(c, p, s).player;
    assert Silenced(q);
    hide Enter, Advance, DrainFinite, Silenced;
    match Enter(c, p, s) {
      case Held(_, _) => SameSilence(p, q);
      case Ending(_) => DrainSilent(c, q, s.resetOk);
      case Playing(_) => AdvanceSilent(c, q, s);
    }
  }

  lemma SameSilence(p: Player, q: Player)
    requires Silenced(p) && q.engine == p.engine.(muteFault := q.engine.muteFault) && q.plc == p.plc
    ensures Silenced(q)
  {
  }

  /** What may follow a failed reset: calls, whose own resets fail, and further explicit resets that fail. */
  datatype Attempt = Rendering(scene: Scene) | Resetting

  function PlayerNext(c: Config, p: Player, a: Attempt): Player
    requires WellFormed(c, p) && (a.Rendering? ==> ValidScene(c, a.scene))
  {
    if a.Resetting? then Reset(p, false) else Render(c, p, a.scene).player
  }

  /** No reset along the way succeeds, neither a requested one nor a completion's. */
  predicate NoResetSucceeds(c: Config, p: Player, attempts: seq<Attempt>)
    decreases |attempts|
  {
    attempts == [] ||
    (WellFormed(c, p)
     && (attempts[0].Rendering? ==>
           && ValidScene(c, attempts[0].scene)
           && !(attempts[0].scene.resetOk && Render(c, p, attempts[0].scene).acknowledged.Some?))
     && NoResetSucceeds(c, PlayerNext(c, p, attempts[0]), attempts[1..]))
  }

  function PlayerThen(c: Config, p: Player, attempts: seq<Attempt>): Player
    requires NoResetSucceeds(c, p, attempts)
    decreases |attempts|
  {
    if attempts == [] then p else PlayerThen(c, PlayerNext(c, p, attempts[0]), attempts[1..])
  }

  lemma {:induction false} SilenceLasts(c: Config, p: Player, attempts: seq<Attempt>)
    requires Silenced(p) && NoResetSucceeds(c, p, attempts)
    ensures Silenced(PlayerThen(c, p, attempts))
    decreases |attempts|
  {
    hide Render, Silenced, Reset;
    if attempts != [] {
      if attempts[0].Resetting? {
        ResetSilences(p);
      } else {
        SilentStep(c, p, attempts[0].scene);
      }
      SilenceLasts(c, PlayerNext(c, p, attempts[0]), attempts[1..]);
    }
  }

  /** A reset was asked of the adapter, by the caller or by a completing call, and failed. */
  predicate ResetFails(c: Config, p: Player, a: Attempt)
    requires WellFormed(c, p) && (a.Rendering? ==> ValidScene(c, a.scene))
  {
    a.Resetting? || (!a.scene.resetOk && Render(c, p, a.scene).acknowledged.Some?)
  }

  lemma FailureSilences(c: Config, p: Player, a: Attempt)
    requires WellFormed(c, p) && (a.Rendering? ==> ValidScene(c, a.scene)) && ResetFails(c, p, a)
    ensures Silenced(PlayerNext(c, p, a))
  {
    if a.Resetting? {
      ResetSilences(p);
    } else {
      EnterKeepsShape(c, p, a.scene);
      hide Enter, Refilling, CachePosition;
      if Enter(c, p, a.scene).Ending? {
        FailedDrainSilences(c, Enter(c, p, a.scene).player);
      } else {
        FailedAdvanceSilences(c, Enter(c, p, a.scene).player, a.scene);
      }
    }
  }

  lemma FailedDrainSilences(c: Config, q: Player)
    requires WellFormed(c, q) && q.finite.Some?
    ensures DrainFinite(c, q, false).acknowledged.Some? ==> Silenced(DrainFinite(c, q, false).player)
  {
  }

  lemma FailedAdvanceSilences(c: Config, q: Player, s: Scene)
    requires WellFormed(c, q) && ValidScene(c, s) && !s.resetOk
    ensures Advance(c, q, s).acknowledged.Some? ==> Silenced(Advance(c, q, s).player)
  {
    hide Refilling, CachePosition, DrainFinite, PlcSpec.Process;
    var n := q.(engine := Refilling(c, q, s).engine);
    if PastEnd(n) {
      FailedDrainSilences(c, n);
    }
  }

  /**
   From any reset that fails, asked for by the caller or by a completing burst,
   through any calls and any further failing resets, every sample played is
   silence until a reset succeeds.
   */
  lemma FailedResetIsSilent(c: Config, p: Player, first: Attempt, attempts: seq<Attempt>, s: Scene)
    requires WellFormed(c, p) && (first.Rendering? ==> ValidScene(c, first.scene)) && ResetFails(c, p, first)
    requires NoResetSucceeds(c, PlayerNext(c, p, first), attempts)
    requires WellFormed(c, PlayerThen(c, PlayerNext(c, p, first), attempts)) && ValidScene(c, s)
    ensures Render(c, PlayerThen(c, PlayerNext(c, p, first), attempts), s).sample == 0.0
  {
    hide Render, Silenced, Reset, WellFormed;
    FailureSilences(c, p, first);
    SilenceLasts(c, PlayerNext(c, p, first), attempts);
    SilentStep(c, PlayerThen(c, PlayerNext(c, p, first), attempts), s);
  }

  // ---------------------------------------------------------------- under a mute fault

  lemma FaultHolds(c: Config, p: Player, s: Scene)
    requires p.engine.muteFault
    ensures Enter(c, p, s).Held? && Enter(c, p, s).failed && Enter(c, p, s).player.engine == p.engine
    ensures Enter(c, p, s).player.finite == Capture(p, s).finite
  {
    FaultStays(c, Capture(p, s), s.records);
    AbsorbingKeepsShape(c, Capture(p, s), s.records);
    hide Absorbing;
  }

  lemma {:induction false} FaultStays(c: Config, p: Player, records: seq<Interval>)
    requires p.engine.muteFault
    ensures Absorbing(c, p, records).engine.muteFault
    decreases |records|
  {
    if records != [] {
      var r := Inserted(p.mutes, c.muteRoom, records[0]);
      FaultStays(c,
        if r.Some? then p.(mutes := r.value) else p.(engine := p.engine.(muteFault := true)), records[1..]);
    }
  }

  /** The player after any calls. */
  function PlayerAfterCalls(c: Config, p: Player, scenes: seq<Scene>): Player
    requires WellFormed(c, p) && forall k | 0 <= k < |scenes| :: ValidScene(c, scenes[k])
    decreases |scenes|
  {
    if scenes == [] then p
    else
      RenderShape(c, p, scenes[0]);
      PlayerAfterCalls(c, Render(c, p, scenes[0]).player, scenes[1..])
  }

  lemma {:induction false} FaultLasts(c: Config, p: Player, scenes: seq<Scene>)
    requires WellFormed(c, p) && p.engine.muteFault && forall k | 0 <= k < |scenes| :: ValidScene(c, scenes[k])
    ensures
      var n := PlayerAfterCalls(c, p, scenes);
      WellFormed(c, n) && n.engine == p.engine && (p.finite.Some? ==> n.finite == p.finite)
    decreases |scenes|
  {
    hide Enter, WellFormed, ValidScene;
    if scenes != [] {
      FaultHolds(c, p, scenes[0]);
      RenderShape(c, p, scenes[0]);
      FaultLasts(c, Render(c, p, scenes[0]).player, scenes[1..]);
    }
  }

  /**
   A mute fault fails closed: until a reset every call, whatever it sees and
   whatever the adapter would answer, reports a failure and plays silence, and a
   captured boundary is neither forgotten nor acknowledged.
   */
  lemma FaultHoldsBoundary(c: Config, p: Player, scenes: seq<Scene>, s: Scene)
    requires WellFormed(c, p) && p.engine.muteFault && ValidScene(c, s)
    requires forall k | 0 <= k < |scenes| :: ValidScene(c, scenes[k])
    ensures
      var n := PlayerAfterCalls(c, p, scenes);
      && WellFormed(c, n)
      && var r := Render(c, n, s);
        && r.failed && r.sample == 0.0 && !r.fromPcm && r.acknowledged.None?
        && r.player.engine == p.engine && (p.finite.Some? ==> r.player.finite == p.finite)
  {
    hide Enter, WellFormed, ValidScene;
    FaultLasts(c, p, scenes);
    FaultHolds(c, PlayerAfterCalls(c, p, scenes), s);
  }
}
