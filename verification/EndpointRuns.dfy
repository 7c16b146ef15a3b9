/**
 Runs of the two endpoints in place under the caller contract: what the class
 publishes is consecutively stamped, so no slot is ever refused and everything
 that holds until a refused slot holds for ever.
 */
module EndpointRuns {
  import opened Common
  import opened Engine
  import opened EngineSource
  import opened EngineBounds
  import opened EngineRoom
  import opened EnginePlay
  import opened Consumer
  import opened Agreement
  import C = Conversion
  import EngineEnding
  import HandoffSteps
  import P = Producer
  import PlcSpec

  /** The caller's part: a tagged block keeps to the generation begun since the last reset. */
  predicate Contract(e: Endpoints, m: Move) {
    m.Produces? && m.act.Tagged? && Pen(e.shared).Some? ==> m.act.generation == Pen(e.shared).value.generation
  }

  /** The adapter's part: its backlog stays within the retention bound. */
  predicate Retains(c: Config, m: Move) {
    m.Renders? ==> forall k | 0 <= k < |m.replies| :: Retained(c, m.replies[k])
  }

  predicate Honoured(c: Config, e: Endpoints, moves: seq<Move>)
    requires Plausible(c, e, moves)
    decreases |moves|
  {
    moves == [] ||
    (Contract(e, moves[0]) && Retains(c, moves[0]) && Honoured(c, Moved(c, e, moves[0]), moves[1..]))
  }

  // ---------------------------------------------------------------- the timeline

  /** The pen continues what has been published since the last reset. */
  predicate Penned(w: World, e: Endpoints) {
    P.PenContinues(P.Timeline(w.log, Pen(e.shared))) && e.shared.epoch <= e.shared.serial
  }

  /** Extending an older log adds the same slots. */
  lemma ExtendedBehind(log: seq<Slot>, s: Shared, act: P.Act)
    ensures P.Extended(P.Timeline(log, Pen(s)), act).log == log + Published(s, act)
    ensures P.Extended(P.Timeline(log, Pen(s)), act).pen == P.Extended(P.Timeline([], Pen(s)), act).pen
    ensures P.Accepted(P.Timeline(log, Pen(s)), act) <==> P.Accepted(P.Timeline([], Pen(s)), act)
  {
  }

  lemma ProducesPens(c: Config, w: World, e: Endpoints, m: Move)
    requires Agrees(c, w, e) && Penned(w, e) && Fits(c, e, m) && m.Produces? && Contract(e, m)
    ensures WellFormed(c, e.player) && Possible(c, w, EventsOf(c, e, m))
    ensures Penned(Run(c, w, EventsOf(c, e, m)), Moved(c, e, m))
  {
    MoveAgrees(c, w, e, m);
    ExtendedBehind(w.log, e.shared, m.act);
    hide P.Extended, P.Accepted, Published, P.PenContinues, WorldInv, WellFormed;
    var t := P.Timeline(w.log, Pen(e.shared));
    P.ExtendedContinues(t, m.act);
    assert w.log + [] == w.log;
  }

  /** After an epoch change the producer's pen is gone, and an empty timeline needs none. */
  lemma ResetPens(w: World, e: Endpoints)
    requires w.log == [] && e.shared.epoch < e.shared.serial
    ensures Penned(w, e)
  {
  }

  lemma RendersPens(c: Config, w: World, e: Endpoints, replies: seq<Replies>, ok: bool)
    requires Agrees(c, w, e) && Penned(w, e) && w.intact && |replies| == RefillLimit(c) + 1
    requires !RefusedDuring(c, e.player, SceneOf(c, e.player, e.shared, replies, ok))
    ensures
      var scene := SceneOf(c, e.player, e.shared, replies, ok);
      && Allowed(c, w, Call(scene))
      && Penned(Then(c, w, Call(scene)), Moved(c, e, Renders(replies, ok)))
  {
    hide Render, Enter, Refilling, PlayerInv, WellFormed, Sees, RefusedDuring, Leaves, SceneOf, ValidConfig, Reached,
      P.PenContinues, HandoffSteps.TakenBy;
    var scene := SceneOf(c, e.player, e.shared, replies, ok);
    SceneIsValid(c, e, replies, ok);
    SceneIsSeen(c, e.player, w.log, e.shared, replies, ok);
    RenderKept(c, e.player, w.log, scene);
    StampsStay(c, e, replies, ok);
    var n, after := Then(c, w, Call(scene)), Moved(c, e, Renders(replies, ok));
    if Render(c, e.player, scene).acknowledged.Some? {
      OutcomeOfCompletion(c, e.player, scene);
      assert n.log == [];
      ResetPens(n, after);
    }
  }

  /**
   The end of a burst, by an outcome or a reset, ends its timeline: the producer
   holds no stamp then, so a block of any generation and start may follow.
   */
  lemma EndBeginsTimeline(c: Config, e: Endpoints, m: Move, generation: nat, start: nat, pcm: seq<real>)
    requires WellFormed(c, e.player) && Fits(c, e, m) && e.shared.epoch <= e.shared.serial
    requires m.Resets? || (m.Renders?
                           && var scene := SceneOf(c, e.player, e.shared, m.replies, m.ok);
                              ValidScene(c, scene) && Render(c, e.player, scene).acknowledged.Some?)
    ensures
      var pen := Pen(Moved(c, e, m).shared);
      pen.None? && P.Accepted(P.Timeline([], pen), P.Tagged(generation, start, pcm))
  {
    hide Render, WellFormed, Leaves, Supplies, Enter;
    if m.Renders? {
      StampsStay(c, e, m.replies, m.ok);
    }
  }

  /** A call stores no stamp; its completion bumps the epoch. */
  lemma StampsStay(c: Config, e: Endpoints, replies: seq<Replies>, ok: bool)
    requires WellFormed(c, e.player) && |replies| == RefillLimit(c) + 1
    ensures
      var scene := SceneOf(c, e.player, e.shared, replies, ok);
      var r, n := Render(c, e.player, scene), SharedAfter(c, e.player, e.shared, replies, ok);
      && n.stamp == e.shared.stamp && n.epoch == e.shared.epoch
      && n.serial == e.shared.serial + if r.acknowledged.Some? then 1 else 0
  {
    hide Render, Enter, Leaves, WellFormed, Supplies;
  }

  // ---------------------------------------------------------------- no refusal

  lemma {:induction false} LoopUnrefused(c: Config, e: Engine, supplies: seq<Supply>, log: seq<Slot>)
    requires ValidConfig(c) && SourceInv(e.window, log) && Near(c, e.window) && Stamped(log)
    requires LoopSees(c, e, log, supplies) && AllRetained(c, supplies)
    ensures !LoopRefused(c, e, supplies)
    decreases |supplies|
  {
    hide SourceInv, Near, Refill, Refused, Exhausted, Retained, ValidConfig, Stamped;
    GapListSuffices(c, e, true, supplies[0], log);
    RefillRoomy(c, e, true, supplies[0], log);
    var r := Refill(c, e, true, supplies[0]);
    if r.outcome.Starved? && |supplies| > 1 {
      RefillKeeps(c, e, true, supplies[0], log);
      assert forall k | 0 <= k < |supplies[1..]| :: supplies[1..][k] == supplies[k + 1];
      LoopUnrefused(c, r.engine, supplies[1..], log);
    }
  }

  lemma StampedUnrefused(c: Config, w: World, s: Scene)
    requires RoomInv(c, w) && w.intact && Allowed(c, w, Call(s)) && AllRetained(c, s.supplies) && Stamped(w.log)
    ensures !RefusedDuring(c, w.player, s)
  {
    EnterKeepsShape(c, w.player, s);
    if w.player.engine.muteFault {
      FaultNoEntry(c, w.player, s);
    } else {
      var q := Enter(c, w.player, s).player;
      hide Enter, SourceInv, Near, CacheBehind, Refill, Refused, Exhausted, Retained, ValidConfig, WellFormed, Stamped;
      if Enter(c, w.player, s).Playing? {
        if q.finite.Some? {
          LoopUnrefused(c, q.engine, s.supplies, w.log);
        } else {
          GapListSuffices(c, q.engine, false, s.supplies[0], w.log);
        }
      }
    }
  }

  lemma FaultNoEntry(c: Config, p: Player, s: Scene)
    requires p.engine.muteFault && s.supplies != []
    ensures !RefusedDuring(c, p, s)
  {
    EngineEnding.FaultHolds(c, p, s);
    hide Enter;
  }

  /** The replies of a call are those its refills see. */
  lemma {:induction false} SuppliesRetain(c: Config, e: Engine, ending: bool, fifo: seq<Slot>, replies: seq<Replies>)
    requires forall k | 0 <= k < |replies| :: Retained(c, replies[k])
    ensures AllRetained(c, Supplies(c, e, ending, fifo, replies))
    decreases |replies|
  {
    hide Retained, Refill, C.RefillRemoves;
    if replies != [] {
      var first := C.Seen(c, e, fifo, replies[0]);
      var left := fifo[C.RefillRemoves(c, e, fifo)..];
      var rest := Supplies(c, Refill(c, e, ending, first).engine, ending, left, replies[1..]);
      assert forall k | 0 <= k < |replies[1..]| :: replies[1..][k] == replies[k + 1];
      SuppliesRetain(c, Refill(c, e, ending, first).engine, ending, fifo[C.RefillRemoves(c, e, fifo)..], replies[1..]);
      assert first.replies == replies[0];
      assert Supplies(c, e, ending, fifo, replies) == [first] + rest;
      PrependRetains(c, first, rest);
    }
  }

  lemma PrependRetains(c: Config, first: Supply, rest: seq<Supply>)
    requires Retained(c, first.replies) && AllRetained(c, rest)
    ensures AllRetained(c, [first] + rest)
  {
  }

  // ---------------------------------------------------------------- whole runs

  /** Account, room and timeline all stand, and nothing has been refused. */
  predicate Standing(c: Config, w: World, e: Endpoints) {
    Agrees(c, w, e) && RoomInv(c, w) && w.intact && Penned(w, e)
  }

  lemma PennedIsStamped(w: World, e: Endpoints)
    requires Penned(w, e)
    ensures Stamped(w.log)
  {
  }

  lemma RendersStand(c: Config, w: World, e: Endpoints, replies: seq<Replies>, ok: bool)
    requires Standing(c, w, e) && |replies| == RefillLimit(c) + 1 && Retains(c, Renders(replies, ok))
    ensures
      var scene := SceneOf(c, e.player, e.shared, replies, ok);
      && !RefusedDuring(c, e.player, scene) && Allowed(c, w, Call(scene))
      && Standing(c, Then(c, w, Call(scene)), Moved(c, e, Renders(replies, ok)))
  {
    hide Render, Enter, Refilling, PlayerInv, WellFormed, Sees, RefusedDuring, Leaves, SceneOf, ValidConfig, Reached,
      P.PenContinues, RoomInv, Penned, Near, Moved, Retained;
    var scene := SceneOf(c, e.player, e.shared, replies, ok);
    RenderAgrees(c, w, e, replies, ok);
    SceneRetains(c, e, replies, ok);
    PennedIsStamped(w, e);
    StampedUnrefused(c, w, scene);
    RendersPens(c, w, e, replies, ok);
    StepRoomy(c, w, Call(scene));
  }

  lemma SceneRetains(c: Config, e: Endpoints, replies: seq<Replies>, ok: bool)
    requires forall k | 0 <= k < |replies| :: Retained(c, replies[k])
    ensures AllRetained(c, SceneOf(c, e.player, e.shared, replies, ok).supplies)
  {
    var q := Enter(c, e.player, Outlook(e.shared, ok)).player;
    SuppliesRetain(c, q.engine, q.finite.Some?, e.shared.fifo, replies);
    hide Retained, Supplies, Enter;
  }

  lemma OthersStand(c: Config, w: World, e: Endpoints, m: Move)
    requires Standing(c, w, e) && Fits(c, e, m) && Contract(e, m) && !m.Renders?
    ensures WellFormed(c, e.player) && Possible(c, w, EventsOf(c, e, m))
    ensures Standing(c, Run(c, w, EventsOf(c, e, m)), Moved(c, e, m))
  {
    hide PlayerInv, WellFormed, ValidConfig, Near, P.PenContinues, Fits, Contract, Published, ProducerKeeps;
    MoveAgrees(c, w, e, m);
    if m.Produces? {
      ProducesPens(c, w, e, m);
      var slots := Published(e.shared, m.act);
      if slots != [] {
        StepRoomy(c, w, Arrive(slots));
      }
    } else {
      StepRoomy(c, w, ResetCall(m.ok));
      ResetPens(World(Reset(w.player, m.ok), [], true), Moved(c, e, m));
    }
  }

  lemma MoveStands(c: Config, w: World, e: Endpoints, m: Move)
    requires Standing(c, w, e) && Fits(c, e, m) && Contract(e, m) && Retains(c, m)
    ensures WellFormed(c, e.player) && Possible(c, w, EventsOf(c, e, m)) && HandoffSteps.Unrefused(c, w, e, m)
    ensures Standing(c, Run(c, w, EventsOf(c, e, m)), Moved(c, e, m))
  {
    if m.Renders? {
      RendersStand(c, w, e, m.replies, m.ok);
    } else {
      OthersStand(c, w, e, m);
    }
    hide PlayerInv, WellFormed, ValidConfig, RoomInv, Penned, RefusedDuring, SceneOf, Agrees, Then, Allowed;
    assert Standing(c, w, e);
    StandsFormed(c, w, e);
  }

  lemma StandsFormed(c: Config, w: World, e: Endpoints)
    requires Standing(c, w, e)
    ensures WellFormed(c, e.player) && w.player == e.player && w.intact
  {
    hide RoomInv, PlayerInv, Penned, Near;
  }

  lemma {:induction false} RunStands(c: Config, w: World, e: Endpoints, moves: seq<Move>)
    requires Standing(c, w, e) && Plausible(c, e, moves) && Honoured(c, e, moves)
    ensures HandoffSteps.NeverRefused(c, w, e, moves)
    ensures Possible(c, w, WorldEvents(c, e, moves))
    ensures Standing(c, Run(c, w, WorldEvents(c, e, moves)), MovedAll(c, e, moves))
    decreases |moves|
  {
    hide Standing, Moved, Fits, Possible, Run, EventsOf, Contract, Retains, HandoffSteps.Unrefused;
    if moves != [] {
      MoveStands(c, w, e, moves[0]);
      var events := EventsOf(c, e, moves[0]);
      RunStands(c, Run(c, w, events), Moved(c, e, moves[0]), moves[1..]);
      AtMostOne(c, w, events, WorldEvents(c, Moved(c, e, moves[0]), moves[1..]));
    } else {
      NothingHappens(c, w);
    }
  }

  /**
   From creation, whatever pushes, gaps, tagged blocks, mutes, finishes, calls and
   resets follow: if tagged blocks keep to one generation between resets and the
   adapter to its retention bound, what the class publishes is consecutively
   stamped, no call is ever refused a slot, and what was fed, waits and is unread
   is all of it, for ever.
   */
  lemma EndpointsLoseNothing(c: Config, start: Shared, moves: seq<Move>)
    requires ValidConfig(c) && c.settings.outputRate <= PlcSpec.RATE_MAX
    requires start.fifo == [] && start.stamp.None? && start.epoch <= start.serial
    requires Plausible(c, Endpoints(Created(c), start), moves) && Honoured(c, Endpoints(Created(c), start), moves)
    ensures HandoffSteps.NeverRefused(c, World(Created(c), [], true), Endpoints(Created(c), start), moves)
    ensures
      var e, events := MovedAll(c, Endpoints(Created(c), start), moves),
                       WorldEvents(c, Endpoints(Created(c), start), moves);
      && Possible(c, World(Created(c), [], true), events)
      && var w, window := Run(c, World(Created(c), [], true), events), e.player.engine.window;
        && w.player == e.player && Stamped(w.log)
        && window.taken + |e.shared.fifo| == |w.log|
        && window.fed + Waiting(window) + Pcm(e.shared.fifo) == Pcm(w.log)
  {
    var w, e := World(Created(c), [], true), Endpoints(Created(c), start);
    CreatedStands(c, start);
    hide Created, Standing, WellFormed;
    RunStands(c, w, e, moves);
    EndpointsConserveStream(c, start, moves);
    var n := Run(c, w, WorldEvents(c, e, moves));
    StandsFormed(c, n, MovedAll(c, e, moves));
    StandsStamped(c, n, MovedAll(c, e, moves));
  }

  lemma StandsStamped(c: Config, w: World, e: Endpoints)
    requires Standing(c, w, e)
    ensures Stamped(w.log)
  {
  }

  lemma CreatedStands(c: Config, start: Shared)
    requires ValidConfig(c) && c.settings.outputRate <= PlcSpec.RATE_MAX
    requires start.fifo == [] && start.stamp.None? && start.epoch <= start.serial
    ensures Standing(c, World(Created(c), [], true), Endpoints(Created(c), start))
  {
    CreatedInv(c);
    EmptyIsNear(c);
    hide PlayerInv, WellFormed, ValidConfig, Near;
  }
}
