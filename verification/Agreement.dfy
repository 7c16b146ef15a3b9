/**
 The two endpoints in place and the world of the run theorems agree: every run of
 what the class methods are proved to compute is a run of the world, with the same
 player, and its FIFO is the unread rest of the slots published.
 */
module Agreement {
  import opened Common
  import opened Engine
  import opened EngineSource
  import opened EnginePlay
  import opened Consumer
  import opened Mute
  import C = Conversion
  import EngineStall
  import Handoff
  import MuteStorage
  import P = Producer
  import PlcSpec
  import Ring

  lemma {:induction false} KeptRemoves(c: Config, w: Window, offered: seq<Slot>, room: nat)
    requires Fill(c, w, offered, room).Kept?
    ensures Fill(c, w, offered, room).window.taken == w.taken + C.Removed(c, w, offered, room)
    decreases room
  {
    if room > 0 && !w.padding && offered != [] {
      KeptRemoves(c, TakeSlot(c, w, offered[0]).window, offered[1..], room - 1);
    }
  }

  /** Short of a refusal a refill counts exactly the slots it removed. */
  lemma RefillTakes(c: Config, e: Engine, ending: bool, fifo: seq<Slot>, r: Replies)
    requires !Refused(c, e, C.Seen(c, e, fifo, r))
    ensures Refill(c, e, ending, C.Seen(c, e, fifo, r)).engine.window.taken == e.window.taken
        + C.RefillRemoves(c, e, fifo)
  {
    hide Fill, Room, Proceed, C.Removed;
    if !e.resetFailed && e.cache.pcm == [] {
      KeptRemoves(c, e.window, fifo, Room(c, e.window));
      var t := Fill(c, e.window, fifo, Room(c, e.window));
      ProceedBehind(c, e.(window := Pad(t.window, ending)), ending, C.Seen(c, e, fifo, r));
    }
  }

  /** A refill is offered the unread rest, and steers by what is still unread once its workspace is filled. */
  lemma RefillSeesRest(c: Config, e: Engine, log: seq<Slot>, r: Replies)
    requires e.window.taken <= |log| && !e.resetFailed && e.cache.pcm == []
    requires Fill(c, e.window, log[e.window.taken..], Room(c, e.window)).Kept?
    ensures
      var seen := C.Seen(c, e, log[e.window.taken..], r);
      && seen.offered == log[e.window.taken..] && seen.replies == r
      && seen.available == |log| - Fill(c, e.window, seen.offered, Room(c, e.window)).window.taken
  {
    hide Fill, Room, C.Removed;
    KeptRemoves(c, e.window, log[e.window.taken..], Room(c, e.window));
  }

  lemma RefusedFails(c: Config, e: Engine, ending: bool, s: Supply)
    requires Refused(c, e, s)
    ensures Refill(c, e, ending, s).outcome.AdapterError?
  {
    hide Fill, Room, Proceed;
  }

  lemma RestOfRest(log: seq<Slot>, taken: nat, n: nat)
    requires taken + n <= |log|
    ensures log[taken..][n..] == log[taken + n..]
  {
  }

  /** Each refill of a finite loop is offered all that the ones before it left. */
  lemma {:induction false} SuppliesSee(c: Config, e: Engine, log: seq<Slot>, replies: seq<Replies>)
    requires e.window.taken <= |log| && replies != []
    ensures LoopSees(c, e, log, Supplies(c, e, true, log[e.window.taken..], replies))
    decreases |replies|
  {
    hide Refill, C.RefillRemoves, Refused;
    var fifo := log[e.window.taken..];
    var first := C.Seen(c, e, fifo, replies[0]);
    var all, r := Supplies(c, e, true, fifo, replies), Refill(c, e, true, first);
    if r.outcome.Starved? && |replies| > 1 {
      if Refused(c, e, first) {
        RefusedFails(c, e, true, first);
      }
      RefillTakes(c, e, true, fifo, replies[0]);
      RestOfRest(log, e.window.taken, C.RefillRemoves(c, e, fifo));
      SuppliesSee(c, r.engine, log, replies[1..]);
      assert all[1..] == Supplies(c, r.engine, true, log[r.engine.window.taken..], replies[1..]);
    }
  }

  /** Unless one was refused a slot, the retries leave the unread rest. */
  lemma {:induction false} LoopLeavesRest(c: Config, e: Engine, log: seq<Slot>, replies: seq<Replies>)
    requires e.window.taken <= |log| && replies != []
    requires !LoopRefused(c, e, Supplies(c, e, true, log[e.window.taken..], replies))
    ensures
      var taken := RefillLoop(c, e, Supplies(c, e, true, log[e.window.taken..], replies)).engine.window.taken;
      taken <= |log| && LoopLeaves(c, e, log[e.window.taken..], replies) == log[taken..]
    decreases |replies|
  {
    hide Refill, C.RefillRemoves, Refused;
    var fifo := log[e.window.taken..];
    var first := C.Seen(c, e, fifo, replies[0]);
    var all, r := Supplies(c, e, true, fifo, replies), Refill(c, e, true, first);
    LoopUnfold(c, e, fifo, replies);
    RefillTakes(c, e, true, fifo, replies[0]);
    RestOfRest(log, e.window.taken, C.RefillRemoves(c, e, fifo));
    if r.outcome.Starved? && |replies| > 1 {
      assert all[1..] == Supplies(c, r.engine, true, log[r.engine.window.taken..], replies[1..]);
      LoopLeavesRest(c, r.engine, log, replies[1..]);
    }
  }

  /** The FIFO holds exactly the published slots the consumer has not taken. */
  predicate Unread(p: Player, log: seq<Slot>, fifo: seq<Slot>) {
    p.engine.window.taken <= |log| && fifo == log[p.engine.window.taken..]
  }

  /** What a call of the class acts in is what a call of the world may see. */
  lemma SceneIsSeen(c: Config, p: Player, log: seq<Slot>, s: Shared, replies: seq<Replies>, ok: bool)
    requires Unread(p, log, s.fifo) && |replies| == RefillLimit(c) + 1
    ensures ValidScene(c, SceneOf(c, p, s, replies, ok)) && Sees(c, p, log, SceneOf(c, p, s, replies, ok))
  {
    hide Refill, C.RefillRemoves, Enter;
    var scene := SceneOf(c, p, s, replies, ok);
    EnterIgnoresSupplies(c, p, Outlook(s, ok), scene.supplies);
    EnterKeepsShape(c, p, scene);
    var q := Enter(c, p, scene).player;
    if q.finite.Some? {
      SuppliesSee(c, q.engine, log, replies);
    }
  }

  /** The refills of an unrefused call leave the unread rest. */
  lemma RefillsLeaveRest(c: Config, p: Player, log: seq<Slot>, s: Shared, replies: seq<Replies>, ok: bool)
    requires Unread(p, log, s.fifo) && |replies| == RefillLimit(c) + 1
    requires Enter(c, p, SceneOf(c, p, s, replies, ok)).Playing? && !RefusedDuring(c, p, SceneOf(c, p, s, replies, ok))
    ensures
      var scene := SceneOf(c, p, s, replies, ok);
      var q := Enter(c, p, scene).player;
      var taken := Refilling(c, q, scene).engine.window.taken;
      taken <= |log| && Leaves(c, q, s.fifo, replies) == log[taken..]
  {
    hide Refill, C.RefillRemoves, Enter, Refused;
    var scene := SceneOf(c, p, s, replies, ok);
    EnterIgnoresSupplies(c, p, Outlook(s, ok), scene.supplies);
    EnterKeepsShape(c, p, scene);
    var q := Enter(c, p, scene).player;
    if q.finite.Some? {
      LoopLeavesRest(c, q.engine, log, replies);
    } else {
      RefillTakes(c, q.engine, false, s.fifo, replies[0]);
      RestOfRest(log, q.engine.window.taken, C.RefillRemoves(c, q.engine, s.fifo));
    }
  }

  /** While nothing was refused, a call of the class is a call of the world, and its FIFO follows the world's log. */
  lemma CallAgrees(c: Config, w: World, s: Shared, replies: seq<Replies>, ok: bool)
    requires WorldInv(c, w) && w.intact && Unread(w.player, w.log, s.fifo) && |replies| == RefillLimit(c) + 1
    requires !RefusedDuring(c, w.player, SceneOf(c, w.player, s, replies, ok))
    ensures
      var scene := SceneOf(c, w.player, s, replies, ok);
      && Allowed(c, w, Call(scene))
      && Then(c, w, Call(scene)).player == Render(c, w.player, scene).player
      && Unread(Then(c, w, Call(scene)).player, Then(c, w, Call(scene)).log,
                SharedAfter(c, w.player, s, replies, ok).fifo)
  {
    hide Render, Enter, Refilling, PlayerInv, WellFormed, Sees, RefusedDuring, Leaves, SceneOf, ValidConfig;
    var scene := SceneOf(c, w.player, s, replies, ok);
    SceneIsSeen(c, w.player, w.log, s, replies, ok);
    RenderShape(c, w.player, scene);
    EnterKeepsShape(c, w.player, scene);
    if Enter(c, w.player, scene).Playing? {
      RefillsLeaveRest(c, w.player, w.log, s, replies, ok);
    }
    if Render(c, w.player, scene).acknowledged.None? {
      WindowAfter(c, w.player, scene);
    } else {
      OutcomeOfCompletion(c, w.player, scene);
    }
  }

  lemma OutcomeOfCompletion(c: Config, p: Player, s: Scene)
    requires WellFormed(c, p) && ValidScene(c, s) && Render(c, p, s).acknowledged.Some?
    ensures Render(c, p, s).acknowledged.value == Handoff.DRAINED
        || Render(c, p, s).acknowledged.value == Handoff.ADAPTER_ERROR
  {
    EnterKeepsShape(c, p, s);
    hide Enter, Play, Refilling, CachePosition;
    var q := Enter(c, p, s).player;
    if Enter(c, p, s).Playing? {
      var n := q.(engine := Refilling(c, q, s).engine);
      PlayShape(c, n, Refilling(c, q, s).outcome);
    }
  }

  // ---------------------------------------------------------------- whole runs of the endpoints

  /** The consumer's state and the ring's, between calls. */
  datatype Endpoints = Endpoints(player: Player, shared: Shared)

  /** A call of either endpoint. A producer call is described by what it put on the timeline and the ring it left. */
  datatype Move =
    | Produces(act: P.Act, after: Shared)
    | Renders(replies: seq<Replies>, ok: bool)
    | Resets(ok: bool)

  /** The stamp the producer would give next: none once a reset has changed the epoch under it. */
  function Pen(s: Shared): Option<Stamp> {
    P.Synced(s.stamp, s.epoch, s.serial)
  }

  /** The slots an act publishes. */
  function Published(s: Shared, act: P.Act): seq<Slot> {
    P.Extended(P.Timeline([], Pen(s)), act).log
  }

  const NOTHING: P.Act := P.Write([])

  /** What producer methods keep to: behind a closed gate nothing, otherwise an accepted act or the next finish. */
  predicate ProducerKeeps(before: Shared, act: P.Act, after: Shared) {
    var t := P.Timeline([], Pen(before));
    && P.Accepted(t, act) && after.fifo == before.fifo + Published(before, act) && Pen(after) == P.Extended(t, act).pen
    && after.serial == before.serial && after.epoch <= after.serial
    && (Handoff.Pending(before.word) ==> act == NOTHING && after.word == before.word)
    && (after.word == before.word || (act == NOTHING && after.word == NextFinish(before.word)
                                      && before.word / 4 + 1 < Handoff.TOKEN_LIMIT))
  }

  /** The word a finish stores: the next token, pending. */
  function NextFinish(word: nat): nat {
    (word / 4 + 1) * 4
  }

  lemma NothingPublished(s: Shared)
    ensures Published(s, NOTHING) == [] && P.Extended(P.Timeline([], Pen(s)), NOTHING).pen == Pen(s)
  {
    assert P.InkedAll([], Pen(s)) == [];
  }

  lemma ActPublishes(s: Shared, act: P.Act)
    ensures act.Write? ==> Published(s, act) == P.InkedAll(act.slots, Pen(s))
    ensures act.Tagged? ==>
      Published(s, act) == P.InkedAll(P.PcmSlots(act.pcm), Some(Stamp(act.generation, act.start)))
  {
  }

  // ---------------------------------------------------------------- what a call goes by

  /**
   Of the ring itself: without a boundary a call converts exactly if no record
   faults it, something is readable if it was quiet, and as much as the reserve
   unless it is primed already or the last reset failed.
   */
  lemma CallStartsExactly(c: Config, e: Endpoints, replies: seq<Replies>, ok: bool)
    requires e.player.finite.None? && !Handoff.Pending(e.shared.word)
    ensures
      var entry := Enter(c, e.player, SceneOf(c, e.player, e.shared, replies, ok));
      entry.Playing? <==>
        && !entry.player.engine.muteFault && (e.player.quiet ==> e.shared.fifo != [])
        && (e.player.primed || e.player.engine.resetFailed || |e.shared.fifo| >= c.settings.reserve)
  {
    EngineStall.PlayoutStartsExactly(c, e.player, SceneOf(c, e.player, e.shared, replies, ok));
    hide Enter, Supplies;
  }

  lemma {:induction false} AbsorbingCovers(c: Config, p: Player, records: seq<Interval>, g: nat, x: nat)
    requires Separated(p.mutes) && |p.mutes| <= c.muteRoom
    requires forall k | 0 <= k < |records| :: Nonempty(records[k])
    requires !Absorbing(c, p, records).engine.muteFault
    ensures Covers(Absorbing(c, p, records).mutes, g, x) <==> Covers(p.mutes, g, x) || Covers(records, g, x)
    decreases |records|
  {
    hide Inserted, Covers, Holds, Separated;
    if records == [] {
      NoneCover(g, x);
    } else {
      InsertAdds(p.mutes, c.muteRoom, records[0]);
      var r := Inserted(p.mutes, c.muteRoom, records[0]);
      if r.None? {
        FaultStays(c, p.(engine := p.engine.(muteFault := true)), records[1..]);
      } else {
        AbsorbingCovers(c, p.(mutes := r.value), records[1..], g, x);
        FirstCovers(records, g, x);
      }
    }
  }

  lemma NoneCover(g: nat, x: nat)
    ensures !Covers([], g, x)
  {
  }

  lemma FirstCovers(records: seq<Interval>, g: nat, x: nat)
    requires records != []
    ensures Covers(records, g, x) <==> Holds(records[0], g, x) || Covers(records[1..], g, x)
  {
    MuteStorage.CoversJoin([records[0]], records[1..], g, x);
    assert records == [records[0]] + records[1..];
    assert [records[0]][0] == records[0];
  }

  lemma {:induction false} FaultStays(c: Config, p: Player, records: seq<Interval>)
    requires p.engine.muteFault
    ensures Absorbing(c, p, records).engine.muteFault
    decreases |records|
  {
    if records != [] {
      var r := Inserted(p.mutes, c.muteRoom, records[0]);
      FaultStays(
        c, if r.Some? then p.(mutes := r.value) else p.(engine := p.engine.(muteFault := true)), records[1..]);
    }
  }

  /** And every record waiting in the mailbox is in force before anything of the call is played. */
  lemma CallHearsRecords(c: Config, e: Endpoints, replies: seq<Replies>, ok: bool, g: nat, x: nat)
    requires Separated(e.player.mutes) && |e.player.mutes| <= c.muteRoom
    requires forall k | 0 <= k < |e.shared.records| :: Nonempty(e.shared.records[k])
    ensures
      var q := Enter(c, e.player, SceneOf(c, e.player, e.shared, replies, ok)).player;
      !q.engine.muteFault ==>
        (Covers(q.mutes, g, x) <==> Covers(e.player.mutes, g, x) || Covers(e.shared.records, g, x))
  {
    var scene := SceneOf(c, e.player, e.shared, replies, ok);
    var p := Capture(e.player, scene);
    hide Absorbing, Covers, Separated, Supplies;
    if !Enter(c, e.player, scene).player.engine.muteFault {
      AbsorbingCovers(c, p, e.shared.records, g, x);
    }
  }

  // Each producer method on a ring is such a move.

  method Pushing(ring: Ring.Ring, input: seq<real>, ghost before: Shared)
    returns (accepted: nat, ghost act: P.Act)
    requires ring.Valid() && before == Of(ring)
    modifies ring, ring.storage
    ensures ring.Valid() && accepted == |Published(before, act)| && ProducerKeeps(before, act, Of(ring))
  {
    hide P.InkedAll, P.PcmSlots, P.Sound;
    accepted := ring.ProducerPush(input);
    act := P.Write(P.PcmSlots(input[..accepted]));
    ActPublishes(before, act);
    Unstamped(input[..accepted], accepted);
  }

  /** What is not yet inked has no stamp; and no samples are no slots. */
  lemma Unstamped(input: seq<real>, n: nat)
    ensures forall k | 0 <= k < |input| :: P.PcmSlots(input)[k].stamp.None?
    ensures forall k | 0 <= k < n :: P.GapSlots(n)[k].stamp.None?
    ensures P.PcmSlots([]) == [] && P.GapSlots(0) == []
  {
  }

  method Gapping(ring: Ring.Ring, samples: nat, ghost before: Shared) returns (accepted: nat, ghost act: P.Act)
    requires ring.Valid() && before == Of(ring)
    modifies ring, ring.storage
    ensures ring.Valid() && accepted == |Published(before, act)| && ProducerKeeps(before, act, Of(ring))
  {
    hide P.InkedAll, P.GapSlots, P.AllMissing;
    accepted := ring.ProducerGap(samples);
    act := P.Write(P.GapSlots(accepted));
    ActPublishes(before, act);
    Unstamped([], accepted);
  }

  method Tagging(ring: Ring.Ring, input: seq<real>, generation: nat, start: nat, spans: seq<Span>, ghost before: Shared)
    returns (r: Option<nat>, ghost act: P.Act)
    requires ring.Valid() && before == Of(ring)
    modifies ring, ring.storage, ring.mailbox, ring.mailbox.slots
    ensures ring.Valid() && ProducerKeeps(before, act, Of(ring))
    ensures |Published(before, act)| == if r.Some? then r.value else 0
    ensures act == NOTHING ||
        (r.Some? && r.value <= |input| && act == P.Tagged(generation, start, input[..r.value]))
  {
    hide P.InkedAll, P.PcmSlots, MuteStorage.Clipped;
    r := ring.ProducerPushTagged(input, generation, start, spans);
    act := if r.Some? && r.value > 0 then P.Tagged(generation, start, input[..r.value]) else NOTHING;
    NothingPublished(before);
    ActPublishes(before, act);
  }

  method Muting(ring: Ring.Ring, generation: nat, spans: seq<Span>, ghost before: Shared) returns (r: Option<nat>)
    requires ring.Valid() && before == Of(ring)
    modifies ring, ring.mailbox, ring.mailbox.slots
    ensures ring.Valid() && ProducerKeeps(before, NOTHING, Of(ring))
  {
    r := ring.ProducerMute(generation, spans);
    NothingPublished(before);
  }

  method Finishing(ring: Ring.Ring, ghost before: Shared) returns (token: Option<nat>)
    requires ring.Valid() && before == Of(ring)
    modifies ring
    ensures ring.Valid() && ProducerKeeps(before, NOTHING, Of(ring))
    ensures Of(ring).word == if token.Some? then NextFinish(before.word) else before.word
  {
    token := ring.ProducerFinish();
    NothingPublished(before);
  }

  predicate Fits(c: Config, e: Endpoints, m: Move) {
    match m
    case Produces(act, after) => ProducerKeeps(e.shared, act, after)
    case Renders(replies, _) => |replies| == RefillLimit(c) + 1
    case Resets(_) => true
  }

  /** What the methods are proved to leave: RenderSample, ConsumerReset, and any producer method. */
  function Moved(c: Config, e: Endpoints, m: Move): Endpoints
    requires WellFormed(c, e.player) && Fits(c, e, m)
  {
    match m
    case Produces(_, after) => e.(shared := after)
    case Renders(replies, ok) =>
      SceneIsValid(c, e, replies, ok);
      Endpoints(Render(c, e.player, SceneOf(c, e.player, e.shared, replies, ok)).player,
                SharedAfter(c, e.player, e.shared, replies, ok))
    case Resets(ok) => Endpoints(Reset(e.player, ok), Abandoned(e.shared))
  }

  lemma SceneIsValid(c: Config, e: Endpoints, replies: seq<Replies>, ok: bool)
    requires |replies| == RefillLimit(c) + 1
    ensures ValidScene(c, SceneOf(c, e.player, e.shared, replies, ok))
  {
  }

  /** The same call seen by the world; one that publishes nothing it does not see. */
  function EventsOf(c: Config, e: Endpoints, m: Move): (r: seq<Event>)
    ensures |r| <= 1
  {
    match m
    case Produces(act, _) => if Published(e.shared, act) == [] then [] else [Arrive(Published(e.shared, act))]
    case Renders(replies, ok) => [Call(SceneOf(c, e.player, e.shared, replies, ok))]
    case Resets(ok) => [ResetCall(ok)]
  }

  /** Same player; until a refused slot the FIFO is the unread rest; a captured boundary is the one still pending. */
  predicate Agrees(c: Config, w: World, e: Endpoints) {
    && WorldInv(c, w) && w.player == e.player
    && (w.intact ==> Unread(e.player, w.log, e.shared.fifo))
    && (e.player.finite.Some? ==>
          Handoff.Pending(e.shared.word) && e.player.finite.value.token * 4 == e.shared.word)
  }

  /** A boundary held after a call is the one pending before it, and the word has not moved. */
  lemma BoundaryFollowsWord(c: Config, e: Endpoints, replies: seq<Replies>, ok: bool)
    requires WellFormed(c, e.player) && |replies| == RefillLimit(c) + 1
    requires e.player.finite.Some? ==>
      Handoff.Pending(e.shared.word) && e.player.finite.value.token * 4 == e.shared.word
    ensures
      var n := Moved(c, e, Renders(replies, ok));
      n.player.finite.Some? ==> Handoff.Pending(n.shared.word) && n.player.finite.value.token * 4 == n.shared.word
  {
    var scene := SceneOf(c, e.player, e.shared, replies, ok);
    EnterKeepsShape(c, e.player, scene);
    FiniteAfter(c, e.player, scene);
    RenderShape(c, e.player, scene);
    hide Enter, Render, Leaves, WellFormed, Supplies;
  }

  lemma FiniteAfter(c: Config, p: Player, s: Scene)
    requires WellFormed(c, p) && ValidScene(c, s)
    ensures
      var n := Render(c, p, s).player;
      n.finite.Some? ==> Capture(p, s).finite.Some? && n.finite.value.token == Capture(p, s).finite.value.token
  {
    EnterKeepsShape(c, p, s);
    var q := Enter(c, p, s).player;
    hide Enter, Play, DrainFinite, Complete, Refilling, CachePosition;
    if Enter(c, p, s).Ending? {
      DrainShape(c, q, s.resetOk);
    } else if Enter(c, p, s).Playing? {
      var n := q.(engine := Refilling(c, q, s).engine);
      PlayShape(c, n, Refilling(c, q, s).outcome);
      if q.finite.Some? {
        CompleteShape(c, n, true, s.resetOk);
        DrainShape(c, n, s.resetOk);
      }
    }
  }

  lemma RenderAgrees(c: Config, w: World, e: Endpoints, replies: seq<Replies>, ok: bool)
    requires Agrees(c, w, e) && |replies| == RefillLimit(c) + 1
    ensures
      var scene := SceneOf(c, e.player, e.shared, replies, ok);
      && Allowed(c, w, Call(scene))
      && Agrees(c, Then(c, w, Call(scene)), Moved(c, e, Renders(replies, ok)))
  {
    hide Render, Enter, Refilling, PlayerInv, WellFormed, Sees, RefusedDuring, Leaves, SceneOf, ValidConfig, Reached;
    var scene := SceneOf(c, e.player, e.shared, replies, ok);
    SceneIsValid(c, e, replies, ok);
    if w.intact {
      SceneIsSeen(c, w.player, w.log, e.shared, replies, ok);
      if !RefusedDuring(c, w.player, scene) {
        CallAgrees(c, w, e.shared, replies, ok);
      }
    }
    StepKeeps(c, w, Call(scene));
    BoundaryFollowsWord(c, e, replies, ok);
    RenderShape(c, e.player, scene);
    if Render(c, w.player, scene).acknowledged.Some? {
      OutcomeOfCompletion(c, w.player, scene);
    }
  }

  lemma MoveAgrees(c: Config, w: World, e: Endpoints, m: Move)
    requires Agrees(c, w, e) && Fits(c, e, m)
    ensures WellFormed(c, e.player) && Possible(c, w, EventsOf(c, e, m))
    ensures Agrees(c, Run(c, w, EventsOf(c, e, m)), Moved(c, e, m))
  {
    hide PlayerInv, WellFormed, ValidConfig, Render, SceneOf, SharedAfter, Sees, ValidScene, Reached, RefusedDuring;
    match m {
      case Produces(act, after) =>
        NothingPublished(e.shared);
        hide Published, P.Extended;
        if Published(e.shared, act) != [] {
          StepKeeps(c, w, Arrive(Published(e.shared, act)));
        }
      case Renders(replies, ok) => RenderAgrees(c, w, e, replies, ok) by { hide Agrees; }
      case Resets(ok) => StepKeeps(c, w, ResetCall(ok));
    }
  }

  predicate Plausible(c: Config, e: Endpoints, moves: seq<Move>)
    decreases |moves|
  {
    moves == [] ||
    (WellFormed(c, e.player) && Fits(c, e, moves[0]) && Plausible(c, Moved(c, e, moves[0]), moves[1..]))
  }

  function MovedAll(c: Config, e: Endpoints, moves: seq<Move>): Endpoints
    requires Plausible(c, e, moves)
    decreases |moves|
  {
    if moves == [] then e else MovedAll(c, Moved(c, e, moves[0]), moves[1..])
  }

  function WorldEvents(c: Config, e: Endpoints, moves: seq<Move>): seq<Event>
    requires Plausible(c, e, moves)
    decreases |moves|
  {
    if moves == [] then []
    else EventsOf(c, e, moves[0]) + WorldEvents(c, Moved(c, e, moves[0]), moves[1..])
  }

  lemma AtMostOne(c: Config, w: World, events: seq<Event>, rest: seq<Event>)
    requires |events| <= 1 && Possible(c, w, events) && Possible(c, Run(c, w, events), rest)
    ensures Possible(c, w, events + rest) && Run(c, w, events + rest) == Run(c, Run(c, w, events), rest)
  {
    hide Then, Allowed;
    if events == [] {
      assert events + rest == rest;
    } else {
      assert (events + rest)[1..] == rest;
    }
  }

  lemma NothingHappens(c: Config, w: World)
    ensures Possible(c, w, []) && Run(c, w, []) == w
  {
  }

  /** Every run of the endpoints is a run of the world, and they agree at its end. */
  lemma {:induction false} RunAgrees(c: Config, w: World, e: Endpoints, moves: seq<Move>)
    requires Agrees(c, w, e) && Plausible(c, e, moves)
    ensures Possible(c, w, WorldEvents(c, e, moves))
    ensures Agrees(c, Run(c, w, WorldEvents(c, e, moves)), MovedAll(c, e, moves))
    decreases |moves|
  {
    hide Agrees, Moved, Fits, Possible, Run, EventsOf;
    if moves != [] {
      MoveAgrees(c, w, e, moves[0]);
      var events := EventsOf(c, e, moves[0]);
      RunAgrees(c, Run(c, w, events), Moved(c, e, moves[0]), moves[1..]);
      AtMostOne(c, w, events, WorldEvents(c, Moved(c, e, moves[0]), moves[1..]));
    } else {
      NothingHappens(c, w);
    }
  }

  /**
   So the account of the run theorems is an account of the class and its ring:
   from creation, through any calls of either endpoint, until a slot is refused.
   */
  lemma EndpointsConserveStream(c: Config, start: Shared, moves: seq<Move>)
    requires ValidConfig(c) && c.settings.outputRate <= PlcSpec.RATE_MAX && start.fifo == []
    requires Plausible(c, Endpoints(Created(c), start), moves)
    ensures
      var e, events := MovedAll(c, Endpoints(Created(c), start), moves),
                       WorldEvents(c, Endpoints(Created(c), start), moves);
      && Possible(c, World(Created(c), [], true), events)
      && var w := Run(c, World(Created(c), [], true), events);
        && w.player == e.player
        && (w.intact ==>
              var window := e.player.engine.window;
              && window.taken + |e.shared.fifo| == |w.log|
              && window.fed + Waiting(window) + Pcm(e.shared.fifo) == Pcm(w.log))
  {
    var w, e := World(Created(c), [], true), Endpoints(Created(c), start);
    CreatedInv(c);
    assert Agrees(c, w, e);
    hide Created, WorldInv, WellFormed;
    RunAgrees(c, w, e, moves);
    RunConservesStream(c, WorldEvents(c, e, moves));
  }
}
