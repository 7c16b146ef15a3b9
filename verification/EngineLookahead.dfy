/** The two rings of the lookahead, the concealer's samples and the player's positions, move in lockstep. */
module EngineLookahead {
  import opened Common
  import opened Mute
  import opened Engine
  import opened EnginePlay
  import opened EngineEnding
  import opened EngineMute
  import PlcSpec

  /** What is remembered of one converted sample while it waits: whether it was real, and its support. */
  datatype Tag = Tag(fromPcm: bool, at: Option<Position>)

  /** The waiting samples' tags, oldest first, read from two separately indexed rings. */
  function Waiting(c: Config, p: Player): (r: seq<Tag>)
    requires WellFormed(c, p) && p.plc.Some?
    ensures |r| == PlcSpec.Delay(c.settings.outputRate)
  {
    seq(|p.positions|, i requires 0 <= i < |p.positions| => Tag(p.plc.value.flags[i], p.positions[i]))
  }

  lemma ProcessMovesFlags(rate: nat, s: PlcSpec.State, input: Option<real>)
    requires PlcSpec.Valid(rate, s)
    ensures s.flags != []
    ensures
      var call := PlcSpec.Process(rate, s, input);
      call.played.fromPcm == s.flags[0] && call.state.flags == s.flags[1..] + [input.Some?]
  {
    PlcSpec.Geometry(rate);
    hide PlcSpec.Fill, CeilDiv, PlcSpec.Oscillating;
  }

  lemma PlayMovesRings(c: Config, n: Player, outcome: Outcome)
    requires WellFormed(c, n) && n.plc.Some? && !n.engine.resetFailed
    ensures
      var r, e := Play(c, n, outcome), PlayEmission(c, n, outcome);
      && r.player.plc.Some? && n.plc.value.flags != []
      && r.fromPcm == n.plc.value.flags[0] && e.at == n.positions[0]
      && r.player.plc.value.flags == n.plc.value.flags[1..] + [Given(n, outcome).Some?]
      && r.player.positions == n.positions[1..] + [Entering(n, outcome)]
  {
    ProcessMovesFlags(c.settings.outputRate, n.plc.value, Given(n, outcome));
    hide PlcSpec.Process, PlcSpec.Valid, CeilDiv, Support, PopCache, MutedAt, ConvertedSample;
  }

  /** Playing takes the oldest tag out and puts the new sample's own tag in. */
  lemma PlayMovesTags(c: Config, n: Player, outcome: Outcome)
    requires WellFormed(c, n) && n.plc.Some? && !n.engine.resetFailed
    ensures
      var r, e := Play(c, n, outcome), PlayEmission(c, n, outcome);
      && WellFormed(c, r.player) && r.player.plc.Some?
      && Tag(r.fromPcm, e.at) == Waiting(c, n)[0]
      && Waiting(c, r.player) == Waiting(c, n)[1..] + [Tag(Given(n, outcome).Some?, Entering(n, outcome))]
  {
    hide Play, PlayEmission, Given, Entering, PlcSpec.Delay;
    PlayShape(c, n, outcome);
    PlayMovesRings(c, n, outcome);
  }

  lemma DrainMovesTags(c: Config, n: Player, ok: bool)
    requires WellFormed(c, n) && n.finite.Some? && Left(n) > 0
    ensures
      var r, e := DrainFinite(c, n, ok), DrainEmission(c, n).value;
      && n.plc.Some? && WellFormed(c, r.player) && r.player.plc.Some?
      && Tag(r.fromPcm, e.at) == Waiting(c, n)[0]
      && Waiting(c, r.player) == Waiting(c, n)[1..] + [Tag(false, e.at)]
  {
    DrainStep(c, n, ok);
    hide DrainFinite, WellFormed, PlcSpec.Delay;
  }

  /** One call that plays a sample moves the whole lookahead by one. */
  lemma TagStep(c: Config, p: Player, s: Scene)
    requires WellFormed(c, p) && ValidScene(c, s) && p.plc.Some?
    requires Emitted(c, p, s).Some? && !p.engine.resetFailed
    ensures
      var r, e := Render(c, p, s), Emitted(c, p, s).value;
      && WellFormed(c, r.player) && r.player.plc.Some? && !r.player.engine.resetFailed
      && Tag(r.fromPcm, e.at) == Waiting(c, p)[0]
      && Waiting(c, r.player)[..|Waiting(c, p)| - 1] == Waiting(c, p)[1..]
  {
    hide Enter, Refilling, Play, DrainFinite, PlayEmission, Waiting, CachePosition, PopCache;
    EnterKeepsShape(c, p, s);
    var q := Enter(c, p, s).player;
    SameTags(c, p, q);
    PlcSpec.LookaheadFits(c.settings.outputRate);
    if Enter(c, p, s).Ending? {
      DrainMovesTags(c, q, s.resetOk);
      DrainShape(c, q, s.resetOk);
    } else {
      var r := Refilling(c, q, s);
      var n := q.(engine := r.engine);
      RefillingKeepsReset(c, q, s);
      SameTags(c, p, n);
      if PastEnd(n) {
        DrainMovesTags(c, n, s.resetOk);
        DrainShape(c, n, s.resetOk);
      } else {
        PlayMovesTags(c, n, r.outcome);
        PlayShape(c, n, r.outcome);
        PopKeepsReset(n.engine, r.outcome);
      }
    }
  }

  lemma PopKeepsReset(e: Engine, outcome: Outcome)
    ensures PopCache(e, outcome).resetFailed == e.resetFailed
  {
  }

  lemma SameTags(c: Config, p: Player, q: Player)
    requires WellFormed(c, p) && WellFormed(c, q) && p.plc.Some? && q.plc == p.plc && q.positions == p.positions
    ensures Waiting(c, q) == Waiting(c, p)
  {
  }

  lemma RefillingKeepsReset(c: Config, q: Player, s: Scene)
    requires s.supplies != []
    ensures Refilling(c, q, s).engine.resetFailed == q.engine.resetFailed
  {
    if q.finite.Some? {
      LoopKeepsReset(c, q.engine, s.supplies);
    } else {
      RefillKeepsReset(c, q.engine, false, s.supplies[0]);
    }
  }

  lemma {:induction false} LoopKeepsReset(c: Config, e: Engine, supplies: seq<Supply>)
    requires supplies != []
    ensures RefillLoop(c, e, supplies).engine.resetFailed == e.resetFailed
    decreases |supplies|
  {
    RefillKeepsReset(c, e, true, supplies[0]);
    hide Refill;
    var r := Refill(c, e, true, supplies[0]);
    if r.outcome.Starved? && |supplies| > 1 {
      LoopKeepsReset(c, r.engine, supplies[1..]);
    }
  }

  lemma RefillKeepsReset(c: Config, e: Engine, finite: bool, s: Supply)
    ensures Refill(c, e, finite, s).engine.resetFailed == e.resetFailed
  {
    hide Fill, Room, Convert;
    var filled := e.(window := Pad(Fill(c, e.window, s.offered, Room(c, e.window)).window, finite));
    var steered := Steered(c, filled, finite, s.available,
                           if s.replies.queued.Some? then s.replies.queued.value else 0);
    ConvertKeepsReset(c, steered, s.replies);
  }

  lemma ConvertKeepsReset(c: Config, e: Engine, r: Replies)
    ensures Convert(c, e, r).engine.resetFailed == e.resetFailed
  {
    hide Locate, See, LiesInGap, Consume;
  }

  // ---------------------------------------------------------------- every tag emerges with its sample

  /** Calls that each play a sample. */
  predicate PlaysEach(c: Config, p: Player, scenes: seq<Scene>)
    decreases |scenes|
  {
    scenes == [] ||
    (WellFormed(c, p) && p.plc.Some? && !p.engine.resetFailed && ValidScene(c, scenes[0])
     && Emitted(c, p, scenes[0]).Some?
     && PlaysEach(c, Render(c, p, scenes[0]).player, scenes[1..]))
  }

  function TagsPlayed(c: Config, p: Player, scenes: seq<Scene>): (r: seq<Tag>)
    requires PlaysEach(c, p, scenes)
    ensures |r| == |scenes|
    decreases |scenes|
  {
    if scenes == [] then []
    else
      var r := Render(c, p, scenes[0]);
      [Tag(r.fromPcm, Emitted(c, p, scenes[0]).value.at)] + TagsPlayed(c, r.player, scenes[1..])
  }

  /** Whatever mix of playing and ending follows, waiting samples come out in order, each with its own tag. */
  lemma {:induction false} TagsEmergeInOrder(c: Config, p: Player, scenes: seq<Scene>, i: nat)
    requires PlaysEach(c, p, scenes) && WellFormed(c, p) && p.plc.Some?
    requires i < |scenes| && i < PlcSpec.Delay(c.settings.outputRate)
    ensures TagsPlayed(c, p, scenes)[i] == Waiting(c, p)[i]
    decreases i
  {
    hide Render, Waiting, Emitted;
    TagStep(c, p, scenes[0]);
    var n := Render(c, p, scenes[0]).player;
    if i > 0 {
      TagsEmergeInOrder(c, n, scenes[1..], i - 1);
      assert Waiting(c, n)[i - 1] == Waiting(c, n)[..|Waiting(c, p)| - 1][i - 1] == Waiting(c, p)[1..][i - 1];
    }
  }
}
