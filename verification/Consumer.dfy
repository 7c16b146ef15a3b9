/**
 The consumer endpoint in place: a whole rendered sample, the ending of a finite
 burst and a reset, each proved to do what Engine says of the player it holds.
 */
module Consumer {
  import opened Common
  import opened Mute
  import opened MuteStorage
  import opened Engine
  import C = Conversion
  import E = Engine
  import EnginePlay
  import Handoff
  import Lookahead
  import PlcSpec
  import Ring
  import Settings

  /** The ring's whole state: what both endpoints share, and what only the producer writes. */
  datatype Shared = Shared(word: nat, serial: nat, fifo: seq<Slot>, records: seq<Interval>,
                           stamp: Option<Stamp>, epoch: nat, discarded: nat)

  ghost function Of(ring: Ring.Ring): Shared
    requires ring.Valid()
    reads ring, ring.storage, ring.mailbox, ring.mailbox.slots
  {
    Shared(ring.finish, ring.resetSerial, ring.Fifo(), ring.mailbox.Contents(),
           ring.producerStamp, ring.producerEpoch, ring.discarded)
  }

  /** The stores of a completion: epoch, after a failure the discards, then the word. */
  function Acknowledged(s: Shared, token: nat, failed: bool): Shared {
    s.(serial := s.serial + 1,
       fifo := if failed then [] else s.fifo, records := if failed then [] else s.records,
       word := token * 4 + if failed then Handoff.ADAPTER_ERROR else Handoff.DRAINED)
  }

  function Settles(s: Shared, token: nat, r: Rendered): Shared {
    if r.acknowledged.None? then s
    else Acknowledged(s, token, r.acknowledged.value == Handoff.ADAPTER_ERROR)
  }

  /** The stores of a reset from outside: everything unread discarded, the epoch, and a pending boundary cancelled. */
  function Abandoned(s: Shared): Shared {
    s.(fifo := [], records := [], serial := s.serial + 1,
       word := if Handoff.Pending(s.word) then s.word + Handoff.CANCELLED else s.word)
  }

  /** What successive refills of one call see, each what the last one left. */
  function Supplies(c: Config, e: Engine, ending: bool, fifo: seq<Slot>, replies: seq<Replies>): (r: seq<Supply>)
    ensures |r| == |replies|
    decreases |replies|
  {
    if replies == [] then []
    else
      var first := C.Seen(c, e, fifo, replies[0]);
      [first] + Supplies(c, E.Refill(c, e, ending, first).engine, ending, fifo[C.RefillRemoves(c, e, fifo)..],
                         replies[1..])
  }

  /** The FIFO after the retries of a finite tail. */
  function LoopLeaves(c: Config, e: Engine, fifo: seq<Slot>, replies: seq<Replies>): seq<Slot>
    requires replies != []
    decreases |replies|
  {
    var r, rest := E.Refill(c, e, true, C.Seen(c, e, fifo, replies[0])), fifo[C.RefillRemoves(c, e, fifo)..];
    if r.outcome.Starved? && |replies| > 1 then LoopLeaves(c, r.engine, rest, replies[1..]) else rest
  }

  /** Where a call goes once faults, quiet and priming are settled. */
  datatype Gate = Hold(failed: bool) | End | Go

  function GateOf(e: Entry): Gate {
    match e
    case Held(_, failed) => Hold(failed)
    case Ending(_) => End
    case Playing(_) => Go
  }

  /** What one call sees of the ring before it converts anything. */
  function Outlook(s: Shared, resetOk: bool): Scene {
    Scene(s.word, |s.fifo|, |s.fifo|, |s.fifo|, s.records, [], resetOk)
  }

  /** The scene a whole call acts in: the outlook, and refills that each see what the last one left. */
  function SceneOf(c: Config, p: Player, s: Shared, replies: seq<Replies>, resetOk: bool): Scene {
    var q := Enter(c, p, Outlook(s, resetOk)).player;
    Outlook(s, resetOk).(supplies := Supplies(c, q.engine, q.finite.Some?, s.fifo, replies))
  }

  /** The FIFO after the refills of one call. */
  function Leaves(c: Config, q: Player, fifo: seq<Slot>, replies: seq<Replies>): seq<Slot>
    requires replies != []
  {
    if q.finite.Some? then LoopLeaves(c, q.engine, fifo, replies) else fifo[C.RefillRemoves(c, q.engine, fifo)..]
  }

  /** The ring after a call: records and slots taken, and a completion's stores. */
  function SharedAfter(c: Config, p: Player, s: Shared, replies: seq<Replies>, resetOk: bool): Shared
    requires WellFormed(c, p) && |replies| == RefillLimit(c) + 1
  {
    var scene := SceneOf(c, p, s, replies, resetOk);
    var entry, r := Enter(c, p, scene), Render(c, p, scene);
    var left := if entry.Playing? then Leaves(c, entry.player, s.fifo, replies) else s.fifo;
    Settles(s.(records := [], fifo := left),
            if entry.player.finite.Some? then entry.player.finite.value.token else 0, r)
  }

  /** Entering does not look at what the refills will see. */
  lemma EnterIgnoresSupplies(c: Config, p: Player, s: Scene, supplies: seq<Supply>)
    ensures Enter(c, p, s.(supplies := supplies)) == Enter(c, p, s)
  {
    hide Absorbing;
  }

  /** One more retry, or the last. */
  lemma LoopUnfold(c: Config, e: Engine, fifo: seq<Slot>, replies: seq<Replies>)
    requires replies != []
    ensures
      var r, rest := E.Refill(c, e, true, C.Seen(c, e, fifo, replies[0])), fifo[C.RefillRemoves(c, e, fifo)..];
      && RefillLoop(c, e, Supplies(c, e, true, fifo, replies)) ==
           (if r.outcome.Starved? && |replies| > 1
            then RefillLoop(c, r.engine, Supplies(c, r.engine, true, rest, replies[1..])) else r)
      && LoopLeaves(c, e, fifo, replies) ==
           (if r.outcome.Starved? && |replies| > 1 then LoopLeaves(c, r.engine, rest, replies[1..]) else rest)
  {
    hide E.Refill, C.Seen, C.RefillRemoves;
    var all := Supplies(c, e, true, fifo, replies);
    var first := C.Seen(c, e, fifo, replies[0]);
    assert all[1..] == Supplies(c, E.Refill(c, e, true, first).engine, true, fifo[C.RefillRemoves(c, e, fifo)..],
                                replies[1..]);
  }

  class Consumer {
    const config: Config
    const conversion: C.Conversion
    const history: History
    const lookahead: Lookahead.Lookahead
    var finite: Option<Finite>
    var quiet: bool
    var primed: bool

    /** Everything a call may change of the consumer. */
    ghost const footprint: set<object>

    /** The parts share nothing. */
    ghost predicate Separate() {
      && footprint == {this, conversion, conversion.input, conversion.output, history} + lookahead.footprint
      && {this as object, history, conversion, conversion.input, conversion.output} !! lookahead.footprint
    }

    ghost predicate Valid()
      reads footprint
    {
      && Separate()
      && conversion.Valid() && conversion.config == config && EnginePlay.CacheBehind(conversion.Now())
      && history.Valid() && history.capacity == config.muteRoom
      && lookahead.Valid() && (lookahead.plc != null ==> lookahead.plc.rate == config.settings.outputRate)
      && (finite.Some? ==>
            && finite.value.token < Handoff.TOKEN_LIMIT
            && (finite.value.draining.Some? ==> finite.value.draining.value <= lookahead.positions.Length))
    }

    /** The player as Engine sees it. */
    ghost function Now(): Player
      requires Valid()
      reads footprint
    {
      Player(conversion.Now(), finite, quiet, primed, history.entries, lookahead.Concealing(), lookahead.Queue())
    }

    /** Take over freshly made parts that share nothing. */
    constructor (c: Config, converting: C.Conversion, mutes: History, waiting: Lookahead.Lookahead)
      requires converting.Valid() && converting.config == c && mutes.Valid() && mutes.capacity == c.muteRoom
      requires waiting.Valid() && (waiting.plc != null ==> waiting.plc.rate == c.settings.outputRate)
      requires {mutes as object, converting, converting.input, converting.output} !! waiting.footprint
      requires converting.Now().cache.pcm == []
      ensures Valid() && config == c
      ensures footprint == {this, converting, converting.input, converting.output, mutes} + waiting.footprint
      ensures Now() == Player(converting.Now(), None, false, false, mutes.entries, waiting.Concealing(),
                              waiting.Queue())
    {
      config, conversion, history, lookahead := c, converting, mutes, waiting;
      finite, quiet, primed := None, false, false;
      footprint := {this, converting, converting.input, converting.output, mutes} + waiting.footprint;
    }

    /** The converting half of a consumer, nothing converted yet. */
    static method CreateParts(c: Config)
      returns (converting: C.Conversion, mutes: History, waiting: Lookahead.Lookahead)
      requires ValidConfig(c) && 1 <= c.settings.outputRate <= PlcSpec.RATE_MAX
      ensures converting.Valid() && converting.config == c
      ensures mutes.Valid() && mutes.capacity == c.muteRoom && mutes.entries == []
      ensures converting.Now() == Engine(EMPTY_WINDOW, Cache([], 0, 0, false, 0, 0), Settings.RESTING, false, false)
      ensures waiting.Valid() && (waiting.plc != null ==> waiting.plc.rate == c.settings.outputRate)
      ensures {mutes as object, converting, converting.input, converting.output} !! waiting.footprint
      ensures
        var engaged, rate := c.settings.plc.G711AppendixI?, c.settings.outputRate;
        && waiting.Concealing() == (if engaged then Some(PlcSpec.Fresh(rate)) else None)
        && waiting.Queue() == seq(if engaged then PlcSpec.Delay(rate) else 0, _ => None)
    {
      hide *;
      converting := new C.Conversion(c);
      mutes := new History(c.muteRoom);
      waiting := new Lookahead.Lookahead(c.settings.plc.G711AppendixI?, c.settings.outputRate);
    }

    /** Everything is allocated before the endpoint runs. */
    static method Create(c: Config) returns (consumer: Consumer)
      requires ValidConfig(c) && c.settings.outputRate <= PlcSpec.RATE_MAX
      ensures consumer.Valid() && consumer.config == c && consumer.Now() == EnginePlay.Created(c) && fresh(consumer)
    {
      CreatedIs(c);
      assert c.settings.outputRate >= 1;
      hide *;
      var converting, mutes, waiting := CreateParts(c);
      consumer := new Consumer(c, converting, mutes, waiting);
    }

    static lemma CreatedIs(c: Config)
      requires ValidConfig(c)
      ensures
        var engaged, rate := c.settings.plc.G711AppendixI?, c.settings.outputRate;
        EnginePlay.Created(c) ==
          Player(Engine(EMPTY_WINDOW, Cache([], 0, 0, false, 0, 0), Settings.RESTING, false, false),
                 None, false, false, [],
                 if engaged then Some(PlcSpec.Fresh(rate)) else None,
                 seq(if engaged then PlcSpec.Delay(rate) else 0, _ => None))
    {
    }

    lemma Shaped()
      requires Valid()
      ensures WellFormed(config, Now())
    {
    }

    /** Is this support muted? */
    method Muted(at: Option<Position>) returns (muted: bool)
      requires Valid()
      ensures muted == MutedAt(Now(), at)
    {
      muted := history.Muted(at);
    }

    /** Forget intervals the emitted support has passed. */
    method Retire(at: Option<Position>)
      requires Valid()
      modifies footprint
      ensures Valid() && Now() == old(Now()).(mutes := RetiredAt(old(Now()).mutes, at))
    {
      history.Retire(at);
    }

    /** Take the next converted sample and its support, if the refill made one ready. */
    method TakeOutput(outcome: Outcome) returns (at: Option<Position>, input: Option<real>)
      requires Valid() && (outcome.Ready? ==> conversion.outputPending > 0)
      modifies footprint
      ensures Valid() && Now() == old(Now()).(engine := PopCache(old(Now()).engine, outcome))
      ensures at == if outcome.Ready? then Support(old(Now()).engine) else None
      ensures input == ConvertedSample(old(Now()).engine, outcome)
    {
      ghost var e := conversion.Now();
      assert conversion.outputPending == |e.cache.pcm|;
      at, input := None, None;
      if outcome.Ready? {
        assert conversion.cacheCount > 0 && conversion.cacheStart <= conversion.cacheEnd;
        at := conversion.CacheSupport();
        var missing := conversion.outputMissing;
        assert missing == e.cache.missing;
        var sample := conversion.TakeCached();
        PoppedBehind(e);
        input := if missing then None else Some(Canonical(sample));
      }
    }

    static lemma PoppedBehind(e: Engine)
      requires EnginePlay.CacheBehind(e)
      ensures EnginePlay.CacheBehind(PopCache(e, Ready))
    {
    }

    /** Conceal and delay the sample; after a failed reset everything is silence. */
    method Conceal(input: Option<real>) returns (played: real, isPcm: bool)
      requires Valid()
      modifies footprint
      ensures Valid()
      ensures
        var p := old(Now());
        if p.engine.resetFailed then Now() == p && played == 0.0 && !isPcm
        else if p.plc.None? then
          Now() == p && played == (if input.Some? then input.value else 0.0) && isPcm == input.Some?
        else
          PlcSpec.Valid(config.settings.outputRate, p.plc.value)
          && var call := PlcSpec.Process(config.settings.outputRate, p.plc.value, input);
          Now() == p.(plc := Some(call.state)) && PlcSpec.Played(played, isPcm) == call.played
    {
      hide PlcSpec.Process, PlcSpec.Valid, EnginePlay.CacheBehind, ValidConfig;
      if conversion.resetFailed {
        played, isPcm := 0.0, false;
      } else {
        played, isPcm := lookahead.Process(input);
      }
    }

    /** The new support waits with its sample; the oldest comes out with its own. */
    method ExchangePosition(at: Option<Position>) returns (oldest: Option<Position>)
      requires Valid()
      modifies footprint
      ensures Valid() && oldest == (old(Now()).positions + [at])[0]
      ensures Now() == old(Now()).(positions := (old(Now()).positions + [at])[1..])
    {
      hide PlcSpec.Valid, EnginePlay.CacheBehind, ValidConfig;
      oldest := lookahead.Exchange(at);
    }

    /** The concealer and the position ring move together. */
    method Delay(at: Option<Position>, input: Option<real>)
      returns (played: real, isPcm: bool, oldest: Option<Position>)
      requires Valid() && WellFormed(config, Now())
      modifies footprint
      ensures Valid()
      ensures
        var p := old(Now());
        var call := if p.engine.resetFailed || p.plc.None? then None
                    else Some(PlcSpec.Process(config.settings.outputRate, p.plc.value, input));
        && oldest == (p.positions + [at])[0]
        && Now() == p.(plc := if call.Some? then Some(call.value.state) else p.plc,
                       positions := (p.positions + [at])[1..])
        && PlcSpec.Played(played, isPcm) ==
             if p.engine.resetFailed then PlcSpec.Played(0.0, false)
             else if call.Some? then call.value.played
             else PlcSpec.Played(if input.Some? then input.value else 0.0, input.Some?)
    {
      hide PlcSpec.Process, PlcSpec.Valid, Valid, Now;
      played, isPcm := Conceal(input);
      oldest := ExchangePosition(at);
    }

    /** Silence a muted sample and forget what it has passed. */
    method Release(at: Option<Position>, played: real) returns (sample: real)
      requires Valid()
      modifies footprint
      ensures Valid() && sample == (if MutedAt(old(Now()), at) then 0.0 else played)
      ensures Now() == old(Now()).(mutes := RetiredAt(old(Now()).mutes, at))
    {
      hide Valid, Now, MutedAt, RetiredAt;
      var silent := Muted(at);
      sample := if silent then 0.0 else played;
      Retire(at);
    }

    /** Play one output of the player p: mute, conceal, delay, and mute again what comes out. */
    method PlayOutput(outcome: Outcome, ghost p: Player) returns (sample: real, isPcm: bool)
      requires Valid() && p == Now() && WellFormed(config, p) && (outcome.Ready? ==> conversion.outputPending > 0)
      modifies footprint
      ensures Valid()
      ensures
        var r := Play(config, p, outcome);
        Now() == r.player && sample == r.sample && isPcm == r.fromPcm
    {
      hide Support, PopCache, ConvertedSample, MutedAt, RetiredAt, PlcSpec.Process, PlcSpec.Valid, PlcSpec.Delay, Now,
        Valid;
      var at, input := TakeOutput(outcome);
      PopKeepsReset(p.engine, outcome);
      var muted := Muted(at);
      SameMutes(p, Now(), at);
      var delayedAt;
      sample, isPcm, delayedAt := Delay(at, if muted then Some(0.0) else input);
      SameMutes(p, Now(), delayedAt);
      sample := Release(delayedAt, sample);
    }

    static lemma SameMutes(p: Player, q: Player, at: Option<Position>)
      requires p.mutes == q.mutes
      ensures MutedAt(p, at) == MutedAt(q, at)
    {
    }

    static lemma PopKeepsReset(e: Engine, outcome: Outcome)
      ensures PopCache(e, outcome).resetFailed == e.resetFailed
    {
    }

    /** The consumer and the ring share nothing. */
    ghost predicate Apart(ring: Ring.Ring) {
      footprint !! {ring as object, ring.storage, ring.mailbox, ring.mailbox.slots}
    }

    /** Merge one popped record; a refusal is a fault. */
    method AbsorbOne(record: Interval)
      requires Valid() && Nonempty(record)
      modifies footprint
      ensures Valid()
      ensures
        var p := old(Now());
        var r := Inserted(p.mutes, config.muteRoom, record);
        Now() == if r.Some? then p.(mutes := r.value) else p.(engine := p.engine.(muteFault := true))
    {
      hide Now, Valid, Inserted;
      var ok := InsertRecord(record);
      if !ok {
        RaiseFault();
      }
    }

    method InsertRecord(record: Interval) returns (ok: bool)
      requires Valid() && Nonempty(record)
      modifies footprint
      ensures Valid()
      ensures
        var r := Inserted(old(Now()).mutes, config.muteRoom, record);
        ok == r.Some? && Now() == old(Now()).(mutes := if ok then r.value else old(Now()).mutes)
    {
      hide Inserted, PlcSpec.Valid, EnginePlay.CacheBehind, ValidConfig;
      ok := history.Insert(record);
    }

    method RaiseFault()
      requires Valid()
      modifies footprint
      ensures Valid() && Now() == old(Now()).(engine := old(Now()).engine.(muteFault := true))
    {
      BehindWhenFaulted(conversion.Now());
      conversion.muteFault := true;
      hide EnginePlay.CacheBehind, PlcSpec.Valid, ValidConfig;
    }

    static lemma BehindWhenFaulted(e: Engine)
      requires EnginePlay.CacheBehind(e)
      ensures EnginePlay.CacheBehind(e.(muteFault := true))
    {
    }

    /** Pop and merge one record, if there is one. */
    method AbsorbNext(ring: Ring.Ring) returns (found: bool)
      requires Valid() && ring.Valid() && Apart(ring)
      modifies footprint, ring.mailbox`read
      ensures Valid() && ring.Valid() && ring.Fifo() == old(ring.Fifo())
      ensures found == (old(ring.mailbox.Contents()) != [])
      ensures
        var p, records := old(Now()), old(ring.mailbox.Contents());
        if records == [] then Now() == p && ring.mailbox.Contents() == []
        else
          var r := Inserted(p.mutes, config.muteRoom, records[0]);
          && Now() == (if r.Some? then p.(mutes := r.value) else p.(engine := p.engine.(muteFault := true)))
          && ring.mailbox.Contents() == records[1..]
    {
      hide Now, Valid, Inserted;
      var record := ring.mailbox.Pop();
      found := record.Some?;
      if found {
        AbsorbOne(record.value);
      }
    }

    /** Drain the mailbox, a bounded number of records. */
    method AbsorbMutes(ring: Ring.Ring)
      requires Valid() && ring.Valid() && Apart(ring)
      modifies footprint, ring.mailbox`read
      ensures Valid() && ring.Valid() && ring.Fifo() == old(ring.Fifo()) && ring.mailbox.Contents() == []
      ensures Now() == Absorbing(config, old(Now()), old(ring.mailbox.Contents()))
    {
      ghost var p, records := Now(), ring.mailbox.Contents();
      hide Now, Valid, Inserted;
      for i := 0 to QUEUE
        invariant Valid() && ring.Valid() && ring.Fifo() == old(ring.Fifo())
        invariant |ring.mailbox.Contents()| <= QUEUE - i
        invariant Absorbing(config, Now(), ring.mailbox.Contents()) == Absorbing(config, p, records)
      {
        var found := AbsorbNext(ring);
        if !found {
          break;
        }
      }
    }

    /** Adopt a pending boundary once: what was taken and what is readable is its burst. */
    method CaptureBoundary(ring: Ring.Ring, ghost s: Scene)
      requires Valid() && ring.Valid() && ring.finish == s.word && |ring.Fifo()| == s.atCapture
      modifies footprint
      ensures Valid() && Now() == Capture(old(Now()), s)
    {
      hide PlcSpec.Valid, EnginePlay.CacheBehind, ValidConfig;
      if ring.finish != 0 && ring.finish % 4 == 0 && finite.None? {
        var available := ring.Available();
        assert conversion.Now().window.taken == conversion.sourceTaken;
        finite := Some(Finite(ring.finish / 4, conversion.sourceTaken + available, None));
        quiet := false;
      }
    }

    method ResetConversion(ok: bool)
      requires Valid()
      modifies footprint
      ensures Valid() && Now() == old(Now()).(engine := Cleared(old(Now()).engine, ok))
    {
      hide PlcSpec.Valid, ValidConfig;
      conversion.Reset(ok);
      EnginePlay.NothingCachedIsBehind(conversion.Now());
    }

    method ResetMutes()
      requires Valid()
      modifies footprint
      ensures Valid() && Now() == old(Now()).(finite := None, primed := false, mutes := [])
    {
      hide PlcSpec.Valid, ValidConfig, EnginePlay.CacheBehind;
      finite, primed := None, false;
      history.Clear();
    }

    method ResetLookahead()
      requires Valid()
      modifies footprint
      ensures Valid()
      ensures
        var p := old(Now());
        Now() == p.(plc := if p.plc.Some? then Some(PlcSpec.Reset(p.plc.value)) else None,
                    positions := seq(|p.positions|, _ => None))
    {
      hide PlcSpec.Valid, PlcSpec.Reset, ValidConfig, EnginePlay.CacheBehind;
      lookahead.Reset();
    }

    /** Empty engine, mutes and lookahead whatever the adapter answers; quiet is not touched. */
    method Reset(ok: bool)
      requires Valid()
      modifies footprint
      ensures Valid() && Now() == E.Reset(old(Now()), ok)
    {
      hide Now, Valid, Cleared, PlcSpec.Reset;
      ResetConversion(ok);
      ResetMutes();
      ResetLookahead();
    }

    /** Reset, report the boundary, and after a failure discard the rest of its burst. */
    method CompleteFinite(ring: Ring.Ring, adapterFailed: bool, resetOk: bool, ghost p: Player, ghost was: Shared)
      returns (failed: bool)
      requires Valid() && ring.Valid() && Apart(ring) && finite.Some? && p == Now() && was == Of(ring)
      modifies footprint, ring, ring.mailbox
      ensures Valid() && ring.Valid() && p.finite.Some?
      ensures
        var r := Complete(p, adapterFailed, resetOk);
        && Rendered(Now(), 0.0, false, failed, r.acknowledged) == r
        && Of(ring) == Settles(was, p.finite.value.token, r)
    {
      hide *;
      TokenFacts();
      failed := !resetOk || adapterFailed;
      CompleteIs(p, adapterFailed, resetOk);
      SettlesAs(was, finite.value.token, Complete(p, adapterFailed, resetOk), failed);
      ResetAndAcknowledge(ring, finite.value.token, resetOk, failed);
    }

    method ResetAndAcknowledge(ring: Ring.Ring, token: nat, ok: bool, failed: bool)
      requires Valid() && ring.Valid() && Apart(ring) && token < Handoff.TOKEN_LIMIT
      modifies footprint, ring, ring.mailbox
      ensures Valid() && ring.Valid() && Now() == E.Reset(old(Now()), ok).(quiet := true)
      ensures Of(ring) == Acknowledged(old(Of(ring)), token, failed)
    {
      hide Now, Valid, E.Reset, Of;
      ResetBeside(ring, ok);
      Acknowledge(ring, token, failed);
    }

    /** Resetting the consumer does not touch the ring. */
    method ResetBeside(ring: Ring.Ring, ok: bool)
      requires Valid() && ring.Valid() && Apart(ring)
      modifies footprint
      ensures Valid() && Now() == E.Reset(old(Now()), ok).(quiet := true)
      ensures ring.Valid() && Of(ring) == old(Of(ring))
    {
      hide Now, Valid, E.Reset, Of;
      ResetQuietly(ok);
    }

    static lemma SettlesAs(was: Shared, token: nat, r: Rendered, failed: bool)
      requires r.acknowledged == Some(if failed then Handoff.ADAPTER_ERROR else Handoff.DRAINED)
      ensures Settles(was, token, r) == Acknowledged(was, token, failed)
    {
    }

    lemma TokenFacts()
      requires Valid() && finite.Some?
      ensures finite.value.token < Handoff.TOKEN_LIMIT && Now().finite == finite
    {
    }

    static lemma CompleteIs(p: Player, adapterFailed: bool, ok: bool)
      requires p.finite.Some?
      ensures
        var failed := !ok || adapterFailed;
        Complete(p, adapterFailed, ok) == Rendered(E.Reset(p, ok).(quiet := true), 0.0, false, failed,
          Some(if failed then Handoff.ADAPTER_ERROR else Handoff.DRAINED))
    {
    }

    method ResetQuietly(ok: bool)
      requires Valid()
      modifies footprint
      ensures Valid() && Now() == E.Reset(old(Now()), ok).(quiet := true)
    {
      hide *;
      Reset(ok);
      SetQuiet();
    }

    method SetQuiet()
      requires Valid()
      modifies footprint
      ensures Valid() && Now() == old(Now()).(quiet := true)
    {
      quiet := true;
    }

    /** The consumer's stores of a completion. */
    method Acknowledge(ring: Ring.Ring, token: nat, failed: bool)
      requires ring.Valid() && token < Handoff.TOKEN_LIMIT
      modifies ring, ring.mailbox
      ensures ring.Valid() && Of(ring) == Acknowledged(old(Of(ring)), token, failed)
    {
      ring.resetSerial := ring.resetSerial + 1;
      if failed {
        ring.DropUnread();
        ring.mailbox.Reset();
      }
      ring.finish := token * 4 + if failed then Handoff.ADAPTER_ERROR else Handoff.DRAINED;
    }

    method SetDraining(left: nat)
      requires Valid() && finite.Some? && left <= lookahead.positions.Length
      modifies footprint
      ensures Valid() && Now() == old(Now()).(finite := Some(old(finite).value.(draining := Some(left))))
          && finite == Now().finite
    {
      finite := Some(finite.value.(draining := Some(left)));
    }

    method DrainLookahead() returns (played: real, isPcm: bool, at: Option<Position>)
      requires Valid() && WellFormed(config, Now()) && lookahead.plc != null
      modifies footprint
      ensures Valid()
      ensures
        var p := old(Now());
        && p.plc.Some? && p.positions != [] && at == p.positions[0]
        && var call := PlcSpec.Drain(config.settings.outputRate, p.plc.value);
        && PlcSpec.Played(played, isPcm) == call.played
        && Now() == p.(plc := Some(call.state), positions := p.positions[1..] + [at])
    {
      hide PlcSpec.Drain, ValidConfig, EnginePlay.CacheBehind;
      played, isPcm, at := lookahead.DrainOldest();
    }

    lemma RetainedFacts()
      requires Valid() && finite.Some? && Left(Now()) > 0
      ensures lookahead.plc != null && Left(Now()) <= lookahead.positions.Length
      ensures Left(Now()) ==
        if finite.value.draining.Some? then finite.value.draining.value else lookahead.positions.Length
      ensures Now().finite == finite
    {
    }

    /** Playing a retained sample is the drain of the concealer, one fewer left, and the last mute. */
    static lemma DrainUnfold(c: Config, p: Player)
      requires WellFormed(c, p) && p.finite.Some? && Left(p) > 0
      ensures p.plc.Some? && p.positions != []
      ensures
        var call, at := PlcSpec.Drain(c.settings.outputRate, p.plc.value), p.positions[0];
        E.DrainFinite(c, p, true) ==
          Rendered(p.(finite := Some(p.finite.value.(draining := Some(Left(p) - 1))), plc := Some(call.state),
                      positions := p.positions[1..] + [at], mutes := RetiredAt(p.mutes, at)),
                   if MutedAt(p, at) then 0.0 else call.played.sample, call.played.fromPcm, false, None)
    {
    }

    /** Play one retained sample of the ending burst. */
    method PlayRetained(ghost p: Player) returns (sample: real, isPcm: bool)
      requires Valid() && p == Now() && WellFormed(config, p) && finite.Some? && Left(p) > 0
      modifies footprint
      ensures Valid()
      ensures E.DrainFinite(config, p, true) == Rendered(Now(), sample, isPcm, false, None)
    {
      hide *;
      RetainedFacts();
      DrainUnfold(config, p);
      var left := if finite.value.draining.Some? then finite.value.draining.value else lookahead.positions.Length;
      SetDraining(left - 1);
      Shaped();
      ghost var q := Now();
      SameMutes(p, q, p.positions[0]);
      sample, isPcm := ReleaseOldest(q);
    }

    /** Take the oldest sample out of the lookahead, muted by its own support. */
    method ReleaseOldest(ghost p: Player) returns (sample: real, isPcm: bool)
      requires Valid() && p == Now() && WellFormed(config, p) && lookahead.plc != null
      modifies footprint
      ensures Valid() && p.plc.Some? && p.positions != []
      ensures
        var call, at := PlcSpec.Drain(config.settings.outputRate, p.plc.value), p.positions[0];
        && Now() == p.(plc := Some(call.state), positions := p.positions[1..] + [at], mutes := RetiredAt(p.mutes, at))
        && sample == (if MutedAt(p, at) then 0.0 else call.played.sample) && isPcm == call.played.fromPcm
    {
      hide PlcSpec.Drain, PlcSpec.Valid, PlcSpec.Delay, MutedAt, RetiredAt, Now, Valid;
      var played, at;
      played, isPcm, at := DrainLookahead();
      SameMutes(p, Now(), at);
      sample := Release(at, played);
    }

    /** Play out the lookahead, then complete the burst. */
    method DrainFinite(ring: Ring.Ring, resetOk: bool, ghost p: Player, ghost was: Shared)
      returns (sample: real, isPcm: bool, failed: bool)
      requires Valid() && ring.Valid() && Apart(ring) && finite.Some?
      requires p == Now() && was == Of(ring) && WellFormed(config, p) && p.finite == finite
      modifies footprint, ring, ring.mailbox
      ensures Valid() && ring.Valid()
      ensures
        var r := E.DrainFinite(config, p, resetOk);
        && Rendered(Now(), sample, isPcm, failed, r.acknowledged) == r
        && Of(ring) == Settles(was, p.finite.value.token, r)
    {
      assert |p.positions| == lookahead.positions.Length;
      var left := if finite.value.draining.Some? then finite.value.draining.value else lookahead.positions.Length;
      DrainCases(config, p, resetOk);
      assert left == Left(p);
      hide *;
      if left != 0 {
        sample, isPcm := PlayRetained(p);
        failed := false;
      } else {
        failed := CompleteFinite(ring, false, resetOk, p, was);
        sample, isPcm := 0.0, false;
      }
    }

    /** An ending either plays a retained sample, whatever a reset would do, or completes. */
    static lemma DrainCases(c: Config, p: Player, resetOk: bool)
      requires WellFormed(c, p) && p.finite.Some?
      ensures Left(p) > 0 ==>
          && E.DrainFinite(c, p, resetOk) == E.DrainFinite(c, p, true)
          && E.DrainFinite(c, p, true).acknowledged.None?
      ensures Left(p) == 0 ==> E.DrainFinite(c, p, resetOk) == Complete(p, false, resetOk)
    {
      hide PlcSpec.Drain;
    }

    /** One refill of the cache. */
    method Refill(ring: Ring.Ring, ending: bool, r: Replies, ghost p: Player, ghost was: Shared)
      returns (outcome: Outcome)
      requires Valid() && ring.Valid() && Apart(ring) && p == Now() && was == Of(ring)
      modifies footprint, ring
      ensures Valid() && ring.Valid() && (outcome.Ready? ==> conversion.outputPending > 0)
      ensures
        var out := E.Refill(config, p.engine, ending, C.Seen(config, p.engine, was.fifo, r));
        && Now() == p.(engine := out.engine) && outcome == out.outcome
        && Of(ring) == was.(fifo := was.fifo[C.RefillRemoves(config, p.engine, was.fifo)..])
    {
      hide E.Refill, C.RefillRemoves, C.Seen, ValidConfig, EnginePlay.CacheBehind;
      EnginePlay.RefillBehind(config, p.engine, ending, C.Seen(config, p.engine, was.fifo, r));
      outcome := conversion.RefillOutput(ring, ending, r);
      assert |conversion.Now().cache.pcm| == conversion.outputPending;
    }

    /** Between two refills of one call: nothing but the engine and the FIFO has moved, toward the loop's result. */
    ghost predicate Trying(ring: Ring.Ring, p: Player, was: Shared, out: Refilled, leaves: seq<Slot>,
                           outcome: Outcome, left: seq<Replies>)
      reads footprint, ring, ring.storage, ring.mailbox, ring.mailbox.slots
    {
      && Valid() && ring.Valid() && Apart(ring) && (outcome.Ready? ==> conversion.outputPending > 0)
      && Now() == p.(engine := Now().engine) && Of(ring) == was.(fifo := Of(ring).fifo)
      && Pursues(config, out, leaves, Now().engine, Of(ring).fifo, outcome, left)
    }

    method Retry(ring: Ring.Ring, r: Replies, ghost p: Player, ghost was: Shared, ghost out: Refilled,
                 ghost leaves: seq<Slot>, ghost left: seq<Replies>)
      returns (outcome: Outcome)
      requires Trying(ring, p, was, out, leaves, Starved, left) && left != [] && r == left[0]
      modifies footprint, ring
      ensures Trying(ring, p, was, out, leaves, outcome, left[1..])
    {
      hide Pursues, Now, Valid, Of, E.Refill, C.Seen, C.RefillRemoves;
      ghost var q, s := Now(), Of(ring);
      Pursued(config, out, leaves, q.engine, s.fifo, Starved, left);
      outcome := Refill(ring, true, r, q, s);
    }

    lemma PursuitOver(ring: Ring.Ring, p: Player, was: Shared, out: Refilled, leaves: seq<Slot>,
                      outcome: Outcome, left: seq<Replies>)
      requires Trying(ring, p, was, out, leaves, outcome, left) && (!outcome.Starved? || left == [])
      ensures Valid() && ring.Valid() && (outcome.Ready? ==> conversion.outputPending > 0)
      ensures Now() == p.(engine := out.engine) && outcome == out.outcome && Of(ring) == was.(fifo := leaves)
    {
      hide Now, Valid, Of;
    }

    /** A finite tail retries starvation a bounded number of times. */
    method RefillRepeatedly(ring: Ring.Ring, replies: seq<Replies>, ghost p: Player, ghost was: Shared)
      returns (outcome: Outcome)
      requires Valid() && ring.Valid() && Apart(ring) && p == Now() && was == Of(ring) && replies != []
      modifies footprint, ring
      ensures Valid() && ring.Valid() && (outcome.Ready? ==> conversion.outputPending > 0)
      ensures
        var out := RefillLoop(config, p.engine, Supplies(config, p.engine, true, was.fifo, replies));
        && Now() == p.(engine := out.engine) && outcome == out.outcome
        && Of(ring) == was.(fifo := LoopLeaves(config, p.engine, was.fifo, replies))
    {
      ghost var out := RefillLoop(config, p.engine, Supplies(config, p.engine, true, was.fifo, replies));
      ghost var leaves := LoopLeaves(config, p.engine, was.fifo, replies);
      assert Trying(ring, p, was, out, leaves, Starved, replies) by {
        hide RefillLoop, Supplies, LoopLeaves, Now, Valid, Of;
      }
      hide *;
      outcome := Retry(ring, replies[0], p, was, out, leaves, replies);
      var i := 1;
      while outcome.Starved? && i < |replies|
        invariant 1 <= i <= |replies|
        invariant Trying(ring, p, was, out, leaves, outcome, replies[i..])
      {
        assert replies[i..][1..] == replies[i + 1..];
        outcome := Retry(ring, replies[i], p, was, out, leaves, replies[i..]);
        i := i + 1;
      }
      PursuitOver(ring, p, was, out, leaves, outcome, replies[i..]);
    }

    method SetPrimed()
      requires Valid()
      modifies footprint
      ensures Valid() && Now() == old(Now()).(primed := true)
    {
      primed := true;
    }

    method Wake()
      requires Valid()
      modifies footprint
      ensures Valid() && Now() == old(Now()).(quiet := false)
    {
      quiet := false;
    }

    /** The fields the gate looks at, as the player has them. */
    lemma GateFacts()
      requires Valid()
      ensures
        var p := Now();
        && p.finite == finite && p.quiet == quiet && p.primed == primed
        && p.engine.muteFault == conversion.muteFault && p.engine.resetFailed == conversion.resetFailed
    {
    }

    /** Playout waits for the reserve, unless a boundary says that no more will come. */
    method PrimePlayout(available: nat, ghost p: Player, ghost s: Scene) returns (gate: Gate)
      requires Valid() && p == Now() && available == s.atPriming
      modifies footprint
      ensures Valid()
      ensures Now() == E.Prime(config, p, s).player && gate == GateOf(E.Prime(config, p, s))
    {
      hide Now, Valid;
      GateFacts();
      if !primed && !conversion.resetFailed && available < config.settings.reserve && finite.None? {
        gate := Hold(false);
      } else {
        gate := if finite.Some? && (finite.value.end == 0 || finite.value.draining.Some?) then End else Go;
        if !primed && !conversion.resetFailed {
          SetPrimed();
        }
      }
    }

    /** Faults, quiet, then priming: whether playout may go on. */
    method Gatekeep(ring: Ring.Ring, ghost p: Player, ghost s: Scene) returns (gate: Gate)
      requires Valid() && ring.Valid() && Apart(ring) && p == Now()
      requires |ring.Fifo()| == s.atQuiet == s.atPriming
      modifies footprint
      ensures Valid() && ring.Valid() && Of(ring) == old(Of(ring))
      ensures Now() == E.Admit(config, p, s).player && gate == GateOf(E.Admit(config, p, s))
    {
      hide Now, Valid, Of, E.Prime;
      GateFacts();
      if conversion.muteFault {
        gate := Hold(true);
      } else {
        var available := ring.Available();
        if quiet && available == 0 {
          gate := Hold(conversion.resetFailed);
        } else {
          Wake();
          gate := PrimePlayout(available, Now(), s);
        }
      }
    }

    /** Capture the boundary, drain the mailbox, and see whether playout may go on. */
    method EnterCall(ring: Ring.Ring, ghost p: Player, ghost was: Shared, ghost s: Scene) returns (gate: Gate)
      requires Valid() && ring.Valid() && Apart(ring) && p == Now() && was == Of(ring)
      requires s.word == was.word && s.atCapture == s.atQuiet == s.atPriming == |was.fifo| && s.records == was.records
      modifies footprint, ring.mailbox`read
      ensures Valid() && ring.Valid() && Of(ring) == was.(records := [])
      ensures Now() == Enter(config, p, s).player && gate == GateOf(Enter(config, p, s))
    {
      CaptureKeepsRing(ring, was);
      hide Now, Valid, Capture, Absorbing, E.Admit;
      CaptureBoundary(ring, s);
      AbsorbMutes(ring);
      gate := Gatekeep(ring, Now(), s);
    }

    lemma CaptureKeepsRing(ring: Ring.Ring, was: Shared)
      requires ring.Valid() && was == Of(ring)
      ensures ring.finish == was.word && ring.Fifo() == was.fifo && ring.mailbox.Contents() == was.records
    {
    }

    /** With the cache refilled: complete, end or play. */
    method Conclude(ring: Ring.Ring, outcome: Outcome, resetOk: bool, ghost p: Player, ghost was: Shared)
      returns (sample: real, isPcm: bool, failed: bool)
      requires Valid() && ring.Valid() && Apart(ring) && p == Now() && was == Of(ring) && WellFormed(config, p)
      requires outcome.Ready? ==> conversion.outputPending > 0
      modifies footprint, ring, ring.mailbox
      ensures Valid() && ring.Valid()
      ensures
        var r := Resolve(config, p, outcome, resetOk);
        && Rendered(Now(), sample, isPcm, failed, r.acknowledged) == r
        && Of(ring) == Settles(was, if p.finite.Some? then p.finite.value.token else 0, r)
    {
      GateFacts();
      hide Now, Valid, Of, Play, Complete, E.DrainFinite, Settles, CachePosition, PlcSpec.Valid;
      if finite.Some? && !outcome.Ready? {
        failed := CompleteFinite(ring, true, resetOk, p, was);
        sample, isPcm := 0.0, false;
      } else {
        var past := BeyondEnd(outcome, p);
        if past {
          sample, isPcm, failed := DrainFinite(ring, resetOk, p, was);
        } else {
          sample, isPcm, failed := PlayUnlessFaulted(ring, outcome, p, was);
        }
      }
    }

    /** The next output lies at or past the captured end. */
    method BeyondEnd(outcome: Outcome, ghost p: Player) returns (past: bool)
      requires Valid() && p == Now() && (finite.Some? ==> outcome.Ready?)
      requires outcome.Ready? ==> conversion.outputPending > 0
      ensures past == PastEnd(p)
    {
      past := false;
      if finite.Some? {
        ghost var e := conversion.Now();
        assert e.cache.pcm != [] && conversion.cacheCount > 0 && conversion.cacheStart <= conversion.cacheEnd;
        hide CachePosition;
        var at := conversion.CacheSourcePosition();
        past := at >= finite.value.end * BILLION;
      }
    }

    /** A mute fault plays silence as a failure; otherwise one output is played. */
    method PlayUnlessFaulted(ring: Ring.Ring, outcome: Outcome, ghost p: Player, ghost was: Shared)
      returns (sample: real, isPcm: bool, failed: bool)
      requires Valid() && ring.Valid() && Apart(ring) && p == Now() && was == Of(ring) && WellFormed(config, p)
      requires outcome.Ready? ==> conversion.outputPending > 0
      modifies footprint
      ensures Valid() && ring.Valid() && Of(ring) == was
      ensures
        var r := if p.engine.muteFault then Silent(p, true) else Play(config, p, outcome);
        Rendered(Now(), sample, isPcm, failed, None) == r
    {
      GateFacts();
      hide Now, Valid, Of, PlcSpec.Valid;
      if conversion.muteFault {
        sample, isPcm, failed := 0.0, false, true;
      } else {
        sample, isPcm := PlayOutput(outcome, p);
        failed := outcome.AdapterError?;
      }
    }

    /** Refill the cache: once, or for a finite tail until it settles. */
    method RefillFor(ring: Ring.Ring, replies: seq<Replies>, ghost p: Player, ghost was: Shared, ghost s: Scene)
      returns (outcome: Outcome)
      requires Valid() && ring.Valid() && Apart(ring) && p == Now() && was == Of(ring) && replies != []
      requires s.supplies == Supplies(config, p.engine, p.finite.Some?, was.fifo, replies)
      modifies footprint, ring
      ensures Valid() && ring.Valid() && (outcome.Ready? ==> conversion.outputPending > 0)
      ensures
        var out := Refilling(config, p, s);
        && Now() == p.(engine := out.engine) && outcome == out.outcome
        && Of(ring) == was.(fifo := Leaves(config, p, was.fifo, replies))
    {
      GateFacts();
      hide Now, Valid, Of, E.Refill, RefillLoop, LoopLeaves, C.Seen, C.RefillRemoves;
      if finite.Some? {
        outcome := RefillRepeatedly(ring, replies, p, was);
      } else {
        outcome := Refill(ring, false, replies[0], p, was);
      }
    }

    /** Convert and play, or end the finite burst. */
    method ConvertCall(ring: Ring.Ring, replies: seq<Replies>, resetOk: bool, ghost p: Player, ghost was: Shared,
                       ghost s: Scene)
      returns (sample: real, isPcm: bool, failed: bool)
      requires Valid() && ring.Valid() && Apart(ring) && p == Now() && was == Of(ring) && WellFormed(config, p)
      requires |replies| == RefillLimit(config) + 1 && s.resetOk == resetOk
      requires s.supplies == Supplies(config, p.engine, p.finite.Some?, was.fifo, replies)
      modifies footprint, ring, ring.mailbox
      ensures Valid() && ring.Valid()
      ensures
        var r := Advance(config, p, s);
        && Rendered(Now(), sample, isPcm, failed, r.acknowledged) == r
        && Of(ring) == Settles(was.(fifo := Leaves(config, p, was.fifo, replies)),
                               if p.finite.Some? then p.finite.value.token else 0, r)
    {
      hide Now, Valid, Of, Refilling, Resolve, Leaves, Settles, WellFormed, Supplies;
      var outcome := RefillFor(ring, replies, p, was, s);
      Shaped();
      sample, isPcm, failed := Conclude(ring, outcome, resetOk, Now(), Of(ring));
    }

    /** One output sample: the whole call. */
    method RenderSample(ring: Ring.Ring, replies: seq<Replies>, resetOk: bool, ghost p: Player, ghost was: Shared)
      returns (sample: real, isPcm: bool, failed: bool)
      requires Valid() && ring.Valid() && Apart(ring) && p == Now() && was == Of(ring) && WellFormed(config, p)
      requires |replies| == RefillLimit(config) + 1
      modifies footprint, ring, ring.mailbox
      ensures Valid() && ring.Valid()
      ensures
        var r := Render(config, p, SceneOf(config, p, was, replies, resetOk));
        Rendered(Now(), sample, isPcm, failed, r.acknowledged) == r
      ensures Of(ring) == SharedAfter(config, p, was, replies, resetOk)
    {
      ghost var s := SceneOf(config, p, was, replies, resetOk);
      EnterIgnoresSupplies(config, p, Outlook(was, resetOk), s.supplies);
      RenderCases(config, p, was, replies, resetOk);
      EnterKeepsShape(config, p, s);
      hide Now, Valid, Of, Render, Enter, SharedAfter, WellFormed, Supplies, Advance, E.DrainFinite, Settles, Leaves;
      var gate := EnterCall(ring, p, was, s);
      Shaped();
      GateFacts();
      ghost var q, left := Now(), Of(ring);
      match gate {
        case Hold(refused) => sample, isPcm, failed := 0.0, false, refused;
        case End => sample, isPcm, failed := DrainFinite(ring, resetOk, q, left);
        case Go => sample, isPcm, failed := ConvertCall(ring, replies, resetOk, q, left, s);
      }
    }

    /** A call and its effect on the ring, gate by gate. */
    static lemma RenderCases(c: Config, p: Player, was: Shared, replies: seq<Replies>, resetOk: bool)
      requires WellFormed(c, p) && |replies| == RefillLimit(c) + 1
      ensures
        var s := SceneOf(c, p, was, replies, resetOk);
        var e, emptied := Enter(c, p, s), was.(records := []);
        && WellFormed(c, e.player) && ValidScene(c, s)
        && (match e
            case Held(q, refused) =>
              Render(c, p, s) == Silent(q, refused) && SharedAfter(c, p, was, replies, resetOk) == emptied
            case Ending(q) =>
              && q.finite.Some? && Render(c, p, s) == E.DrainFinite(c, q, resetOk)
              && SharedAfter(c, p, was, replies, resetOk) == Settles(emptied, q.finite.value.token, Render(c, p, s))
            case Playing(q) =>
              && Render(c, p, s) == Advance(c, q, s)
              && SharedAfter(c, p, was, replies, resetOk) ==
                   Settles(emptied.(fifo := Leaves(c, q, was.fifo, replies)),
                           if q.finite.Some? then q.finite.value.token else 0, Render(c, p, s)))
    {
      var s := SceneOf(c, p, was, replies, resetOk);
      EnterKeepsShape(c, p, s);
      hide Enter, E.DrainFinite, Advance, Leaves, Supplies;
    }

    /** End the burst from outside: discard what is unread, reset, and cancel a pending boundary. */
    method ConsumerReset(ring: Ring.Ring, ok: bool, ghost p: Player, ghost was: Shared)
      requires Valid() && ring.Valid() && Apart(ring) && p == Now() && was == Of(ring)
      modifies footprint, ring, ring.mailbox
      ensures Valid() && ring.Valid() && Now() == E.Reset(p, ok)
      ensures Of(ring) == Abandoned(was)
    {
      hide Now, Valid, E.Reset;
      ring.DropUnread();
      ring.mailbox.Reset();
      Reset(ok);
      CancelPending(ring);
    }

    method CancelPending(ring: Ring.Ring)
      requires ring.Valid()
      modifies ring
      ensures ring.Valid()
      ensures
        var was := old(Of(ring));
        Of(ring) == was.(serial := was.serial + 1,
                         word := if Handoff.Pending(was.word) then was.word + Handoff.CANCELLED else was.word)
    {
      ring.resetSerial := ring.resetSerial + 1;
      if ring.finish != 0 && ring.finish % 4 == 0 {
        ring.finish := ring.finish + Handoff.CANCELLED;
      }
    }
  }

  /** The retries so far lead to the whole loop's result: finished, or with the rest of the replies. */
  ghost predicate Pursues(c: Config, out: Refilled, leaves: seq<Slot>, e: Engine, fifo: seq<Slot>, outcome: Outcome,
                          left: seq<Replies>) {
    if outcome.Starved? && left != []
    then out == RefillLoop(c, e, Supplies(c, e, true, fifo, left)) && leaves == LoopLeaves(c, e, fifo, left)
    else out == Refilled(e, outcome) && leaves == fifo
  }

  lemma Pursued(c: Config, out: Refilled, leaves: seq<Slot>, e: Engine, fifo: seq<Slot>, outcome: Outcome,
                left: seq<Replies>)
    requires Pursues(c, out, leaves, e, fifo, outcome, left) && outcome.Starved? && left != []
    ensures
      var r, rest := E.Refill(c, e, true, C.Seen(c, e, fifo, left[0])), fifo[C.RefillRemoves(c, e, fifo)..];
      Pursues(c, out, leaves, r.engine, rest, r.outcome, left[1..])
  {
    hide E.Refill, C.Seen, C.RefillRemoves, Supplies, LoopLeaves, RefillLoop;
    LoopUnfold(c, e, fifo, left);
  }
}
