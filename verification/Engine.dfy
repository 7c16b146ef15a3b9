/**
 The consumer endpoint on values: one refill, one rendered sample, one drain or
 reset, as functions of the state and of everything the consumer does not own.

 What it does not own comes in as parameters: the slots its takes obtain (any
 prefix of what the producer has published by then, see Spsc.dfy), the counts it
 reads, and the adapter's raw replies, which may be anything. The assumptions
 some properties need about replies are predicates, named where they are used.
 */
module Engine {
  import opened Common
  import opened Mute
  import Handoff
  import PlcSpec
  import Settings

  /** Billionths of a source frame, the unit of every source position. */
  const BILLION: nat := 1_000_000_000
  /** Frames one refill normally offers, and outputs it may make. */
  const QUANTUM: nat := 256

  /** A published slot; of a missing one the converter gets a zero. */
  datatype Slot = Slot(pcm: real, missing: bool, stamp: Option<Stamp>)
  datatype GapSpan = GapSpan(start: nat, end: nat)
  datatype Base = Base(generation: nat, offset: int)

  /** Construction-time sizes: FIR history in frames, and the room the preallocated lists really got. */
  datatype Config = Config(settings: Settings.Settings, history: nat, gapRoom: nat, muteRoom: nat)

  predicate ValidConfig(c: Config) {
    && Settings.Validate(c.settings)
    && c.gapRoom >= c.settings.capacity * 2 + c.history + 2
    && c.muteRoom >= c.settings.capacity * 2 + c.history + 2
  }

  /** Retries of a starved finite refill. */
  function RefillLimit(c: Config): nat {
    c.settings.capacity * 2 + c.history + QUANTUM
  }

  /**
   Source side of the consumer. fed and floor exist only in the model: the PCM
   the converter has accepted, and the furthest source frame it was seen to reach.
   */
  datatype Window = Window(
    input: seq<real>, padding: bool, taken: nat, accepted: nat, padded: nat,
    gaps: seq<GapSpan>, base: Option<Base>, zeroProgress: bool,
    fed: seq<real>, floor: int)

  /** Converted samples not yet played, and where the batch lies on the source clock. */
  datatype Cache = Cache(pcm: seq<real>, offset: nat, count: nat, missing: bool, start: int, end: int)

  datatype Engine = Engine(
    window: Window, cache: Cache, control: Settings.Control, muteFault: bool, resetFailed: bool)

  datatype Outcome = Ready | Starved | AdapterError
  datatype Refilled = Refilled(engine: Engine, outcome: Outcome)

  const EMPTY_WINDOW: Window := Window([], false, 0, 0, 0, [], None, false, [], 0)

  // ---------------------------------------------------------------- adapter replies

  datatype Converted = Converted(used: nat, generated: seq<real>)

  /** Raw answers to one refill's queries, in the order they are asked; None is an error code. */
  datatype Replies = Replies(
    queued: Option<nat>, delayForGaps: Option<int>, delayBefore: Option<int>,
    processed: Option<Converted>, delayAfter: Option<int>)

  /** A delay reply is accepted only if it is no error and not negative. */
  function InputDelay(raw: Option<int>): Option<nat> {
    if raw.Some? && raw.value >= 0 then Some(raw.value) else None
  }

  /** A conversion reply is accepted only within the lengths that were offered. */
  function Process(input: nat, output: nat, ratio: real, raw: Option<Converted>): Option<Converted> {
    if output == 0 || ratio <= 0.0 then None
    else if raw.None? || raw.value.used > input || |raw.value.generated| > output then None
    else raw
  }

  // ---------------------------------------------------------------- taking source slots

  /** Extend the last span or start a new one. */
  function Mark(gaps: seq<GapSpan>, at: nat): seq<GapSpan> {
    if gaps != [] && gaps[|gaps| - 1].end == at
    then gaps[..|gaps| - 1] + [gaps[|gaps| - 1].(end := at + 1)]
    else gaps + [GapSpan(at, at + 1)]
  }

  datatype Take = Kept(window: Window) | Fenced(window: Window) | Crowded(window: Window)

  function BaseAfter(w: Window, slot: Slot): Option<Base> {
    if slot.stamp.Some? && w.base.None?
    then Some(Base(slot.stamp.value.generation, slot.stamp.value.source - w.taken))
    else w.base
  }

  /** The stamp continues the source timeline the first stamp began. */
  predicate Continues(w: Window, slot: Slot) {
    slot.stamp.Some? ==>
      var base := BaseAfter(w, slot).value;
      base.generation == slot.stamp.value.generation && base.offset + w.taken == slot.stamp.value.source
  }

  function TakeSlot(c: Config, w: Window, slot: Slot): Take {
    var based := w.(base := BaseAfter(w, slot));
    if !Continues(w, slot) then Fenced(based)
    else if slot.missing && !(w.gaps != [] && w.gaps[|w.gaps| - 1].end == w.taken) && |w.gaps| == c.gapRoom
    then Crowded(based)
    else
      Kept(based.(gaps := if slot.missing then Mark(w.gaps, w.taken) else w.gaps,
                  taken := w.taken + 1, input := w.input + [slot.pcm]))
  }

  /** Take until the workspace has what it wants, the FIFO is empty or a slot is refused. */
  function Fill(c: Config, w: Window, offered: seq<Slot>, room: nat): Take
    decreases room
  {
    if room == 0 || w.padding || offered == [] then Kept(w)
    else
      var t := TakeSlot(c, w, offered[0]);
      if t.Kept? then Fill(c, t.window, offered[1..], room - 1) else t
  }

  function Desired(c: Config, w: Window): nat {
    if w.zeroProgress then Min(|w.input| + QUANTUM, c.settings.capacity) else QUANTUM
  }

  function Room(c: Config, w: Window): nat {
    Monus(Desired(c, w), |w.input|)
  }

  /** Once a finite source is exhausted, the converter is fed non-missing zeros. */
  function Pad(w: Window, finite: bool): Window {
    if w.input == [] && finite then w.(input := PlcSpec.Zeros(QUANTUM), padding := true) else w
  }

  // ---------------------------------------------------------------- converting

  /** Frames the converter has accepted, padding included. */
  function Total(w: Window): nat {
    w.accepted + w.padded
  }

  function Prune(gaps: seq<GapSpan>, position: nat): (r: seq<GapSpan>)
    ensures |r| <= |gaps|
    decreases |gaps|
  {
    if gaps != [] && position >= gaps[0].end then Prune(gaps[1..], position) else gaps
  }

  /** Source frame of the converter's next output; negative before the first. */
  function Frame(w: Window, delay: nat): int {
    Total(w) - CeilDiv(delay, BILLION)
  }

  /** With no spans left to prune, only note how far the converter has come. */
  function See(w: Window, delay: nat): Window {
    if w.gaps == [] then w.(floor := Max(w.floor, Frame(w, delay))) else w
  }

  /** Drop the spans the next output has passed. */
  function Locate(w: Window, delay: nat): Window {
    var position := Frame(w, delay);
    w.(gaps := if position >= 0 then Prune(w.gaps, position) else w.gaps, floor := Max(w.floor, position))
  }

  /** The next output is missing if its frame lies in the first span left. */
  function LiesInGap(w: Window, delay: nat): bool {
    var position := Frame(w, delay);
    position >= 0 && var gaps := Prune(w.gaps, position); gaps != [] && position >= gaps[0].start
  }

  function Consume(w: Window, used: nat): Window
    requires used <= |w.input|
  {
    if w.padding then w.(input := w.input[used..], padded := w.padded + used)
    else w.(input := w.input[used..], accepted := w.accepted + used, fed := w.fed + w.input[..used])
  }

  /** One conversion of what the window holds, with its position bookkeeping. */
  function Convert(c: Config, e: Engine, r: Replies): Refilled {
    var marked := e.window.gaps != [];
    var gapDelay := if marked then InputDelay(r.delayForGaps) else Some(0);
    if gapDelay.None? then Refilled(e.(cache := e.cache.(missing := false)), AdapterError)
    else
      var w := if marked then Locate(e.window, gapDelay.value) else e.window;
      var missing := marked && LiesInGap(e.window, gapDelay.value);
      var located := e.(window := w, cache := e.cache.(missing := missing));
      var before := InputDelay(r.delayBefore);
      var converted := Process(|w.input|, if w.gaps == [] then QUANTUM else 1, e.control.ratio, r.processed);
      if before.None? || converted.None? then Refilled(located, AdapterError)
      else
        Conclude(c, located.(window := See(w, before.value)), Total(w) * BILLION - before.value, converted.value, r)
  }

  /** Book what the converter used and made. */
  function Conclude(c: Config, e: Engine, start: int, made: Converted, r: Replies): Refilled
    requires made.used <= |e.window.input|
  {
    var w := Consume(e.window, made.used);
    var after := InputDelay(r.delayAfter);
    if made.generated != [] then
      if after.None? then Refilled(e.(window := w), AdapterError)
      else
        var end := Total(w) * BILLION - after.value;
        if end < start then
          Refilled(e.(window := w, cache := e.cache.(start := start, end := end), muteFault := true), AdapterError)
        else
          Refilled(e.(window := w.(zeroProgress := false),
                      cache := Cache(made.generated, 0, |made.generated|, e.cache.missing, start, end)), Ready)
    else
      var stalled := made.used == 0;
      Refilled(e.(window := w.(zeroProgress := stalled), cache := e.cache.(offset := 0)),
               if stalled && |w.input| == c.settings.capacity then AdapterError else Starved)
  }

  /** What one refill sees of the world: slots its takes obtain, a FIFO count, and the adapter. */
  datatype Supply = Supply(offered: seq<Slot>, available: nat, replies: Replies)

  /** Steer the ratio by the occupancy seen. */
  function Steered(c: Config, e: Engine, finite: bool, available: nat, queued: nat): Engine {
    if c.settings.inputRate == 0 then e
    else
      var observed := (available + |e.window.input| + queued) * 1000;
      e.(control := Settings.Steer(c.settings, e.control, observed, finite))
  }

  /** With the workspace filled: nothing to do, or one steered conversion. */
  function Proceed(c: Config, e: Engine, finite: bool, s: Supply): Refilled {
    if e.window.input == [] && e.window.zeroProgress then Refilled(e, Starved)
    else if s.replies.queued.None? then Refilled(e, AdapterError)
    else Convert(c, Steered(c, e, finite, s.available, s.replies.queued.value), s.replies)
  }

  /** Keep what is cached; otherwise fill, steer and convert once. */
  function Refill(c: Config, e: Engine, finite: bool, s: Supply): Refilled {
    if e.resetFailed then Refilled(e, AdapterError)
    else if e.cache.pcm != [] then Refilled(e, Ready)
    else
      var t := Fill(c, e.window, s.offered, Room(c, e.window));
      if t.Fenced? then Refilled(e.(window := t.window, muteFault := true), AdapterError)
      else if t.Crowded? then Refilled(e.(window := t.window), AdapterError)
      else Proceed(c, e.(window := Pad(t.window, finite)), finite, s)
  }

  /** A finite tail retries starvation a bounded number of times. */
  function RefillLoop(c: Config, e: Engine, supplies: seq<Supply>): Refilled
    requires supplies != []
    decreases |supplies|
  {
    var r := Refill(c, e, true, supplies[0]);
    if r.outcome.Starved? && |supplies| > 1 then RefillLoop(c, r.engine, supplies[1..]) else r
  }

  // ---------------------------------------------------------------- playing

  /** Position, in billionths of a frame, of one output of a batch. */
  function PositionAt(k: Cache, o: nat): int
    requires k.count >= 1
  {
    k.start + (k.end - k.start) * o / k.count
  }

  /** Position of the next cached output. */
  function CachePosition(k: Cache): int {
    if k.count == 0 then k.start else PositionAt(k, k.offset)
  }

  const LARGEST_POSITION: nat := WORD_MAX

  /** Both neighbouring source samples, on the producer's own timeline; nothing before it began. */
  function Support(e: Engine): Option<Position> {
    if e.window.base.None? then None
    else
      var at := CachePosition(e.cache) + e.window.base.value.offset * BILLION;
      var low, high := at / BILLION, (at + 999_999_999) / BILLION;
      if low < 0 || high > LARGEST_POSITION then None
      else Some(Position(e.window.base.value.generation, low, high))
  }

  datatype Finite = Finite(token: nat, end: nat, draining: Option<nat>)

  /** The whole consumer between calls; positions is the lookahead's queue of supports. */
  datatype Player = Player(
    engine: Engine, finite: Option<Finite>, quiet: bool, primed: bool,
    mutes: seq<Interval>, plc: Option<PlcSpec.State>, positions: seq<Option<Position>>)

  /** The concealer and the position queue go together. */
  predicate WellFormed(c: Config, p: Player) {
    && (p.plc.Some? <==> p.positions != [])
    && (p.plc.Some? ==>
          PlcSpec.Valid(c.settings.outputRate, p.plc.value)
          && |p.positions| == PlcSpec.Delay(c.settings.outputRate))
    && (p.finite.Some? && p.finite.value.draining.Some? ==> p.finite.value.draining.value <= |p.positions|)
  }

  function Cleared(e: Engine, ok: bool): Engine {
    Engine(EMPTY_WINDOW, e.cache.(pcm := [], offset := 0, missing := false, count := 0),
           Settings.RESTING, false, !ok)
  }

  /** Nothing of the burst survives, whatever the adapter answers; quiet is not touched. */
  function Reset(p: Player, ok: bool): Player {
    p.(engine := Cleared(p.engine, ok), finite := None, primed := false, mutes := [],
       plc := if p.plc.Some? then Some(PlcSpec.Reset(p.plc.value)) else None,
       positions := seq(|p.positions|, _ => None))
  }

  /** One call's result: the sample, whether it is real PCM, whether the adapter failed, and an acknowledgement. */
  datatype Rendered = Rendered(
    player: Player, sample: real, fromPcm: bool, failed: bool, acknowledged: Option<nat>)

  /** Reset, then report the boundary played or failed. */
  function Complete(p: Player, adapterFailed: bool, resetOk: bool): Rendered
    requires p.finite.Some?
  {
    var failed := !resetOk || adapterFailed;
    Rendered(Reset(p, resetOk).(quiet := true), 0.0, false, failed,
             Some(if failed then Handoff.ADAPTER_ERROR else Handoff.DRAINED))
  }

  function MutedAt(p: Player, at: Option<Position>): bool {
    at.Some? && IsMuted(p.mutes, at.value)
  }

  function RetiredAt(mutes: seq<Interval>, at: Option<Position>): seq<Interval> {
    if at.Some? then Retired(mutes, at.value) else mutes
  }

  /** Lookahead samples still to be released once a burst is ending. */
  function Left(p: Player): nat
    requires p.finite.Some?
  {
    if p.finite.value.draining.Some? then p.finite.value.draining.value else |p.positions|
  }

  /** Play one retained lookahead sample, or complete once all are played. */
  function DrainFinite(c: Config, p: Player, resetOk: bool): Rendered
    requires WellFormed(c, p) && p.finite.Some?
  {
    var left := Left(p);
    if left == 0 then
      Complete(p.(finite := Some(p.finite.value.(draining := Some(left)))), false, resetOk)
    else
      var call := PlcSpec.Drain(c.settings.outputRate, p.plc.value);
      var at := p.positions[0];
      Rendered(
        p.(finite := Some(p.finite.value.(draining := Some(left - 1))), plc := Some(call.state),
           positions := p.positions[1..] + [at], mutes := RetiredAt(p.mutes, at)),
        if MutedAt(p, at) then 0.0 else call.played.sample, call.played.fromPcm, false, None)
  }

  /** The nearest sample in range: in range nothing is changed, beyond it the bound is taken. */
  function Canonical(sample: real): (r: real)
    ensures -1.0 <= r <= 1.0
    ensures -1.0 <= sample <= 1.0 ==> r == sample
    ensures sample < -1.0 ==> r == -1.0
    ensures sample > 1.0 ==> r == 1.0
  {
    if sample < -1.0 then -1.0 else if sample > 1.0 then 1.0 else sample
  }

  /** Remove the next cached output, if the refill made one ready. */
  function PopCache(e: Engine, outcome: Outcome): Engine {
    if outcome.Ready? && e.cache.pcm != [] then
      e.(cache := e.cache.(pcm := e.cache.pcm[1..],
                           offset := if |e.cache.pcm| == 1 then 0 else e.cache.offset + 1))
    else e
  }

  /** The converted sample, unless none is ready or its source was missing. */
  function ConvertedSample(e: Engine, outcome: Outcome): Option<real> {
    if outcome.Ready? && e.cache.pcm != [] && !e.cache.missing then Some(Canonical(e.cache.pcm[0])) else None
  }

  /** The support of the output a call converts. */
  function Entering(p: Player, outcome: Outcome): Option<Position> {
    if outcome.Ready? then Support(p.engine) else None
  }

  /** Play one output: mute, conceal, delay, and mute again what comes out. */
  function Play(c: Config, p: Player, outcome: Outcome): Rendered
    requires WellFormed(c, p)
  {
    var failed := outcome.AdapterError?;
    var at := Entering(p, outcome);
    var input := if MutedAt(p, at) then Some(0.0) else ConvertedSample(p.engine, outcome);
    var delayedAt := if p.positions == [] then at else p.positions[0];
    var call := if p.engine.resetFailed || p.plc.None? then None
                else Some(PlcSpec.Process(c.settings.outputRate, p.plc.value, input));
    var played := if p.engine.resetFailed then PlcSpec.Played(0.0, false)
                  else if call.Some? then call.value.played
                  else PlcSpec.Played(if input.Some? then input.value else 0.0, input.Some?);
    Rendered(
      p.(engine := PopCache(p.engine, outcome),
         plc := if call.Some? then Some(call.value.state) else p.plc,
         positions := if p.positions == [] then [] else p.positions[1..] + [at],
         mutes := RetiredAt(p.mutes, delayedAt)),
      if MutedAt(p, delayedAt) then 0.0 else played.sample, played.fromPcm, failed, None)
  }

  // ---------------------------------------------------------------- one rendered sample

  /** What one render call sees: the finish word, three reads of the FIFO count, mailbox records, refills, reset. */
  datatype Scene = Scene(
    word: nat, atCapture: nat, atQuiet: nat, atPriming: nat,
    records: seq<Interval>, supplies: seq<Supply>, resetOk: bool)

  predicate ValidScene(c: Config, s: Scene) {
    |s.supplies| == RefillLimit(c) + 1
  }

  /** Adopt a pending boundary once. */
  function Capture(p: Player, s: Scene): Player {
    if Handoff.Pending(s.word) && p.finite.None?
    then p.(finite := Some(Finite(s.word / 4, p.engine.window.taken + s.atCapture, None)), quiet := false)
    else p
  }

  /** Merge every popped record; one refusal is a fault. */
  function Absorbing(c: Config, p: Player, records: seq<Interval>): Player
    decreases |records|
  {
    if records == [] then p
    else
      var r := Inserted(p.mutes, c.muteRoom, records[0]);
      var next := if r.Some? then p.(mutes := r.value)
                  else p.(engine := p.engine.(muteFault := true));
      Absorbing(c, next, records[1..])
  }

  function Silent(p: Player, failed: bool): Rendered {
    Rendered(p, 0.0, false, failed, None)
  }

  function PastEnd(p: Player): bool {
    p.finite.Some? && CachePosition(p.engine.cache) >= p.finite.value.end * BILLION
  }

  /** Refill the cache; a finite tail retries. */
  function Refilling(c: Config, p: Player, s: Scene): Refilled
    requires s.supplies != []
  {
    if p.finite.Some? then RefillLoop(c, p.engine, s.supplies) else Refill(c, p.engine, false, s.supplies[0])
  }

  /** With the cache refilled: complete a burst that cannot go on, end one that is past its end, or play. */
  function Resolve(c: Config, q: Player, outcome: Outcome, resetOk: bool): Rendered
    requires WellFormed(c, q)
  {
    if q.finite.Some? && !outcome.Ready? then Complete(q, true, resetOk)
    else if PastEnd(q) then DrainFinite(c, q, resetOk)
    else if q.engine.muteFault then Silent(q, true)
    else Play(c, q, outcome)
  }

  /** Convert and play, or end the finite burst. */
  function Advance(c: Config, p: Player, s: Scene): Rendered
    requires WellFormed(c, p) && ValidScene(c, s)
  {
    var r := Refilling(c, p, s);
    Resolve(c, p.(engine := r.engine), r.outcome, s.resetOk)
  }

  /** Where a call goes after faults, quiet and priming: nowhere, straight to the ending, or to conversion. */
  datatype Entry = Held(player: Player, failed: bool) | Ending(player: Player) | Playing(player: Player)

  /** Quiet, then priming, once faults are known. */
  function Admit(c: Config, q: Player, s: Scene): Entry {
    if q.engine.muteFault then Held(q, true)
    else if q.quiet && s.atQuiet == 0 then Held(q, q.engine.resetFailed)
    else Prime(c, q.(quiet := false), s)
  }

  /** Playout starts once the reserve is there, or a boundary says that no more will come. */
  function Prime(c: Config, awake: Player, s: Scene): Entry {
    var priming := !awake.primed && !awake.engine.resetFailed;
    if priming && s.atPriming < c.settings.reserve && awake.finite.None? then Held(awake, false)
    else
      var ready := if priming then awake.(primed := true) else awake;
      if ready.finite.Some? && (ready.finite.value.end == 0 || ready.finite.value.draining.Some?)
      then Ending(ready) else Playing(ready)
  }

  /** Everything before conversion: the boundary, the mailbox, then the gate. */
  function Enter(c: Config, p: Player, s: Scene): Entry {
    Admit(c, Absorbing(c, Capture(p, s), s.records), s)
  }

  function Render(c: Config, p: Player, s: Scene): Rendered
    requires WellFormed(c, p) && ValidScene(c, s)
  {
    EnterKeepsShape(c, p, s);
    match Enter(c, p, s)
    case Held(q, failed) => Silent(q, failed)
    case Ending(q) => DrainFinite(c, q, s.resetOk)
    case Playing(q) => Advance(c, q, s)
  }

  /** Before conversion only the boundary, the mutes, and the quiet and primed flags may change. */
  lemma EnterKeepsShape(c: Config, p: Player, s: Scene)
    ensures
      var q := Enter(c, p, s).player;
      && q == p.(finite := Capture(p, s).finite, quiet := q.quiet, primed := q.primed, mutes := q.mutes,
                 engine := p.engine.(muteFault := q.engine.muteFault))
      && (Enter(c, p, s).Ending? ==> q.finite.Some? && (q.finite.value.end == 0 || q.finite.value.draining.Some?))
      && (Enter(c, p, s).Playing? && q.finite.Some? ==> q.finite.value.end > 0 && q.finite.value.draining.None?)
      && (!Enter(c, p, s).Held? ==> !q.engine.muteFault && !q.quiet)
      && (q.quiet ==> Capture(p, s).quiet)
  {
    AbsorbingKeepsShape(c, Capture(p, s), s.records);
  }

  lemma {:induction false} AbsorbingKeepsShape(c: Config, p: Player, records: seq<Interval>)
    ensures
      var q := Absorbing(c, p, records);
      q == p.(mutes := q.mutes, engine := p.engine.(muteFault := q.engine.muteFault))
    decreases |records|
  {
    if records != [] {
      var r := Inserted(p.mutes, c.muteRoom, records[0]);
      AbsorbingKeepsShape(c,
        if r.Some? then p.(mutes := r.value) else p.(engine := p.engine.(muteFault := true)), records[1..]);
    }
  }
}
