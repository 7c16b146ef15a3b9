/**
 Source positions with a healthy converter: which outputs are marked missing,
 and that positions never move back.

 Three assumptions make a converter healthy, beyond what the adapter checks:
 the position of its next output is stable between calls and moves forward with
 every output; it holds at most one capacity and the FIR history; nonempty
 input always makes progress. PassThrough.dfy shows they can be met.
 */
module EngineTime {
  import opened Common
  import opened Engine
  import opened EngineSource
  import opened EngineBounds
  import Settings

  // ---------------------------------------------------------------- positions

  /** A batch that advances at least one billionth per output, partly played. */
  predicate CacheTimed(k: Cache) {
    k.count >= 1 && k.count == k.offset + |k.pcm| && k.count <= k.end - k.start
  }

  lemma QuotientsRise(span: nat, count: nat, o: nat, n: nat, m: nat)
    requires 1 <= count <= span && o < count && n == span * o && m == n + span
    requires 0 <= n && m <= span * count
    ensures 0 <= n / count < span && n / count < m / count <= span
  {
    var q := n / count;
    assert q * count <= n;
    assert (q + 1) * count == q * count + count;
    assert (span + 1) * count == span * count + count;
    QuotientBetween(n, 0, span, count);
    QuotientBetween(m, q + 1, span + 1, count);
  }

  /** Positions stay inside the batch's span and strictly rise. */
  lemma PositionsRise(k: Cache, o: nat)
    requires k.count >= 1 && k.count <= k.end - k.start && o < k.count
    ensures k.start <= PositionAt(k, o) < k.end
    ensures PositionAt(k, o) < PositionAt(k, o + 1) <= k.end
  {
    var span := k.end - k.start;
    MulMonotone(0, o, span);
    MulMonotone(o + 1, k.count, span);
    assert span * (o + 1) == span * o + span;
    QuotientsRise(span, k.count, o, span * o, span * (o + 1));
  }

  lemma {:induction false} PositionsAscend(k: Cache, i: nat, j: nat)
    requires k.count >= 1 && k.count <= k.end - k.start && i <= j <= k.count
    ensures PositionAt(k, i) <= PositionAt(k, j) <= k.end
    decreases j - i
  {
    if i == j {
      if i < k.count {
        PositionsRise(k, i);
      } else {
        PositionsRise(k, k.count - 1);
      }
    } else {
      PositionsRise(k, i);
      hide PositionAt;
      PositionsAscend(k, i + 1, j);
    }
  }

  /** Where the next sample to play lies: in the cache, or where the converter stands. */
  function NextPosition(e: Engine, at: int): int {
    if e.cache.pcm != [] then CachePosition(e.cache) else at
  }

  // ---------------------------------------------------------------- healthy replies

  function Backlog(w: Window, at: int): nat
    requires at <= Total(w) * BILLION
  {
    Total(w) * BILLION - at
  }

  /** The window as located by the first delay query. */
  function Located(w: Window, at: int): Window
    requires at <= Total(w) * BILLION
  {
    if w.gaps != [] then Locate(w, Backlog(w, at)) else w
  }

  /** The replies of a healthy converter whose next output lies at `at`. */
  predicate Healthy(c: Config, w: Window, at: int, r: Replies) {
    && at <= Total(w) * BILLION
    && Backlog(w, at) <= (c.settings.capacity + c.history) * BILLION
    && r.queued.Some?
    && r.delayForGaps == Some(Backlog(w, at)) && r.delayBefore == Some(Backlog(w, at))
    && r.processed.Some?
    && r.processed.value.used <= |w.input|
    && |r.processed.value.generated| <= (if Located(w, at).gaps == [] then QUANTUM else 1)
    && (w.input != [] ==> r.processed.value.used > 0 || r.processed.value.generated != [])
    && (r.processed.value.generated != [] ==>
          && r.delayAfter.Some? && r.delayAfter.value >= 0
          && |r.processed.value.generated| <= After(w, r) - at)
  }

  /** Where a conversion that produced something leaves the converter. */
  function After(w: Window, r: Replies): int
    requires r.processed.Some? && r.delayAfter.Some?
  {
    (Total(w) + r.processed.value.used) * BILLION - r.delayAfter.value
  }

  /** A conversion without output consumes no position. */
  function Moved(w: Window, at: int, r: Replies): int {
    if r.processed.Some? && r.processed.value.generated != [] && r.delayAfter.Some? then After(w, r) else at
  }

  lemma FrameIsFloor(w: Window, at: int)
    requires at <= Total(w) * BILLION
    ensures Frame(w, Backlog(w, at)) == at / BILLION
  {
  }

  // ---------------------------------------------------------------- classification

  /** Source slot x was published as a gap. */
  predicate GapAt(log: seq<Slot>, x: int) {
    0 <= x < |log| && log[x].missing
  }

  predicate Passed(w: Window, at: int) {
    at <= Total(w) * BILLION && (w.floor <= 0 || w.floor <= at / BILLION)
  }

  /** One output at a time: the mark says whether the slot under the position was a gap. */
  lemma SlowMarkIsExact(w: Window, log: seq<Slot>, at: int)
    requires w.taken <= |log| && GapsExact(w, log) && Passed(w, at)
    ensures LiesInGap(w, Backlog(w, at)) <==> at / BILLION < w.taken && GapAt(log, at / BILLION)
  {
    FrameIsFloor(w, at);
    var x := at / BILLION;
    hide BILLION, Frame, Backlog;
    if x >= 0 {
      PruneIsExact(w.gaps, x);
      var r := Prune(w.gaps, x);
      hide Prune;
      if InSpan(r, x) {
        var k :| 0 <= k < |r| && r[k].start <= x < r[k].end;
      }
      if r != [] && x >= r[0].start {
        assert InSpan(r, x);
      }
      if x < w.taken && log[x].missing {
        assert InSpan(w.gaps, x);
      }
    }
  }

  /** With no spans left, no slot from the floor on is a gap: a whole batch is clean. */
  lemma BatchIsClean(w: Window, log: seq<Slot>, x: int)
    requires w.taken <= |log| && GapsExact(w, log) && w.gaps == [] && w.floor <= x
    ensures !(x < w.taken && GapAt(log, x))
  {
    assert !InSpan(w.gaps, x);
  }

  /** Every cached output carries the mark of the slot under its own position, which is already known. */
  predicate Classified(k: Cache, w: Window, log: seq<Slot>)
    requires k.count >= 1
  {
    forall o: nat | k.offset <= o < k.count ::
      && (PositionAt(k, o) / BILLION < w.taken || w.padding)
      && (k.missing <==> PositionAt(k, o) / BILLION < w.taken && GapAt(log, PositionAt(k, o) / BILLION))
  }

  lemma BatchClassified(w: Window, seen: Window, log: seq<Slot>, k: Cache)
    requires w.taken <= |log| && GapsExact(w, log) && w.gaps == [] && !k.missing
    requires seen.taken == w.taken && seen.padding == w.padding
    requires CacheTimed(k) && (w.floor <= 0 || w.floor <= k.start / BILLION)
    requires k.end <= seen.taken * BILLION || seen.padding
    ensures Classified(k, seen, log)
  {
    forall o: nat | k.offset <= o < k.count
      ensures PositionAt(k, o) / BILLION < seen.taken || seen.padding
      ensures !(PositionAt(k, o) / BILLION < seen.taken && GapAt(log, PositionAt(k, o) / BILLION))
    {
      PositionsRise(k, o);
      var p := PositionAt(k, o);
      hide PositionAt;
      Monotone(k.start, p);
      if k.end <= seen.taken * BILLION {
        assert p / BILLION < seen.taken;
      }
      if w.floor <= p / BILLION {
        BatchIsClean(w, log, p / BILLION);
      }
    }
  }

  lemma Monotone(a: int, b: int)
    requires a <= b
    ensures a / BILLION <= b / BILLION
  {
  }

  lemma SingleClassified(w: Window, seen: Window, log: seq<Slot>, k: Cache)
    requires w.taken <= |log| && GapsExact(w, log) && Passed(w, k.start)
    requires k.missing == LiesInGap(w, Backlog(w, k.start))
    requires seen.taken == w.taken && seen.padding == w.padding
    requires CacheTimed(k) && k.count == 1 && k.offset == 0
    requires k.end <= seen.taken * BILLION || seen.padding
    ensures Classified(k, seen, log)
  {
    SlowMarkIsExact(w, log, k.start);
    PositionsRise(k, 0);
    assert PositionAt(k, 0) == k.start;
    hide PositionAt, LiesInGap, GapsExact;
  }

  // ---------------------------------------------------------------- one healthy conversion

  /** The engine between refills, its converter's next output at `at`. */
  predicate Timed(c: Config, e: Engine, log: seq<Slot>, at: int) {
    && !e.resetFailed
    && SourceInv(e.window, log)
    && Near(c, e.window)
    && Passed(e.window, at)
    && (e.cache.pcm != [] ==> CacheTimed(e.cache) && e.cache.end == at && Classified(e.cache, e.window, log))
  }

  /** What the second delay query leaves of the window. */
  function Looked(w: Window, at: int): Window
    requires at <= Total(w) * BILLION
  {
    See(Located(w, at), Backlog(w, at))
  }

  lemma LookedKeeps(c: Config, w: Window, log: seq<Slot>, at: int)
    requires SourceInv(w, log) && Near(c, w) && Passed(w, at)
    requires Backlog(w, at) <= (c.settings.capacity + c.history) * BILLION
    ensures
      var l, d := Located(w, at), Looked(w, at);
      && SourceInv(l, log) && SourceInv(d, log) && Close(c, d)
      && Passed(l, at) && Passed(d, at)
      && d == w.(gaps := l.gaps, floor := d.floor) && l == w.(gaps := l.gaps, floor := l.floor)
  {
    LocateKeeps(w, log, Backlog(w, at));
    LocateIsClose(c, w, Backlog(w, at));
    SeeKeeps(Located(w, at), log, Backlog(w, at));
    SeeIsClose(c, Located(w, at), Backlog(w, at));
    FrameIsFloor(w, at);
    hide SourceInv, Near, Close, Prune, Frame, BILLION;
  }

  /** A healthy conversion is no adapter error: it ends in Conclude. */
  lemma HealthyConcludes(c: Config, e: Engine, at: int, r: Replies)
    requires Healthy(c, e.window, at, r) && e.control.ratio > 0.0
    ensures
      var made := r.processed.value;
      var seen := Looked(e.window, at);
      && made.used <= |seen.input|
      && Convert(c, e, r) ==
           Conclude(c, e.(window := seen,
                          cache := e.cache.(missing := e.window.gaps != []
                                            && LiesInGap(e.window, Backlog(e.window, at)))),
                    at, made, r)
  {
    hide LiesInGap, Frame, Prune, Conclude;
    assert Total(Located(e.window, at)) == Total(e.window);
    assert Located(e.window, at).input == e.window.input == Looked(e.window, at).input;
  }

  /** Whichever way the batch was converted, its marks are exact. */
  lemma BatchMarked(c: Config, w: Window, log: seq<Slot>, after: Window, k: Cache)
    requires SourceInv(w, log) && Near(c, w) && Passed(w, k.start)
    requires Backlog(w, k.start) <= (c.settings.capacity + c.history) * BILLION
    requires CacheTimed(k) && k.offset == 0
    requires k.count <= if Located(w, k.start).gaps == [] then QUANTUM else 1
    requires k.missing == (w.gaps != [] && LiesInGap(w, Backlog(w, k.start)))
    requires Accounted(after, log) && after.taken == w.taken && after.padding == w.padding
        && k.end <= Total(after) * BILLION
    ensures Classified(k, after, log)
  {
    var l := Located(w, k.start);
    LookedKeeps(c, w, log, k.start);
    hide Accounted, Near, Close, SourceInv, Classified, CacheTimed, BILLION;
    assert k.end <= after.taken * BILLION || after.padding by {
      if !after.padding {
        NoPadding(after, log);
      }
    }
    assert GapsExact(w, log) && GapsExact(l, log) by { Exact(w, log); Exact(l, log); }
    hide GapsExact;
    if l.gaps == [] {
      assert !k.missing;
      BatchClassified(l, after, log, k);
    } else {
      SingleClassified(w, after, log, k);
    }
  }

  lemma Exact(w: Window, log: seq<Slot>)
    requires SourceInv(w, log)
    ensures w.taken <= |log| && GapsExact(w, log)
  {
  }

  lemma NoPadding(w: Window, log: seq<Slot>)
    requires Accounted(w, log) && !w.padding
    ensures Total(w) <= w.taken
  {
  }

  /** The window after the conversion. */
  function Settled(w: Window, at: int, made: Converted): Window
    requires at <= Total(w) * BILLION && made.used <= |w.input|
  {
    LocatedInput(w, at);
    Consume(Looked(w, at), made.used).(zeroProgress := made.generated == [] && made.used == 0)
  }

  lemma LocatedInput(w: Window, at: int)
    requires at <= Total(w) * BILLION
    ensures Looked(w, at).input == w.input && Located(w, at).input == w.input
    ensures Total(Looked(w, at)) == Total(w) == Total(Located(w, at))
  {
  }

  lemma SettledKeeps(c: Config, w: Window, log: seq<Slot>, at: int, made: Converted, next: int)
    requires SourceInv(w, log) && Near(c, w) && Passed(w, at) && made.used <= |w.input|
    requires Backlog(w, at) <= (c.settings.capacity + c.history) * BILLION
    requires at <= next <= (Total(w) + made.used) * BILLION
    ensures
      var n := Settled(w, at, made);
      && SourceInv(n, log) && Accounted(n, log) && Near(c, n) && Passed(n, next)
      && Total(n) == Total(w) + made.used && n.taken == w.taken && n.padding == w.padding
  {
    LocatedInput(w, at);
    LookedKeeps(c, w, log, at);
    var seen, stalled := Looked(w, at), made.generated == [] && made.used == 0;
    ConsumeKeeps(seen, log, made.used, stalled);
    ConsumeIsNear(c, seen, made.used, stalled);
    assert Accounted(Settled(w, at, made), log);
    assert Settled(w, at, made).floor == seen.floor && Settled(w, at, made).padding == seen.padding;
    Monotone(at, next);
    hide SourceInv, Accounted, Near, Close, Settled, Looked;
  }

  /** The engine a healthy conversion leaves. */
  lemma HealthyOutcome(c: Config, e: Engine, at: int, r: Replies)
    requires ValidConfig(c) && Healthy(c, e.window, at, r) && e.control.ratio > 0.0 && e.cache.pcm == []
    ensures
      var out, made := Convert(c, e, r), r.processed.value;
      var missing := e.window.gaps != [] && LiesInGap(e.window, Backlog(e.window, at));
      && out.engine == e.(window := Settled(e.window, at, made), cache := out.engine.cache)
      && (if made.generated != [] then
            && out.outcome.Ready?
            && out.engine.cache == Cache(made.generated, 0, |made.generated|, missing, at, After(e.window, r))
          else out.outcome.Starved? && out.engine.cache.pcm == [])
  {
    HealthyConcludes(c, e, at, r);
    LocatedInput(e.window, at);
    var seen, made := Looked(e.window, at), r.processed.value;
    assert Consume(seen, made.used).zeroProgress == seen.zeroProgress;
    assert Total(Consume(seen, made.used)) == Total(e.window) + made.used;
    assert made.generated == [] && made.used == 0 ==> e.window.input == [];
    assert made.used == 0 ==> Consume(seen, made.used).input == seen.input;
    hide Convert, Looked, Located, LiesInGap, Total, Consume;
  }

  /** A healthy conversion keeps time: with output a new exact batch from `at` on, without none. */
  lemma HealthyConverts(c: Config, e: Engine, log: seq<Slot>, at: int, r: Replies)
    requires Timed(c, e, log, at) && e.cache.pcm == [] && Healthy(c, e.window, at, r) && e.control.ratio > 0.0
    requires ValidConfig(c)
    ensures
      var out, made := Convert(c, e, r), r.processed.value;
      && Timed(c, out.engine, log, Moved(e.window, at, r))
      && at <= Moved(e.window, at, r)
      && (out.outcome.Ready? <==> made.generated != []) && !out.outcome.AdapterError?
      && (out.outcome.Ready? ==>
            out.engine.cache.pcm == made.generated && out.engine.cache.start == at && out.engine.cache.offset == 0)
      && (out.outcome.Starved? ==> out.engine.cache.pcm == [])
      && Total(out.engine.window) == Total(e.window) + made.used
      && out.engine.window.taken == e.window.taken && out.engine.window.padding == e.window.padding
      && out.engine.control == e.control && out.engine.muteFault == e.muteFault
  {
    var made := r.processed.value;
    HealthyOutcome(c, e, at, r);
    SettledKeeps(c, e.window, log, at, made, Moved(e.window, at, r));
    if made.generated != [] {
      BatchMarked(c, e.window, log, Settled(e.window, at, made), Convert(c, e, r).engine.cache);
    }
    hide Convert, Settled, SourceInv, Accounted, Near, LiesInGap, Classified, Passed, BILLION;
  }

  // ---------------------------------------------------------------- whole refills

  /** The window a refill converts from. */
  function Filled(c: Config, e: Engine, finite: bool, s: Supply): Window {
    Pad(Fill(c, e.window, s.offered, Room(c, e.window)).window, finite)
  }

  /** A refill with nothing cached converts, unless it has no input and already knows that stalls. */
  predicate Converts(c: Config, e: Engine, finite: bool, s: Supply) {
    e.cache.pcm == [] && !(Filled(c, e, finite, s).input == [] && Filled(c, e, finite, s).zeroProgress)
  }

  predicate HealthySupply(c: Config, e: Engine, finite: bool, at: int, s: Supply) {
    Converts(c, e, finite, s) ==> Healthy(c, Filled(c, e, finite, s), at, s.replies)
  }

  function NextAt(c: Config, e: Engine, finite: bool, at: int, s: Supply): int {
    if Converts(c, e, finite, s) then Moved(Filled(c, e, finite, s), at, s.replies) else at
  }

  /** What holds between calls of a healthy run. */
  predicate Running(c: Config, e: Engine, log: seq<Slot>, at: int) {
    && ValidConfig(c) && Stamped(log)
    && Timed(c, e, log, at) && Settings.RatioInRange(c.settings, e.control)
  }

  lemma FilledKeeps(c: Config, e: Engine, finite: bool, s: Supply, log: seq<Slot>, at: int)
    requires Running(c, e, log, at) && s.offered <= log[e.window.taken..]
    ensures Fill(c, e.window, s.offered, Room(c, e.window)).Kept?
    ensures
      var w := Filled(c, e, finite, s);
      && SourceInv(w, log) && Near(c, w) && Passed(w, at) && Total(w) == Total(e.window)
      && (finite ==> w.input != [])
  {
    var room := Room(c, e.window);
    RoomFits(c, e.window);
    FillKeeps(c, e.window, log, s.offered, room);
    FillNotCrowded(c, e.window, log, s.offered, room);
    var f := Fill(c, e.window, s.offered, room);
    FillCounts(c, e.window, s.offered, room);
    PadKeeps(f.window, log, finite);
    PadNear(c, f.window, finite);
    hide SourceInv, Near, Fill, Room, Classified, CacheTimed, Settings.RatioInRange, Settings.Validate, Stamped,
      BILLION;
  }

  /** The ratio stays in range and positive whatever is observed. */
  lemma SteeredInRange(c: Config, e: Engine, finite: bool, available: nat, queued: nat)
    requires ValidConfig(c) && Settings.RatioInRange(c.settings, e.control)
    ensures
      var n := Steered(c, e, finite, available, queued);
      n == e.(control := n.control) && Settings.RatioInRange(c.settings, n.control) && n.control.ratio > 0.0
  {
    Settings.SteerInRange(c.settings, e.control, (available + |e.window.input| + queued) * 1000, finite);
    hide Settings.Steer, Settings.RatioInRange, Settings.GeometryAdmitted;
  }

  /** Filled and steered, about to convert. */
  function Primed(c: Config, e: Engine, finite: bool, s: Supply): Engine {
    Steered(c, e.(window := Filled(c, e, finite, s)), finite, s.available,
            if s.replies.queued.Some? then s.replies.queued.value else 0)
  }

  lemma RefillIsConvert(c: Config, e: Engine, finite: bool, s: Supply)
    requires !e.resetFailed && e.cache.pcm == [] && Fill(c, e.window, s.offered, Room(c, e.window)).Kept?
    requires Converts(c, e, finite, s) ==> s.replies.queued.Some?
    ensures Refill(c, e, finite, s) ==
            if Converts(c, e, finite, s) then Convert(c, Primed(c, e, finite, s), s.replies)
            else Refilled(e.(window := Filled(c, e, finite, s)), Starved)
  {
    hide Fill, Room, Pad, Convert, Steered;
  }

  /** Filling and steering keep a healthy engine ready to convert. */
  lemma PrimedKeeps(c: Config, e: Engine, finite: bool, s: Supply, log: seq<Slot>, at: int)
    requires Running(c, e, log, at) && s.offered <= log[e.window.taken..] && e.cache.pcm == []
    ensures
      var p := Primed(c, e, finite, s);
      && p == e.(window := Filled(c, e, finite, s), control := p.control)
      && Timed(c, p, log, at) && Settings.RatioInRange(c.settings, p.control) && p.control.ratio > 0.0
  {
    FilledKeeps(c, e, finite, s, log, at);
    var w := Filled(c, e, finite, s);
    SteeredInRange(c, e.(window := w), finite, s.available,
                   if s.replies.queued.Some? then s.replies.queued.value else 0);
    hide SourceInv, Near, Filled, Steered, Passed, Classified, Settings.RatioInRange, Settings.Validate, Stamped;
  }

  /** What a healthy refill promises. */
  predicate RefilledWell(c: Config, e: Engine, finite: bool, log: seq<Slot>, at: int, out: Refilled, next: int) {
    && Running(c, out.engine, log, next) && at <= next
    && !out.outcome.AdapterError? && (out.outcome.Ready? <==> out.engine.cache.pcm != [])
    && NextPosition(out.engine, next) == NextPosition(e, at)
    && out.engine.muteFault == e.muteFault
    && (out.outcome.Starved? && finite ==>
          && next == at && Total(out.engine.window) > Total(e.window)
          && Total(e.window) * BILLION - at <= (c.settings.capacity + c.history) * BILLION)
  }

  lemma FreshCacheStarts(k: Cache)
    requires k.count >= 1 && k.offset == 0
    ensures CachePosition(k) == k.start
  {
  }

  lemma ConversionRefills(c: Config, e: Engine, finite: bool, s: Supply, log: seq<Slot>, at: int)
    requires Running(c, e, log, at) && s.offered <= log[e.window.taken..] && HealthySupply(c, e, finite, at, s)
    requires Converts(c, e, finite, s)
    ensures RefilledWell(c, e, finite, log, at, Convert(c, Primed(c, e, finite, s), s.replies),
                         NextAt(c, e, finite, at, s))
  {
    hide SourceInv, Near, Filled, Passed, Classified, Convert, Settings.RatioInRange, Settings.Validate, Stamped,
      Primed, CachePosition, BILLION;
    PrimedKeeps(c, e, finite, s, log, at);
    FilledKeeps(c, e, finite, s, log, at);
    HealthyConverts(c, Primed(c, e, finite, s), log, at, s.replies);
    var out := Convert(c, Primed(c, e, finite, s), s.replies);
    if out.outcome.Ready? {
      FreshCacheStarts(out.engine.cache);
    }
  }

  /**
   A healthy refill never fails, marks exactly, and never moves a position back:
   what it leaves to play next lies where the converter stood.
   */
  lemma HealthyRefill(c: Config, e: Engine, finite: bool, s: Supply, log: seq<Slot>, at: int)
    requires Running(c, e, log, at) && s.offered <= log[e.window.taken..] && HealthySupply(c, e, finite, at, s)
    ensures RefilledWell(c, e, finite, log, at, Refill(c, e, finite, s), NextAt(c, e, finite, at, s))
  {
    hide SourceInv, Near, Filled, Passed, Classified, Convert, Settings.RatioInRange, Settings.Validate, Stamped,
      Primed, CachePosition, BILLION, RefilledWell, Fill, Room, Pad, HealthySupply;
    if e.cache.pcm == [] {
      FilledKeeps(c, e, finite, s, log, at);
      QueuedSeen(c, e, finite, at, s);
      RefillIsConvert(c, e, finite, s);
      if Converts(c, e, finite, s) {
        ConversionRefills(c, e, finite, s, log, at);
      } else {
        IdleRefills(c, e, finite, s, log, at);
      }
    } else {
      CachedRefills(c, e, finite, s, log, at);
    }
  }

  lemma QueuedSeen(c: Config, e: Engine, finite: bool, at: int, s: Supply)
    requires HealthySupply(c, e, finite, at, s)
    ensures Converts(c, e, finite, s) ==> s.replies.queued.Some?
  {
  }

  lemma IdleRefills(c: Config, e: Engine, finite: bool, s: Supply, log: seq<Slot>, at: int)
    requires Running(c, e, log, at) && s.offered <= log[e.window.taken..]
    requires e.cache.pcm == [] && !Converts(c, e, finite, s)
    ensures RefilledWell(c, e, finite, log, at, Refilled(e.(window := Filled(c, e, finite, s)), Starved), at)
  {
    hide SourceInv, Near, Filled, Passed, Classified, Settings.RatioInRange, Settings.Validate, Stamped;
    FilledKeeps(c, e, finite, s, log, at);
  }

  lemma CachedRefills(c: Config, e: Engine, finite: bool, s: Supply, log: seq<Slot>, at: int)
    requires Running(c, e, log, at) && e.cache.pcm != []
    ensures RefilledWell(c, e, finite, log, at, Refill(c, e, finite, s), NextAt(c, e, finite, at, s))
  {
    hide SourceInv, Near, Filled, Passed, Classified, Settings.RatioInRange, Settings.Validate, Stamped;
  }

  // ---------------------------------------------------------------- main results

  /** A refill loop whose every refill gets healthy replies. */
  predicate HealthyLoop(c: Config, e: Engine, log: seq<Slot>, at: int, supplies: seq<Supply>)
    decreases |supplies|
  {
    && supplies != []
    && e.window.taken <= |log| && supplies[0].offered <= log[e.window.taken..]
    && HealthySupply(c, e, true, at, supplies[0])
    && (Refill(c, e, true, supplies[0]).outcome.Starved? && |supplies| > 1 ==>
          HealthyLoop(c, Refill(c, e, true, supplies[0]).engine, log, NextAt(c, e, true, at, supplies[0]),
                      supplies[1..]))
  }

  function LoopAt(c: Config, e: Engine, at: int, supplies: seq<Supply>): int
    requires supplies != []
    decreases |supplies|
  {
    var r, next := Refill(c, e, true, supplies[0]), NextAt(c, e, true, at, supplies[0]);
    if r.outcome.Starved? && |supplies| > 1 then LoopAt(c, r.engine, next, supplies[1..]) else next
  }

  /** Every starved refill costs the converter a frame of backlog, and its backlog is bounded. */
  lemma {:induction false} LoopSettlesWithin(
      c: Config, e: Engine, log: seq<Slot>, at: int, supplies: seq<Supply>, left: nat)
    requires Running(c, e, log, at) && HealthyLoop(c, e, log, at, supplies)
    requires (Total(e.window) + left) * BILLION - at > (c.settings.capacity + c.history) * BILLION
    requires |supplies| >= left + 1
    ensures
      var out, next := RefillLoop(c, e, supplies), LoopAt(c, e, at, supplies);
      && out.outcome.Ready? && RefilledWell(c, e, true, log, at, out, next)
    decreases left
  {
    HealthyRefill(c, e, true, supplies[0], log, at);
    var r, next := Refill(c, e, true, supplies[0]), NextAt(c, e, true, at, supplies[0]);
    hide Running, Refill, NextAt, HealthySupply, Fill, CachePosition, Total;
    if r.outcome.Starved? {
      LoopSettlesWithin(c, r.engine, log, next, supplies[1..], left - 1);
    }
  }

  /**
   With a healthy converter the finite tail's retries always end with output:
   capacity and history bound how many can starve, and the loop allows more.
   */
  lemma LoopSettles(c: Config, e: Engine, log: seq<Slot>, at: int, supplies: seq<Supply>)
    requires Running(c, e, log, at) && HealthyLoop(c, e, log, at, supplies)
    requires |supplies| == RefillLimit(c) + 1
    ensures RefillLoop(c, e, supplies).outcome.Ready?
    ensures RefilledWell(c, e, true, log, at, RefillLoop(c, e, supplies), LoopAt(c, e, at, supplies))
  {
    LoopSettlesWithin(c, e, log, at, supplies, c.settings.capacity + c.history + 1);
  }

  /** Whatever is published after a batch was cached, each output keeps exactly the mark of its slot. */
  lemma CachedMarkIsExact(c: Config, e: Engine, log: seq<Slot>, at: int, o: nat, later: seq<Slot>)
    requires Running(c, e, log, at) && e.cache.pcm != [] && e.cache.offset <= o < e.cache.count && log <= later
    ensures
      var frame := PositionAt(e.cache, o) / BILLION;
      && (frame < e.window.taken || e.window.padding)
      && (e.cache.missing <==> frame < e.window.taken && GapAt(later, frame))
  {
    assert e.cache.missing <==>
      PositionAt(e.cache, o) / BILLION < e.window.taken && GapAt(log, PositionAt(e.cache, o) / BILLION);
  }

  /**
   The batched fast path refines the slow one: had this output been converted
   alone, by a window that has meanwhile learnt of any number of later slots,
   its mark would have been the same.
   */
  lemma CachedMatchesSlow(c: Config, e: Engine, log: seq<Slot>, at: int, o: nat, slow: Window, later: seq<Slot>)
    requires Running(c, e, log, at) && e.cache.pcm != [] && e.cache.offset <= o < e.cache.count
    requires log <= later && SourceInv(slow, later) && Passed(slow, PositionAt(e.cache, o))
    requires e.window.taken <= slow.taken && (e.window.padding ==> slow.taken == e.window.taken)
    ensures LiesInGap(slow, Backlog(slow, PositionAt(e.cache, o))) <==> e.cache.missing
  {
    CachedMarkIsExact(c, e, log, at, o, later);
    SlowMarkIsExact(slow, later, PositionAt(e.cache, o));
    hide Running, PositionAt, LiesInGap, Passed;
  }

  lemma PoppedCache(k: Cache, rest: Cache, w: Window, log: seq<Slot>)
    requires CacheTimed(k) && |k.pcm| > 1 && Classified(k, w, log)
    requires rest == k.(pcm := k.pcm[1..], offset := k.offset + 1)
    ensures CacheTimed(rest) && Classified(rest, w, log)
    ensures CachePosition(rest) > CachePosition(k)
  {
    PositionsRise(k, k.offset);
    assert forall o: nat | o < k.count :: PositionAt(rest, o) == PositionAt(k, o);
    hide PositionAt, GapAt;
  }

  /** Playing one output moves the next position on, by a billionth at least. */
  lemma PlayingAdvances(c: Config, e: Engine, log: seq<Slot>, at: int)
    requires Running(c, e, log, at) && e.cache.pcm != []
    ensures Running(c, PopCache(e, Ready), log, at)
    ensures NextPosition(PopCache(e, Ready), at) > NextPosition(e, at)
  {
    PositionsRise(e.cache, e.cache.offset);
    hide SourceInv, Near, Passed, Stamped, Settings.Validate, Settings.RatioInRange, Classified;
    if |e.cache.pcm| > 1 {
      PoppedCache(e.cache, PopCache(e, Ready).cache, e.window, log);
      hide CachePosition;
    }
  }

  /** Right after a reset the converter stands before the first frame, and everything holds. */
  lemma ResetRuns(c: Config, e: Engine, at: int)
    requires ValidConfig(c) && at <= 0
    ensures Running(c, Cleared(e, true), [], at)
  {
    var n := Cleared(e, true);
    assert n.window == EMPTY_WINDOW && n.cache.pcm == [] && !n.resetFailed && n.control.ratio == 0.0;
    EmptyWindowInv([]);
    hide Cleared, SourceInv, Settings.Validate, CacheTimed, Settings.SlowestRatio, Settings.FastestRatio;
    assert Near(c, n.window) && Passed(n.window, at);
    hide Near, Passed;
  }

  /** More published slots change nothing already remembered. */
  lemma RunningLogGrows(c: Config, e: Engine, log: seq<Slot>, more: seq<Slot>, at: int)
    requires Running(c, e, log, at) && Stamped(log + more)
    ensures Running(c, e, log + more, at)
  {
    LogGrows(e.window, log, more);
    hide SourceInv, Near, Passed, Stamped, CacheTimed, Settings.Validate, Settings.RatioInRange, PositionAt;
  }
}
