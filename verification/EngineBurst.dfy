/** Whole bursts with a healthy converter: which of the outputs made are played, and within how many calls. */
module EngineBurst {
  import opened Common
  import opened Engine
  import opened EngineSource
  import opened EngineTime
  import opened EnginePlay
  import opened EngineLive
  import opened EngineMarks
  import PlcSpec

  // ---------------------------------------------------------------- what was made and what was played

  /** One output of the converter: its source position in billionths of a frame, and its sample. */
  datatype Output = Output(at: int, pcm: real)

  function Cached(k: Cache): (r: seq<Output>)
    ensures k.count >= 1 ==> |r| == |k.pcm|
  {
    if k.count == 0 then []
    else seq(|k.pcm|, i requires 0 <= i < |k.pcm| => Output(PositionAt(k, k.offset + i), k.pcm[i]))
  }

  /** Every output converted since the last reset, and those that have been played. */
  datatype Books = Books(made: seq<Output>, played: seq<Output>)

  const BLANK: Books := Books([], [])

  /** The books once the call's refill is entered: a conversion happens only on an empty cache. */
  function Entered(c: Config, l: Live, g: Books, s: Scene): Books
    requires ValidScene(c, s)
  {
    if Enter(c, l.player, s).Playing? && l.player.engine.cache.pcm == []
    then g.(made := g.made + Cached(CallRefill(c, l, s).engine.cache)) else g
  }

  /** The call played the output it had ready: muted, concealed and delayed, it went out of the cache. */
  predicate Plays(c: Config, l: Live, s: Scene)
    requires ValidScene(c, s)
  {
    var n := Enter(c, l.player, s).player.(engine := CallRefill(c, l, s).engine);
    && Enter(c, l.player, s).Playing? && n.engine.cache.pcm != []
    && WellFormed(c, l.player) && WellFormed(c, n) && Render(c, l.player, s) == Play(c, n, Ready)
  }

  function BooksAfter(c: Config, l: Live, g: Books, s: Scene): Books
    requires WellFormed(c, l.player) && ValidScene(c, s)
  {
    var e, k := Entered(c, l, g, s), CallRefill(c, l, s).engine.cache;
    if Render(c, l.player, s).acknowledged.Some? then BLANK
    else if Plays(c, l, s) && Cached(k) != [] then e.(played := e.played + [Cached(k)[0]])
    else e
  }

  function BooksNext(c: Config, l: Live, g: Books, ev: LiveEvent): Books
    requires WellFormed(c, l.player) && HealthyEvent(c, l, ev)
  {
    match ev
    case Published(_) => g
    case Called(s, _) => BooksAfter(c, l, g, s)
    case WasReset(_) => BLANK
  }

  function BooksRun(c: Config, l: Live, g: Books, events: seq<LiveEvent>): Books
    requires HealthyRun(c, l, events)
    decreases |events|
  {
    if events == [] then g else BooksRun(c, LiveNext(c, l, events[0]), BooksNext(c, l, g, events[0]), events[1..])
  }

  predicate Rising(outputs: seq<Output>) {
    forall i, j | 0 <= i < j < |outputs| :: outputs[i].at < outputs[j].at
  }

  predicate Before(outputs: seq<Output>, end: int) {
    forall i | 0 <= i < |outputs| :: outputs[i].at < end
  }

  predicate NotBefore(outputs: seq<Output>, end: int) {
    forall i | 0 <= i < |outputs| :: outputs[i].at >= end
  }

  /** The books balance: played outputs, all before the published end, then exactly those still cached. */
  predicate Balanced(l: Live, g: Books) {
    var end := |l.log| * BILLION;
    && g.made == g.played + Cached(l.player.engine.cache)
    && Rising(g.made) && Before(g.made, l.at) && Before(g.played, end)
    && (l.player.finite.Some? && l.player.finite.value.draining.Some? && l.log != [] ==>
          NotBefore(Cached(l.player.engine.cache), end))
  }

  // ---------------------------------------------------------------- one batch

  lemma CachedRises(k: Cache)
    requires CacheTimed(k) && k.pcm != []
    ensures Rising(Cached(k)) && Before(Cached(k), k.end) && NotBefore(Cached(k), CachePosition(k))
    ensures Cached(k) != [] && Cached(k)[0].at == CachePosition(k)
  {
    var r := Cached(k);
    forall i | 0 <= i < |r|
      ensures CachePosition(k) <= r[i].at < k.end
    {
      PositionsAscend(k, k.offset, k.offset + i);
      PositionsRise(k, k.offset + i);
    }
    forall i, j | 0 <= i < j < |r|
      ensures r[i].at < r[j].at
    {
      PositionsRise(k, k.offset + i);
      PositionsAscend(k, k.offset + i + 1, k.offset + j);
    }
  }

  lemma CachedPops(e: Engine)
    requires CacheTimed(e.cache) && e.cache.pcm != []
    ensures Cached(PopCache(e, Ready).cache) == Cached(e.cache)[1..]
  {
    var k, rest := e.cache, PopCache(e, Ready).cache;
    if |k.pcm| > 1 {
      assert forall o: nat :: PositionAt(rest, o) == PositionAt(k, o);
      hide PositionAt;
    }
  }

  /** Entering a batch keeps the order: it starts where the converter stood. */
  lemma BatchContinues(made: seq<Output>, at: int, k: Cache)
    requires Rising(made) && Before(made, at) && CacheTimed(k) && k.pcm != [] && CachePosition(k) == at
    ensures Rising(made + Cached(k)) && Before(made + Cached(k), k.end)
  {
    CachedRises(k);
    hide Cached;
    var all := made + Cached(k);
    forall i, j | 0 <= i < j < |all|
      ensures all[i].at < all[j].at
    {
    }
    forall i | 0 <= i < |all|
      ensures all[i].at < k.end
    {
    }
  }

  // ---------------------------------------------------------------- one call

  lemma CachedStays(c: Config, q: Player, s: Scene)
    requires q.engine.cache.pcm != [] && !q.engine.resetFailed && s.supplies != []
    ensures Refilling(c, q, s) == Refilled(q.engine, Ready)
  {
  }

  /** What a healthy call's refill leaves. */
  lemma RefillFacts(c: Config, l: Live, s: Scene)
    requires LiveInv(c, l) && HealthyScene(c, l, s) && Enter(c, l.player, s).Playing?
    ensures ValidScene(c, s)
    ensures
      var q, r := Enter(c, l.player, s).player, CallRefill(c, l, s);
      var e, next := r.engine, AtAfter(c, l, s);
      && q.engine.cache == l.player.engine.cache
      && (q.engine.cache.pcm != [] ==> e.cache == q.engine.cache)
      && (e.cache.pcm != [] <==> r.outcome.Ready?) && (q.finite.Some? ==> r.outcome.Ready?)
      && (e.cache.pcm != [] ==> CacheTimed(e.cache) && e.cache.end == next)
      && NextPosition(e, next) == NextPosition(l.player.engine, l.at) && l.at <= next
      && !e.muteFault
  {
    hide PlayerInv, Enter, Refilling, AtAfter, NextPosition, SourceInv, Passed, Classified;
    EnterRuns(c, l, s);
    EnterKeepsShape(c, l.player, s);
    HealthyRefilling(c, l, s);
    var q := Enter(c, l.player, s).player;
    if q.engine.cache.pcm != [] {
      CachedStays(c, q, s);
    }
  }

  /** With the refill entered the books still balance, against the refilled cache. */
  lemma EnteredBalances(c: Config, l: Live, g: Books, s: Scene)
    requires LiveInv(c, l) && HealthyScene(c, l, s) && Enter(c, l.player, s).Playing? && Balanced(l, g)
    ensures ValidScene(c, s)
    ensures
      var e, k := Entered(c, l, g, s), CallRefill(c, l, s).engine.cache;
      && e.played == g.played && e.made == e.played + Cached(k)
      && Rising(e.made) && Before(e.made, AtAfter(c, l, s))
  {
    hide LiveInv, HealthyScene, Enter, CallRefill, AtAfter, Rising, CachePosition, CacheTimed;
    RefillFacts(c, l, s);
    var k := CallRefill(c, l, s).engine.cache;
    if l.player.engine.cache.pcm != [] {
      BeforeGrows(g.made, l.at, AtAfter(c, l, s));
    } else if k.pcm != [] {
      BatchContinues(g.made, l.at, k);
    } else {
      BeforeGrows(g.made, l.at, AtAfter(c, l, s));
    }
  }

  lemma BeforeGrows(outputs: seq<Output>, end: int, later: int)
    requires Before(outputs, end) && end <= later
    ensures Before(outputs, later)
  {
  }

  lemma BeforeJoins(outputs: seq<Output>, o: Output, end: int)
    requires Before(outputs, end) && o.at < end
    ensures Before(outputs + [o], end)
  {
  }

  lemma RestNotBefore(k: Cache, end: int)
    requires CacheTimed(k) && k.pcm != [] && CachePosition(k) >= end
    ensures NotBefore(Cached(k), end)
  {
    CachedRises(k);
    hide Cached, CachePosition;
  }

  /** Without a boundary nothing is converted past the published slots. */
  lemma UnboundedLiesBefore(c: Config, n: Player, log: seq<Slot>)
    requires PlayerInv(c, n, log) && n.finite.None? && CacheTimed(n.engine.cache) && n.engine.cache.pcm != []
    ensures CachePosition(n.engine.cache) < |log| * BILLION
  {
    PositionsRise(n.engine.cache, n.engine.cache.offset);
    NoPadding(n.engine.window, log);
    assert CachePosition(n.engine.cache) == PositionAt(n.engine.cache, n.engine.cache.offset);
    hide GapsExact, Stamped, PositionAt, CachePosition;
  }

  lemma PlayerFacts(c: Config, l: Live, s: Scene)
    requires LiveInv(c, l) && HealthyScene(c, l, s) && Enter(c, l.player, s).Playing?
    ensures WellFormed(c, l.player) && ValidScene(c, s)
    ensures
      var q := Enter(c, l.player, s).player;
      var n := q.(engine := CallRefill(c, l, s).engine);
      && WellFormed(c, q) && WellFormed(c, n) && PlayerInv(c, n, l.log)
      && (q.finite.Some? ==> q.finite.value.end == |l.log| && q.finite.value.draining.None?)
      && Render(c, l.player, s) == Resolve(c, n, CallRefill(c, l, s).outcome, s.resetOk)
  {
    hide Running, Enter, Refilling, Resolve, HealthyScene, EngineInv, AllAccepted;
    SceneFacts(c, l, s);
    RefilledPlayer(c, l, s);
    EnterKeepsShape(c, l.player, s);
  }

  /** How a converting call of a healthy run is resolved: nothing yet, past the end, or the output is played. */
  lemma Resolves(c: Config, l: Live, s: Scene)
    requires LiveInv(c, l) && HealthyScene(c, l, s) && Enter(c, l.player, s).Playing?
    ensures WellFormed(c, l.player) && ValidScene(c, s)
    ensures
      var q, r, k := Enter(c, l.player, s).player, Render(c, l.player, s), CallRefill(c, l, s).engine.cache;
      var n, end := q.(engine := CallRefill(c, l, s).engine), |l.log| * BILLION;
      if k.pcm == [] then
        !Plays(c, l, s) && r.acknowledged.None? && r.player.finite == q.finite && r.player.engine == n.engine
      else if q.finite.Some? && CachePosition(k) >= end then
        WellFormed(c, n) && !Plays(c, l, s) && r == DrainFinite(c, n, s.resetOk)
      else
        && CachePosition(k) < end && Plays(c, l, s)
        && r.acknowledged.None? && r.player.finite == q.finite && r.player.engine == PopCache(n.engine, Ready)
  {
    hide LiveInv, Running, Enter, CallRefill, AtAfter, Play, DrainFinite, CachePosition, PlayerInv, NextPosition,
      CacheTimed, HealthyScene, Render, WellFormed;
    RefillFacts(c, l, s);
    PlayerFacts(c, l, s);
    var q, r := Enter(c, l.player, s).player, CallRefill(c, l, s);
    var n := q.(engine := r.engine);
    PlayShape(c, n, r.outcome);
    if PastEnd(n) {
      DrainShape(c, n, s.resetOk);
    } else if n.finite.None? && r.engine.cache.pcm != [] {
      UnboundedLiesBefore(c, n, l.log);
    }
  }

  /** A call that converts keeps the books, unless it completes the burst. */
  lemma PlayingBalances(c: Config, l: Live, g: Books, s: Scene, restart: int)
    requires LiveInv(c, l) && HealthyScene(c, l, s) && Enter(c, l.player, s).Playing? && Balanced(l, g)
    ensures WellFormed(c, l.player) && ValidScene(c, s)
    ensures Render(c, l.player, s).acknowledged.None? ==> Balanced(LiveThen(c, l, s, restart), BooksAfter(c, l, g, s))
  {
    hide LiveInv, HealthyScene, Enter, CallRefill, AtAfter, Rising, CachePosition, CacheTimed, Render, Plays, Entered,
      PopCache, DrainFinite, WellFormed, Cached, Before, NotBefore;
    Resolves(c, l, s);
    RefillFacts(c, l, s);
    EnteredBalances(c, l, g, s);
    PlayerFacts(c, l, s);
    var q, k, end := Enter(c, l.player, s).player, CallRefill(c, l, s).engine.cache, |l.log| * BILLION;
    var n := q.(engine := CallRefill(c, l, s).engine);
    if k.pcm == [] {
      EmptyCached(k);
    } else if q.finite.Some? && CachePosition(k) >= end {
      DrainShape(c, n, s.resetOk);
      RestNotBefore(k, end);
    } else {
      CachedRises(k);
      CachedPops(n.engine);
      BeforeJoins(g.played, Cached(k)[0], end);
      assert g.played + Cached(k) == (g.played + [Cached(k)[0]]) + Cached(k)[1..];
    }
  }

  lemma EmptyCached(k: Cache)
    requires k.pcm == []
    ensures Cached(k) == []
  {
  }

  /** A call that converts nothing keeps them as they are. */
  lemma HoldingBalances(c: Config, l: Live, g: Books, s: Scene, restart: int)
    requires LiveInv(c, l) && HealthyScene(c, l, s) && !Enter(c, l.player, s).Playing? && Balanced(l, g)
    ensures WellFormed(c, l.player) && ValidScene(c, s) && BooksKept(c, l, g, s)
    ensures Render(c, l.player, s).acknowledged.None? ==> Balanced(LiveThen(c, l, s, restart), g)
    ensures Enter(c, l.player, s).Ending? && l.log != [] ==>
      NotBefore(Cached(l.player.engine.cache), |l.log| * BILLION)
  {
    hide Running, HealthyScene, Enter, CallRefill, AtAfter, Rising, DrainFinite, Cached, Before, NotBefore, EngineInv,
      AllAccepted, Entered, Plays, BooksAfter;
    SceneFacts(c, l, s);
    HeldStays(c, l, s);
    EnterKeepsShape(c, l.player, s);
    EnterRuns(c, l, s);
    NothingEntered(c, l, g, s);
    var q := Enter(c, l.player, s).player;
    if Enter(c, l.player, s).Ending? {
      DrainShape(c, q, s.resetOk);
    }
  }

  /** Unless they are closed, the books are left alone. */
  predicate BooksKept(c: Config, l: Live, g: Books, s: Scene)
    requires WellFormed(c, l.player) && ValidScene(c, s)
  {
    && Entered(c, l, g, s) == g
    && (Render(c, l.player, s).acknowledged.None? ==> BooksAfter(c, l, g, s) == g)
  }

  lemma NothingEntered(c: Config, l: Live, g: Books, s: Scene)
    requires WellFormed(c, l.player) && ValidScene(c, s) && !Enter(c, l.player, s).Playing?
    ensures BooksKept(c, l, g, s)
  {
    hide Enter, Render, CallRefill;
  }

  lemma EmptyBooks(l: Live)
    requires l.player.engine.cache.pcm == []
    ensures Balanced(l, BLANK)
  {
  }

  lemma CallBalances(c: Config, l: Live, g: Books, s: Scene, restart: int)
    requires LiveInv(c, l) && HealthyScene(c, l, s) && restart <= 0 && Balanced(l, g)
    ensures WellFormed(c, l.player) && ValidScene(c, s)
    ensures Balanced(LiveThen(c, l, s, restart), BooksAfter(c, l, g, s))
  {
    hide PlayerInv, Running, HealthyScene, Enter, CallRefill, AtAfter, Render, Plays, Entered, WellFormed, Balanced;
    SceneFacts(c, l, s);
    if Enter(c, l.player, s).Playing? {
      PlayingBalances(c, l, g, s, restart);
    } else {
      HoldingBalances(c, l, g, s, restart);
    }
    if Render(c, l.player, s).acknowledged.Some? {
      RenderShape(c, l.player, s);
      EmptyBooks(LiveThen(c, l, s, restart));
    }
  }

  lemma EventBalances(c: Config, l: Live, g: Books, ev: LiveEvent)
    requires LiveInv(c, l) && HealthyEvent(c, l, ev) && Balanced(l, g)
    ensures Balanced(LiveNext(c, l, ev), BooksNext(c, l, g, ev))
  {
    hide PlayerInv, Running, HealthyScene, LiveThen, BooksAfter, Rising, Cached;
    match ev {
      case Published(slots) => BeforeGrows(g.played, |l.log| * BILLION, |l.log + slots| * BILLION);
      case Called(s, restart) => CallBalances(c, l, g, s, restart) by { hide Balanced; }
      case WasReset(restart) => EmptyBooks(LiveNext(c, l, ev));
    }
  }

  lemma {:induction false} RunBalances(c: Config, l: Live, g: Books, events: seq<LiveEvent>)
    requires LiveInv(c, l) && HealthyRun(c, l, events) && Balanced(l, g)
    ensures Balanced(LiveRun(c, l, events), BooksRun(c, l, g, events))
    decreases |events|
  {
    hide LiveInv, LiveNext, BooksNext, Balanced, HealthyEvent;
    if events != [] {
      assert WellFormed(c, l.player);
      EventBalances(c, l, g, events[0]);
      LiveNextKeeps(c, l, events[0]);
      RunBalances(c, LiveNext(c, l, events[0]), BooksNext(c, l, g, events[0]), events[1..]);
    }
  }

  // ---------------------------------------------------------------- the whole burst

  function BooksOf(c: Config, start: int, events: seq<LiveEvent>): Books
    requires FromCreation(c, start, events)
  {
    BooksRun(c, Live(Created(c), [], start), BLANK, events)
  }

  /** Completing, a call leaves in the cache only outputs at or past the end. */
  lemma CompletionBalances(c: Config, l: Live, g: Books, s: Scene)
    requires LiveInv(c, l) && HealthyScene(c, l, s) && Balanced(l, g)
    requires WellFormed(c, l.player) && ValidScene(c, s) && Render(c, l.player, s).acknowledged.Some?
    ensures
      var e, end := Entered(c, l, g, s), |l.log| * BILLION;
      && e.played == g.played && e.played <= e.made && Rising(e.made) && Before(e.played, end)
      && (l.log != [] ==> NotBefore(e.made[|e.played|..], end))
  {
    hide LiveInv, HealthyScene, Enter, CallRefill, AtAfter, Rising, CachePosition, CacheTimed, Render, Plays, Entered,
      PopCache, DrainFinite, WellFormed, Cached, Before, NotBefore;
    var k := CallRefill(c, l, s).engine.cache;
    if Enter(c, l.player, s).Playing? {
      Resolves(c, l, s);
      RefillFacts(c, l, s);
      EnteredBalances(c, l, g, s);
      RestNotBefore(k, |l.log| * BILLION);
    } else {
      HoldingBalances(c, l, g, s, 0);
      if Enter(c, l.player, s).Held? {
        HeldNeverCompletes(c, l.player, s);
      }
    }
  }

  lemma HeldNeverCompletes(c: Config, p: Player, s: Scene)
    requires WellFormed(c, p) && ValidScene(c, s) && Enter(c, p, s).Held?
    ensures Render(c, p, s).acknowledged.None?
  {
    EnterKeepsShape(c, p, s);
    hide Enter;
  }

  lemma RunIsBalanced(c: Config, start: int, events: seq<LiveEvent>)
    requires FromCreation(c, start, events)
    ensures LiveInv(c, LiveAfter(c, start, events))
    ensures Balanced(LiveAfter(c, start, events), BooksOf(c, start, events))
  {
    var first := Live(Created(c), [], start);
    hide LiveInv, HealthyRun, Created;
    CreatedLives(c, start);
    NothingCreated(c);
    EmptyBooks(first);
    hide Balanced;
    LiveRunKeeps(c, first, events);
    RunBalances(c, first, BLANK, events);
  }

  lemma SplitsAt(made: seq<Output>, played: seq<Output>, end: int)
    requires played <= made && Before(played, end) && NotBefore(made[|played|..], end)
    ensures forall i | 0 <= i < |made| :: i < |played| <==> made[i].at < end
  {
    forall i | 0 <= i < |made|
      ensures i < |played| <==> made[i].at < end
    {
      if i >= |played| {
        assert made[|played|..][i - |played|] == made[i];
      } else {
        assert played[i] == made[i];
      }
    }
  }

  /**
   Over a whole burst of a healthy run, from its first call to its outcome, the
   outputs played are, in order and once each, exactly those made for a position
   before the end: none before it is dropped, none at or past it is played. Of a
   burst without slots nothing at or after the first frame is played.
   */
  lemma BurstPlaysExactlyItsOwn(c: Config, start: int, events: seq<LiveEvent>, s: Scene)
    requires FromCreation(c, start, events)
    requires
      var l := LiveAfter(c, start, events);
      && WellFormed(c, l.player) && ValidScene(c, s) && HealthyScene(c, l, s)
      && Render(c, l.player, s).acknowledged.Some?
    ensures
      var l := LiveAfter(c, start, events);
      var e, end := Entered(c, l, BooksOf(c, start, events), s), |l.log| * BILLION;
      && Rising(e.made) && e.played <= e.made && Before(e.played, end)
      && (l.log != [] ==> forall i | 0 <= i < |e.made| :: i < |e.played| <==> e.made[i].at < end)
  {
    hide LiveInv, HealthyScene, Render, WellFormed, Entered, Rising, HealthyRun, Created, LiveAfter, BooksOf,
      FromCreation, Balanced, Before, NotBefore;
    RunIsBalanced(c, start, events);
    var l, g := LiveAfter(c, start, events), BooksOf(c, start, events);
    CompletionBalances(c, l, g, s);
    var e := Entered(c, l, g, s);
    if l.log != [] {
      SplitsAt(e.made, e.played, |l.log| * BILLION);
    }
  }

  lemma NothingCreated(c: Config)
    requires ValidConfig(c)
    ensures Created(c).engine.cache.pcm == []
  {
  }

  // ---------------------------------------------------------------- within how many calls

  /** Every output of the batch moves the source position on by at least this much. */
  predicate Paced(k: Cache, pace: nat) {
    k.pcm != [] ==> k.count * pace <= k.end - k.start
  }

  /** The calls keep that pace, whatever they convert. */
  predicate KeepsPace(c: Config, l: Live, scenes: seq<Scene>, pace: nat)
    decreases |scenes|
  {
    scenes == [] ||
    (WellFormed(c, l.player) && ValidScene(c, scenes[0])
     && (Enter(c, l.player, scenes[0]).Playing? ==> Paced(CallRefill(c, l, scenes[0]).engine.cache, pace))
     && KeepsPace(c, LiveThen(c, l, scenes[0], 0), scenes[1..], pace))
  }

  /** Calls a captured burst can still take: outputs before its end, then the lookahead. */
  function CallsLeft(p: Player, at: int, pace: nat): nat
    requires p.finite.Some? && pace > 0
  {
    if p.finite.value.draining.Some? then p.finite.value.draining.value
    else CeilDiv(Max(0, p.finite.value.end * BILLION - NextPosition(p.engine, at)), pace) + |p.positions|
  }

  lemma PacedRise(k: Cache, o: nat, pace: nat)
    requires k.count >= 1 && k.count * pace <= k.end - k.start && o < k.count
    ensures PositionAt(k, o) + pace <= PositionAt(k, o + 1)
  {
    var span, count := k.end - k.start, k.count;
    var n, m := span * o, span * (o + 1);
    assert m == n + span;
    QuotientGains(n, m, count, pace);
  }

  lemma QuotientGains(n: int, m: int, count: nat, pace: nat)
    requires count >= 1 && m >= n + count * pace
    ensures n / count + pace <= m / count
  {
    var q := n / count;
    assert q * count <= n;
    assert (q + pace) * count == q * count + count * pace;
    var d := m / count;
    assert m < (d + 1) * count;
    if d + 1 <= q + pace {
      MulMonotone(d + 1, q + pace, count);
    }
  }

  /** Playing an output moves the next position on by the pace. */
  lemma PlayingKeepsPace(e: Engine, at: int, pace: nat)
    requires CacheTimed(e.cache) && e.cache.pcm != [] && e.cache.end == at && Paced(e.cache, pace)
    ensures NextPosition(PopCache(e, Ready), at) >= CachePosition(e.cache) + pace
  {
    var k, rest := e.cache, PopCache(e, Ready).cache;
    PacedRise(k, k.offset, pace);
    if |k.pcm| == 1 {
      PositionsAscend(k, k.offset + 1, k.count);
    } else {
      assert PositionAt(rest, rest.offset) == PositionAt(k, k.offset + 1);
    }
    hide PositionAt;
  }

  lemma FewerLeft(end: int, position: int, next: int, pace: nat)
    requires pace > 0 && position < end && next >= position + pace
    ensures CeilDiv(Max(0, end - next), pace) < CeilDiv(Max(0, end - position), pace)
  {
    var a, b := Max(0, end - next), Max(0, end - position);
    var q := CeilDiv(b, pace);
    CeilDivCovers(b, pace, q);
    assert q >= 1 && (q - 1) * pace == q * pace - pace;
    CeilDivCovers(a, pace, q - 1);
  }

  /** An unresolved healthy call takes at least one of the calls left. */
  lemma CallIsCounted(c: Config, l: Live, s: Scene, pace: nat)
    requires LiveInv(c, l) && HealthyScene(c, l, s) && l.player.finite.Some? && pace > 0
    requires WellFormed(c, l.player) && ValidScene(c, s) && Render(c, l.player, s).acknowledged.None?
    requires !Render(c, l.player, s).player.engine.muteFault
    requires Enter(c, l.player, s).Playing? ==> Paced(CallRefill(c, l, s).engine.cache, pace)
    ensures
      var n := LiveThen(c, l, s, 0);
      n.player.finite.Some? && CallsLeft(n.player, n.at, pace) < CallsLeft(l.player, l.at, pace)
  {
    hide Running, PlayerInv, HealthyScene, Enter, CallRefill, AtAfter, Render, DrainFinite, NextPosition, WellFormed;
    CapturedStays(c, l, s);
    match Enter(c, l.player, s) {
      case Held(_, _) => HeldKeeps(c, l, s);
      case Ending(_) => EndingIsCounted(c, l, s);
      case Playing(_) => PlayingIsCounted(c, l, s, pace);
    }
  }

  lemma CapturedStays(c: Config, l: Live, s: Scene)
    requires LiveInv(c, l) && HealthyScene(c, l, s) && l.player.finite.Some?
    ensures
      var q := Enter(c, l.player, s).player;
      && q.finite == l.player.finite && q.positions == l.player.positions && l.player.finite.value.end == |l.log|
      && (Enter(c, l.player, s).Playing? ==> q.finite.value.draining.None?)
      && (Enter(c, l.player, s).Ending? ==> q.finite.value.end == 0 || q.finite.value.draining.Some?)
  {
    EnterKeepsShape(c, l.player, s);
    hide Enter, Running, EngineInv, HealthyScene;
  }

  lemma EndingIsCounted(c: Config, l: Live, s: Scene)
    requires LiveInv(c, l) && HealthyScene(c, l, s) && Enter(c, l.player, s).Ending?
    requires WellFormed(c, l.player) && ValidScene(c, s) && Render(c, l.player, s).acknowledged.None?
    requires l.player.finite.Some? && Enter(c, l.player, s).player.finite == l.player.finite
    ensures
      var n := LiveThen(c, l, s, 0).player;
      && n.finite.Some? && n.finite.value.draining.Some?
      && n.finite.value.draining.value < Left(l.player)
  {
    EnterKeepsShape(c, l.player, s);
    hide Enter, Running, PlayerInv, HealthyScene, CeilDiv, DrainFinite;
    var q := Enter(c, l.player, s).player;
    DrainCounts(c, q, s.resetOk);
  }

  lemma LookaheadKeepsLength(c: Config, p: Player, s: Scene)
    requires WellFormed(c, p) && ValidScene(c, s) && Render(c, p, s).acknowledged.None?
    ensures |Render(c, p, s).player.positions| == |p.positions|
  {
    EnterKeepsShape(c, p, s);
    hide Enter, Refilling, CachePosition, Support, PlcSpec.Process, PlcSpec.Drain;
  }

  lemma NextIsCached(e: Engine, at: int)
    requires e.cache.pcm != []
    ensures NextPosition(e, at) == CachePosition(e.cache)
  {
  }

  lemma DrainCounts(c: Config, n: Player, ok: bool)
    requires WellFormed(c, n) && n.finite.Some? && DrainFinite(c, n, ok).acknowledged.None?
    ensures
      var r := DrainFinite(c, n, ok).player;
      r.finite.Some? && r.finite.value.draining.Some? && r.finite.value.draining.value < Left(n)
  {
    hide PlcSpec.Drain;
  }

  lemma PlayingIsCounted(c: Config, l: Live, s: Scene, pace: nat)
    requires LiveInv(c, l) && HealthyScene(c, l, s) && Enter(c, l.player, s).Playing? && pace > 0
    requires WellFormed(c, l.player) && ValidScene(c, s) && Render(c, l.player, s).acknowledged.None?
    requires l.player.finite.Some? && l.player.finite.value.draining.None? && l.player.finite.value.end == |l.log|
    requires Enter(c, l.player, s).player.finite == l.player.finite
    requires Enter(c, l.player, s).player.positions == l.player.positions
    requires Paced(CallRefill(c, l, s).engine.cache, pace)
    ensures
      var n := LiveThen(c, l, s, 0);
      n.player.finite.Some? && CallsLeft(n.player, n.at, pace) < CallsLeft(l.player, l.at, pace)
  {
    hide LiveInv, HealthyScene, Enter, CallRefill, AtAfter, Render, DrainFinite, NextPosition, WellFormed, PopCache,
      CachePosition, CacheTimed, Paced, CeilDiv, Plays;
    RefillFacts(c, l, s);
    Resolves(c, l, s);
    var q, e, end := Enter(c, l.player, s).player, CallRefill(c, l, s).engine, |l.log| * BILLION;
    var n := q.(engine := e);
    NextIsCached(e, AtAfter(c, l, s));
    if CachePosition(e.cache) >= end {
      DrainShape(c, n, s.resetOk);
      DrainCounts(c, n, s.resetOk);
    } else {
      PlayingKeepsPace(e, AtAfter(c, l, s), pace);
      FewerLeft(end, CachePosition(e.cache), NextPosition(PopCache(e, Ready), AtAfter(c, l, s)), pace);
      LookaheadKeepsLength(c, l.player, s);
    }
  }

  /**
   A captured burst is resolved within as many calls as outputs of the given pace
   fit between the next position and its end, and the lookahead holds.
   */
  lemma {:induction false} BurstResolvesAtPace(c: Config, l: Live, scenes: seq<Scene>, pace: nat)
    requires LiveInv(c, l) && l.player.finite.Some? && pace > 0
    requires Unresolved(c, l, scenes) && KeepsPace(c, l, scenes, pace)
    ensures |scenes| <= CallsLeft(l.player, l.at, pace)
    decreases |scenes|
  {
    hide LiveInv, HealthyScene, Render, LiveThen, Enter, CallRefill, CallsLeft, Paced;
    if scenes != [] {
      SceneFacts(c, l, scenes[0]);
      LiveStep(c, l, scenes[0], 0);
      CallIsCounted(c, l, scenes[0], pace);
      BurstResolvesAtPace(c, LiveThen(c, l, scenes[0], 0), scenes[1..], pace);
    }
  }

  /** Every healthy batch keeps the pace of a billionth, so the bound never fails to apply. */
  lemma {:induction false} HealthyKeepsPace(c: Config, l: Live, scenes: seq<Scene>)
    requires LiveInv(c, l) && Unresolved(c, l, scenes)
    ensures KeepsPace(c, l, scenes, 1)
    decreases |scenes|
  {
    hide LiveInv, HealthyScene, Render, LiveThen, Enter, CallRefill;
    if scenes != [] {
      SceneFacts(c, l, scenes[0]);
      LiveStep(c, l, scenes[0], 0);
      if Enter(c, l.player, scenes[0]).Playing? {
        RefillFacts(c, l, scenes[0]);
      }
      HealthyKeepsPace(c, LiveThen(c, l, scenes[0], 0), scenes[1..]);
    }
  }
}
