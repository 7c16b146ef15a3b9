/**
 A whole call of the consumer is a run of the single loads and stores of Handoff.
 In particular the call itself earns the step that Handoff guards: it begins a
 drained completion only where the read cursor stands at the captured end.
 */
module HandoffSteps {
  import opened Common
  import opened Engine
  import opened EnginePlay
  import opened Consumer
  import opened Agreement
  import C = Conversion
  import H = Handoff
  import P = Producer
  import PlcSpec

  /** The same word, epoch, unread count and boundary; Handoff counts slots from the first ever published. */
  predicate Mirrors(h: H.State, e: Endpoints) {
    && h.producer.Idle? && h.consumer.Resting? && h.word == e.shared.word && h.serial == e.shared.serial
    && h.published == h.taken + |e.shared.fifo|
    && (h.finite.Some? <==> e.player.finite.Some?)
    && (h.finite.Some? ==>
          && h.finite.value.token == e.player.finite.value.token
          && h.finite.value.end - h.taken == e.player.finite.value.end - e.player.engine.window.taken)
  }

  function Takes(n: nat): (r: seq<H.Step>)
    ensures |r| == n
    decreases n
  {
    if n == 0 then [] else [H.Take] + Takes(n - 1)
  }

  /** How many slots the refills of a call take. */
  function TakenBy(c: Config, e: Endpoints, replies: seq<Replies>, ok: bool): int
    requires |replies| == RefillLimit(c) + 1
  {
    var entry := Enter(c, e.player, SceneOf(c, e.player, e.shared, replies, ok));
    if entry.Playing? then |e.shared.fifo| - |Leaves(c, entry.player, e.shared.fifo, replies)| else 0
  }

  /** Loading the word, and with a new pending boundary the end. */
  function CaptureSteps(e: Endpoints): seq<H.Step> {
    if e.player.finite.None? && H.Pending(e.shared.word) then [H.LoadWord, H.LoadEnd] else [H.LoadWord]
  }

  /** The stores of the completion, if there is one. */
  function CompletionSteps(acknowledged: Option<nat>): seq<H.Step> {
    if acknowledged.None? then []
    else if acknowledged.value == H.DRAINED then [H.BeginDrained] + ([H.BumpSerial] + ([H.Acknowledge] + []))
    else [H.BeginFailed] + ([H.BumpSerial] + DISCARD_STEPS)
  }

  /** After a failure the rest of the FIFO goes before the outcome is stored. */
  const DISCARD_STEPS: seq<H.Step> := [H.AcquireRest] + ([H.DropRest] + ([H.Acknowledge] + []))

  /** What the call's refills are proved to have done by the time it is resolved. */
  predicate Settled(c: Config, w: World, e: Endpoints, replies: seq<Replies>, ok: bool)
    requires WellFormed(c, e.player) && |replies| == RefillLimit(c) + 1
  {
    var scene := SceneOf(c, e.player, e.shared, replies, ok);
    var n, q, r := TakenBy(c, e, replies, ok), Capture(e.player, scene).finite, Render(c, e.player, scene);
    && 0 <= n <= |e.shared.fifo|
    && Reached(c, e.player, scene).taken == e.player.engine.window.taken + n
    && (r.acknowledged.Some? ==> q.Some?)
    && (r.acknowledged == Some(H.DRAINED) ==> n == |e.shared.fifo| && q.value.end == Reached(c, e.player, scene).taken)
    && (r.acknowledged.None? ==>
          && r.player.engine.window == Reached(c, e.player, scene)
          && (r.player.finite.Some? <==> q.Some?)
          && (q.Some? ==> r.player.finite.value.token == q.value.token && r.player.finite.value.end == q.value.end))
  }

  /** The boundary a call ends with is the one it entered with. */
  lemma BoundaryKept(c: Config, p: Player, s: Scene)
    requires WellFormed(c, p) && ValidScene(c, s)
    ensures
      var q, r := Capture(p, s).finite, Render(c, p, s);
      && (r.acknowledged.Some? ==> q.Some?)
      && (r.acknowledged.None? ==>
            && (r.player.finite.Some? <==> q.Some?)
            && (q.Some? ==> r.player.finite.value.token == q.value.token && r.player.finite.value.end == q.value.end))
  {
    EnterKeepsShape(c, p, s);
    var q := Enter(c, p, s).player;
    hide Enter, Play, DrainFinite, Complete, Refilling, CachePosition;
    if Enter(c, p, s).Ending? {
      DrainShape(c, q, s.resetOk);
    } else if Enter(c, p, s).Playing? {
      var n := q.(engine := Refilling(c, q, s).engine);
      PlayShape(c, n, Refilling(c, q, s).outcome);
      if q.finite.Some? {
        CompleteShape(c, n, true, s.resetOk);
        DrainShape(c, n, s.resetOk);
      }
    }
  }

  lemma {:induction false} LoopLeavesFewer(c: Config, e: Engine, fifo: seq<Slot>, replies: seq<Replies>)
    requires replies != []
    ensures |LoopLeaves(c, e, fifo, replies)| <= |fifo|
    decreases |replies|
  {
    hide Refill, C.Seen, C.RefillRemoves;
    var r, rest := Refill(c, e, true, C.Seen(c, e, fifo, replies[0])), fifo[C.RefillRemoves(c, e, fifo)..];
    if r.outcome.Starved? && |replies| > 1 {
      LoopLeavesFewer(c, r.engine, rest, replies[1..]);
    }
  }

  lemma LeavesFewer(c: Config, q: Player, fifo: seq<Slot>, replies: seq<Replies>)
    requires replies != []
    ensures |Leaves(c, q, fifo, replies)| <= |fifo|
  {
    LoopLeavesFewer(c, q.engine, fifo, replies);
    hide C.RefillRemoves, LoopLeaves;
  }

  lemma CallSettles(c: Config, w: World, e: Endpoints, replies: seq<Replies>, ok: bool)
    requires Agrees(c, w, e) && w.intact && |replies| == RefillLimit(c) + 1
    requires !RefusedDuring(c, e.player, SceneOf(c, e.player, e.shared, replies, ok))
    ensures WellFormed(c, e.player) && Settled(c, w, e, replies, ok)
  {
    hide Render, Enter, Refilling, EngineInv, WellFormed, RefusedDuring, Leaves, SceneOf, ValidConfig, LoopSees;
    var scene := SceneOf(c, e.player, e.shared, replies, ok);
    SceneIsSeen(c, e.player, w.log, e.shared, replies, ok);
    BoundaryKept(c, e.player, scene);
    EnterKeepsShape(c, e.player, scene);
    RenderKept(c, e.player, w.log, scene);
    if Enter(c, e.player, scene).Playing? {
      RefillsLeaveRest(c, e.player, w.log, e.shared, replies, ok);
      LeavesFewer(c, Enter(c, e.player, scene).player, e.shared.fifo, replies);
    }
    if Render(c, e.player, scene).acknowledged.None? {
      WindowAfter(c, e.player, scene);
    }
    EndIsLog(c, e.player, w.log, scene);
  }

  /** Captured now or before, the end is the number of slots published. */
  lemma EndIsLog(c: Config, p: Player, log: seq<Slot>, s: Scene)
    requires PlayerInv(c, p, log) && Sees(c, p, log, s)
    ensures Capture(p, s).finite.Some? ==> Capture(p, s).finite.value.end == |log|
  {
    hide EngineInv, Enter, LoopSees, AllAccepted;
  }

  // ---------------------------------------------------------------- the steps

  lemma {:induction false} Join(h: H.State, a: seq<H.Step>, b: seq<H.Step>)
    requires H.Legal(h, a) && H.Legal(H.Run(h, a), b)
    ensures H.Legal(h, a + b) && H.Run(h, a + b) == H.Run(H.Run(h, a), b)
    decreases |a|
  {
    hide H.Do, H.Enabled;
    if a == [] {
      assert a + b == b;
    } else {
      Join(H.Do(h, a[0]), a[1..], b);
      assert (a + b)[1..] == a[1..] + b;
    }
  }

  lemma {:induction false} TakesRun(h: H.State, n: nat)
    requires h.consumer.Resting? && h.taken + n <= h.published
    ensures H.Legal(h, Takes(n)) && H.Run(h, Takes(n)) == h.(taken := h.taken + n)
    decreases n
  {
    if n > 0 {
      TakesRun(H.Do(h, H.Take), n - 1);
    }
  }

  /** One step, then the rest. */
  lemma First(h: H.State, step: H.Step, rest: seq<H.Step>)
    requires H.Enabled(h, step) && H.Legal(H.Do(h, step), rest)
    ensures H.Legal(h, [step] + rest) && H.Run(h, [step] + rest) == H.Run(H.Do(h, step), rest)
  {
    H.Prepend(h, step, rest);
  }

  lemma CaptureRun(h: H.State, e: Endpoints)
    requires Mirrors(h, e)
    ensures
      var steps := CaptureSteps(e);
      && H.Legal(h, steps)
      && H.Run(h, steps) ==
           if |steps| == 1 then h else h.(finite := Some(H.Boundary(h.word / 4, h.published)))
  {
    if |CaptureSteps(e)| == 1 {
      assert [H.LoadWord] + [] == [H.LoadWord];
      First(h, H.LoadWord, []);
    } else {
      var g := H.Do(h, H.LoadWord);
      assert H.Legal(H.Do(g, H.LoadEnd), []);
      First(g, H.LoadEnd, []);
      First(h, H.LoadWord, [H.LoadEnd] + []);
      assert [H.LoadWord] + ([H.LoadEnd] + []) == [H.LoadWord, H.LoadEnd];
    }
  }

  lemma DrainedRun(h: H.State)
    requires h.consumer.Resting? && h.finite.Some? && h.taken == h.finite.value.end
    ensures
      var steps, next := CompletionSteps(Some(H.DRAINED)), h.finite.value.token * 4 + H.DRAINED;
      && H.Legal(h, steps)
      && H.Run(h, steps) == h.(finite := None, serial := h.serial + 1, word := next, stored := h.stored + [next])
  {
    var h1 := H.Do(h, H.BeginDrained);
    var h2 := H.Do(h1, H.BumpSerial);
    var h3 := H.Do(h2, H.Acknowledge);
    assert H.Legal(h3, []) && H.Run(h3, []) == h3;
    hide H.Legal, H.Run;
    First(h2, H.Acknowledge, []);
    First(h1, H.BumpSerial, [H.Acknowledge] + []);
    First(h, H.BeginDrained, [H.BumpSerial] + ([H.Acknowledge] + []));
  }

  lemma DiscardRun(h: H.State)
    requires h.consumer.Acquiring?
    ensures H.Legal(h, DISCARD_STEPS)
    ensures
      var next := h.consumer.token * 4 + H.ADAPTER_ERROR;
      H.Run(h, DISCARD_STEPS) ==
        h.(consumer := H.Resting, taken := h.published, word := next, stored := h.stored + [next])
  {
    var h1 := H.Do(h, H.AcquireRest);
    var h2 := H.Do(h1, H.DropRest);
    var h3 := H.Do(h2, H.Acknowledge);
    assert H.Legal(h3, []) && H.Run(h3, []) == h3;
    hide H.Legal, H.Run;
    First(h2, H.Acknowledge, []);
    First(h1, H.DropRest, [H.Acknowledge] + []);
    First(h, H.AcquireRest, [H.DropRest] + ([H.Acknowledge] + []));
  }

  lemma FailedRun(h: H.State)
    requires h.consumer.Resting? && h.finite.Some?
    ensures
      var steps, next := CompletionSteps(Some(H.ADAPTER_ERROR)), h.finite.value.token * 4 + H.ADAPTER_ERROR;
      && H.Legal(h, steps)
      && H.Run(h, steps) ==
           h.(finite := None, serial := h.serial + 1, taken := h.published, word := next, stored := h.stored + [next])
  {
    hide H.Legal, H.Run, DISCARD_STEPS;
    var h1 := H.Do(h, H.BeginFailed);
    var h2 := H.Do(h1, H.BumpSerial);
    DiscardRun(h2);
    First(h1, H.BumpSerial, DISCARD_STEPS);
    First(h, H.BeginFailed, [H.BumpSerial] + DISCARD_STEPS);
  }

  predicate Outcome(acknowledged: Option<nat>) {
    acknowledged.Some? ==> acknowledged.value == H.DRAINED || acknowledged.value == H.ADAPTER_ERROR
  }

  lemma CompletionRun(h: H.State, acknowledged: Option<nat>)
    requires h.consumer.Resting? && Outcome(acknowledged) && (acknowledged.Some? ==> h.finite.Some?)
    requires acknowledged == Some(H.DRAINED) ==> h.taken == h.finite.value.end
    ensures H.Legal(h, CompletionSteps(acknowledged))
    ensures H.Run(h, CompletionSteps(acknowledged)) ==
      if acknowledged.None? then h
      else
        var next := h.finite.value.token * 4 + acknowledged.value;
        h.(finite := None, serial := h.serial + 1, word := next, stored := h.stored + [next],
           taken := if acknowledged.value == H.DRAINED then h.taken else h.published)
  {
    if acknowledged == Some(H.DRAINED) {
      DrainedRun(h);
    } else if acknowledged.Some? {
      FailedRun(h);
    }
    hide H.Do, H.Enabled;
  }

  // ---------------------------------------------------------------- a call is a run

  /** The loads and stores of one call, in order. */
  function CallSteps(c: Config, e: Endpoints, replies: seq<Replies>, ok: bool): seq<H.Step>
    requires WellFormed(c, e.player) && |replies| == RefillLimit(c) + 1
  {
    CaptureSteps(e) + (Takes(Max(0, TakenBy(c, e, replies, ok))) +
      CompletionSteps(Render(c, e.player, SceneOf(c, e.player, e.shared, replies, ok)).acknowledged))
  }

  /** What the call does to the ring, in terms of the slots it took and how it ended. */
  lemma RingAfter(c: Config, e: Endpoints, replies: seq<Replies>, ok: bool)
    requires WellFormed(c, e.player) && |replies| == RefillLimit(c) + 1
    ensures
      var scene := SceneOf(c, e.player, e.shared, replies, ok);
      var finite, r, after := Capture(e.player, scene).finite, Render(c, e.player, scene),
                              SharedAfter(c, e.player, e.shared, replies, ok);
      && (r.acknowledged.None? ==>
            && after.word == e.shared.word && after.serial == e.shared.serial
            && |after.fifo| == |e.shared.fifo| - TakenBy(c, e, replies, ok))
      && (r.acknowledged.Some? && finite.Some? ==>
            && after.serial == e.shared.serial + 1 && after.word == finite.value.token * 4 + r.acknowledged.value
            && |after.fifo| ==
                 if r.acknowledged.value == H.DRAINED then |e.shared.fifo| - TakenBy(c, e, replies, ok) else 0)
  {
    var scene := SceneOf(c, e.player, e.shared, replies, ok);
    EnterKeepsShape(c, e.player, scene);
    if Render(c, e.player, scene).acknowledged.Some? {
      OutcomeOfCompletion(c, e.player, scene);
    }
    hide Enter, Render, Leaves, WellFormed, Supplies;
  }

  lemma Completes(c: Config, p: Player, s: Scene)
    requires WellFormed(c, p) && ValidScene(c, s)
    ensures
      var r := Render(c, p, s);
      && Outcome(r.acknowledged)
      && (r.acknowledged.Some? ==> r.player.finite.None? && r.player.engine.window == EMPTY_WINDOW)
  {
    RenderShape(c, p, s);
    if Render(c, p, s).acknowledged.Some? {
      OutcomeOfCompletion(c, p, s);
    }
    hide Render;
  }

  /** The boundary held once the word is loaded, by the steps and by the call. */
  predicate SameBoundary(h: H.State, finite: Option<Finite>, taken: nat) {
    && (h.finite.Some? <==> finite.Some?)
    && (finite.Some? ==>
          h.finite.value.token == finite.value.token && h.finite.value.end - h.taken == finite.value.end - taken)
  }

  lemma CaptureMirrors(c: Config, e: Endpoints, replies: seq<Replies>, ok: bool, h: H.State)
    requires Mirrors(h, e)
    ensures H.Legal(h, CaptureSteps(e))
    ensures
      var g := H.Run(h, CaptureSteps(e));
      && SameBoundary(g, Capture(e.player, SceneOf(c, e.player, e.shared, replies, ok)).finite,
                      e.player.engine.window.taken)
      && g == h.(finite := g.finite)
  {
    CaptureRun(h, e);
    hide H.Legal, H.Run, Enter, Supplies;
  }

  /** What the steps leave when the call is over. */
  lemma EndMirrors(c: Config, w: World, e: Endpoints, replies: seq<Replies>, ok: bool, h: H.State)
    requires WellFormed(c, e.player) && |replies| == RefillLimit(c) + 1 && Settled(c, w, e, replies, ok)
    requires h.producer.Idle? && h.consumer.Resting? && h.word == e.shared.word && h.serial == e.shared.serial
    requires h.published == h.taken + |e.shared.fifo| - TakenBy(c, e, replies, ok)
    requires
      var scene := SceneOf(c, e.player, e.shared, replies, ok);
      SameBoundary(h, Capture(e.player, scene).finite, Reached(c, e.player, scene).taken)
    ensures
      var r := Render(c, e.player, SceneOf(c, e.player, e.shared, replies, ok));
      && H.Legal(h, CompletionSteps(r.acknowledged))
      && Mirrors(H.Run(h, CompletionSteps(r.acknowledged)), Moved(c, e, Renders(replies, ok)))
  {
    hide Render, Enter, WellFormed, Leaves, SceneOf, H.Legal, H.Run, TakenBy, SharedAfter, Reached, Capture,
      CompletionSteps, ValidScene;
    SceneIsValid(c, e, replies, ok);
    RingAfter(c, e, replies, ok);
    var scene := SceneOf(c, e.player, e.shared, replies, ok);
    Completes(c, e.player, scene);
    CompletionRun(h, Render(c, e.player, scene).acknowledged);
  }

  /**
   A call in which no slot was refused is a legal run of the single steps, from
   any mirroring state to one that mirrors what the call left: captures, takes and
   completes in that order. Legal means that its drained completion, if it comes
   to one, begins with every slot up to the captured end taken.
   */
  lemma CallIsHandoffRun(c: Config, w: World, e: Endpoints, replies: seq<Replies>, ok: bool, h: H.State)
    requires Agrees(c, w, e) && w.intact && |replies| == RefillLimit(c) + 1 && Mirrors(h, e)
    requires !RefusedDuring(c, e.player, SceneOf(c, e.player, e.shared, replies, ok))
    ensures WellFormed(c, e.player)
    ensures H.Legal(h, CallSteps(c, e, replies, ok))
    ensures Mirrors(H.Run(h, CallSteps(c, e, replies, ok)), Moved(c, e, Renders(replies, ok)))
  {
    hide Render, Enter, WellFormed, RefusedDuring, Leaves, SceneOf, H.Legal, H.Run, WorldInv, TakenBy, Reached,
      Capture, CompletionSteps, Moved, CaptureSteps, ValidScene;
    CallSettles(c, w, e, replies, ok);
    SceneIsValid(c, e, replies, ok);
    CaptureMirrors(c, e, replies, ok, h);
    var n := TakenBy(c, e, replies, ok);
    var acknowledged := Render(c, e.player, SceneOf(c, e.player, e.shared, replies, ok)).acknowledged;
    var h1 := H.Run(h, CaptureSteps(e));
    TakesRun(h1, n);
    var h2 := H.Run(h1, Takes(n));
    EndMirrors(c, w, e, replies, ok, h2);
    Join(h1, Takes(n), CompletionSteps(acknowledged));
    Join(h, CaptureSteps(e), Takes(n) + CompletionSteps(acknowledged));
  }

  // ---------------------------------------------------------------- what the producer is told

  /**
   Of a burst waiting for its outcome the token reports pending until a call ends
   it, then what that call acknowledged; a reset cancels it. Ended any way but
   drained, none of its slots and none of its mute records is left behind.
   */
  lemma OutcomeIsReported(c: Config, w: World, e: Endpoints, m: Move)
    requires Agrees(c, w, e) && WellFormed(c, e.player) && Fits(c, e, m) && H.Pending(e.shared.word)
    ensures
      var n, token := Moved(c, e, m).shared, e.shared.word / 4;
      match m
      case Produces(_, _) => H.FinishStatus(n.word, token) == Some(0)
      case Resets(_) => H.FinishStatus(n.word, token) == Some(2) && n.fifo == [] && n.records == []
      case Renders(replies, ok) =>
        var acknowledged := Render(c, e.player, SceneOf(c, e.player, e.shared, replies, ok)).acknowledged;
        && n.records == []
        && H.FinishStatus(n.word, token) == Some(if acknowledged.Some? then acknowledged.value else 0)
        && (acknowledged.Some? ==> acknowledged.value == 1 || (acknowledged.value == 3 && n.fifo == []))
  {
    hide Render, Enter, WellFormed, WorldInv, Leaves, Supplies;
    match m {
      case Produces(_, _) =>
      case Resets(_) => assert e.shared.word == e.shared.word / 4 * 4;
      case Renders(replies, ok) =>
        var scene := SceneOf(c, e.player, e.shared, replies, ok);
        SceneIsValid(c, e, replies, ok);
        BoundaryKept(c, e.player, scene);
        Completes(c, e.player, scene);
        RingAfter(c, e, replies, ok);
        RecordsAreRead(c, e, replies, ok);
        assert Capture(e.player, scene).finite.value.token == e.shared.word / 4;
    }
  }

  lemma RecordsAreRead(c: Config, e: Endpoints, replies: seq<Replies>, ok: bool)
    requires WellFormed(c, e.player) && |replies| == RefillLimit(c) + 1
    ensures SharedAfter(c, e.player, e.shared, replies, ok).records == []
  {
    hide Render, Enter, Leaves, WellFormed, Supplies;
  }

  // ---------------------------------------------------------------- every call is a run

  /** One publication: the epoch, the gate, the slot. */
  const PUBLISH_STEPS: seq<H.Step> := [H.CallPublish] + ([H.LoadSerial] + ([H.LoadGate] + ([H.Publish] + [])))
  const FINISH_STEPS: seq<H.Step> := [H.LoadForFinish] + ([H.StoreFinish] + [])

  function Publications(n: nat): seq<H.Step>
    decreases n
  {
    if n == 0 then [] else PUBLISH_STEPS + Publications(n - 1)
  }

  lemma PublishRun(h: H.State)
    requires h.producer.Idle? && !H.Pending(h.word)
    ensures H.Legal(h, PUBLISH_STEPS)
    ensures H.Run(h, PUBLISH_STEPS) == h.(epoch := h.serial, published := h.published + 1)
  {
    var h1 := H.Do(h, H.CallPublish);
    var h2 := H.Do(h1, H.LoadSerial);
    var h3 := H.Do(h2, H.LoadGate);
    var h4 := H.Do(h3, H.Publish);
    assert H.Legal(h4, []) && H.Run(h4, []) == h4;
    hide H.Legal, H.Run;
    First(h3, H.Publish, []);
    First(h2, H.LoadGate, [H.Publish] + []);
    First(h1, H.LoadSerial, [H.LoadGate] + ([H.Publish] + []));
    First(h, H.CallPublish, [H.LoadSerial] + ([H.LoadGate] + ([H.Publish] + [])));
  }

  lemma {:induction false} PublicationsRun(h: H.State, n: nat)
    requires h.producer.Idle? && !H.Pending(h.word)
    ensures H.Legal(h, Publications(n))
    ensures
      var g := H.Run(h, Publications(n));
      g == h.(epoch := g.epoch, published := h.published + n)
    decreases n
  {
    hide H.Do, H.Enabled, PUBLISH_STEPS;
    if n > 0 {
      PublishRun(h);
      var h1 := H.Run(h, PUBLISH_STEPS);
      PublicationsRun(h1, n - 1);
      Join(h, PUBLISH_STEPS, Publications(n - 1));
    }
  }

  lemma FinishRun(h: H.State)
    requires h.producer.Idle? && !H.Pending(h.word) && h.word / 4 + 1 < H.TOKEN_LIMIT
    ensures H.Legal(h, FINISH_STEPS)
    ensures H.Run(h, FINISH_STEPS) == h.(word := NextFinish(h.word), stored := h.stored + [NextFinish(h.word)])
  {
    var h1 := H.Do(h, H.LoadForFinish);
    var h2 := H.Do(h1, H.StoreFinish);
    assert H.Legal(h2, []) && H.Run(h2, []) == h2;
    hide H.Legal, H.Run;
    First(h1, H.StoreFinish, []);
    First(h, H.LoadForFinish, [H.StoreFinish] + []);
  }

  /** The end of a reset: cancel what is pending. */
  function CancelSteps(pending: bool): seq<H.Step> {
    [H.ResetLoadWord] + (if pending then [H.StoreCancelled] + [] else [])
  }

  /** A reset from outside: discard, drop the boundary, bump the epoch, cancel. */
  function ResetSteps(pending: bool): seq<H.Step> {
    [H.BeginReset] + ([H.ResetStoreRead] + ([H.ResetBumpSerial] + CancelSteps(pending)))
  }

  lemma CancelRun(h: H.State)
    requires h.consumer.ResetLoad?
    ensures H.Legal(h, CancelSteps(H.Pending(h.word)))
    ensures
      var g := H.Run(h, CancelSteps(H.Pending(h.word)));
      g == h.(consumer := H.Resting, stored := g.stored,
              word := if H.Pending(h.word) then h.word + H.CANCELLED else h.word)
  {
    var h1 := H.Do(h, H.ResetLoadWord);
    if H.Pending(h.word) {
      var h2 := H.Do(h1, H.StoreCancelled);
      assert H.Legal(h2, []) && H.Run(h2, []) == h2;
      hide H.Legal, H.Run;
      First(h1, H.StoreCancelled, []);
      First(h, H.ResetLoadWord, [H.StoreCancelled] + []);
    } else {
      assert H.Legal(h1, []) && H.Run(h1, []) == h1;
      hide H.Legal, H.Run;
      First(h, H.ResetLoadWord, []);
    }
  }

  lemma ResetRun(h: H.State)
    requires h.consumer.Resting?
    ensures H.Legal(h, ResetSteps(H.Pending(h.word)))
    ensures
      var g := H.Run(h, ResetSteps(H.Pending(h.word)));
      g == h.(finite := None, serial := h.serial + 1, taken := h.published, stored := g.stored,
              word := if H.Pending(h.word) then h.word + H.CANCELLED else h.word)
  {
    hide H.Legal, H.Run, CancelSteps;
    var h1 := H.Do(h, H.BeginReset);
    var h2 := H.Do(h1, H.ResetStoreRead);
    var h3 := H.Do(h2, H.ResetBumpSerial);
    var rest := CancelSteps(H.Pending(h.word));
    CancelRun(h3);
    First(h2, H.ResetBumpSerial, rest);
    First(h1, H.ResetStoreRead, [H.ResetBumpSerial] + rest);
    First(h, H.BeginReset, [H.ResetStoreRead] + ([H.ResetBumpSerial] + rest));
  }

  function MoveSteps(c: Config, e: Endpoints, m: Move): seq<H.Step>
    requires WellFormed(c, e.player) && Fits(c, e, m)
  {
    match m
    case Produces(act, after) =>
      if after.word != e.shared.word then FINISH_STEPS else Publications(|Published(e.shared, act)|)
    case Renders(replies, ok) => CallSteps(c, e, replies, ok)
    case Resets(_) => ResetSteps(H.Pending(e.shared.word))
  }

  /** No refill of this call is refused a slot. */
  predicate Unrefused(c: Config, w: World, e: Endpoints, m: Move)
    requires Fits(c, e, m)
  {
    w.intact && (m.Renders? ==> !RefusedDuring(c, e.player, SceneOf(c, e.player, e.shared, m.replies, m.ok)))
  }

  lemma ProducesRun(c: Config, e: Endpoints, m: Move, h: H.State)
    requires WellFormed(c, e.player) && m.Produces? && Fits(c, e, m) && Mirrors(h, e)
    ensures H.Legal(h, MoveSteps(c, e, m)) && Mirrors(H.Run(h, MoveSteps(c, e, m)), Moved(c, e, m))
  {
    NothingPublished(e.shared);
    hide WellFormed, H.Legal, H.Run, FINISH_STEPS, Publications, Published, P.Extended, P.Accepted;
    if m.after.word != e.shared.word {
      FinishRun(h);
    } else if Published(e.shared, m.act) != [] {
      PublicationsRun(h, |Published(e.shared, m.act)|);
    } else {
      NoPublications(h);
    }
  }

  lemma NoPublications(h: H.State)
    ensures H.Legal(h, Publications(0)) && H.Run(h, Publications(0)) == h
  {
  }

  lemma ResetsRun(c: Config, e: Endpoints, m: Move, h: H.State)
    requires WellFormed(c, e.player) && m.Resets? && Mirrors(h, e)
    ensures H.Legal(h, MoveSteps(c, e, m)) && Mirrors(H.Run(h, MoveSteps(c, e, m)), Moved(c, e, m))
  {
    hide WellFormed, H.Legal, H.Run, ResetSteps;
    ResetRun(h);
  }

  lemma MoveIsHandoffRun(c: Config, w: World, e: Endpoints, m: Move, h: H.State)
    requires Agrees(c, w, e) && Fits(c, e, m) && Unrefused(c, w, e, m) && Mirrors(h, e)
    ensures WellFormed(c, e.player)
    ensures H.Legal(h, MoveSteps(c, e, m)) && Mirrors(H.Run(h, MoveSteps(c, e, m)), Moved(c, e, m))
  {
    hide WellFormed, H.Legal, H.Run, Mirrors, RefusedDuring, CallSteps, Moved, ResetSteps, Publications, SceneOf;
    match m {
      case Produces(_, _) => ProducesRun(c, e, m, h);
      case Renders(replies, ok) => CallIsHandoffRun(c, w, e, replies, ok, h);
      case Resets(_) => ResetsRun(c, e, m, h);
    }
  }

  /** No call of the run is refused a slot. */
  predicate NeverRefused(c: Config, w: World, e: Endpoints, moves: seq<Move>)
    requires Plausible(c, e, moves)
    decreases |moves|
  {
    moves == [] ||
    (Unrefused(c, w, e, moves[0]) && Possible(c, w, EventsOf(c, e, moves[0]))
     && NeverRefused(c, Run(c, w, EventsOf(c, e, moves[0])), Moved(c, e, moves[0]), moves[1..]))
  }

  function AllSteps(c: Config, e: Endpoints, moves: seq<Move>): seq<H.Step>
    requires Plausible(c, e, moves)
    decreases |moves|
  {
    if moves == [] then [] else MoveSteps(c, e, moves[0]) + AllSteps(c, Moved(c, e, moves[0]), moves[1..])
  }

  /** Every run of whole calls, none refused a slot, is a run of the single loads and stores. */
  lemma {:induction false} RunIsHandoffRun(c: Config, w: World, e: Endpoints, moves: seq<Move>, h: H.State)
    requires Agrees(c, w, e) && Plausible(c, e, moves) && NeverRefused(c, w, e, moves) && Mirrors(h, e)
    ensures H.Legal(h, AllSteps(c, e, moves)) && Mirrors(H.Run(h, AllSteps(c, e, moves)), MovedAll(c, e, moves))
    decreases |moves|
  {
    hide Agrees, Moved, Fits, Possible, Run, EventsOf, MoveSteps, Mirrors, Unrefused, H.Do, H.Enabled;
    if moves != [] {
      MoveAgrees(c, w, e, moves[0]);
      MoveIsHandoffRun(c, w, e, moves[0], h);
      var h1 := H.Run(h, MoveSteps(c, e, moves[0]));
      RunIsHandoffRun(c, Run(c, w, EventsOf(c, e, moves[0])), Moved(c, e, moves[0]), moves[1..], h1);
      Join(h, MoveSteps(c, e, moves[0]), AllSteps(c, Moved(c, e, moves[0]), moves[1..]));
    }
  }

  /**
   So from creation, until a slot is refused, whole calls of the two endpoints
   keep what holds of every interleaving of their single steps: the stores to the
   word read pending and one outcome in turn, and a captured boundary is pending.
   */
  lemma EndpointsFollowProtocol(c: Config, start: Shared, moves: seq<Move>)
    requires ValidConfig(c) && c.settings.outputRate <= PlcSpec.RATE_MAX
    requires start.fifo == [] && start.word == 0 && start.serial == 0
    requires Plausible(c, Endpoints(Created(c), start), moves)
    requires NeverRefused(c, World(Created(c), [], true), Endpoints(Created(c), start), moves)
    ensures
      var e := MovedAll(c, Endpoints(Created(c), start), moves);
      var steps := AllSteps(c, Endpoints(Created(c), start), moves);
      && H.Legal(H.START, steps)
      && var h := H.Run(H.START, steps);
        && H.Alternates(h.stored) && e.shared.word == H.Latest(h.stored) && h.published - h.taken == |e.shared.fifo|
        && (e.player.finite.Some? ==> H.Pending(e.shared.word) && e.player.finite.value.token * 4 == e.shared.word)
  {
    var w, e := World(Created(c), [], true), Endpoints(Created(c), start);
    CreatedInv(c);
    assert Agrees(c, w, e) && Mirrors(H.START, e);
    hide Created, WorldInv, WellFormed, H.Legal, H.Run;
    RunIsHandoffRun(c, w, e, moves, H.START);
    H.EveryStoreSurvives(AllSteps(c, e, moves));
  }
}
