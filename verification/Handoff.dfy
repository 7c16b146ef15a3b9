/**
 The finish word, the reset epoch and the finite boundary, one atomic load or
 store a step.

 The word is written by both threads with plain stores and never compared and
 swapped: while it is pending only the consumer may store, otherwise only the
 producer may. Slots move as single queue steps here; Spsc.dfy justifies that.
 The history of stored words and the unbounded counts exist only in the model.
 */
module Handoff {
  import opened Common

  // The word: token * 4 + status.

  const PENDING: nat := 0
  const DRAINED: nat := 1
  const CANCELLED: nat := 2
  const ADAPTER_ERROR: nat := 3
  const TOKEN_LIMIT: nat := 0x4000_0000_0000_0000

  predicate Pending(word: nat) {
    word != 0 && word % 4 == PENDING
  }

  /** The public query: an error unless the token is the latest, then its status. */
  function FinishStatus(word: nat, token: nat): Option<nat> {
    if token == 0 || word / 4 != token then None else Some(word % 4)
  }

  datatype Boundary = Boundary(token: nat, end: nat)

  datatype Producer =
    | Idle
    | Syncing             // a publication has begun; the epoch is loaded next
    | Gating              // epoch taken; the finish word is loaded next
    | Publishing          // the gate was open; the slot is published next
    | Finishing(seen: nat) // an open word was loaded; the next token is stored next

  datatype Consumer =
    | Resting
    | Capturing(token: nat)
    | Bumping(token: nat, status: nat)
    | Acquiring(token: nat)
    | Dropping(token: nat, target: nat)
    | Acknowledging(token: nat, status: nat)
    | ResetDrop(target: nat)
    | ResetBump
    | ResetLoad
    | Cancelling(seen: nat)

  datatype State = State(
    word: nat, serial: nat, published: nat, taken: nat,
    producer: Producer, epoch: nat,
    consumer: Consumer, finite: Option<Boundary>,
    stored: seq<nat>)

  const START: State := State(0, 0, 0, 0, Idle, 0, Resting, None, [])

  datatype Step =
    | CallPublish | LoadSerial | LoadGate | Publish
    | LoadForFinish | StoreFinish
    | LoadWord | LoadEnd | Take
    | BeginDrained | BeginFailed | BumpSerial | AcquireRest | DropRest | Acknowledge
    | BeginReset | ResetStoreRead | ResetBumpSerial | ResetLoadWord | StoreCancelled

  predicate Enabled(s: State, step: Step) {
    match step
    case CallPublish => s.producer.Idle?
    case LoadSerial => s.producer.Syncing?
    case LoadGate => s.producer.Gating?
    case Publish => s.producer.Publishing?
    case LoadForFinish => s.producer.Idle?
    case StoreFinish => s.producer.Finishing?
    case LoadWord => s.consumer.Resting?
    case LoadEnd => s.consumer.Capturing?
    case Take => s.consumer.Resting? && s.taken < s.published
    // Playout finishes only past the boundary; HandoffSteps proves that a call then has taken all of it.
    case BeginDrained => s.consumer.Resting? && s.finite.Some? && s.taken == s.finite.value.end
    case BeginFailed => s.consumer.Resting? && s.finite.Some?
    case BumpSerial => s.consumer.Bumping?
    case AcquireRest => s.consumer.Acquiring?
    case DropRest => s.consumer.Dropping?
    case Acknowledge => s.consumer.Acknowledging?
    case BeginReset => s.consumer.Resting?
    case ResetStoreRead => s.consumer.ResetDrop?
    case ResetBumpSerial => s.consumer.ResetBump?
    case ResetLoadWord => s.consumer.ResetLoad?
    case StoreCancelled => s.consumer.Cancelling?
  }

  function Do(s: State, step: Step): State
    requires Enabled(s, step)
  {
    match step
    case CallPublish => s.(producer := Syncing)
    case LoadSerial => s.(epoch := s.serial, producer := Gating)
    case LoadGate => s.(producer := if Pending(s.word) then Idle else Publishing)
    case Publish => s.(published := s.published + 1, producer := Idle)
    case LoadForFinish =>
      if Pending(s.word) || s.word / 4 + 1 >= TOKEN_LIMIT then s else s.(producer := Finishing(s.word))
    case StoreFinish =>
      var next := (s.producer.seen / 4 + 1) * 4;
      s.(word := next, stored := s.stored + [next], producer := Idle)
    case LoadWord => if Pending(s.word) && s.finite.None? then s.(consumer := Capturing(s.word / 4)) else s
    case LoadEnd => s.(finite := Some(Boundary(s.consumer.token, s.published)), consumer := Resting)
    case Take => s.(taken := s.taken + 1)
    case BeginDrained => s.(finite := None, consumer := Bumping(s.finite.value.token, DRAINED))
    case BeginFailed => s.(finite := None, consumer := Bumping(s.finite.value.token, ADAPTER_ERROR))
    case BumpSerial =>
      var next := if s.consumer.status == ADAPTER_ERROR then Acquiring(s.consumer.token)
                  else Acknowledging(s.consumer.token, s.consumer.status);
      s.(serial := s.serial + 1, consumer := next)
    case AcquireRest => s.(consumer := Dropping(s.consumer.token, s.published))
    case DropRest => s.(taken := s.consumer.target, consumer := Acknowledging(s.consumer.token, ADAPTER_ERROR))
    case Acknowledge =>
      var next := s.consumer.token * 4 + s.consumer.status;
      s.(word := next, stored := s.stored + [next], consumer := Resting)
    case BeginReset => s.(consumer := ResetDrop(s.published))
    case ResetStoreRead => s.(taken := s.consumer.target, finite := None, consumer := ResetBump)
    case ResetBumpSerial => s.(serial := s.serial + 1, consumer := ResetLoad)
    case ResetLoadWord => s.(consumer := if Pending(s.word) then Cancelling(s.word) else Resting)
    case StoreCancelled =>
      var next := s.consumer.seen + CANCELLED;
      s.(word := next, stored := s.stored + [next], consumer := Resting)
  }

  predicate Legal(s: State, steps: seq<Step>)
    decreases |steps|
  {
    steps == [] || (Enabled(s, steps[0]) && Legal(Do(s, steps[0]), steps[1..]))
  }

  function Run(s: State, steps: seq<Step>): State
    requires Legal(s, steps)
    decreases |steps|
  {
    if steps == [] then s else Run(Do(s, steps[0]), steps[1..])
  }

  // ---------------------------------------------------------------- no store is lost

  /** The only histories there can be: each token pending, then exactly one outcome, then the next. */
  predicate Alternates(stored: seq<nat>) {
    && (forall i | 0 <= i < |stored| && i % 2 == 0 :: stored[i] == (i / 2 + 1) * 4)
    && (forall i | 0 <= i < |stored| && i % 2 == 1 :: (i / 2 + 1) * 4 < stored[i] < (i / 2 + 2) * 4)
  }

  function Latest(stored: seq<nat>): nat {
    if stored == [] then 0 else stored[|stored| - 1]
  }

  /** Who may store next, and what each thread remembers of the word. */
  predicate Owned(s: State) {
    && (s.producer.Finishing? ==> s.word == s.producer.seen)
    && (s.producer.Finishing? || s.producer.Publishing? ==> !Pending(s.word))
    && (s.finite.Some? ==> s.finite.value.token >= 1 && s.word == s.finite.value.token * 4)
    && (match s.consumer
        case Resting => true
        case Capturing(token) => s.finite.None? && token >= 1 && s.word == token * 4
        case Bumping(token, status) => s.finite.None? && token >= 1 && s.word == token * 4 && 1 <= status <= 3
        case Acquiring(token) => s.finite.None? && token >= 1 && s.word == token * 4
        case Dropping(token, target) =>
          s.finite.None? && token >= 1 && s.word == token * 4 && target == s.published
        case Acknowledging(token, status) =>
          s.finite.None? && token >= 1 && s.word == token * 4 && 1 <= status <= 3
        case ResetDrop(target) => s.taken <= target <= s.published
        case ResetBump => s.finite.None?
        case ResetLoad => s.finite.None?
        case Cancelling(seen) => s.finite.None? && Pending(seen) && s.word == seen)
  }

  predicate Counted(s: State) {
    && s.taken <= s.published
    && (s.finite.Some? ==> s.finite.value.end == s.published)
    && (s.consumer.Bumping? && s.consumer.status == DRAINED ==> s.taken == s.published)
    && (s.consumer.Bumping? ==> s.consumer.status == DRAINED || s.consumer.status == ADAPTER_ERROR)
    && (s.consumer.Acknowledging? ==>
          s.taken == s.published && (s.consumer.status == DRAINED || s.consumer.status == ADAPTER_ERROR))
  }

  predicate Inv(s: State) {
    Owned(s) && Counted(s) && Alternates(s.stored) && s.word == Latest(s.stored)
  }

  lemma AppendPending(stored: seq<nat>)
    requires Alternates(stored) && !Pending(Latest(stored))
    ensures Alternates(stored + [(Latest(stored) / 4 + 1) * 4])
  {
    if stored != [] {
      var i := |stored| - 1;
      assert i % 2 == 1;
      assert stored[i] / 4 == i / 2 + 1;
    }
  }

  lemma AppendOutcome(stored: seq<nat>, status: nat)
    requires Alternates(stored) && Pending(Latest(stored)) && 1 <= status <= 3
    ensures Alternates(stored + [Latest(stored) + status])
  {
    assert stored != [];
    var i := |stored| - 1;
    if i % 2 == 1 {
      BetweenMultiples(i / 2 + 1, stored[i]);
    }
  }

  lemma BetweenMultiples(k: nat, word: nat)
    requires k * 4 < word < (k + 1) * 4
    ensures word % 4 != 0
  {
  }

  lemma StepKeeps(s: State, step: Step)
    requires Inv(s) && Enabled(s, step)
    ensures Inv(Do(s, step))
    ensures s.stored <= Do(s, step).stored
  {
    hide Alternates;
    match step {
      case StoreFinish => AppendPending(s.stored);
      case Acknowledge => AppendOutcome(s.stored, s.consumer.status);
      case StoreCancelled => AppendOutcome(s.stored, CANCELLED);
      case _ =>
    }
  }

  lemma {:induction false} RunKeeps(s: State, steps: seq<Step>)
    requires Inv(s) && Legal(s, steps)
    ensures Inv(Run(s, steps))
    ensures s.stored <= Run(s, steps).stored
    decreases |steps|
  {
    hide Inv;
    if steps != [] {
      StepKeeps(s, steps[0]);
      RunKeeps(Do(s, steps[0]), steps[1..]);
    }
  }

  lemma StartInv()
    ensures Inv(START)
  {
  }

  /**
   In every interleaving the word is the last thing stored, and the stores read
   pending 1, one outcome of 1, pending 2, one outcome of 2, and so on: no store
   is overwritten unseen, tokens never repeat, none gets two outcomes.
   */
  lemma EveryStoreSurvives(steps: seq<Step>)
    requires Legal(START, steps)
    ensures
      var s := Run(START, steps);
      && s.word == Latest(s.stored) && Alternates(s.stored)
      && (s.finite.Some? ==> s.word == s.finite.value.token * 4 && Pending(s.word))
  {
    StartInv();
    RunKeeps(START, steps);
  }

  /** The last store tells the token it is of, and whether it is that token's outcome. */
  lemma LatestIsOf(stored: seq<nat>, token: nat)
    requires Alternates(stored) && FinishStatus(Latest(stored), token).Some?
    ensures stored != []
    ensures
      var i := |stored| - 1;
      i / 2 + 1 == token && (FinishStatus(Latest(stored), token) == Some(PENDING) <==> i % 2 == 0)
  {
    assert stored != [];
    var i := |stored| - 1;
    if i % 2 == 0 {
      WordOf(i / 2 + 1, stored[i]);
    } else {
      BetweenMultiples(i / 2 + 1, stored[i]);
      WordOf(i / 2 + 1, stored[i]);
    }
  }

  lemma WordOf(k: nat, word: nat)
    requires k * 4 <= word < (k + 1) * 4
    ensures word / 4 == k && (word % 4 == 0 <==> word == k * 4)
  {
  }

  /** Once reported, an outcome is never reported differently: the same, or an error for a stale token. */
  lemma OutcomeIsFinal(steps: seq<Step>, more: seq<Step>, token: nat, status: nat)
    requires Legal(START, steps) && Legal(Run(START, steps), more)
    requires FinishStatus(Run(START, steps).word, token) == Some(status) && status != PENDING
    ensures
      var later := FinishStatus(Run(Run(START, steps), more).word, token);
      later.Some? ==> later.value == status
  {
    hide Do, Enabled, Alternates, Legal, Owned, Counted, FinishStatus, Latest;
    StartInv();
    RunKeeps(START, steps);
    var s := Run(START, steps);
    RunKeeps(s, more);
    var t := Run(s, more);
    LatestIsOf(s.stored, token);
    if FinishStatus(t.word, token).Some? {
      LatestIsOf(t.stored, token);
      SameOutcome(s.stored, t.stored);
    }
  }

  /** Of one token there is one outcome, so the longer history ends with it too. */
  lemma SameOutcome(stored: seq<nat>, later: seq<nat>)
    requires stored <= later && stored != [] && (|stored| - 1) % 2 == 1
    requires (|stored| - 1) / 2 == (|later| - 1) / 2
    ensures Latest(stored) == Latest(later)
  {
  }

  /** While a boundary is pending nothing is published, so the captured end is the whole burst. */
  lemma BoundaryIsExact(steps: seq<Step>)
    requires Legal(START, steps)
    ensures
      var s := Run(START, steps);
      && (Pending(s.word) ==> !s.producer.Publishing?)
      && (s.finite.Some? ==> s.finite.value.end == s.published)
  {
    StartInv();
    RunKeeps(START, steps);
  }

  /** Both acknowledgements leave no slot of the old burst in the FIFO. */
  lemma AcknowledgedMeansEmpty(steps: seq<Step>)
    requires Legal(START, steps) && Enabled(Run(START, steps), Acknowledge)
    ensures
      var s := Run(START, steps);
      && s.taken == s.published
      && FinishStatus(Do(s, Acknowledge).word, s.consumer.token) == Some(s.consumer.status)
      && (s.consumer.status == DRAINED || s.consumer.status == ADAPTER_ERROR)
  {
    StartInv();
    RunKeeps(START, steps);
  }

  // ---------------------------------------------------------------- the reset epoch

  predicate InReset(c: Consumer) {
    c.ResetDrop? || c.ResetBump? || c.ResetLoad? || c.Cancelling?
  }

  predicate ByProducer(step: Step) {
    step.CallPublish? || step.LoadSerial? || step.LoadGate? || step.Publish? || step.LoadForFinish? || step.StoreFinish?
  }

  /**
   What the public interface asks of callers: publish after a finish only once
   its outcome has been reported, and keep the producer quiescent during a reset.
   */
  predicate Allowed(s: State, step: Step) {
    && (step.CallPublish? ==> !Pending(s.word))
    && (step.BeginReset? ==> s.producer.Idle?)
    && (ByProducer(step) ==> !InReset(s.consumer))
  }

  predicate Respectful(s: State, steps: seq<Step>)
    decreases |steps|
  {
    steps == [] || (Enabled(s, steps[0]) && Allowed(s, steps[0]) && Respectful(Do(s, steps[0]), steps[1..]))
  }

  lemma {:induction false} RespectfulIsLegal(s: State, steps: seq<Step>)
    requires Respectful(s, steps)
    ensures Legal(s, steps)
    decreases |steps|
  {
    if steps != [] {
      RespectfulIsLegal(Do(s, steps[0]), steps[1..]);
    }
  }

  /** A publication in progress is never overtaken by an epoch change. */
  predicate EpochInv(s: State) {
    && (s.producer.Syncing? || s.producer.Gating? || s.producer.Publishing? ==>
          !Pending(s.word) && !InReset(s.consumer))
    && (s.producer.Gating? || s.producer.Publishing? ==> s.epoch == s.serial)
    && (InReset(s.consumer) ==> s.producer.Idle?)
  }

  lemma {:induction false} RespectfulKeepsEpoch(s: State, steps: seq<Step>)
    requires Inv(s) && EpochInv(s) && Respectful(s, steps)
    ensures Legal(s, steps) && EpochInv(Run(s, steps))
    decreases |steps|
  {
    RespectfulIsLegal(s, steps);
    if steps != [] {
      StepKeeps(s, steps[0]);
      EpochStep(s, steps[0]);
      hide EpochInv, Inv;
      RespectfulKeepsEpoch(Do(s, steps[0]), steps[1..]);
    }
  }

  lemma EpochStep(s: State, step: Step)
    requires Inv(s) && EpochInv(s) && Enabled(s, step) && Allowed(s, step)
    ensures EpochInv(Do(s, step))
  {
    hide Alternates;
  }

  /** Under the caller contract every slot is published in the current epoch. */
  lemma PublicationsAreFresh(steps: seq<Step>)
    requires Respectful(START, steps)
    ensures Legal(START, steps)
    ensures Run(START, steps).producer.Publishing? ==> Run(START, steps).epoch == Run(START, steps).serial
  {
    StartInv();
    RespectfulKeepsEpoch(START, steps);
  }

  /** One more step in front of a legal run. */
  lemma Prepend(s: State, step: Step, rest: seq<Step>)
    requires Enabled(s, step) && Legal(Do(s, step), rest)
    ensures Legal(s, [step] + rest) && Run(s, [step] + rest) == Run(Do(s, step), rest)
  {
    hide Do, Enabled;
    assert ([step] + rest)[1..] == rest;
  }

  /** The end of a failing completion, then the producer's gate load. */
  const DISCARD_THEN_GATE: seq<Step> := [AcquireRest] + ([DropRest] + ([Acknowledge] + ([LoadGate] + [])))

  /** The boundary fails and is acknowledged between the producer's epoch load and its gate load. */
  const FAIL_THEN_GATE: seq<Step> := [BeginFailed] + ([BumpSerial] + DISCARD_THEN_GATE)

  lemma DiscardOvertakes(s: State)
    requires s.producer.Gating? && s.consumer.Acquiring?
    ensures Legal(s, DISCARD_THEN_GATE)
    ensures Run(s, DISCARD_THEN_GATE).producer.Publishing?
    ensures Run(s, DISCARD_THEN_GATE).epoch == s.epoch && Run(s, DISCARD_THEN_GATE).serial == s.serial
  {
    var s1 := Do(s, AcquireRest);
    var s2 := Do(s1, DropRest);
    var s3 := Do(s2, Acknowledge);
    var s4 := Do(s3, LoadGate);
    assert Legal(s4, []) && Run(s4, []) == s4;
    hide Legal, Run;
    Prepend(s3, LoadGate, []);
    Prepend(s2, Acknowledge, [LoadGate] + []);
    Prepend(s1, DropRest, [Acknowledge] + ([LoadGate] + []));
    Prepend(s, AcquireRest, [DropRest] + ([Acknowledge] + ([LoadGate] + [])));
  }

  lemma FailureOvertakes(s: State)
    requires s.producer.Gating? && s.consumer.Resting? && s.finite.Some? && s.finite.value.token >= 1
    ensures Legal(s, FAIL_THEN_GATE)
    ensures Run(s, FAIL_THEN_GATE).producer.Publishing?
    ensures Run(s, FAIL_THEN_GATE).epoch == s.epoch && Run(s, FAIL_THEN_GATE).serial == s.serial + 1
  {
    hide Legal, Run, DISCARD_THEN_GATE;
    var s1 := Do(s, BeginFailed);
    var s2 := Do(s1, BumpSerial);
    DiscardOvertakes(s2);
    Prepend(s1, BumpSerial, DISCARD_THEN_GATE);
    Prepend(s, BeginFailed, [BumpSerial] + DISCARD_THEN_GATE);
  }

  function Overtaken(captured: bool): seq<Step> {
    [CallPublish] + ([LoadSerial] +
      if captured then FAIL_THEN_GATE else [LoadWord] + ([LoadEnd] + FAIL_THEN_GATE))
  }

  /**
   Without the contract, from every idle state with a boundary pending, a
   publication can be overtaken: the boundary completes between its epoch load
   and its gate load, and the slot goes out under the old epoch.
   */
  lemma PendingCanBeOvertaken(s: State)
    requires Inv(s) && s.producer.Idle? && s.consumer.Resting? && Pending(s.word)
    ensures Legal(s, Overtaken(s.finite.Some?))
    ensures
      var t := Run(s, Overtaken(s.finite.Some?));
      t.producer.Publishing? && t.epoch != t.serial
  {
    var s1 := Do(s, CallPublish);
    var s2 := Do(s1, LoadSerial);
    StepKeeps(s, CallPublish);
    StepKeeps(s1, LoadSerial);
    hide Legal, Run, Inv, FAIL_THEN_GATE;
    if s.finite.Some? {
      FailureOvertakes(s2);
      Prepend(s1, LoadSerial, FAIL_THEN_GATE);
      Prepend(s, CallPublish, [LoadSerial] + FAIL_THEN_GATE);
    } else {
      var s3 := Do(s2, LoadWord);
      var s4 := Do(s3, LoadEnd);
      StepKeeps(s2, LoadWord);
      StepKeeps(s3, LoadEnd);
      FailureOvertakes(s4);
      Prepend(s3, LoadEnd, FAIL_THEN_GATE);
      Prepend(s2, LoadWord, [LoadEnd] + FAIL_THEN_GATE);
      Prepend(s1, LoadSerial, [LoadWord] + ([LoadEnd] + FAIL_THEN_GATE));
      Prepend(s, CallPublish, [LoadSerial] + ([LoadWord] + ([LoadEnd] + FAIL_THEN_GATE)));
    }
  }

  /** Steps after one publication call: no second call, no reset. */
  predicate OneCall(rest: seq<Step>) {
    forall k | 0 <= k < |rest| :: !rest[k].CallPublish? && !rest[k].BeginReset?
  }

  /** If this continuation of a publication call reaches the slot, the epoch is current. */
  predicate GoesOutFresh(s: State, rest: seq<Step>) {
    Legal(s, [CallPublish] + rest) ==>
      var t := Run(s, [CallPublish] + rest);
      t.producer.Publishing? ==> t.epoch == t.serial
  }

  ghost predicate AlwaysFresh(s: State) {
    forall rest | OneCall(rest) :: GoesOutFresh(s, rest)
  }

  lemma {:induction false} OneCallIsRespectful(s: State, steps: seq<Step>)
    requires Legal(s, steps) && OneCall(steps) && !InReset(s.consumer)
    ensures Respectful(s, steps)
    decreases |steps|
  {
    if steps != [] {
      assert OneCall([steps[0]]) && !steps[0].CallPublish? && !steps[0].BeginReset?;
      assert forall k | 0 <= k < |steps[1..]| :: steps[1..][k] == steps[k + 1];
      OneCallIsRespectful(Do(s, steps[0]), steps[1..]);
    }
  }

  lemma OvertakingIsOneCall(captured: bool)
    ensures Overtaken(captured) != [] && Overtaken(captured)[0] == CallPublish && OneCall(Overtaken(captured)[1..])
  {
  }

  /** With a boundary pending some continuation goes out stale. */
  lemma PendingMayBeStale(s: State)
    requires Inv(s) && s.producer.Idle? && s.consumer.Resting? && Pending(s.word)
    ensures !AlwaysFresh(s)
  {
    hide Inv, Overtaken, Legal, Run;
    PendingCanBeOvertaken(s);
    OvertakingIsOneCall(s.finite.Some?);
    var rest := Overtaken(s.finite.Some?)[1..];
    assert [CallPublish] + rest == Overtaken(s.finite.Some?);
    assert !GoesOutFresh(s, rest);
  }

  lemma OneCallGoesOutFresh(s: State, rest: seq<Step>)
    requires Inv(s) && EpochInv(s) && s.producer.Idle? && s.consumer.Resting? && !Pending(s.word) && OneCall(rest)
    ensures GoesOutFresh(s, rest)
  {
    if Legal(s, [CallPublish] + rest) {
      assert ([CallPublish] + rest)[1..] == rest;
      StepKeeps(s, CallPublish);
      OneCallIsRespectful(Do(s, CallPublish), rest);
      RespectfulKeepsEpoch(Do(s, CallPublish), rest);
    }
  }

  /**
   Exactly when a publication call made between consumer calls is sure to go
   out under the current epoch: when the latest finish is not pending, which is
   what finish_status tells the producer.
   */
  lemma FreshIffNotPending(s: State)
    requires Inv(s) && EpochInv(s) && s.producer.Idle? && s.consumer.Resting?
    ensures AlwaysFresh(s) <==> !Pending(s.word)
  {
    hide Inv, EpochInv, GoesOutFresh, OneCall;
    if Pending(s.word) {
      PendingMayBeStale(s);
    } else {
      forall rest | OneCall(rest)
        ensures GoesOutFresh(s, rest)
      {
        OneCallGoesOutFresh(s, rest);
      }
    }
  }
}
