/** What the concealer promises over whole call histories, at every output rate. */
module PlcLaws {
  import opened Common
  import opened PlcSpec

  /** One call of either public entry point. */
  datatype Op = Hear(sample: real) | Lose | Flush

  function Apply(rate: nat, s: State, op: Op): (r: Call)
    requires Valid(rate, s)
    ensures Valid(rate, r.state)
  {
    match op
    case Hear(sample) => Process(rate, s, Some(sample))
    case Lose => Process(rate, s, None)
    case Flush => Drain(rate, s)
  }

  function Run(rate: nat, s: State, ops: seq<Op>): (r: State)
    requires Valid(rate, s)
    ensures Valid(rate, r)
    decreases |ops|
  {
    if ops == [] then s else Run(rate, Apply(rate, s, ops[0]).state, ops[1..])
  }

  function Outputs(rate: nat, s: State, ops: seq<Op>): (r: seq<Played>)
    requires Valid(rate, s)
    ensures |r| == |ops|
    decreases |ops|
  {
    if ops == [] then []
    else
      var call := Apply(rate, s, ops[0]);
      [call.played] + Outputs(rate, call.state, ops[1..])
  }

  lemma {:induction false} RunSplits(rate: nat, s: State, a: seq<Op>, b: seq<Op>)
    requires Valid(rate, s)
    ensures Run(rate, s, a + b) == Run(rate, Run(rate, s, a), b)
    ensures Outputs(rate, s, a + b) == Outputs(rate, s, a) + Outputs(rate, Run(rate, s, a), b)
    decreases |a|
  {
    hide Process, Drain;
    if a == [] {
      assert a + b == b;
    } else {
      assert (a + b)[1..] == a[1..] + b;
      RunSplits(rate, Apply(rate, s, a[0]).state, a[1..], b);
    }
  }

  lemma FreshIsValid(rate: nat)
    requires 1 <= rate <= RATE_MAX
    ensures Valid(rate, Fresh(rate))
  {
  }

  /** Every call history from construction keeps the loss-state invariant. */
  lemma LossStateInvariant(rate: nat, ops: seq<Op>)
    requires 1 <= rate <= RATE_MAX
    ensures
      Valid(rate, Fresh(rate)) &&
      var s := Run(rate, Fresh(rate), ops);
      && (s.lost > 0 ==>
            && MinPitch(rate) <= s.pitch <= MaxPitch(rate)
            && (s.lost <= TenMs(rate) ==> s.cycle == s.pitch)
            && (TenMs(rate) < s.lost <= 2 * TenMs(rate) ==> s.cycle == 2 * s.pitch)
            && (2 * TenMs(rate) < s.lost ==> s.cycle == 3 * s.pitch)
            && s.phase < s.cycle
            && s.overlapLeft <= s.pitch / 4
            && s.recoveryLeft == 0)
      && (s.recoveryLeft > 0 ==>
            && s.recoveryLeft <= s.recoveryLength <= TenMs(rate)
            && 0.0 <= s.recoveryGain <= 1.0)
  {
    FreshIsValid(rate);
    var s := Run(rate, Fresh(rate), ops);
    assert Valid(rate, s);
  }

  // ---------------------------------------------------------------- reset

  predicate Live(s: State) {
    s.lost > 0 || s.recoveryLeft > 0
  }

  /** No later call can tell the two apart; whatever may differ is rewritten before it is read. */
  predicate Alike(a: State, b: State)
  {
    && a.line == b.line && a.flags == b.flags
    && a.lost == b.lost && a.recoveryLeft == b.recoveryLeft
    && (Live(a) ==>
          && a.frozen == b.frozen
          && a.pitch == b.pitch && a.cycle == b.cycle && a.phase == b.phase
          && a.overlapLeft == b.overlapLeft
          && a.pitch / 4 <= |a.lastQuarter| == |b.lastQuarter| == |a.overlap| == |b.overlap|
          && a.lastQuarter[..a.pitch / 4] == b.lastQuarter[..a.pitch / 4]
          && (a.overlapLeft > 0 ==> a.overlap[..a.pitch / 4] == b.overlap[..a.pitch / 4]))
    && (a.recoveryLeft > 0 ==> a.recoveryLength == b.recoveryLength && a.recoveryGain == b.recoveryGain)
  }

  /** The oscillator fields a waveform sample depends on. */
  predicate SameWave(a: State, b: State)
  {
    && a.frozen == b.frozen && a.line == b.line && a.flags == b.flags
    && a.pitch == b.pitch && a.cycle == b.cycle && a.phase == b.phase && a.overlapLeft == b.overlapLeft
    && a.pitch / 4 <= |a.lastQuarter| == |b.lastQuarter| == |a.overlap| == |b.overlap|
    && a.lastQuarter[..a.pitch / 4] == b.lastQuarter[..a.pitch / 4]
    && (a.overlapLeft > 0 ==> a.overlap[..a.pitch / 4] == b.overlap[..a.pitch / 4])
  }

  lemma SmoothTailUsesOnlyTheQuarter(frozen: seq<real>, a: seq<real>, b: seq<real>, cycle: nat, quarter: nat)
    requires cycle + quarter <= |frozen| && quarter <= |a| == |b|
    requires a[..quarter] == b[..quarter]
    ensures SmoothTail(frozen, a, cycle, quarter) == SmoothTail(frozen, b, cycle, quarter)
  {
    assert forall k | 0 <= k < quarter :: a[k] == a[..quarter][k] && b[k] == b[..quarter][k];
  }

  lemma BeginLossForgets(rate: nat, a: State, b: State)
    requires Shaped(rate, a) && Shaped(rate, b) && a.line == b.line && a.flags == b.flags
    ensures SameWave(BeginLoss(rate, a), BeginLoss(rate, b))
  {
    hide Pitch, SmoothTail, Blend, CeilDiv;
    Geometry(rate);
    var q := Pitch(rate, a.line) / 4;
    var la := WithTail(a.lastQuarter, a.line, q);
    var lb := WithTail(b.lastQuarter, b.line, q);
    assert la[..q] == lb[..q];
    SmoothTailUsesOnlyTheQuarter(a.line, la, lb, Pitch(rate, a.line), q);
  }

  lemma AheadAlike(rate: nat, a: State, b: State, steps: nat)
    requires Shaped(rate, a) && Shaped(rate, b) && Oscillating(rate, a) && SameWave(a, b)
    ensures Oscillating(rate, b) && Ahead(rate, a, steps) == Ahead(rate, b, steps)
  {
    hide CeilDiv;
  }

  lemma ExpandAlike(rate: nat, a: State, b: State)
    requires Shaped(rate, a) && Shaped(rate, b) && Oscillating(rate, a) && a.cycle <= 2 * a.pitch
    requires SameWave(a, b)
    ensures SameWave(Expand(rate, a), Expand(rate, b))
  {
    Geometry(rate);
    hide SmoothTail, FoldPhase, Blend, CeilDiv, Ahead;
    var q := a.pitch / 4;
    SmoothTailUsesOnlyTheQuarter(a.frozen, a.lastQuarter, b.lastQuarter, a.cycle + a.pitch, q);
    forall i | 0 <= i < q
      ensures Ahead(rate, a, i) == Ahead(rate, b, i)
    {
      AheadAlike(rate, a, b, i);
    }
    assert Expand(rate, a).overlap[..q] == Expand(rate, b).overlap[..q];
  }

  lemma SubstitutionAlike(rate: nat, a: State, b: State)
    requires Shaped(rate, a) && Shaped(rate, b) && Oscillating(rate, a)
    requires SameWave(a, b)
    ensures Oscillating(rate, b)
    ensures Substitution(rate, a).sample == Substitution(rate, b).sample
    ensures SameWave(Substitution(rate, a).state, Substitution(rate, b).state)
  {
    Geometry(rate);
    if a.overlapLeft != 0 {
      var i := a.pitch / 4 - a.overlapLeft;
      assert a.overlap[i] == a.overlap[..a.pitch / 4][i];
      assert b.overlap[i] == b.overlap[..a.pitch / 4][i];
    }
  }

  lemma PreparedAlike(rate: nat, a: State, b: State)
    requires Valid(rate, a) && Valid(rate, b) && Alike(a, b)
    ensures SameWave(Prepared(rate, a), Prepared(rate, b))
  {
    hide Pitch, Ahead, FoldPhase, SmoothTail;
    Geometry(rate);
    var qa, qb := a.(recoveryLeft := 0), b.(recoveryLeft := 0);
    if a.lost == 0 {
      BeginLossForgets(rate, qa, qb);
    }
    var ga := if a.lost == 0 then BeginLoss(rate, qa) else qa;
    var gb := if b.lost == 0 then BeginLoss(rate, qb) else qb;
    assert SameWave(ga, gb);
    if a.lost == TenMs(rate) || a.lost == TenMs(rate) * 2 {
      ExpandAlike(rate, ga, gb);
    }
  }

  lemma ConcealAlike(rate: nat, a: State, b: State)
    requires Valid(rate, a) && Valid(rate, b) && Alike(a, b)
    ensures Conceal(rate, a).sample == Conceal(rate, b).sample
    ensures Alike(Conceal(rate, a).state, Conceal(rate, b).state)
  {
    PreparedAlike(rate, a, b);
    hide Pitch, Ahead, LossGain, Prepared;
    SubstitutionAlike(rate, Prepared(rate, a), Prepared(rate, b));
  }

  lemma BeginRecoveryAlike(rate: nat, a: State, b: State)
    requires Valid(rate, a) && Valid(rate, b) && Alike(a, b)
    ensures Alike(BeginRecovery(rate, a), BeginRecovery(rate, b))
  {
    hide LossGain, CeilDiv;
  }

  lemma RecoverAlike(rate: nat, a: State, b: State, input: real)
    requires Valid(rate, a) && Valid(rate, b) && Alike(a, b)
    ensures Recover(rate, a, input).sample == Recover(rate, b, input).sample
    ensures Alike(Recover(rate, a, input).state, Recover(rate, b, input).state)
  {
    BeginRecoveryAlike(rate, a, b);
    hide Pitch, Ahead, LossGain, Blend, BeginRecovery, Substitution, Product;
    var ra, rb := BeginRecovery(rate, a), BeginRecovery(rate, b);
    if ra.recoveryLeft > 0 {
      SubstitutionAlike(rate, ra, rb);
    }
  }

  lemma FillAlike(rate: nat, a: State, b: State, input: Option<real>)
    requires Valid(rate, a) && Valid(rate, b) && Alike(a, b)
    ensures Fill(rate, a, input).sample == Fill(rate, b, input).sample
    ensures Alike(Fill(rate, a, input).state, Fill(rate, b, input).state)
  {
    if input.Some? {
      RecoverAlike(rate, a, b, input.value);
    } else {
      ConcealAlike(rate, a, b);
    }
  }

  lemma ApplyAlike(rate: nat, a: State, b: State, op: Op)
    requires Valid(rate, a) && Valid(rate, b) && Alike(a, b)
    ensures Apply(rate, a, op).played == Apply(rate, b, op).played
    ensures Alike(Apply(rate, a, op).state, Apply(rate, b, op).state)
  {
    hide Fill, Pitch, CeilDiv, Oscillating;
    match op {
      case Hear(sample) => FillAlike(rate, a, b, Some(sample));
      case Lose => FillAlike(rate, a, b, None);
      case Flush =>
    }
  }

  lemma {:induction false} AlikeForever(rate: nat, a: State, b: State, ops: seq<Op>)
    requires Valid(rate, a) && Valid(rate, b) && Alike(a, b)
    ensures Outputs(rate, a, ops) == Outputs(rate, b, ops)
    decreases |ops|
  {
    hide Valid, Alike, Apply;
    if ops != [] {
      ApplyAlike(rate, a, b, ops[0]);
      AlikeForever(rate, Apply(rate, a, ops[0]).state, Apply(rate, b, ops[0]).state, ops[1..]);
    }
  }

  /** A reset concealer answers every later call as a new one does, whatever came before. */
  lemma ResetIsFresh(rate: nat, before: seq<Op>, after: seq<Op>)
    requires 1 <= rate <= RATE_MAX
    ensures
      && Valid(rate, Fresh(rate))
      && var used := Run(rate, Fresh(rate), before);
      && Valid(rate, Reset(used))
      && Outputs(rate, Reset(used), after) == Outputs(rate, Fresh(rate), after)
  {
    FreshIsValid(rate);
    AlikeForever(rate, Reset(Run(rate, Fresh(rate), before)), Fresh(rate), after);
  }

  // ---------------------------------------------------------------- delay line

  /** This call is the first of a loss, so it rewrites a quarter pitch of the line. */
  predicate Starts(s: State, op: Op) {
    op.Lose? && s.lost == 0
  }

  /** The call's onset overlap-add rewrites the entry at index k. */
  predicate Rewrites(rate: nat, s: State, op: Op, k: int)
    requires Valid(rate, s)
  {
    Starts(s, op) && k >= |s.line| - Pitch(rate, s.line) / 4
  }

  /** Onset overlap-add changes nothing that has been played. */
  lemma OnsetSparesPlayed(rate: nat, s: State)
    requires Shaped(rate, s)
    ensures
      var q := BeginLoss(rate, s).pitch / 4;
      && q <= Delay(rate) <= |s.line|
      && BeginLoss(rate, s).line[..|s.line| - q] == s.line[..|s.line| - q]
  {
    hide CeilDiv, Pitch, WithTail;
    QuarterFits(rate, Pitch(rate, s.line));
    Geometry(rate);
  }

  /** Calls whose rewritten tail, if any, starts after the entry at index k. */
  predicate Untouched(rate: nat, s: State, k: int, ops: seq<Op>)
    requires Valid(rate, s)
    decreases |ops|
  {
    ops != [] ==>
    && !Rewrites(rate, s, ops[0], k)
    && Untouched(rate, Apply(rate, s, ops[0]).state, k - 1, ops[1..])
  }

  lemma FillKeepsEntry(rate: nat, s: State, k: nat, input: Option<real>)
    requires Valid(rate, s) && k < |s.line|
    requires !Rewrites(rate, s, if input.Some? then Hear(input.value) else Lose, k)
    ensures Fill(rate, s, input).state.line[k] == s.line[k]
    ensures Fill(rate, s, input).state.flags == s.flags
  {
    if input.None? && s.lost == 0 {
      var quiet := s.(recoveryLeft := 0);
      OnsetSparesPlayed(rate, quiet);
      var q := Pitch(rate, s.line) / 4;
      assert BeginLoss(rate, quiet).line[..|s.line| - q][k] == s.line[..|s.line| - q][k];
    }
  }

  /** What the call stores at the end of the line. */
  function Stored(rate: nat, s: State, op: Op): Played
    requires Valid(rate, s)
  {
    match op
    case Hear(sample) => Played(Fill(rate, s, Some(sample)).sample, true)
    case Lose => Played(Fill(rate, s, None).sample, false)
    case Flush => Played(0.0, false)
  }

  /** What one call does to the entry at index k of the line, and to the flags. */
  predicate Moves(rate: nat, s: State, op: Op, k: nat)
    requires Valid(rate, s)
  {
    var Call(next, played) := Apply(rate, s, op);
    var stored := Stored(rate, s, op);
    && |next.line| == |s.line| >= |s.flags| == Delay(rate) >= 1
    && next.line[|s.line| - 1] == stored.sample
    && next.flags == s.flags[1..] + [stored.fromPcm]
    && played.fromPcm == s.flags[0]
    && (k < |s.line| && !Rewrites(rate, s, op, k) ==>
          && (k > 0 ==> next.line[k - 1] == s.line[k])
          && (k == |s.line| - Delay(rate) ==> played.sample == s.line[k]))
  }

  lemma FillMoves(rate: nat, s: State, input: Option<real>, k: nat)
    requires Valid(rate, s)
    ensures Moves(rate, s, if input.Some? then Hear(input.value) else Lose, k)
  {
    hide Fill, Pitch, CeilDiv, Oscillating, Rewrites, MinPitch, MaxPitch, TenMs;
    Geometry(rate);
    if k < |s.line| && !Rewrites(rate, s, if input.Some? then Hear(input.value) else Lose, k) {
      FillKeepsEntry(rate, s, k, input);
    }
  }

  /** One call moves both delay lines by one entry, appends, and plays the head of the lookahead. */
  lemma CallMoves(rate: nat, s: State, op: Op, k: nat)
    requires Valid(rate, s)
    ensures Moves(rate, s, op, k)
  {
    match op {
      case Hear(sample) => FillMoves(rate, s, Some(sample), k);
      case Lose => FillMoves(rate, s, None, k);
      case Flush => Geometry(rate);
    }
  }

  lemma {:induction false} EntryTravels(rate: nat, s: State, k: nat, ops: seq<Op>)
    requires Valid(rate, s) && |ops| <= k < |s.line| && Untouched(rate, s, k, ops)
    ensures |Run(rate, s, ops).line| == |s.line|
    ensures Run(rate, s, ops).line[k - |ops|] == s.line[k]
    decreases |ops|
  {
    hide Apply, Rewrites, Valid;
    if ops != [] {
      CallMoves(rate, s, ops[0], k);
      EntryTravels(rate, Apply(rate, s, ops[0]).state, k - 1, ops[1..]);
    }
  }

  lemma {:induction false} FlagTravels(rate: nat, s: State, k: nat, ops: seq<Op>)
    requires Valid(rate, s) && |ops| <= k < |s.flags|
    ensures |Run(rate, s, ops).flags| == |s.flags|
    ensures Run(rate, s, ops).flags[k - |ops|] == s.flags[k]
    decreases |ops|
  {
    hide Apply, Stored, Rewrites, Valid;
    if ops != [] {
      CallMoves(rate, s, ops[0], 0);
      FlagTravels(rate, Apply(rate, s, ops[0]).state, k - 1, ops[1..]);
    }
  }

  lemma LastOutput(rate: nat, s: State, front: seq<Op>, last: Op)
    requires Valid(rate, s)
    ensures Outputs(rate, s, front + [last])[|front|] == Apply(rate, Run(rate, s, front), last).played
  {
    RunSplits(rate, s, front, [last]);
    hide Apply;
    assert Outputs(rate, Run(rate, s, front), [last]) == [Apply(rate, Run(rate, s, front), last).played];
  }

  /**
   An entry is played exactly Delay calls after it was stored, always with its
   own flag, and unchanged unless a loss onset in between reaches back to it.
   */
  lemma EntryEmerges(rate: nat, s: State, op: Op, later: seq<Op>)
    requires Valid(rate, s) && |later| == Delay(rate)
    ensures
      var played := Outputs(rate, s, [op] + later)[Delay(rate)];
      && played.fromPcm == Stored(rate, s, op).fromPcm
      && (Untouched(rate, Apply(rate, s, op).state, |s.line| - 1, later) ==> played == Stored(rate, s, op))
  {
    hide Apply, Rewrites, Stored, CeilDiv, Valid, Untouched, MinPitch, MaxPitch, HistoryLength, TenMs;
    CallMoves(rate, s, op, 0);
    var d, top := Delay(rate), |s.line| - 1;
    var first := Apply(rate, s, op).state;
    var middle, last := later[..d - 1], later[d - 1];
    var before := Run(rate, first, middle);
    assert later == middle + [last];
    assert ([op] + middle)[1..] == middle && [op] + later == ([op] + middle) + [last];
    LastOutput(rate, s, [op] + middle, last);
    FlagTravels(rate, first, d - 1, middle);
    CallMoves(rate, before, last, top + 1 - d);
    if Untouched(rate, first, top, later) {
      UntouchedSplits(rate, first, top, middle, last);
      EntryTravels(rate, first, top, middle);
    }
  }

  lemma {:induction false} UntouchedSplits(rate: nat, s: State, k: int, ops: seq<Op>, last: Op)
    requires Valid(rate, s) && Untouched(rate, s, k, ops + [last])
    ensures Untouched(rate, s, k, ops)
    ensures !Rewrites(rate, Run(rate, s, ops), last, k - |ops|)
    decreases |ops|
  {
    hide Fill, Pitch;
    if ops != [] {
      assert (ops + [last])[1..] == ops[1..] + [last];
      UntouchedSplits(rate, Apply(rate, s, ops[0]).state, k - 1, ops[1..], last);
    }
  }

  // ---------------------------------------------------------------- envelope

  /** Full level for ten milliseconds, never rising, exactly zero from sixty on. */
  lemma GainEnvelope(rate: nat, a: nat, b: nat)
    requires rate >= 1 && a <= b
    ensures a <= TenMs(rate) ==> LossGain(rate, a) == 1.0
    ensures 0.0 <= LossGain(rate, b) <= LossGain(rate, a) <= 1.0
    ensures a >= 6 * TenMs(rate) ==> LossGain(rate, a) == 0.0
    ensures TenMs(rate) < a < 6 * TenMs(rate) ==> 0.0 < LossGain(rate, a) < 1.0
  {
    Geometry(rate);
    var t := (TenMs(rate) * 5) as real;
    var x, y := Monus(a, TenMs(rate)) as real, Monus(b, TenMs(rate)) as real;
    QuotientMonotone(x, y, t);
    QuotientMonotone(0.0, x, t);
    if a >= 6 * TenMs(rate) {
      QuotientMonotone(t, x, t);
    } else if a > TenMs(rate) {
      assert x / t > 0.0 && x / t < 1.0 by { QuotientStrict(x, t); }
    }
  }

  /** Between ten and sixty milliseconds the level falls by the same amount with every lost sample. */
  lemma GainIsLinear(rate: nat, lost: nat)
    requires rate >= 1 && TenMs(rate) <= lost <= 6 * TenMs(rate)
    ensures LossGain(rate, lost) * (5 * TenMs(rate)) as real == (6 * TenMs(rate) - lost) as real
  {
    Geometry(rate);
    hide TenMs;
    LevelLeft((lost - TenMs(rate)) as real, (TenMs(rate) * 5) as real);
  }

  lemma LevelLeft(past: real, span: real)
    requires 0.0 <= past <= span && span > 0.0
    ensures 1.0 - past / span >= 0.0
    ensures (1.0 - past / span) * span == span - past
  {
    var q := past / span;
    assert q * span == past;
    assert (1.0 - q) * span == span - past;
    FactorSign(1.0 - q, span);
  }

  lemma QuotientMonotone(x: real, y: real, t: real)
    requires t > 0.0 && x <= y
    ensures x / t <= y / t && 0.0 / t == 0.0 && t / t == 1.0
  {
    assert y / t - x / t == (y - x) / t;
  }

  lemma NonNegativeProduct(x: real, y: real)
    requires x >= 0.0 && y >= 0.0
    ensures x * y >= 0.0
  {
  }

  lemma QuotientStrict(x: real, t: real)
    requires 0.0 < x < t
    ensures 0.0 < x / t < 1.0
  {
    var q := x / t;
    assert q * t == x;
    if q >= 1.0 {
      NonNegativeProduct(q - 1.0, t);
    }
    if q <= 0.0 {
      NonNegativeProduct(-q, t);
    }
  }

  function Losses(n: nat): seq<Op> {
    seq(n, _ => Lose)
  }

  /** The newest m unplayed entries are synthesized zeros. */
  predicate SilentTail(s: State, m: nat) {
    && m <= |s.flags| <= |s.line|
    && (forall k | |s.line| - m <= k < |s.line| :: s.line[k] == 0.0)
    && (forall k | |s.flags| - m <= k < |s.flags| :: !s.flags[k])
  }

  /** One more lost sample: the count grows, and past sixty milliseconds so does the silent tail. */
  lemma LossStep(rate: nat, s: State, m: nat)
    requires Valid(rate, s)
    ensures
      var next := Apply(rate, s, Lose).state;
      && next.lost == SaturatingAdd(s.lost, 1)
      && (s.lost >= 6 * TenMs(rate) && SilentTail(s, m) ==> SilentTail(next, Min(m + 1, Delay(rate))))
  {
    Geometry(rate);
    hide Prepared, Substitution, Pitch, CeilDiv, Oscillating;
    if s.lost >= 6 * TenMs(rate) && SilentTail(s, m) {
      GainEnvelope(rate, s.lost, s.lost);
      SilentAppend(s, m, Fill(rate, s, None).state);
    }
  }

  lemma SilentAppend(s: State, m: nat, t: State)
    requires SilentTail(s, m) && t.line == s.line && t.flags == s.flags && |s.flags| >= 1
    ensures SilentTail(t.(line := t.line[1..] + [0.0], flags := t.flags[1..] + [false]), Min(m + 1, |s.flags|))
  {
  }

  lemma {:induction false} LossCounts(rate: nat, s: State, n: nat)
    requires Valid(rate, s)
    ensures Run(rate, s, Losses(n)).lost == SaturatingAdd(s.lost, n)
    decreases n
  {
    hide Apply, Oscillating, CycleAfter, CeilDiv;
    if n > 0 {
      assert Losses(n)[1..] == Losses(n - 1);
      LossStep(rate, s, 0);
      LossCounts(rate, Apply(rate, s, Lose).state, n - 1);
    }
  }

  lemma {:induction false} FadedLossStaysSilent(rate: nat, s: State, m: nat, n: nat)
    requires Valid(rate, s) && 6 * TenMs(rate) <= s.lost <= WORD_MAX && SilentTail(s, m)
    ensures SilentTail(Run(rate, s, Losses(n)), Min(m + n, Delay(rate)))
    ensures Run(rate, s, Losses(n)).lost >= s.lost
    decreases n
  {
    hide Valid, Apply, CeilDiv;
    if n > 0 {
      assert Losses(n)[1..] == Losses(n - 1);
      LossStep(rate, s, m);
      hide SilentTail;
      FadedLossStaysSilent(rate, Apply(rate, s, Lose).state, Min(m + 1, Delay(rate)), n - 1);
    } else {
      assert m <= Delay(rate) by { TailFits(rate, s, m); }
    }
  }

  lemma TailFits(rate: nat, s: State, m: nat)
    requires Valid(rate, s) && SilentTail(s, m)
    ensures m <= Delay(rate)
  {
  }

  lemma FadedLossPlaysSilence(rate: nat, s: State, n: nat)
    requires Valid(rate, s) && s.lost >= 6 * TenMs(rate) && n >= Delay(rate)
    ensures Apply(rate, Run(rate, s, Losses(n)), Lose).played == Played(0.0, false)
  {
    NothingIsSilent(rate, s);
    hide Apply, CeilDiv, SilentTail, Oscillating;
    FadedLossStaysSilent(rate, s, 0, n);
    assert Min(0 + n, Delay(rate)) == Delay(rate);
    assert Run(rate, s, Losses(n)).lost > 0 by { Geometry(rate); }
    SilentHead(rate, Run(rate, s, Losses(n)));
  }

  lemma SixtyMsFades(rate: nat, s: State)
    requires Valid(rate, s)
    ensures Run(rate, s, Losses(6 * TenMs(rate))).lost >= 6 * TenMs(rate)
  {
    LossCounts(rate, s, 6 * TenMs(rate));
    Geometry(rate);
  }

  /** Sixty milliseconds of loss after any history plus the lookahead: exact silence, never real. */
  lemma SustainedLossIsSilent(rate: nat, s: State, n: nat)
    requires Valid(rate, s) && n >= 6 * TenMs(rate) + Delay(rate)
    ensures Apply(rate, Run(rate, s, Losses(n)), Lose).played == Played(0.0, false)
  {
    hide *;
    SixtyMsFades(rate, s);
    LossesSplit(6 * TenMs(rate), n);
    RunSplits(rate, s, Losses(6 * TenMs(rate)), Losses(n - 6 * TenMs(rate)));
    FadedLossPlaysSilence(rate, Run(rate, s, Losses(6 * TenMs(rate))), n - 6 * TenMs(rate));
  }

  lemma LossesSplit(k: nat, n: nat)
    requires k <= n
    ensures Losses(n) == Losses(k) + Losses(n - k)
  {
  }

  lemma NothingIsSilent(rate: nat, s: State)
    requires Valid(rate, s)
    ensures SilentTail(s, 0)
  {
    Geometry(rate);
  }

  lemma SilentHead(rate: nat, s: State)
    requires Valid(rate, s) && s.lost > 0 && SilentTail(s, Delay(rate))
    ensures Apply(rate, s, Lose).played == Played(0.0, false)
  {
    Geometry(rate);
    CallMoves(rate, s, Lose, |s.line| - Delay(rate));
    hide Apply, Stored, CeilDiv, Pitch;
  }

  // ---------------------------------------------------------------- range

  predicate Bounded(x: real) {
    -1.0 <= x <= 1.0
  }

  predicate AllBounded(s: seq<real>) {
    forall k | 0 <= k < |s| :: Bounded(s[k])
  }

  predicate StoredBounded(s: State) {
    AllBounded(s.line) && AllBounded(s.frozen) && AllBounded(s.lastQuarter) && AllBounded(s.overlap)
  }

  lemma ScaledBounded(x: real, g: real)
    requires Bounded(x) && 0.0 <= g <= 1.0
    ensures Bounded(Product(x, g))
  {
    NonNegativeProduct(1.0 - x, g);
    NonNegativeProduct(1.0 + x, g);
  }

  lemma WeightInUnit(n: real, d: real)
    requires 0.0 < n <= d
    ensures 0.0 <= n / d <= 1.0
  {
    QuotientMonotone(0.0, n, d);
    QuotientMonotone(n, d, d);
  }

  lemma MixBounded(a: real, b: real, w: real)
    requires Bounded(a) && Bounded(b) && 0.0 <= w <= 1.0
    ensures -1.0 <= a * (1.0 - w) + b * w
    ensures a * (1.0 - w) + b * w <= 1.0
  {
    NonNegativeProduct(1.0 - a, 1.0 - w);
    NonNegativeProduct(1.0 - b, w);
    NonNegativeProduct(1.0 + a, 1.0 - w);
    NonNegativeProduct(1.0 + b, w);
  }

  lemma BlendBounded(a: real, b: real, index: nat, count: nat)
    requires Bounded(a) && Bounded(b) && index < count
    ensures Bounded(Blend(a, b, index, count))
  {
    var n, d := (index + 1) as real, count as real;
    WeightInUnit(n, d);
    MixBounded(a, b, n / d);
  }

  lemma SmoothTailBounded(frozen: seq<real>, last: seq<real>, cycle: nat, quarter: nat)
    requires cycle + quarter <= |frozen| && quarter <= |last|
    requires AllBounded(frozen) && AllBounded(last)
    ensures AllBounded(SmoothTail(frozen, last, cycle, quarter))
  {
    var keep := |frozen| - quarter;
    forall k | keep <= k < |frozen| ensures Bounded(SmoothTail(frozen, last, cycle, quarter)[k]) {
      BlendBounded(last[k - keep], frozen[k - cycle], k - keep, quarter);
    }
  }

  lemma SubstitutionBounded(rate: nat, s: State)
    requires Shaped(rate, s) && Oscillating(rate, s) && StoredBounded(s)
    ensures Bounded(Substitution(rate, s).sample) && StoredBounded(Substitution(rate, s).state)
  {
    Geometry(rate);
    if s.overlapLeft != 0 {
      var i := s.pitch / 4 - s.overlapLeft;
      BlendBounded(s.overlap[i], Ahead(rate, s, 0), i, s.pitch / 4);
    }
  }

  lemma PreparedBounded(rate: nat, s: State)
    requires Valid(rate, s) && StoredBounded(s)
    ensures StoredBounded(Prepared(rate, s))
  {
    hide Pitch, SmoothTail, Blend, FoldPhase, CeilDiv;
    Geometry(rate);
    var quiet := s.(recoveryLeft := 0);
    if s.lost == 0 {
      var q := Pitch(rate, s.line) / 4;
      SmoothTailBounded(s.line, WithTail(s.lastQuarter, s.line, q), Pitch(rate, s.line), q);
    }
    var begun := if s.lost == 0 then BeginLoss(rate, quiet) else quiet;
    if s.lost == TenMs(rate) || s.lost == TenMs(rate) * 2 {
      SmoothTailBounded(begun.frozen, begun.lastQuarter, begun.cycle + begun.pitch, begun.pitch / 4);
    }
  }

  lemma ConcealBounded(rate: nat, s: State)
    requires Valid(rate, s) && StoredBounded(s)
    ensures Bounded(Conceal(rate, s).sample) && StoredBounded(Conceal(rate, s).state)
  {
    hide Prepared, Pitch, Ahead;
    PreparedBounded(rate, s);
    SubstitutionBounded(rate, Prepared(rate, s));
    GainEnvelope(rate, s.lost, s.lost);
    hide Substitution, LossGain, Product;
    ScaledBounded(Substitution(rate, Prepared(rate, s)).sample, LossGain(rate, s.lost));
  }

  lemma RecoverBounded(rate: nat, s: State, input: real)
    requires Valid(rate, s) && StoredBounded(s) && Bounded(input)
    ensures Bounded(Recover(rate, s, input).sample) && StoredBounded(Recover(rate, s, input).state)
  {
    var begun := BeginRecovery(rate, s);
    assert StoredBounded(begun);
    hide Pitch, Ahead, LossGain, Blend, Substitution, BeginRecovery, Product;
    if begun.recoveryLeft != 0 {
      SubstitutionBounded(rate, begun);
      var sub := Substitution(rate, begun);
      ScaledBounded(sub.sample, begun.recoveryGain);
      BlendBounded(Product(sub.sample, begun.recoveryGain), input,
                   begun.recoveryLength - begun.recoveryLeft, begun.recoveryLength);
    }
  }

  lemma FillBounded(rate: nat, s: State, input: Option<real>)
    requires Valid(rate, s) && StoredBounded(s) && (input.Some? ==> Bounded(input.value))
    ensures Bounded(Fill(rate, s, input).sample) && StoredBounded(Fill(rate, s, input).state)
  {
    if input.None? {
      ConcealBounded(rate, s);
    } else {
      RecoverBounded(rate, s, input.value);
    }
  }

  /** In-range input never makes an out-of-range sample, stored or played, through any mix of calls. */
  lemma {:induction false} RangeIsKept(rate: nat, s: State, ops: seq<Op>)
    requires Valid(rate, s) && StoredBounded(s)
    requires forall k | 0 <= k < |ops| :: ops[k].Hear? ==> Bounded(ops[k].sample)
    ensures StoredBounded(Run(rate, s, ops))
    ensures forall k | 0 <= k < |ops| :: Bounded(Outputs(rate, s, ops)[k].sample)
    decreases |ops|
  {
    hide Fill, Pitch;
    Geometry(rate);
    if ops != [] {
      match ops[0] {
        case Hear(sample) => FillBounded(rate, s, Some(sample));
        case Lose => FillBounded(rate, s, None);
        case Flush =>
      }
      RangeIsKept(rate, Apply(rate, s, ops[0]).state, ops[1..]);
    }
  }

  // ---------------------------------------------------------------- the pitch score

  /** Squared with the sign kept. */
  function Squared(x: real): real {
    x * (if x < 0.0 then -x else x)
  }

  lemma PositiveProduct(a: real, b: real, p: real)
    requires a > 0.0 && b > 0.0 && p == a * b
    ensures p > 0.0
  {
  }

  lemma SquaredRises(x: real, y: real)
    requires x > y
    ensures Squared(x) > Squared(y)
  {
    if y >= 0.0 {
      PositiveProduct(x - y, x + y, x * x - y * y);
    } else if x <= 0.0 {
      PositiveProduct(x - y, -x - y, y * y - x * x);
    } else {
      PositiveProduct(x, x, x * x);
      PositiveProduct(-y, -y, y * y);
    }
  }

  /** The source's score: the correlation over the root of the energy. */
  function Rooted(correlation: real, root: real): real {
    if root > 0.0 then correlation / root else 0.0
  }

  lemma Cancels(p: real, e: real)
    requires e > 0.0
    ensures p * e / e == p
  {
  }

  lemma RootedTimes(correlation: real, root: real)
    requires root > 0.0
    ensures
      var x := correlation / root;
      correlation * (if correlation < 0.0 then -correlation else correlation) == Squared(x) * (root * root)
  {
    var x := correlation / root;
    assert correlation == x * root;
    if x < 0.0 {
      PositiveProduct(-x, root, -(x * root));
      assert (x * root) * -(x * root) == (x * -x) * (root * root);
    } else if x > 0.0 {
      PositiveProduct(x, root, x * root);
      assert (x * root) * (x * root) == (x * x) * (root * root);
    }
  }

  lemma NormalizedIsSquared(correlation: real, root: real)
    requires root >= 0.0
    ensures Normalized(correlation, root * root) == Squared(Rooted(correlation, root))
  {
    if root > 0.0 {
      var energy := root * root;
      PositiveProduct(root, root, energy);
      RootedTimes(correlation, root);
      Cancels(Squared(correlation / root), energy);
    }
  }

  /**
   The model's score compares any two lags as the source's does: whichever has
   the larger correlation over the root of its energy has the larger score.
   */
  lemma ScoreOrders(c: real, root: real, d: real, other: real)
    requires root >= 0.0 && other >= 0.0
    ensures Normalized(c, root * root) > Normalized(d, other * other) <==> Rooted(c, root) > Rooted(d, other)
  {
    NormalizedIsSquared(c, root);
    NormalizedIsSquared(d, other);
    var x, y := Rooted(c, root), Rooted(d, other);
    if x > y {
      SquaredRises(x, y);
    } else if y > x {
      SquaredRises(y, x);
    }
  }
}
