/** The cross-fades of any loss, periodic history or not: into a longer cycle, and back to returning audio. */
module PlcFade {
  import opened Common
  import opened PlcSpec
  import opened PlcLaws
  import opened PlcRecovery
  import opened PlcSeam

  // ---------------------------------------------------------------- the oscillator, step by step

  /** The state after i oscillator samples. */
  function Stepped(s: State, i: nat): State
    requires s.cycle >= 1
  {
    s.(phase := (s.phase + i) % s.cycle, overlapLeft := Monus(s.overlapLeft, i))
  }

  lemma SteppedFits(rate: nat, s: State, i: nat)
    requires Shaped(rate, s) && Oscillating(rate, s)
    ensures s.cycle >= 1 && Shaped(rate, Stepped(s, i)) && Oscillating(rate, Stepped(s, i))
  {
    Geometry(rate);
    hide CeilDiv, MinPitch, MaxPitch, HistoryLength, Delay;
  }

  /** The i-th oscillator sample from here, whatever its level. */
  function Osc(rate: nat, s: State, i: nat): real
    requires Shaped(rate, s) && Oscillating(rate, s)
  {
    SteppedFits(rate, s, i);
    Substitution(rate, Stepped(s, i)).sample
  }

  lemma StepsOn(rate: nat, s: State, i: nat)
    requires Shaped(rate, s) && Oscillating(rate, s)
    ensures s.cycle >= 1 && Shaped(rate, Stepped(s, i)) && Oscillating(rate, Stepped(s, i))
    ensures Substitution(rate, Stepped(s, i)).state == Stepped(s, i + 1)
  {
    hide CeilDiv, MinPitch, MaxPitch, HistoryLength, Delay, Substitution, Oscillating;
    SteppedFits(rate, s, i);
    hide Shaped;
    StepsAround(s.phase + i, s.cycle);
  }

  lemma SteppedAhead(rate: nat, s: State, i: nat)
    requires Shaped(rate, s) && Oscillating(rate, s)
    ensures s.cycle >= 1 && Shaped(rate, Stepped(s, i)) && Oscillating(rate, Stepped(s, i))
    ensures Ahead(rate, Stepped(s, i), 0) == Ahead(rate, s, i)
  {
    SteppedFits(rate, s, i);
    Geometry(rate);
    SmallModulo((s.phase + i) % s.cycle, s.cycle);
    hide CeilDiv, MinPitch, MaxPitch, HistoryLength, Delay;
  }

  // ---------------------------------------------------------------- into a longer cycle

  lemma ExpandShape(rate: nat, s: State)
    requires Shaped(rate, s) && Oscillating(rate, s) && s.cycle <= 2 * s.pitch
    ensures
      var e := Expand(rate, s);
      && e == s.(overlap := e.overlap, phase := FoldPhase(s.phase, s.pitch), cycle := s.cycle + s.pitch,
                 frozen := e.frozen, overlapLeft := s.pitch / 4)
      && |e.overlap| == |s.overlap| && s.pitch / 4 <= |e.overlap|
      && forall i | 0 <= i < s.pitch / 4 :: e.overlap[i] == Ahead(rate, s, i)
  {
    QuarterFits(rate, s.pitch);
    Geometry(rate);
    hide CeilDiv, Ahead, SmoothTail, MinPitch, MaxPitch, HistoryLength, Delay, FoldPhase;
  }

  /**
   And the longer cycle has its own end joined: of the frozen history nothing but
   the last quarter pitch changes, each sample on the line from the one recorded
   at the onset to the one a whole longer cycle before it.
   */
  lemma ExpansionJoins(rate: nat, s: State, k: nat)
    requires Shaped(rate, s) && Oscillating(rate, s) && s.cycle <= 2 * s.pitch && k < |s.frozen|
    ensures
      var e, longer, keep := Expand(rate, s), s.cycle + s.pitch, |s.frozen| - s.pitch / 4;
      && longer + s.pitch / 4 <= |s.frozen| == |e.frozen| && s.pitch / 4 <= |s.lastQuarter|
      && (k < keep ==> e.frozen[k] == s.frozen[k])
      && (k >= keep ==> OnLine(e.frozen[k], s.lastQuarter[k - keep], s.frozen[k - longer], k - keep + 1, s.pitch / 4))
      && (s.pitch >= 4 ==> e.frozen[|s.frozen| - 1] == s.frozen[|s.frozen| - 1 - longer])
  {
    hide SmoothTail, OnLine, CeilDiv, MinPitch, MaxPitch, HistoryLength, Delay, Recorded, FoldPhase;
    QuarterFits(rate, s.pitch);
    SeamCloses(s.frozen, s.lastQuarter, s.cycle + s.pitch, s.pitch / 4, k);
  }

  /**
   A cycle grows without a jump: over a quarter pitch the oscillator goes, in
   equal steps, from where the shorter cycle was going to the longer one, and
   stays there; the phase moves by whole pitches only.
   */
  lemma ExpansionCrossfades(rate: nat, s: State, i: nat)
    requires Shaped(rate, s) && Oscillating(rate, s) && s.cycle <= 2 * s.pitch
    ensures
      var e := Expand(rate, s);
      && Shaped(rate, e) && Oscillating(rate, e)
      && e.cycle == s.cycle + s.pitch && e.phase <= s.pitch && (exists k: nat :: s.phase == e.phase + k * s.pitch)
      && (i < s.pitch / 4 ==> OnLine(Osc(rate, e, i), Ahead(rate, s, i), Ahead(rate, e, i), i + 1, s.pitch / 4))
      && (i >= s.pitch / 4 ==> Osc(rate, e, i) == Ahead(rate, e, i))
  {
    var e := Expand(rate, s);
    ExpandShape(rate, s);
    SteppedAhead(rate, e, i);
    hide Expand, Ahead, Shaped, Oscillating, OnLine, Blend, CeilDiv;
    if i < s.pitch / 4 {
      BlendOnLine(Ahead(rate, s, i), Ahead(rate, e, i), i, s.pitch / 4);
    }
  }

  // ---------------------------------------------------------------- a loss that goes on

  /** The state is r after n oscillator samples, delay lines and counts apart. */
  predicate Follows(rate: nat, t: State, r: State, n: nat) {
    && Valid(rate, t) && Shaped(rate, r) && Oscillating(rate, r) && r.cycle >= 1 && t.lost > 0
    && t == Stepped(r, n).(lost := t.lost, line := t.line, flags := t.flags)
  }

  lemma ConcealFollows(rate: nat, t: State, r: State, n: nat)
    requires Valid(rate, t) && Shaped(rate, r) && Oscillating(rate, r) && r.cycle >= 1
    requires var p := Prepared(rate, t); p == Stepped(r, n).(lost := p.lost, line := p.line, flags := p.flags)
    requires t.lost < WORD_MAX
    ensures Stored(rate, t, Lose).sample == Product(Osc(rate, r, n), LossGain(rate, t.lost))
    ensures Follows(rate, Apply(rate, t, Lose).state, r, n + 1) && Apply(rate, t, Lose).state.lost == t.lost + 1
  {
    StepsOn(rate, r, n);
    SameWaveSample(rate, Stepped(r, n), Prepared(rate, t));
    PreparedLost(rate, t);
    hide Prepared, Substitution, LossGain, CeilDiv, Oscillating, Product;
  }

  lemma PreparedLost(rate: nat, t: State)
    requires Valid(rate, t)
    ensures Prepared(rate, t).lost == t.lost
  {
  }

  /** Delay lines and counts do not enter an oscillator sample. */
  lemma SameWaveSample(rate: nat, a: State, b: State)
    requires Shaped(rate, a) && Oscillating(rate, a) && Shaped(rate, b) && Oscillating(rate, b)
    requires b == a.(lost := b.lost, line := b.line, flags := b.flags)
    ensures
      var x, y := Substitution(rate, a), Substitution(rate, b);
      x.sample == y.sample && y.state == x.state.(lost := b.lost, line := b.line, flags := b.flags)
  {
    Geometry(rate);
    hide CeilDiv, MinPitch, MaxPitch, HistoryLength, Delay, Blend;
  }

  lemma PreparedBetween(rate: nat, t: State)
    requires Valid(rate, t) && t.lost > 0 && t.lost != TenMs(rate) && t.lost != 2 * TenMs(rate)
    ensures Prepared(rate, t) == t
  {
    Geometry(rate);
    hide CeilDiv, BeginLoss, Expand;
  }

  /** No cycle grows at any of these counts. */
  predicate Uneventful(rate: nat, low: nat, high: nat) {
    !(low <= TenMs(rate) <= high) && !(low <= 2 * TenMs(rate) <= high)
  }

  lemma {:induction false} LossFollows(rate: nat, t: State, r: State, k: nat, n: nat)
    requires Follows(rate, t, r, k) && t.lost + n < WORD_MAX
    requires Uneventful(rate, t.lost, t.lost + n)
    ensures
      Stored(rate, Run(rate, t, Losses(n)), Lose).sample == Product(Osc(rate, r, k + n), LossGain(rate, t.lost + n))
    decreases n
  {
    hide *;
    FollowsOn(rate, t, r, k, n);
    RunLosses(rate, t, n);
    if n > 0 {
      UneventfulNext(rate, t.lost, n);
      LossFollows(rate, Apply(rate, t, Lose).state, r, k + 1, n - 1);
    }
  }

  lemma FollowsOn(rate: nat, t: State, r: State, k: nat, n: nat)
    requires Follows(rate, t, r, k) && t.lost + n < WORD_MAX && Uneventful(rate, t.lost, t.lost + n)
    ensures Valid(rate, t) && Shaped(rate, r) && Oscillating(rate, r)
    ensures Stored(rate, t, Lose).sample == Product(Osc(rate, r, k), LossGain(rate, t.lost))
    ensures Follows(rate, Apply(rate, t, Lose).state, r, k + 1) && Apply(rate, t, Lose).state.lost == t.lost + 1
  {
    hide Apply, Stored, Osc, LossGain, Product, CeilDiv, TenMs, Oscillating;
    PreparedBetween(rate, t);
    ConcealFollows(rate, t, r, k);
  }

  lemma UneventfulNext(rate: nat, lost: nat, n: nat)
    requires Uneventful(rate, lost, lost + n) && n > 0
    ensures Uneventful(rate, lost + 1, lost + 1 + (n - 1))
  {
  }

  /**
   At ten and at twenty milliseconds of a loss over any history the cycle grows,
   and the following ten milliseconds play the cross-fade and then the longer
   cycle, at the level of the envelope.
   */
  lemma LossExpands(rate: nat, s: State, n: nat)
    requires Valid(rate, s) && (s.lost == TenMs(rate) || s.lost == 2 * TenMs(rate)) && n < TenMs(rate)
    ensures Shaped(rate, s) && Oscillating(rate, s) && s.cycle <= 2 * s.pitch && s.lost > 0
    ensures
      var e := Expand(rate, s);
      && Stored(rate, Run(rate, s, Losses(n)), Lose).sample == Product(Osc(rate, e, n), LossGain(rate, s.lost + n))
      && (n < s.pitch / 4 ==> OnLine(Osc(rate, e, n), Ahead(rate, s, n), Ahead(rate, e, n), n + 1, s.pitch / 4))
      && (n >= s.pitch / 4 ==> Osc(rate, e, n) == Ahead(rate, e, n))
  {
    hide *;
    ExpandsHere(rate, s);
    var e := Expand(rate, s);
    ExpansionCrossfades(rate, s, n);
    StartsExpanding(rate, s, n);
    RunLosses(rate, s, n);
    if n > 0 {
      LossFollows(rate, Apply(rate, s, Lose).state, e, 1, n - 1);
    }
  }

  lemma StartsExpanding(rate: nat, s: State, n: nat)
    requires Valid(rate, s) && (s.lost == TenMs(rate) || s.lost == 2 * TenMs(rate)) && n < TenMs(rate)
    ensures Shaped(rate, s) && Oscillating(rate, s) && s.cycle <= 2 * s.pitch
    ensures
      var e, next := Expand(rate, s), Apply(rate, s, Lose).state;
      && Stored(rate, s, Lose).sample == Product(Osc(rate, e, 0), LossGain(rate, s.lost))
      && Follows(rate, next, e, 1) && next.lost == s.lost + 1
      && s.lost + n < WORD_MAX && (n > 0 ==> Uneventful(rate, next.lost, next.lost + (n - 1)))
  {
    Geometry(rate);
    ExpandsHere(rate, s);
    hide CeilDiv, Expand, Osc, Apply, Stored, LossGain, Product, TenMs, Prepared, Stepped;
    ConcealFollows(rate, s, Expand(rate, s), 0);
  }

  lemma ExpandsHere(rate: nat, s: State)
    requires Valid(rate, s) && (s.lost == TenMs(rate) || s.lost == 2 * TenMs(rate))
    ensures s.lost > 0 && Shaped(rate, s) && Oscillating(rate, s) && s.cycle <= 2 * s.pitch
    ensures Prepared(rate, s) == Expand(rate, s) && Expand(rate, s) == Stepped(Expand(rate, s), 0)
  {
    Geometry(rate);
    var e := Expand(rate, s);
    hide CeilDiv, BeginLoss, Expand;
    SmallModulo(e.phase, e.cycle);
  }

  // ---------------------------------------------------------------- back to returning audio

  /** The overlap of a loss of this length, as BeginRecovery sizes it. */
  function OverlapOf(rate: nat, s: State): nat
    requires rate >= 1
  {
    Geometry(rate);
    RecoveryLength(s.lost, s.pitch, TenMs(rate), FourMs(rate))
  }

  /** Standing i returning samples after the loss r, the oscillator still going. */
  predicate Returning(rate: nat, t: State, r: State, i: nat) {
    && Valid(rate, t) && t.lost == 0 && Shaped(rate, r) && Oscillating(rate, r) && r.cycle >= 1 && r.lost > 0
    && if i < OverlapOf(rate, r) then
         && t == Stepped(r, i).(lost := 0, line := t.line, flags := t.flags, recoveryLeft := OverlapOf(rate, r) - i,
                                recoveryLength := OverlapOf(rate, r), recoveryGain := LossGain(rate, r.lost))
       else t.recoveryLeft == 0
  }

  /** The returning sample: on the line from the wave the loss would have gone on with, at its level, to the input. */
  predicate Faded(rate: nat, r: State, i: nat, input: real, sample: real)
    requires Shaped(rate, r) && Oscillating(rate, r)
  {
    if i < OverlapOf(rate, r)
    then OnLine(sample, Product(Osc(rate, r, i), LossGain(rate, r.lost)), input, i + 1, OverlapOf(rate, r))
    else sample == input
  }

  lemma ReturningStep(rate: nat, t: State, r: State, i: nat, input: real)
    requires Returning(rate, t, r, i)
    ensures Faded(rate, r, i, input, Recover(rate, t, input).sample)
    ensures
      var n := Recover(rate, t, input).state;
      forall line, flags | |line| == |t.line| && |flags| == |t.flags| ::
        Returning(rate, n.(line := line, flags := flags), r, i + 1)
  {
    if i < OverlapOf(rate, r) {
      StepsOn(rate, r, i);
      SameWaveSampleRecovering(rate, Stepped(r, i), t);
      BlendOnLine(Product(Osc(rate, r, i), LossGain(rate, r.lost)), input, i, OverlapOf(rate, r));
    }
    hide CeilDiv, Substitution, LossGain, Product, Blend, OnLine, OverlapOf, Oscillating, TenMs;
  }

  lemma SameWaveSampleRecovering(rate: nat, a: State, b: State)
    requires Shaped(rate, a) && Oscillating(rate, a) && Shaped(rate, b) && Oscillating(rate, b)
    requires b == a.(lost := b.lost, line := b.line, flags := b.flags, recoveryLeft := b.recoveryLeft,
                     recoveryLength := b.recoveryLength, recoveryGain := b.recoveryGain)
    ensures
      var x, y := Substitution(rate, a), Substitution(rate, b);
      && x.sample == y.sample
      && y.state == x.state.(lost := b.lost, line := b.line, flags := b.flags, recoveryLeft := b.recoveryLeft,
                             recoveryLength := b.recoveryLength, recoveryGain := b.recoveryGain)
  {
    Geometry(rate);
    hide CeilDiv, MinPitch, MaxPitch, HistoryLength, Delay, Blend;
  }

  lemma HearReturns(rate: nat, t: State, r: State, i: nat, input: real)
    requires Returning(rate, t, r, i)
    ensures Valid(rate, t) && Shaped(rate, r) && Oscillating(rate, r)
    ensures Faded(rate, r, i, input, Stored(rate, t, Hear(input)).sample)
    ensures Returning(rate, Apply(rate, t, Hear(input)).state, r, i + 1)
  {
    ReturningStep(rate, t, r, i, input);
    hide Recover, Returning, Faded, CeilDiv, Oscillating;
    var n, a := Recover(rate, t, input).state, Apply(rate, t, Hear(input)).state;
    assert a == n.(line := a.line, flags := a.flags);
    RecoverKeepsLines(rate, t, input);
  }

  lemma RecoverKeepsLines(rate: nat, t: State, input: real)
    requires Valid(rate, t)
    ensures
      var n := Recover(rate, t, input).state;
      && n.line == t.line && n.flags == t.flags
      && |Apply(rate, t, Hear(input)).state.line| == |t.line| && |Apply(rate, t, Hear(input)).state.flags| == |t.flags|
  {
    Geometry(rate);
    hide Substitution, CeilDiv, LossGain, RecoveryLength, Blend, Oscillating;
  }

  lemma ReturningIsValid(rate: nat, t: State, r: State, i: nat)
    requires Returning(rate, t, r, i)
    ensures Valid(rate, t) && Shaped(rate, r) && Oscillating(rate, r)
  {
  }

  lemma {:induction false} ReturnsOn(
      rate: nat, t: State, r: State, i: nat, inputs: seq<real>, last: real)
    requires Returning(rate, t, r, i)
    ensures Valid(rate, t) && Shaped(rate, r) && Oscillating(rate, r)
    ensures Faded(rate, r, i + |inputs|, last, Stored(rate, Run(rate, t, Hears(inputs)), Hear(last)).sample)
    decreases |inputs|
  {
    hide *;
    ReturningIsValid(rate, t, r, i);
    RunHears(rate, t, inputs);
    if inputs == [] {
      HearReturns(rate, t, r, i, last);
    } else {
      HearReturns(rate, t, r, i, inputs[0]);
      ReturnsOn(rate, Apply(rate, t, Hear(inputs[0])).state, r, i + 1, inputs[1..], last);
    }
  }

  /** Freezing the envelope first changes nothing the next input does. */
  lemma ReturnBegins(rate: nat, s: State)
    requires Valid(rate, s) && s.lost > 0
    ensures Returning(rate, BeginRecovery(rate, s), s, 0)
    ensures forall input :: Apply(rate, s, Hear(input)) == Apply(rate, BeginRecovery(rate, s), Hear(input))
  {
    Geometry(rate);
    var begun := BeginRecovery(rate, s);
    SmallModulo(s.phase, s.cycle);
    hide CeilDiv, Substitution, LossGain, RecoveryLength;
    assert BeginRecovery(rate, begun) == begun;
    assert forall input :: Recover(rate, s, input) == Recover(rate, begun, input);
  }

  /**
   After any loss over any history, returning audio is faded in over equal steps
   from the wave the loss would have gone on with, at the level it had reached,
   an unfinished change of cycle included; the last step is the input itself.
   */
  lemma RecoveryMixes(rate: nat, s: State, inputs: seq<real>)
    requires Valid(rate, s) && s.lost > 0 && inputs != []
    ensures rate >= 1 && Shaped(rate, s) && Oscillating(rate, s)
    ensures
      var i, input, length := |inputs| - 1, inputs[|inputs| - 1], OverlapOf(rate, s);
      var sample := Stored(rate, Run(rate, s, Hears(inputs[..i])), Hear(input)).sample;
      && (i < length ==>
            OnLine(sample, Product(Osc(rate, s, i), LossGain(rate, s.lost)), input, i + 1, length))
      && (i + 1 >= length ==> sample == input)
  {
    ReturnBegins(rate, s);
    var i, input, length := |inputs| - 1, inputs[|inputs| - 1], OverlapOf(rate, s);
    hide *;
    ReturnsOn(rate, BeginRecovery(rate, s), s, 0, inputs[..i], input);
    SameRun(rate, s, BeginRecovery(rate, s), inputs[..i], input);
    FadedMeans(rate, s, i, input, Stored(rate, Run(rate, s, Hears(inputs[..i])), Hear(input)).sample);
  }

  lemma FadedMeans(rate: nat, r: State, i: nat, input: real, sample: real)
    requires rate >= 1 && Shaped(rate, r) && Oscillating(rate, r) && Faded(rate, r, i, input, sample)
    ensures i < OverlapOf(rate, r) ==>
        OnLine(sample, Product(Osc(rate, r, i), LossGain(rate, r.lost)), input, i + 1, OverlapOf(rate, r))
    ensures i + 1 >= OverlapOf(rate, r) ==> sample == input
  {
    hide OverlapOf, Osc, LossGain, Product, Oscillating, CeilDiv;
    if i + 1 == OverlapOf(rate, r) {
      Cancel((i + 1) as real, sample, input);
    }
  }
}
