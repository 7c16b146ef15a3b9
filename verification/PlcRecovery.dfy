/** How returning audio replaces a concealed loss: how long, and sample by sample. */
module PlcRecovery {
  import opened Common
  import opened PlcSpec
  import opened PlcLaws
  import opened PlcWave

  /** In the (k + 1)-th started ten milliseconds of loss: a quarter pitch and k times four milliseconds, ten at most. */
  lemma RecoveryGrowsWithLoss(lost: nat, pitch: nat, tenMs: nat, fourMs: nat, k: nat)
    requires tenMs >= 1 && k * tenMs < lost <= (k + 1) * tenMs && pitch / 4 + k * fourMs <= WORD_MAX
    ensures RecoveryLength(lost, pitch, tenMs, fourMs) == Min(pitch / 4 + k * fourMs, tenMs)
  {
    CeilDivCovers(lost, tenMs, k);
    CeilDivCovers(lost, tenMs, k + 1);
    hide CeilDiv;
  }

  /** Standing i samples into the recovery from n lost samples of the wave w. */
  ghost predicate Fading(rate: nat, s: State, w: seq<real>, n: nat, i: nat, length: nat, gain: real) {
    && Valid(rate, s) && s.lost == 0 && |w| >= 1
    && if i < length then
         && s.recoveryLeft == length - i && s.recoveryLength == length && s.recoveryGain == gain
         && Riding(rate, s, w, n + i)
       else s.recoveryLeft == 0
  }

  /** The i-th recovered sample: a linear fade from the continued wave, at the level the loss had, to the input. */
  function Faded(w: seq<real>, n: nat, i: nat, length: nat, gain: real, input: real): real
    requires |w| >= 1
  {
    if i < length then Blend(Product(At(w, n + i), gain), input, i, length) else input
  }

  lemma RecoverStep(rate: nat, s: State, w: seq<real>, n: nat, i: nat, length: nat, gain: real, input: real)
    requires Fading(rate, s, w, n, i, length, gain)
    ensures Recover(rate, s, input).sample == Faded(w, n, i, length, gain, input)
    ensures Fading(rate, Recover(rate, s, input).state, w, n, i + 1, length, gain)
  {
    hide At, Blend, Product, CeilDiv, Substitution, LossGain, RecoveryLength;
    if i < length {
      SubstitutionOnWave(rate, s, w, n + i);
      var next := Recover(rate, s, input).state;
      RidingLeft(rate, Substitution(rate, s).state, next, w, n + i + 1);
    }
  }

  lemma RidingLeft(rate: nat, s: State, t: State, w: seq<real>, n: nat)
    requires |w| >= 1 && Riding(rate, s, w, n) && t == s.(recoveryLeft := t.recoveryLeft)
    ensures Riding(rate, t, w, n)
  {
    hide At, InPhase, CeilDiv;
  }

  lemma FadeStep(rate: nat, s: State, w: seq<real>, n: nat, i: nat, length: nat, gain: real, input: real)
    requires Fading(rate, s, w, n, i, length, gain)
    ensures Stored(rate, s, Hear(input)).sample == Faded(w, n, i, length, gain, input)
    ensures Fading(rate, Apply(rate, s, Hear(input)).state, w, n, i + 1, length, gain)
  {
    RecoverStep(rate, s, w, n, i, length, gain, input);
    var next := Recover(rate, s, input).state;
    hide Recover, Riding, Faded, CeilDiv, Oscillating;
    if i + 1 < length {
      RidingFrame(rate, next, Apply(rate, s, Hear(input)).state, w, n + i + 1);
    }
  }

  function Hears(inputs: seq<real>): (r: seq<Op>)
    ensures |r| == |inputs|
  {
    seq(|inputs|, k requires 0 <= k < |inputs| => Hear(inputs[k]))
  }

  lemma RunHears(rate: nat, s: State, inputs: seq<real>)
    requires Valid(rate, s)
    ensures inputs == [] ==> Run(rate, s, Hears(inputs)) == s
    ensures inputs != [] ==>
        Run(rate, s, Hears(inputs)) == Run(rate, Apply(rate, s, Hear(inputs[0])).state, Hears(inputs[1..]))
  {
    hide Apply, Valid;
    if inputs != [] {
      assert Hears(inputs)[1..] == Hears(inputs[1..]);
    }
  }

  lemma {:induction false} FadesOn(rate: nat, s: State, w: seq<real>, n: nat, i: nat, length: nat, gain: real,
                                   inputs: seq<real>, last: real)
    requires Fading(rate, s, w, n, i, length, gain)
    ensures Valid(rate, s) && |w| >= 1
    ensures Stored(rate, Run(rate, s, Hears(inputs)), Hear(last)).sample ==
        Faded(w, n, i + |inputs|, length, gain, last)
    decreases |inputs|
  {
    hide *;
    IsValid(rate, s, w, n, i, length, gain);
    RunHears(rate, s, inputs);
    if inputs == [] {
      FadeStep(rate, s, w, n, i, length, gain, last);
    } else {
      FadeStep(rate, s, w, n, i, length, gain, inputs[0]);
      FadesOn(rate, Apply(rate, s, Hear(inputs[0])).state, w, n, i + 1, length, gain, inputs[1..], last);
    }
  }

  lemma IsValid(rate: nat, s: State, w: seq<real>, n: nat, i: nat, length: nat, gain: real)
    requires Fading(rate, s, w, n, i, length, gain)
    ensures Valid(rate, s) && |w| >= 1
  {
  }

  /** Freezing the envelope first changes nothing the next input does. */
  lemma BeginsAlike(rate: nat, s: State, w: seq<real>, n: nat)
    requires Before(rate, s, w, n) && n > 0
    ensures
      var begun := BeginRecovery(rate, s);
      && Fading(rate, begun, w, n, 0, RecoveryLength(n, |w|, TenMs(rate), FourMs(rate)), LossGain(rate, n))
      && forall input :: Apply(rate, s, Hear(input)) == Apply(rate, begun, Hear(input))
  {
    var begun := BeginRecovery(rate, s);
    hide At, CeilDiv, Substitution, LossGain, RecoveryLength, InPhase;
    assert Riding(rate, begun, w, n);
    assert BeginRecovery(rate, begun) == begun;
    assert forall input :: Recover(rate, s, input) == Recover(rate, begun, input);
  }

  /**
   After n samples of a loss that carried on the wave, returning audio is faded
   in linearly over the computed length, from the wave still carried on in phase
   and at the level it had; from the last of them on it is exactly the input.
   */
  lemma RecoveryCrossfades(rate: nat, s: State, w: seq<real>, n: nat, inputs: seq<real>)
    requires Before(rate, s, w, n) && n > 0 && inputs != []
    ensures
      var length, i, input := RecoveryLength(n, |w|, TenMs(rate), FourMs(rate)), |inputs| - 1, inputs[|inputs| - 1];
      && Valid(rate, s) && |w| >= 1
      && var sample := Stored(rate, Run(rate, s, Hears(inputs[..i])), Hear(input)).sample;
      && sample == Faded(w, n, i, length, LossGain(rate, n), input)
      && (i + 1 >= length ==> sample == input)
  {
    BeginsAlike(rate, s, w, n);
    IsBefore(rate, s, w, n);
    hide *;
    var length, gain := RecoveryLength(n, |w|, TenMs(rate), FourMs(rate)), LossGain(rate, n);
    var i, input := |inputs| - 1, inputs[|inputs| - 1];
    FadesOn(rate, BeginRecovery(rate, s), w, n, 0, length, gain, inputs[..i], input);
    SameRun(rate, s, BeginRecovery(rate, s), inputs[..i], input);
    FadeEnds(w, n, i, length, gain, input);
  }

  lemma IsBefore(rate: nat, s: State, w: seq<real>, n: nat)
    requires Before(rate, s, w, n)
    ensures Valid(rate, s) && |w| >= 1 && rate >= 1 && TenMs(rate) >= 1
  {
    Geometry(rate);
  }

  /** The last faded sample is the input itself. */
  lemma FadeEnds(w: seq<real>, n: nat, i: nat, length: nat, gain: real, input: real)
    requires |w| >= 1
    ensures i + 1 >= length ==> Faded(w, n, i, length, gain, input) == input
  {
    if i + 1 == length {
      BlendRamps(Product(At(w, n + i), gain), input, i, length);
    }
  }

  lemma SameRun(rate: nat, s: State, t: State, inputs: seq<real>, last: real)
    requires Valid(rate, s) && Valid(rate, t) && t == BeginRecovery(rate, s)
    requires forall input :: Apply(rate, s, Hear(input)) == Apply(rate, t, Hear(input))
    ensures Stored(rate, Run(rate, s, Hears(inputs)), Hear(last)).sample ==
        Stored(rate, Run(rate, t, Hears(inputs)), Hear(last)).sample
  {
    hide Substitution, CeilDiv, LossGain, RecoveryLength;
    if inputs == [] {
      assert BeginRecovery(rate, t) == t;
    } else {
      assert Hears(inputs)[0] == Hear(inputs[0]);
      hide Apply, Valid;
    }
  }
}
