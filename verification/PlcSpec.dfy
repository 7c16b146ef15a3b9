/**
 The loss concealer on values: what one call does to an un-rotated history.

 The two circular buffers of the source appear here as plain queues, oldest
 entry first, so no index arithmetic survives. The class in Plc.dfy is proved
 to compute exactly these functions; the promises are proved in PlcLaws.dfy.
 */
module PlcSpec {
  import opened Common

  /** Rates are unsigned 32-bit in the source. */
  const RATE_MAX: nat := 0xFFFF_FFFF

  // Storage lengths derived from the output rate, every duration rounded up.

  function Delay(rate: nat): nat { CeilDiv(rate * 15, 4000) }
  function MaxPitch(rate: nat): nat { CeilDiv(rate * 15, 1000) }
  function MinPitch(rate: nat): nat { CeilDiv(rate * 5, 1000) }
  function Analysis(rate: nat): nat { CeilDiv(rate * 20, 1000) }
  function TenMs(rate: nat): nat { CeilDiv(rate * 10, 1000) }
  function FourMs(rate: nat): nat { CeilDiv(rate * 4, 1000) }
  function HistoryLength(rate: nat): nat { MaxPitch(rate) * 3 + Delay(rate) }

  /** The arithmetic every index rests on, at every nonzero output rate. */
  lemma Geometry(rate: nat)
    requires rate >= 1
    ensures 1 <= MinPitch(rate) <= MaxPitch(rate)
    ensures 1 <= Delay(rate) <= HistoryLength(rate)
    ensures HistoryLength(rate) == 3 * MaxPitch(rate) + Delay(rate)
    ensures MaxPitch(rate) / 4 <= Delay(rate)
    ensures Analysis(rate) + MaxPitch(rate) <= HistoryLength(rate)
    ensures 1 <= TenMs(rate)
    ensures 1 <= FourMs(rate)
    ensures Delay(rate) <= TenMs(rate)
    ensures rate <= RATE_MAX ==> 6 * TenMs(rate) < WORD_MAX
  {
  }

  /** This many samples cover the duration, given in quarter milliseconds, and one fewer does not. */
  predicate JustCovers(samples: nat, rate: nat, quarterMs: nat) {
    samples * 4000 >= rate * quarterMs > (samples - 1) * 4000
  }

  /**
   Each length is the least that covers its duration: 3.75 ms of lookahead,
   pitches of 5 to 15 ms, a 20 ms analysis window, steps of 10 and 4 ms; at 8 kHz
   the sizes of ITU-T G.711 Appendix I.
   */
  lemma SizesCoverDurations(rate: nat)
    requires rate >= 1
    ensures JustCovers(Delay(rate), rate, 15) && JustCovers(MinPitch(rate), rate, 20)
    ensures JustCovers(MaxPitch(rate), rate, 60) && JustCovers(Analysis(rate), rate, 80)
    ensures JustCovers(TenMs(rate), rate, 40) && JustCovers(FourMs(rate), rate, 16)
    ensures rate == 8000 ==>
        && Delay(rate) == 30 && MinPitch(rate) == 40 && MaxPitch(rate) == 120 && Analysis(rate) == 160
        && TenMs(rate) == 80 && FourMs(rate) == 32 && HistoryLength(rate) == 390
  {
  }

  lemma LookaheadFits(rate: nat)
    requires rate >= 1
    ensures 1 <= Delay(rate) <= HistoryLength(rate)
  {
  }

  /** A quarter of any admissible pitch fits the lookahead and, behind three cycles, the history. */
  lemma QuarterFits(rate: nat, pitch: nat)
    requires rate >= 1 && pitch <= MaxPitch(rate)
    ensures pitch / 4 <= pitch && pitch / 4 <= Delay(rate)
    ensures pitch + pitch + pitch + pitch / 4 <= HistoryLength(rate)
  {
    Geometry(rate);
  }

  /**
   One concealer between calls.
   - line: the output history, oldest first; its last Delay(rate) entries have
     not been played yet.
   - flags: whether each unplayed entry came from real PCM, oldest first.
   */
  datatype State = State(
    line: seq<real>,
    flags: seq<bool>,
    frozen: seq<real>,
    lastQuarter: seq<real>,
    overlap: seq<real>,
    pitch: nat,
    cycle: nat,
    phase: nat,
    lost: nat,
    overlapLeft: nat,
    recoveryLeft: nat,
    recoveryLength: nat,
    recoveryGain: real)

  function Zeros(n: nat): (s: seq<real>) {
    seq(n, _ => 0.0)
  }

  function Fresh(rate: nat): State {
    State(
      Zeros(HistoryLength(rate)), seq(Delay(rate), _ => false),
      Zeros(HistoryLength(rate)), Zeros(Delay(rate)), Zeros(Delay(rate)),
      0, 0, 0, 0, 0, 0, 0, 1.0)
  }

  /** Reset leaves frozen, lastQuarter, overlap and the oscillator stale. */
  function Reset(s: State): State {
    s.(line := Zeros(|s.line|), flags := seq(|s.flags|, _ => false), lost := 0, recoveryLeft := 0)
  }

  // ---------------------------------------------------------------- pitch search

  function Product(a: real, b: real): real {
    a * b
  }

  function Correlation(wave: seq<real>, lag: nat, from: nat, step: nat): real
    requires lag <= from && step >= 1
    decreases |wave| - from
  {
    if from >= |wave| then 0.0
    else Product(wave[from], wave[from - lag]) + Correlation(wave, lag, from + step, step)
  }

  function Energy(wave: seq<real>, lag: nat, from: nat, step: nat): real
    requires lag <= from && step >= 1
    decreases |wave| - from
  {
    if from >= |wave| then 0.0
    else Product(wave[from - lag], wave[from - lag]) + Energy(wave, lag, from + step, step)
  }

  /**
   The normalized correlation c / sqrt(e), as c * |c| / e: squaring with the
   sign kept is strictly increasing, so every comparison comes out the same.
   */
  function Normalized(correlation: real, energy: real): real {
    if energy > 0.0
    then correlation * (if correlation < 0.0 then -correlation else correlation) / energy
    else 0.0
  }

  function Score(rate: nat, wave: seq<real>, lag: nat, step: nat): real
    requires |wave| == HistoryLength(rate) && rate >= 1 && lag <= MaxPitch(rate) && step >= 1
  {
    Geometry(rate);
    var from := |wave| - Analysis(rate);
    Normalized(Correlation(wave, lag, from, step), Energy(wave, lag, from, step))
  }

  /** Highest-scoring lag among best, lag, lag + stride, ... up to last; ties keep the earlier. */
  function Best(rate: nat, wave: seq<real>, best: nat, lag: nat, last: nat, stride: nat, step: nat): (r: nat)
    requires |wave| == HistoryLength(rate) && rate >= 1 && step >= 1 && stride >= 1
    requires best <= last <= MaxPitch(rate)
    ensures r == best || lag <= r <= last
    decreases last + stride - lag
  {
    if lag > last then best
    else
      var better := Score(rate, wave, lag, step) > Score(rate, wave, best, step);
      Best(rate, wave, if better then lag else best, lag + stride, last, stride, step)
  }

  function CoarsePitch(rate: nat, wave: seq<real>): (p: nat)
    requires |wave| == HistoryLength(rate) && rate >= 1
    ensures MinPitch(rate) <= p <= MaxPitch(rate)
  {
    Geometry(rate);
    Best(rate, wave, MinPitch(rate), MinPitch(rate) + 2, MaxPitch(rate), 2, 2)
  }

  /** Full-rate search of the coarse pitch and its neighbours. */
  function FinePitch(rate: nat, wave: seq<real>, coarse: nat): (p: nat)
    requires |wave| == HistoryLength(rate) && rate >= 1
    requires MinPitch(rate) <= coarse <= MaxPitch(rate)
    ensures MinPitch(rate) <= p <= MaxPitch(rate)
  {
    var first := Max(Monus(coarse, 1), MinPitch(rate));
    var last := Min(coarse + 1, MaxPitch(rate));
    Best(rate, wave, first, first + 1, last, 1, 1)
  }

  function Pitch(rate: nat, wave: seq<real>): (p: nat)
    requires |wave| == HistoryLength(rate) && rate >= 1
    ensures MinPitch(rate) <= p <= MaxPitch(rate)
  {
    FinePitch(rate, wave, CoarsePitch(rate, wave))
  }

  // ---------------------------------------------------------------- loss and recovery

  /** Linear overlap-add weight of the (index + 1)-th of count samples. */
  function Blend(before: real, after: real, index: nat, count: nat): real
    requires index < count
  {
    var weight := (index + 1) as real / count as real;
    before * (1.0 - weight) + after * weight
  }

  /** Unity through ten milliseconds, then linear to zero at sixty. */
  function LossGain(rate: nat, lost: nat): real
    requires rate >= 1
  {
    Geometry(rate);
    var g := 1.0 - Monus(lost, TenMs(rate)) as real / (TenMs(rate) * 5) as real;
    if g < 0.0 then 0.0 else g
  }

  /** The last quarter of the buffer fades from the saved samples into the wave a cycle before. */
  function SmoothTail(frozen: seq<real>, last: seq<real>, cycle: nat, quarter: nat): (r: seq<real>)
    requires cycle + quarter <= |frozen| && quarter <= |last|
    ensures |r| == |frozen|
  {
    var keep := |frozen| - quarter;
    seq(|frozen|, k requires 0 <= k < |frozen| =>
      if k < keep then frozen[k] else Blend(last[k - keep], frozen[k - cycle], k - keep, quarter))
  }

  /** Sizes that hold of every concealer, live or stale. */
  predicate Shaped(rate: nat, s: State) {
    && 1 <= rate <= RATE_MAX
    && |s.line| == |s.frozen| == HistoryLength(rate)
    && |s.flags| == |s.lastQuarter| == |s.overlap| == Delay(rate)
    && s.lost <= WORD_MAX
  }

  /** The oscillator can be read: pitch, cycle, phase and overlap are in range. */
  predicate Oscillating(rate: nat, s: State) {
    && MinPitch(rate) <= s.pitch <= MaxPitch(rate)
    && (s.cycle == s.pitch || s.cycle == 2 * s.pitch || s.cycle == 3 * s.pitch)
    && s.phase < s.cycle
    && s.overlapLeft <= s.pitch / 4
  }

  /** One, two or three pitches, as the loss has passed neither, one or both expansion points. */
  function CycleAfter(rate: nat, lost: nat, pitch: nat): nat {
    if lost <= TenMs(rate) then pitch
    else if lost <= 2 * TenMs(rate) then 2 * pitch
    else 3 * pitch
  }

  /** Everything a call needs of the state it starts from, at any output rate. */
  predicate Valid(rate: nat, s: State) {
    && Shaped(rate, s)
    && (s.lost > 0 ==> Oscillating(rate, s) && s.cycle == CycleAfter(rate, s.lost, s.pitch) && s.recoveryLeft == 0)
    && (s.recoveryLeft > 0 ==>
          Oscillating(rate, s) && s.recoveryLeft <= s.recoveryLength <= TenMs(rate) && 0.0 <= s.recoveryGain <= 1.0)
  }

  /** The buffer with its first entries replaced by the newest of the line. */
  function WithTail(buffer: seq<real>, line: seq<real>, quarter: nat): (r: seq<real>)
    requires quarter <= |buffer| && quarter <= |line|
    ensures |r| == |buffer|
  {
    line[|line| - quarter..] + buffer[quarter..]
  }

  function BeginLoss(rate: nat, s: State): (r: State)
    requires Shaped(rate, s)
    ensures Shaped(rate, r) && Oscillating(rate, r) && r.cycle == r.pitch
  {
    Geometry(rate);
    var pitch := Pitch(rate, s.line);
    var quarter := pitch / 4;
    var last := WithTail(s.lastQuarter, s.line, quarter);
    var frozen := SmoothTail(s.line, last, pitch, quarter);
    s.(frozen := frozen, line := frozen, lastQuarter := last,
       pitch := pitch, cycle := pitch, phase := 0, overlapLeft := 0)
  }

  /** The waveform sample a given number of steps ahead of the oscillator. */
  function Ahead(rate: nat, s: State, steps: nat): real
    requires Shaped(rate, s) && Oscillating(rate, s)
  {
    Geometry(rate);
    s.frozen[|s.frozen| - s.cycle + (s.phase + steps) % s.cycle]
  }

  /** Remove whole pitches until at most one is left; never a modulo. */
  function FoldPhase(phase: nat, pitch: nat): (r: nat)
    requires pitch >= 1
    ensures r <= pitch && r <= phase
    ensures exists k: nat :: phase == r + k * pitch
    ensures phase > 0 ==> r > 0
  {
    if phase <= pitch then
      assert phase == phase + 0 * pitch;
      phase
    else
      var r := FoldPhase(phase - pitch, pitch);
      var k: nat :| phase - pitch == r + k * pitch;
      assert phase == r + (k + 1) * pitch;
      r
  }

  /** The quarter pitch the oscillator would play next, kept to fade the longer cycle in. */
  function Recorded(rate: nat, s: State): (r: seq<real>)
    requires Shaped(rate, s) && Oscillating(rate, s)
    ensures |r| == |s.overlap|
  {
    Geometry(rate);
    var quarter := s.pitch / 4;
    seq(quarter, i requires 0 <= i < quarter => Ahead(rate, s, i)) + s.overlap[quarter..]
  }

  function Expand(rate: nat, s: State): (r: State)
    requires Shaped(rate, s) && Oscillating(rate, s) && s.cycle <= 2 * s.pitch
    ensures Shaped(rate, r) && Oscillating(rate, r) && r.cycle == s.cycle + s.pitch && r.pitch == s.pitch
  {
    Geometry(rate);
    var quarter := s.pitch / 4;
    s.(overlap := Recorded(rate, s),
       phase := FoldPhase(s.phase, s.pitch),
       cycle := s.cycle + s.pitch,
       frozen := SmoothTail(s.frozen, s.lastQuarter, s.cycle + s.pitch, quarter),
       overlapLeft := quarter)
  }

  datatype Step = Step(state: State, sample: real)

  /** One oscillator sample, finishing any period-expansion overlap first. */
  function Substitution(rate: nat, s: State): (r: Step)
    requires Shaped(rate, s) && Oscillating(rate, s)
    ensures Shaped(rate, r.state) && Oscillating(rate, r.state)
    ensures r.state == s.(phase := (s.phase + 1) % s.cycle, overlapLeft := Monus(s.overlapLeft, 1))
  {
    Geometry(rate);
    var sample := Ahead(rate, s, 0);
    var next := s.(phase := (s.phase + 1) % s.cycle);
    if s.overlapLeft != 0 then
      var quarter := s.pitch / 4;
      var i := quarter - s.overlapLeft;
      Step(next.(overlapLeft := s.overlapLeft - 1), Blend(s.overlap[i], sample, i, quarter))
    else
      Step(next, sample)
  }

  /** Waveform state a loss sample is read from: begun and expanded as its position demands. */
  function Prepared(rate: nat, s: State): (r: State)
    requires Valid(rate, s)
    ensures Shaped(rate, r) && Oscillating(rate, r)
    ensures r.lost == s.lost && r.recoveryLeft == 0
    ensures r.cycle == CycleAfter(rate, s.lost + 1, r.pitch)
  {
    Geometry(rate);
    var quiet := s.(recoveryLeft := 0);
    var begun := if s.lost == 0 then BeginLoss(rate, quiet) else quiet;
    if s.lost == TenMs(rate) || s.lost == TenMs(rate) * 2 then Expand(rate, begun) else begun
  }

  function Conceal(rate: nat, s: State): (r: Step)
    requires Valid(rate, s)
    ensures Valid(rate, r.state)
  {
    Geometry(rate);
    var sub := Substitution(rate, Prepared(rate, s));
    Step(sub.state.(lost := SaturatingAdd(s.lost, 1)), Product(sub.sample, LossGain(rate, s.lost)))
  }

  /** A quarter pitch, four milliseconds more per started ten of loss after the first, ten at most. */
  function RecoveryLength(lost: nat, pitch: nat, tenMs: nat, fourMs: nat): (r: nat)
    requires tenMs >= 1
    ensures r <= tenMs
  {
    var extra := Min(Monus(CeilDiv(lost, tenMs), 1) * fourMs, WORD_MAX);
    Min(SaturatingAdd(pitch / 4, extra), tenMs)
  }

  /** Freeze the loss envelope and size the overlap when PCM returns. */
  function BeginRecovery(rate: nat, s: State): (r: State)
    requires Valid(rate, s)
    ensures Valid(rate, r) && r.lost == 0
  {
    Geometry(rate);
    if s.lost == 0 then s else
      var length := RecoveryLength(s.lost, s.pitch, TenMs(rate), FourMs(rate));
      s.(recoveryLength := length, recoveryLeft := length,
         recoveryGain := LossGain(rate, s.lost), lost := 0)
  }

  function Recover(rate: nat, s: State, input: real): (r: Step)
    requires Valid(rate, s)
    ensures Valid(rate, r.state)
  {
    var begun := BeginRecovery(rate, s);
    if begun.recoveryLeft == 0 then Step(begun, input)
    else
      var sub := Substitution(rate, begun);
      var sample := Blend(Product(sub.sample, begun.recoveryGain), input,
                          begun.recoveryLength - begun.recoveryLeft, begun.recoveryLength);
      Step(sub.state.(recoveryLeft := begun.recoveryLeft - 1), sample)
  }

  /** The sample a call appends to the history, before the delay line moves. */
  function Fill(rate: nat, s: State, input: Option<real>): (r: Step)
    requires Valid(rate, s)
    ensures Valid(rate, r.state) && r.state.flags == s.flags
    ensures r.state.lost == if input.Some? then 0 else SaturatingAdd(s.lost, 1)
  {
    if input.Some? then Recover(rate, s, input.value) else Conceal(rate, s)
  }

  datatype Played = Played(sample: real, fromPcm: bool)
  datatype Call = Call(state: State, played: Played)

  /** Move both delay lines by one entry. */
  function Shift(rate: nat, s: State, sample: real, flag: bool): (r: Call)
    requires Valid(rate, s)
    ensures Valid(rate, r.state)
  {
    Geometry(rate);
    Call(s.(line := s.line[1..] + [sample], flags := s.flags[1..] + [flag]),
         Played(s.line[|s.line| - |s.flags|], s.flags[0]))
  }

  function Process(rate: nat, s: State, input: Option<real>): (r: Call)
    requires Valid(rate, s)
    ensures Valid(rate, r.state)
  {
    var filled := Fill(rate, s, input);
    Shift(rate, filled.state, filled.sample, input.Some?)
  }

  function Drain(rate: nat, s: State): (r: Call)
    requires Valid(rate, s)
    ensures Valid(rate, r.state)
  {
    Shift(rate, s, 0.0, false)
  }
}
