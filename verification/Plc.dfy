/**
 The loss concealer as the source runs it: circular buffers updated in place,
 one sample per call. Every method is proved to do what PlcSpec says.
 */
module Plc {
  import opened Common
  import Spec = PlcSpec

  /** A circular buffer read from its oldest entry. */
  function Unrolled<T>(a: seq<T>, start: nat): (r: seq<T>)
    requires start <= |a|
    ensures |r| == |a|
    ensures forall k | 0 <= k < |a| :: r[k] == a[if start + k < |a| then start + k else start + k - |a|]
  {
    a[start..] + a[..start]
  }

  lemma WrapOnce(start: nat, k: nat, n: nat)
    requires n >= 1 && start < n && k < 2 * n - start
    ensures (start + k) % n == if start + k < n then start + k else start + k - n
  {
    if start + k >= n {
      assert start + k == n + (start + k - n);
      assert (n + (start + k - n)) % n == (start + k - n) % n;
    }
  }

  lemma StepModulo(x: nat, i: nat, n: nat)
    requires n >= 1
    ensures ((x + i) % n + 1) % n == (x + i + 1) % n
  {
    var q, r := (x + i) / n, (x + i) % n;
    StepRemainder(x + i, q, r, n);
  }

  lemma StepRemainder(y: nat, q: nat, r: nat, n: nat)
    requires n >= 1 && y == q * n + r && r < n
    ensures (r + 1) % n == (y + 1) % n
  {
    if r + 1 == n {
      assert y + 1 == (q + 1) * n + 0;
      Remainder(y + 1, q + 1, 0, n);
      Remainder(r + 1, 1, 0, n);
    } else {
      Remainder(y + 1, q, r + 1, n);
      Remainder(r + 1, 0, r + 1, n);
    }
  }

  /** Overwriting the oldest entry and moving on is: drop the oldest, append. */
  lemma UnrolledAfterWrite<T>(a: seq<T>, start: nat, x: T)
    requires start < |a|
    ensures (start + 1) % |a| < |a|
    ensures Unrolled(a[start := x], (start + 1) % |a|) == Unrolled(a, start)[1..] + [x]
  {
    WrapOnce(start, 1, |a|);
  }

  lemma SmoothTailKeeps(wave: seq<real>, last: seq<real>, period: nat, quarter: nat)
    requires period + quarter <= |wave| && quarter <= |last|
    ensures forall k | 0 <= k < |wave| - quarter :: Spec.SmoothTail(wave, last, period, quarter)[k] == wave[k]
  {
  }

  function Wrapped(x: nat, n: nat): nat
    requires n >= 1
  {
    x % n
  }

  lemma AheadAt(rate: nat, s: Spec.State, steps: nat)
    requires Spec.Shaped(rate, s) && Spec.Oscillating(rate, s)
    ensures s.cycle <= |s.frozen| && Wrapped(s.phase + steps, s.cycle) < s.cycle
    ensures Spec.Ahead(rate, s, steps) == s.frozen[|s.frozen| - s.cycle + Wrapped(s.phase + steps, s.cycle)]
  {
    Spec.QuarterFits(rate, s.pitch);
    hide CeilDiv;
  }

  /** The oscillator's own position, with nothing to wrap. */
  lemma AheadNow(rate: nat, s: Spec.State)
    requires Spec.Shaped(rate, s) && Spec.Oscillating(rate, s)
    ensures s.cycle <= |s.frozen| && Spec.Ahead(rate, s, 0) == s.frozen[|s.frozen| - s.cycle + s.phase]
  {
    Spec.Geometry(rate);
    Remainder(s.phase, 0, s.phase, s.cycle);
  }

  class Plc {
    ghost const rate: nat
    const minPitch: nat
    const maxPitch: nat
    const analysis: nat
    const tenMs: nat
    const fourMs: nat
    const history: array<real>
    const frozen: array<real>
    const lastQuarter: array<real>
    const overlap: array<real>
    const fromPcm: array<bool>
    var next: nat
    var delayed: nat
    var pitch: nat
    var cycle: nat
    var phase: nat
    var lost: nat
    var overlapLeft: nat
    var recoveryLeft: nat
    var recoveryLength: nat
    var recoveryGain: real

    /** Storage is sized for the rate and never shared. */
    ghost predicate Sized() {
      && 1 <= rate <= Spec.RATE_MAX
      && minPitch == Spec.MinPitch(rate) && maxPitch == Spec.MaxPitch(rate)
      && analysis == Spec.Analysis(rate) && tenMs == Spec.TenMs(rate) && fourMs == Spec.FourMs(rate)
      && history.Length == frozen.Length == Spec.HistoryLength(rate)
      && lastQuarter.Length == overlap.Length == fromPcm.Length == Spec.Delay(rate)
      && history != frozen && history != lastQuarter && history != overlap
      && frozen != lastQuarter && frozen != overlap && lastQuarter != overlap
    }

    ghost predicate Allocated()
      reads this`next, this`delayed
    {
      Sized() && next < history.Length && delayed < fromPcm.Length
    }

    /** The buffers read in playing order. */
    ghost function Model(): Spec.State
      requires next <= history.Length && delayed <= fromPcm.Length
      reads this, history, frozen, lastQuarter, overlap, fromPcm
    {
      Spec.State(
        Unrolled(history[..], next), Unrolled(fromPcm[..], delayed),
        frozen[..], lastQuarter[..], overlap[..],
        pitch, cycle, phase, lost, overlapLeft, recoveryLeft, recoveryLength, recoveryGain)
    }

    ghost predicate Valid()
      reads this, history, frozen, lastQuarter, overlap, fromPcm
    {
      Allocated() && Spec.Valid(rate, Model())
    }

    constructor (outputRate: nat)
      requires 1 <= outputRate <= Spec.RATE_MAX
      ensures Valid() && rate == outputRate && Model() == Spec.Fresh(outputRate)
      ensures fresh(history) && fresh(frozen) && fresh(lastQuarter) && fresh(overlap) && fresh(fromPcm)
    {
      Spec.Geometry(outputRate);
      var delay := CeilDiv(outputRate * 15, 4000);
      var longest := CeilDiv(outputRate * 15, 1000);
      rate := outputRate;
      maxPitch := longest;
      minPitch := CeilDiv(outputRate * 5, 1000);
      analysis := CeilDiv(outputRate * 20, 1000);
      tenMs := CeilDiv(outputRate * 10, 1000);
      fourMs := CeilDiv(outputRate * 4, 1000);
      history := new real[longest * 3 + delay](_ => 0.0);
      frozen := new real[longest * 3 + delay](_ => 0.0);
      lastQuarter := new real[delay](_ => 0.0);
      overlap := new real[delay](_ => 0.0);
      fromPcm := new bool[delay](_ => false);
      next, delayed := 0, 0;
      pitch, cycle, phase, lost := 0, 0, 0, 0;
      overlapLeft, recoveryLeft, recoveryLength, recoveryGain := 0, 0, 0, 1.0;
    }

    /** Clear history, flags, loss and recovery; the oscillator fields go stale. */
    method Reset()
      requires Valid()
      modifies this`next, this`delayed, this`lost, this`recoveryLeft, history, fromPcm
      ensures Valid() && Model() == Spec.Reset(old(Model()))
    {
      forall i | 0 <= i < history.Length {
        history[i] := 0.0;
      }
      forall i | 0 <= i < fromPcm.Length {
        fromPcm[i] := false;
      }
      next, delayed, lost, recoveryLeft := 0, 0, 0, 0;
      assert Model() == Spec.Reset(old(Model()));
    }

    method Score(lag: nat, step: nat) returns (score: real)
      requires Allocated() && lag <= maxPitch && step >= 1
      ensures score == Spec.Score(rate, frozen[..], lag, step)
    {
      Spec.Geometry(rate);
      hide CeilDiv, Spec.Product, Spec.Normalized;
      var end := frozen.Length;
      var correlation, energy := 0.0, 0.0;
      var i := end - analysis;
      ghost var wave, from := frozen[..], i;
      while i < end
        invariant lag <= i
        invariant correlation + Spec.Correlation(wave, lag, i, step) == Spec.Correlation(wave, lag, from, step)
        invariant energy + Spec.Energy(wave, lag, i, step) == Spec.Energy(wave, lag, from, step)
      {
        var a, b := frozen[i], frozen[i - lag];
        correlation, energy := correlation + Spec.Product(a, b), energy + Spec.Product(b, b);
        i := i + step;
      }
      score := Spec.Normalized(correlation, energy);
    }

    /** Coarse search over every second lag, then full-rate search of its neighbours. */
    method DetectPitch() returns (found: nat)
      requires Allocated()
      ensures found == Spec.Pitch(rate, frozen[..])
    {
      hide Spec.FinePitch, Spec.CoarsePitch, CeilDiv;
      var coarse := CoarseSearch();
      found := FineSearch(coarse);
    }

    method CoarseSearch() returns (found: nat)
      requires Allocated()
      ensures found == Spec.CoarsePitch(rate, frozen[..])
    {
      Spec.Geometry(rate);
      hide Spec.Score, CeilDiv;
      found := Search(minPitch, maxPitch, 2, 2);
    }

    method FineSearch(coarse: nat) returns (found: nat)
      requires Allocated() && minPitch <= coarse <= maxPitch
      ensures found == Spec.FinePitch(rate, frozen[..], coarse)
    {
      hide Spec.Score, CeilDiv;
      found := Search(Max(Monus(coarse, 1), minPitch), Min(coarse + 1, maxPitch), 1, 1);
    }

    /** First highest-scoring lag among first, first + stride, ... up to last. */
    method Search(first: nat, last: nat, stride: nat, step: nat) returns (best: nat)
      requires Allocated() && first <= last <= maxPitch && stride >= 1 && step >= 1
      ensures best == Spec.Best(rate, frozen[..], first, first + stride, last, stride, step)
    {
      hide Spec.Score, CeilDiv;
      best := first;
      var highest := Score(first, step);
      var lag := first + stride;
      while lag <= last
        invariant best <= last
        invariant highest == Spec.Score(rate, frozen[..], best, step)
        invariant Spec.Best(rate, frozen[..], best, lag, last, stride, step)
          == Spec.Best(rate, frozen[..], first, first + stride, last, stride, step)
        decreases last + stride - lag
      {
        var value := Score(lag, step);
        if value > highest {
          highest, best := value, lag;
        }
        lag := lag + stride;
      }
    }

    /** The loop of SmoothTail: blend the frozen buffer's last quarter pitch in place. */
    method SmoothCycleTail()
      requires Allocated() && pitch / 4 <= lastQuarter.Length
      requires pitch / 4 <= cycle && cycle + pitch / 4 <= frozen.Length
      modifies frozen
      ensures frozen[..] == Spec.SmoothTail(old(frozen[..]), lastQuarter[..], cycle, pitch / 4)
    {
      hide Spec.Blend, CeilDiv;
      var end, quarter := frozen.Length, pitch / 4;
      ghost var was := frozen[..];
      for i := 0 to quarter
        invariant forall k | 0 <= k < end - quarter || end - quarter + i <= k < end :: frozen[k] == was[k]
        invariant forall k | 0 <= k < i ::
            frozen[end - quarter + k] == Spec.Blend(lastQuarter[k], was[end - cycle - quarter + k], k, quarter)
      {
        frozen[end - quarter + i] :=
          Spec.Blend(lastQuarter[i], frozen[end - cycle - quarter + i], i, quarter);
      }
    }

    /** The next oscillator sample. */
    method Continuation() returns (sample: real)
      requires phase < cycle <= frozen.Length
      modifies this`phase
      ensures sample == frozen[frozen.Length - cycle + old(phase)]
      ensures phase == (old(phase) + 1) % cycle
    {
      sample := frozen[frozen.Length - cycle + phase];
      phase := (phase + 1) % cycle;
    }

    /** Copy the history into the frozen buffer, oldest sample first. */
    method Freeze()
      requires Allocated()
      modifies frozen
      ensures frozen[..] == Unrolled(history[..], next)
    {
      hide CeilDiv;
      var end := history.Length;
      for i := 0 to end
        invariant forall k | 0 <= k < i :: frozen[k] == Unrolled(history[..], next)[k]
      {
        WrapOnce(next, i, end);
        frozen[i] := history[(next + i) % end];
      }
    }

    /** Copy the smoothed tail back over the newest entries of the history. */
    method RewriteTail(quarter: nat)
      requires Allocated() && quarter <= history.Length
      requires forall k | 0 <= k < history.Length - quarter :: Unrolled(history[..], next)[k] == frozen[k]
      modifies history
      ensures Unrolled(history[..], next) == frozen[..]
    {
      hide CeilDiv;
      var end := history.Length;
      ghost var keep := end - quarter;
      for i := 0 to quarter
        invariant forall k | 0 <= k < keep + i :: Unrolled(history[..], next)[k] == frozen[k]
      {
        WrapOnce(next, keep + i, end);
        history[(next + end - quarter + i) % end] := frozen[end - quarter + i];
      }
    }

    /** Keep the original last quarter pitch. */
    method SaveQuarter(quarter: nat)
      requires Allocated() && quarter <= lastQuarter.Length
      modifies lastQuarter
      ensures quarter <= frozen.Length
      ensures lastQuarter[..] == Spec.WithTail(old(lastQuarter[..]), frozen[..], quarter)
    {
      Spec.Geometry(rate);
      hide CeilDiv;
      var end := frozen.Length;
      forall i | 0 <= i < quarter {
        lastQuarter[i] := frozen[end - quarter + i];
      }
    }

    /** Join the frozen tail to one cycle earlier and play the joined tail, too. */
    method JoinTail()
      requires Allocated() && pitch / 4 <= lastQuarter.Length
      requires pitch / 4 <= cycle && cycle + pitch / 4 <= frozen.Length
      requires frozen[..] == Unrolled(history[..], next)
      modifies history, frozen
      ensures frozen[..] == Unrolled(history[..], next)
      ensures frozen[..] == Spec.SmoothTail(old(frozen[..]), lastQuarter[..], cycle, pitch / 4)
    {
      hide CeilDiv, Spec.SmoothTail, Unrolled;
      ghost var was := frozen[..];
      SmoothCycleTail();
      SmoothTailKeeps(was, lastQuarter[..], cycle, pitch / 4);
      RewriteTail(pitch / 4);
    }

    /** Start of a loss: copy, find the pitch, join the tail, and write the join back. */
    method BeginLoss()
      requires Allocated() && lost <= WORD_MAX
      modifies this`pitch, this`cycle, this`phase, this`overlapLeft, history, frozen, lastQuarter
      ensures Allocated() && Model() == Spec.BeginLoss(rate, old(Model()))
    {
      hide Spec.Pitch, Spec.SmoothTail, Spec.WithTail, Unrolled;
      hide Spec.Delay, Spec.MaxPitch, Spec.MinPitch, Spec.Analysis, Spec.TenMs, Spec.FourMs, Spec.HistoryLength;
      Freeze();
      pitch := DetectPitch();
      Spec.QuarterFits(rate, pitch);
      SaveQuarter(pitch / 4);
      cycle := pitch;
      phase := 0;
      overlapLeft := 0;
      JoinTail();
    }

    /** Record the continuing wave over which the expanded one fades in; the phase is untouched. */
    method RecordOverlap()
      requires Allocated() && Spec.Shaped(rate, Model()) && Spec.Oscillating(rate, Model())
      modifies this`phase, overlap
      ensures phase == old(phase)
      ensures overlap[..] == Spec.Recorded(rate, old(Model()))
    {
      hide CeilDiv, Spec.Ahead, Spec.Recorded, Unrolled;
      Spec.QuarterFits(rate, pitch);
      ghost var was := Model();
      var quarter, saved := pitch / 4, phase;
      Remainder(saved, 0, saved, cycle);
      for i := 0 to quarter
        invariant phase == Wrapped(saved + i, cycle) < cycle
        invariant forall k | 0 <= k < i :: overlap[k] == Spec.Ahead(rate, was, k)
        invariant overlap[quarter..] == old(overlap[quarter..])
      {
        AheadAt(rate, was, i);
        overlap[i] := Continuation();
        StepModulo(saved, i, cycle);
      }
      phase := saved;
      RecordedIs(rate, was, overlap[..]);
    }

    static lemma RecordedIs(rate: nat, s: Spec.State, entries: seq<real>)
      requires Spec.Shaped(rate, s) && Spec.Oscillating(rate, s)
      requires |entries| == |s.overlap| && s.pitch / 4 <= |entries|
      requires forall k | 0 <= k < s.pitch / 4 :: entries[k] == Spec.Ahead(rate, s, k)
      requires entries[s.pitch / 4..] == s.overlap[s.pitch / 4..]
      ensures entries == Spec.Recorded(rate, s)
    {
      hide Spec.Ahead, CeilDiv;
    }

    method FoldPhase()
      requires pitch >= 1
      modifies this`phase
      ensures phase == Spec.FoldPhase(old(phase), pitch)
    {
      while phase > pitch
        invariant Spec.FoldPhase(phase, pitch) == Spec.FoldPhase(old(phase), pitch)
      {
        phase := phase - pitch;
      }
    }

    /** Fold the phase and repeat one more period, joined at its tail. */
    method Lengthen()
      requires Allocated() && 1 <= pitch <= cycle <= 2 * pitch && pitch <= maxPitch
      modifies this`phase, this`cycle, this`overlapLeft, frozen
      ensures phase == Spec.FoldPhase(old(phase), pitch) && cycle == old(cycle) + pitch && overlapLeft == pitch / 4
      ensures pitch / 4 <= lastQuarter.Length && cycle + pitch / 4 <= frozen.Length
      ensures frozen[..] == Spec.SmoothTail(old(frozen[..]), lastQuarter[..], cycle, pitch / 4)
    {
      Spec.QuarterFits(rate, pitch);
      hide CeilDiv, Spec.SmoothTail, Spec.FoldPhase;
      FoldPhase();
      cycle := cycle + pitch;
      SmoothCycleTail();
      overlapLeft := pitch / 4;
    }

    /** Repeat one more period from here on. */
    method ExpandCycle()
      requires Allocated() && Spec.Shaped(rate, Model()) && Spec.Oscillating(rate, Model()) && cycle <= 2 * pitch
      modifies this`phase, this`cycle, this`overlapLeft, overlap, frozen
      ensures Allocated() && Model() == Spec.Expand(rate, old(Model()))
    {
      Spec.QuarterFits(rate, pitch);
      hide CeilDiv, Spec.Recorded, Spec.SmoothTail, Spec.FoldPhase, Unrolled;
      RecordOverlap();
      Lengthen();
    }

    /** One waveform sample, finishing a period-expansion overlap even during recovery. */
    method Substitution() returns (sample: real)
      requires Allocated() && Spec.Shaped(rate, Model()) && Spec.Oscillating(rate, Model())
      modifies this`phase, this`overlapLeft
      ensures Allocated() && Model() == Spec.Substitution(rate, old(Model())).state
      ensures sample == Spec.Substitution(rate, old(Model())).sample
    {
      AheadNow(rate, Model());
      hide CeilDiv, Spec.Blend, Spec.Ahead;
      sample := Continuation();
      if overlapLeft != 0 {
        var quarter := pitch / 4;
        var i := quarter - overlapLeft;
        sample := Spec.Blend(overlap[i], sample, i, quarter);
        overlapLeft := overlapLeft - 1;
      }
    }

    method LossGain() returns (gain: real)
      requires Allocated()
      ensures gain == Spec.LossGain(rate, lost)
    {
      gain := 1.0 - Monus(lost, tenMs) as real / (tenMs * 5) as real;
      if gain < 0.0 {
        gain := 0.0;
      }
    }

    /** Begin or expand the substituted wave as the position in the loss demands. */
    method Prepare()
      requires Valid()
      modifies this, history, frozen, lastQuarter, overlap
      ensures Allocated() && next == old(next) && delayed == old(delayed)
      ensures Model() == Spec.Prepared(rate, old(Model()))
    {
      hide CeilDiv, Spec.BeginLoss, Spec.Expand, Unrolled;
      recoveryLeft := 0;
      if lost == 0 {
        BeginLoss();
      }
      if lost == tenMs || lost == tenMs * 2 {
        ExpandCycle();
      }
    }

    /** Repeat the pitch, then attenuate linearly from ten milliseconds to silence at sixty. */
    method Conceal() returns (sample: real)
      requires Valid()
      modifies this, history, frozen, lastQuarter, overlap
      ensures Valid() && next == old(next) && delayed == old(delayed)
      ensures Model() == Spec.Conceal(rate, old(Model())).state
      ensures sample == Spec.Conceal(rate, old(Model())).sample
    {
      hide CeilDiv, Spec.Prepared, Spec.Substitution, Spec.LossGain, Spec.Product, Spec.Valid, Unrolled;
      Prepare();
      sample := Substitution();
      var gain := LossGain();
      lost := SaturatingAdd(lost, 1);
      sample := Spec.Product(sample, gain);
      assert Model() == Spec.Conceal(rate, old(Model())).state;
    }

    /** Freeze the loss envelope and size the overlap by the length of the loss. */
    method BeginRecovery()
      requires Valid()
      modifies this`recoveryLength, this`recoveryLeft, this`recoveryGain, this`lost
      ensures Valid() && Model() == Spec.BeginRecovery(rate, old(Model()))
    {
      Spec.Geometry(rate);
      hide Spec.LossGain, Spec.RecoveryLength, CeilDiv, Unrolled;
      if lost != 0 {
        recoveryLength := Spec.RecoveryLength(lost, pitch, tenMs, fourMs);
        recoveryLeft := recoveryLength;
        recoveryGain := LossGain();
        lost := 0;
      }
    }

    /** One returning sample, still overlapped with the wave at the level the loss had. */
    method Recover(input: real) returns (output: real)
      requires Valid()
      modifies this
      ensures Valid() && next == old(next) && delayed == old(delayed)
      ensures Model() == Spec.Recover(rate, old(Model()), input).state
      ensures output == Spec.Recover(rate, old(Model()), input).sample
    {
      hide Spec.Substitution, Spec.BeginRecovery, Spec.Product, Spec.Blend, CeilDiv, Unrolled;
      BeginRecovery();
      if recoveryLeft == 0 {
        return input;
      }
      var fading := Substitution();
      output := Spec.Blend(Spec.Product(fading, recoveryGain), input, recoveryLength - recoveryLeft, recoveryLength);
      recoveryLeft := recoveryLeft - 1;
    }

    /** Move the history by one entry, returning the oldest unplayed one. */
    method MoveLine(sample: real) returns (played: real)
      requires Allocated()
      modifies this`next, history
      ensures next < history.Length && fromPcm.Length <= history.Length
      ensures played == old(Unrolled(history[..], next)[history.Length - fromPcm.Length])
      ensures Unrolled(history[..], next) == old(Unrolled(history[..], next))[1..] + [sample]
    {
      Spec.LookaheadFits(rate);
      hide CeilDiv;
      var read := (next + history.Length - fromPcm.Length) % history.Length;
      WrapOnce(next, history.Length - fromPcm.Length, history.Length);
      played := history[read];
      UnrolledAfterWrite(history[..], next, sample);
      history[next] := sample;
      next := (next + 1) % history.Length;
    }

    method MoveFlags(flag: bool) returns (played: bool)
      requires Allocated()
      modifies this`delayed, fromPcm
      ensures delayed < fromPcm.Length
      ensures played == old(Unrolled(fromPcm[..], delayed)[0])
      ensures Unrolled(fromPcm[..], delayed) == old(Unrolled(fromPcm[..], delayed))[1..] + [flag]
    {
      hide CeilDiv;
      played := fromPcm[delayed];
      UnrolledAfterWrite(fromPcm[..], delayed, flag);
      fromPcm[delayed] := flag;
      delayed := (delayed + 1) % fromPcm.Length;
    }

    /** Play the oldest unplayed entry and store a new one in its place. */
    method Shift(sample: real, flag: bool) returns (played: real, isPcm: bool)
      requires Valid()
      modifies this`next, this`delayed, history, fromPcm
      ensures Valid() && Model() == Spec.Shift(rate, old(Model()), sample, flag).state
      ensures Spec.Played(played, isPcm) == Spec.Shift(rate, old(Model()), sample, flag).played
    {
      hide CeilDiv, Spec.Valid, Unrolled;
      played := MoveLine(sample);
      isPcm := MoveFlags(flag);
      assert Model() == Spec.Shift(rate, old(Model()), sample, flag).state;
    }

    /** One call on the circular buffers: fill, shift, play the oldest. */
    method Process(input: Option<real>) returns (played: real, isPcm: bool)
      requires Valid()
      modifies this, history, frozen, lastQuarter, overlap, fromPcm
      ensures Valid() && Model() == Spec.Process(rate, old(Model()), input).state
      ensures Spec.Played(played, isPcm) == Spec.Process(rate, old(Model()), input).played
    {
      hide Spec.Conceal, Spec.Recover, Spec.Shift, CeilDiv;
      var sample;
      match input {
        case Some(pcm) => sample := Recover(pcm);
        case None => sample := Conceal();
      }
      played, isPcm := Shift(sample, input.Some?);
    }

    /** One step of an ending: the oldest entry goes out, unreal silence comes in. */
    method DrainSample() returns (played: real, isPcm: bool)
      requires Valid()
      modifies this`next, this`delayed, history, fromPcm
      ensures Valid() && Model() == Spec.Drain(rate, old(Model())).state
      ensures Spec.Played(played, isPcm) == Spec.Drain(rate, old(Model())).played
    {
      played, isPcm := Shift(0.0, false);
    }
  }
}
