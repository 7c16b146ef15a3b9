/** A periodic history is continued exactly, through onset, both expansions and the fade. */
module PlcWave {
  import opened Common
  import opened PlcSpec
  import opened PlcLaws

  /** Same position within a period. */
  ghost predicate InPhase(x: int, y: int, p: nat)
    requires p >= 1
  {
    exists k: int :: x == y + k * p
  }

  lemma InPhaseBy(x: int, y: int, k: int, p: nat)
    requires p >= 1 && x == y + k * p
    ensures InPhase(x, y, p)
  {
  }

  lemma InPhaseCompose(x: int, y: int, z: int, p: nat)
    requires p >= 1 && InPhase(x, y, p) && InPhase(y, z, p)
    ensures InPhase(x, z, p)
  {
    var k: int :| x == y + k * p;
    var m: int :| y == z + m * p;
    assert x == z + (k + m) * p;
  }

  lemma InPhaseShift(x: int, y: int, t: int, p: nat)
    requires p >= 1 && InPhase(x, y, p)
    ensures InPhase(x + t, y + t, p)
  {
    var k: int :| x == y + k * p;
    assert x + t == y + t + k * p;
  }

  /** Reducing modulo one, two or three periods keeps the position. */
  lemma InPhaseModulo(x: nat, cycle: nat, p: nat)
    requires p >= 1 && (cycle == p || cycle == 2 * p || cycle == 3 * p)
    ensures InPhase(x % cycle, x, p)
  {
    var n := if cycle == p then 1 else if cycle == 2 * p then 2 else 3;
    assert x == (x / cycle) * cycle + x % cycle;
    assert cycle == n * p;
    Regroup(x / cycle, n, p);
    InPhaseBy(x % cycle, x, -(x / cycle) * n, p);
  }

  lemma Regroup(a: int, n: int, p: int)
    ensures a * (n * p) == (a * n) * p
    ensures -(a * n) * p == -((a * n) * p)
    ensures (-a) * n == -(a * n)
  {
  }

  /** The periodic wave with w ending just before position 0. */
  function At(w: seq<real>, x: int): real
    requires |w| >= 1
  {
    w[x % |w|]
  }

  lemma AtInPhase(w: seq<real>, x: int, y: int)
    requires |w| >= 1 && InPhase(x, y, |w|)
    ensures At(w, x) == At(w, y)
  {
    var p := |w|;
    var k: int :| x == y + k * p;
    var q := y / p + k;
    assert x == q * p + y % p;
    var d := x / p - q;
    assert d * p == y % p - x % p;
    if d >= 1 {
      MulMonotone(1, d, p);
    } else if d <= -1 {
      MulMonotone(d, -1, p);
    }
  }

  /** Overlap-add ramps are complementary, end on the new wave, and leave equal waves alone. */
  lemma BlendRamps(a: real, b: real, index: nat, count: nat)
    requires index < count
    ensures Blend(a, a, index, count) == a
    ensures Blend(a, b, index, count) + Blend(b, a, index, count) == a + b
    ensures index + 1 == count ==> Blend(a, b, index, count) == b
    ensures a < b && index + 1 < count ==> Blend(a, b, index, count) < Blend(a, b, index + 1, count)
  {
    var w := (index + 1) as real / count as real;
    assert a * (1.0 - w) + a * w == a;
    assert a * (1.0 - w) + b * w + (b * (1.0 - w) + a * w) == a + b;
    if index + 1 == count {
      QuotientMonotone(0.0, 0.0, count as real);
      assert w == 1.0;
    }
    if a < b && index + 1 < count {
      var v := (index + 2) as real / count as real;
      RampRises(a, b, w, v);
      assert v - w == 1.0 / count as real;
    }
  }

  lemma RampRises(a: real, b: real, w: real, v: real)
    requires a < b
    ensures v > w ==> a * (1.0 - w) + b * w < a * (1.0 - v) + b * v
  {
    assert a * (1.0 - v) + b * v - (a * (1.0 - w) + b * w) == (b - a) * (v - w);
  }

  /** The history is the periodic wave, its newest sample at position -1. */
  predicate Tiled(wave: seq<real>, w: seq<real>)
    requires |w| >= 1
  {
    forall k | 0 <= k < |wave| :: wave[k] == At(w, k - |wave|)
  }

  predicate WholePeriods(cycle: nat, p: nat) {
    cycle == p || cycle == 2 * p || cycle == 3 * p
  }

  lemma AtBack(w: seq<real>, x: int, cycle: nat)
    requires |w| >= 1 && WholePeriods(cycle, |w|)
    ensures At(w, x - cycle) == At(w, x)
  {
    var n := if cycle == |w| then 1 else if cycle == 2 * |w| then 2 else 3;
    assert x - cycle == x + (-n) * |w|;
    InPhaseBy(x - cycle, x, -n, |w|);
    AtInPhase(w, x - cycle, x);
  }

  lemma SmoothTailOfPeriodic(frozen: seq<real>, last: seq<real>, w: seq<real>, cycle: nat, quarter: nat)
    requires |w| >= 1 && WholePeriods(cycle, |w|) && cycle + quarter <= |frozen| && quarter <= |last|
    requires Tiled(frozen, w) && TailOf(last, w, quarter)
    ensures SmoothTail(frozen, last, cycle, quarter) == frozen
  {
    hide At, Blend;
    var keep := |frozen| - quarter;
    forall k | keep <= k < |frozen|
      ensures Blend(last[k - keep], frozen[k - cycle], k - keep, quarter) == frozen[k]
    {
      AtBack(w, k - |frozen|, cycle);
      assert frozen[k - cycle] == At(w, k - |frozen| - cycle);
      BlendRamps(frozen[k], frozen[k], k - keep, quarter);
    }
  }

  ghost predicate Riding(rate: nat, s: State, w: seq<real>, n: nat)
    requires |w| >= 1
  {
    && Shaped(rate, s) && Oscillating(rate, s) && s.pitch == |w|
    && Tiled(s.frozen, w)
    && TailOf(s.lastQuarter, w, s.pitch / 4)
    && InPhase(s.phase, n, |w|)
    && s.pitch / 4 <= |s.overlap|
    && (forall i | s.pitch / 4 - s.overlapLeft <= i < s.pitch / 4 ::
          s.overlap[i] == At(w, n + i - (s.pitch / 4 - s.overlapLeft)))
  }

  lemma AheadOnWave(rate: nat, s: State, w: seq<real>, n: nat, steps: nat)
    requires |w| >= 1 && Riding(rate, s, w, n)
    ensures Ahead(rate, s, steps) == At(w, n + steps)
  {
    Geometry(rate);
    hide At;
    var at := (s.phase + steps) % s.cycle;
    assert Ahead(rate, s, steps) == At(w, at - s.cycle);
    AtBack(w, at, s.cycle);
    InPhaseModulo(s.phase + steps, s.cycle, |w|);
    InPhaseShift(s.phase, n, steps, |w|);
    InPhaseCompose(at, s.phase + steps, n + steps, |w|);
    AtInPhase(w, at, n + steps);
  }

  lemma SubstitutionOnWave(rate: nat, s: State, w: seq<real>, n: nat)
    requires |w| >= 1 && Riding(rate, s, w, n)
    ensures Substitution(rate, s).sample == At(w, n)
    ensures Riding(rate, Substitution(rate, s).state, w, n + 1)
  {
    AheadOnWave(rate, s, w, n, 0);
    InPhaseModulo(s.phase + 1, s.cycle, |w|);
    InPhaseShift(s.phase, n, 1, |w|);
    InPhaseCompose((s.phase + 1) % s.cycle, s.phase + 1, n + 1, |w|);
    hide At, InPhase, Ahead, Blend, CeilDiv;
    if s.overlapLeft != 0 {
      var quarter := s.pitch / 4;
      BlendRamps(At(w, n), At(w, n), quarter - s.overlapLeft, quarter);
    }
  }

  lemma FoldInPhase(phase: nat, pitch: nat)
    requires pitch >= 1
    ensures InPhase(FoldPhase(phase, pitch), phase, pitch)
  {
    var r := FoldPhase(phase, pitch);
    var k: nat :| phase == r + k * pitch;
    var back: int := 0 - k as int;
    assert r == phase + back * pitch;
  }

  lemma ExpandOnWave(rate: nat, s: State, w: seq<real>, n: nat)
    requires |w| >= 1 && Riding(rate, s, w, n) && s.cycle <= 2 * s.pitch
    ensures Riding(rate, Expand(rate, s), w, n)
  {
    Geometry(rate);
    FoldInPhase(s.phase, s.pitch);
    InPhaseCompose(FoldPhase(s.phase, s.pitch), s.phase, n, |w|);
    SmoothTailOfPeriodic(s.frozen, s.lastQuarter, w, s.cycle + s.pitch, s.pitch / 4);
    hide At, InPhase, Ahead, SmoothTail, FoldPhase, CeilDiv;
    forall i | 0 <= i < s.pitch / 4
      ensures Ahead(rate, s, i) == At(w, n + i)
    {
      AheadOnWave(rate, s, w, n, i);
    }
  }

  lemma StartInPhase(p: nat)
    requires p >= 1
    ensures InPhase(0, 0, p)
  {
    InPhaseBy(0, 0, 0, p);
  }

  predicate TailOf(last: seq<real>, w: seq<real>, quarter: nat)
    requires |w| >= 1
  {
    quarter <= |last| && forall i | 0 <= i < quarter :: last[i] == At(w, i - quarter)
  }

  lemma TailOfTiled(buffer: seq<real>, line: seq<real>, w: seq<real>, quarter: nat)
    requires |w| >= 1 && Tiled(line, w) && quarter <= |line| && quarter <= |buffer|
    ensures TailOf(WithTail(buffer, line, quarter), w, quarter)
  {
    hide At;
  }

  lemma BeginOnWave(rate: nat, s: State, w: seq<real>)
    requires Shaped(rate, s) && |w| == Pitch(rate, s.line) && Tiled(s.line, w)
    ensures |w| >= 1 && Riding(rate, BeginLoss(rate, s), w, 0)
  {
    Geometry(rate);
    StartInPhase(|w|);
    hide At, Pitch, SmoothTail, CeilDiv, InPhase, Tiled;
    var q := |w| / 4;
    TailOfTiled(s.lastQuarter, s.line, w, q);
    hide TailOf, WithTail, Blend, MaxPitch, MinPitch, Delay, HistoryLength;
    SmoothTailOfPeriodic(s.line, WithTail(s.lastQuarter, s.line, q), w, |w|, q);
  }

  /** Standing before lost sample n: either the loss is about to start or it is on the wave. */
  ghost predicate Before(rate: nat, s: State, w: seq<real>, n: nat) {
    && Valid(rate, s) && s.lost == n < WORD_MAX
    && |w| >= 1
    && if n == 0 then |w| == Pitch(rate, s.line) && Tiled(s.line, w) else Riding(rate, s, w, n)
  }

  lemma PreparedOnWave(rate: nat, s: State, w: seq<real>, n: nat)
    requires Before(rate, s, w, n)
    ensures Riding(rate, Prepared(rate, s), w, n)
  {
    hide At, Tiled, Pitch, Ahead, InPhase, SmoothTail, FoldPhase, CeilDiv;
    var quiet := s.(recoveryLeft := 0);
    if n == 0 {
      BeginOnWave(rate, quiet, w);
    }
    var begun := if n == 0 then BeginLoss(rate, quiet) else quiet;
    assert Riding(rate, begun, w, n);
    if s.lost == TenMs(rate) || s.lost == TenMs(rate) * 2 {
      ExpandOnWave(rate, begun, w, n);
    }
  }

  /** The wave does not depend on the loss count or on the delay lines. */
  lemma RidingFrame(rate: nat, s: State, t: State, w: seq<real>, n: nat)
    requires |w| >= 1 && Riding(rate, s, w, n) && Shaped(rate, t)
    requires t == s.(lost := t.lost, line := t.line, flags := t.flags)
    ensures Riding(rate, t, w, n)
  {
    hide At, InPhase, CeilDiv;
  }

  lemma ConcealOnWave(rate: nat, s: State, w: seq<real>, n: nat)
    requires Before(rate, s, w, n)
    ensures Conceal(rate, s).sample == Product(At(w, n), LossGain(rate, n))
    ensures Riding(rate, Conceal(rate, s).state, w, n + 1)
  {
    PreparedOnWave(rate, s, w, n);
    hide Prepared, Riding, Substitution, At, LossGain, Product, CeilDiv, Oscillating;
    var ready := Prepared(rate, s);
    SubstitutionOnWave(rate, ready, w, n);
    RidingFrame(rate, Substitution(rate, ready).state, Conceal(rate, s).state, w, n + 1);
  }

  lemma LossOnWave(rate: nat, s: State, w: seq<real>, n: nat)
    requires Before(rate, s, w, n)
    ensures Stored(rate, s, Lose).sample == Product(At(w, n), LossGain(rate, n))
    ensures n + 1 < WORD_MAX ==> Before(rate, Apply(rate, s, Lose).state, w, n + 1)
  {
    ConcealOnWave(rate, s, w, n);
    hide Conceal, Riding, At, LossGain, Product, CeilDiv, Oscillating, Tiled, Pitch;
    RidingFrame(rate, Conceal(rate, s).state, Apply(rate, s, Lose).state, w, n + 1);
  }

  /**
   A loss over a history of the detected period carries the wave on sample by
   sample: no jump at the onset or at either expansion, only the envelope.
   */
  lemma {:induction false} LossContinuesThePeriod(rate: nat, s: State, w: seq<real>, k: nat, n: nat)
    requires Valid(rate, s) && Before(rate, s, w, k) && k + n < WORD_MAX
    ensures
      Stored(rate, Run(rate, s, Losses(n)), Lose).sample == Product(At(w, k + n), LossGain(rate, k + n))
    decreases n
  {
    hide Before, Apply, Stored, Valid;
    LossOnWave(rate, s, w, k);
    if n > 0 {
      assert Losses(n)[1..] == Losses(n - 1);
      LossContinuesThePeriod(rate, Apply(rate, s, Lose).state, w, k + 1, n - 1);
    }
  }
}
