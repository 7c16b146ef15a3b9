/** What the pitch search finds: the best score among its candidates, and that a true period has the best score. */
module PlcPitch {
  import opened Common
  import opened PlcSpec

  // ---------------------------------------------------------------- the search

  /** No candidate scores higher than the one chosen. */
  lemma {:induction false} BestIsHighest(
      rate: nat, wave: seq<real>, best: nat, lag: nat, last: nat, stride: nat, step: nat, k: nat)
    requires |wave| == HistoryLength(rate) && rate >= 1 && step >= 1 && stride >= 1
    requires best <= last <= MaxPitch(rate)
    ensures
      var r := Best(rate, wave, best, lag, last, stride, step);
      && Score(rate, wave, r, step) >= Score(rate, wave, best, step)
      && (lag + k * stride <= last ==> Score(rate, wave, r, step) >= Score(rate, wave, lag + k * stride, step))
    decreases last + stride - lag
  {
    hide Score, MaxPitch, MinPitch, HistoryLength;
    StrideStep(lag, k, stride);
    if lag <= last {
      var better := if Score(rate, wave, lag, step) > Score(rate, wave, best, step) then lag else best;
      BestIsHighest(rate, wave, better, lag + stride, last, stride, step, if k > 0 then k - 1 else 0);
    }
  }

  lemma StrideStep(lag: nat, k: nat, stride: nat)
    ensures k > 0 ==> lag + stride + (k - 1) * stride == lag + k * stride
    ensures lag <= lag + k * stride && (k == 0 ==> lag + k * stride == lag)
  {
  }

  /** The coarse search: the highest score of every second lag in range. */
  lemma CoarseIsHighest(rate: nat, wave: seq<real>, k: nat)
    requires |wave| == HistoryLength(rate) && rate >= 1 && MinPitch(rate) + 2 * k <= MaxPitch(rate)
    ensures Score(rate, wave, CoarsePitch(rate, wave), 2) >= Score(rate, wave, MinPitch(rate) + 2 * k, 2)
  {
    Geometry(rate);
    hide Score, CeilDiv;
    BestIsHighest(rate, wave, MinPitch(rate), MinPitch(rate) + 2, MaxPitch(rate), 2, 2, if k > 0 then k - 1 else 0);
  }

  /** The fine search: the highest full-rate score of the coarse pitch and its neighbours in range. */
  lemma FineIsHighest(rate: nat, wave: seq<real>, coarse: nat, near: nat)
    requires |wave| == HistoryLength(rate) && rate >= 1
    requires MinPitch(rate) <= near <= MaxPitch(rate) && MinPitch(rate) <= coarse <= MaxPitch(rate)
    requires coarse - 1 <= near <= coarse + 1
    ensures coarse - 1 <= FinePitch(rate, wave, coarse) <= coarse + 1
    ensures Score(rate, wave, FinePitch(rate, wave, coarse), 1) >= Score(rate, wave, near, 1)
  {
    hide Score, MinPitch, MaxPitch, HistoryLength, Best;
    var first, last := Max(Monus(coarse, 1), MinPitch(rate)), Min(coarse + 1, MaxPitch(rate));
    assert first <= near <= last;
    var k := if near > first then near - first - 1 else 0;
    assert k * 1 == k;
    BestIsHighest(rate, wave, first, first + 1, last, 1, 1, k);
  }

  /** The pitch used: at full rate none of the best coarse lag and its neighbours scores higher. */
  lemma PitchIsHighest(rate: nat, wave: seq<real>, near: nat)
    requires |wave| == HistoryLength(rate) && rate >= 1 && MinPitch(rate) <= near <= MaxPitch(rate)
    requires CoarsePitch(rate, wave) - 1 <= near <= CoarsePitch(rate, wave) + 1
    ensures CoarsePitch(rate, wave) - 1 <= Pitch(rate, wave) <= CoarsePitch(rate, wave) + 1
    ensures Score(rate, wave, Pitch(rate, wave), 1) >= Score(rate, wave, near, 1)
  {
    hide Score, MinPitch, MaxPitch, HistoryLength, Best, FinePitch, CoarsePitch;
    FineIsHighest(rate, wave, CoarsePitch(rate, wave), near);
  }

  // ---------------------------------------------------------------- a true period

  /** Signal power of the analysis window: the energy at lag zero. */
  function Power(wave: seq<real>, from: nat, step: nat): real
    requires step >= 1
  {
    Energy(wave, 0, from, step)
  }

  lemma SquareNonNegative(x: real)
    ensures x * x >= 0.0
  {
  }

  lemma {:induction false} EnergyNonNegative(wave: seq<real>, lag: nat, from: nat, step: nat)
    requires lag <= from && step >= 1
    ensures Energy(wave, lag, from, step) >= 0.0
    decreases |wave| - from
  {
    if from < |wave| {
      SquareNonNegative(wave[from - lag]);
      EnergyNonNegative(wave, lag, from + step, step);
    }
  }

  /** One more term keeps the square of a sum of products below the product of the sums of squares. */
  lemma CauchyStep(c: real, a: real, b: real, x: real, y: real)
    requires a >= 0.0 && b >= 0.0 && c * c <= a * b
    ensures (c + x * y) * (c + x * y) <= (a + x * x) * (b + y * y)
  {
    var cross := 2.0 * (c * (x * y));
    var sum := a * (y * y) + b * (x * x);
    assert cross <= sum by { CrossTerm(c, a, b, x, y); }
    assert (c + x * y) * (c + x * y) == c * c + cross + (x * y) * (x * y);
    assert (a + x * x) * (b + y * y) == a * b + sum + (x * x) * (y * y);
    assert (x * y) * (x * y) == (x * x) * (y * y);
  }

  lemma CrossTerm(c: real, a: real, b: real, x: real, y: real)
    requires a >= 0.0 && b >= 0.0 && c * c <= a * b
    ensures 2.0 * (c * (x * y)) <= a * (y * y) + b * (x * x)
  {
    var p, q := a * (y * y), b * (x * x);
    var d := c * (x * y);
    SquareNonNegative(x);
    SquareNonNegative(y);
    ProductSign(a, y * y);
    ProductSign(b, x * x);
    assert d * d <= p * q by {
      var z := (x * y) * (x * y);
      SquareNonNegative(x * y);
      ProductSign(a * b - c * c, z);
      assert d * d == (c * c) * z;
      assert p * q == (a * b) * z;
      assert (a * b - c * c) * z == (a * b) * z - (c * c) * z;
    }
    MeanBelow(d, p, q);
  }

  /** The geometric mean lies below the arithmetic one. */
  lemma MeanBelow(d: real, p: real, q: real)
    requires p >= 0.0 && q >= 0.0 && d * d <= p * q
    ensures 2.0 * d <= p + q
  {
    if 2.0 * d > p + q {
      var e, s := 2.0 * d, p + q;
      assert e * e == 4.0 * (d * d);
      assert s * s == (p - q) * (p - q) + 4.0 * (p * q);
      SquareNonNegative(p - q);
      SquareRises(s, e);
    }
  }

  lemma PositiveProduct(x: real, y: real)
    requires x > 0.0 && y > 0.0
    ensures x * y > 0.0
  {
  }

  lemma SquareRises(s: real, e: real)
    requires 0.0 <= s < e
    ensures s * s < e * e
  {
    var gap, sum := e - s, e + s;
    assert gap > 0.0 && sum > 0.0;
    PositiveProduct(gap, sum);
    assert gap * sum == e * e - s * s;
  }

  /** One term more. */
  lemma SumsUnfold(wave: seq<real>, lag: nat, from: nat, step: nat)
    requires lag <= from < |wave| && step >= 1
    ensures
      var x, y := wave[from], wave[from - lag];
      && Correlation(wave, lag, from, step) == Correlation(wave, lag, from + step, step) + x * y
      && Power(wave, from, step) == Power(wave, from + step, step) + x * x
      && Energy(wave, lag, from, step) == Energy(wave, lag, from + step, step) + y * y
  {
  }

  /** The correlation at any lag is bounded by the energies of both windows. */
  lemma {:induction false} CorrelationBound(wave: seq<real>, lag: nat, from: nat, step: nat)
    requires lag <= from && step >= 1
    ensures
      var c := Correlation(wave, lag, from, step);
      c * c <= Power(wave, from, step) * Energy(wave, lag, from, step)
    decreases |wave| - from
  {
    if from < |wave| {
      hide Correlation, Energy, Power, Product;
      var next := from + step;
      CorrelationBound(wave, lag, next, step);
      PowerIs(wave, next, step);
      EnergyNonNegative(wave, 0, next, step);
      EnergyNonNegative(wave, lag, next, step);
      SumsUnfold(wave, lag, from, step);
      CauchyStep(Correlation(wave, lag, next, step), Power(wave, next, step), Energy(wave, lag, next, step),
                 wave[from], wave[from - lag]);
    }
  }

  /** The window repeats what lies one lag before it. */
  predicate Repeats(wave: seq<real>, lag: nat, from: nat)
    requires lag <= from
  {
    forall i | from <= i < |wave| :: wave[i - lag] == wave[i]
  }

  lemma {:induction false} RepeatedCorrelates(wave: seq<real>, lag: nat, from: nat, step: nat)
    requires lag <= from && step >= 1 && Repeats(wave, lag, from)
    ensures Correlation(wave, lag, from, step) == Energy(wave, lag, from, step) == Power(wave, from, step)
    decreases |wave| - from
  {
    if from < |wave| {
      RepeatedCorrelates(wave, lag, from + step, step);
    }
  }

  /** A score is never above the signal power, and a lag whose window repeats reaches it. */
  lemma NormalizedBelow(c: real, energy: real, power: real)
    requires power >= 0.0 && energy >= 0.0 && c * c <= power * energy
    ensures Normalized(c, energy) <= power
  {
    if energy > 0.0 {
      var m := c * (if c < 0.0 then -c else c);
      SquareNonNegative(c);
      assert m <= c * c;
      QuotientBelow(m, energy, power);
    }
  }

  lemma QuotientBelow(m: real, e: real, p: real)
    requires e > 0.0 && m <= p * e
    ensures m / e <= p
  {
    var q := m / e;
    assert q * e == m;
    FactorSign(p - q, e);
    assert (p - q) * e == p * e - q * e;
  }

  lemma NormalizedReaches(power: real)
    requires power >= 0.0
    ensures Normalized(power, power) == power
  {
    if power > 0.0 {
      var q := power * power / power;
      assert q == power;
    }
  }

  /**
   A true period scores highest: of all lags in range none scores above one at
   which the analysis window repeats, in the coarse search as in the fine one.
   */
  lemma PeriodScoresHighest(rate: nat, wave: seq<real>, period: nat, lag: nat, step: nat)
    requires |wave| == HistoryLength(rate) && rate >= 1 && step >= 1
    requires period <= MaxPitch(rate) && lag <= MaxPitch(rate)
    requires Analysis(rate) + MaxPitch(rate) <= |wave| && Repeats(wave, period, |wave| - Analysis(rate))
    ensures Score(rate, wave, lag, step) <= Score(rate, wave, period, step)
  {
    var from := |wave| - Analysis(rate);
    hide CeilDiv, Normalized, Correlation, Energy, MaxPitch, Analysis, HistoryLength, Power, Repeats;
    EnergyNonNegative(wave, 0, from, step);
    EnergyNonNegative(wave, lag, from, step);
    CorrelationBound(wave, lag, from, step);
    RepeatedCorrelates(wave, period, from, step);
    PowerIs(wave, from, step);
    NormalizedBelow(Correlation(wave, lag, from, step), Energy(wave, lag, from, step), Power(wave, from, step));
    NormalizedReaches(Power(wave, from, step));
  }

  lemma PowerIs(wave: seq<real>, from: nat, step: nat)
    requires step >= 1
    ensures Power(wave, from, step) == Energy(wave, 0, from, step)
  {
  }
}
