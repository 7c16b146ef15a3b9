/** What the concealer makes of any history, periodic or not: the joined seam, the repeated period, the cross-fades. */
module PlcSeam {
  import opened Common
  import opened PlcSpec
  import opened PlcLaws

  // ---------------------------------------------------------------- the joined tail

  /** On the line from one sample to another, at the i-th of n equal steps. */
  predicate OnLine(x: real, before: real, after: real, i: nat, n: nat) {
    n as real * x == (n - i) as real * before + i as real * after
  }

  lemma BlendOnLine(before: real, after: real, index: nat, count: nat)
    requires index < count
    ensures OnLine(Blend(before, after, index, count), before, after, index + 1, count)
  {
    var n, i := count as real, (index + 1) as real;
    var w := i / n;
    assert w * n == i;
    assert n * (before * (1.0 - w) + after * w) == (n - w * n) * before + (w * n) * after;
  }

  /**
   The join rewrites the last quarter and nothing else, each sample by the line
   from the saved one to the one a cycle before it; so the buffer ends on the
   very sample that preceded the cycle, and repeating the cycle makes no jump.
   */
  lemma SeamCloses(frozen: seq<real>, last: seq<real>, cycle: nat, quarter: nat, k: nat)
    requires cycle + quarter <= |frozen| && quarter <= |last| && k < |frozen|
    ensures
      var joined, keep := SmoothTail(frozen, last, cycle, quarter), |frozen| - quarter;
      && (k < keep ==> joined[k] == frozen[k])
      && (k >= keep ==> OnLine(joined[k], last[k - keep], frozen[k - cycle], k - keep + 1, quarter))
      && (quarter >= 1 && cycle < |frozen| ==> joined[|frozen| - 1] == frozen[|frozen| - 1 - cycle])
  {
    var keep := |frozen| - quarter;
    if k >= keep {
      BlendOnLine(last[k - keep], frozen[k - cycle], k - keep, quarter);
    }
    if quarter >= 1 && cycle < |frozen| {
      var a, b := last[quarter - 1], frozen[|frozen| - 1 - cycle];
      BlendOnLine(a, b, quarter - 1, quarter);
      Cancel(quarter as real, Blend(a, b, quarter - 1, quarter), b);
    }
  }

  lemma Cancel(n: real, x: real, y: real)
    requires n > 0.0 && n * x == n * y
    ensures x == y
  {
    assert n * (x - y) == 0.0;
  }

  /**
   At the onset the join is made in the history itself, so the unplayed lookahead
   already carries it: the last quarter pitch runs from what was recorded to what
   was recorded one pitch earlier, and everything before it is untouched.
   */
  lemma OnsetJoins(rate: nat, s: State, k: nat)
    requires Shaped(rate, s) && k < |s.line|
    ensures
      var b := BeginLoss(rate, s);
      var p, keep := b.pitch, |s.line| - b.pitch / 4;
      && MinPitch(rate) <= p <= MaxPitch(rate) && p + p / 4 <= |s.line| && b.frozen == b.line && |b.line| == |s.line|
      && (k < keep ==> b.line[k] == s.line[k])
      && (k >= keep ==> OnLine(b.line[k], s.line[k], s.line[k - p], k - keep + 1, p / 4))
      && (p >= 4 ==> b.line[|s.line| - 1] == s.line[|s.line| - 1 - p])
  {
    hide *;
    OnsetShape(rate, s);
    var p := Pitch(rate, s.line);
    assert MinPitch(rate) <= p <= MaxPitch(rate);
    SavedTail(s.lastQuarter, s.line, p / 4, k);
    SeamCloses(s.line, WithTail(s.lastQuarter, s.line, p / 4), p, p / 4, k);
  }

  lemma OnsetShape(rate: nat, s: State)
    requires Shaped(rate, s)
    ensures
      var b, p := BeginLoss(rate, s), Pitch(rate, s.line);
      && rate >= 1 && p + p / 4 <= |s.line| == HistoryLength(rate) && p / 4 <= |s.lastQuarter|
      && b.pitch == p && b.frozen == b.line && |b.line| == |s.line|
      && b.line == SmoothTail(s.line, WithTail(s.lastQuarter, s.line, p / 4), p, p / 4)
  {
    QuarterFits(rate, Pitch(rate, s.line));
    hide CeilDiv, Pitch, SmoothTail, WithTail, MaxPitch, MinPitch, Delay, HistoryLength;
  }

  lemma SavedTail(buffer: seq<real>, line: seq<real>, quarter: nat, k: nat)
    requires quarter <= |buffer| && quarter <= |line|
    ensures
      var keep := |line| - quarter;
      keep <= k < |line| ==> WithTail(buffer, line, quarter)[k - keep] == line[k]
  {
  }

  // ---------------------------------------------------------------- the first ten milliseconds

  /** Lost sample n of the first ten milliseconds: the joined history is looped from one pitch before its end. */
  predicate Looping(rate: nat, s: State, joined: seq<real>, pitch: nat, n: nat) {
    && Valid(rate, s) && pitch >= 1 && 1 <= n <= TenMs(rate) && s.lost == n
    && s.frozen == joined && s.pitch == pitch && s.cycle == pitch && s.phase == n % pitch && s.overlapLeft == 0
  }

  lemma StepsAround(n: nat, pitch: nat)
    requires pitch >= 1
    ensures (n % pitch + 1) % pitch == (n + 1) % pitch
  {
    var q := n / pitch;
    assert n + 1 == q * pitch + (n % pitch + 1);
    Remainders(q, n % pitch + 1, pitch);
  }

  lemma Remainders(q: nat, r: nat, pitch: nat)
    requires pitch >= 1
    ensures (q * pitch + r) % pitch == r % pitch
    decreases q
  {
    if q > 0 {
      Remainders(q - 1, r, pitch);
      assert q * pitch + r == (q - 1) * pitch + r + pitch;
      OneMore((q - 1) * pitch + r, pitch);
    }
  }

  lemma OneMore(x: nat, pitch: nat)
    requires pitch >= 1
    ensures (x + pitch) % pitch == x % pitch
  {
    var q, r := x / pitch, x % pitch;
    assert x + pitch == (q + 1) * pitch + r;
    Remainder(x + pitch, q + 1, r, pitch);
  }

  lemma SmallModulo(x: nat, n: nat)
    requires x < n
    ensures x % n == x
  {
    Remainder(x, 0, x, n);
  }

  /** With no overlap pending the oscillator plays the entry its phase points at. */
  lemma PlaysPhase(rate: nat, s: State)
    requires Shaped(rate, s) && Oscillating(rate, s) && s.overlapLeft == 0
    ensures s.cycle <= |s.frozen|
    ensures Substitution(rate, s).sample == s.frozen[|s.frozen| - s.cycle + s.phase]
  {
    Geometry(rate);
    SmallModulo(s.phase, s.cycle);
    hide CeilDiv, Delay;
  }

  /** A lost sample at full level, before and after which nothing expands. */
  lemma UnexpandedLoss(rate: nat, s: State)
    requires Valid(rate, s) && s.lost < TenMs(rate)
    ensures
      var ready := if s.lost == 0 then BeginLoss(rate, s.(recoveryLeft := 0)) else s;
      var next := Apply(rate, s, Lose).state;
      && Shaped(rate, ready) && Oscillating(rate, ready)
      && Stored(rate, s, Lose).sample == Substitution(rate, ready).sample
      && next == ready.(phase := (ready.phase + 1) % ready.cycle, overlapLeft := Monus(ready.overlapLeft, 1),
                        lost := s.lost + 1, line := next.line, flags := next.flags)
  {
    hide CeilDiv, LossGain, BeginLoss, Prepared, TenMs, Delay, MaxPitch, MinPitch, HistoryLength, Substitution;
    Geometry(rate);
    UnityGain(rate, s.lost);
    if s.lost == 0 {
      BegunShape(rate, s.(recoveryLeft := 0));
    }
    PreparedUnexpanded(rate, s);
  }

  lemma UnityGain(rate: nat, lost: nat)
    requires rate >= 1 && lost <= TenMs(rate)
    ensures LossGain(rate, lost) == 1.0
  {
    Geometry(rate);
    hide TenMs;
  }

  lemma PreparedUnexpanded(rate: nat, s: State)
    requires Valid(rate, s) && s.lost < TenMs(rate)
    ensures Prepared(rate, s) == if s.lost == 0 then BeginLoss(rate, s.(recoveryLeft := 0)) else s
  {
    Geometry(rate);
    hide CeilDiv, BeginLoss, Expand, TenMs, Delay, MaxPitch, MinPitch, HistoryLength;
  }

  lemma FirstLost(rate: nat, s: State)
    requires Valid(rate, s) && s.lost == 0
    ensures
      var b := BeginLoss(rate, s.(recoveryLeft := 0));
      && Stored(rate, s, Lose).sample == b.line[|b.line| - b.pitch]
      && Looping(rate, Apply(rate, s, Lose).state, b.line, b.pitch, 1)
  {
    Geometry(rate);
    var b := BeginLoss(rate, s.(recoveryLeft := 0));
    UnexpandedLoss(rate, s);
    BegunShape(rate, s.(recoveryLeft := 0));
    PlaysPhase(rate, b);
    hide CeilDiv, Apply, Stored, BeginLoss, Substitution, TenMs;
    assert 1 % b.pitch == (0 + 1) % b.cycle;
  }

  lemma BegunShape(rate: nat, s: State)
    requires Shaped(rate, s)
    ensures
      var b := BeginLoss(rate, s);
      && b.cycle == b.pitch && b.phase == 0 && b.overlapLeft == 0 && b.frozen == b.line && |b.line| == |s.line|
      && b.lost == s.lost && b.recoveryLeft == s.recoveryLeft && b.flags == s.flags
  {
    hide CeilDiv, Pitch, SmoothTail;
  }

  /** Entry n of the last pitch of a line, over and over. */
  function Looped(line: seq<real>, pitch: nat, n: nat): real
    requires 1 <= pitch <= |line|
  {
    line[|line| - pitch + n % pitch]
  }

  lemma NextLost(rate: nat, s: State, joined: seq<real>, pitch: nat, n: nat)
    requires Looping(rate, s, joined, pitch, n) && n < TenMs(rate) && |joined| >= pitch
    ensures Stored(rate, s, Lose).sample == Looped(joined, pitch, n)
    ensures Looping(rate, Apply(rate, s, Lose).state, joined, pitch, n + 1)
  {
    Geometry(rate);
    UnexpandedLoss(rate, s);
    PlaysPhase(rate, s);
    StepsAround(n, pitch);
    hide CeilDiv, Apply, Stored, BeginLoss, Substitution, TenMs;
  }

  lemma {:induction false} LoopsOn(rate: nat, s: State, joined: seq<real>, pitch: nat, k: nat, n: nat)
    requires Looping(rate, s, joined, pitch, k) && k + n < TenMs(rate) && |joined| >= pitch
    ensures Stored(rate, Run(rate, s, Losses(n)), Lose).sample == Looped(joined, pitch, k + n)
    decreases n
  {
    hide Apply, Stored, Valid, TenMs;
    NextLost(rate, s, joined, pitch, k);
    if n > 0 {
      assert Losses(n)[1..] == Losses(n - 1);
      LoopsOn(rate, Apply(rate, s, Lose).state, joined, pitch, k + 1, n - 1);
    }
  }

  /**
   After any history the first ten milliseconds of a loss are its last pitch, end
   joined, over and over at full level: outside the joined quarter exactly the
   recorded samples, inside it the line to those one pitch earlier.
   */
  lemma LossRepeatsThePitch(rate: nat, s: State, n: nat)
    requires Valid(rate, s) && s.lost == 0 && n < TenMs(rate)
    ensures
      var p := BeginLoss(rate, s.(recoveryLeft := 0)).pitch;
      && 1 <= p && p + p / 4 <= |s.line|
      && var sample := Stored(rate, Run(rate, s, Losses(n)), Lose).sample;
        var k, keep := |s.line| - p + n % p, |s.line| - p / 4;
        && (k < keep ==> sample == s.line[k])
        && (k >= keep ==> OnLine(sample, s.line[k], s.line[k - p], k - keep + 1, p / 4))
  {
    hide *;
    var quiet := s.(recoveryLeft := 0);
    QuietShaped(rate, s);
    OnsetFits(rate, quiet);
    var b := BeginLoss(rate, quiet);
    LoopedSample(rate, s, n);
    LoopedAt(b.line, b.pitch, n);
    OnsetJoins(rate, quiet, |s.line| - b.pitch + n % b.pitch);
  }

  lemma OnsetFits(rate: nat, s: State)
    requires Shaped(rate, s)
    ensures
      var b := BeginLoss(rate, s);
      1 <= b.pitch && b.pitch + b.pitch / 4 <= |s.line| == |b.line|
  {
    OnsetShape(rate, s);
    Geometry(rate);
    hide BeginLoss, CeilDiv, SmoothTail, WithTail, HistoryLength;
  }

  lemma RunLosses(rate: nat, s: State, n: nat)
    requires Valid(rate, s)
    ensures Run(rate, s, Losses(0)) == s
    ensures n > 0 ==> Run(rate, s, Losses(n)) == Run(rate, Apply(rate, s, Lose).state, Losses(n - 1))
  {
    hide Apply, Valid;
    assert Losses(0) == [];
    if n > 0 {
      assert Losses(n)[1..] == Losses(n - 1);
    }
  }

  lemma QuietShaped(rate: nat, s: State)
    requires Valid(rate, s)
    ensures Shaped(rate, s.(recoveryLeft := 0))
  {
  }

  lemma LoopedAt(line: seq<real>, pitch: nat, n: nat)
    requires 1 <= pitch <= |line|
    ensures n % pitch < pitch && Looped(line, pitch, n) == line[|line| - pitch + n % pitch]
    ensures Looped(line, pitch, 0) == line[|line| - pitch]
  {
    SmallModulo(0, pitch);
  }

  lemma LoopedSample(rate: nat, s: State, n: nat)
    requires Valid(rate, s) && s.lost == 0 && n < TenMs(rate)
    ensures
      var b := BeginLoss(rate, s.(recoveryLeft := 0));
      && 1 <= b.pitch <= |b.line|
      && Stored(rate, Run(rate, s, Losses(n)), Lose).sample == Looped(b.line, b.pitch, n)
  {
    hide *;
    QuietShaped(rate, s);
    var b := BeginLoss(rate, s.(recoveryLeft := 0));
    OnsetFits(rate, s.(recoveryLeft := 0));
    FirstLost(rate, s);
    RunLosses(rate, s, n);
    LoopedAt(b.line, b.pitch, n);
    if n > 0 {
      LoopsOn(rate, Apply(rate, s, Lose).state, b.line, b.pitch, 1, n - 1);
    }
  }
}
