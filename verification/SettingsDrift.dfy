/** Which way the clock controller steers: too much source slows the output down, too little speeds it up. */
module SettingsDrift {
  import opened Common
  import opened Settings

  // ---------------------------------------------------------------- the desired ratio

  /** How far the occupancy lies above target, relative to the target and at most by all of it. */
  lemma ErrorIs(s: Settings, occupancy: nat)
    requires s.target > 0
    ensures
      var t, d := (s.target * 1000) as real, (occupancy - s.target * 1000) as real;
      && (occupancy >= s.target * 2000 ==> Error(s, occupancy) == 1.0)
      && (occupancy < s.target * 2000 ==> Error(s, occupancy) * t == d && Error(s, occupancy) < 1.0)
  {
    var t, d := (s.target * 1000) as real, (occupancy - s.target * 1000) as real;
    assert s.target as real * 1000.0 == t && occupancy as real - t == d;
    var q := d / t;
    assert q * t == d;
    if q < -1.0 {
      assert (-1.0 - q) * t > 0.0;
      assert (-1.0 - q) * t == -t - d;
    }
    if occupancy >= s.target * 2000 && q < 1.0 {
      assert (1.0 - q) * t > 0.0;
      assert (1.0 - q) * t == t - d;
    }
    if occupancy < s.target * 2000 && q >= 1.0 {
      ProductSign(q - 1.0, t);
      assert (q - 1.0) * t == d - t;
    }
  }

  lemma ErrorSign(s: Settings, occupancy: nat)
    requires s.target > 0
    ensures Error(s, occupancy) > 0.0 <==> occupancy > s.target * 1000
    ensures Error(s, occupancy) < 0.0 <==> occupancy < s.target * 1000
  {
    ErrorIs(s, occupancy);
    var t, e := (s.target * 1000) as real, Error(s, occupancy);
    hide Error;
    if occupancy < s.target * 2000 {
      TimesPositive(e, t);
    }
  }

  lemma TimesPositive(x: real, y: real)
    requires y > 0.0
    ensures x > 0.0 <==> x * y > 0.0
    ensures x < 0.0 <==> x * y < 0.0
  {
  }

  lemma ErrorRises(s: Settings, a: nat, b: nat)
    requires a <= b
    ensures Error(s, a) <= Error(s, b)
  {
    if s.target > 0 {
      ErrorIs(s, a);
      ErrorIs(s, b);
      var t, x, y := (s.target * 1000) as real, Error(s, a), Error(s, b);
      hide Error;
      if b < s.target * 2000 {
        assert (x - y) * t == x * t - y * t == (a - b) as real;
        TimesPositive(x - y, t);
      }
    }
  }

  /** The ratio before the adapter's bounds, for the exact number of outputs a source frame should give. */
  lemma DesiredIs(s: Settings, occupancy: nat)
    requires s.inputRate > 0
    ensures
      var n := s.outputRate as real / s.inputRate as real;
      Desired(s, occupancy) == Clamp(n - n * Error(s, occupancy) * 0.001, 1.0 / 256.0, 256.0)
  {
    var n, e := Nominal(s), Error(s, occupancy);
    assert n * (1.0 - e * 0.001) == n - n * e * 0.001;
  }

  /**
   Overfull, the controller asks for fewer outputs per source frame than nominal,
   underfull for more, on target for exactly nominal; from one whole target off
   by exactly a thousandth; short only of the adapter's own bounds.
   */
  lemma DesiredSteersBack(s: Settings, occupancy: nat)
    requires GeometryAdmitted(s) && s.target > 0
    ensures
      var n, desired, target := s.outputRate as real / s.inputRate as real, Desired(s, occupancy), s.target * 1000;
      && (occupancy > target ==> desired <= n && (desired < n <==> n > 1.0 / 256.0))
      && (occupancy < target ==> desired >= n && (desired > n <==> n < 256.0))
      && (occupancy == target ==> desired == n)
      && (occupancy >= 2 * target ==> desired == if n * 0.999 < 1.0 / 256.0 then 1.0 / 256.0 else n * 0.999)
      && (occupancy == 0 ==> desired == if n * 1.001 > 256.0 then 256.0 else n * 1.001)
  {
    NominalPositive(s);
    DesiredIs(s, occupancy);
    ErrorSign(s, occupancy);
    ErrorIs(s, occupancy);
    var n, e := s.outputRate as real / s.inputRate as real, Error(s, occupancy);
    TimesPositive(e, n);
    var t := (s.target * 1000) as real;
    if occupancy == 0 {
      assert (e + 1.0) * t == 0.0;
      TimesPositive(e + 1.0, t);
      assert e == -1.0;
    }
    hide Error, Desired;
  }

  /** More source never makes it ask for more outputs. */
  lemma DesiredNeverRises(s: Settings, a: nat, b: nat)
    requires GeometryAdmitted(s) && a <= b
    ensures Desired(s, a) >= Desired(s, b)
  {
    NominalPositive(s);
    DesiredIs(s, a);
    DesiredIs(s, b);
    ErrorRises(s, a, b);
    var n, x, y := s.outputRate as real / s.inputRate as real, Error(s, a), Error(s, b);
    ProductSign(n, y - x);
    assert n * (y - x) == n * y - n * x;
    hide Error, Desired;
  }

  /** Without a target there is nothing to steer to. */
  lemma NoTargetIsNominal(s: Settings, occupancy: nat)
    requires GeometryAdmitted(s) && s.target == 0
    ensures Desired(s, occupancy) == s.outputRate as real / s.inputRate as real
  {
  }

  // ---------------------------------------------------------------- one correction

  /** The filtered occupancy a reading leads to. */
  function Seen(c: Control, observed: nat): nat {
    if c.occupancy == 0 then observed else Filtered(c.occupancy, observed)
  }

  /**
   A correction takes the running ratio one 512th of the way to the desired one,
   so it rises exactly if the desired ratio is above it; a finite tail or an
   empty system leaves it alone.
   */
  lemma RatioApproachesDesired(s: Settings, c: Control, observed: nat, finite: bool)
    requires GeometryAdmitted(s) && RatioInRange(s, c) && c.ratio != 0.0
    ensures
      var next := Steer(s, c, observed, finite);
      if observed != 0 && !finite then
        && next.occupancy == Seen(c, observed)
        && 512.0 * (next.ratio - c.ratio) == Desired(s, Seen(c, observed)) - c.ratio
      else next == c
    ensures Steer(s, c, observed, finite).ratio > c.ratio <==>
      observed != 0 && !finite && Desired(s, Seen(c, observed)) > c.ratio
  {
    DesiredInRange(s, Seen(c, observed));
    ClampInRange(s);
    var d := Desired(s, Seen(c, observed));
    var ratio := c.ratio + (d - c.ratio) / 512.0;
    assert SlowestRatio(s) <= ratio <= FastestRatio(s);
    ClampKeeps(ratio);
    hide Desired, Clamp, SlowestRatio, FastestRatio;
  }

  /** The first correction after a reset applies the nominal ratio, whatever the occupancy. */
  lemma FirstRatioIsNominal(s: Settings, observed: nat, finite: bool)
    requires GeometryAdmitted(s)
    ensures Steer(s, RESTING, observed, finite).ratio == s.outputRate as real / s.inputRate as real
  {
    ClampKeeps(Nominal(s));
  }

  // ---------------------------------------------------------------- runs on one side of the target

  /** What a steering reading shows: frames on one side of the target; a finite tail shows nothing. */
  predicate AllAbove(s: Settings, readings: seq<Reading>) {
    forall k | 0 <= k < |readings| :: readings[k].finite || readings[k].observed > s.target * 1000
  }

  predicate AllBelow(s: Settings, readings: seq<Reading>) {
    forall k | 0 <= k < |readings| :: readings[k].finite || 0 < readings[k].observed < s.target * 1000
  }

  predicate SomeSteers(readings: seq<Reading>) {
    exists k | 0 <= k < |readings| :: !readings[k].finite
  }

  lemma TailSteers(readings: seq<Reading>)
    requires readings != [] && readings[0].finite && SomeSteers(readings)
    ensures SomeSteers(readings[1..])
  {
    var k :| 0 <= k < |readings| && !readings[k].finite;
    assert readings[1..][k - 1] == readings[k];
  }

  lemma TailAbove(s: Settings, readings: seq<Reading>)
    requires readings != []
    ensures AllAbove(s, readings) ==> AllAbove(s, readings[1..])
    ensures AllBelow(s, readings) ==> AllBelow(s, readings[1..])
  {
    assert forall k | 0 <= k < |readings| - 1 :: readings[1..][k] == readings[k + 1];
  }

  /**
   While every reading is above target the ratio never exceeds nominal, and from
   the first correction on it stays strictly below, unless the nominal ratio is
   already the least the adapter takes: an overfull ring is drained.
   */
  lemma {:induction false} OverfullIsDrained(s: Settings, c: Control, readings: seq<Reading>)
    requires GeometryAdmitted(s) && s.target > 0 && RatioInRange(s, c) && AllAbove(s, readings)
    requires 0.0 < c.ratio <= s.outputRate as real / s.inputRate as real
    requires c.occupancy == 0 || c.occupancy > s.target * 1000
    ensures
      var n, ratio := s.outputRate as real / s.inputRate as real, SteerAll(s, c, readings).ratio;
      && 0.0 < ratio <= n
      && ((c.ratio < n || SomeSteers(readings)) && n > 1.0 / 256.0 ==> ratio < n)
    decreases |readings|
  {
    hide Desired, Filtered, RatioInRange, SomeSteers, Nominal;
    if readings == [] {
      NothingSteers(readings);
    } else {
      var r := readings[0];
      RatioApproachesDesired(s, c, r.observed, r.finite);
      SteerInRange(s, c, r.observed, r.finite);
      DesiredSteersBack(s, Seen(c, r.observed));
      TailAbove(s, readings);
      if r.finite && SomeSteers(readings) {
        TailSteers(readings);
      }
      hide Steer;
      OverfullIsDrained(s, Steer(s, c, r.observed, r.finite), readings[1..]);
    }
  }

  lemma NothingSteers(readings: seq<Reading>)
    requires readings == []
    ensures !SomeSteers(readings)
  {
  }

  /** And the mirror image: while every reading is below target the output is sped up. */
  lemma {:induction false} UnderfullIsFilled(s: Settings, c: Control, readings: seq<Reading>)
    requires GeometryAdmitted(s) && s.target > 0 && RatioInRange(s, c) && AllBelow(s, readings)
    requires c.ratio >= s.outputRate as real / s.inputRate as real && c.occupancy < s.target * 1000
    ensures
      var n, ratio := s.outputRate as real / s.inputRate as real, SteerAll(s, c, readings).ratio;
      && ratio >= n
      && ((c.ratio > n || SomeSteers(readings)) && n < 256.0 ==> ratio > n)
    decreases |readings|
  {
    NominalPositive(s);
    hide Desired, Filtered, RatioInRange, SomeSteers, Nominal;
    if readings == [] {
      NothingSteers(readings);
    } else {
      var r := readings[0];
      RatioApproachesDesired(s, c, r.observed, r.finite);
      SteerInRange(s, c, r.observed, r.finite);
      DesiredSteersBack(s, Seen(c, r.observed));
      TailAbove(s, readings);
      if r.finite && SomeSteers(readings) {
        TailSteers(readings);
      }
      hide Steer;
      UnderfullIsFilled(s, Steer(s, c, r.observed, r.finite), readings[1..]);
    }
  }

  // ---------------------------------------------------------------- runs that do not turn

  predicate NeverFalling(low: nat, readings: seq<Reading>) {
    && (forall k | 0 <= k < |readings| :: !readings[k].finite && low <= readings[k].observed)
    && (forall j, k | 0 <= j < k < |readings| :: readings[j].observed <= readings[k].observed)
  }

  predicate NeverRising(high: nat, readings: seq<Reading>) {
    && (forall k | 0 <= k < |readings| :: !readings[k].finite && 0 < readings[k].observed <= high)
    && (forall j, k | 0 <= j < k < |readings| :: readings[j].observed >= readings[k].observed)
  }

  /** As long as the readings do not fall back the ratio only goes down, once it is at or above the desired one. */
  lemma {:induction false} RatioOnlyFalls(s: Settings, c: Control, readings: seq<Reading>)
    requires GeometryAdmitted(s) && RatioInRange(s, c) && c.occupancy > 0
    requires c.ratio >= Desired(s, c.occupancy) && NeverFalling(c.occupancy, readings)
    ensures 0.0 < SteerAll(s, c, readings).ratio <= c.ratio
    decreases |readings|
  {
    DesiredInRange(s, c.occupancy);
    hide Desired, Filtered, RatioInRange, Nominal, SlowestRatio, FastestRatio;
    if readings != [] {
      var r := readings[0];
      var next := Steer(s, c, r.observed, r.finite);
      RatioApproachesDesired(s, c, r.observed, r.finite);
      SteerInRange(s, c, r.observed, r.finite);
      DesiredNeverRises(s, c.occupancy, Seen(c, r.observed));
      hide Steer;
      assert forall k | 0 <= k < |readings| - 1 :: readings[1..][k] == readings[k + 1];
      RatioOnlyFalls(s, next, readings[1..]);
    }
  }

  /** And only up as long as they do not rise, once it is at or below it. */
  lemma {:induction false} RatioOnlyRises(s: Settings, c: Control, readings: seq<Reading>)
    requires GeometryAdmitted(s) && RatioInRange(s, c) && c.occupancy > 0
    requires 0.0 < c.ratio <= Desired(s, c.occupancy) && NeverRising(c.occupancy, readings)
    ensures SteerAll(s, c, readings).ratio >= c.ratio
    decreases |readings|
  {
    hide Desired, Filtered, RatioInRange, Nominal, SlowestRatio, FastestRatio;
    if readings != [] {
      var r := readings[0];
      var next := Steer(s, c, r.observed, r.finite);
      RatioApproachesDesired(s, c, r.observed, r.finite);
      SteerInRange(s, c, r.observed, r.finite);
      DesiredNeverRises(s, Seen(c, r.observed), c.occupancy);
      hide Steer;
      assert forall k | 0 <= k < |readings| - 1 :: readings[1..][k] == readings[k + 1];
      RatioOnlyRises(s, next, readings[1..]);
    }
  }

  /** Above target the ratio may rise all the same, back toward nominal, once the excess has shrunk. */
  lemma OverfullMayRecover()
    ensures
      var s := Settings(4096, 8000, 8000, 512, 1000, 128, 128, Disabled);
      var c := Control(1_000_200, 0.999);
      && GeometryAdmitted(s) && RatioInRange(s, c)
      && Steer(s, c, 1_000_100, false).occupancy > s.target * 1000 && Steer(s, c, 1_000_100, false).ratio > c.ratio
  {
    var s, c := Settings(4096, 8000, 8000, 512, 1000, 128, 128, Disabled), Control(1_000_200, 0.999);
    assert Nominal(s) == 1.0;
    assert Filtered(1_000_200, 1_000_100) == 1_000_200;
    RatioApproachesDesired(s, c, 1_000_100, false);
    assert Error(s, 1_000_200) == 0.0002;
  }
}
