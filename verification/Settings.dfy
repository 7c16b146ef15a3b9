/** Buffer policy admission and the slow clock-drift controller. */
module Settings {
  import opened Common

  const MINIMUM_CAPACITY: nat := 512
  const RATE_MAX: nat := 0xFFFF_FFFF
  const MAXIMUM_CAPACITY: nat := 0xFFFF_FFFF
  const MINIMUM_RATIO: real := 1.0 / 256.0
  const MAXIMUM_RATIO: real := 256.0
  /** Largest block whose bytes a slice can address: isize::MAX / 4. */
  const MAXIMUM_BLOCK: nat := 0x7FFF_FFFF_FFFF_FFFF / 4

  datatype PlcMode = Disabled | G711AppendixI

  datatype Settings = Settings(
    capacity: nat, inputRate: nat, outputRate: nat, reserve: nat, target: nat,
    maxProducer: nat, maxOutput: nat, plc: PlcMode)

  function Nominal(s: Settings): real
    requires s.inputRate > 0
  {
    s.outputRate as real / s.inputRate as real
  }

  /** Source frames one largest callback may need at the slowest ratio, plus one. */
  function Budget(s: Settings): nat
    requires s.inputRate > 0 && s.outputRate > 0
  {
    var numerator := s.outputRate * 999;
    var denominator := s.inputRate * 1000;
    (if numerator * 256 < denominator then s.maxOutput * 256
     else CeilDiv(s.maxOutput * denominator, numerator)) + 1
  }

  predicate GeometryAdmitted(s: Settings) {
    && MINIMUM_CAPACITY <= s.capacity <= MAXIMUM_CAPACITY
    && s.inputRate != 0 && s.outputRate != 0
    && MINIMUM_RATIO <= Nominal(s) <= MAXIMUM_RATIO
    && s.reserve <= s.capacity && s.target <= s.capacity
    && 0 < s.maxProducer <= MAXIMUM_BLOCK && 0 < s.maxOutput <= MAXIMUM_BLOCK
  }

  function Validate(s: Settings): bool {
    GeometryAdmitted(s) &&
    (s.plc.G711AppendixI? ==>
      && Budget(s) <= s.reserve
      && s.reserve <= s.target
      && s.target + s.maxProducer <= s.capacity)
  }

  function Clamp(x: real, low: real, high: real): real {
    if x < low then low else if x > high then high else x
  }

  /** The slowest ratio the controller may apply. */
  function SlowestRatio(s: Settings): real
    requires s.inputRate > 0
  {
    Clamp(Nominal(s) * 0.999, MINIMUM_RATIO, MAXIMUM_RATIO)
  }

  function FastestRatio(s: Settings): real
    requires s.inputRate > 0
  {
    Clamp(Nominal(s) * 1.001, MINIMUM_RATIO, MAXIMUM_RATIO)
  }

  // ---------------------------------------------------------------- controller

  /** Filtered occupancy in thousandths of a source frame, and the applied ratio; zero before the first call. */
  datatype Control = Control(occupancy: nat, ratio: real)

  const RESTING: Control := Control(0, 0.0)

  /** One hundred and twenty-eighth of the difference, truncated toward zero. */
  function Filtered(occupancy: nat, observed: nat): (r: nat)
    ensures Min(occupancy, observed) <= r <= Max(occupancy, observed)
    ensures observed >= occupancy + 128 ==> r > occupancy
    ensures occupancy >= observed + 128 ==> r < occupancy
    ensures observed >= occupancy ==> 128 * (r - occupancy) <= observed - occupancy < 128 * (r - occupancy) + 128
    ensures observed <= occupancy ==> 128 * (occupancy - r) <= occupancy - observed < 128 * (occupancy - r) + 128
  {
    occupancy + TruncDiv(observed - occupancy, 128)
  }

  function Error(s: Settings, occupancy: nat): real {
    if s.target == 0 then 0.0
    else Clamp((occupancy as real - s.target as real * 1000.0) / (s.target as real * 1000.0), -1.0, 1.0)
  }

  function Desired(s: Settings, occupancy: nat): real
    requires s.inputRate > 0
  {
    Clamp(Nominal(s) * (1.0 - Error(s, occupancy) * 0.001), MINIMUM_RATIO, MAXIMUM_RATIO)
  }

  /** One refill's correction; a finite tail or an empty system only supplies the nominal ratio. */
  function Steer(s: Settings, c: Control, observed: nat, finite: bool): Control
    requires s.inputRate > 0
  {
    if observed != 0 && !finite then
      var occupancy := if c.occupancy == 0 then observed else Filtered(c.occupancy, observed);
      var ratio := if c.ratio == 0.0 then Nominal(s) else c.ratio + (Desired(s, occupancy) - c.ratio) / 512.0;
      Control(occupancy, Clamp(ratio, MINIMUM_RATIO, MAXIMUM_RATIO))
    else if c.ratio == 0.0 then c.(ratio := Nominal(s))
    else c
  }

  datatype Reading = Reading(observed: nat, finite: bool)

  function SteerAll(s: Settings, c: Control, readings: seq<Reading>): Control
    requires s.inputRate > 0
    decreases |readings|
  {
    if readings == [] then c
    else SteerAll(s, Steer(s, c, readings[0].observed, readings[0].finite), readings[1..])
  }

  predicate RatioInRange(s: Settings, c: Control)
    requires s.inputRate > 0
  {
    c.ratio == 0.0 || SlowestRatio(s) <= c.ratio <= FastestRatio(s)
  }

  lemma ScaledNominal(n: real, e: real)
    requires n >= 0.0 && -1.0 <= e <= 1.0
    ensures n * 0.999 <= n * (1.0 - e * 0.001) <= n * 1.001
  {
    var d := 1.0 - e * 0.001;
    ProductSign(d - 0.999, n);
    ProductSign(1.001 - d, n);
    assert (d - 0.999) * n == n * d - n * 0.999;
    assert (1.001 - d) * n == n * 1.001 - n * d;
  }

  lemma NominalPositive(s: Settings)
    requires s.inputRate > 0 && s.outputRate > 0
    ensures Nominal(s) > 0.0
    ensures Nominal(s) * s.inputRate as real == s.outputRate as real
  {
  }

  lemma ClampBand(low: real, x: real, high: real)
    requires low <= x <= high
    ensures 0.0 < Clamp(low, MINIMUM_RATIO, MAXIMUM_RATIO)
    ensures Clamp(low, MINIMUM_RATIO, MAXIMUM_RATIO) <= Clamp(x, MINIMUM_RATIO, MAXIMUM_RATIO)
    ensures Clamp(x, MINIMUM_RATIO, MAXIMUM_RATIO) <= Clamp(high, MINIMUM_RATIO, MAXIMUM_RATIO)
  {
  }

  lemma DesiredInRange(s: Settings, occupancy: nat)
    requires GeometryAdmitted(s)
    ensures SlowestRatio(s) <= Desired(s, occupancy) <= FastestRatio(s)
    ensures SlowestRatio(s) <= Nominal(s) <= FastestRatio(s)
    ensures SlowestRatio(s) > 0.0
  {
    var n, e := Nominal(s), Error(s, occupancy);
    assert n > 0.0 by { NominalPositive(s); }
    assert -1.0 <= e <= 1.0 by { ErrorInRange(s, occupancy); }
    ClampKeeps(n);
    hide Nominal, Error, Clamp;
    Banded(n, e);
  }

  lemma Banded(n: real, e: real)
    requires n > 0.0 && -1.0 <= e <= 1.0
    ensures
      var low, high := Clamp(n * 0.999, MINIMUM_RATIO, MAXIMUM_RATIO), Clamp(n * 1.001, MINIMUM_RATIO, MAXIMUM_RATIO);
      && 0.0 < low <= Clamp(n * (1.0 - e * 0.001), MINIMUM_RATIO, MAXIMUM_RATIO) <= high
      && low <= Clamp(n, MINIMUM_RATIO, MAXIMUM_RATIO) <= high
  {
    hide Clamp;
    ScaledNominal(n, e);
    ClampBand(n * 0.999, n * (1.0 - e * 0.001), n * 1.001);
    ClampBand(n * 0.999, n, n * 1.001);
  }

  lemma ErrorInRange(s: Settings, occupancy: nat)
    ensures -1.0 <= Error(s, occupancy) <= 1.0
  {
  }

  lemma SteerInRange(s: Settings, c: Control, observed: nat, finite: bool)
    requires GeometryAdmitted(s) && RatioInRange(s, c)
    ensures RatioInRange(s, Steer(s, c, observed, finite)) && Steer(s, c, observed, finite).ratio > 0.0
  {
    hide Desired, Nominal, Filtered, SlowestRatio, FastestRatio, Clamp;
    var occupancy := if c.occupancy == 0 then observed else Filtered(c.occupancy, observed);
    DesiredInRange(s, occupancy);
    assert MINIMUM_RATIO <= SlowestRatio(s) && FastestRatio(s) <= MAXIMUM_RATIO by { ClampInRange(s); }
    var ratio := if c.ratio == 0.0 then Nominal(s) else c.ratio + (Desired(s, occupancy) - c.ratio) / 512.0;
    assert SlowestRatio(s) <= ratio <= FastestRatio(s);
    ClampKeeps(ratio);
  }

  lemma ClampKeeps(x: real)
    requires MINIMUM_RATIO <= x <= MAXIMUM_RATIO
    ensures Clamp(x, MINIMUM_RATIO, MAXIMUM_RATIO) == x
  {
  }

  lemma ClampInRange(s: Settings)
    requires s.inputRate > 0
    ensures MINIMUM_RATIO <= SlowestRatio(s) && FastestRatio(s) <= MAXIMUM_RATIO
  {
  }

  /** Whatever occupancies are observed, the applied ratio never leaves nominal by more than 0.1 %. */
  lemma {:induction false} RatioStaysInRange(s: Settings, c: Control, readings: seq<Reading>)
    requires GeometryAdmitted(s) && RatioInRange(s, c)
    ensures RatioInRange(s, SteerAll(s, c, readings))
    ensures readings != [] ==> SteerAll(s, c, readings).ratio > 0.0
    decreases |readings|
  {
    if readings != [] {
      SteerInRange(s, c, readings[0].observed, readings[0].finite);
      hide RatioInRange, Steer;
      RatioStaysInRange(s, Steer(s, c, readings[0].observed, readings[0].finite), readings[1..]);
    }
  }

  /** The filter never leaves the hull of what it has observed. */
  lemma {:induction false} OccupancyStaysInHull(s: Settings, c: Control, readings: seq<Reading>, low: nat, high: nat)
    requires s.inputRate > 0 && (c.occupancy == 0 || low <= c.occupancy <= high)
    requires forall k | 0 <= k < |readings| && readings[k].observed != 0 :: low <= readings[k].observed <= high
    ensures
      var occupancy := SteerAll(s, c, readings).occupancy;
      occupancy == 0 || low <= occupancy <= high
    decreases |readings|
  {
    hide Desired, Nominal;
    if readings != [] {
      assert readings[0].observed != 0 ==> low <= readings[0].observed <= high;
      OccupancyStaysInHull(s, Steer(s, c, readings[0].observed, readings[0].finite), readings[1..], low, high);
    }
  }

  // ---------------------------------------------------------------- admission

  /**
   Exactly which policies are admitted: sizes and rates in range, at most a factor
   256 between the rates; and with the concealer a reserve that covers the largest
   callback at the slowest ratio with a frame to spare, below a target that leaves
   room for the largest producer block.
   */
  lemma AdmissionIsExact(s: Settings)
    ensures Validate(s) <==>
      && 512 <= s.capacity <= 0xFFFF_FFFF && s.inputRate > 0 && s.outputRate > 0
      && s.inputRate <= 256 * s.outputRate && s.outputRate <= 256 * s.inputRate
      && s.reserve <= s.capacity && s.target <= s.capacity
      && 0 < s.maxProducer <= 0x7FFF_FFFF_FFFF_FFFF / 4 && 0 < s.maxOutput <= 0x7FFF_FFFF_FFFF_FFFF / 4
      && (s.plc.G711AppendixI? ==>
            && s.reserve >= 1 && s.maxOutput as real <= (s.reserve - 1) as real * SlowestRatio(s)
            && s.reserve <= s.target && s.target + s.maxProducer <= s.capacity)
  {
    if s.inputRate > 0 && s.outputRate > 0 {
      RatesAdmitted(s);
      if GeometryAdmitted(s) && s.reserve >= 1 {
        BudgetIsExact(s, s.reserve - 1);
      }
    }
    hide Nominal, Budget, SlowestRatio;
  }

  lemma RatesAdmitted(s: Settings)
    requires s.inputRate > 0 && s.outputRate > 0
    ensures MINIMUM_RATIO <= Nominal(s) <= MAXIMUM_RATIO <==>
      s.inputRate <= 256 * s.outputRate && s.outputRate <= 256 * s.inputRate
  {
    NominalPositive(s);
    WithinFactor(Nominal(s), s.inputRate as real, s.outputRate as real);
  }

  lemma WithinFactor(n: real, i: real, o: real)
    requires i > 0.0 && n * i == o
    ensures 1.0 / 256.0 <= n <==> i <= 256.0 * o
    ensures n <= 256.0 <==> o <= 256.0 * i
  {
    ProductOrder(n, 1.0 / 256.0, i);
    ProductOrder(256.0, n, i);
  }

  lemma ProductOrder(a: real, b: real, i: real)
    requires i > 0.0
    ensures b <= a <==> b * i <= a * i
  {
    FactorSign(a - b, i);
    assert (a - b) * i == a * i - b * i;
  }

  /** The integer budget is exactly one more than the least count covering the slowest ratio. */
  lemma BudgetIsExact(s: Settings, frames: nat)
    requires GeometryAdmitted(s)
    ensures Budget(s) <= frames + 1 <==> s.maxOutput as real <= frames as real * SlowestRatio(s)
  {
    NominalPositive(s);
    var o, i := s.outputRate as real, s.inputRate as real;
    var n := Nominal(s);
    assert n * i == o;
    if s.outputRate * 999 * 256 < s.inputRate * 1000 {
      assert n * 0.999 < MINIMUM_RATIO by { BelowMinimum(n, i, o); }
    } else {
      assert n * 0.999 >= MINIMUM_RATIO by { NotBelowMinimum(n, i, o); }
      CeilDivCovers(s.maxOutput * (s.inputRate * 1000), s.outputRate * 999, frames);
      CrossMultiply(s.maxOutput, frames, s.inputRate, s.outputRate, n);
    }
  }

  lemma BelowMinimum(n: real, i: real, o: real)
    requires i > 0.0 && n * i == o && o * 999.0 * 256.0 < i * 1000.0
    ensures n * 0.999 < MINIMUM_RATIO
  {
    FactorSign(n * 0.999 - MINIMUM_RATIO, i);
    assert (n * 0.999 - MINIMUM_RATIO) * i == (n * i) * 0.999 - i * MINIMUM_RATIO;
  }

  lemma NotBelowMinimum(n: real, i: real, o: real)
    requires i > 0.0 && n * i == o && o * 999.0 * 256.0 >= i * 1000.0
    ensures n * 0.999 >= MINIMUM_RATIO
  {
    FactorSign(n * 0.999 - MINIMUM_RATIO, i);
    assert (n * 0.999 - MINIMUM_RATIO) * i == (n * i) * 0.999 - i * MINIMUM_RATIO;
  }

  lemma CrossMultiply(outputs: nat, frames: nat, inputRate: nat, outputRate: nat, n: real)
    requires inputRate > 0 && n * inputRate as real == outputRate as real
    ensures outputs * (inputRate * 1000) <= frames * (outputRate * 999)
      <==> outputs as real <= frames as real * (n * 0.999)
  {
    var i, f, m := inputRate as real, frames as real, outputs as real;
    var gap := f * (n * 0.999) - m;
    assert gap * (i * 1000.0) == f * (n * i) * 999.0 - m * (i * 1000.0);
    if gap >= 0.0 {
      assert gap * (i * 1000.0) >= 0.0;
    } else {
      assert -gap * (i * 1000.0) > 0.0;
    }
    assert (frames * (outputRate * 999)) as real == f * (n * i) * 999.0;
    assert (outputs * (inputRate * 1000)) as real == m * (i * 1000.0);
  }

  lemma LargerRatioNeedsNoMore(outputs: real, most: real, frames: real, slow: real, ratio: real)
    requires outputs <= most <= frames * slow && frames >= 0.0 && slow <= ratio
    ensures outputs <= frames * ratio
  {
    ProductSign(frames, ratio - slow);
    assert frames * (ratio - slow) == frames * ratio - frames * slow;
  }

  /**
   Admission delivers its promise: a primed concealing ring holds enough source
   for any callback at any ratio the controller can reach, with one to spare.
   */
  lemma ReserveCoversCallback(s: Settings, readings: seq<Reading>, outputs: nat)
    requires Validate(s) && s.plc.G711AppendixI? && readings != [] && outputs <= s.maxOutput
    ensures
      var ratio := SteerAll(s, RESTING, readings).ratio;
      ratio > 0.0 && outputs as real <= (s.reserve - 1) as real * ratio
  {
    hide *;
    ReachableRatio(s, readings);
    BudgetAdmits(s);
    var ratio := SteerAll(s, RESTING, readings).ratio;
    LargerRatioNeedsNoMore(outputs as real, s.maxOutput as real, (s.reserve - 1) as real, SlowestRatio(s), ratio);
  }

  lemma ReachableRatio(s: Settings, readings: seq<Reading>)
    requires Validate(s) && readings != []
    ensures s.inputRate > 0 && SteerAll(s, RESTING, readings).ratio > 0.0
    ensures SlowestRatio(s) <= SteerAll(s, RESTING, readings).ratio
  {
    RatioStaysInRange(s, RESTING, readings);
    hide SteerAll, SlowestRatio, FastestRatio, Nominal, Budget;
  }

  lemma BudgetAdmits(s: Settings)
    requires Validate(s) && s.plc.G711AppendixI?
    ensures s.reserve >= 1 && s.maxOutput as real <= (s.reserve - 1) as real * SlowestRatio(s)
  {
    BudgetIsExact(s, s.reserve - 1);
  }
}
