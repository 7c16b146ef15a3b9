/** Small shared vocabulary: optional values, rounding and bounded arithmetic. */
module Common {
  datatype Option<+T> = None | Some(value: T)

  /** Largest value of the source's 64-bit usize and u64 counters. */
  const WORD_MAX: nat := 0xFFFF_FFFF_FFFF_FFFF

  function Min(a: int, b: int): int {
    if a < b then a else b
  }

  function Max(a: int, b: int): int {
    if a < b then b else a
  }

  /** Unsigned subtraction that stops at zero. */
  function Monus(a: nat, b: nat): nat {
    if a < b then 0 else a - b
  }

  /** Addition that stops at the largest machine word. */
  function SaturatingAdd(a: nat, b: nat): nat {
    Min(a + b, WORD_MAX)
  }

  /** Round-up division. */
  function CeilDiv(a: nat, b: nat): nat
    requires b > 0
  {
    (a + b - 1) / b
  }

  /** What round-up division means: the least multiple of b that covers a. */
  lemma CeilDivCovers(a: nat, b: nat, q: nat)
    requires b > 0
    ensures CeilDiv(a, b) <= q <==> a <= q * b
  {
    var c := CeilDiv(a, b);
    assert a + b - 1 == c * b + (a + b - 1) % b;
    if c <= q {
      MulMonotone(c, q, b);
    } else {
      MulMonotone(q + 1, c, b);
    }
  }

  lemma MulMonotone(x: int, y: int, k: nat)
    requires x <= y
    ensures x * k <= y * k
  {
    assert (y - x) * k >= 0;
  }

  /** Division truncated toward zero, as the source's signed integers divide. */
  function TruncDiv(a: int, b: nat): int
    requires b > 0
  {
    if a >= 0 then a / b else -(-a / b)
  }

  lemma Remainder(x: int, q: int, r: nat, n: nat)
    requires n >= 1 && x == q * n + r && r < n
    ensures x % n == r && x / n == q
  {
    var d := x / n - q;
    assert d * n == r - x % n;
    if d >= 1 {
      MulMonotone(1, d, n);
    } else if d <= -1 {
      MulMonotone(d, -1, n);
    }
  }

  lemma QuotientBetween(n: nat, low: nat, high: nat, d: nat)
    requires d >= 1 && low * d <= n < high * d
    ensures low <= n / d < high
  {
    if n / d < low {
      MulMonotone(n / d + 1, low, d);
    }
    if high <= n / d {
      MulMonotone(high, n / d, d);
    }
  }

  lemma ProductSign(x: real, y: real)
    requires x >= 0.0 && y >= 0.0
    ensures x * y >= 0.0
  {
  }

  lemma FactorSign(x: real, y: real)
    requires y > 0.0
    ensures x * y < 0.0 ==> x < 0.0
    ensures x * y >= 0.0 ==> x >= 0.0
  {
  }
}
