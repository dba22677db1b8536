/**
 * Exact stand-ins for the Python floats of the trading code.
 *
 * Every price, amount, percentage and level is a fixed-point integer counted
 * in units of 10^-8 (`One` is 1.0).  A price computed by the code before it is
 * legalised (`ask * (1 - stop / 100)`) is kept exact as a fraction of such
 * units.  Python's `round` rounds half to even, and the `%.4f` re-rendering of
 * `round_price` keeps four decimals, i.e. a multiple of `FourDecimals` units.
 */
module Fixed {

  /** 1.0 in fixed point. */
  const One: int := 100_000_000

  /** The unit of the fourth decimal place (0.0001). */
  const FourDecimals: int := 10_000

  /** A minimum price increment of a market rule; the broker only publishes positive ones. */
  type Tick = t: int | t > 0 witness 1

  /** The exact value `num / den` (in fixed-point units). */
  datatype Exact = Exact(num: int, den: int)

  type Rational = q: Exact | q.den > 0 witness Exact(0, 1)

  function Abs(x: int): nat
  {
    if x < 0 then -x else x
  }

  /** `edge <= |q|`, without leaving the integers. */
  predicate AtMostAbs(edge: int, q: Rational)
  {
    edge * q.den <= Abs(q.num)
  }

  /**
   * Python's `round(n / d)` in exact arithmetic: the nearest integer, and of
   * two equally near ones the even one.
   */
  function RoundHalfEven(n: int, d: int): (k: int)
    requires d > 0
    ensures -d <= 2 * (n - k * d) <= d
    ensures (2 * (n - k * d) == d || 2 * (n - k * d) == -d) ==> k % 2 == 0
  {
    var q, r := n / d, n % d;
    assert n - q * d == r;
    if 2 * r < d then q
    else if 2 * r > d then q + 1
    else if q % 2 == 0 then q
    else q + 1
  }

  /** Multiplying by a positive number preserves order. */
  lemma MulMonotone(a: int, b: int, d: int)
    requires d > 0 && a <= b
    ensures a * d <= b * d
  {
    var c := b - a;
    assert b * d == a * d + c * d;
    assert c * d >= 0;
  }

  /** A multiple of `d` no larger than `d` in size is -d, 0 or d. */
  lemma SmallMultiple(m: int, d: int)
    requires d > 0 && -d <= m * d <= d
    ensures -1 <= m <= 1
  {
    if m >= 2 {
      MulMonotone(2, m, d);
    } else if m <= -2 {
      MulMonotone(m, -2, d);
    }
  }

  /** Two candidates within d/2 of n/d, even when tied, are the same integer. */
  lemma NearestUnique(n: int, d: int, k: int, j: int)
    requires d > 0
    requires -d <= 2 * (n - k * d) <= d
    requires (2 * (n - k * d) == d || 2 * (n - k * d) == -d) ==> k % 2 == 0
    requires -d <= 2 * (n - j * d) <= d
    requires (2 * (n - j * d) == d || 2 * (n - j * d) == -d) ==> j % 2 == 0
    ensures k == j
  {
    // Two such candidates are neighbours; then both are ties, and only one
    // of two neighbours is even.
    var kd, jd := k * d, j * d;
    var diff := k - j;
    assert diff * d == kd - jd;
    SmallMultiple(diff, d);
  }

  /** The two properties of `RoundHalfEven` single out its result. */
  lemma RoundHalfEvenUnique(n: int, d: int, k: int)
    requires d > 0
    requires -d <= 2 * (n - k * d) <= d
    requires (2 * (n - k * d) == d || 2 * (n - k * d) == -d) ==> k % 2 == 0
    ensures k == RoundHalfEven(n, d)
  {
    NearestUnique(n, d, k, RoundHalfEven(n, d));
  }

  /** Rounding a whole multiple gives the multiplier back. */
  lemma RoundHalfEvenExact(m: int, d: int)
    requires d > 0
    ensures RoundHalfEven(m * d, d) == m
  {
    RoundHalfEvenUnique(m * d, d, m);
  }

  /** Rounding commutes with negation (ties go to the even neighbour on both sides). */
  lemma RoundHalfEvenNegate(n: int, d: int)
    requires d > 0
    ensures RoundHalfEven(-n, d) == -RoundHalfEven(n, d)
  {
    var k := RoundHalfEven(n, d);
    assert (-k) * d == -(k * d);
    RoundHalfEvenUnique(-n, d, -k);
  }

  /** Two numerators at least d/2 apart cannot round out of order. */
  lemma NearestOrdered(n1: int, n2: int, d: int, k1: int, k2: int)
    requires d > 0 && n1 < n2
    requires -d <= 2 * (n1 - k1 * d) <= d
    requires -d <= 2 * (n2 - k2 * d) <= d
    ensures k1 <= k2
  {
    if k1 > k2 {
      MulMonotone(k2 + 1, k1, d);
    }
  }

  /** Rounding is monotone in the numerator. */
  lemma RoundHalfEvenMonotone(n1: int, n2: int, d: int)
    requires d > 0 && n1 <= n2
    ensures RoundHalfEven(n1, d) <= RoundHalfEven(n2, d)
  {
    if n1 < n2 {
      NearestOrdered(n1, n2, d, RoundHalfEven(n1, d), RoundHalfEven(n2, d));
    }
  }

  /** Dividing a multiple of `d` by `d` is exact. */
  lemma MulDivExact(k: int, d: int)
    requires d > 0
    ensures (k * d) / d == k && (k * d) % d == 0
  {
    var q, r := (k * d) / d, (k * d) % d;
    assert (k - q) * d == r;
    SmallMultiple(k - q, d);
  }

  /** The `float("%.4f" % x)` step: keep four decimals, rounding half to even. */
  function Quantise(x: int): (r: int)
  {
    RoundHalfEven(x, FourDecimals) * FourDecimals
  }

  /** A value that already has four decimals passes the re-quantisation unchanged. */
  lemma QuantiseExact(x: int)
    requires x % FourDecimals == 0
    ensures Quantise(x) == x
  {
    RoundHalfEvenExact(x / FourDecimals, FourDecimals);
  }

  /**
   * `round_price(price, min_tick)`: snap to the nearest multiple of the tick
   * (`round(price / min_tick) * min_tick`), then keep four decimals.
   */
  function RoundPrice(price: Rational, tick: Tick): (r: int)
    ensures r % FourDecimals == 0
  {
    Quantise(RoundHalfEven(price.num, price.den * tick) * tick)
  }

  /**
   * For a tick with at most four decimals the re-quantisation changes nothing:
   * the result is the multiple of the tick nearest to the price.
   */
  lemma RoundPriceNearest(price: Rational, tick: Tick)
    requires tick % FourDecimals == 0
    ensures RoundPrice(price, tick) % tick == 0
    ensures -(tick * price.den) <= 2 * (price.num - RoundPrice(price, tick) * price.den) <= tick * price.den
  {
    var d := price.den * tick;
    var k := RoundHalfEven(price.num, d);
    var kt := k * tick;
    var t4 := tick / FourDecimals;
    assert kt == (k * t4) * FourDecimals;
    MulDivExact(k * t4, FourDecimals);
    QuantiseExact(kt);
    var r := RoundPrice(price, tick);
    assert r == kt;
    MulDivExact(k, tick);
    assert k * d == kt * price.den;
    assert -d <= 2 * (price.num - k * d) <= d;
    assert d == tick * price.den;
  }

  /** Legalising an already legal price changes nothing. */
  lemma RoundPriceIdempotent(price: Rational, tick: Tick)
    requires tick % FourDecimals == 0
    ensures RoundPrice(Exact(RoundPrice(price, tick), 1), tick) == RoundPrice(price, tick)
  {
    RoundPriceNearest(price, tick);
    var r := RoundPrice(price, tick);
    var m := r / tick;
    assert r == m * tick;
    RoundHalfEvenExact(m, 1 * tick);
    assert RoundHalfEven(r, 1 * tick) == m;
  }

  /** Keeping four decimals is symmetric in the sign. */
  lemma QuantiseNegate(x: int)
    ensures Quantise(-x) == -Quantise(x)
  {
    RoundHalfEvenNegate(x, FourDecimals);
  }

  /** Legalising is symmetric in the sign of the price. */
  lemma RoundPriceNegate(price: Rational, tick: Tick)
    ensures RoundPrice(Exact(-price.num, price.den), tick) == -RoundPrice(price, tick)
  {
    var d := price.den * tick;
    var k := RoundHalfEven(price.num, d);
    RoundHalfEvenNegate(price.num, d);
    var kt := k * tick;
    assert (-k) * tick == -kt;
    QuantiseNegate(kt);
  }

  /** Legalising preserves the order of prices that share a denominator. */
  lemma RoundPriceMonotone(n1: int, n2: int, den: int, tick: Tick)
    requires den > 0 && n1 <= n2
    ensures RoundPrice(Exact(n1, den), tick) <= RoundPrice(Exact(n2, den), tick)
  {
    RoundHalfEvenMonotone(n1, n2, den * tick);
    var k1, k2 := RoundHalfEven(n1, den * tick), RoundHalfEven(n2, den * tick);
    assert k1 * tick <= k2 * tick;
    RoundHalfEvenMonotone(k1 * tick, k2 * tick, FourDecimals);
  }

  /** 1.888 with a 0.01 tick is 1.89. */
  lemma RoundPriceUpExample()
    ensures RoundPrice(Exact(188_800_000, 1), 1_000_000) == 189_000_000
  {
    assert RoundHalfEven(188_800_000, 1_000_000) == 189;
    QuantiseExact(189_000_000);
  }

  /** 188 ticks of 0.01 give exactly 1.88, with no binary residue. */
  lemma RoundPriceResidueExample()
    ensures RoundPrice(Exact(188 * 1_000_000, 1), 1_000_000) == 188_000_000
  {
    RoundHalfEvenExact(188, 1_000_000);
    QuantiseExact(188_000_000);
  }
}
