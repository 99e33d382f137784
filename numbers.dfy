/** Python's `round(x, ndigits)` on reals: decimal rounding with ties to the even neighbour. */
module Numbers {

  /** The integer nearest to `y`; of two equally near, the even one. */
  function NearestEven(y: real): (n: int)
    ensures -0.5 <= n as real - y <= 0.5
    ensures (n as real - y == 0.5 || n as real - y == -0.5) ==> n % 2 == 0
  {
    var f := y.Floor;
    if y - f as real < 0.5 then f
    else if y - f as real > 0.5 then f + 1
    else if f % 2 == 0 then f
    else f + 1
  }

  /** An integer is its own nearest integer. */
  lemma NearestEvenInteger(k: int)
    ensures NearestEven(k as real) == k
  {
  }

  /**
   * `round(x, 4)` on the exact value of `x`: the multiple of 0.0001 nearest to `x`,
   * of two equally near ones the one with an even numerator.
   */
  function Round4(x: real): (r: real)
    ensures r * 10000.0 == NearestEven(x * 10000.0) as real
    ensures -0.00005 <= r - x <= 0.00005
  {
    NearestEven(x * 10000.0) as real / 10000.0
  }

  /** `round(x, 2)`: the multiple of 0.01 nearest to `x`, ties to the even numerator. */
  function Round2(x: real): (r: real)
    ensures r * 100.0 == NearestEven(x * 100.0) as real
    ensures -0.005 <= r - x <= 0.005
  {
    NearestEven(x * 100.0) as real / 100.0
  }

  /** Rounding twice is rounding once. */
  lemma Round4Idempotent(x: real)
    ensures Round4(Round4(x)) == Round4(x)
  {
    NearestEvenInteger(NearestEven(x * 10000.0));
  }

  lemma Round2Idempotent(x: real)
    ensures Round2(Round2(x)) == Round2(x)
  {
    NearestEvenInteger(NearestEven(x * 100.0));
  }

  /** Zero rounds to zero. */
  lemma Round2Zero()
    ensures Round2(0.0) == 0.0
  {
    NearestEvenInteger(0);
  }

  /** A value in [0, 1] rounds into [0, 1]. */
  lemma Round4Unit(x: real)
    requires 0.0 <= x <= 1.0
    ensures 0.0 <= Round4(x) <= 1.0
  {
    var n := NearestEven(x * 10000.0);
    assert 0 <= n <= 10000;
  }

  /** A total of at most `n` values in [0, 1], divided by their number, lies in [0, 1]. */
  lemma MeanUnit(total: real, n: nat)
    requires n >= 1 && 0.0 <= total <= n as real
    ensures 0.0 <= total / n as real <= 1.0
  {
    var q := total / n as real;
    assert q * n as real == total;
    assert q * n as real <= 1.0 * n as real;
  }
}
