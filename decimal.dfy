/**
 * Exact decimal arithmetic. Money is an integer number of cents (the two-decimal scale of the amounts),
 * and every percentage is an integer number of hundredths of a percent ("basis points").
 */
module Decimal {

  /**
   * `BigDecimal.divide(d, scale, RoundingMode.HALF_UP)` on the integer scale of the result:
   * the integer nearest to n / d, a tie rounding away from zero.
   */
  function HalfUpDiv(n: int, d: int): (q: int)
    requires d > 0
    ensures n >= 0 ==> q >= 0 && 2 * (d * q) - d <= 2 * n < 2 * (d * q) + d
    ensures n < 0 ==> q <= 0 && 2 * (d * q) - d < 2 * n <= 2 * (d * q) + d
    ensures n == 0 ==> q == 0
  {
    if n >= 0 then
      var q := (2 * n + d) / (2 * d);
      DivBounds(2 * n + d, 2 * d);
      q
    else
      var q := (2 * -n + d) / (2 * d);
      DivBounds(2 * -n + d, 2 * d);
      -q
  }

  /** Dividing an exact multiple needs no rounding. */
  lemma HalfUpDivExact(k: int, d: int)
    requires d > 0
    ensures HalfUpDiv(d * k, d) == k
  {
    var q := HalfUpDiv(d * k, d);
    if q > k {
      MulLe(d, k + 1, q);
    } else if q < k {
      MulLe(d, q + 1, k);
    }
  }

  lemma DivBounds(a: int, b: int)
    requires a >= 0 && b > 0
    ensures a / b >= 0
    ensures b * (a / b) <= a < b * (a / b) + b
  {
  }

  /**
   * A ratio as a percentage with two decimals: `Math.round(num * 100.0 / den * 100.0) / 100.0` and
   * `BigDecimal.divide(den, 4, HALF_UP).multiply(100)` both yield round-half-up(num / den * 10000)
   * hundredths of a percent.
   */
  function PercentBp(num: int, den: int): (bp: int)
    requires den > 0
    ensures num >= 0 ==> bp >= 0
    ensures num <= 0 ==> bp <= 0
    ensures 0 <= num <= den ==> 0 <= bp <= 10000
    ensures num == den ==> bp == 10000
    ensures num == 0 ==> bp == 0
  {
    var bp := HalfUpDiv(num * 10000, den);
    PercentRange(num, den, bp);
    bp
  }

  lemma PercentRange(num: int, den: int, bp: int)
    requires den > 0
    requires num >= 0 ==> bp >= 0 && 2 * (den * bp) - den <= 2 * (num * 10000) < 2 * (den * bp) + den
    ensures 0 <= num <= den ==> bp <= 10000
    ensures num == den ==> bp == 10000
    ensures num == 0 ==> bp == 0
  {
    if 0 <= num <= den && bp > 10000 {
      MulLe(den, 10001, bp);
    }
    if num == den && bp < 10000 {
      MulLe(den, bp, 9999);
    }
    if num == 0 && bp > 0 {
      MulLe(den, 1, bp);
    }
  }

  /** `BigDecimal.divide(count, 2, HALF_UP)` of a non-negative total: the average, in cents. */
  function Average(total: int, count: int): (avg: int)
    requires total >= 0 && count > 0
    ensures avg >= 0
    ensures 2 * (count * avg) - count <= 2 * total < 2 * (count * avg) + count
  {
    HalfUpDiv(total, count)
  }

  /** An average of values none of which exceeds `hi` does not exceed `hi` either. */
  lemma AverageAtMost(total: int, count: int, hi: int)
    requires total >= 0 && count > 0 && hi >= 0 && total <= count * hi
    ensures Average(total, count) <= hi
  {
    var avg := Average(total, count);
    if avg > hi {
      MulLe(count, hi + 1, avg);
    }
  }

  lemma MulLe(d: int, a: int, b: int)
    requires d >= 0 && a <= b
    ensures d * a <= d * b
  {
    assert d * b - d * a == d * (b - a);
  }

  /** Sum of a sequence of integers. */
  function Sum(s: seq<int>): int {
    if s == [] then 0 else Sum(s[..|s| - 1]) + s[|s| - 1]
  }

  lemma {:induction false} SumConcat(a: seq<int>, b: seq<int>)
    ensures Sum(a + b) == Sum(a) + Sum(b)
    decreases |b|
  {
    if b != [] {
      var ab := a + b;
      assert ab[..|ab| - 1] == a + b[..|b| - 1];
      assert ab[|ab| - 1] == b[|b| - 1];
      SumConcat(a, b[..|b| - 1]);
      assert Sum(ab) == Sum(ab[..|ab| - 1]) + ab[|ab| - 1];
    } else {
      assert a + b == a;
    }
  }

  /** A non-negative summand is at most the sum of non-negative summands. */
  lemma {:induction false} SummandAtMost(s: seq<int>, i: int)
    requires forall j :: 0 <= j < |s| ==> s[j] >= 0
    requires 0 <= i < |s|
    ensures 0 <= s[i] <= Sum(s)
  {
    var front := s[..|s| - 1];
    SumNonNegative(front);
    if i < |s| - 1 {
      SummandAtMost(front, i);
    }
  }

  lemma {:induction false} SumNonNegative(s: seq<int>)
    requires forall j :: 0 <= j < |s| ==> s[j] >= 0
    ensures Sum(s) >= 0
  {
    if s != [] {
      SumNonNegative(s[..|s| - 1]);
    }
  }
}
