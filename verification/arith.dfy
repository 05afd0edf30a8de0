/** Facts about real division that the percentage and mean computations rely on. */
module RealArith {

  lemma DivNonNegative(x: real, y: real)
    requires x >= 0.0 && y > 0.0
    ensures x / y >= 0.0
  {
  }

  lemma DivEqual(a: real, b: real, n: real)
    requires a == b && n != 0.0
    ensures a / n == b / n
  {
  }

  /** Dividing equal non-negative numbers by the same positive number. */
  lemma DivEqualNonNegative(a: real, b: real, n: real)
    requires a == b && b >= 0.0 && n > 0.0
    ensures a / n == b / n && b / n >= 0.0
  {
  }

  /** Two shares of a positive whole add up to 100 percent. */
  lemma SharesAddUp(a: real, b: real)
    requires a + b > 0.0
    ensures a / (a + b) * 100.0 + b / (a + b) * 100.0 == 100.0
  {
    assert a / (a + b) + b / (a + b) == 1.0;
  }

  /** Multiplying a percentage back by its base gives the part times 100. */
  lemma PercentTimesBase(a: real, t: real)
    requires t > 0.0
    ensures a / t * 100.0 * t == a * 100.0
  {
  }

  /** A ratio above a bound, for a positive base, is a product above the bound. */
  lemma PercentAbove(top: real, sum: real, bound: real)
    requires sum > 0.0
    ensures top / sum * 100.0 > bound <==> top * 100.0 > bound * sum
  {
    PercentTimesBase(top, sum);
    var p := top / sum * 100.0;
    if p > bound {
      assert p * sum > bound * sum;
    } else {
      assert p * sum <= bound * sum;
    }
  }

  /** A quotient by a positive number is below one exactly when the numerator is below the divisor. */
  lemma QuotientBelowOne(q: real, x: real, n: real)
    requires n > 0.0 && q == x / n
    ensures q < 1.0 <==> x < n
  {
    assert q * n == x;
    if q < 1.0 {
      assert q * n < 1.0 * n;
    } else {
      assert q * n >= 1.0 * n;
    }
  }
}
