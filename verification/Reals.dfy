/**
 Products and quotients of reals as functions, so that proofs can treat them as such, and their few laws.
 */
module Reals {
  function Times(a: real, b: real): real {
    a * b
  }

  function Ratio(a: real, b: real): real
    requires b != 0.0
  {
    a / b
  }

  lemma TimesPositive(a: real, b: real)
    requires a > 0.0 && b > 0.0
    ensures Times(a, b) > 0.0
  {
  }

  lemma TimesBetween(k: real, d: real)
    requires 0.0 <= k <= 1.0 && d >= 0.0
    ensures 0.0 <= Times(k, d) <= d
  {
    assert k * d >= 0.0 && (1.0 - k) * d >= 0.0;
    assert (1.0 - k) * d == d - k * d;
  }

  lemma TimesKeepsOrder(a: real, b: real, d: real)
    requires d > 0.0
    ensures a < b <==> Times(a, d) < Times(b, d)
    ensures a == b <==> Times(a, d) == Times(b, d)
  {
    assert (b - a) * d == b * d - a * d;
    if a < b {
      assert (b - a) * d > 0.0;
    } else if b < a {
      assert (a - b) * d > 0.0;
    }
  }

  lemma TimesAdds(a: real, b: real, d: real)
    ensures Times(a + b, d) == Times(a, d) + Times(b, d)
  {
  }

  lemma TimesAssociates(a: real, b: real, d: real)
    ensures Times(a, Times(b, d)) == Times(Times(a, b), d)
    ensures Times(a, b) == Times(b, a)
  {
  }

  lemma TimesUnits(a: real)
    ensures Times(1.0, a) == a && Times(0.0, a) == 0.0 && Times(a, 1.0) == a && Times(a, 0.0) == 0.0
  {
  }

  lemma RatioTimes(a: real, b: real)
    requires b != 0.0
    ensures Times(Ratio(a, b), b) == a
  {
  }

  /** A quotient is the only number whose product with the divisor is the dividend. */
  lemma RatioIsUnique(q: real, a: real, b: real)
    requires b != 0.0 && Times(q, b) == a
    ensures q == Ratio(a, b)
  {
  }

  lemma RatioBetween(a: real, b: real)
    requires 0.0 < a < b
    ensures 0.0 < Ratio(a, b) < 1.0
  {
    assert a / b > 0.0 && (b - a) / b > 0.0;
    assert (b - a) / b == b / b - a / b && b / b == 1.0;
  }

  lemma RatioWithin(a: real, b: real)
    requires b > 0.0 && -b <= a <= b
    ensures -1.0 <= Ratio(a, b) <= 1.0
  {
  }

  lemma RatioLaws(a: real, b: real, x: real)
    requires a != 0.0 && b != 0.0
    ensures Ratio(a, b) != 0.0
    ensures Times(Ratio(a, b), Times(Ratio(b, a), x)) == x
    ensures Ratio(a, a) == 1.0
  {
    assert Ratio(a, b) * b == a;
    assert Ratio(b, a) * a == b;
    assert Ratio(a, b) * Ratio(b, a) == 1.0 by {
      assert (Ratio(a, b) * Ratio(b, a)) * a == Ratio(a, b) * (Ratio(b, a) * a);
    }
    assert Ratio(a, b) * (Ratio(b, a) * x) == (Ratio(a, b) * Ratio(b, a)) * x;
  }

  /** A step part of the way from one value to another stays between them. */
  lemma PartOfTheWay(x: real, z: real, k: real, low: real, high: real)
    requires 0.0 <= k <= 1.0 && low <= x <= high && low <= z <= high
    ensures low <= x + Times(k, z - x) <= high
  {
    if z >= x {
      TimesBetween(k, z - x);
    } else {
      TimesBetween(k, x - z);
      assert k * (z - x) == -(k * (x - z));
    }
  }
}
