/**
 Decimal rounding as the ledger uses it: `roundEx` (half away from zero, with a small bias), `roundUp` and
 `roundDown`.  Floating point is modelled by exact reals.  `RoundUnits(x, n)` is the integer count of 10^-n units
 that `roundEx(x, n)` stands for; the ledger keeps money as such counts.
 */
module Rounding {
  import opened Reals


  /** The decimal scale factor. */
  function Pow10(n: nat): (f: real)
    ensures f >= 1.0
  {
    if n == 0 then 1.0 else 10.0 * Pow10(n - 1)
  }

  const EPSILON := 0.0000000001

  function Ceiling(x: real): int {
    -((-x).Floor)
  }

  function Abs(n: int): nat {
    if n < 0 then -n else n
  }

  /** Rounding of a value that is already scaled: half away from zero, and `bias` below half as well. */
  function HalfAway(y: real, bias: real): int {
    if y >= 0.0 then (y + 0.5 + bias).Floor else Ceiling(y - 0.5 - bias)
  }

  function Scale(x: real, n: nat): real {
    x * Pow10(n)
  }

  /** How far below half a unit `roundEx` already rounds away from zero. */
  function Bias(n: nat): real {
    EPSILON * Pow10(n)
  }

  /** The numerator of `roundEx(x, n)` over 10^n. */
  function RoundUnits(x: real, n: nat): int {
    HalfAway(Scale(x, n), Bias(n))
  }

  /** The amount that `k` units of 10^-n stand for. */
  function Value(k: int, n: nat): real {
    k as real / Pow10(n)
  }

  function RoundEx(x: real, ndigits: int): real {
    if ndigits < 0 then x else Value(RoundUnits(x, ndigits), ndigits)
  }

  function Scaled(x: real, ndigits: int): real {
    if ndigits < 0 then x / Pow10(Abs(ndigits)) else Scale(x, ndigits)
  }

  function Unscaled(y: int, ndigits: int): real {
    if ndigits < 0 then y as real * Pow10(Abs(ndigits)) else Value(y, ndigits)
  }

  /** The integer that `roundUp` scales back: one step away from zero even when the value is whole. */
  function UpUnits(y: real): int {
    if y >= 0.0 then (y + 1.0).Floor else Ceiling(y - 1.0)
  }

  /** The integer that `roundDown` scales back: truncation toward zero. */
  function DownUnits(y: real): int {
    if y >= 0.0 then y.Floor else Ceiling(y)
  }

  function RoundUp(x: real, ndigits: int): real {
    Unscaled(UpUnits(Scaled(x, ndigits)), ndigits)
  }

  function RoundDown(x: real, ndigits: int): real {
    Unscaled(DownUnits(Scaled(x, ndigits)), ndigits)
  }

  /** The loop both `roundUp` and `roundDown` build their factor with. */
  method DecimalFactor(ndigits: int) returns (f: real)
    ensures f == Pow10(Abs(ndigits))
  {
    f := 1.0;
    var i := Abs(ndigits);
    while i > 0
      invariant 0 <= i <= Abs(ndigits)
      invariant f == Pow10(Abs(ndigits) - i)
    {
      f := f * 10.0;
      i := i - 1;
    }
  }

  method ComputeRoundUp(number: real, ndigits: int) returns (r: real)
    ensures r == RoundUp(number, ndigits)
  {
    var f := DecimalFactor(ndigits);
    r := if ndigits < 0 then number / f else number * f;
    assert r == Scaled(number, ndigits);
    hide Pow10, Scaled;
    if r >= 0.0 {
      r := (r + 1.0).Floor as real;
    } else {
      r := Ceiling(r - 1.0) as real;
    }
    assert r == UpUnits(Scaled(number, ndigits)) as real;
    r := if ndigits < 0 then r * f else r / f;
  }

  method ComputeRoundDown(number: real, ndigits: int) returns (r: real)
    ensures r == RoundDown(number, ndigits)
  {
    var f := DecimalFactor(ndigits);
    r := if ndigits < 0 then number / f else number * f;
    assert r == Scaled(number, ndigits);
    hide Pow10, Scaled;
    if r >= 0.0 {
      r := r.Floor as real;
    } else {
      r := Ceiling(r) as real;
    }
    assert r == DownUnits(Scaled(number, ndigits)) as real;
    r := if ndigits < 0 then r * f else r / f;
  }

  // ---------------------------------------------------------------------------------------------------------
  // The grid of multiples of 10^-n

  lemma ScaledValue(k: int, n: nat)
    ensures Scale(Value(k, n), n) == k as real
  {
    var f := Pow10(n);
    assert f > 0.0;
  }

  lemma SignOfScaled(x: real, n: nat)
    ensures x >= 0.0 <==> Scale(x, n) >= 0.0
  {
  }

  lemma ScaledMonotone(x: real, y: real, n: nat)
    requires x <= y
    ensures Scale(x, n) <= Scale(y, n)
  {
    var f := Pow10(n);
    assert (y - x) * f >= 0.0;
  }

  lemma ScaledSum(x: real, g: int, n: nat)
    ensures Scale(x + Value(g, n), n) == Scale(x, n) + g as real
  {
    var f, v := Pow10(n), Value(g, n);
    ScaledValue(g, n);
    assert (x + v) * f == x * f + v * f;
  }

  lemma {:induction false} Pow10Monotone(m: nat, n: nat)
    requires m <= n
    ensures Pow10(m) <= Pow10(n)
    decreases n
  {
    if m < n {
      Pow10Monotone(m, n - 1);
    }
  }

  lemma {:induction false} Pow10Whole(n: nat)
    ensures Pow10(n) == Pow10(n).Floor as real
  {
    if n > 0 {
      Pow10Whole(n - 1);
      assert Pow10(n) == (10 * Pow10(n - 1).Floor) as real;
    }
  }

  lemma Pow10Of9And10()
    ensures Pow10(9) == 1000000000.0
    ensures Pow10(10) == 10000000000.0
  {
    assert Pow10(3) == 1000.0;
    assert Pow10(6) == 1000000.0;
    assert Pow10(9) == 1000000000.0;
  }

  lemma BiasBounds(n: nat)
    ensures 0.0 < Bias(n)
    ensures n <= 9 ==> Bias(n) < 0.5
    ensures n >= 10 ==> Bias(n) >= 1.0
  {
    Pow10Of9And10();
    if n <= 9 {
      Pow10Monotone(n, 9);
    } else {
      Pow10Monotone(10, n);
    }
  }

  lemma RoundGridValue(k: int, n: nat)
    requires n <= 9
    ensures RoundUnits(Value(k, n), n) == k
    ensures RoundEx(Value(k, n), n) == Value(k, n)
  {
    hide Scale, Bias;
    BiasBounds(n);
    ScaledValue(k, n);
  }

  /** Rounding leaves every value of the grid alone exactly while the bias is below half a unit. */
  lemma RoundingFixesGrid(n: nat)
    ensures (forall k: int :: RoundUnits(Value(k, n), n) == k) <==> n <= 9
  {
    hide Scale, Bias;
    BiasBounds(n);
    if n <= 9 {
      forall k: int
        ensures RoundUnits(Value(k, n), n) == k
      {
        RoundGridValue(k, n);
      }
    } else {
      ScaledValue(0, n);
      assert RoundUnits(Value(0, n), n) >= 1;
    }
  }

  lemma HalfAwayShift(y: real, g: int, bias: real)
    ensures (y >= 0.0 <==> y + g as real >= 0.0) ==> HalfAway(y + g as real, bias) == HalfAway(y, bias) + g
    ensures y < 0.0 && y + g as real >= 0.0 ==>
              (HalfAway(y + g as real, bias) == HalfAway(y, bias) + g
               <==> (y + 0.5 + bias).Floor == Ceiling(y - 0.5 - bias))
  {
    assert (y + g as real + 0.5 + bias).Floor == (y + 0.5 + bias).Floor + g;
    assert (-(y + g as real - 0.5 - bias)).Floor == (-(y - 0.5 - bias)).Floor - g;
  }

  /** Adding a grid value commutes with rounding when it does not move the value across zero. */
  lemma RoundShift(x: real, g: int, n: nat)
    requires x >= 0.0 <==> x + Value(g, n) >= 0.0
    ensures RoundUnits(x + Value(g, n), n) == RoundUnits(x, n) + g
  {
    hide Scale, Bias, Value;
    ScaledSum(x, g, n);
    SignOfScaled(x, n);
    SignOfScaled(x + Value(g, n), n);
    HalfAwayShift(Scale(x, n), g, Bias(n));
  }

  /** The half below the integer `k` is within the bias of the scaled value. */
  predicate NearHalf(x: real, n: nat, k: int) {
    -Bias(n) <= Scale(x, n) - (k as real - 0.5) <= Bias(n)
  }

  lemma IntegersBetween(k: int, z: real, b: real)
    ensures Within(k, z, b) <==> Ceiling(z - b) <= k <= (z + b).Floor
  {
    assert k as real <= z + b <==> k <= (z + b).Floor;
    assert -k as real <= -(z - b) <==> -k <= (-(z - b)).Floor;
  }

  /** The largest integer up to `z + b` is the one before the smallest from `z - b` on exactly when none is between. */
  lemma NoIntegerBetween(z: real, b: real)
    requires b >= 0.0
    ensures (z + b).Floor == Ceiling(z - b) - 1 <==> forall k: int :: !Within(k, z, b)
  {
    var low, high := Ceiling(z - b), (z + b).Floor;
    CeilingBelow(z - b, high + 1);
    forall k: int
      ensures Within(k, z, b) <==> low <= k <= high
    {
      IntegersBetween(k, z, b);
    }
    hide Within, Ceiling;
    if low <= high {
      assert Within(low, z, b);
    }
  }

  lemma CeilingBelow(x: real, k: int)
    requires x <= k as real
    ensures Ceiling(x) <= k
  {
  }

  predicate Within(k: int, z: real, b: real) {
    z - b <= k as real <= z + b
  }

  /** Across zero the shift commutes exactly when no half lies within the bias of the scaled value. */
  lemma RoundShiftAcrossZero(x: real, g: int, n: nat)
    requires x < 0.0 && x + Value(g, n) >= 0.0
    ensures RoundUnits(x + Value(g, n), n) == RoundUnits(x, n) + g <==> forall k: int :: !NearHalf(x, n, k)
  {
    BiasBounds(n);
    hide Scale, Bias, Value;
    ScaledSum(x, g, n);
    SignOfScaled(x, n);
    SignOfScaled(x + Value(g, n), n);
    var y, b := Scale(x, n), Bias(n);
    var z := y + 0.5;
    HalfAwayShift(y, g, b);
    CeilingShift(y - 0.5 - b, z - b);
    NoIntegerBetween(z, b);
    HalvesAndIntegers(x, n, z, b);
    assert RoundUnits(x + Value(g, n), n) == RoundUnits(x, n) + g <==> (z + b).Floor == Ceiling(z - b) - 1;
    hide HalfAway, Ceiling, NearHalf, Within;
  }

  lemma HalvesAndIntegers(x: real, n: nat, z: real, b: real)
    requires z == Scale(x, n) + 0.5 && b == Bias(n)
    ensures forall k: int :: NearHalf(x, n, k) <==> Within(k, z, b)
  {
    hide Scale, Bias;
  }

  lemma CeilingShift(x: real, next: real)
    requires next == x + 1.0
    ensures Ceiling(next) == Ceiling(x) + 1
  {
    assert (-x).Floor == (-next + 1.0).Floor;
  }

  /** Half a unit below zero, moved up by one, is such a value. */
  lemma HalfAcrossZero()
    ensures RoundUnits(-0.5, 0) == -1 && RoundUnits(-0.5 + Value(1, 0), 0) == 1 && NearHalf(-0.5, 0, 0)
  {
  }

  /** Rounding is odd, so an amount subtracted from a running total rounds to the negated amount. */
  lemma RoundOdd(x: real, n: nat)
    requires n <= 9
    ensures RoundUnits(-x, n) == -RoundUnits(x, n)
  {
    BiasBounds(n);
    assert Scale(-x, n) == -Scale(x, n);
    hide Scale, Bias;
    HalfAwayOdd(Scale(x, n), Bias(n));
  }

  /** Rounding is odd on all values exactly for the precisions at which it leaves the grid alone. */
  lemma RoundIsOddExactly(n: nat)
    ensures (forall x: real :: RoundUnits(-x, n) == -RoundUnits(x, n)) <==> n <= 9
  {
    BiasBounds(n);
    if n <= 9 {
      forall x: real
        ensures RoundUnits(-x, n) == -RoundUnits(x, n)
      {
        RoundOdd(x, n);
      }
    } else {
      assert Scale(0.0, n) == 0.0;
      hide Scale, Bias;
      assert RoundUnits(-0.0, n) != -RoundUnits(0.0, n);
    }
  }

  lemma HalfAwayOdd(y: real, bias: real)
    requires 0.0 <= bias < 0.5
    ensures HalfAway(-y, bias) == -HalfAway(y, bias)
  {
    assert -(-y - 0.5 - bias) == y + 0.5 + bias;
    assert -(y - 0.5 - bias) == -y + 0.5 + bias;
  }

  lemma HalfAwayMonotone(y: real, z: real, bias: real)
    requires y <= z && bias >= 0.0
    ensures HalfAway(y, bias) <= HalfAway(z, bias)
    ensures -0.5 - bias <= HalfAway(y, bias) as real - y <= 0.5 + bias
  {
    if z >= 0.0 && y < 0.0 {
      assert (z + 0.5 + bias).Floor >= 0;
      assert (-(y - 0.5 - bias)).Floor >= 0;
    } else if y >= 0.0 {
      assert (y + 0.5 + bias).Floor <= (z + 0.5 + bias).Floor;
    } else {
      assert (-(z - 0.5 - bias)).Floor <= (-(y - 0.5 - bias)).Floor;
    }
  }

  /** Rounding is monotone and never moves a value further than half a unit and the bias. */
  lemma RoundMonotoneAndNear(x: real, y: real, n: nat)
    requires x <= y
    ensures RoundUnits(x, n) <= RoundUnits(y, n)
    ensures -0.5 - Bias(n) <= RoundUnits(x, n) as real - Scale(x, n) <= 0.5 + Bias(n)
  {
    hide Scale, Bias, HalfAway;
    BiasBounds(n);
    ScaledMonotone(x, y, n);
    HalfAwayMonotone(Scale(x, n), Scale(y, n), Bias(n));
  }

  lemma RoundNonNegative(x: real, n: nat)
    requires x >= 0.0
    ensures RoundUnits(x, n) >= 0
  {
    hide Scale, Bias;
    BiasBounds(n);
    SignOfScaled(x, n);
  }

  // ---------------------------------------------------------------------------------------------------------
  // The directed roundings, for every sign and every number of digits

  /** The grid step: 10^-ndigits, also for a negative number of digits. */
  function Unit(ndigits: int): real {
    Unscaled(1, ndigits)
  }

  function Size(x: real): real {
    if x < 0.0 then -x else x
  }

  lemma UnitIsPositive(ndigits: int)
    ensures Unit(ndigits) > 0.0
  {
    var f := Pow10(Abs(ndigits));
    assert 1.0 / f > 0.0;
  }

  lemma InUnits(x: real, k: int, ndigits: int)
    ensures Times(Scaled(x, ndigits), Unit(ndigits)) == x
    ensures Unscaled(k, ndigits) == Times(k as real, Unit(ndigits))
  {
    var f := Pow10(Abs(ndigits));
    if ndigits < 0 {
      assert x / f * f == x;
    } else {
      assert x * f * (1.0 / f) == x;
      assert k as real * (1.0 / f) == k as real / f;
    }
  }

  /** A multiple of the unit. */
  predicate OnGrid(x: real, ndigits: int) {
    Scaled(x, ndigits).Floor as real == Scaled(x, ndigits)
  }

  /** `roundDown` truncates: its result is a multiple of the unit, on the same side of zero, and the last one that is
      not further from zero than the value. */
  lemma RoundDownTruncates(x: real, ndigits: int)
    ensures var r := RoundDown(x, ndigits);
            OnGrid(r, ndigits) && (x >= 0.0 ==> r >= 0.0) && (x < 0.0 ==> r <= 0.0)
            && Size(r) <= Size(x) < Size(r) + Unit(ndigits)
  {
    var y, u := Scaled(x, ndigits), Unit(ndigits);
    var k := DownUnits(y);
    UnitIsPositive(ndigits);
    InUnits(x, k, ndigits);
    OnGridUnits(k, ndigits);
    Spread(y, k as real, u);
    hide Scaled, Unscaled, Unit, Times;
    assert OnGrid(Unscaled(k, ndigits), ndigits);
  }

  /** `roundUp` goes away from zero: its result is a multiple of the unit, on the same side of zero, further out than
      the value by at most one unit, and by exactly one unit for a value that is a multiple already. */
  lemma RoundUpGoesOut(x: real, ndigits: int)
    ensures var r := RoundUp(x, ndigits);
            OnGrid(r, ndigits) && (x >= 0.0 ==> r > 0.0) && (x < 0.0 ==> r < 0.0)
            && Size(x) < Size(r) <= Size(x) + Unit(ndigits)
            && (Size(r) == Size(x) + Unit(ndigits) <==> OnGrid(x, ndigits))
  {
    var y, u := Scaled(x, ndigits), Unit(ndigits);
    var k := UpUnits(y);
    UnitIsPositive(ndigits);
    InUnits(x, k, ndigits);
    OnGridUnits(k, ndigits);
    Spread(y, k as real, u);
    UpSpread(y);
    hide Scaled, Unscaled, Unit, Times, UpUnits;
    assert Size(k as real) == Size(y) + 1.0 <==> y.Floor as real == y;
  }

  lemma UpSpread(y: real)
    ensures var k := UpUnits(y) as real;
            (y >= 0.0 ==> k > 0.0) && (y < 0.0 ==> k < 0.0) && Size(y) < Size(k) <= Size(y) + 1.0
            && (Size(k) == Size(y) + 1.0 <==> y.Floor as real == y)
  {
    if y < 0.0 {
      FloorOfOpposite(y);
      var m := (-(y - 1.0)).Floor;
      assert m as real - 1.0 <= -y < m as real;
    }
  }

  lemma FloorOfOpposite(y: real)
    ensures (-(y - 1.0)).Floor as real == -y + 1.0 <==> y.Floor as real == y
  {
    if y.Floor as real == y {
      assert -y + 1.0 == (1 - y.Floor) as real;
    }
    var m := (-(y - 1.0)).Floor;
    if m as real == -y + 1.0 {
      assert y == (1 - m) as real;
    }
  }

  lemma OnGridUnits(k: int, ndigits: int)
    ensures OnGrid(Unscaled(k, ndigits), ndigits) && Scaled(Unscaled(k, ndigits), ndigits) == k as real
  {
    if ndigits < 0 {
      var f := Pow10(Abs(ndigits));
      ProductOverFactor(k as real, f);
      assert Unscaled(k, ndigits) == k as real * f;
      assert Scaled(k as real * f, ndigits) == k as real * f / f;
      assert Scaled(Unscaled(k, ndigits), ndigits) == k as real;
    } else {
      ScaledValue(k, ndigits);
    }
  }

  lemma ProductOverFactor(a: real, f: real)
    requires f > 0.0
    ensures a * f / f == a
  {
  }

  /** Signs and distances, with the unit multiplied in. */
  lemma Spread(y: real, k: real, u: real)
    requires u > 0.0
    ensures (y >= 0.0 <==> Times(y, u) >= 0.0) && (k >= 0.0 <==> Times(k, u) >= 0.0)
    ensures (k > 0.0 <==> Times(k, u) > 0.0)
    ensures Size(k) <= Size(y) <==> Size(Times(k, u)) <= Size(Times(y, u))
    ensures Size(y) < Size(k) <==> Size(Times(y, u)) < Size(Times(k, u))
    ensures Size(y) < Size(k) + 1.0 <==> Size(Times(y, u)) < Size(Times(k, u)) + u
    ensures Size(k) <= Size(y) + 1.0 <==> Size(Times(k, u)) <= Size(Times(y, u)) + u
    ensures Size(k) == Size(y) + 1.0 <==> Size(Times(k, u)) == Size(Times(y, u)) + u
  {
    SizeTimes(y, u);
    SizeTimes(k, u);
    TimesKeepsOrder(Size(y), Size(k), u);
    TimesKeepsOrder(Size(k), Size(y), u);
    TimesKeepsOrder(Size(y), Size(k) + 1.0, u);
    TimesKeepsOrder(Size(y) + 1.0, Size(k), u);
    TimesAdds(Size(k), 1.0, u);
    TimesAdds(Size(y), 1.0, u);
    TimesUnits(u);
    hide Times;
  }

  lemma SizeTimes(a: real, u: real)
    requires u > 0.0
    ensures Size(Times(a, u)) == Times(Size(a), u)
    ensures (a >= 0.0 <==> Times(a, u) >= 0.0) && (a > 0.0 <==> Times(a, u) > 0.0)
  {
    TimesKeepsOrder(a, 0.0, u);
    TimesKeepsOrder(0.0, a, u);
  }

  lemma ValueNotNegative(k: int, n: nat)
    requires k >= 0
    ensures Value(k, n) >= 0.0 && Value(-k, n) == -Value(k, n)
  {
  }

  /** A running total of non-negative amounts rounds amount by amount, and mirrors when it is kept negated. */
  lemma RunningTotal(x: real, g: int, n: nat)
    requires n <= 9 && x >= 0.0 && g >= 0
    ensures RoundUnits(Value(g, n) + x, n) == g + RoundUnits(x, n) >= 0
    ensures RoundUnits(Value(g, n) + x, n) == -RoundUnits(Value(-g, n) - x, n)
  {
    ValueNotNegative(g, n);
    hide Value, RoundUnits;
    RoundNonNegative(x, n);
    RoundShift(x, g, n);
    RoundOdd(Value(g, n) + x, n);
    assert x + Value(g, n) == Value(g, n) + x;
    assert -(Value(g, n) + x) == Value(-g, n) - x;
  }
}
