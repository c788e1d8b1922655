/**
 Recursive filters over a price series: the Kalman filter and the adaptive moving average, in exact arithmetic.
 */
module Filters {
  import opened Reals

  function Abs(x: real): (r: real)
    ensures r >= 0.0 && (r == x || r == -x)
  {
    if x < 0.0 then -x else x
  }

  ghost predicate Within(s: seq<real>, low: real, high: real) {
    forall i :: 0 <= i < |s| ==> low <= s[i] <= high
  }

  // ---------------------------------------------------------------------------------------------------------
  // Kalman

  datatype Estimate = Estimate(x: real, p: real)

  function Gain(p: real, r: real): real
    requires p + r != 0.0
  {
    Ratio(p, p + r)
  }

  /** The prediction adds the process noise `q` to the error, the correction weighs the measurement `z` by the gain. */
  function Corrected(e: Estimate, q: real, r: real, z: real): Estimate
    requires e.p + q + r != 0.0
  {
    var p := e.p + q;
    var k := Gain(p, r);
    Estimate(e.x + Times(k, z - e.x), Times(1.0 - k, p))
  }

  lemma GainBetween(p: real, r: real)
    requires p > 0.0 && r > 0.0
    ensures 0.0 < Gain(p, r) < 1.0
  {
    RatioBetween(p, p + r);
  }

  lemma CorrectedError(e: Estimate, q: real, r: real, z: real)
    requires e.p > 0.0 && q >= 0.0 && r > 0.0
    ensures Corrected(e, q, r, z).p > 0.0
  {
    GainBetween(e.p + q, r);
    TimesPositive(1.0 - Gain(e.p + q, r), e.p + q);
    hide Gain, Times;
  }

  /** The estimate at bar `i`. */
  function Kalman(s: seq<real>, start: nat, q: real, r: real, i: nat): (e: Estimate)
    requires start <= i < |s| && q >= 0.0 && r > 0.0
    ensures e.p > 0.0
    decreases i
  {
    if i == start then Estimate(s[start], 1.0)
    else
      var e := Kalman(s, start, q, r, i - 1);
      CorrectedError(e, q, r, s[i]);
      Corrected(e, q, r, s[i])
  }

  /** A step of the filter weighs the prediction, whose error has grown by `q`, and the measurement by each other's
      errors, and combines the errors likewise. */
  lemma StepOfKalman(s: seq<real>, start: nat, q: real, r: real, i: nat)
    requires start < i < |s| && q >= 0.0 && r > 0.0
    ensures var e, f := Kalman(s, start, q, r, i - 1), Kalman(s, start, q, r, i);
            && (e.p + q + r) * f.x == r * e.x + (e.p + q) * s[i]
            && (e.p + q + r) * f.p == (e.p + q) * r
    ensures Kalman(s, start, q, r, start) == Estimate(s[start], 1.0)
  {
    hide Corrected;
    CorrectedIs(Kalman(s, start, q, r, i - 1), q, r, s[i]);
  }

  lemma CorrectedIs(e: Estimate, q: real, r: real, z: real)
    requires e.p > 0.0 && q >= 0.0 && r > 0.0
    ensures var f := Corrected(e, q, r, z);
            && (e.p + q + r) * f.x == r * e.x + (e.p + q) * z
            && (e.p + q + r) * f.p == (e.p + q) * r
  {
    var p := e.p + q;
    var k := Gain(p, r);
    var d := p + r;
    assert d * k == p;
    hide Gain;
    assert d * (e.x + k * (z - e.x)) == d * e.x + (d * k) * (z - e.x);
    assert d * ((1.0 - k) * p) == (d - d * k) * p;
  }

  /** The gain is always between 0 and 1, and the estimate never leaves the range of the inputs. */
  lemma {:induction false} KalmanStaysInRange(s: seq<real>, start: nat, q: real, r: real, i: nat, low: real, high: real)
    requires start <= i < |s| && q >= 0.0 && r > 0.0
    requires forall k :: start <= k <= i ==> low <= s[k] <= high
    ensures low <= Kalman(s, start, q, r, i).x <= high
    ensures i > start ==> 0.0 < Gain(Kalman(s, start, q, r, i - 1).p + q, r) < 1.0
    decreases i
  {
    hide Gain, Times;
    if i > start {
      KalmanStaysInRange(s, start, q, r, i - 1, low, high);
      var e := Kalman(s, start, q, r, i - 1);
      GainBetween(e.p + q, r);
      PartOfTheWay(e.x, s[i], Gain(e.p + q, r), low, high);
    }
  }

  function SumOf(s: seq<real>, from: nat, to: nat): real
    requires from <= to <= |s|
  {
    if from == to then 0.0 else SumOf(s, from, to - 1) + s[to - 1]
  }

  /** With d = r + t and error r / d the gain is 1 / (d + 1). */
  lemma SteadyGain(p: real, r: real, d: real)
    requires r > 0.0 && d > 0.0 && p > 0.0 && Times(p, d) == r
    ensures Times(Gain(p, r), d + 1.0) == 1.0
  {
    var g := Ratio(1.0, d + 1.0);
    RatioTimes(1.0, d + 1.0);
    assert Times(g, p + r) == p by {
      assert p + r == p * (d + 1.0);
      assert g * (p * (d + 1.0)) == (g * (d + 1.0)) * p;
    }
    RatioIsUnique(g, p, p + r);
  }

  lemma SteadyStep(e: Estimate, r: real, d: real, z: real)
    requires r > 0.0 && d > 0.0 && e.p > 0.0 && Times(e.p, d) == r
    ensures Times(Corrected(e, 0.0, r, z).p, d + 1.0) == r
    ensures Times(Corrected(e, 0.0, r, z).x, d + 1.0) == Times(e.x, d) + z
  {
    SteadyGain(e.p, r, d);
    SteadyError(Gain(e.p, r), e.p, r, d);
    SteadyEstimate(Gain(e.p, r), e.x, z, d);
    hide Gain, Times;
    assert e.p + 0.0 == e.p;
  }

  lemma SteadyError(k: real, p: real, r: real, d: real)
    requires Times(k, d + 1.0) == 1.0 && Times(p, d) == r
    ensures Times(Times(1.0 - k, p), d + 1.0) == r
  {
    assert ((1.0 - k) * p) * (d + 1.0) == p * (d + 1.0) - (k * (d + 1.0)) * p;
  }

  lemma SteadyEstimate(k: real, x: real, z: real, d: real)
    requires Times(k, d + 1.0) == 1.0
    ensures Times(x + Times(k, z - x), d + 1.0) == Times(x, d) + z
  {
    assert (x + k * (z - x)) * (d + 1.0) == x * (d + 1.0) + (k * (d + 1.0)) * (z - x);
  }

  /** Without process noise the filter is the mean of the inputs in which the first one counts `r` times, and the error
      shrinks with their number. */
  lemma {:induction false} NoiselessKalmanIsMean(s: seq<real>, start: nat, r: real, i: nat)
    requires start <= i < |s| && r > 0.0
    ensures var d := r + (i - start) as real;
            Kalman(s, start, 0.0, r, i).x == (r * s[start] + SumOf(s, start + 1, i + 1)) / d
            && Kalman(s, start, 0.0, r, i).p == r / d
    decreases i
  {
    NoiselessProducts(s, start, r, i);
    var d, e := r + (i - start) as real, Kalman(s, start, 0.0, r, i);
    hide Kalman;
    RatioIsUnique(e.x, Times(r, s[start]) + SumOf(s, start + 1, i + 1), d);
    RatioIsUnique(e.p, r, d);
  }

  lemma {:induction false} NoiselessProducts(s: seq<real>, start: nat, r: real, i: nat)
    requires start <= i < |s| && r > 0.0
    ensures var d, e := r + (i - start) as real, Kalman(s, start, 0.0, r, i);
            Times(e.x, d) == Times(r, s[start]) + SumOf(s, start + 1, i + 1) && Times(e.p, d) == r
    decreases i
  {
    if i == start {
      TimesUnits(r);
      TimesAssociates(r, s[start], 0.0);
    } else {
      NoiselessProducts(s, start, r, i - 1);
      hide Times, Corrected;
      SteadyStep(Kalman(s, start, 0.0, r, i - 1), r, r + (i - 1 - start) as real, s[i]);
      assert r + (i - start) as real == r + (i - 1 - start) as real + 1.0;
    }
  }

  /** The filter commutes with a change of units: it is an average, whatever the noise. */
  lemma {:induction false} KalmanChangesUnits(s: seq<real>, u: seq<real>, a: real, b: real, start: nat, q: real,
                                              r: real, i: nat)
    requires start <= i < |s| == |u| && q >= 0.0 && r > 0.0
    requires forall k :: 0 <= k < |s| ==> u[k] == Times(a, s[k]) + b
    ensures Kalman(u, start, q, r, i).x == Times(a, Kalman(s, start, q, r, i).x) + b
    ensures Kalman(u, start, q, r, i).p == Kalman(s, start, q, r, i).p
    decreases i
  {
    hide Times, Gain;
    if i > start {
      KalmanChangesUnits(s, u, a, b, start, q, r, i - 1);
      var e := Kalman(s, start, q, r, i - 1);
      UnitsOfStep(a, b, Gain(e.p + q, r), e.x, s[i]);
    }
  }

  lemma UnitsOfStep(a: real, b: real, k: real, x: real, z: real)
    ensures Times(a, x) + b + Times(k, (Times(a, z) + b) - (Times(a, x) + b)) == Times(a, x + Times(k, z - x)) + b
  {
    assert (a * z + b) - (a * x + b) == a * (z - x);
    assert k * (a * (z - x)) == a * (k * (z - x));
  }

  /** The loop of the source, into the result buffer. */
  method CalculateKalman(src: array<real>, discard: nat, q: real, r: real, dst: array<real>)
    requires q >= 0.0 && r > 0.0 && dst.Length == src.Length && dst != src
    modifies dst
    ensures forall i :: discard <= i < src.Length ==> dst[i] == Kalman(src[..], discard, q, r, i).x
    ensures forall i :: 0 <= i < src.Length && i < discard ==> dst[i] == old(dst[i])
  {
    var total := src.Length;
    if discard >= total {
      return;
    }
    hide Times, Gain, Kalman;
    ghost var s := src[..];
    KalmanStart(s, discard, q, r);
    var x, p := src[discard], 1.0;
    dst[discard] := x;
    var i := discard + 1;
    while i < total
      invariant discard < i <= total
      invariant Estimate(x, p) == Kalman(s, discard, q, r, i - 1)
      invariant forall k :: discard <= k < i ==> dst[k] == Kalman(s, discard, q, r, k).x
      invariant forall k :: 0 <= k < discard ==> dst[k] == old(dst[k])
    {
      KalmanTurn(s, discard, q, r, i);
      p := p + q;
      var k := Gain(p, r);
      x := x + Times(k, src[i] - x);
      p := Times(1.0 - k, p);
      dst[i] := x;
      i := i + 1;
    }
  }

  lemma KalmanStart(s: seq<real>, start: nat, q: real, r: real)
    requires start < |s| && q >= 0.0 && r > 0.0
    ensures Kalman(s, start, q, r, start) == Estimate(s[start], 1.0)
  {
  }

  lemma KalmanTurn(s: seq<real>, start: nat, q: real, r: real, i: nat)
    requires start < i < |s| && q >= 0.0 && r > 0.0
    ensures var e := Kalman(s, start, q, r, i - 1);
            Kalman(s, start, q, r, i)
            == Estimate(e.x + Times(Gain(e.p + q, r), s[i] - e.x), Times(1.0 - Gain(e.p + q, r), e.p + q))
  {
    hide Times, Gain;
  }

  // ---------------------------------------------------------------------------------------------------------
  // Adaptive moving average

  datatype Smoothing = Smoothing(n: nat, fast: nat, slow: nat)

  datatype Average = Average(ama: real, er: real, vol: real)

  function Speed(n: nat): real {
    Ratio(2.0, (n + 1) as real)
  }

  lemma SpeedBetween(n: nat)
    ensures Speed(n) > 0.0
    ensures n >= 1 ==> Speed(n) <= 1.0
    ensures n >= 2 ==> Speed(n) < 1.0
    ensures n == 0 ==> Speed(n) == 2.0
    ensures n == 1 ==> Speed(n) == 1.0
  {
    var d := (n + 1) as real;
    if n >= 2 {
      RatioBetween(2.0, d);
    }
  }

  /** The speed between the two that an efficiency ratio stands for. */
  function Blend(m: Smoothing, er: real): real {
    Times(Abs(er), Speed(m.fast) - Speed(m.slow)) + Speed(m.slow)
  }

  /** The smoothing constant of an efficiency ratio. */
  function Constant(m: Smoothing, er: real): real {
    Times(Blend(m, er), Blend(m, er))
  }

  function Step(s: seq<real>, i: nat): real
    requires 0 < i < |s|
  {
    Abs(s[i] - s[i - 1])
  }

  function AtMostOne(x: real): real {
    if x > 1.0 then 1.0 else x
  }

  function Clamped(x: real): real {
    if AtMostOne(x) < -1.0 then -1.0 else AtMostOne(x)
  }

  /** The state after bar `i`: the first window compares with the first bar, the later ones roll. */
  function Ama(s: seq<real>, start: nat, m: Smoothing, i: nat): Average
    requires start <= i < |s| && m.n >= 1
    decreases i
  {
    if i == start then Average(s[start], 1.0, 0.0)
    else
      var before := Ama(s, start, m, i - 1);
      var early := i <= start + m.n;
      var vol := if early then before.vol + Step(s, i) else before.vol + Step(s, i) - Step(s, i + 1 - m.n);
      var er := if vol == 0.0 then 1.0
                else if early then AtMostOne(Ratio(s[i] - s[start], vol))
                else Clamped(Ratio(s[i] - s[i - m.n], vol));
      Average(before.ama + Times(Constant(m, er), s[i] - before.ama), er, vol)
  }

  /** The length of the path from bar `from` to bar `to`. */
  function Path(s: seq<real>, from: nat, to: nat): (r: real)
    requires from <= to < |s|
    ensures r >= 0.0
  {
    if from == to then 0.0 else Path(s, from, to - 1) + Step(s, to)
  }

  lemma {:induction false} PathFirst(s: seq<real>, from: nat, to: nat)
    requires from < to < |s|
    ensures Path(s, from, to) == Step(s, from + 1) + Path(s, from + 1, to)
  {
    if from + 1 < to {
      PathFirst(s, from, to - 1);
    }
  }

  /** No path is shorter than the straight way. */
  lemma {:induction false} PathIsLonger(s: seq<real>, from: nat, to: nat)
    requires from <= to < |s|
    ensures Abs(s[to] - s[from]) <= Path(s, from, to)
  {
    if from < to {
      PathIsLonger(s, from, to - 1);
    }
  }

  /** What the volatility really sums up.  Once the window rolls, the very first step stays in it for good, and the
      oldest step of the window is missing instead. */
  lemma {:induction false} VolatilityIsPath(s: seq<real>, start: nat, m: Smoothing, i: nat)
    requires start <= i < |s| && m.n >= 1
    ensures Ama(s, start, m, i).vol
         == if i <= start + m.n then Path(s, start, i) else Step(s, start + 1) + Path(s, i + 1 - m.n, i)
    decreases i
  {
    hide Constant, Clamped, AtMostOne, Times, Ratio, Step;
    if i > start {
      VolatilityIsPath(s, start, m, i - 1);
      if i == start + m.n + 1 {
        PathFirst(s, start, i - 1);
        PathFirst(s, start + 1, i);
      } else if i > start + m.n {
        PathFirst(s, i - m.n, i);
      }
    }
  }

  /** The rolling volatility is that of its window exactly when the step it lost is as long as the step it kept. */
  lemma RollingVolatility(s: seq<real>, start: nat, m: Smoothing, i: nat)
    requires start + m.n < i < |s| && m.n >= 1
    ensures Ama(s, start, m, i).vol == Path(s, i - m.n, i) <==> Step(s, start + 1) == Step(s, i + 1 - m.n)
  {
    hide Ama, Step;
    VolatilityIsPath(s, start, m, i);
    PathFirst(s, i - m.n, i);
  }

  /** Three values are enough to tell them apart: the volatility of the last step of two is that of the first. */
  lemma RollingVolatilityLags()
    ensures var s := [0.0, 1.0, 3.0];
            Ama(s, 0, Smoothing(1, 2, 30), 2).vol == 1.0 && Path(s, 1, 2) == 2.0
  {
    var s := [0.0, 1.0, 3.0];
    hide Ama;
    VolatilityIsPath(s, 0, Smoothing(1, 2, 30), 2);
    assert Path(s, 2, 2) == 0.0 && Path(s, 1, 1) == 0.0;
  }

  /** The volatility is never negative and the efficiency ratio is a ratio. */
  lemma EfficiencyIsRatio(s: seq<real>, start: nat, m: Smoothing, i: nat)
    requires start <= i < |s| && m.n >= 1
    ensures Ama(s, start, m, i).vol >= 0.0 && -1.0 <= Ama(s, start, m, i).er <= 1.0
  {
    hide Constant, Times, Ratio;
    VolatilityIsPath(s, start, m, i);
    if start < i <= start + m.n && Path(s, start, i) != 0.0 {
      PathIsLonger(s, start, i);
      RatioWithin(s[i] - s[start], Path(s, start, i));
    }
  }

  lemma BlendBetween(m: Smoothing, er: real)
    requires -1.0 <= er <= 1.0 && m.fast >= 1 && m.slow >= 1
    ensures 0.0 < Blend(m, er) <= 1.0
  {
    var e, f, g := Abs(er), Speed(m.fast), Speed(m.slow);
    SpeedBetween(m.fast);
    SpeedBetween(m.slow);
    hide Speed, Times;
    PartOfTheWay(g, f, e, if f < g then f else g, 1.0);
  }

  lemma ConstantBetween(m: Smoothing, er: real)
    requires -1.0 <= er <= 1.0 && m.fast >= 1 && m.slow >= 1
    ensures 0.0 < Constant(m, er) <= 1.0
  {
    BlendBetween(m, er);
    hide Blend, Times;
    TimesPositive(Blend(m, er), Blend(m, er));
    TimesBetween(Blend(m, er), Blend(m, er));
  }

  /** With both periods at least 1 the average never leaves the range of the inputs. */
  lemma {:induction false} AmaStaysInRange(s: seq<real>, start: nat, m: Smoothing, i: nat, low: real, high: real)
    requires start <= i < |s| && m.n >= 1 && m.fast >= 1 && m.slow >= 1 && Within(s, low, high)
    ensures low <= Ama(s, start, m, i).ama <= high
    decreases i
  {
    hide Constant, Step, Clamped, AtMostOne, Times, Ratio;
    if i > start {
      AmaStaysInRange(s, start, m, i - 1, low, high);
      EfficiencyIsRatio(s, start, m, i);
      ConstantBetween(m, Ama(s, start, m, i).er);
      PartOfTheWay(Ama(s, start, m, i - 1).ama, s[i], Constant(m, Ama(s, start, m, i).er), low, high);
    }
  }

  ghost predicate AlwaysInRange(m: Smoothing)
    requires m.n >= 1
  {
    forall s: seq<real>, start: nat, i: nat, low: real, high: real ::
      start <= i < |s| && Within(s, low, high) ==> low <= Ama(s, start, m, i).ama <= high
  }

  lemma Leaves(m: Smoothing, s: seq<real>, i: nat)
    requires m.n >= 1 && i < |s| && Within(s, 0.0, 1.0) && !(0.0 <= Ama(s, 0, m, i).ama <= 1.0)
    ensures !AlwaysInRange(m)
  {
    hide Ama, Within;
  }

  /** After one step the ratio is 1 and the fast speed alone counts. */
  lemma AfterOneStep(m: Smoothing, s: seq<real>)
    requires m.n >= 1 && |s| >= 2 && s[0] == 0.0 && s[1] == 1.0
    ensures Ama(s, 0, m, 1) == Average(Times(Speed(m.fast), Speed(m.fast)), 1.0, 1.0)
  {
    var f, g := Speed(m.fast), Speed(m.slow);
    TimesUnits(f - g);
    TimesUnits(Times(f, f));
    assert Step(s, 1) == 1.0;
    assert Ratio(1.0, 1.0) == 1.0;
    hide Times, Speed, Ratio, Step;
    assert Blend(m, 1.0) == f;
    assert Ama(s, 0, m, 0) == Average(0.0, 1.0, 0.0);
  }

  /** The second bar, from the volatility and the ratio it has. */
  lemma AfterTwoSteps(m: Smoothing, s: seq<real>, er: real, vol: real)
    requires m.n >= 1 && |s| >= 3 && s[0] == 0.0 && s[1] == 1.0 && vol != 0.0
    requires vol == if m.n >= 2 then 1.0 + Step(s, 2) else 1.0
    requires er == if m.n >= 2 then AtMostOne(Ratio(s[2], vol)) else Clamped(Ratio(s[2] - 1.0, vol))
    ensures var first := Times(Speed(m.fast), Speed(m.fast));
            Ama(s, 0, m, 2).ama == first + Times(Constant(m, er), s[2] - first)
  {
    AfterOneStep(m, s);
    hide Times, Constant, Ratio, Speed, AtMostOne, Clamped, Step;
  }

  lemma SquareOfSpeed(n: nat)
    ensures Times(Speed(n), Speed(n)) > 0.0
    ensures n >= 2 ==> Times(Speed(n), Speed(n)) < 1.0
    ensures n == 1 ==> Times(Speed(n), Speed(n)) == 1.0
    ensures n == 0 ==> Times(Speed(n), Speed(n)) == 4.0
  {
    SpeedBetween(n);
    hide Speed;
    TimesPositive(Speed(n), Speed(n));
    if n >= 2 {
      TimesBetween(Speed(n), Speed(n));
    }
  }

  /** A fast period of 0 overshoots at once. */
  lemma FastOvershoots(m: Smoothing)
    requires m.n >= 1 && m.fast == 0
    ensures !AlwaysInRange(m)
  {
    var s := [0.0, 1.0];
    AfterOneStep(m, s);
    SquareOfSpeed(0);
    Leaves(m, s, 1);
  }

  lemma SlowConstant(m: Smoothing)
    requires m.slow == 0
    ensures Constant(m, 0.0) == 4.0
    ensures m.fast == 1 ==> Constant(m, -0.5) == 2.25
  {
    SpeedBetween(m.slow);
    SpeedBetween(m.fast);
    TimesUnits(Speed(m.fast) - Speed(m.slow));
    hide Speed;
    assert Blend(m, 0.0) == 2.0;
    if m.fast == 1 {
      assert Times(0.5, -1.0) == -0.5;
      assert Blend(m, -0.5) == 1.5;
    }
  }

  /** A step back to where the window began: the ratio is 0 and the slow speed alone counts. */
  lemma SlowOvershootsInWindow(m: Smoothing)
    requires m.n >= 2 && m.slow == 0
    ensures !AlwaysInRange(m)
  {
    var s := [0.0, 1.0, 0.0];
    assert Step(s, 2) == 1.0 && Ratio(0.0, 2.0) == 0.0;
    AfterTwoSteps(m, s, 0.0, 2.0);
    SlowConstant(m);
    SquareOfSpeed(m.fast);
    hide Speed, Constant, Ama;
    Leaves(m, s, 2);
  }

  /** A window of one step and a fast period of 1: the average is at the last bar, and steps too far back. */
  lemma SlowOvershootsBack(m: Smoothing)
    requires m.n == 1 && m.slow == 0 && m.fast == 1
    ensures !AlwaysInRange(m)
  {
    hide Speed, Constant, Ama, Ratio, Times, AlwaysInRange, Step;
    var s := [0.0, 1.0, 0.5];
    SlowConstant(m);
    SquareOfSpeed(1);
    Halves();
    AfterTwoSteps(m, s, -0.5, 1.0);
    Leaves(m, s, 2);
  }

  lemma Halves()
    ensures Ratio(-0.5, 1.0) == -0.5 && Times(2.25, -0.5) == -1.125
  {
  }

  /** A window of one step and a longer fast period: no step, and the slow speed carries the average past the bar. */
  lemma SlowOvershootsOn(m: Smoothing)
    requires m.n == 1 && m.slow == 0 && m.fast >= 2
    ensures !AlwaysInRange(m)
  {
    var s := [0.0, 1.0, 1.0];
    var f := Times(Speed(m.fast), Speed(m.fast));
    SlowConstant(m);
    SquareOfSpeed(m.fast);
    assert Ratio(0.0, 1.0) == 0.0 && Times(4.0, 1.0 - f) == 4.0 * (1.0 - f);
    hide Speed, Constant, Ama, Ratio, Times;
    AfterTwoSteps(m, s, 0.0, 1.0);
    Leaves(m, s, 2);
  }

  /** The average keeps to the range of every input exactly when both periods are at least 1; the parameter check of
      the source lets 0 through. */
  lemma InRangeExactly(m: Smoothing)
    requires m.n >= 1
    ensures AlwaysInRange(m) <==> m.fast >= 1 && m.slow >= 1
  {
    hide Ama, Within;
    if m.fast >= 1 && m.slow >= 1 {
      forall s: seq<real>, start: nat, i: nat, low: real, high: real | start <= i < |s| && Within(s, low, high)
        ensures low <= Ama(s, start, m, i).ama <= high
      {
        AmaStaysInRange(s, start, m, i, low, high);
      }
    } else if m.fast == 0 {
      FastOvershoots(m);
    } else if m.n >= 2 {
      SlowOvershootsInWindow(m);
    } else if m.fast == 1 {
      SlowOvershootsBack(m);
    } else {
      SlowOvershootsOn(m);
    }
  }

  // ---------------------------------------------------------------------------------------------------------
  // What a step is

  /** The signed change the efficiency ratio compares with the volatility. */
  function Change(s: seq<real>, start: nat, n: nat, i: nat): real
    requires start <= i < |s|
  {
    if i <= start + n then s[i] - s[start] else s[i] - s[i - n]
  }

  lemma RatioOfStep(s: seq<real>, start: nat, m: Smoothing, i: nat)
    requires start < i < |s| && m.n >= 1
    ensures var a, c := Ama(s, start, m, i), Change(s, start, m.n, i);
            a.er == if a.vol == 0.0 then 1.0
                    else if i <= start + m.n then AtMostOne(Ratio(c, a.vol)) else Clamped(Ratio(c, a.vol))
  {
    hide Constant, Step, Times, Ratio, AtMostOne, Clamped;
  }

  /** The ratio is that of the change to the volatility, cut off at 1 and -1, and 1 where nothing moves. */
  lemma EfficiencyOfStep(s: seq<real>, start: nat, m: Smoothing, i: nat)
    requires start < i < |s| && m.n >= 1
    ensures var a, c := Ama(s, start, m, i), Change(s, start, m.n, i);
            && (a.vol == 0.0 ==> a.er == 1.0)
            && (a.vol != 0.0 && -a.vol <= c <= a.vol ==> Times(a.er, a.vol) == c)
            && (a.vol != 0.0 && c > a.vol ==> a.er == 1.0)
            && (a.vol != 0.0 && c < -a.vol ==> a.er == -1.0)
  {
    RatioOfStep(s, start, m, i);
    EfficiencyIsRatio(s, start, m, i);
    var a, c := Ama(s, start, m, i), Change(s, start, m.n, i);
    if a.vol != 0.0 {
      Quotients(c, a.vol);
      RatioTimes(c, a.vol);
    }
    hide Ama, Ratio, Times, Change;
  }

  lemma Quotients(c: real, v: real)
    requires v > 0.0
    ensures Ratio(c, v) > 1.0 <==> c > v
    ensures Ratio(c, v) < -1.0 <==> c < -v
  {
    assert Ratio(c, v) * v == c;
    if Ratio(c, v) > 1.0 {
      assert (Ratio(c, v) - 1.0) * v > 0.0;
    }
    if Ratio(c, v) < -1.0 {
      assert (-1.0 - Ratio(c, v)) * v > 0.0;
    }
  }

  /** `c` is the weight of the two smoothing periods, that of the fast one by `e` and that of the slow one by what is
      left: a period `p` weighs 2 / (p + 1). */
  predicate Weighs(m: Smoothing, e: real, c: real) {
    var fast, slow := (m.fast + 1) as real, (m.slow + 1) as real;
    fast * slow * c == 2.0 * (e * slow + (1.0 - e) * fast)
  }

  lemma BlendWeighs(m: Smoothing, er: real)
    ensures Weighs(m, Abs(er), Blend(m, er))
  {
    var f, g, e := (m.fast + 1) as real, (m.slow + 1) as real, Abs(er);
    var x, y := Speed(m.fast), Speed(m.slow);
    assert f * x == 2.0 && g * y == 2.0;
    Interpolated(f, g, x, y, e);
  }

  lemma Interpolated(f: real, g: real, x: real, y: real, e: real)
    requires f * x == 2.0 && g * y == 2.0
    ensures f * g * (e * (x - y) + y) == 2.0 * (e * g + (1.0 - e) * f)
  {
    assert f * g * (e * (x - y) + y) == e * (g * (f * x)) - e * (f * (g * y)) + f * (g * y);
  }

  lemma StepIs(s: seq<real>, start: nat, m: Smoothing, i: nat)
    requires start < i < |s| && m.n >= 1
    ensures var before, after := Ama(s, start, m, i - 1), Ama(s, start, m, i);
            after.ama == before.ama + Times(Constant(m, after.er), s[i] - before.ama)
  {
    hide Constant, Step, Times, Ratio, AtMostOne, Clamped;
  }

  /** A step goes the square of that weight of the way to the new value; the efficiency ratio, whatever its sign, says
      how much of it is the fast period's. */
  lemma StepOfAverage(s: seq<real>, start: nat, m: Smoothing, i: nat) returns (c: real)
    requires start < i < |s| && m.n >= 1
    ensures Weighs(m, Abs(Ama(s, start, m, i).er), c)
    ensures var before, after := Ama(s, start, m, i - 1).ama, Ama(s, start, m, i).ama;
            after - before == Times(Times(c, c), s[i] - before)
  {
    StepIs(s, start, m, i);
    hide Ama, Times, Weighs;
    var er := Ama(s, start, m, i).er;
    c := Blend(m, er);
    BlendWeighs(m, er);
    assert Constant(m, er) == Times(c, c);
  }

  /** With equal periods, and where the ratio is 1, -1 or 0, one period alone counts. */
  lemma StepOfOnePeriod(s: seq<real>, start: nat, m: Smoothing, i: nat, p: nat)
    requires start < i < |s| && m.n >= 1
    requires var er := Ama(s, start, m, i).er;
             (p == m.fast && (m.fast == m.slow || er == 1.0 || er == -1.0)) || (p == m.slow && er == 0.0)
    ensures var before, after, d := Ama(s, start, m, i - 1).ama, Ama(s, start, m, i).ama, (p + 1) as real;
            Times(Times(d, d), after - before) == 4.0 * (s[i] - before)
  {
    hide Ama, Weighs, Times;
    var c := StepOfAverage(s, start, m, i);
    var er, before := Ama(s, start, m, i).er, Ama(s, start, m, i - 1).ama;
    PeriodAlone(m, p, Abs(er), c);
    FourTimes((p + 1) as real, c, s[i] - before, Ama(s, start, m, i).ama - before);
  }

  lemma FourTimes(d: real, c: real, way: real, step: real)
    requires Times(d, c) == 2.0 && step == Times(Times(c, c), way)
    ensures Times(Times(d, d), step) == 4.0 * way
  {
    assert d * d * (c * c * way) == (d * c) * (d * c) * way;
  }

  lemma PeriodAlone(m: Smoothing, p: nat, e: real, c: real)
    requires Weighs(m, e, c)
    requires (p == m.fast && (m.fast == m.slow || e == 1.0)) || (p == m.slow && e == 0.0)
    ensures Times((p + 1) as real, c) == 2.0
  {
    OnePeriod((m.fast + 1) as real, (m.slow + 1) as real, (p + 1) as real, e, c);
  }

  lemma OnePeriod(f: real, g: real, d: real, e: real, c: real)
    requires f >= 1.0 && g >= 1.0 && f * g * c == 2.0 * (e * g + (1.0 - e) * f)
    requires (d == f && (f == g || e == 1.0)) || (d == g && e == 0.0)
    ensures d * c == 2.0
  {
    if d == f && f == g {
      assert e * f + (1.0 - e) * f == f;
      assert f * (f * c) == f * f * c;
      assert f * (f * c - 2.0) == 0.0;
    } else if d == f {
      assert g * (f * c) == f * g * c;
      assert g * (f * c - 2.0) == 0.0;
    } else {
      assert f * (g * c) == f * g * c;
      assert f * (g * c - 2.0) == 0.0;
    }
  }

  /** The result buffers hold the average and the ratio from the start up to bar `i`. */
  ghost predicate Filled(d0: seq<real>, d1: seq<real>, s: seq<real>, start: nat, m: Smoothing, i: nat)
    requires |d0| == |d1| == |s| && i <= |s| && m.n >= 1
  {
    forall k :: start <= k < i ==> d0[k] == Ama(s, start, m, k).ama && d1[k] == Ama(s, start, m, k).er
  }

  lemma FillOne(d0: seq<real>, d1: seq<real>, s: seq<real>, start: nat, m: Smoothing, i: nat)
    requires |d0| == |d1| == |s| && start <= i < |s| && m.n >= 1 && Filled(d0, d1, s, start, m, i)
    ensures Filled(d0[i := Ama(s, start, m, i).ama], d1[i := Ama(s, start, m, i).er], s, start, m, i + 1)
  {
    hide Ama;
  }

  /** The two loops of the source, into the two result buffers. */
  method CalculateAma(src: array<real>, discard: nat, m: Smoothing, dst0: array<real>, dst1: array<real>)
    requires m.n >= 1 && dst0.Length == dst1.Length == src.Length && dst0 != src && dst1 != src && dst0 != dst1
    modifies dst0, dst1
    ensures Filled(dst0[..], dst1[..], src[..], discard, m, src.Length)
    ensures discard <= src.Length ==> dst0[..discard] == old(dst0[..discard]) && dst1[..discard] == old(dst1[..discard])
    ensures discard >= src.Length ==> dst0[..] == old(dst0[..]) && dst1[..] == old(dst1[..])
  {
    hide Constant, Times, Ratio, Ama, Filled;
    var total, start := src.Length, discard;
    ghost var s := src[..];
    NothingFilled(dst0[..], dst1[..], s, start, m);
    if start >= total {
      return;
    }
    AmaStart(s, start, m);
    FillOne(dst0[..], dst1[..], s, start, m, start);
    dst0[start], dst1[start] := src[start], 1.0;
    var ama, er, vol := FirstWindow(src, start, m, dst0, dst1);
    RollingWindow(src, start, m, dst0, dst1, ama, er, vol);
  }

  lemma NothingFilled(d0: seq<real>, d1: seq<real>, s: seq<real>, start: nat, m: Smoothing)
    requires |d0| == |d1| == |s| && m.n >= 1
    ensures Filled(d0, d1, s, start, m, if start <= |s| then start else |s|)
  {
  }

  /** Where the first window ends. */
  function FirstEnd(total: nat, start: nat, m: Smoothing): nat {
    if start + m.n + 1 >= total then total else start + m.n + 1
  }

  method FirstWindow(src: array<real>, start: nat, m: Smoothing, dst0: array<real>, dst1: array<real>)
    returns (ama: real, er: real, vol: real)
    requires m.n >= 1 && dst0.Length == dst1.Length == src.Length && dst0 != src && dst1 != src && dst0 != dst1
    requires start < src.Length && Filled(dst0[..], dst1[..], src[..], start, m, start + 1)
    modifies dst0, dst1
    ensures start < FirstEnd(src.Length, start, m) <= src.Length
    ensures Filled(dst0[..], dst1[..], src[..], start, m, FirstEnd(src.Length, start, m))
    ensures Average(ama, er, vol) == Ama(src[..], start, m, FirstEnd(src.Length, start, m) - 1)
    ensures dst0[..start] == old(dst0[..start]) && dst1[..start] == old(dst1[..start])
  {
    hide Constant, Times, Ratio, Ama, Filled;
    ghost var s := src[..];
    AmaStart(s, start, m);
    vol, er, ama := 0.0, 1.0, src[start];
    var end := FirstEnd(src.Length, start, m);
    var i := start + 1;
    while i < end
      invariant start < i <= end
      invariant Average(ama, er, vol) == Ama(s, start, m, i - 1)
      invariant Filled(dst0[..], dst1[..], s, start, m, i)
      invariant dst0[..start] == old(dst0[..start]) && dst1[..start] == old(dst1[..start])
    {
      vol := vol + Abs(src[i] - src[i - 1]);
      er := if vol == 0.0 then 1.0 else Ratio(src[i] - src[start], vol);
      if er > 1.0 {
        er := 1.0;
      }
      EarlyTurn(s, start, m, i, vol, er);
      ama := ama + Times(Constant(m, er), src[i] - ama);
      FillOne(dst0[..], dst1[..], s, start, m, i);
      dst0[i], dst1[i] := ama, er;
      i := i + 1;
    }
  }

  method RollingWindow(src: array<real>, start: nat, m: Smoothing, dst0: array<real>, dst1: array<real>,
                       firstAma: real, firstEr: real, firstVol: real)
    requires m.n >= 1 && dst0.Length == dst1.Length == src.Length && dst0 != src && dst1 != src && dst0 != dst1
    requires start < src.Length && start < FirstEnd(src.Length, start, m)
    requires Filled(dst0[..], dst1[..], src[..], start, m, FirstEnd(src.Length, start, m))
    requires Average(firstAma, firstEr, firstVol) == Ama(src[..], start, m, FirstEnd(src.Length, start, m) - 1)
    modifies dst0, dst1
    ensures Filled(dst0[..], dst1[..], src[..], start, m, src.Length)
    ensures dst0[..start] == old(dst0[..start]) && dst1[..start] == old(dst1[..start])
  {
    hide Constant, Times, Ratio, Ama, Filled;
    ghost var s := src[..];
    var ama, er, prevol := firstAma, firstEr, firstVol;
    var i := FirstEnd(src.Length, start, m);
    while i < src.Length
      invariant FirstEnd(src.Length, start, m) <= i <= src.Length
      invariant Average(ama, er, prevol) == Ama(s, start, m, i - 1)
      invariant Filled(dst0[..], dst1[..], s, start, m, i)
      invariant dst0[..start] == old(dst0[..start]) && dst1[..start] == old(dst1[..start])
    {
      var vol := prevol + Abs(src[i] - src[i - 1]) - Abs(src[i + 1 - m.n] - src[i - m.n]);
      er := if vol == 0.0 then 1.0 else Ratio(src[i] - src[i - m.n], vol);
      if er > 1.0 {
        er := 1.0;
      }
      if er < -1.0 {
        er := -1.0;
      }
      LateTurn(s, start, m, i, vol, er);
      ama := ama + Times(Constant(m, er), src[i] - ama);
      prevol := vol;
      FillOne(dst0[..], dst1[..], s, start, m, i);
      dst0[i], dst1[i] := ama, er;
      i := i + 1;
    }
  }

  lemma AmaStart(s: seq<real>, start: nat, m: Smoothing)
    requires start < |s| && m.n >= 1
    ensures Ama(s, start, m, start) == Average(s[start], 1.0, 0.0)
  {
  }

  lemma EarlyTurn(s: seq<real>, start: nat, m: Smoothing, i: nat, vol: real, er: real)
    requires start < i < |s| && m.n >= 1 && i <= start + m.n
    requires vol == Ama(s, start, m, i - 1).vol + Abs(s[i] - s[i - 1])
    requires er == if vol == 0.0 then 1.0 else AtMostOne(Ratio(s[i] - s[start], vol))
    ensures var before := Ama(s, start, m, i - 1);
            Ama(s, start, m, i) == Average(before.ama + Times(Constant(m, er), s[i] - before.ama), er, vol)
  {
    hide Constant, Times, Ratio, Abs;
  }

  lemma LateTurn(s: seq<real>, start: nat, m: Smoothing, i: nat, vol: real, er: real)
    requires start + m.n < i < |s| && m.n >= 1
    requires vol == Ama(s, start, m, i - 1).vol + Abs(s[i] - s[i - 1]) - Abs(s[i + 1 - m.n] - s[i - m.n])
    requires er == if vol == 0.0 then 1.0 else Clamped(Ratio(s[i] - s[i - m.n], vol))
    ensures var before := Ama(s, start, m, i - 1);
            Ama(s, start, m, i) == Average(before.ama + Times(Constant(m, er), s[i] - before.ama), er, vol)
  {
    hide Constant, Times, Ratio, Abs;
  }
}
