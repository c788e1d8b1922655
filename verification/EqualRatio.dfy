/**
 Equal-ratio price adjustment: every event scales one side of the buffer by a factor taken from an unadjusted close.
 The forward series is one constant multiple of the backward series wherever the sweeps take the same close.
 */
module EqualRatio {
  import opened Calendar
  import opened Weights
  import opened KRecords
  import opened PriceAdjustment
  import opened Reals

  /** The record-date close with the rights money added and the dividend taken off. */
  function Shifted(w: StockWeight, close: real): real {
    if w.suogu != 0.0 then close else close + w.priceForSell * Change(w) - 0.1 * w.bonus
  }

  function Divided(w: StockWeight, close: real): (r: real)
    ensures close != 0.0 && Denominator(w) != 0.0 ==> r != 0.0
  {
    Denominator(w) * close
  }

  function LowerRatio(w: StockWeight, close: real): real
    requires close != 0.0 && Denominator(w) != 0.0
  {
    Ratio(Shifted(w, close), Divided(w, close))
  }

  function RaiseRatio(w: StockWeight, close: real): real
    requires Shifted(w, close) != 0.0
  {
    Ratio(Divided(w, close), Shifted(w, close))
  }

  function ScaleBar(r: KRecord, k: real, countFactor: real): KRecord {
    var count := r.transCount * countFactor;
    var close := k * r.closePrice;
    KRecord(r.datetime, k * r.openPrice, k * r.highPrice, k * r.lowPrice, close, close * count, count)
  }

  function ScaleBefore(s: seq<KRecord>, cut: nat, k: real, countFactor: real): (r: seq<KRecord>)
    requires cut <= |s|
    ensures |r| == |s| && forall i :: 0 <= i < |s| ==> r[i] == if i < cut then ScaleBar(s[i], k, countFactor) else s[i]
  {
    seq(|s|, i requires 0 <= i < |s| => if i < cut then ScaleBar(s[i], k, countFactor) else s[i])
  }

  function ScaleFrom(s: seq<KRecord>, cut: nat, k: real, countFactor: real): (r: seq<KRecord>)
    requires cut <= |s|
    ensures |r| == |s| && forall i :: 0 <= i < |s| ==> r[i] == if i < cut then s[i] else ScaleBar(s[i], k, countFactor)
  {
    seq(|s|, i requires 0 <= i < |s| => if i < cut then s[i] else ScaleBar(s[i], k, countFactor))
  }

  /** What the forward sweep does for one event once it has cut the buffer. */
  function LowerOnce(s0: seq<KRecord>, s: seq<KRecord>, w: StockWeight, cut: nat): (r: seq<KRecord>)
    requires cut <= |s| == |s0|
    ensures |r| == |s|
  {
    if cut == 0 then s
    else
      var close := s0[cut - 1].closePrice;
      if close == 0.0 || Denominator(w) == 0.0 || Trivial(w) then s
      else ScaleBefore(s, cut, LowerRatio(w, close), 1.0 / Denominator(w))
  }

  /** The forward sweep; `s0` is the copy it made of the unadjusted bars. */
  ghost function EqualForward(s0: seq<KRecord>, s: seq<KRecord>, ws: seq<StockWeight>, start: nat): (r: seq<KRecord>)
    requires start <= |s| == |s0|
    ensures |r| == |s|
    decreases |ws|
  {
    if ws == [] then s
    else if Idle(ws[0]) then EqualForward(s0, s, ws[1..], start)
    else
      var cut := FirstFrom(s, start, ws[0].datetime);
      EqualForward(s0, LowerOnce(s0, s, ws[0], cut), ws[1..], cut)
  }

  function RaiseOnce(s: seq<KRecord>, w: StockWeight, cut: nat): (r: seq<KRecord>)
    requires cut <= |s|
    ensures |r| == |s|
  {
    if cut == 0 then s
    else
      var close := s[cut - 1].closePrice;
      if Shifted(w, close) == 0.0 || Denominator(w) == 0.0 then s
      else ScaleFrom(s, cut, RaiseRatio(w, close), Denominator(w))
  }

  /** The backward sweep; it skips no event, and reads the close it scales by from the buffer it is changing. */
  ghost function EqualBackward(s: seq<KRecord>, ws: seq<StockWeight>, from: nat): (r: seq<KRecord>)
    requires from < |s|
    ensures |r| == |s|
    decreases |ws|
  {
    if ws == [] then s
    else
      var w := ws[|ws| - 1];
      var cut := CutBack(s, from, w.datetime);
      EqualBackward(RaiseOnce(s, w, cut), ws[..|ws| - 1], cut)
  }

  ghost function EqualForwardAdjusted(s: seq<KRecord>, weights: seq<StockWeight>, barSeconds: int): (r: seq<KRecord>)
    ensures |r| == |s|
  {
    if s == [] then s else EqualForward(s, s, EventsOf(s, weights, barSeconds), 0)
  }

  ghost function EqualBackwardAdjusted(s: seq<KRecord>, weights: seq<StockWeight>, barSeconds: int): (r: seq<KRecord>)
    ensures |r| == |s|
  {
    if s == [] then s else EqualBackward(s, EventsOf(s, weights, barSeconds), |s| - 1)
  }

  // ---------------------------------------------------------------------------------------------------------
  // One factor

  /** What the forward sweep multiplies the bars before an event by: the ratio of the ex-rights reference price to the
      unadjusted close of the record date, or nothing when it skips the event. */
  function LowerFactor(s: seq<KRecord>, w: StockWeight): real {
    var at := Place(s, w.datetime);
    if at == 0 || Idle(w) || Trivial(w) || Denominator(w) == 0.0 || s[at - 1].closePrice == 0.0 then 1.0
    else LowerRatio(w, s[at - 1].closePrice)
  }

  /** What the backward sweep multiplies the bars from its cut on by. */
  function RaiseFactor(s: seq<KRecord>, w: StockWeight): real
    requires s != []
  {
    var cut := Cut(s, w.datetime);
    if cut == 0 || Denominator(w) == 0.0 || Shifted(w, s[cut - 1].closePrice) == 0.0 then 1.0
    else RaiseRatio(w, s[cut - 1].closePrice)
  }

  function LowerAt(s: seq<KRecord>, w: StockWeight, i: nat): real {
    if i < Place(s, w.datetime) then LowerFactor(s, w) else 1.0
  }

  function RaiseAt(s: seq<KRecord>, w: StockWeight, i: nat): real
    requires s != []
  {
    if i < Cut(s, w.datetime) then 1.0 else RaiseFactor(s, w)
  }

  /** The product of the factors of all events. */
  function AllFactors(s: seq<KRecord>, ws: seq<StockWeight>): real
    decreases |ws|
  {
    if ws == [] then 1.0 else Times(LowerFactor(s, ws[0]), AllFactors(s, ws[1..]))
  }

  /** The product of the factors of the events behind bar `i`. */
  function LaterFactors(s: seq<KRecord>, ws: seq<StockWeight>, i: nat): real
    decreases |ws|
  {
    if ws == [] then 1.0 else Times(LowerAt(s, ws[0], i), LaterFactors(s, ws[1..], i))
  }

  /** The product of what the backward sweep multiplies bar `i` by. */
  function RaiseFactors(s: seq<KRecord>, ws: seq<StockWeight>, i: nat): real
    requires s != []
    decreases |ws|
  {
    if ws == [] then 1.0 else Times(RaiseAt(s, ws[0], i), RaiseFactors(s, ws[1..], i))
  }

  lemma ScaledPrice(r: KRecord, k: real, countFactor: real, f: Field)
    ensures Price(ScaleBar(r, k, countFactor), f) == Times(k, Price(r, f))
  {
  }

  // ---------------------------------------------------------------------------------------------------------
  // What the sweeps do to one price

  lemma LowerOncePrice(s0: seq<KRecord>, s: seq<KRecord>, w: StockWeight, i: nat, f: Field)
    requires SameDates(s, s0) && i < |s| && !Idle(w)
    ensures Price(LowerOnce(s0, s, w, Place(s0, w.datetime))[i], f) == Times(LowerAt(s0, w, i), Price(s[i], f))
  {
    hide Place, Denominator, LowerRatio, ScaleBar, Price, Trivial, Times, Idle;
    TimesUnits(Price(s[i], f));
    var cut := Place(s0, w.datetime);
    if cut > 0 {
      var close := s0[cut - 1].closePrice;
      if close != 0.0 && Denominator(w) != 0.0 {
        ScaledPrice(s[i], LowerRatio(w, close), 1.0 / Denominator(w), f);
      }
    }
  }

  lemma IdleLowersNothing(s: seq<KRecord>, w: StockWeight, i: nat, x: real)
    requires Idle(w)
    ensures LowerAt(s, w, i) == 1.0 && Times(LowerAt(s, w, i), x) == x
  {
    TimesUnits(x);
  }

  /** The forward sweep multiplies every bar by the factors of exactly the events behind it. */
  lemma {:induction false} EqualForwardPrice(s0: seq<KRecord>, s: seq<KRecord>, ws: seq<StockWeight>, start: nat,
                                             i: nat, f: Field)
    requires Ordered(s0) && SameDates(s, s0) && InOrder(ws) && start <= |s| && i < |s|
    requires forall k :: 0 <= k < |ws| ==> start <= Place(s0, ws[k].datetime)
    ensures Price(EqualForward(s0, s, ws, start)[i], f) == Times(LaterFactors(s0, ws, i), Price(s[i], f))
    decreases |ws|
  {
    hide FirstFrom, Place, Idle, LowerAt, LowerOnce, Price, Times;
    TimesUnits(Price(s[i], f));
    if ws != [] {
      var w := ws[0];
      var cut := Place(s0, w.datetime);
      var rest := LaterFactors(s0, ws[1..], i);
      if Idle(w) {
        IdleLowersNothing(s0, w, i, rest);
        EqualForwardPrice(s0, s, ws[1..], start, i, f);
      } else {
        SamePlace(s, s0, start, w.datetime);
        SweepStart(s0, start, w.datetime);
        forall j | 0 <= j < |ws[1..]|
          ensures cut <= Place(s0, ws[1..][j].datetime)
        {
          PlaceMonotone(s0, w.datetime, ws[1..][j].datetime);
        }
        LowerOncePrice(s0, s, w, i, f);
        AllDatesSame(s0, s, w, cut);
        EqualForwardPrice(s0, LowerOnce(s0, s, w, cut), ws[1..], cut, i, f);
        TimesAssociates(rest, LowerAt(s0, w, i), Price(s[i], f));
      }
    }
  }

  lemma AllDatesSame(s0: seq<KRecord>, s: seq<KRecord>, w: StockWeight, cut: nat)
    requires SameDates(s, s0) && cut <= |s|
    ensures SameDates(LowerOnce(s0, s, w, cut), s0)
    ensures SameDates(RaiseOnce(s, w, cut), s0)
  {
    hide Denominator, Shift, Trivial, Change;
  }

  lemma RaiseOncePrice(s0: seq<KRecord>, s: seq<KRecord>, w: StockWeight, i: nat, f: Field)
    requires s != [] && SameDates(s, s0) && i < |s|
    requires forall k :: 0 <= k < Cut(s0, w.datetime) ==> s[k].closePrice == s0[k].closePrice
    ensures Price(RaiseOnce(s, w, Cut(s0, w.datetime))[i], f) == Times(RaiseAt(s0, w, i), Price(s[i], f))
  {
    hide Cut, Denominator, Shifted, RaiseRatio, ScaleBar, Price, Times;
    TimesUnits(Price(s[i], f));
    var cut := Cut(s0, w.datetime);
    if cut > 0 {
      var close := s0[cut - 1].closePrice;
      if Shifted(w, close) != 0.0 {
        ScaledPrice(s[i], RaiseRatio(w, close), Denominator(w), f);
      }
    }
  }

  lemma BelowCut(s: seq<KRecord>, w: StockWeight, cut: nat)
    requires cut <= |s|
    ensures forall k :: 0 <= k < cut ==> RaiseOnce(s, w, cut)[k] == s[k]
  {
    hide Denominator, Change;
  }

  lemma {:induction false} LastRaise(s: seq<KRecord>, ws: seq<StockWeight>, i: nat)
    requires s != [] && ws != []
    ensures RaiseFactors(s, ws, i)
         == Times(RaiseAt(s, ws[|ws| - 1], i), RaiseFactors(s, ws[..|ws| - 1], i))
    decreases |ws|
  {
    hide RaiseAt, Times;
    if |ws| > 1 {
      var w, first := ws[|ws| - 1], ws[0];
      LastRaise(s, ws[1..], i);
      assert ws[1..][..|ws| - 2] == ws[..|ws| - 1][1..];
      Swap(RaiseAt(s, first, i), RaiseAt(s, w, i), RaiseFactors(s, ws[..|ws| - 1][1..], i));
    }
  }

  lemma Swap(a: real, b: real, rest: real)
    ensures Times(a, Times(b, rest)) == Times(b, Times(a, rest))
  {
    TimesAssociates(a, b, rest);
    TimesAssociates(b, a, rest);
  }

  /** The backward sweep multiplies every bar by the factors of exactly the events it cuts up to it, from unadjusted
      closes, although it reads them from the buffer it is changing; `last` is the date of the event it has just done,
      or the end of the bars. */
  lemma {:induction false} EqualBackwardPrice(s0: seq<KRecord>, s: seq<KRecord>, ws: seq<StockWeight>, last: int,
                                              i: nat, f: Field)
    requires s != [] && Ordered(s0) && SameDates(s, s0) && InOrder(ws) && i < |s|
    requires forall j :: 0 <= j < |ws| ==> ws[j].datetime <= last
    requires forall k :: 0 <= k < Cut(s0, last) ==> s[k].closePrice == s0[k].closePrice
    ensures Price(EqualBackward(s, ws, Cut(s0, last))[i], f) == Times(RaiseFactors(s0, ws, i), Price(s[i], f))
    decreases |ws|
  {
    hide RaiseAt, RaiseFactors, RaiseOnce, Price, CutBack, Cut, Times;
    if ws == [] {
      NoFactors(s0, ws, i, Price(s[i], f));
    } else {
      var w, older := ws[|ws| - 1], ws[..|ws| - 1];
      SameCutBack(s, s0, Cut(s0, last), w.datetime);
      SweepCut(s0, last, w.datetime);
      var cut := Cut(s0, w.datetime);
      var r := RaiseOnce(s, w, cut);
      AllDatesSame(s0, s, w, cut);
      BelowCut(s, w, cut);
      EqualBackwardPrice(s0, r, older, w.datetime, i, f);
      RaiseOncePrice(s0, s, w, i, f);
      LastRaise(s0, ws, i);
      Reassociate(RaiseFactors(s0, older, i), RaiseAt(s0, w, i), Price(s[i], f));
    }
  }

  lemma NoFactors(s: seq<KRecord>, ws: seq<StockWeight>, i: nat, x: real)
    requires s != [] && ws == []
    ensures Times(RaiseFactors(s, ws, i), x) == x
  {
  }

  lemma Reassociate(a: real, b: real, x: real)
    ensures Times(a, Times(b, x)) == Times(Times(b, a), x)
  {
    TimesAssociates(a, b, x);
    TimesAssociates(b, a, x);
  }

  // ---------------------------------------------------------------------------------------------------------
  // The two series

  /** What the two sweeps leave of an event on bar `i` once the whole factor of the event is divided out. */
  function Stray(s: seq<KRecord>, w: StockWeight, i: nat): real
    requires s != []
  {
    Times(if i < Place(s, w.datetime) then 1.0 else LowerFactor(s, w), RaiseAt(s, w, i))
  }

  function StrayFactors(s: seq<KRecord>, ws: seq<StockWeight>, i: nat): real
    requires s != []
    decreases |ws|
  {
    if ws == [] then 1.0 else Times(Stray(s, ws[0], i), StrayFactors(s, ws[1..], i))
  }

  /** The record-date close, or what the event leaves of it, is zero. */
  predicate Worthless(s: seq<KRecord>, w: StockWeight) {
    var at := Place(s, w.datetime);
    at > 0 && (s[at - 1].closePrice == 0.0 || Shifted(w, s[at - 1].closePrice) == 0.0)
  }

  /** Both sweeps skip the event, or cut the buffer at one bar and divide by nothing that is zero. */
  predicate Clean(s: seq<KRecord>, w: StockWeight)
    requires s != []
  {
    Idle(w) || Trivial(w) || Denominator(w) == 0.0 || (Cut(s, w.datetime) == Place(s, w.datetime) && !Worthless(s, w))
  }

  /** The events up to bar `i` that are not clean. */
  function Strays(s: seq<KRecord>, ws: seq<StockWeight>, i: nat): (r: seq<StockWeight>)
    requires s != []
    ensures forall w :: w in r <==> w in ws && !Clean(s, w) && (Cut(s, w.datetime) <= i || Place(s, w.datetime) <= i)
    decreases |ws|
  {
    if ws == [] then []
    else
      var w, rest := ws[0], Strays(s, ws[1..], i);
      if !Clean(s, w) && (Cut(s, w.datetime) <= i || Place(s, w.datetime) <= i) then [w] + rest else rest
  }

  /** A trivial event leaves every price alone in both sweeps, whichever close they take. */
  lemma TrivialFactors(s: seq<KRecord>, w: StockWeight)
    requires s != [] && (Idle(w) || Trivial(w))
    ensures LowerFactor(s, w) == 1.0 && RaiseFactor(s, w) == 1.0
  {
    hide Place, Cut, Ratio;
    assert Denominator(w) == 1.0 && Shift(w) == 0.0;
    var cut := Cut(s, w.datetime);
    if cut > 0 && s[cut - 1].closePrice != 0.0 {
      RatioLaws(s[cut - 1].closePrice, s[cut - 1].closePrice, 0.0);
    }
  }

  lemma FactorsCancel(s: seq<KRecord>, w: StockWeight)
    requires s != [] && !Idle(w) && !Trivial(w) && Clean(s, w)
    ensures Times(LowerFactor(s, w), RaiseFactor(s, w)) == 1.0
  {
    hide Place, Cut, Ratio, Divided, Shifted, Denominator, Times, Idle, Trivial;
    TimesUnits(1.0);
    var at := Place(s, w.datetime);
    if at > 0 && Denominator(w) != 0.0 {
      var close := s[at - 1].closePrice;
      RatioLaws(Shifted(w, close), Divided(w, close), 1.0);
      TimesUnits(RaiseRatio(w, close));
    }
  }

  lemma StrayIsOne(s: seq<KRecord>, w: StockWeight, i: nat)
    requires s != [] && (Clean(s, w) || (i < Cut(s, w.datetime) && i < Place(s, w.datetime)))
    ensures Stray(s, w, i) == 1.0
  {
    hide Place, Cut, Times, Idle, Trivial, Denominator, LowerFactor, RaiseFactor;
    TimesUnits(1.0);
    if Idle(w) || Trivial(w) {
      TrivialFactors(s, w);
    } else if Clean(s, w) {
      FactorsCancel(s, w);
      if Denominator(w) == 0.0 {
        UndividedFactors(s, w);
      }
    }
  }

  lemma UndividedFactors(s: seq<KRecord>, w: StockWeight)
    requires s != [] && Denominator(w) == 0.0
    ensures LowerFactor(s, w) == 1.0 && RaiseFactor(s, w) == 1.0
  {
  }

  lemma {:induction false} OnlyStraysMatter(s: seq<KRecord>, ws: seq<StockWeight>, i: nat)
    requires s != []
    ensures StrayFactors(s, Strays(s, ws, i), i) == StrayFactors(s, ws, i)
    decreases |ws|
  {
    hide Clean, Cut, Place, Stray, Times;
    if ws != [] {
      var w, rest := ws[0], Strays(s, ws[1..], i);
      OnlyStraysMatter(s, ws[1..], i);
      if !Clean(s, w) && (Cut(s, w.datetime) <= i || Place(s, w.datetime) <= i) {
        assert ([w] + rest)[1..] == rest;
      } else {
        StrayIsOne(s, w, i);
        TimesUnits(StrayFactors(s, ws[1..], i));
      }
    }
  }

  lemma OneEvent(s: seq<KRecord>, w: StockWeight, i: nat)
    requires s != []
    ensures Times(LowerFactor(s, w), RaiseAt(s, w, i)) == Times(LowerAt(s, w, i), Stray(s, w, i))
  {
    hide Place, Cut, Times, LowerFactor, RaiseAt;
    TimesUnits(RaiseAt(s, w, i));
    TimesUnits(Times(LowerFactor(s, w), RaiseAt(s, w, i)));
  }

  /** Two products multiply factor by factor. */
  lemma Pairwise(a: real, b: real, x: real, y: real)
    ensures Times(Times(a, x), Times(b, y)) == Times(Times(a, b), Times(x, y))
  {
    TimesAssociates(Times(a, x), b, y);
    TimesAssociates(a, x, b);
    TimesAssociates(x, b, 1.0);
    TimesAssociates(a, b, x);
    TimesAssociates(Times(a, b), x, y);
  }

  lemma {:induction false} FactorsSplit(s: seq<KRecord>, ws: seq<StockWeight>, i: nat)
    requires s != []
    ensures Times(AllFactors(s, ws), RaiseFactors(s, ws, i)) == Times(LaterFactors(s, ws, i), StrayFactors(s, ws, i))
    decreases |ws|
  {
    hide LowerFactor, LowerAt, RaiseAt, Stray, Times;
    if ws != [] {
      var w, rest := ws[0], ws[1..];
      FactorsSplit(s, rest, i);
      OneEvent(s, w, i);
      Pairwise(LowerFactor(s, w), RaiseAt(s, w, i), AllFactors(s, rest), RaiseFactors(s, rest, i));
      Pairwise(LowerAt(s, w, i), Stray(s, w, i), LaterFactors(s, rest, i), StrayFactors(s, rest, i));
    }
  }

  lemma WhenUnitsAgree(k: real, raised: real, later: real, stray: real, x: real)
    requires Times(k, raised) == Times(later, stray)
    ensures Times(later, x) == Times(k, Times(raised, x)) <==> later == 0.0 || x == 0.0 || stray == 1.0
  {
    TimesAssociates(k, raised, x);
    TimesAssociates(stray, later, x);
    TimesAssociates(later, stray, x);
    ZeroOrOne(stray, Times(later, x));
    assert later * x == 0.0 <==> later == 0.0 || x == 0.0;
  }

  lemma ZeroOrOne(k: real, y: real)
    ensures Times(k, y) == y <==> y == 0.0 || k == 1.0
  {
    assert k * y - y == (k - 1.0) * y;
  }

  /** One factor takes the backward series to the forward series: for any bars and events, it does so for a price
      exactly when the events up to its bar that the sweeps treat differently leave, together, the factor one; or when
      the price or a factor behind its bar is zero. */
  lemma EqualSeriesMeetExactly(s: seq<KRecord>, ws: seq<StockWeight>, i: nat, f: Field)
    requires Ordered(s) && InOrder(ws) && i < |s|
    ensures var ahead, back := Price(EqualForward(s, s, ws, 0)[i], f), Price(EqualBackward(s, ws, |s| - 1)[i], f);
            ahead == Times(AllFactors(s, ws), back)
            <==> Price(s[i], f) == 0.0 || LaterFactors(s, ws, i) == 0.0 || StrayFactors(s, Strays(s, ws, i), i) == 1.0
  {
    hide Times, EqualForward, EqualBackward, AllFactors, LaterFactors, RaiseFactors, StrayFactors, Strays, Place,
         Price, Cut;
    EqualForwardPrice(s, s, ws, 0, i, f);
    var end := s[|s| - 1].datetime;
    var last := if ws != [] && ws[|ws| - 1].datetime > end then ws[|ws| - 1].datetime else end;
    CutAtEnd(s, last);
    EqualBackwardPrice(s, s, ws, last, i, f);
    FactorsSplit(s, ws, i);
    OnlyStraysMatter(s, ws, i);
    WhenUnitsAgree(AllFactors(s, ws), RaiseFactors(s, ws, i), LaterFactors(s, ws, i), StrayFactors(s, ws, i),
                   Price(s[i], f));
  }

  /** The stock does not trade on the date, after its first bar. */
  predicate Suspended(s: seq<KRecord>, w: StockWeight) {
    var at := Place(s, w.datetime);
    at > 0 && (at < |s| ==> s[at].datetime != w.datetime)
  }

  /** Daily bars: the sweeps treat exactly those events differently on whose dates the stock is suspended, and those
      that start from a price of zero or leave one. */
  lemma DailyClean(s: seq<KRecord>, w: StockWeight)
    requires s != [] && Ordered(s) && AllMidnight(s)
    ensures Clean(s, w)
       <==> Idle(w) || Trivial(w) || Denominator(w) == 0.0 || (!Suspended(s, w) && !Worthless(s, w))
  {
    hide Idle, Trivial, Denominator, Cut, FirstFrom, Shifted;
    CutsMeet(s, w.datetime);
  }

  /** Daily bars: the one factor joins the two prices of a bar exactly when the events up to the bar that change prices
      and stand at a suspension, or at a price of zero, leave together the factor one; or when all is zero anyway. */
  lemma DailyEqualMeetExactly(s: seq<KRecord>, weights: seq<StockWeight>, barSeconds: int, i: nat, f: Field)
    requires Ordered(s) && AllMidnight(s) && InOrder(weights) && i < |s|
    ensures var ahead := Price(EqualForwardAdjusted(s, weights, barSeconds)[i], f);
            var back := Price(EqualBackwardAdjusted(s, weights, barSeconds)[i], f);
            var ws := EventsOf(s, weights, barSeconds);
            && (ahead == Times(AllFactors(s, ws), back)
                <==> Price(s[i], f) == 0.0 || LaterFactors(s, ws, i) == 0.0
                     || StrayFactors(s, Strays(s, ws, i), i) == 1.0)
            && forall w <- Strays(s, ws, i) ::
                 w in ws && (Suspended(s, w) || Worthless(s, w)) && !Idle(w) && !Trivial(w) && Denominator(w) != 0.0
  {
    hide Times, EventsOf, AllFactors, LaterFactors, EqualForward, EqualBackward, StrayFactors, Price, Clean, Suspended,
         Worthless, Idle, Trivial, Denominator, Cut, Place;
    var ws := EventsOf(s, weights, barSeconds);
    EventsOfInOrder(s, weights, barSeconds);
    EqualSeriesMeetExactly(s, ws, i, f);
    forall w <- Strays(s, ws, i)
      ensures (Suspended(s, w) || Worthless(s, w)) && !Idle(w) && !Trivial(w) && Denominator(w) != 0.0
    {
      DailyClean(s, w);
    }
  }

  lemma Exchange(k: real, x: real, y: real)
    ensures Times(Times(k, x), y) == Times(Times(k, y), x)
  {
  }

  lemma {:induction false} CleanFactors(s: seq<KRecord>, ws: seq<StockWeight>, i: nat)
    requires s != [] && forall w <- ws :: Clean(s, w)
    ensures StrayFactors(s, ws, i) == 1.0
    decreases |ws|
  {
    hide Clean, Cut, Place, Stray, Times;
    TimesUnits(1.0);
    if ws != [] {
      assert ws[0] in ws;
      StrayIsOne(s, ws[0], i);
      CleanFactors(s, ws[1..], i);
    }
  }

  lemma NoStrays(s: seq<KRecord>, ws: seq<StockWeight>, i: nat)
    requires s != [] && SameCuts(s, ws) && forall w <- ws :: Idle(w) || !Worthless(s, w)
    ensures StrayFactors(s, Strays(s, ws, i), i) == 1.0
  {
    hide Idle, Trivial, Denominator, Worthless, Cut, Place, Strays, StrayFactors;
    forall w <- ws
      ensures Clean(s, w)
    {
      var j :| 0 <= j < |ws| && ws[j] == w;
    }
    CleanFactors(s, ws, i);
    OnlyStraysMatter(s, ws, i);
  }

  /** Wherever both sweeps cut at the same bars, and no event starts from a price of zero or leaves one, the two series
      differ by one factor, so every price relation within a series is the same in both. */
  lemma ForwardIsScaledBackward(s: seq<KRecord>, ws: seq<StockWeight>, i: nat, j: nat, f: Field, g: Field)
    requires Ordered(s) && InOrder(ws) && i < |s| && j < |s|
    requires SameCuts(s, ws) && forall w <- ws :: Idle(w) || !Worthless(s, w)
    ensures var ahead, back := EqualForward(s, s, ws, 0), EqualBackward(s, ws, |s| - 1);
            Price(ahead[i], f) == Times(AllFactors(s, ws), Price(back[i], f))
            && Times(Price(ahead[i], f), Price(back[j], g)) == Times(Price(ahead[j], g), Price(back[i], f))
  {
    hide Times, AllFactors, LaterFactors, EqualForward, EqualBackward, StrayFactors, Strays, Price, Worthless,
         Idle, SameCuts;
    NoStrays(s, ws, i);
    NoStrays(s, ws, j);
    EqualSeriesMeetExactly(s, ws, i, f);
    EqualSeriesMeetExactly(s, ws, j, g);
    Exchange(AllFactors(s, ws), Price(EqualBackward(s, ws, |s| - 1)[i], f), Price(EqualBackward(s, ws, |s| - 1)[j], g));
  }

  lemma AdjustedAre(s: seq<KRecord>, weights: seq<StockWeight>, barSeconds: int)
    requires s != []
    ensures EqualForwardAdjusted(s, weights, barSeconds) == EqualForward(s, s, EventsOf(s, weights, barSeconds), 0)
    ensures EqualBackwardAdjusted(s, weights, barSeconds) == EqualBackward(s, EventsOf(s, weights, barSeconds), |s| - 1)
  {
  }

  /** Daily bars of a stock that trades on each of its ex-dates. */
  lemma DailyEqualRatio(s: seq<KRecord>, weights: seq<StockWeight>, barSeconds: int, i: nat, j: nat, f: Field, g: Field)
    requires Ordered(s) && InOrder(weights) && i < |s| && j < |s|
    requires var ws := EventsOf(s, weights, barSeconds);
             BarOnEachDate(s, ws) && forall w <- ws :: Idle(w) || !Worthless(s, w)
    ensures var ahead := EqualForwardAdjusted(s, weights, barSeconds);
            var back := EqualBackwardAdjusted(s, weights, barSeconds);
            Price(ahead[i], f) == Times(AllFactors(s, EventsOf(s, weights, barSeconds)), Price(back[i], f))
            && Times(Price(ahead[i], f), Price(back[j], g)) == Times(Price(ahead[j], g), Price(back[i], f))
  {
    hide Times, EventsOf, AllFactors, EqualForward, EqualBackward, EqualForwardAdjusted, EqualBackwardAdjusted,
         BarOnEachDate, SameCuts, Price, Worthless, Idle;
    var ws := EventsOf(s, weights, barSeconds);
    AdjustedAre(s, weights, barSeconds);
    EventsOfInOrder(s, weights, barSeconds);
    OwnBarsSameCuts(s, ws);
    ForwardIsScaledBackward(s, ws, i, j, f, g);
  }

  /** A dividend on a day without a bar: no factor joins the two series. */
  lemma SuspendedRatio()
    ensures var bar := (day: int, price: real) => KRecord(day * DAY, price, price, price, price, 1.0, 1.0);
            var s := [bar(1, 1.0), bar(2, 2.0), bar(4, 2.0)];
            var ws := [StockWeight(3 * DAY, 0.0, 0.0, 0.0, 5.0, 0.0, 0.0)];
            var ahead, back := EqualForward(s, s, ws, 0), EqualBackward(s, ws, 2);
            EventsOf(s, ws, DAY) == ws
            && ahead[0].closePrice == 0.75 && ahead[2].closePrice == 2.0
            && back[0].closePrice == 1.0 && back[2].closePrice == 4.0
  {
    var s := [KRecord(1 * DAY, 1.0, 1.0, 1.0, 1.0, 1.0, 1.0), KRecord(2 * DAY, 2.0, 2.0, 2.0, 2.0, 1.0, 1.0),
              KRecord(4 * DAY, 2.0, 2.0, 2.0, 2.0, 1.0, 1.0)];
    var w := StockWeight(3 * DAY, 0.0, 0.0, 0.0, 5.0, 0.0, 0.0);
    assert [w][..0] == [] && [w][1..] == [];
    assert Window([], DAY, 5 * DAY) == [];
    assert EventsOf(s, [w], DAY) == [w];
    assert FirstFrom(s, 0, 3 * DAY) == 2;
    assert EqualForward(s, s, [w], 0) == LowerOnce(s, s, w, 2);
    assert LowerRatio(w, 2.0) == 0.75;
    assert LastUpTo(s, 2, 3 * DAY) == 1;
    assert EqualBackward(s, [w], 2) == RaiseOnce(s, w, 1);
    assert RaiseRatio(w, 1.0) == 2.0;
  }
}
