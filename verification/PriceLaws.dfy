/**
 What one ex-rights event does to the bars of a buffer, per ten shares: the four sweeps on buffers with one event.
 */
module PriceLaws {
  import opened Calendar
  import opened Weights
  import opened KRecords
  import opened PriceAdjustment
  import opened EqualRatio
  import opened Reals
  import opened Accounts
  import opened EventLaws

  /** The shares ten shares gain by gift, subscription and capitalisation. */
  function Gained(w: StockWeight): real {
    w.countAsGift + w.countForSell + w.increasement
  }

  /** Ten shares at `x`, less their dividend and with the money paid for new ones, are worth ten and the gained ones at
      the ex-rights price `y`; a consolidation by `suogu` is one by that ratio. */
  predicate ExRights(w: StockWeight, x: real, y: real) {
    if w.suogu != 0.0 then w.suogu * y == x
    else (10.0 + Gained(w)) * y == 10.0 * x - w.bonus + w.priceForSell * Gained(w)
  }

  /** The volume moves with the number of shares. */
  predicate VolumeShrinks(w: StockWeight, x: real, y: real) {
    if w.suogu != 0.0 then w.suogu * y == x else (10.0 + Gained(w)) * y == 10.0 * x
  }

  /** No price changes: ten shares stay ten shares and pay nothing. */
  predicate Neutral(w: StockWeight) {
    if w.suogu != 0.0 then w.suogu == 1.0 else Gained(w) == 0.0 && w.bonus == 0.0
  }

  lemma LoweredPrice(x: real, w: StockWeight)
    requires Denominator(w) != 0.0
    ensures ExRights(w, x, Lower(x, w)) && ExRights(w, Raise(x, w), x)
    ensures Trivial(w) <==> Neutral(w)
    ensures Idle(w) ==> Trivial(w)
  {
    var d, t := Denominator(w), Shift(w);
    assert d * ((x + t) / d) == x + t;
    if w.suogu == 0.0 {
      assert 10.0 * d == 10.0 + Gained(w);
      assert 10.0 * t == w.priceForSell * Gained(w) - w.bonus;
      assert 10.0 * (d * Lower(x, w)) == (10.0 + Gained(w)) * Lower(x, w);
      assert 10.0 * (x * d) == (10.0 + Gained(w)) * x;
    }
  }

  lemma ThinnedVolume(x: real, w: StockWeight)
    requires Denominator(w) != 0.0
    ensures VolumeShrinks(w, x, x * (1.0 / Denominator(w)))
  {
    hide Denominator, VolumeShrinks;
    Undone(x, Denominator(w));
    Volumes(x, x * (1.0 / Denominator(w)), w);
  }

  lemma Undone(x: real, d: real)
    requires d != 0.0
    ensures d * (x * (1.0 / d)) == x
  {
  }

  lemma Volumes(x: real, y: real, w: StockWeight)
    requires Denominator(w) * y == x
    ensures VolumeShrinks(w, x, y)
  {
    if w.suogu == 0.0 {
      assert 10.0 * Denominator(w) == 10.0 + Gained(w);
      assert (10.0 + Gained(w)) * y == 10.0 * (Denominator(w) * y);
    }
  }

  /** All four prices of `r` go from before the event to after it in `t`. */
  predicate PricesFall(w: StockWeight, r: KRecord, t: KRecord) {
    && ExRights(w, r.openPrice, t.openPrice) && ExRights(w, r.highPrice, t.highPrice)
    && ExRights(w, r.lowPrice, t.lowPrice) && ExRights(w, r.closePrice, t.closePrice)
  }

  predicate Thinned(w: StockWeight, r: KRecord, t: KRecord) {
    t.datetime == r.datetime && VolumeShrinks(w, r.transCount, t.transCount)
    && t.transAmount == Times(t.closePrice, t.transCount)
  }

  /** A bar whose four prices have gone from before to after the event, with its volume and amount. */
  predicate BarLowered(w: StockWeight, r: KRecord, t: KRecord) {
    PricesFall(w, r, t) && Thinned(w, r, t)
  }

  /** A bar whose four prices have gone back; its volume is treated as in the other direction. */
  predicate BarRaised(w: StockWeight, r: KRecord, t: KRecord) {
    PricesFall(w, t, r) && Thinned(w, r, t)
  }

  lemma LoweredBar(r: KRecord, w: StockWeight)
    requires Denominator(w) != 0.0
    ensures BarLowered(w, r, LowerBar(r, w)) && BarRaised(w, r, RaiseBar(r, w))
  {
    hide ExRights, VolumeShrinks, Lower, Raise, Denominator, Neutral, Trivial, Idle;
    ThinnedBar(r, w);
    hide Thinned;
    LoweredPrice(r.openPrice, w);
    LoweredPrice(r.highPrice, w);
    LoweredPrice(r.lowPrice, w);
    LoweredPrice(r.closePrice, w);
  }

  lemma ThinnedBar(r: KRecord, w: StockWeight)
    requires Denominator(w) != 0.0
    ensures Thinned(w, r, LowerBar(r, w)) && Thinned(w, r, RaiseBar(r, w))
  {
    ThinnedVolume(r.transCount, w);
    hide VolumeShrinks, Lower, Raise, Denominator;
  }

  /** An adjustment applies the events from the midnight before its first bar until its last bar ends. */
  lemma EventsApplied(s: seq<KRecord>, weights: seq<StockWeight>, barSeconds: int)
    requires s != []
    ensures forall w :: w in EventsOf(s, weights, barSeconds)
              <==> w in weights && s[0].datetime - s[0].datetime % 86400 <= w.datetime
                   < s[|s| - 1].datetime + barSeconds
  {
    hide Window;
    WindowDates(weights, DateOf(s[0].datetime), s[|s| - 1].datetime + barSeconds);
  }

  lemma LoweredForOne(s: seq<KRecord>, w: StockWeight, i: nat)
    requires i < |s| && Denominator(w) != 0.0
    ensures Divisible([w])
    ensures Forward(s, [w], 0)[i]
         == if Idle(w) || Trivial(w) || i >= FirstFrom(s, 0, w.datetime) then s[i] else LowerBar(s[i], w)
  {
    hide Idle, Trivial, Denominator, LowerBar, FirstFrom;
    assert [w][1..] == [];
  }

  lemma RaisedForOne(s: seq<KRecord>, w: StockWeight, i: nat)
    requires i < |s| && Denominator(w) != 0.0
    ensures Divisible([w])
    ensures Backward(s, [w], |s| - 1)[i]
         == if Idle(w) || Trivial(w) || i < Cut(s, w.datetime) then s[i] else RaiseBar(s[i], w)
  {
    hide Idle, Trivial, Denominator, RaiseBar, CutBack;
    assert [w][..0] == [];
  }

  /** Forward adjustment for one event: the bars before its date are lowered, the others stay. */
  lemma OneEventForward(s: seq<KRecord>, weights: seq<StockWeight>, barSeconds: int, w: StockWeight, i: nat)
    requires Ordered(s) && i < |s| && EventsOf(s, weights, barSeconds) == [w] && EventsDivisible(s, weights, barSeconds)
    ensures var t := ForwardAdjusted(s, weights, barSeconds)[i];
            if s[i].datetime < w.datetime && !Neutral(w) then BarLowered(w, s[i], t) else t == s[i]
  {
    assert [w][0] == w && Denominator(w) != 0.0;
    LoweredBar(s[i], w);
    LoweredPrice(0.0, w);
    LoweredForOne(s, w, i);
    assert i < FirstFrom(s, 0, w.datetime) <==> s[i].datetime < w.datetime;
    hide Forward, EventsOf, LowerBar, BarLowered, BarRaised, Idle, Trivial, Denominator, Neutral, FirstFrom;
  }

  /** Backward adjustment for one event: the bars from the cut on are raised, the others stay. */
  lemma OneEventBackward(s: seq<KRecord>, weights: seq<StockWeight>, barSeconds: int, w: StockWeight, i: nat)
    requires Ordered(s) && i < |s| && EventsOf(s, weights, barSeconds) == [w] && EventsDivisible(s, weights, barSeconds)
    ensures var t := BackwardAdjusted(s, weights, barSeconds)[i];
            if Cut(s, w.datetime) <= i && !Neutral(w) then BarRaised(w, s[i], t) else t == s[i]
  {
    assert [w][0] == w && Denominator(w) != 0.0;
    LoweredBar(s[i], w);
    LoweredPrice(0.0, w);
    RaisedForOne(s, w, i);
    hide Backward, EventsOf, RaiseBar, BarLowered, BarRaised, Idle, Trivial, Denominator, Neutral, Cut;
  }

  // ---------------------------------------------------------------------------------------------------------
  // Equal ratios

  /** Of a record-date close `c` the event leaves the ex-rights price; prices and `c` move by one ratio. */
  predicate ByOneRatio(w: StockWeight, c: real, x: real, y: real) {
    if w.suogu != 0.0 then w.suogu * y == x
    else (10.0 + Gained(w)) * c * y == (10.0 * c - w.bonus + w.priceForSell * Gained(w)) * x
  }

  predicate Divides(w: StockWeight) {
    if w.suogu != 0.0 then true else 10.0 + Gained(w) != 0.0
  }

  /** What the event leaves of the close is not zero. */
  predicate Leaves(w: StockWeight, c: real) {
    if w.suogu != 0.0 then c != 0.0 else 10.0 * c - w.bonus + w.priceForSell * Gained(w) != 0.0
  }

  lemma Tenfold(w: StockWeight, c: real)
    ensures Denominator(w) != 0.0 <==> Divides(w)
    ensures Shifted(w, c) != 0.0 <==> Leaves(w, c)
    ensures w.suogu == 0.0 ==> 10.0 * Denominator(w) == 10.0 + Gained(w)
    ensures w.suogu == 0.0 ==> 10.0 * Shifted(w, c) == 10.0 * c - w.bonus + w.priceForSell * Gained(w)
    ensures w.suogu != 0.0 ==> Denominator(w) == w.suogu && Shifted(w, c) == c
  {
    assert w.priceForSell * Change(w) * 10.0 == w.priceForSell * Gained(w);
  }

  lemma RatioOf(w: StockWeight, c: real, x: real)
    requires Denominator(w) != 0.0
    ensures c != 0.0 ==> ByOneRatio(w, c, x, Times(LowerRatio(w, c), x))
    ensures Shifted(w, c) != 0.0 ==> ByOneRatio(w, c, Times(RaiseRatio(w, c), x), x)
  {
    var d, t := Denominator(w), Shifted(w, c);
    if c != 0.0 {
      CrossMultiplied(t, d * c, x);
      OneRatio(w, c, x, Times(LowerRatio(w, c), x));
    }
    if t != 0.0 {
      CrossMultiplied(d * c, t, x);
      OneRatio(w, c, Times(RaiseRatio(w, c), x), x);
    }
  }

  lemma OneRatio(w: StockWeight, c: real, x: real, y: real)
    requires (w.suogu != 0.0 ==> c != 0.0) && (Denominator(w) * c) * y == Shifted(w, c) * x
    ensures ByOneRatio(w, c, x, y)
  {
    Tenfold(w, c);
    hide Denominator, Shifted;
    if w.suogu != 0.0 {
      assert c * (w.suogu * y) == c * x;
      Cancelled(c, w.suogu * y, x);
    } else {
      assert (10.0 + Gained(w)) * c * y == 10.0 * ((Denominator(w) * c) * y);
      assert (10.0 * c - w.bonus + w.priceForSell * Gained(w)) * x == 10.0 * (Shifted(w, c) * x);
    }
  }

  lemma Cancelled(c: real, x: real, y: real)
    requires c != 0.0 && c * x == c * y
    ensures x == y
  {
    assert c * (x - y) == 0.0;
  }

  lemma CrossMultiplied(a: real, b: real, x: real)
    requires b != 0.0
    ensures b * Times(Ratio(a, b), x) == a * x
  {
    assert b * (a / b) == a;
    assert b * (a / b * x) == (b * (a / b)) * x;
  }

  /** A bar moved by one ratio for a close `c`; the count moves by the shares, and the amount follows. */
  predicate BarScaledDown(w: StockWeight, c: real, r: KRecord, t: KRecord) {
    && ByOneRatio(w, c, r.openPrice, t.openPrice) && ByOneRatio(w, c, r.highPrice, t.highPrice)
    && ByOneRatio(w, c, r.lowPrice, t.lowPrice) && ByOneRatio(w, c, r.closePrice, t.closePrice)
    && Thinned(w, r, t)
  }

  predicate BarScaledUp(w: StockWeight, c: real, r: KRecord, t: KRecord) {
    && ByOneRatio(w, c, t.openPrice, r.openPrice) && ByOneRatio(w, c, t.highPrice, r.highPrice)
    && ByOneRatio(w, c, t.lowPrice, r.lowPrice) && ByOneRatio(w, c, t.closePrice, r.closePrice)
    && t.datetime == r.datetime && VolumeShrinks(w, t.transCount, r.transCount)
    && t.transAmount == Times(t.closePrice, t.transCount)
  }

  lemma ScaledFields(r: KRecord, k: real, countFactor: real)
    ensures var t := ScaleBar(r, k, countFactor);
            && t.datetime == r.datetime && t.openPrice == Times(k, r.openPrice) && t.highPrice == Times(k, r.highPrice)
            && t.lowPrice == Times(k, r.lowPrice) && t.closePrice == Times(k, r.closePrice)
            && t.transCount == r.transCount * countFactor && t.transAmount == Times(t.closePrice, t.transCount)
  {
  }

  lemma ScaledDown(w: StockWeight, c: real, r: KRecord)
    requires c != 0.0 && Denominator(w) != 0.0
    ensures BarScaledDown(w, c, r, ScaleBar(r, LowerRatio(w, c), 1.0 / Denominator(w)))
  {
    var d := Denominator(w);
    var t := ScaleBar(r, LowerRatio(w, c), 1.0 / d);
    ScaledFields(r, LowerRatio(w, c), 1.0 / d);
    Undone(r.transCount, d);
    assert d * t.transCount == r.transCount;
    hide ByOneRatio, VolumeShrinks, Denominator, Shifted, LowerRatio, RaiseRatio, ScaleBar, Times;
    RatioOf(w, c, r.openPrice);
    RatioOf(w, c, r.highPrice);
    RatioOf(w, c, r.lowPrice);
    RatioOf(w, c, r.closePrice);
    Volumes(r.transCount, t.transCount, w);
  }

  lemma ScaledUp(w: StockWeight, c: real, r: KRecord)
    requires Denominator(w) != 0.0 && Shifted(w, c) != 0.0
    ensures BarScaledUp(w, c, r, ScaleBar(r, RaiseRatio(w, c), Denominator(w)))
  {
    var d := Denominator(w);
    assert d * r.transCount == r.transCount * d;
    ScaledFields(r, RaiseRatio(w, c), d);
    hide ByOneRatio, VolumeShrinks, Denominator, Shifted, LowerRatio, RaiseRatio, ScaleBar, Times;
    RatioOf(w, c, r.openPrice);
    RatioOf(w, c, r.highPrice);
    RatioOf(w, c, r.lowPrice);
    RatioOf(w, c, r.closePrice);
    Volumes(r.transCount * d, r.transCount, w);
  }

  lemma EqualLoweredForOne(s: seq<KRecord>, w: StockWeight, i: nat)
    requires i < |s|
    ensures var cut := FirstFrom(s, 0, w.datetime);
            EqualForward(s, s, [w], 0)[i]
            == if i >= cut || Idle(w) || Trivial(w) || Denominator(w) == 0.0 || s[cut - 1].closePrice == 0.0 then s[i]
               else ScaleBar(s[i], LowerRatio(w, s[cut - 1].closePrice), 1.0 / Denominator(w))
  {
    hide Idle, Trivial, Denominator, ScaleBar, FirstFrom, LowerRatio;
    assert [w][1..] == [];
  }

  lemma EqualRaisedForOne(s: seq<KRecord>, w: StockWeight, i: nat)
    requires i < |s|
    ensures var cut := Cut(s, w.datetime);
            EqualBackward(s, [w], |s| - 1)[i]
            == if cut == 0 || i < cut || Denominator(w) == 0.0 || Shifted(w, s[cut - 1].closePrice) == 0.0 then s[i]
               else ScaleBar(s[i], RaiseRatio(w, s[cut - 1].closePrice), Denominator(w))
  {
    hide Denominator, Shifted, ScaleBar, CutBack, RaiseRatio;
    assert [w][..0] == [];
  }

  /** Equal-ratio forward adjustment for one event: the bars before its date move by the ratio the event gives the last
      close before it, unless that close is zero. */
  lemma OneEventEqualForward(s: seq<KRecord>, weights: seq<StockWeight>, barSeconds: int, w: StockWeight, i: nat)
    requires Ordered(s) && i < |s| && EventsOf(s, weights, barSeconds) == [w]
    ensures var t, at := EqualForwardAdjusted(s, weights, barSeconds)[i], Place(s, w.datetime);
            if s[i].datetime < w.datetime && !Neutral(w) && Divides(w) && s[at - 1].closePrice != 0.0
            then BarScaledDown(w, s[at - 1].closePrice, s[i], t)
            else t == s[i]
  {
    var at := FirstFrom(s, 0, w.datetime);
    EqualLoweredForOne(s, w, i);
    assert i < at <==> s[i].datetime < w.datetime;
    Tenfold(w, 1.0);
    if Divides(w) {
      LoweredPrice(0.0, w);
    }
    hide EqualForward, EventsOf, ScaleBar, BarScaledDown, BarScaledUp, Idle, Trivial, Denominator, Neutral, Divides,
         FirstFrom, LowerRatio, RaiseRatio;
    if i < at && !Neutral(w) && Divides(w) && s[at - 1].closePrice != 0.0 {
      ScaledDown(w, s[at - 1].closePrice, s[i]);
    }
  }

  /** Equal-ratio backward adjustment for one event: the bars from the cut on move back by the ratio the event gives the
      close before the cut, unless nothing is left of that close. */
  lemma OneEventEqualBackward(s: seq<KRecord>, weights: seq<StockWeight>, barSeconds: int, w: StockWeight, i: nat)
    requires Ordered(s) && i < |s| && EventsOf(s, weights, barSeconds) == [w]
    ensures var t, cut := EqualBackwardAdjusted(s, weights, barSeconds)[i], Cut(s, w.datetime);
            if 0 < cut <= i && Divides(w) && Leaves(w, s[cut - 1].closePrice)
            then BarScaledUp(w, s[cut - 1].closePrice, s[i], t)
            else t == s[i]
  {
    var cut := Cut(s, w.datetime);
    EqualRaisedForOne(s, w, i);
    hide EqualBackward, EventsOf, ScaleBar, BarScaledDown, BarScaledUp, Denominator, Divides, Leaves, Cut, LowerRatio,
         RaiseRatio, Shifted;
    if 0 < cut <= i {
      Tenfold(w, s[cut - 1].closePrice);
      if Divides(w) && Leaves(w, s[cut - 1].closePrice) {
        ScaledUp(w, s[cut - 1].closePrice, s[i]);
      }
    }
  }

  // ---------------------------------------------------------------------------------------------------------
  // The holder loses nothing

  /** Without subscription and consolidation: the shares held after an event, at the forward-adjusted price of a bar
      before it, and their dividend are worth what the shares held before were worth at the unadjusted price. */
  lemma HolderLosesNothing(precision: nat, p: Position, s: seq<KRecord>, weights: seq<StockWeight>, barSeconds: int,
                           w: StockWeight, i: nat)
    requires Ordered(s) && i < |s| && EventsOf(s, weights, barSeconds) == [w] && EventsDivisible(s, weights, barSeconds)
    requires s[i].datetime < w.datetime && w.suogu == 0.0 && w.countForSell == 0.0 && w.priceForSell == 0.0
    ensures var held := SettleEvent(precision, p, w).position.number;
            var adjusted := ForwardAdjusted(s, weights, barSeconds)[i].closePrice;
            held * adjusted + p.number * w.bonus / 10.0 == p.number * s[i].closePrice
  {
    hide SettleEvent, ForwardAdjusted, EventsOf, EventsDivisible, BarLowered, Neutral, Consolidated, WithGifts;
    OneEventForward(s, weights, barSeconds, w, i);
    SharesOfEvent(precision, p, w);
    var held, t := SettleEvent(precision, p, w).position.number, ForwardAdjusted(s, weights, barSeconds)[i];
    LoweredByOne(w, s[i], t);
    assert 10.0 + w.countAsGift + w.increasement == 10.0 + Gained(w);
    hide Gained;
    SameWorth(p.number, held, 10.0 + Gained(w), s[i].closePrice, t.closePrice, w.bonus);
  }

  lemma LoweredByOne(w: StockWeight, r: KRecord, t: KRecord)
    requires w.suogu == 0.0 && w.priceForSell == 0.0 && if !Neutral(w) then BarLowered(w, r, t) else t == r
    ensures (10.0 + Gained(w)) * t.closePrice == 10.0 * r.closePrice - w.bonus
  {
  }

  lemma SameWorth(n: real, held: real, k: real, x: real, y: real, bonus: real)
    requires 10.0 * held == n * k && k * y == 10.0 * x - bonus
    ensures held * y + n * bonus / 10.0 == n * x
  {
    assert 10.0 * (held * y) == (n * k) * y == n * (k * y);
    assert n * (10.0 * x - bonus) == 10.0 * (n * x) - n * bonus;
  }
}
