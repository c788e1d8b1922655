/**
 What one ex-rights event does to a held position, in shares and money per ten shares, and what a settlement of events
 does to the number of shares held.
 */
module EventLaws {
  import opened Options
  import opened Calendar
  import opened Rounding
  import opened Weights
  import opened Accounts

  /** The shares held once the gifts of an event have been added. */
  function WithGifts(number: real, w: StockWeight): real {
    number * (10.0 + w.countAsGift + w.increasement) / 10.0
  }

  lemma GiftsPerTen(number: real, w: StockWeight)
    ensures 10.0 * WithGifts(number, w) == number * (10.0 + w.countAsGift + w.increasement)
    ensures WithGifts(number, w) == number + number / 10.0 * (w.countAsGift + w.increasement)
  {
  }

  predicate Whole(x: real) {
    x.Floor as real == x
  }

  lemma OnGridOfOne(x: real)
    ensures OnGrid(x, 0) <==> Whole(x)
    ensures Unit(0) == 1.0
  {
    assert Pow10(0) == 1.0;
    assert Scaled(x, 0) == x;
  }

  /** A consolidation that leaves fewer shares rounds up to a whole number beyond, one that leaves more is cut off to a
      whole number, and one that changes nothing leaves a fraction as it is. */
  predicate Consolidated(m: real, ratio: real, n: real) {
    && (m * ratio < m ==> Whole(n) && Size(m * ratio) < Size(n) <= Size(m * ratio) + 1.0)
    && (m * ratio > m ==> Whole(n) && Size(n) <= Size(m * ratio) < Size(n) + 1.0)
    && (m * ratio == m ==> n == m)
  }

  lemma ConsolidatedIs(m: real, ratio: real)
    ensures Consolidated(m, ratio, ConsolidatedNumber(m, ratio))
  {
    var x := m * ratio;
    RoundUpGoesOut(x, 0);
    RoundDownTruncates(x, 0);
    OnGridOfOne(RoundUp(x, 0));
    OnGridOfOne(RoundDown(x, 0));
    hide RoundUp, RoundDown, Unit, OnGrid, Whole, Size;
  }

  /** Ten shares become ten and the gifts; a consolidation follows on the gifts; nothing else of the position changes
      but the money it has brought in. */
  lemma SharesOfEvent(precision: nat, p: Position, w: StockWeight)
    ensures var s := SettleEvent(precision, p, w);
            var q := s.position;
            && (w.suogu <= 0.0 ==> 10.0 * q.number == p.number * (10.0 + w.countAsGift + w.increasement))
            && (w.suogu > 0.0 ==> Consolidated(WithGifts(p.number, w), w.suogu, q.number))
            && 10.0 * (q.totalNumber - p.totalNumber) == p.number * (w.countAsGift + w.increasement)
            && q == p.(number := q.number, totalNumber := q.totalNumber, sellMoney := p.sellMoney + s.bonus)
  {
    hide RoundUnits, ConsolidatedNumber, Consolidated;
    GiftsPerTen(p.number, w);
    ConsolidatedIs(WithGifts(p.number, w), w.suogu);
    var added := p.number / 10.0 * (w.countAsGift + w.increasement);
    assert 10.0 * added == p.number * (w.countAsGift + w.increasement);
  }

  /** Two holdings receive together what they receive one by one. */
  lemma SharesAdd(precision: nat, p: Position, q: Position, r: Position, w: StockWeight)
    requires w.suogu <= 0.0 && r.number == p.number + q.number
    ensures SettleEvent(precision, r, w).position.number
         == SettleEvent(precision, p, w).position.number + SettleEvent(precision, q, w).position.number
  {
    SharesOfEvent(precision, p, w);
    SharesOfEvent(precision, q, w);
    SharesOfEvent(precision, r, w);
    hide SettleEvent;
    var k := 10.0 + w.countAsGift + w.increasement;
    assert (p.number + q.number) * k == p.number * k + q.number * k;
  }

  lemma NothingRounds(precision: nat)
    requires precision <= 9
    ensures RoundUnits(0.0, precision) == 0
  {
    RoundingFixesGrid(precision);
    assert Value(0, precision) == 0.0;
    assert RoundUnits(Value(0, precision), precision) == 0;
  }

  lemma PaidBonus(precision: nat, p: Position, w: StockWeight)
    requires precision <= 9
    ensures PayBonus(precision, p, w).bonus == RoundUnits(p.number * w.bonus / 10.0, precision)
  {
    assert p.number * w.bonus * 0.1 == p.number * w.bonus / 10.0;
    if w.bonus == 0.0 {
      NothingRounds(precision);
      SameRounding(p.number * w.bonus / 10.0, 0.0, precision);
    }
  }

  lemma BonusOfEvent(precision: nat, p: Position, w: StockWeight)
    requires precision <= 9
    ensures SettleEvent(precision, p, w).bonus == RoundUnits(p.number * w.bonus / 10.0, precision)
  {
    PaidBonus(precision, p, w);
    assert w.bonus == 0.0 ==> PayBonus(precision, p, w).bonus == 0;
    hide RoundUnits, PayBonus, AddShares, Consolidate;
  }

  lemma SameRounding(x: real, y: real, n: nat)
    requires x == y
    ensures RoundUnits(x, n) == RoundUnits(y, n)
  {
  }

  /** The dividend of ten shares, for the shares held before the event: the nearest amount of money, and an exact amount
      of money exactly. */
  lemma DividendOfEvent(precision: nat, p: Position, w: StockWeight, k: int)
    requires precision <= 9
    ensures var s, exact := SettleEvent(precision, p, w), p.number * w.bonus / 10.0;
            && -0.5 - Bias(precision) <= s.bonus as real - Scale(exact, precision) <= 0.5 + Bias(precision)
            && (exact == Value(k, precision) ==> s.bonus == k)
  {
    var exact := p.number * w.bonus / 10.0;
    BonusOfEvent(precision, p, w);
    hide RoundUnits, SettleEvent, Value, Scale, Bias;
    RoundMonotoneAndNear(exact, exact, precision);
    RoundingFixesGrid(precision);
    assert RoundUnits(Value(k, precision), precision) == k;
  }

  /** The records of an event: the dividend, the shares it gave, and what a consolidation changed of their number. */
  lemma RecordsOfEvent(precision: nat, p: Position, w: StockWeight)
    ensures var s := SettleEvent(precision, p, w);
            var given, changed := WithGifts(p.number, w) - p.number, s.position.number - WithGifts(p.number, w);
            s.records
            == (if w.bonus == 0.0 then [] else [TradeRecord(Bonus, Some(p.stock), w.datetime, s.bonus, 0.0, 0.0, 0)])
               + (if given == 0.0 then []
                  else [TradeRecord(Gift, Some(p.stock), w.datetime, 0, 0.0, given, 0)])
               + (if w.suogu <= 0.0 || changed == 0.0 then []
                  else [TradeRecord(Suogu, Some(p.stock), w.datetime, 0, 0.0, changed, 0)])
  {
    hide RoundUnits, ConsolidatedNumber, WithGifts;
    GiftsPerTen(p.number, w);
    var s1 := PayBonus(precision, p, w);
    var s2 := AddShares(s1.position, w);
    var s3 := Consolidate(s2.position, w);
    assert s2.position.number == WithGifts(p.number, w);
    if IsNothing(w) {
      assert s1.records + s2.records + s3.records == [];
      assert SettleEvent(precision, p, w).position.number == p.number;
    } else {
      assert SettleEvent(precision, p, w).records == s1.records + s2.records + s3.records;
    }
  }

  /** A settlement whose window holds one event does this to the position, as the live account shows it. */
  lemma SettledByOneEvent(cfg: Config, b: Book, d: int, id: StockId, w: StockWeight)
    requires b.lastUpdate < d && id in b.positions
    requires Window(cfg.weights(id), NextDay(b.last), NextDay(d)) == [w]
    ensures var q := Update(cfg, b, d).book.positions[id];
            var p := b.positions[id];
            && (w.suogu <= 0.0 ==> 10.0 * q.number == p.number * (10.0 + w.countAsGift + w.increasement))
            && (w.suogu > 0.0 ==> Consolidated(WithGifts(p.number, w), w.suogu, q.number))
            && 10.0 * (q.totalNumber - p.totalNumber) == p.number * (w.countAsGift + w.increasement)
  {
    hide SettleEvent, Window, Consolidated, WithGifts, NextDay;
    var p := b.positions[id];
    SharesOfEvent(cfg.precision, p, w);
    assert [w][..0] == [];
    assert SettleEvents(cfg.precision, p, []) == Settled(p, 0, []);
    assert SettleEvents(cfg.precision, p, [w]).position == SettleEvent(cfg.precision, p, w).position;
  }

  /** What one share becomes over the gifts of `ws`. */
  function GiftFactor(ws: seq<StockWeight>): real {
    if ws == [] then 1.0 else WithGifts(GiftFactor(ws[..|ws| - 1]), ws[|ws| - 1])
  }

  lemma {:induction false} SharesOfEvents(precision: nat, p: Position, ws: seq<StockWeight>)
    requires forall w <- ws :: w.suogu <= 0.0
    ensures SettleEvents(precision, p, ws).position.number == p.number * GiftFactor(ws)
    decreases |ws|
  {
    hide SettleEvent, WithGifts;
    if ws != [] {
      var w, before := ws[|ws| - 1], ws[..|ws| - 1];
      assert w in ws;
      SharesOfEvents(precision, p, before);
      SharesOfEvent(precision, SettleEvents(precision, p, before).position, w);
      GiftsOnGifts(p.number, GiftFactor(before), w, SettleEvents(precision, p, ws).position.number);
    }
  }

  lemma GiftsOnGifts(n: real, f: real, w: StockWeight, m: real)
    requires 10.0 * m == n * f * (10.0 + w.countAsGift + w.increasement)
    ensures m == n * WithGifts(f, w)
  {
    GiftsPerTen(f, w);
    var k := 10.0 + w.countAsGift + w.increasement;
    assert n * f * k == n * (f * k);
    assert n * (f * k) == 10.0 * (n * WithGifts(f, w));
  }

  /** Over any number of events without a consolidation, every share of a holding becomes the same number of shares. */
  lemma SettledShares(cfg: Config, b: Book, d: int, id: StockId)
    requires b.lastUpdate < d && id in b.positions
    requires forall w <- Window(cfg.weights(id), NextDay(b.last), NextDay(d)) :: w.suogu <= 0.0
    ensures Update(cfg, b, d).book.positions[id].number
         == b.positions[id].number * GiftFactor(Window(cfg.weights(id), NextDay(b.last), NextDay(d)))
  {
    hide SettleEvents, Window, GiftFactor, NextDay;
    SharesOfEvents(cfg.precision, b.positions[id], Window(cfg.weights(id), NextDay(b.last), NextDay(d)));
  }
}
