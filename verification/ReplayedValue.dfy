/**
 The market value of the historical funds.  The replay values each holding it has rebuilt at the whole shares in it, so
 it finds the live market value exactly where what it drops is worth nothing.
 */
module ReplayedValue {
  import opened Keys
  import opened Rounding
  import opened Accounts
  import opened Meters
  import opened Funds
  import opened Replay

  // ---------------------------------------------------------------------------------------------------------
  // Sums over stocks

  ghost function SumOf(ids: set<StockId>, f: StockId -> int): int
    decreases |ids|
  {
    if ids == {} then 0
    else
      var id := Least(ids);
      f(id) + SumOf(ids - {id}, f)
  }

  lemma {:induction false} SumWithout(ids: set<StockId>, id: StockId, f: StockId -> int)
    requires id in ids
    ensures SumOf(ids, f) == f(id) + SumOf(ids - {id}, f)
    decreases |ids|
  {
    var least := Least(ids);
    if id != least {
      SumWithout(ids - {least}, id, f);
      assert least in ids - {id} && least == Least(ids - {id});
      assert ids - {least} - {id} == ids - {id} - {least};
    }
  }

  /** Stocks that add nothing can be left out. */
  lemma {:induction false} SumOfFewer(ids: set<StockId>, all: set<StockId>, f: StockId -> int)
    requires ids <= all && forall id <- all - ids :: f(id) == 0
    ensures SumOf(all, f) == SumOf(ids, f)
    decreases |all|
  {
    if all != {} {
      var id := Least(all);
      if id in ids {
        SumWithout(ids, id, f);
        SumOfFewer(ids - {id}, all - {id}, f);
      } else {
        SumOfFewer(ids, all - {id}, f);
      }
    }
  }

  lemma {:induction false} SumsCompare(ids: set<StockId>, f: StockId -> int, g: StockId -> int)
    requires forall id <- ids :: f(id) <= g(id)
    ensures SumOf(ids, f) <= SumOf(ids, g)
    ensures SumOf(ids, f) == SumOf(ids, g) <==> forall id <- ids :: f(id) == g(id)
    decreases |ids|
  {
    if ids != {} {
      var least := Least(ids);
      SumsCompare(ids - {least}, f, g);
      assert forall id <- ids :: id == least || id in ids - {least};
    }
  }

  // ---------------------------------------------------------------------------------------------------------
  // The replayed market value

  /** The last loops of the historical funds: holdings without a whole share are passed over. */
  ghost function ReplayedMarketValue(cfg: Config, ids: set<StockId>, m: map<StockId, real>, price: StockId -> real,
                                     acc: int): int
    requires ids <= m.Keys
    decreases |ids|
  {
    if ids == {} then acc
    else
      var id := Least(ids);
      var n := Truncated(m[id]);
      ReplayedMarketValue(cfg, ids - {id}, m, price,
                          if n == 0.0 then acc
                          else RoundUnits(Value(acc, cfg.precision) + Amount(cfg, id, price(id), n), cfg.precision))
  }

  /** Prices and units are not negative. */
  ghost predicate Valued(cfg: Config, price: StockId -> real) {
    cfg.precision <= 9 && forall id: StockId :: price(id) >= 0.0 && cfg.unit(id) >= 0.0
  }

  lemma WorthGrows(cfg: Config, price: StockId -> real, id: StockId, n: real, n': real)
    requires Valued(cfg, price) && 0.0 <= n <= n'
    ensures 0.0 <= Amount(cfg, id, price(id), n) <= Amount(cfg, id, price(id), n')
    ensures 0 <= Worth(cfg, id, price(id), n) <= Worth(cfg, id, price(id), n')
    ensures n == 0.0 ==> Worth(cfg, id, price(id), n) == 0
  {
    var p, u := price(id), cfg.unit(id);
    assert p * n >= 0.0 && p * (n' - n) >= 0.0 && p * n' == p * n + p * (n' - n);
    assert p * n' * u == p * n * u + p * (n' - n) * u;
    hide RoundUnits;
    RoundNonNegative(Amount(cfg, id, p, n), cfg.precision);
    RoundMonotoneAndNear(Amount(cfg, id, p, n), Amount(cfg, id, p, n'), cfg.precision);
    if n == 0.0 {
      assert Amount(cfg, id, p, n) == Value(0, cfg.precision);
      RoundingFixesGrid(cfg.precision);
    }
  }

  lemma {:induction false} ReplayedIsSum(cfg: Config, ids: set<StockId>, m: map<StockId, real>, price: StockId -> real,
                                         f: StockId -> int, acc: int)
    requires Valued(cfg, price) && ids <= m.Keys && acc >= 0
    requires forall id <- ids :: m[id] >= 0.0 && f(id) == Worth(cfg, id, price(id), Truncated(m[id]))
    ensures ReplayedMarketValue(cfg, ids, m, price, acc) == acc + SumOf(ids, f)
    decreases |ids|
  {
    hide Worth, Amount, RoundUnits, Value, Truncated, Valued;
    if ids != {} {
      var id := Least(ids);
      var n := Truncated(m[id]);
      TruncatedBounds(m[id]);
      WorthGrows(cfg, price, id, n, n);
      if n == 0.0 {
        ReplayedIsSum(cfg, ids - {id}, m, price, f, acc);
      } else {
        ValuedPrecision(cfg, price);
        WorthIs(cfg, id, price(id), n);
        RunningTotal(Amount(cfg, id, price(id), n), acc, cfg.precision);
        ReplayedIsSum(cfg, ids - {id}, m, price, f, acc + f(id));
      }
    }
  }

  lemma TruncatedBounds(n: real)
    requires n >= 0.0
    ensures 0.0 <= Truncated(n) <= n
  {
  }

  lemma ValuedPrecision(cfg: Config, price: StockId -> real)
    requires Valued(cfg, price)
    ensures cfg.precision <= 9
  {
  }

  lemma WorthIs(cfg: Config, id: StockId, price: real, number: real)
    ensures Worth(cfg, id, price, number) == RoundUnits(Amount(cfg, id, price, number), cfg.precision)
  {
  }

  lemma {:induction false} WorthsAreSum(cfg: Config, ids: set<StockId>, positions: map<StockId, Position>,
                                        price: StockId -> real, g: StockId -> int)
    requires ids <= positions.Keys && forall id <- ids :: g(id) == Worth(cfg, id, price(id), positions[id].number)
    ensures Worths(cfg, ids, positions, price) == SumOf(ids, g)
    decreases |ids|
  {
    hide Worth;
    if ids != {} {
      WorthsAreSum(cfg, ids - {Least(ids)}, positions, price, g);
    }
  }

  /** The replay finds no negative number of shares, which an unsigned integer cannot hold. */
  ghost predicate Findable(log: seq<TradeRecord>, b: Book) {
    forall id: StockId :: !FirstIsNegative(LongSide, id, log) && Lost(LongSide, id, log) <= NumberIn(b.positions, id)
  }

  lemma LostIsFraction(side: Side, id: StockId, log: seq<TradeRecord>)
    ensures 0.0 <= Lost(side, id, log) < 1.0
  {
  }

  /** Over every run, the replayed market value of the full log is not above the live one, and equals it exactly when of
      each holding what the replay drops does not change the rounded worth. */
  lemma MarketValueRebuiltExactly(cfg: Config, d: int, initCash: real, ops: seq<Op>, price: StockId -> real)
    requires Sorts(cfg) && Valued(cfg, price)
    requires var a := Run(cfg, Opened(cfg, d, initCash), ops); Findable(a.trades, a.book)
    ensures var a := Run(cfg, Opened(cfg, d, initCash), ops);
            var m, held := ReplayFrom(cfg, EMPTY, a.trades).longs, a.book.positions;
            var replayed := ReplayedMarketValue(cfg, m.Keys, m, price, 0);
            var live := MarketValue(cfg, held.Keys, held, price, 0);
            held.Keys <= m.Keys && replayed <= live
            && (replayed == live
                <==> forall id <- held ::
                       Worth(cfg, id, price(id), Truncated(m[id])) == Worth(cfg, id, price(id), held[id].number))
  {
    var a := Run(cfg, Opened(cfg, d, initCash), ops);
    var m, held := ReplayFrom(cfg, EMPTY, a.trades).longs, a.book.positions;
    hide Run, Opened, Sorts, ReplayFrom, MarketValue, ReplayedMarketValue, Worth, Amount, Truncated,
         Lost, Valued, FirstIsNegative;
    forall id: StockId
      ensures 0.0 <= Entry(m, id) <= NumberIn(held, id) && (id in held ==> id in m)
    {
      ReplayRebuilds(cfg, d, initCash, ops, LongSide, id);
      LostIsFraction(LongSide, id, a.trades);
    }
    ValuesCompare(cfg, m, held, price);
  }

  lemma ValuesCompare(cfg: Config, m: map<StockId, real>, held: map<StockId, Position>, price: StockId -> real)
    requires Valued(cfg, price)
    requires forall id: StockId :: 0.0 <= Entry(m, id) <= NumberIn(held, id) && (id in held ==> id in m)
    ensures held.Keys <= m.Keys
    ensures var replayed := ReplayedMarketValue(cfg, m.Keys, m, price, 0);
            var live := MarketValue(cfg, held.Keys, held, price, 0);
            replayed <= live
            && (replayed == live
                <==> forall id <- held ::
                       Worth(cfg, id, price(id), Truncated(m[id])) == Worth(cfg, id, price(id), held[id].number))
  {
    hide Worth, Amount, Truncated, MarketValue, ReplayedMarketValue, RoundUnits, Value;
    var f: StockId -> int := (id: StockId) => Worth(cfg, id, price(id), Truncated(Entry(m, id)));
    var g: StockId -> int := (id: StockId) => Worth(cfg, id, price(id), NumberIn(held, id));
    forall id: StockId
      ensures 0 <= f(id) <= g(id) && (id !in held ==> f(id) == 0)
      ensures Amount(cfg, id, price(id), NumberIn(held, id)) >= 0.0
    {
      assert 0.0 <= Entry(m, id) <= NumberIn(held, id);
      TruncatedBounds(Entry(m, id));
      WorthGrows(cfg, price, id, Truncated(Entry(m, id)), NumberIn(held, id));
    }
    ReplayedIsSum(cfg, m.Keys, m, price, f, 0);
    SumOfFewer(held.Keys, m.Keys, f);
    assert Priced(cfg, held, price);
    MarketValueIsSum(cfg, held.Keys, held, price, 0);
    WorthsAreSum(cfg, held.Keys, held, price, g);
    SumsCompare(held.Keys, f, g);
    assert forall id <- held :: f(id) == Worth(cfg, id, price(id), Truncated(m[id]));
    assert forall id <- held :: g(id) == Worth(cfg, id, price(id), held[id].number);
  }
}
