/**
 What borrowing stock, selling it short, covering the sale and giving the stock back are accepted for and what each of
 them changes.
 */
module ShortLaws {
  import opened Options
  import opened Rounding
  import opened Fifo
  import opened Accounts
  import opened Plans
  import opened Settlement
  import opened OrderLaws

  // ---------------------------------------------------------------------------------------------------------
  // Borrowed stock

  /** `number` shares are lent to the account at `price`: a new lot behind those it owes. */
  predicate Lent(cfg: Config, b: Book, p: Posted, d: int, id: StockId, price: real, number: real) {
    var cost, money := cfg.cost(BorrowStockCost(d, id, price, number)), Money(cfg, id, price, number);
    var owed := if id in b.borrowed then b.borrowed[id] else BorrowRecord(0.0, 0, []);
    && p.ok && p.log == [TradeRecord(StockBorrowed, Some(id), d, 0, price, number, cost)]
    && p.book == b.(cash := b.cash - cost, last := d, borrowed := b.borrowed[id :=
                    BorrowRecord(owed.number + number, owed.value + money, owed.lots + [Lot(d, price, number)])])
  }

  lemma PostBorrowStockLaw(cfg: Config, b: Book, d: int, id: StockId, price: real, number: real)
    ensures Lent(cfg, b, PostBorrowStock(cfg, b, d, id, price, number), d, id, price, number)
  {
    MoneyIs(cfg, id, price, number);
    hide Worth, Money;
    assert [] + [Lot(d, price, number)] == [Lot(d, price, number)];
  }

  lemma BorrowStockLaw(cfg: Config, b: Book, d: int, stock: Option<StockId>, price: real, number: real)
    ensures var p, u := BorrowStock(cfg, b, d, stock, price, number), Update(cfg, b, d);
            if stock.None? || number == 0.0 || price <= 0.0 || d < b.last then TurnedAway(b, p)
            else exists f :: Lent(cfg, u.book, f, d, stock.value, price, number) && p == After(u.log, f)
  {
    hide Update, PostBorrowStock, Lent;
    if stock.Some? {
      PostBorrowStockLaw(cfg, Update(cfg, b, d).book, d, stock.value, price, number);
    }
  }

  /** What the cost policy asks for giving back from each of the lots `q`: it asks for the whole order every time. */
  function TouchedLotsCost(cfg: Config, id: StockId, q: seq<Lot>, d: int, price: real, number: real): nat {
    if q == [] then 0
    else TouchedLotsCost(cfg, id, q[..|q| - 1], d, price, number)
         + cfg.cost(ReturnStockCost(q[|q| - 1].datetime, d, id, price, number))
  }

  lemma {:induction false} TouchedLotsFirst(cfg: Config, id: StockId, q: seq<Lot>, d: int, price: real, number: real)
    requires q != []
    ensures TouchedLotsCost(cfg, id, q, d, price, number)
         == cfg.cost(ReturnStockCost(q[0].datetime, d, id, price, number))
            + TouchedLotsCost(cfg, id, q[1..], d, price, number)
    decreases |q|
  {
    if |q| > 1 {
      TouchedLotsFirst(cfg, id, q[..|q| - 1], d, price, number);
      assert q[1..][..|q| - 2] == q[..|q| - 1][1..];
    } else {
      assert q[..0] == [] && q[1..] == [];
    }
  }

  /** A return that ends in the lot `last` costs what the lots up to it are charged, `last` included. */
  lemma {:induction false} ReturnCost(cfg: Config, id: StockId, q: seq<Lot>, last: Lot, rest: seq<Lot>, d: int,
                                      price: real, number: real, n: real)
    requires Total(q) < n <= Total(q) + last.number && Positive(q)
    ensures StockReturnCost(cfg, id, q + [last] + rest, d, price, number, n)
         == TouchedLotsCost(cfg, id, q + [last], d, price, number)
    decreases |q|
  {
    assert (q + [last])[..|q|] == q;
    if q == [] {
      assert q + [last] + rest == [last] + rest;
    } else {
      assert Positive(q[1..]);
      TotalNonNegative(q[1..]);
      ReturnCost(cfg, id, q[1..], last, rest, d, price, number, n - q[0].number);
      TouchedLotsFirst(cfg, id, q + [last], d, price, number);
      assert (q + [last])[1..] == q[1..] + [last];
      assert (q + [last] + rest)[1..] == q[1..] + [last] + rest;
    }
  }

  /** A return of stock from `b` goes through exactly when that much is owed: the oldest lots go, and the debt with the
      last of them. */
  predicate GivenBack(cfg: Config, b: Book, p: Posted, d: int, id: StockId, price: real, number: real) {
    if id !in b.borrowed || number > b.borrowed[id].number then p == Posted(b, [], false, None)
    else
      var owed := b.borrowed[id];
      var cost := StockReturnCost(cfg, id, owed.lots, d, price, number, number);
      var left := BorrowRecord(owed.number - number, owed.value - ReturnedWorth(cfg, id, owed.lots, number, 0),
                               TakeOldest(owed.lots, number));
      && p.ok && p.log == [TradeRecord(StockReturned, Some(id), d, 0, price, number, cost)]
      && p.book == b.(cash := b.cash - cost, last := d,
                      borrowed := if left.lots == [] then b.borrowed - {id} else b.borrowed[id := left])
  }

  lemma PostReturnStockLaw(cfg: Config, b: Book, d: int, id: StockId, price: real, number: real)
    ensures GivenBack(cfg, b, PostReturnStock(cfg, b, d, id, price, number), d, id, price, number)
  {
    hide StockReturnCost, ReturnedWorth, TakeOldest;
  }

  lemma ReturnStockLaw(cfg: Config, b: Book, d: int, stock: Option<StockId>, price: real, number: real)
    ensures var p, u := ReturnStock(cfg, b, d, stock, price, number), Update(cfg, b, d);
            if stock.None? || number == 0.0 || price <= 0.0 || d < b.last then TurnedAway(b, p)
            else exists f :: GivenBack(cfg, u.book, f, d, stock.value, price, number) && p == After(u.log, f)
  {
    hide Update, PostReturnStock, GivenBack;
    if stock.Some? {
      PostReturnStockLaw(cfg, Update(cfg, b, d).book, d, stock.value, price, number);
    }
  }

  // ---------------------------------------------------------------------------------------------------------
  // Short sales

  /** The short position after `sold` more shares; the money it cost is rounded to whole money. */
  predicate Shortened(cfg: Config, shorts: map<StockId, Position>, q: Position, id: StockId, d: int, sold: real,
                      money: int, cost: int)
  {
    if id in shorts then
      var p := shorts[id];
      && q.number == p.number + sold && q.totalNumber == p.totalNumber + sold && q.totalCost == p.totalCost + cost
      && q.sellMoney == p.sellMoney + money && q.sellCount == p.sellCount + 1
      && Value(q.buyMoney, cfg.precision) == RoundUnits(Value(p.buyMoney + cost, cfg.precision), 0) as real
      && q == p.(number := q.number, totalNumber := q.totalNumber, totalCost := q.totalCost, buyMoney := q.buyMoney,
                 sellMoney := q.sellMoney, sellCount := q.sellCount)
    else q == Position(id, d, None, sold, sold, cost, cost, money, 0, 1)
  }

  /** A short sale from `b`: it goes through exactly while some of the borrowed stock is not sold yet, and sells what
      was ordered but no more than that. */
  predicate ShortSale(cfg: Config, b: Book, log: seq<TradeRecord>, p: Posted, d: int, id: StockId, price: real,
                      number: real)
  {
    && (p.trade.Some? <==> id in b.borrowed && (id in b.shorts ==> b.shorts[id].number < b.borrowed[id].number))
    && p.ok == p.trade.Some?
    && if p.trade.None? then p.book == b && p.log == log
       else
         var free := b.borrowed[id].number - if id in b.shorts then b.shorts[id].number else 0.0;
         var sold := if number <= free then number else free;
         var cost := cfg.cost(SellCost(d, id, price, sold));
         var money := NetMoney(cfg, id, price, sold, cost);
         var record := TradeRecord(ShortSold, Some(id), d, 0, price, sold, cost);
         && p.trade == Some(record) && p.log == log + [record]
         && id in p.book.shorts && Shortened(cfg, b.shorts, p.book.shorts[id], id, d, sold, money, cost)
         && p.book == b.(cash := b.cash + money, shorts := b.shorts[id := p.book.shorts[id]], last := d)
  }

  lemma WholeTimes(x: real, w: int, f: real)
    requires f >= 1.0 && f == f.Floor as real && x == w as real
    ensures (x * f).Floor as real / f == w as real
  {
    assert x * f == (w * f.Floor) as real;
  }

  lemma RoundToWhole(x: real)
    ensures RoundEx(x, 0) == RoundUnits(x, 0) as real
  {
    hide RoundUnits;
  }

  lemma WholeMoneyIs(k: int, n: nat)
    ensures Value(WholeMoney(k, n), n) == RoundUnits(Value(k, n), 0) as real
  {
    hide RoundUnits, Pow10, RoundEx;
    Pow10Whole(n);
    RoundToWhole(Value(k, n));
    var v, f := RoundEx(Value(k, n), 0), Pow10(n);
    WholeTimes(v, RoundUnits(Value(k, n), 0), f);
    var m := (v * f).Floor;
    assert m == WholeMoney(k, n);
    assert Value(m, n) == m as real / f;
  }

  lemma PostSellShortLaw(cfg: Config, b: Book, d: int, id: StockId, price: real, number: real, log: seq<TradeRecord>)
    ensures ShortSale(cfg, b, log, After(log, PostSellShort(cfg, b, d, id, price, number)), d, id, price, number)
  {
    var p := PostSellShort(cfg, b, d, id, price, number);
    assert log + [] == log;
    if p.trade.Some? {
      NetMoneyIs(cfg, id, price, p.trade.value.number, p.trade.value.cost);
      if id in b.shorts {
        WholeMoneyIs(b.shorts[id].buyMoney + p.trade.value.cost, cfg.precision);
      }
    }
    hide ShortProceeds, NetMoney, WholeMoney, RoundUnits, Value;
  }

  /** What the account pays in before it borrows the stock of a short sale by itself: what its cash, grossed up by the
      margin rate, leaves of the money and the cost. */
  function ShortDeposit(cfg: Config, b: Book, d: int, id: StockId, price: real, number: real): nat {
    var n, cost := cfg.precision, cfg.cost(SellCost(d, id, price, number));
    var gap := RoundUnits(price * number * cfg.unit(id) + Value(cost, n), n) - RoundUnits(Value(b.cash, n) / 0.6, n);
    if gap > 0 then gap else 0
  }

  /** `f` is `b` with the deposit paid in and the stock borrowed, at a price above zero. */
  ghost predicate Supplied(cfg: Config, b: Book, f: Posted, d: int, id: StockId, price: real, number: real) {
    if !cfg.borrowStock then f == Posted(b, [], true, None)
    else exists c, l ::
      && Raised(cfg, b, c, d, ShortDeposit(cfg, b, d, id, price, number), 0)
      && (if price > 0.0 then Lent(cfg, c.book, l, d, id, price, number) else l == Posted(c.book, [], false, None))
      && f == After(c.log, l)
  }

  lemma SupplyLaw(cfg: Config, b: Book, d: int, id: StockId, price: real, number: real)
    requires cfg.precision <= 9 && SettledFor(b, d) && number != 0.0
    ensures Supplied(cfg, b, BorrowForShort(cfg, b, d, id, price, number), d, id, price, number)
  {
    if cfg.borrowStock {
      var n := cfg.precision;
      var gap := ShortGap(cfg, b, d, id, price, number);
      assert ShortDeposit(cfg, b, d, id, price, number) == if gap > 0 then gap else 0;
      RoundGridValue(gap, n);
      RaisesNothing(cfg, b, d);
      hide RoundUnits, Value, ShortGap, ShortDeposit, Raised, Checkin, Update, PostBorrowStock, Lent, RoundEx;
      var c := if gap > 0 then Checkin(cfg, b, d, Value(gap, n)) else Done(b, []);
      if gap > 0 {
        DepositRaises(cfg, b, d, gap);
      }
      UpdateIdle(cfg, c.book, d);
      PostBorrowStockLaw(cfg, c.book, d, id, price, number);
      var l := BorrowStock(cfg, c.book, d, Some(id), price, number);
      assert [] + PostBorrowStock(cfg, c.book, d, id, price, number).log
          == PostBorrowStock(cfg, c.book, d, id, price, number).log;
      assert BorrowForShort(cfg, b, d, id, price, number) == After(c.log, l);
    }
  }

  lemma SupplyThenSale(cfg: Config, u: Posted, d: int, id: StockId, price: real, number: real)
    requires cfg.precision <= 9 && SettledFor(u.book, d) && number != 0.0
    ensures var f := BorrowForShort(cfg, u.book, d, id, price, number);
            Supplied(cfg, u.book, f, d, id, price, number)
            && ShortSale(cfg, f.book, u.log + f.log,
                         After(u.log, After(f.log, PostSellShort(cfg, f.book, d, id, price, number))),
                         d, id, price, number)
  {
    hide PostSellShort, ShortSale, Supplied, BorrowForShort;
    var f := BorrowForShort(cfg, u.book, d, id, price, number);
    SupplyLaw(cfg, u.book, d, id, price, number);
    PostSellShortLaw(cfg, f.book, d, id, price, number, u.log + f.log);
    assert u.log + (f.log + PostSellShort(cfg, f.book, d, id, price, number).log)
        == u.log + f.log + PostSellShort(cfg, f.book, d, id, price, number).log;
  }

  lemma SellShortLaw(cfg: Config, b: Book, d: int, stock: Option<StockId>, price: real, number: real, stoploss: real)
    requires Environment(cfg) && b.last <= b.lastUpdate
    ensures var p, u := SellShort(cfg, b, d, stock, price, number, stoploss), Update(cfg, b, d);
            if stock.None? || d < b.last || !Tradable(cfg, stock.value, number) || (stoploss < price && stoploss != 0.0)
            then TurnedAway(b, p)
            else exists f :: Supplied(cfg, u.book, f, d, stock.value, price, number)
                             && ShortSale(cfg, f.book, u.log + f.log, p, d, stock.value, price, number)
  {
    if stock.Some? && d >= b.last && Tradable(cfg, stock.value, number) && !(stoploss < price && stoploss != 0.0) {
      SettlesFor(cfg, b, d);
      SupplyThenSale(cfg, Update(cfg, b, d), d, stock.value, price, number);
      hide Environment, Update, PostSellShort, ShortSale, Supplied, BorrowForShort;
    }
  }

  // ---------------------------------------------------------------------------------------------------------
  // Covering

  /** A short position is bought back, all of it at most; the cash may fall below zero. */
  predicate Cover(cfg: Config, b: Book, p: Posted, d: int, id: StockId, price: real, q: Quantity)
    requires id in b.shorts
  {
    var held := b.shorts[id];
    var number := if q.Shares? && q.number <= held.number then q.number else held.number;
    var money, cost := Money(cfg, id, price, number), cfg.cost(BuyCost(d, id, price, number));
    var record := TradeRecord(ShortCovered, Some(id), d, 0, price, number, cost);
    var left := held.(number := held.number - number, totalCost := held.totalCost + cost,
                      buyMoney := held.buyMoney + money + cost, buyCount := held.buyCount + 1);
    && p.trade == Some(record) && p.log == [record]
    && Parts(b.shorts, b.shortHistory, p.book.shorts, p.book.shortHistory, id, left, Some(d))
    && p.book == b.(cash := b.cash - money - cost, shorts := p.book.shorts, shortHistory := p.book.shortHistory,
                    last := d)
  }

  lemma PostBuyShortLaw(cfg: Config, b: Book, d: int, id: StockId, price: real, q: Quantity)
    requires id in b.shorts
    ensures Cover(cfg, b, PostBuyShort(cfg, b, d, id, price, q), d, id, price, q)
  {
    var held := b.shorts[id];
    MoneyIs(cfg, id, price, if q.Shares? && q.number <= held.number then q.number else held.number);
    hide Worth, Money;
  }

  /** An account that borrows by itself gives `number` shares back, if there are any and they have a price. */
  predicate HandedBack(cfg: Config, b: Book, r: Posted, d: int, id: StockId, price: real, number: real) {
    if cfg.borrowStock && number != 0.0 && price > 0.0 then GivenBack(cfg, b, r, d, id, price, number)
    else r.book == b && r.log == []
  }

  lemma CoverThenReturn(cfg: Config, b: Book, d: int, id: StockId, price: real, q: Quantity)
    requires SettledFor(b, d) && id in b.shorts
    ensures var s := PostBuyShort(cfg, b, d, id, price, q);
            && Cover(cfg, b, s, d, id, price, q)
            && var r := if cfg.borrowStock then ReturnStock(cfg, s.book, d, Some(id), price, s.trade.value.number)
                        else Done(s.book, []);
               HandedBack(cfg, s.book, r, d, id, price, s.trade.value.number)
  {
    hide PostReturnStock, GivenBack, Update, Worth;
    var s := PostBuyShort(cfg, b, d, id, price, q);
    PostBuyShortLaw(cfg, b, d, id, price, q);
    UpdateIdle(cfg, s.book, d);
    PostReturnStockLaw(cfg, s.book, d, id, price, s.trade.value.number);
    var f := PostReturnStock(cfg, s.book, d, id, price, s.trade.value.number);
    assert [] + f.log == f.log;
  }

  /** An order to cover: once covered, an account that borrows by itself gives back as many shares as it has bought, and
      when it does not owe that many it keeps them borrowed. */
  lemma BuyShortLaw(cfg: Config, b: Book, d: int, stock: Option<StockId>, price: real, q: Quantity)
    requires Environment(cfg) && b.last <= b.lastUpdate
    ensures var p, u := BuyShort(cfg, b, d, stock, price, q), Update(cfg, b, d);
            if stock.None? || d < b.last || !Quantified(cfg, stock.value, q) || stock.value !in b.shorts
            then TurnedAway(b, p)
            else
              var id := stock.value;
              id in u.book.shorts
              && exists s, r ::
                && Cover(cfg, u.book, s, d, id, price, q)
                && HandedBack(cfg, s.book, r, d, id, price, s.trade.value.number)
                && p == Posted(r.book, u.log + (s.log + r.log), true, s.trade)
  {
    if stock.Some? && d >= b.last && Quantified(cfg, stock.value, q) && stock.value in b.shorts {
      SettlesFor(cfg, b, d);
      UpdateOnlySettles(cfg, b, d);
      CoverThenReturn(cfg, Update(cfg, b, d).book, d, stock.value, price, q);
      hide Environment, Update, PostBuyShort, ReturnStock, Cover, HandedBack;
    }
  }
}
