/**
 Every operation is a sequence of elementary postings: one settlement and then postings of one record each, with
 the nested deposits, loans and stock loans flattened.  What each posting keeps, every operation keeps.
 */
module Plans {
  import opened Options
  import opened Rounding
  import opened Fifo
  import opened Accounts

  datatype Posting =
    | DoSettle(d: int)
    | DoCheckin(d: int, amount: int)
    | DoCheckout(d: int, amount: int)
    | DoCheckinStock(d: int, id: StockId, price: real, number: real)
    | DoCheckoutStock(d: int, id: StockId, price: real, number: real)
    | DoBorrowCash(d: int, cash: real)
    | DoReturnCash(d: int, amount: int)
    | DoBorrowStock(d: int, id: StockId, price: real, number: real)
    | DoReturnStock(d: int, id: StockId, price: real, number: real)
    | DoBuy(d: int, id: StockId, price: real, number: real)
    | DoSell(d: int, id: StockId, price: real, q: Quantity)
    | DoSellShort(d: int, id: StockId, price: real, number: real)
    | DoBuyShort(d: int, id: StockId, price: real, q: Quantity)

  ghost function Do(cfg: Config, b: Book, p: Posting): Posted {
    match p
    case DoSettle(d) => Update(cfg, b, d)
    case DoCheckin(d, amount) => PostCheckin(b, d, amount)
    case DoCheckout(d, amount) => PostCheckout(b, d, amount)
    case DoCheckinStock(d, id, price, number) => PostCheckinStock(cfg, b, d, id, price, number)
    case DoCheckoutStock(d, id, price, number) => PostCheckoutStock(cfg, b, d, id, price, number)
    case DoBorrowCash(d, cash) => PostBorrowCash(cfg, b, d, cash)
    case DoReturnCash(d, amount) => PostReturnCash(cfg, b, d, amount)
    case DoBorrowStock(d, id, price, number) => PostBorrowStock(cfg, b, d, id, price, number)
    case DoReturnStock(d, id, price, number) => PostReturnStock(cfg, b, d, id, price, number)
    case DoBuy(d, id, price, number) => PostBuy(cfg, b, d, id, price, number)
    case DoSell(d, id, price, q) => if id in b.positions then PostSell(cfg, b, d, id, price, q) else Nothing(b)
    case DoSellShort(d, id, price, number) => PostSellShort(cfg, b, d, id, price, number)
    case DoBuyShort(d, id, price, q) => if id in b.shorts then PostBuyShort(cfg, b, d, id, price, q) else Nothing(b)
  }

  /** What the operations have checked before they post. */
  predicate Checked(cfg: Config, b: Book, p: Posting) {
    match p
    case DoSettle(d) => true
    case DoCheckin(d, amount) => amount >= 0
    case DoCheckout(d, amount) => amount >= 0
    case DoCheckinStock(d, id, price, number) => price > 0.0 && number != 0.0
    case DoCheckoutStock(d, id, price, number) => price > 0.0 && number != 0.0
    case DoBorrowCash(d, cash) => cash > 0.0
    case DoReturnCash(d, amount) => amount >= 0 && b.loans != []
    case DoBorrowStock(d, id, price, number) => price > 0.0 && number != 0.0
    case DoReturnStock(d, id, price, number) => price > 0.0 && number != 0.0
    case DoBuy(d, id, price, number) => TradableNumber(cfg, id, number)
    case DoSell(d, id, price, q) => id in b.positions && TradableQuantity(cfg, id, q)
    case DoSellShort(d, id, price, number) => TradableNumber(cfg, id, number)
    case DoBuyShort(d, id, price, q) => id in b.shorts && TradableQuantity(cfg, id, q)
  }

  datatype Outcome = Outcome(book: Book, log: seq<TradeRecord>)

  ghost function Execute(cfg: Config, b: Book, plan: seq<Posting>): Outcome
    decreases |plan|
  {
    if plan == [] then Outcome(b, [])
    else
      var p := Do(cfg, b, plan[0]);
      var rest := Execute(cfg, p.book, plan[1..]);
      Outcome(rest.book, p.log + rest.log)
  }

  ghost predicate AllChecked(cfg: Config, b: Book, plan: seq<Posting>)
    decreases |plan|
  {
    plan == [] || (Checked(cfg, b, plan[0]) && AllChecked(cfg, Do(cfg, b, plan[0]).book, plan[1..]))
  }

  /** The plan carries out the operation, and checks what it relies on. */
  ghost predicate CarriesOut(cfg: Config, b: Book, plan: seq<Posting>, p: Posted) {
    Execute(cfg, b, plan) == Outcome(p.book, p.log) && AllChecked(cfg, b, plan)
  }

  // ---------------------------------------------------------------------------------------------------------
  // The plan of each operation

  function CheckinPlan(cfg: Config, b: Book, d: int, cash: real): seq<Posting> {
    if cash <= 0.0 || d < b.last then [] else [DoSettle(d), DoCheckin(d, RoundUnits(cash, cfg.precision))]
  }

  function BorrowCashPlan(b: Book, d: int, cash: real): seq<Posting> {
    if cash <= 0.0 || d < b.last then [] else [DoSettle(d), DoBorrowCash(d, cash)]
  }

  function ReturnCashPlan(cfg: Config, b: Book, d: int, cash: real): seq<Posting> {
    if cash <= 0.0 || d < b.last || b.loans == [] || d < b.loans[|b.loans| - 1].datetime then []
    else [DoSettle(d), DoReturnCash(d, RoundUnits(cash, cfg.precision))]
  }

  function BorrowStockPlan(b: Book, d: int, stock: Option<StockId>, price: real, number: real): seq<Posting> {
    if stock.None? || d < b.last || number == 0.0 || price <= 0.0 then []
    else [DoSettle(d), DoBorrowStock(d, stock.value, price, number)]
  }

  function ReturnStockPlan(b: Book, d: int, stock: Option<StockId>, price: real, number: real): seq<Posting> {
    if stock.None? || d < b.last || number == 0.0 || price <= 0.0 then []
    else [DoSettle(d), DoReturnStock(d, stock.value, price, number)]
  }

  ghost function FinancePlan(cfg: Config, b: Book, d: int, id: StockId, price: real, number: real): seq<Posting> {
    if !cfg.borrowCash then []
    else
      var n := cfg.precision;
      var gap := PurchaseGap(cfg, b, d, id, price, number);
      var loan := RoundUp(Value(Worth(cfg, id, price, number), n), n);
      if gap > 0 then
        var cash := RoundUp(Value(gap, n), n);
        CheckinPlan(cfg, b, d, cash) + BorrowCashPlan(Checkin(cfg, b, d, cash).book, d, loan)
      else BorrowCashPlan(b, d, loan)
  }

  ghost function BuyPlan(cfg: Config, b: Book, d: int, stock: Option<StockId>, price: real, number: real)
    : seq<Posting>
  {
    if stock.None? || d < b.last || !TradableNumber(cfg, stock.value, number) then []
    else [DoSettle(d)] + FinancePlan(cfg, Update(cfg, b, d).book, d, stock.value, price, number)
         + [DoBuy(d, stock.value, price, number)]
  }

  function RepayPlan(cfg: Config, b: Book, d: int): seq<Posting> {
    if cfg.borrowCash && b.borrowCash > 0 && b.cash > 0
    then ReturnCashPlan(cfg, b, d, Value(if b.borrowCash < b.cash then b.borrowCash else b.cash, cfg.precision))
    else []
  }

  ghost function SellPlan(cfg: Config, b: Book, d: int, stock: Option<StockId>, price: real, q: Quantity)
    : seq<Posting>
  {
    if stock.None? || d < b.last || !TradableQuantity(cfg, stock.value, q) || stock.value !in b.positions
    then []
    else
      var s := PostSell(cfg, Update(cfg, b, d).book, d, stock.value, price, q);
      [DoSettle(d), DoSell(d, stock.value, price, q)] + if s.ok then RepayPlan(cfg, s.book, d) else []
  }

  ghost function BorrowForShortPlan(cfg: Config, b: Book, d: int, id: StockId, price: real, number: real)
    : seq<Posting>
  {
    if !cfg.borrowStock then []
    else
      var n := cfg.precision;
      var gap := ShortGap(cfg, b, d, id, price, number);
      if gap > 0 then
        var cash := RoundEx(Value(gap, n), n);
        CheckinPlan(cfg, b, d, cash)
        + BorrowStockPlan(Checkin(cfg, b, d, cash).book, d, Some(id), price, number)
      else BorrowStockPlan(b, d, Some(id), price, number)
  }

  ghost function SellShortPlan(cfg: Config, b: Book, d: int, stock: Option<StockId>, price: real, number: real,
                               stoploss: real): seq<Posting>
  {
    if stock.None? || d < b.last || !TradableNumber(cfg, stock.value, number)
       || (stoploss != 0.0 && stoploss < price)
    then []
    else [DoSettle(d)] + BorrowForShortPlan(cfg, Update(cfg, b, d).book, d, stock.value, price, number)
         + [DoSellShort(d, stock.value, price, number)]
  }

  ghost function BuyShortPlan(cfg: Config, b: Book, d: int, stock: Option<StockId>, price: real, q: Quantity)
    : seq<Posting>
  {
    if stock.None? || d < b.last || !TradableQuantity(cfg, stock.value, q) || stock.value !in b.shorts
    then []
    else
      var s := PostBuyShort(cfg, Update(cfg, b, d).book, d, stock.value, price, q);
      [DoSettle(d), DoBuyShort(d, stock.value, price, q)]
      + if cfg.borrowStock then ReturnStockPlan(s.book, d, stock, price, s.trade.value.number) else []
  }

  ghost function Plan(cfg: Config, b: Book, op: Op): seq<Posting> {
    match op
    case OpSettle(d) => [DoSettle(d)]
    case OpCheckin(d, cash) => CheckinPlan(cfg, b, d, cash)
    case OpCheckout(d, cash) =>
      if cash <= 0.0 || d < b.last then [] else [DoSettle(d), DoCheckout(d, RoundUnits(cash, cfg.precision))]
    case OpCheckinStock(d, stock, price, number) =>
      if stock.None? || number == 0.0 || price <= 0.0 || d < b.last then []
      else [DoSettle(d), DoCheckinStock(d, stock.value, price, number)]
    case OpCheckoutStock(d, stock, price, number) =>
      if stock.None? || number == 0.0 || price <= 0.0 || d < b.last then []
      else [DoSettle(d), DoCheckoutStock(d, stock.value, price, number)]
    case OpBorrowCash(d, cash) => BorrowCashPlan(b, d, cash)
    case OpReturnCash(d, cash) => ReturnCashPlan(cfg, b, d, cash)
    case OpBorrowStock(d, stock, price, number) => BorrowStockPlan(b, d, stock, price, number)
    case OpReturnStock(d, stock, price, number) => ReturnStockPlan(b, d, stock, price, number)
    case OpBuy(d, stock, price, number) => BuyPlan(cfg, b, d, stock, price, number)
    case OpSell(d, stock, price, q) => SellPlan(cfg, b, d, stock, price, q)
    case OpSellShort(d, stock, price, number, stoploss) => SellShortPlan(cfg, b, d, stock, price, number, stoploss)
    case OpBuyShort(d, stock, price, q) => BuyShortPlan(cfg, b, d, stock, price, q)
  }

  // ---------------------------------------------------------------------------------------------------------
  // The plans carry the operations out

  lemma {:induction false} ExecuteAppend(cfg: Config, b: Book, x: seq<Posting>, y: seq<Posting>)
    ensures var e := Execute(cfg, b, x);
            var f := Execute(cfg, e.book, y);
            Execute(cfg, b, x + y) == Outcome(f.book, e.log + f.log)
            && (AllChecked(cfg, b, x + y) <==> AllChecked(cfg, b, x) && AllChecked(cfg, e.book, y))
    decreases |x|
  {
    hide Do, Checked;
    if x == [] {
      assert x + y == y;
      assert [] + Execute(cfg, b, y).log == Execute(cfg, b, y).log;
    } else {
      assert (x + y)[1..] == x[1..] + y;
      var p := Do(cfg, b, x[0]);
      ExecuteAppend(cfg, p.book, x[1..], y);
      var e := Execute(cfg, p.book, x[1..]);
      var f := Execute(cfg, e.book, y);
      assert p.log + (e.log + f.log) == (p.log + e.log) + f.log;
    }
  }

  lemma Sequence(cfg: Config, b: Book, x: seq<Posting>, p: Posted, y: seq<Posting>, q: Posted)
    requires CarriesOut(cfg, b, x, p) && CarriesOut(cfg, p.book, y, q)
    ensures CarriesOut(cfg, b, x + y, After(p.log, q))
  {
    ExecuteAppend(cfg, b, x, y);
  }

  lemma Single(cfg: Config, b: Book, x: Posting)
    requires Checked(cfg, b, x)
    ensures CarriesOut(cfg, b, [x], Do(cfg, b, x))
  {
    hide Do, Checked;
    var p := Do(cfg, b, x);
    assert [x][1..] == [];
    assert Execute(cfg, p.book, []) == Outcome(p.book, []);
    assert AllChecked(cfg, p.book, []);
    assert p.log + [] == p.log;
    assert Execute(cfg, b, [x]) == Outcome(p.book, p.log);
  }

  lemma SettleThen(cfg: Config, b: Book, d: int, x: Posting)
    requires Checked(cfg, Update(cfg, b, d).book, x)
    ensures CarriesOut(cfg, b, [DoSettle(d), x],
                       After(Update(cfg, b, d).log, Do(cfg, Update(cfg, b, d).book, x)))
  {
    assert Do(cfg, b, DoSettle(d)) == Update(cfg, b, d);
    hide Do, Update;
    Single(cfg, b, DoSettle(d));
    Single(cfg, Update(cfg, b, d).book, x);
    Sequence(cfg, b, [DoSettle(d)], Update(cfg, b, d), [x], Do(cfg, Update(cfg, b, d).book, x));
    assert [DoSettle(d)] + [x] == [DoSettle(d), x];
  }

  /** A settlement leaves everything but the open positions and the cash alone, and closes no position. */
  lemma UpdateOnlySettles(cfg: Config, b: Book, d: int)
    ensures var c := Update(cfg, b, d).book;
            c.positions.Keys == b.positions.Keys
            && c == b.(positions := c.positions, cash := c.cash, last := c.last, lastUpdate := c.lastUpdate)
  {
  }

  function RecordKind(p: Posting): Business
    requires !p.DoSettle?
  {
    match p
    case DoCheckin(_, _) => CashIn
    case DoCheckout(_, _) => CashOut
    case DoCheckinStock(_, _, _, _) => StockIn
    case DoCheckoutStock(_, _, _, _) => StockOut
    case DoBorrowCash(_, _) => CashBorrowed
    case DoReturnCash(_, _) => CashReturned
    case DoBorrowStock(_, _, _, _) => StockBorrowed
    case DoReturnStock(_, _, _, _) => StockReturned
    case DoBuy(_, _, _, _) => BuyIn
    case DoSell(_, _, _, _) => SellOut
    case DoSellShort(_, _, _, _) => ShortSold
    case DoBuyShort(_, _, _, _) => ShortCovered
  }

  /** A posting other than a settlement leaves at most one record, of its own kind. */
  lemma PostedKind(cfg: Config, b: Book, p: Posting)
    requires !p.DoSettle?
    ensures |Do(cfg, b, p).log| <= 1 && forall r <- Do(cfg, b, p).log :: r.business == RecordKind(p)
  {
    hide RoundUnits, Value, Worth, ShortProceeds, WholeMoney, Amount, LoanReturnCost, StockReturnCost, ReturnedWorth,
         TakeOldest, Shortfall, PutPosition, Update;
    match p
    case DoReturnCash(_, _) =>
    case DoReturnStock(_, _, _, _) =>
    case DoSell(_, _, _, _) =>
    case DoSellShort(_, _, _, _) =>
    case DoBuyShort(_, _, _, _) =>
    case _ =>
  }

  lemma Idle(cfg: Config, b: Book, p: Posted)
    requires p.book == b && p.log == []
    ensures CarriesOut(cfg, b, [], p)
  {
  }

  lemma CheckinCarriedOut(cfg: Config, b: Book, d: int, cash: real)
    ensures CarriesOut(cfg, b, CheckinPlan(cfg, b, d, cash), Checkin(cfg, b, d, cash))
  {
    if cash <= 0.0 || d < b.last {
      Idle(cfg, b, Nothing(b));
    } else {
      RoundNonNegative(cash, cfg.precision);
      SettleThen(cfg, b, d, DoCheckin(d, RoundUnits(cash, cfg.precision)));
    }
  }

  lemma BorrowCashCarriedOut(cfg: Config, b: Book, d: int, cash: real)
    ensures CarriesOut(cfg, b, BorrowCashPlan(b, d, cash), BorrowCash(cfg, b, d, cash))
  {
    if cash <= 0.0 || d < b.last {
      Idle(cfg, b, Nothing(b));
    } else {
      SettleThen(cfg, b, d, DoBorrowCash(d, cash));
    }
  }

  lemma ReturnCashCarriedOut(cfg: Config, b: Book, d: int, cash: real)
    ensures CarriesOut(cfg, b, ReturnCashPlan(cfg, b, d, cash), ReturnCash(cfg, b, d, cash))
  {
    if cash <= 0.0 || d < b.last || b.loans == [] || d < b.loans[|b.loans| - 1].datetime {
      Idle(cfg, b, Nothing(b));
    } else {
      RoundNonNegative(cash, cfg.precision);
      SettleThen(cfg, b, d, DoReturnCash(d, RoundUnits(cash, cfg.precision)));
    }
  }

  lemma BorrowStockCarriedOut(cfg: Config, b: Book, d: int, stock: Option<StockId>, price: real, number: real)
    ensures CarriesOut(cfg, b, BorrowStockPlan(b, d, stock, price, number),
                       BorrowStock(cfg, b, d, stock, price, number))
  {
    if stock.None? || d < b.last || number == 0.0 || price <= 0.0 {
      Idle(cfg, b, Nothing(b));
    } else {
      SettleThen(cfg, b, d, DoBorrowStock(d, stock.value, price, number));
    }
  }

  lemma ReturnStockCarriedOut(cfg: Config, b: Book, d: int, stock: Option<StockId>, price: real, number: real)
    ensures CarriesOut(cfg, b, ReturnStockPlan(b, d, stock, price, number),
                       ReturnStock(cfg, b, d, stock, price, number))
  {
    if stock.None? || d < b.last || number == 0.0 || price <= 0.0 {
      Idle(cfg, b, Nothing(b));
    } else {
      SettleThen(cfg, b, d, DoReturnStock(d, stock.value, price, number));
    }
  }

  lemma FinanceCarriedOut(cfg: Config, b: Book, d: int, id: StockId, price: real, number: real)
    ensures CarriesOut(cfg, b, FinancePlan(cfg, b, d, id, price, number), Finance(cfg, b, d, id, price, number))
  {
    hide RoundUp, PurchaseGap, Worth, Value, CarriesOut, BorrowCash, Checkin, CheckinPlan, BorrowCashPlan;
    if !cfg.borrowCash {
      Idle(cfg, b, Done(b, []));
    } else {
      var n := cfg.precision;
      var gap := PurchaseGap(cfg, b, d, id, price, number);
      var loan := RoundUp(Value(Worth(cfg, id, price, number), n), n);
      if gap > 0 {
        var cash := RoundUp(Value(gap, n), n);
        var c := Checkin(cfg, b, d, cash);
        CheckinCarriedOut(cfg, b, d, cash);
        BorrowCashCarriedOut(cfg, c.book, d, loan);
        Sequence(cfg, b, CheckinPlan(cfg, b, d, cash), c,
                 BorrowCashPlan(c.book, d, loan), BorrowCash(cfg, c.book, d, loan));
      } else {
        BorrowCashCarriedOut(cfg, b, d, loan);
        assert After([], BorrowCash(cfg, b, d, loan)).log == BorrowCash(cfg, b, d, loan).log;
      }
    }
  }

  lemma BuyCarriedOut(cfg: Config, b: Book, d: int, stock: Option<StockId>, price: real, number: real)
    ensures CarriesOut(cfg, b, BuyPlan(cfg, b, d, stock, price, number), Buy(cfg, b, d, stock, price, number))
  {
    if stock.None? || d < b.last || !TradableNumber(cfg, stock.value, number) {
      Idle(cfg, b, Nothing(b));
    } else {
      hide Update, Finance, FinancePlan, PostBuy, CarriesOut;
      var u := Update(cfg, b, d);
      var f := Finance(cfg, u.book, d, stock.value, price, number);
      var x := DoBuy(d, stock.value, price, number);
      Single(cfg, b, DoSettle(d));
      FinanceCarriedOut(cfg, u.book, d, stock.value, price, number);
      Single(cfg, f.book, x);
      var plan := FinancePlan(cfg, u.book, d, stock.value, price, number);
      Sequence(cfg, u.book, plan, f, [x], Do(cfg, f.book, x));
      Sequence(cfg, b, [DoSettle(d)], u, plan + [x], After(f.log, Do(cfg, f.book, x)));
      assert [DoSettle(d)] + (plan + [x]) == [DoSettle(d)] + plan + [x];
    }
  }

  lemma RepayCarriedOut(cfg: Config, b: Book, d: int)
    ensures CarriesOut(cfg, b, RepayPlan(cfg, b, d), Repay(cfg, b, d))
  {
    hide ReturnCash, ReturnCashPlan, CarriesOut, Value;
    if cfg.borrowCash && b.borrowCash > 0 && b.cash > 0 {
      ReturnCashCarriedOut(cfg, b, d, Value(if b.borrowCash < b.cash then b.borrowCash else b.cash, cfg.precision));
    } else {
      Idle(cfg, b, Done(b, []));
    }
  }

  lemma RepayAfter(cfg: Config, b: Book, plan: seq<Posting>, log: seq<TradeRecord>, s: Posted, d: int)
    requires CarriesOut(cfg, b, plan, After(log, s))
    ensures var r := Repay(cfg, s.book, d);
            CarriesOut(cfg, b, plan + RepayPlan(cfg, s.book, d), Posted(r.book, log + (s.log + r.log), true, s.trade))
  {
    hide Repay, RepayPlan;
    var r := Repay(cfg, s.book, d);
    RepayCarriedOut(cfg, s.book, d);
    Sequence(cfg, b, plan, After(log, s), RepayPlan(cfg, s.book, d), r);
    assert (log + s.log) + r.log == log + (s.log + r.log);
  }

  lemma SellPosted(cfg: Config, b: Book, d: int, id: StockId, price: real, q: Quantity)
    requires id in b.positions && TradableQuantity(cfg, id, q)
    ensures id in Update(cfg, b, d).book.positions
    ensures var u := Update(cfg, b, d);
            CarriesOut(cfg, b, [DoSettle(d), DoSell(d, id, price, q)],
                       After(u.log, PostSell(cfg, u.book, d, id, price, q)))
  {
    UpdateOnlySettles(cfg, b, d);
    hide Update, PostSell, CarriesOut;
    SettleThen(cfg, b, d, DoSell(d, id, price, q));
  }

  lemma SellCarriedOut(cfg: Config, b: Book, d: int, stock: Option<StockId>, price: real, q: Quantity)
    ensures CarriesOut(cfg, b, SellPlan(cfg, b, d, stock, price, q), Sell(cfg, b, d, stock, price, q))
  {
    if stock.None? || d < b.last || !TradableQuantity(cfg, stock.value, q) || stock.value !in b.positions {
      Idle(cfg, b, Nothing(b));
    } else {
      SellPosted(cfg, b, d, stock.value, price, q);
      hide Update, PostSell, Repay, RepayPlan, CarriesOut, TradableQuantity;
      var u := Update(cfg, b, d);
      var plan := [DoSettle(d), DoSell(d, stock.value, price, q)];
      var s := PostSell(cfg, u.book, d, stock.value, price, q);
      if s.ok {
        RepayAfter(cfg, b, plan, u.log, s, d);
      } else {
        assert plan + [] == plan;
      }
    }
  }

  lemma SameEffect(cfg: Config, b: Book, plan: seq<Posting>, p: Posted, q: Posted)
    requires CarriesOut(cfg, b, plan, p) && p.book == q.book && p.log == q.log
    ensures CarriesOut(cfg, b, plan, q)
  {
  }

  lemma BorrowForShortCarriedOut(cfg: Config, b: Book, d: int, id: StockId, price: real, number: real)
    ensures CarriesOut(cfg, b, BorrowForShortPlan(cfg, b, d, id, price, number),
                       BorrowForShort(cfg, b, d, id, price, number))
  {
    hide RoundEx, ShortGap, Value, CarriesOut, BorrowStock, Checkin, CheckinPlan, BorrowStockPlan;
    if !cfg.borrowStock {
      Idle(cfg, b, Done(b, []));
    } else {
      var n := cfg.precision;
      var gap := ShortGap(cfg, b, d, id, price, number);
      if gap > 0 {
        var cash := RoundEx(Value(gap, n), n);
        var c := Checkin(cfg, b, d, cash);
        CheckinCarriedOut(cfg, b, d, cash);
        BorrowStockCarriedOut(cfg, c.book, d, Some(id), price, number);
        Sequence(cfg, b, CheckinPlan(cfg, b, d, cash), c,
                 BorrowStockPlan(c.book, d, Some(id), price, number),
                 BorrowStock(cfg, c.book, d, Some(id), price, number));
      } else {
        BorrowStockCarriedOut(cfg, b, d, Some(id), price, number);
        assert After([], BorrowStock(cfg, b, d, Some(id), price, number)).log
            == BorrowStock(cfg, b, d, Some(id), price, number).log;
      }
    }
  }

  lemma SellShortCarriedOut(cfg: Config, b: Book, d: int, stock: Option<StockId>, price: real, number: real,
                            stoploss: real)
    ensures CarriesOut(cfg, b, SellShortPlan(cfg, b, d, stock, price, number, stoploss),
                       SellShort(cfg, b, d, stock, price, number, stoploss))
  {
    if stock.None? || d < b.last || !TradableNumber(cfg, stock.value, number)
       || (stoploss != 0.0 && stoploss < price) {
      Idle(cfg, b, Nothing(b));
    } else {
      hide Update, BorrowForShort, BorrowForShortPlan, PostSellShort, CarriesOut;
      var u := Update(cfg, b, d);
      var f := BorrowForShort(cfg, u.book, d, stock.value, price, number);
      var x := DoSellShort(d, stock.value, price, number);
      Single(cfg, b, DoSettle(d));
      BorrowForShortCarriedOut(cfg, u.book, d, stock.value, price, number);
      Single(cfg, f.book, x);
      var plan := BorrowForShortPlan(cfg, u.book, d, stock.value, price, number);
      Sequence(cfg, u.book, plan, f, [x], Do(cfg, f.book, x));
      Sequence(cfg, b, [DoSettle(d)], u, plan + [x], After(f.log, Do(cfg, f.book, x)));
      assert [DoSettle(d)] + (plan + [x]) == [DoSettle(d)] + plan + [x];
    }
  }

  lemma BuyShortPosted(cfg: Config, b: Book, d: int, id: StockId, price: real, q: Quantity)
    requires id in b.shorts && TradableQuantity(cfg, id, q)
    ensures id in Update(cfg, b, d).book.shorts
    ensures var u := Update(cfg, b, d);
            CarriesOut(cfg, b, [DoSettle(d), DoBuyShort(d, id, price, q)],
                       After(u.log, PostBuyShort(cfg, u.book, d, id, price, q)))
  {
    UpdateOnlySettles(cfg, b, d);
    hide Update, PostBuyShort, CarriesOut;
    SettleThen(cfg, b, d, DoBuyShort(d, id, price, q));
  }

  lemma ReturnAfter(cfg: Config, b: Book, plan: seq<Posting>, log: seq<TradeRecord>, s: Posted,
                    d: int, stock: Option<StockId>, price: real, number: real)
    requires CarriesOut(cfg, b, plan, After(log, s))
    ensures var r := ReturnStock(cfg, s.book, d, stock, price, number);
            CarriesOut(cfg, b, plan + ReturnStockPlan(s.book, d, stock, price, number),
                       Posted(r.book, log + (s.log + r.log), true, s.trade))
  {
    hide ReturnStock, ReturnStockPlan;
    var r := ReturnStock(cfg, s.book, d, stock, price, number);
    ReturnStockCarriedOut(cfg, s.book, d, stock, price, number);
    Sequence(cfg, b, plan, After(log, s), ReturnStockPlan(s.book, d, stock, price, number), r);
    assert (log + s.log) + r.log == log + (s.log + r.log);
  }

  lemma BuyShortCarriedOut(cfg: Config, b: Book, d: int, stock: Option<StockId>, price: real, q: Quantity)
    ensures CarriesOut(cfg, b, BuyShortPlan(cfg, b, d, stock, price, q), BuyShort(cfg, b, d, stock, price, q))
  {
    if stock.None? || d < b.last || !TradableQuantity(cfg, stock.value, q) || stock.value !in b.shorts {
      Idle(cfg, b, Nothing(b));
    } else {
      BuyShortPosted(cfg, b, d, stock.value, price, q);
      hide Update, ReturnStock, ReturnStockPlan, CarriesOut, TradableQuantity;
      var u := Update(cfg, b, d);
      var plan := [DoSettle(d), DoBuyShort(d, stock.value, price, q)];
      var s := PostBuyShort(cfg, u.book, d, stock.value, price, q);
      assert s.trade.Some? && s.ok;
      hide PostBuyShort;
      if cfg.borrowStock {
        ReturnAfter(cfg, b, plan, u.log, s, d, stock, price, s.trade.value.number);
      } else {
        assert plan + [] == plan;
        assert u.log + (s.log + []) == u.log + s.log;
        SameEffect(cfg, b, plan, After(u.log, s), BuyShort(cfg, b, d, stock, price, q));
      }
    }
  }

  /** Every operation is its plan: the postings, in order, leave the same book and append the same records. */
  lemma OperationIsItsPlan(cfg: Config, b: Book, op: Op)
    ensures CarriesOut(cfg, b, Plan(cfg, b, op), Apply(cfg, b, op))
  {
    match op
    case OpSettle(d) => Single(cfg, b, DoSettle(d));
    case OpCheckin(d, cash) => CheckinCarriedOut(cfg, b, d, cash);
    case OpCheckout(d, cash) =>
      if cash <= 0.0 || d < b.last {
        Idle(cfg, b, Nothing(b));
      } else {
        RoundNonNegative(cash, cfg.precision);
        SettleThen(cfg, b, d, DoCheckout(d, RoundUnits(cash, cfg.precision)));
      }
    case OpCheckinStock(d, stock, price, number) =>
      if stock.None? || number == 0.0 || price <= 0.0 || d < b.last {
        Idle(cfg, b, Nothing(b));
      } else {
        SettleThen(cfg, b, d, DoCheckinStock(d, stock.value, price, number));
      }
    case OpCheckoutStock(d, stock, price, number) =>
      if stock.None? || number == 0.0 || price <= 0.0 || d < b.last {
        Idle(cfg, b, Nothing(b));
      } else {
        SettleThen(cfg, b, d, DoCheckoutStock(d, stock.value, price, number));
      }
    case OpBorrowCash(d, cash) => BorrowCashCarriedOut(cfg, b, d, cash);
    case OpReturnCash(d, cash) => ReturnCashCarriedOut(cfg, b, d, cash);
    case OpBorrowStock(d, stock, price, number) => BorrowStockCarriedOut(cfg, b, d, stock, price, number);
    case OpReturnStock(d, stock, price, number) => ReturnStockCarriedOut(cfg, b, d, stock, price, number);
    case OpBuy(d, stock, price, number) => BuyCarriedOut(cfg, b, d, stock, price, number);
    case OpSell(d, stock, price, q) => SellCarriedOut(cfg, b, d, stock, price, q);
    case OpSellShort(d, stock, price, number, stoploss) =>
      SellShortCarriedOut(cfg, b, d, stock, price, number, stoploss);
    case OpBuyShort(d, stock, price, q) => BuyShortCarriedOut(cfg, b, d, stock, price, q);
  }
}
