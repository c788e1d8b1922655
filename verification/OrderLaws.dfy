/**
 What each order and transfer is accepted for and what it changes: cash, holdings, queues and records, against the book
 that the settlement before it has left.
 */
module OrderLaws {
  import opened Options
  import opened Rounding
  import opened Fifo
  import opened Accounts
  import opened Plans
  import opened Meters
  import opened Settlement

  /** The money `number` shares come to, to the nearest unit. */
  function Money(cfg: Config, id: StockId, price: real, number: real): int {
    RoundUnits(price * number * cfg.unit(id), cfg.precision)
  }

  lemma MoneyIs(cfg: Config, id: StockId, price: real, number: real)
    ensures Worth(cfg, id, price, number) == Money(cfg, id, price, number)
  {
  }

  /** The money a short sale of `number` shares brings once its cost is paid, to the nearest unit. */
  function NetMoney(cfg: Config, id: StockId, price: real, number: real, cost: nat): int {
    RoundUnits(price * number * cfg.unit(id) - Value(cost, cfg.precision), cfg.precision)
  }

  lemma NetMoneyIs(cfg: Config, id: StockId, price: real, number: real, cost: nat)
    ensures ShortProceeds(cfg, id, price, number, cost) == NetMoney(cfg, id, price, number, cost)
  {
  }

  /** The order or transfer is turned away before anything is settled. */
  predicate TurnedAway(b: Book, p: Posted) {
    p.book == b && p.log == [] && !p.ok && p.trade == None
  }

  /** It is turned away after the settlement. */
  predicate OnlySettled(u: Posted, p: Posted) {
    p.book == u.book && p.log == u.log && !p.ok && p.trade == None
  }

  // ---------------------------------------------------------------------------------------------------------
  // Opening

  /** Hundredths stand for the same amount at any finer precision. */
  lemma Hundredths(k: int, n: nat)
    requires 2 <= n <= 9
    ensures Value(RoundUnits(Value(k, 2), n), n) == k as real / 100.0
  {
    var m := Pow10(n - 2).Floor;
    Pow10Whole(n - 2);
    assert Pow10(n) == 100.0 * m as real && Pow10(2) == 100.0;
    SameFraction(k, m);
    RoundGridValue(k * m, n);
    assert Value(k * m, n) == Value(k, 2);
  }

  lemma SameFraction(k: int, m: int)
    requires m > 0
    ensures (k * m) as real / (100.0 * m as real) == k as real / 100.0
  {
  }

  /** A new account holds its initial cash, rounded to hundredths whatever its precision, and nothing else. */
  lemma OpeningLaw(cfg: Config, d: int, initCash: real)
    requires 2 <= cfg.precision <= 9
    ensures var a := Opened(cfg, d, initCash);
            var cash := a.book.cash;
            && Value(cash, cfg.precision) == RoundUnits(initCash, 2) as real / 100.0
            && a.book == Book(d, d, cash, cash, 0, 0, 0, 0, [], map[], map[], [], map[], [])
            && a.trades == [TradeRecord(Init, None, d, cash, 0.0, 0.0, 0)]
  {
    Hundredths(RoundUnits(initCash, 2), cfg.precision);
    hide RoundUnits, Value;
  }

  // ---------------------------------------------------------------------------------------------------------
  // Holdings

  /** `number` shares join the holding of `id`, at `money` and `cost`; every other holding stays. */
  predicate Joins(held: map<StockId, Position>, now: map<StockId, Position>, id: StockId, d: int, number: real,
                  money: int, cost: int)
  {
    && now.Keys == held.Keys + {id} && (forall k <- held :: k != id ==> now[k] == held[k])
    && var q := now[id];
       if id in held then
         var p := held[id];
         && q.number == p.number + number && q.totalNumber == p.totalNumber + number && q.buyMoney == p.buyMoney + money
         && q.totalCost == p.totalCost + cost && q.buyCount == p.buyCount + 1
         && q == p.(number := q.number, totalNumber := q.totalNumber, buyMoney := q.buyMoney, totalCost := q.totalCost,
                    buyCount := q.buyCount)
       else q == Position(id, d, None, number, number, money, cost, 0, 1, 0)
  }

  /** `q` is the holding `id` once `number` shares have left it: it stays on while shares are left, and goes to the
      history when none are. */
  predicate Parts(held: map<StockId, Position>, past: seq<Position>, now: map<StockId, Position>, later: seq<Position>,
                  id: StockId, q: Position, cleaned: Option<int>)
    requires id in held
  {
    && (forall k <- held :: k != id ==> k in now && now[k] == held[k])
    && if q.number == 0.0 then now.Keys == held.Keys - {id} && later == past + [q.(cleanDatetime := cleaned)]
       else now.Keys == held.Keys && now[id] == q && later == past
  }

  // ---------------------------------------------------------------------------------------------------------
  // Cash

  lemma CheckinLaw(cfg: Config, b: Book, d: int, cash: real)
    ensures var p, u, k := Checkin(cfg, b, d, cash), Update(cfg, b, d), RoundUnits(cash, cfg.precision);
            if cash <= 0.0 || d < b.last then TurnedAway(b, p)
            else p.ok && p.book == u.book.(cash := u.book.cash + k, checkinCash := u.book.checkinCash + k, last := d)
                 && p.log == u.log + [TradeRecord(CashIn, None, d, k, 0.0, 0.0, 0)]
  {
    hide Update, RoundUnits;
  }

  /** A withdrawal is accepted exactly when the settled cash covers it. */
  lemma CheckoutLaw(cfg: Config, b: Book, d: int, cash: real)
    ensures var p, u, k := Checkout(cfg, b, d, cash), Update(cfg, b, d), RoundUnits(cash, cfg.precision);
            if cash <= 0.0 || d < b.last then TurnedAway(b, p)
            else if k > u.book.cash then OnlySettled(u, p)
            else p.ok && p.book == u.book.(cash := u.book.cash - k, checkoutCash := u.book.checkoutCash + k, last := d)
                 && p.log == u.log + [TradeRecord(CashOut, None, d, k, 0.0, 0.0, 0)]
  {
    hide Update, RoundUnits;
    assert Update(cfg, b, d).log + [] == Update(cfg, b, d).log;
  }

  lemma BorrowCashLaw(cfg: Config, b: Book, d: int, cash: real)
    ensures var p, u, k := BorrowCash(cfg, b, d, cash), Update(cfg, b, d), RoundUnits(cash, cfg.precision);
            var cost := cfg.cost(BorrowCashCost(d, cash));
            if cash <= 0.0 || d < b.last then TurnedAway(b, p)
            else p.ok && p.book == u.book.(cash := u.book.cash + k - cost, borrowCash := u.book.borrowCash + k,
                                           loans := u.book.loans + [Lot(d, 1.0, k as real)], last := d)
                 && p.log == u.log + [TradeRecord(CashBorrowed, None, d, k, 0.0, 0.0, cost)]
  {
    hide Update, RoundUnits;
  }

  /** What the cost policy asks for giving the lots `q` back whole. */
  function WholeLoansCost(cfg: Config, q: seq<Lot>, d: int): nat {
    if q == [] then 0
    else WholeLoansCost(cfg, q[..|q| - 1], d) + cfg.cost(ReturnCashCost(q[|q| - 1].datetime, d, q[|q| - 1].number))
  }

  /** A repayment costs what its whole loans cost, and what the part of the loan it ends in costs. */
  lemma {:induction false} RepaymentCost(cfg: Config, q: seq<Lot>, last: Lot, rest: seq<Lot>, d: int, n: real)
    requires Total(q) < n <= Total(q) + last.number && Positive(q)
    ensures LoanReturnCost(cfg, q + [last] + rest, d, n)
         == WholeLoansCost(cfg, q, d) + cfg.cost(ReturnCashCost(last.datetime, d, n - Total(q)))
    decreases |q|
  {
    if q == [] {
      assert q + [last] + rest == [last] + rest;
    } else {
      assert Positive(q[1..]);
      TotalNonNegative(q[1..]);
      RepaymentCost(cfg, q[1..], last, rest, d, n - q[0].number);
      WholeLoansFirst(cfg, q, d);
      assert (q + [last] + rest)[1..] == q[1..] + [last] + rest;
    }
  }

  lemma {:induction false} WholeLoansFirst(cfg: Config, q: seq<Lot>, d: int)
    requires q != []
    ensures WholeLoansCost(cfg, q, d)
         == cfg.cost(ReturnCashCost(q[0].datetime, d, q[0].number)) + WholeLoansCost(cfg, q[1..], d)
    decreases |q|
  {
    if |q| > 1 {
      WholeLoansFirst(cfg, q[..|q| - 1], d);
      assert q[1..][..|q| - 2] == q[..|q| - 1][1..];
    } else {
      assert q[..0] == [] && q[1..] == [];
    }
  }

  /** A repayment is accepted exactly when it is owed and the settled cash covers it and its cost. */
  lemma ReturnCashLaw(cfg: Config, b: Book, d: int, cash: real)
    requires Sound(b)
    ensures var p, u, k := ReturnCash(cfg, b, d, cash), Update(cfg, b, d), RoundUnits(cash, cfg.precision);
            var cost := LoanReturnCost(cfg, b.loans, d, k as real);
            if cash <= 0.0 || d < b.last || b.loans == [] || d < b.loans[|b.loans| - 1].datetime then TurnedAway(b, p)
            else if k > b.borrowCash || k + cost > u.book.cash then OnlySettled(u, p)
            else p.ok && p.book == u.book.(cash := u.book.cash - k - cost, borrowCash := u.book.borrowCash - k,
                                           loans := TakeOldest(u.book.loans, k as real), last := d)
                 && p.log == u.log + [TradeRecord(CashReturned, None, d, k, 0.0, 0.0, cost)]
  {
    UpdateOnlySettles(cfg, b, d);
    hide Update, RoundUnits, LoanReturnCost, TakeOldest, Shortfall, Total;
    assert Update(cfg, b, d).log + [] == Update(cfg, b, d).log;
    if cash > 0.0 {
      RoundNonNegative(cash, cfg.precision);
      ShortfallIsZero(b.loans, RoundUnits(cash, cfg.precision) as real);
    }
  }

  // ---------------------------------------------------------------------------------------------------------
  // Shares in and out

  lemma CheckinStockLaw(cfg: Config, b: Book, d: int, stock: Option<StockId>, price: real, number: real)
    ensures var p, u := CheckinStock(cfg, b, d, stock, price, number), Update(cfg, b, d);
            if stock.None? || number == 0.0 || price <= 0.0 || d < b.last then TurnedAway(b, p)
            else
              var id, money := stock.value, Money(cfg, stock.value, price, number);
              && p.ok && Joins(u.book.positions, p.book.positions, id, d, number, money, 0)
              && p.book == u.book.(positions := p.book.positions, last := d,
                                   checkinStock := u.book.checkinStock + money)
              && p.log == u.log + [TradeRecord(StockIn, Some(id), d, 0, price, number, 0)]
  {
    hide Update, RoundUnits;
  }

  /** What is left of the holding `p` when `number` shares worth `exact` are withdrawn. */
  function Withdrawn(cfg: Config, p: Position, exact: real, number: real): Position {
    p.(number := p.number - number, sellCount := p.sellCount + 1,
       sellMoney := RoundUnits(Value(p.sellMoney, cfg.precision) + exact, cfg.precision))
  }

  /** A withdrawal of shares from `book`: it goes through exactly when that many are held, and the withdrawn asset
      value falls by what they are worth. */
  predicate Withdrawal(cfg: Config, book: Book, log: seq<TradeRecord>, p: Posted, d: int, id: StockId, price: real,
                       number: real)
  {
    if id !in book.positions || number > book.positions[id].number then
      p.book == book && p.log == log && !p.ok && p.trade == None
    else
      var exact, q := price * number * cfg.unit(id), p.book.positions;
      var left := Withdrawn(cfg, book.positions[id], exact, number);
      && p.ok && Parts(book.positions, book.history, q, p.book.history, id, left, left.cleanDatetime)
      && p.book == book.(positions := q, history := p.book.history, last := d, checkoutStock :=
                         RoundUnits(Value(book.checkoutStock, cfg.precision) - exact, cfg.precision))
      && p.log == log + [TradeRecord(StockOut, Some(id), d, 0, price, number, 0)]
  }

  lemma PostCheckoutStockLaw(cfg: Config, b: Book, d: int, id: StockId, price: real, number: real,
                             log: seq<TradeRecord>)
    ensures Withdrawal(cfg, b, log, After(log, PostCheckoutStock(cfg, b, d, id, price, number)), d, id, price, number)
  {
    hide Value, RoundUnits;
    assert log + [] == log;
  }

  lemma CheckoutStockLaw(cfg: Config, b: Book, d: int, stock: Option<StockId>, price: real, number: real)
    ensures var p, u := CheckoutStock(cfg, b, d, stock, price, number), Update(cfg, b, d);
            if stock.None? || number == 0.0 || price <= 0.0 || d < b.last then TurnedAway(b, p)
            else Withdrawal(cfg, u.book, u.log, p, d, stock.value, price, number)
  {
    hide Update, PostCheckoutStock, Withdrawal;
    if stock.Some? {
      var u := Update(cfg, b, d);
      PostCheckoutStockLaw(cfg, u.book, d, stock.value, price, number, u.log);
    }
  }

  // ---------------------------------------------------------------------------------------------------------
  // Buying

  predicate Tradable(cfg: Config, id: StockId, number: real) {
    number != 0.0 && number >= cfg.minNumber(id) && number <= cfg.maxNumber(id)
  }

  /** A purchase that `book` pays by itself: it goes through exactly when the cash covers the money together with the
      cost, and then takes both and adds the shares. */
  predicate Purchase(cfg: Config, book: Book, log: seq<TradeRecord>, p: Posted, d: int, id: StockId, price: real,
                     number: real)
  {
    var money, cost := Money(cfg, id, price, number), cfg.cost(BuyCost(d, id, price, number));
    var record := TradeRecord(BuyIn, Some(id), d, 0, price, number, cost);
    && (p.trade.Some? <==> book.cash >= money + cost) && p.ok == p.trade.Some?
    && if p.trade.None? then p.book == book && p.log == log
       else p.trade == Some(record) && p.log == log + [record]
            && Joins(book.positions, p.book.positions, id, d, number, money, cost)
            && p.book == book.(cash := book.cash - (money + cost), positions := p.book.positions, last := d)
  }

  lemma PostBuyLaw(cfg: Config, b: Book, d: int, id: StockId, price: real, number: real, log: seq<TradeRecord>)
    ensures Purchase(cfg, b, log, After(log, PostBuy(cfg, b, d, id, price, number)), d, id, price, number)
  {
    hide RoundUnits;
    assert log + [] == log;
  }

  /** An order of an account that does not finance by itself. */
  lemma BuyLaw(cfg: Config, b: Book, d: int, stock: Option<StockId>, price: real, number: real)
    requires !cfg.borrowCash
    ensures var p, u := Buy(cfg, b, d, stock, price, number), Update(cfg, b, d);
            if stock.None? || d < b.last || !Tradable(cfg, stock.value, number) then TurnedAway(b, p)
            else Purchase(cfg, u.book, u.log, p, d, stock.value, price, number)
  {
    hide Update, PostBuy, Purchase;
    if stock.Some? {
      var u := Update(cfg, b, d);
      PostBuyLaw(cfg, u.book, d, stock.value, price, number, u.log);
      assert u.log + ([] + PostBuy(cfg, u.book, d, stock.value, price, number).log)
          == u.log + PostBuy(cfg, u.book, d, stock.value, price, number).log;
    }
  }

  /** The account stands settled for business at `d`. */
  predicate SettledFor(b: Book, d: int) {
    b.last <= d <= b.lastUpdate
  }

  lemma SettlesFor(cfg: Config, b: Book, d: int)
    requires Environment(cfg) && b.last <= b.lastUpdate && b.last <= d
    ensures SettledFor(Update(cfg, b, d).book, d)
  {
    hide SettleAll, Environment;
    if b.lastUpdate < d {
      UpdateWindow(cfg, b, d);
    }
  }

  lemma PrecisionRounds(cfg: Config)
    requires Environment(cfg)
    ensures 2 <= cfg.precision <= 9
  {
  }

  /** Rounding a number of money units up leaves it one unit further out. */
  lemma OneUnitMore(k: int, n: nat)
    requires n <= 9
    ensures var far := if k >= 0 then k + 1 else k - 1;
            RoundUp(Value(k, n), n) == Value(far, n) && RoundUnits(Value(far, n), n) == far
  {
    RoundGridValue(if k >= 0 then k + 1 else k - 1, n);
    ScaledValue(k, n);
    hide Scale, Pow10;
    if k < 0 {
      assert (-(k as real - 1.0)).Floor == 1 - k;
    }
  }

  /** What the account brings in for a purchase it finances by itself: what its cash, grossed up by the margin rate,
      and the costs leave of the money, and a loan over the money, each rounded up by a whole unit. */
  function Deposit(cfg: Config, b: Book, d: int, id: StockId, price: real, number: real): nat {
    var n, money := cfg.precision, Money(cfg, id, price, number);
    var cost, fee := cfg.cost(BuyCost(d, id, price, number)), cfg.cost(BorrowCashCost(d, Value(money, n)));
    var gap := money - RoundUnits(Value(b.cash, n) / 0.6 + Value(cost, n) + Value(fee, n), n);
    if gap > 0 then gap + 1 else 0
  }

  /** `f` is `b` with `deposit` paid in and `loan` borrowed; nothing is recorded of nothing. */
  predicate Raised(cfg: Config, b: Book, f: Posted, d: int, deposit: nat, loan: nat) {
    var fee := if loan > 0 then cfg.cost(BorrowCashCost(d, Value(loan, cfg.precision))) else 0;
    && f.book == b.(cash := b.cash + deposit + loan - fee, checkinCash := b.checkinCash + deposit,
                    borrowCash := b.borrowCash + loan, last := if deposit + loan > 0 then d else b.last,
                    loans := if loan > 0 then b.loans + [Lot(d, 1.0, loan as real)] else b.loans)
    && f.log == (if deposit > 0 then [TradeRecord(CashIn, None, d, deposit, 0.0, 0.0, 0)] else [])
                + (if loan > 0 then [TradeRecord(CashBorrowed, None, d, loan, 0.0, 0.0, fee)] else [])
  }

  lemma DepositRaises(cfg: Config, b: Book, d: int, k: int)
    requires SettledFor(b, d) && 0 < k && cfg.precision <= 9
    ensures var p := Checkin(cfg, b, d, Value(k, cfg.precision));
            Raised(cfg, b, p, d, k, 0) && SettledFor(p.book, d)
  {
    ValuePositive(k, cfg.precision);
    RoundGridValue(k, cfg.precision);
    UpdateIdle(cfg, b, d);
    hide Update, RoundUnits, Value;
  }

  lemma LoanRaises(cfg: Config, b: Book, d: int, k: int)
    requires SettledFor(b, d) && 0 < k && cfg.precision <= 9
    ensures Raised(cfg, b, BorrowCash(cfg, b, d, Value(k, cfg.precision)), d, 0, k)
  {
    ValuePositive(k, cfg.precision);
    RoundGridValue(k, cfg.precision);
    UpdateIdle(cfg, b, d);
    hide Update, RoundUnits, Value;
  }

  lemma ValuePositive(k: int, n: nat)
    ensures Value(k, n) > 0.0 <==> k > 0
  {
    ScaledValue(k, n);
  }

  lemma DepositIs(cfg: Config, b: Book, d: int, id: StockId, price: real, number: real)
    ensures var gap := PurchaseGap(cfg, b, d, id, price, number);
            Deposit(cfg, b, d, id, price, number) == if gap > 0 then gap + 1 else 0
  {
    MoneyIs(cfg, id, price, number);
    hide Worth, Money;
  }

  lemma RaisedTwice(cfg: Config, b: Book, c: Posted, f: Posted, d: int, deposit: nat, loan: nat)
    requires Raised(cfg, b, c, d, deposit, 0) && Raised(cfg, c.book, f, d, 0, loan)
    ensures Raised(cfg, b, After(c.log, f), d, deposit, loan)
  {
  }

  lemma RaisesNothing(cfg: Config, b: Book, d: int)
    ensures Raised(cfg, b, Done(b, []), d, 0, 0) && Raised(cfg, b, Nothing(b), d, 0, 0)
  {
  }

  lemma DepositLaw(cfg: Config, b: Book, d: int, gap: int)
    requires cfg.precision <= 9 && SettledFor(b, d)
    ensures var c := if gap > 0 then Checkin(cfg, b, d, RoundUp(Value(gap, cfg.precision), cfg.precision))
                     else Done(b, []);
            Raised(cfg, b, c, d, if gap > 0 then gap + 1 else 0, 0) && SettledFor(c.book, d)
  {
    OneUnitMore(gap, cfg.precision);
    RaisesNothing(cfg, b, d);
    hide RoundUp, Value, Checkin, Raised;
    if gap > 0 {
      DepositRaises(cfg, b, d, gap + 1);
    }
  }

  lemma LoanLaw(cfg: Config, b: Book, d: int, money: int)
    requires cfg.precision <= 9 && SettledFor(b, d)
    ensures Raised(cfg, b, BorrowCash(cfg, b, d, RoundUp(Value(money, cfg.precision), cfg.precision)), d, 0,
                   if money >= 0 then money + 1 else 0)
  {
    OneUnitMore(money, cfg.precision);
    RaisesNothing(cfg, b, d);
    if money >= 0 {
      hide RoundUp, Value, BorrowCash, Raised;
      LoanRaises(cfg, b, d, money + 1);
    } else {
      ValuePositive(money - 1, cfg.precision);
      hide RoundUp, Value, Raised;
    }
  }

  lemma FinanceLaw(cfg: Config, b: Book, d: int, id: StockId, price: real, number: real)
    requires cfg.borrowCash && cfg.precision <= 9 && SettledFor(b, d)
    ensures var money := Money(cfg, id, price, number);
            Raised(cfg, b, Finance(cfg, b, d, id, price, number), d, Deposit(cfg, b, d, id, price, number),
                   if money >= 0 then money + 1 else 0)
  {
    var n, gap, money := cfg.precision, PurchaseGap(cfg, b, d, id, price, number), Money(cfg, id, price, number);
    DepositIs(cfg, b, d, id, price, number);
    MoneyIs(cfg, id, price, number);
    DepositLaw(cfg, b, d, gap);
    hide RoundUp, Value, Worth, Money, PurchaseGap, Deposit, Checkin, BorrowCash, Raised;
    var c := if gap > 0 then Checkin(cfg, b, d, RoundUp(Value(gap, n), n)) else Done(b, []);
    LoanLaw(cfg, c.book, d, money);
    RaisedTwice(cfg, b, c, BorrowCash(cfg, c.book, d, RoundUp(Value(money, n), n)), d,
                if gap > 0 then gap + 1 else 0, if money >= 0 then money + 1 else 0);
  }

  lemma FinanceThenPurchase(cfg: Config, u: Posted, d: int, id: StockId, price: real, number: real)
    requires cfg.borrowCash && cfg.precision <= 9 && SettledFor(u.book, d)
    ensures var f := Finance(cfg, u.book, d, id, price, number);
            var money := Money(cfg, id, price, number);
            && Raised(cfg, u.book, f, d, Deposit(cfg, u.book, d, id, price, number),
                      if money >= 0 then money + 1 else 0)
            && Purchase(cfg, f.book, u.log + f.log,
                        After(u.log, After(f.log, PostBuy(cfg, f.book, d, id, price, number))), d, id, price, number)
  {
    hide PostBuy, Purchase, Finance, Raised, Deposit, Money;
    var f := Finance(cfg, u.book, d, id, price, number);
    FinanceLaw(cfg, u.book, d, id, price, number);
    PostBuyLaw(cfg, f.book, d, id, price, number, u.log + f.log);
    assert u.log + (f.log + PostBuy(cfg, f.book, d, id, price, number).log)
        == u.log + f.log + PostBuy(cfg, f.book, d, id, price, number).log;
  }

  /** An order of an account that finances by itself: it raises the deposit and a loan of the money and one unit, and
      what it then buys it buys from what it has raised, or keeps the money when that is still too little. */
  lemma FinancedBuyLaw(cfg: Config, b: Book, d: int, stock: Option<StockId>, price: real, number: real)
    requires cfg.borrowCash && Environment(cfg) && b.last <= b.lastUpdate
    ensures var p, u := Buy(cfg, b, d, stock, price, number), Update(cfg, b, d);
            if stock.None? || d < b.last || !Tradable(cfg, stock.value, number) then TurnedAway(b, p)
            else
              var id, money := stock.value, Money(cfg, stock.value, price, number);
              exists f :: Raised(cfg, u.book, f, d, Deposit(cfg, u.book, d, id, price, number),
                                 if money >= 0 then money + 1 else 0)
                          && Purchase(cfg, f.book, u.log + f.log, p, d, id, price, number)
  {
    if stock.Some? && d >= b.last && Tradable(cfg, stock.value, number) {
      hide Environment, Update, PostBuy, Purchase, Finance, Raised, Deposit, Money;
      PrecisionRounds(cfg);
      SettlesFor(cfg, b, d);
      FinanceThenPurchase(cfg, Update(cfg, b, d), d, stock.value, price, number);
    }
  }

  // ---------------------------------------------------------------------------------------------------------
  // Selling

  /** The number an order over `q` names of a holding of `number` shares. */
  function Ordered(q: Quantity, number: real): real {
    if q.All? then number else q.number
  }

  /** A sale from `book`: it goes through exactly when that many shares are held, brings their money less the cost, and
      closes the holding when none is left. */
  predicate Sale(cfg: Config, book: Book, log: seq<TradeRecord>, p: Posted, d: int, id: StockId, price: real,
                 q: Quantity)
    requires id in book.positions
  {
    var held := book.positions[id];
    var number := Ordered(q, held.number);
    var money, cost := Money(cfg, id, price, number), cfg.cost(SellCost(d, id, price, number));
    var record := TradeRecord(SellOut, Some(id), d, 0, price, number, cost);
    var left := held.(number := held.number - number, totalCost := held.totalCost + cost,
                      sellMoney := held.sellMoney + money, sellCount := held.sellCount + 1);
    && (p.trade.Some? <==> number <= held.number) && p.ok == p.trade.Some?
    && if p.trade.None? then p.book == book && p.log == log
       else p.trade == Some(record) && p.log == log + [record]
            && Parts(book.positions, book.history, p.book.positions, p.book.history, id, left, Some(d))
            && p.book == book.(cash := book.cash + money - cost, positions := p.book.positions,
                               history := p.book.history, last := d)
  }

  lemma PostSellLaw(cfg: Config, b: Book, d: int, id: StockId, price: real, q: Quantity, log: seq<TradeRecord>)
    requires id in b.positions
    ensures Sale(cfg, b, log, After(log, PostSell(cfg, b, d, id, price, q)), d, id, price, q)
  {
    MoneyIs(cfg, id, price, Ordered(q, b.positions[id].number));
    hide Money, Worth;
    assert log + [] == log;
  }

  predicate Quantified(cfg: Config, id: StockId, q: Quantity) {
    q.All? || Tradable(cfg, id, q.number)
  }

  /** After a sale an account that finances by itself gives back what it owes, as far as its cash goes, if the cash
      covers the cost as well. */
  predicate Repaid(cfg: Config, b: Book, r: Posted, d: int) {
    var k := if b.borrowCash < b.cash then b.borrowCash else b.cash;
    var cost := LoanReturnCost(cfg, b.loans, d, k as real);
    if !cfg.borrowCash || k <= 0 || b.loans == [] || d < b.loans[|b.loans| - 1].datetime || k + cost > b.cash
    then r.book == b && r.log == []
    else r.book == b.(cash := b.cash - k - cost, borrowCash := b.borrowCash - k, last := d,
                      loans := TakeOldest(b.loans, k as real))
         && r.log == [TradeRecord(CashReturned, None, d, k, 0.0, 0.0, cost)]
  }

  lemma RepayLaw(cfg: Config, b: Book, d: int)
    requires Sound(b) && cfg.precision <= 9 && SettledFor(b, d)
    ensures Repaid(cfg, b, Repay(cfg, b, d), d)
  {
    var k := if b.borrowCash < b.cash then b.borrowCash else b.cash;
    ValuePositive(k, cfg.precision);
    RoundGridValue(k, cfg.precision);
    ReturnCashLaw(cfg, b, d, Value(k, cfg.precision));
    UpdateIdle(cfg, b, d);
    hide Update, RoundUnits, Value, ReturnCash, LoanReturnCost, TakeOldest, Sound;
  }

  lemma SellLaw(cfg: Config, b: Book, d: int, stock: Option<StockId>, price: real, q: Quantity)
    requires Environment(cfg) && Sound(b) && b.last <= b.lastUpdate
    ensures var p, u := Sell(cfg, b, d, stock, price, q), Update(cfg, b, d);
            if stock.None? || d < b.last || !Quantified(cfg, stock.value, q) || stock.value !in b.positions
            then TurnedAway(b, p)
            else
              stock.value in u.book.positions
              && exists s, r ::
                && Sale(cfg, u.book, u.log, s, d, stock.value, price, q)
                && if s.trade.None? then p == s
                   else Repaid(cfg, s.book, r, d) && p == Posted(r.book, s.log + r.log, true, s.trade)
  {
    if stock.Some? && d >= b.last && Quantified(cfg, stock.value, q) && stock.value in b.positions {
      hide Environment, Update, PostSell, Sale, Repay, Repaid, Sound, Reads, SettledFor, Sorts;
      PrecisionRounds(cfg);
      EnvironmentSorts(cfg);
      SettlesFor(cfg, b, d);
      UpdateOnlySettles(cfg, b, d);
      UpdateReads(cfg, Cash, b, d);
      var u := Update(cfg, b, d);
      SaleThenRepayment(cfg, u, d, stock.value, price, q);
      var s := After(u.log, PostSell(cfg, u.book, d, stock.value, price, q));
      assert Sale(cfg, u.book, u.log, s, d, stock.value, price, q);
    }
  }

  lemma SaleThenRepayment(cfg: Config, u: Posted, d: int, id: StockId, price: real, q: Quantity)
    requires cfg.precision <= 9 && Sound(u.book) && SettledFor(u.book, d) && id in u.book.positions
    ensures var s := PostSell(cfg, u.book, d, id, price, q);
            var t, r := After(u.log, s), Repay(cfg, s.book, d);
            Sale(cfg, u.book, u.log, t, d, id, price, q) && s.ok == s.trade.Some?
            && (s.ok ==> Repaid(cfg, s.book, r, d) && u.log + (s.log + r.log) == t.log + r.log)
  {
    hide Money, RoundUnits, Value, Sound, Reads, Worth, Repay, Repaid;
    var s := PostSell(cfg, u.book, d, id, price, q);
    PostSellLaw(cfg, u.book, d, id, price, q, u.log);
    SellSound(cfg, u.book, d, id, price, q);
    if s.ok {
      RepayLaw(cfg, s.book, d);
    }
  }

  // ---------------------------------------------------------------------------------------------------------
  // There and back

  /** A deposit withdrawn again on its day leaves the settled account, with both on its base; it can be withdrawn
      exactly when the account was not overdrawn before. */
  lemma DepositWithdrawn(cfg: Config, b: Book, d: int, cash: real)
    requires cash > 0.0 && b.last <= d
    ensures var u, k := Update(cfg, b, d), RoundUnits(cash, cfg.precision);
            var w := Checkout(cfg, Checkin(cfg, b, d, cash).book, d, cash);
            && (w.ok <==> u.book.cash >= 0)
            && (w.ok ==> w.book == u.book.(checkinCash := u.book.checkinCash + k, last := d,
                                           checkoutCash := u.book.checkoutCash + k))
  {
    var c := Checkin(cfg, b, d, cash).book;
    CheckinLaw(cfg, b, d, cash);
    CheckoutLaw(cfg, c, d, cash);
    UpdateIdle(cfg, c, d);
    hide Update, RoundUnits, Checkin, Checkout;
  }

  /** A first loan repaid on its day leaves the settled account less the two costs, and can be repaid exactly when the
      account had them. */
  lemma LoanRepaid(cfg: Config, b: Book, d: int, cash: real)
    requires Sorts(cfg) && Sound(b) && cash > 0.0 && b.last <= d && b.loans == []
    ensures var u, k := Update(cfg, b, d), RoundUnits(cash, cfg.precision);
            var r := ReturnCash(cfg, BorrowCash(cfg, b, d, cash).book, d, cash);
            var costs := cfg.cost(BorrowCashCost(d, cash)) + cfg.cost(ReturnCashCost(d, d, k as real));
            && (r.ok <==> u.book.cash >= costs)
            && (r.ok ==> r.book == u.book.(cash := u.book.cash - costs, last := d))
  {
    var k := RoundUnits(cash, cfg.precision);
    var c := BorrowCash(cfg, b, d, cash).book;
    RoundNonNegative(cash, cfg.precision);
    UpdateOnlySettles(cfg, b, d);
    UpdateReads(cfg, Cash, b, d);
    BorrowCashLaw(cfg, b, d, cash);
    UpdateIdle(cfg, c, d);
    hide Update, RoundUnits, BorrowCash, ReturnCash, Reads, Sorts;
    var lot := Lot(d, 1.0, k as real);
    assert c.loans == [lot] && [lot][1..] == [];
    assert Total([lot]) == k as real;
    assert LoanReturnCost(cfg, [lot], d, k as real) == cfg.cost(ReturnCashCost(d, d, k as real));
    ReturnCashLaw(cfg, c, d, cash);
  }

  /** What is held of `id`. */
  function Holding(b: Book, id: StockId): real {
    if id in b.positions then b.positions[id].number else 0.0
  }

  lemma PurchaseShows(cfg: Config, u: Posted, p: Posted, d: int, id: StockId, price: real, number: real)
    requires Purchase(cfg, u.book, u.log, p, d, id, price, number) && p.ok
    ensures p.book.cash == u.book.cash - Money(cfg, id, price, number) - cfg.cost(BuyCost(d, id, price, number))
    ensures id in p.book.positions && Holding(p.book, id) == Holding(u.book, id) + number
    ensures p.book.last == d && p.book.lastUpdate == u.book.lastUpdate
  {
    hide Money;
  }

  lemma SaleShows(cfg: Config, u: Posted, s: Posted, d: int, id: StockId, price: real, number: real)
    requires id in u.book.positions && Sale(cfg, u.book, u.log, s, d, id, price, Shares(number))
    ensures s.trade.Some? <==> number <= Holding(u.book, id)
    ensures s.trade.Some? ==>
      && s.book.cash == u.book.cash + Money(cfg, id, price, number) - cfg.cost(SellCost(d, id, price, number))
      && Holding(s.book, id) == Holding(u.book, id) - number
  {
    hide Money;
  }

  lemma SellAlone(cfg: Config, b: Book, d: int, id: StockId, price: real, number: real)
    requires Environment(cfg) && Sound(b) && b.last <= d <= b.lastUpdate && !cfg.borrowCash
    requires Tradable(cfg, id, number) && id in b.positions
    ensures var s := Sell(cfg, b, d, Some(id), price, Shares(number));
            && (s.ok <==> number <= Holding(b, id))
            && (s.ok ==>
                  && s.book.cash == b.cash + Money(cfg, id, price, number) - cfg.cost(SellCost(d, id, price, number))
                  && Holding(s.book, id) == Holding(b, id) - number)
  {
    SellLaw(cfg, b, d, Some(id), price, Shares(number));
    UpdateIdle(cfg, b, d);
    hide Sell, Environment, Sound, Money, Update, Sale, Holding;
    var p, u := Sell(cfg, b, d, Some(id), price, Shares(number)), Done(b, []);
    var s, r :| Sale(cfg, u.book, u.log, s, d, id, price, Shares(number))
                && if s.trade.None? then p == s
                   else Repaid(cfg, s.book, r, d) && p == Posted(r.book, s.log + r.log, true, s.trade);
    SaleShows(cfg, u, s, d, id, price, number);
    assert s.ok == s.trade.Some? by { SaleIsOk(cfg, u, s, d, id, price, number); }
  }

  lemma SaleIsOk(cfg: Config, u: Posted, s: Posted, d: int, id: StockId, price: real, number: real)
    requires id in u.book.positions && Sale(cfg, u.book, u.log, s, d, id, price, Shares(number))
    ensures s.ok == s.trade.Some?
  {
  }

  lemma BuyAlone(cfg: Config, b: Book, d: int, id: StockId, price: real, number: real)
    requires Environment(cfg) && b.last <= b.lastUpdate && !cfg.borrowCash && b.last <= d && Tradable(cfg, id, number)
    ensures var u, p := Update(cfg, b, d), Buy(cfg, b, d, Some(id), price, number);
            p.ok ==>
              && p.book.cash == u.book.cash - Money(cfg, id, price, number) - cfg.cost(BuyCost(d, id, price, number))
              && id in p.book.positions && Holding(p.book, id) == Holding(u.book, id) + number
              && p.book.last == d <= p.book.lastUpdate
  {
    hide Update, Buy, Environment, Money, Purchase, Holding;
    BuyLaw(cfg, b, d, Some(id), price, number);
    SettlesFor(cfg, b, d);
    var p := Buy(cfg, b, d, Some(id), price, number);
    if p.ok {
      PurchaseShows(cfg, Update(cfg, b, d), p, d, id, price, number);
    }
  }

  lemma BuyStaysSound(cfg: Config, b: Book, d: int, id: StockId, price: real, number: real)
    requires Environment(cfg) && Sound(b)
    ensures Sound(Buy(cfg, b, d, Some(id), price, number).book)
  {
    hide Environment, Sorts, Buy, Sound, Shown;
    EnvironmentSorts(cfg);
    var op := OpBuy(d, Some(id), price, number);
    assert Apply(cfg, b, op) == Buy(cfg, b, d, Some(id), price, number);
    hide Apply;
    OperationReads(cfg, Cash, b, op);
  }

  /** Shares bought and sold again on their day at the same price cost the account the two costs and leave its holding
      as it was; they can be sold exactly when the holding was not negative. */
  lemma BoughtAndSold(cfg: Config, b: Book, d: int, id: StockId, price: real, number: real)
    requires Environment(cfg) && Sound(b) && b.last <= b.lastUpdate && !cfg.borrowCash
    requires b.last <= d && Tradable(cfg, id, number)
    ensures var u, p := Update(cfg, b, d), Buy(cfg, b, d, Some(id), price, number);
            var s := Sell(cfg, p.book, d, Some(id), price, Shares(number));
            var costs := cfg.cost(BuyCost(d, id, price, number)) + cfg.cost(SellCost(d, id, price, number));
            p.ok ==>
              && (s.ok <==> Holding(u.book, id) >= 0.0)
              && (s.ok ==> s.book.cash == u.book.cash - costs && Holding(s.book, id) == Holding(u.book, id))
  {
    BuyAlone(cfg, b, d, id, price, number);
    BuyStaysSound(cfg, b, d, id, price, number);
    hide Update, Buy, Sell, Sound, Environment, Money, Holding;
    var p := Buy(cfg, b, d, Some(id), price, number);
    if p.ok {
      SellAlone(cfg, p.book, d, id, price, number);
    }
  }
}
