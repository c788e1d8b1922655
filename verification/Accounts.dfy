/**
 The state of an execution account, the environment it runs in, and what each ledger operation does to it.

 Money is an integer count of 10^-precision units.  Every operation yields a `Posted`: the next book, the trade
 records it appends to the log, and what it returns.  `Book.last` is the datetime of the last record of the log.
 */
module Accounts {
  import opened Options
  import opened Calendar
  import opened Keys
  import opened Rounding
  import opened Fifo
  import opened Weights

  type StockId = nat

  datatype Business =
    | Init | BuyIn | SellOut | Gift | Bonus | CashIn | CashOut | StockIn | StockOut
    | CashBorrowed | CashReturned | StockBorrowed | StockReturned | ShortSold | ShortCovered | Suogu

  /** A record of the trade log.  `amount` is the real price of a cash record, counted in money units; `price` is
      the real price of a share record. */
  datatype TradeRecord = TradeRecord(
    business: Business, stock: Option<StockId>, datetime: int,
    amount: int, price: real, number: real, cost: nat)

  datatype Position = Position(
    stock: StockId, takeDatetime: int, cleanDatetime: Option<int>, number: real, totalNumber: real,
    buyMoney: int, totalCost: int, sellMoney: int, buyCount: nat, sellCount: nat)

  datatype BorrowRecord = BorrowRecord(number: real, value: int, lots: seq<Lot>)

  /** What a cost policy is asked. */
  datatype CostQuery =
    | BuyCost(at: int, stock: StockId, price: real, number: real)
    | SellCost(at: int, stock: StockId, price: real, number: real)
    | BorrowCashCost(at: int, cash: real)
    | ReturnCashCost(since: int, at: int, cash: real)
    | BorrowStockCost(at: int, stock: StockId, price: real, number: real)
    | ReturnStockCost(since: int, at: int, stock: StockId, price: real, number: real)

  /** The account's parameters and everything it asks the outside for: stock attributes, the ex-rights events of a
      stock, the total of a cost record, and what `std::sort` makes of a buffer of records. */
  datatype Config = Config(
    precision: nat, borrowCash: bool, borrowStock: bool,
    unit: StockId -> real, minNumber: StockId -> real, maxNumber: StockId -> real,
    weights: StockId -> seq<StockWeight>,
    cost: CostQuery -> nat,
    sort: seq<TradeRecord> -> seq<TradeRecord>)

  datatype Book = Book(
    last: int, lastUpdate: int,
    cash: int, checkinCash: int, checkoutCash: int, checkinStock: int, checkoutStock: int, borrowCash: int,
    loans: seq<Lot>, borrowed: map<StockId, BorrowRecord>,
    positions: map<StockId, Position>, history: seq<Position>,
    shorts: map<StockId, Position>, shortHistory: seq<Position>)

  /** What an order returns: the record of the trade, or none when the business would be invalid. */
  datatype Posted = Posted(book: Book, log: seq<TradeRecord>, ok: bool, trade: Option<TradeRecord>)

  /** A quantity to sell or cover; `All` is the source's MAX_DOUBLE. */
  datatype Quantity = All | Shares(number: real)

  // The default margin rate is fixed.
  const MARGIN_RATE := 0.6

  function Nothing(b: Book): Posted {
    Posted(b, [], false, None)
  }

  function Done(b: Book, log: seq<TradeRecord>): Posted {
    Posted(b, log, true, None)
  }

  function After(log: seq<TradeRecord>, p: Posted): Posted {
    p.(log := log + p.log)
  }

  function CashRecord(business: Business, d: int, amount: int, cost: nat): TradeRecord {
    TradeRecord(business, None, d, amount, 0.0, 0.0, cost)
  }

  function ShareRecord(business: Business, stock: StockId, d: int, price: real, number: real, cost: nat)
    : TradeRecord
  {
    TradeRecord(business, Some(stock), d, 0, price, number, cost)
  }

  /** The exact value of `number` shares at `price`. */
  function Amount(cfg: Config, stock: StockId, price: real, number: real): real {
    price * number * cfg.unit(stock)
  }

  /** The rounded money value of `number` shares at `price`. */
  function Worth(cfg: Config, stock: StockId, price: real, number: real): int {
    RoundUnits(Amount(cfg, stock, price, number), cfg.precision)
  }

  /** The rounded proceeds of a short sale, net of its cost. */
  function ShortProceeds(cfg: Config, stock: StockId, price: real, number: real, cost: nat): int {
    RoundUnits(Amount(cfg, stock, price, number) - Value(cost, cfg.precision), cfg.precision)
  }

  // ---------------------------------------------------------------------------------------------------------
  // Corporate actions

  predicate IsNothing(w: StockWeight) {
    w.bonus == 0.0 && w.countAsGift == 0.0 && w.increasement == 0.0 && w.suogu == 0.0
  }

  datatype Settled = Settled(position: Position, bonus: int, records: seq<TradeRecord>)

  /** The cash dividend, computed before any share count changes. */
  function PayBonus(precision: nat, p: Position, w: StockWeight): Settled {
    if w.bonus == 0.0 then Settled(p, 0, [])
    else
      var bonus := RoundUnits(p.number * w.bonus * 0.1, precision);
      Settled(p.(sellMoney := p.sellMoney + bonus), bonus,
              [TradeRecord(Bonus, Some(p.stock), w.datetime, bonus, 0.0, 0.0, 0)])
  }

  /** Bonus and capitalised shares. */
  function AddShares(p: Position, w: StockWeight): Settled {
    var added := p.number / 10.0 * (w.countAsGift + w.increasement);
    if added == 0.0 then Settled(p, 0, [])
    else Settled(p.(number := p.number + added, totalNumber := p.totalNumber + added), 0,
                 [ShareRecord(Gift, p.stock, w.datetime, 0.0, added, 0)])
  }

  function ConsolidatedNumber(number: real, ratio: real): real {
    var n := number * ratio;
    if n < number then RoundUp(n, 0) else if n > number then RoundDown(n, 0) else number
  }

  /** Share consolidation rounds up, share expansion truncates. */
  function Consolidate(p: Position, w: StockWeight): Settled {
    if w.suogu <= 0.0 then Settled(p, 0, [])
    else
      var n := ConsolidatedNumber(p.number, w.suogu);
      Settled(p.(number := n), 0,
              if n - p.number == 0.0 then []
              else [ShareRecord(Suogu, p.stock, w.datetime, 0.0, n - p.number, 0)])
  }

  function SettleEvent(precision: nat, p: Position, w: StockWeight): Settled {
    if IsNothing(w) then Settled(p, 0, [])
    else
      var s1 := PayBonus(precision, p, w);
      var s2 := AddShares(s1.position, w);
      var s3 := Consolidate(s2.position, w);
      Settled(s3.position, s1.bonus, s1.records + s2.records + s3.records)
  }

  function SettleEvents(precision: nat, p: Position, ws: seq<StockWeight>): Settled {
    if ws == [] then Settled(p, 0, [])
    else
      var s := SettleEvents(precision, p, ws[..|ws| - 1]);
      var e := SettleEvent(precision, s.position, ws[|ws| - 1]);
      Settled(e.position, s.bonus + e.bonus, s.records + e.records)
  }

  datatype Batch = Batch(positions: map<StockId, Position>, bonus: int, records: seq<TradeRecord>)

  function SettleStock(cfg: Config, p: Position, id: StockId, start: int, end: int): Settled {
    SettleEvents(cfg.precision, p, Window(cfg.weights(id), start, end))
  }

  /** Settles the positions of `ids` in ascending order, as the iteration over the position map does. */
  ghost function SettleAll(cfg: Config, ids: set<StockId>, positions: map<StockId, Position>, start: int, end: int)
    : (r: Batch)
    requires ids <= positions.Keys
    ensures r.positions.Keys == positions.Keys
    ensures forall id <- positions ::
              r.positions[id] == if id in ids then SettleStock(cfg, positions[id], id, start, end).position
                                 else positions[id]
    decreases |ids|
  {
    if ids == {} then Batch(positions, 0, [])
    else
      var id := Least(ids);
      var s := SettleStock(cfg, positions[id], id, start, end);
      var rest := SettleAll(cfg, ids - {id}, positions, start, end);
      Batch(rest.positions[id := s.position], s.bonus + rest.bonus, s.records + rest.records)
  }

  function LastOf(log: seq<TradeRecord>, otherwise: int): int {
    if log == [] then otherwise else log[|log| - 1].datetime
  }

  /** `updateWithWeight`: lazily settles every event since the last record of the log, up to the date of `d`. */
  ghost function Update(cfg: Config, b: Book, d: int): Posted {
    if d <= b.lastUpdate then Done(b, [])
    else
      var s := SettleAll(cfg, b.positions.Keys, b.positions, NextDay(b.last), NextDay(d));
      var log := cfg.sort(s.records);
      Done(b.(positions := s.positions, cash := b.cash + s.bonus, last := LastOf(log, b.last), lastUpdate := d), log)
  }

  // ---------------------------------------------------------------------------------------------------------
  // Deposits and withdrawals

  /** The opening cash is rounded to two places whatever the precision of the account. */
  function OpenAccount(cfg: Config, d: int, initCash: real): Posted {
    var cash := RoundUnits(RoundEx(initCash, 2), cfg.precision);
    Done(Book(d, d, cash, cash, 0, 0, 0, 0, [], map[], map[], [], map[], []), [CashRecord(Init, d, cash, 0)])
  }

  function PostCheckin(b: Book, d: int, amount: int): Posted {
    Done(b.(cash := b.cash + amount, checkinCash := b.checkinCash + amount, last := d),
         [CashRecord(CashIn, d, amount, 0)])
  }

  ghost function Checkin(cfg: Config, b: Book, d: int, cash: real): Posted {
    if cash <= 0.0 || d < b.last then Nothing(b)
    else
      var u := Update(cfg, b, d);
      After(u.log, PostCheckin(u.book, d, RoundUnits(cash, cfg.precision)))
  }

  function PostCheckout(b: Book, d: int, amount: int): Posted {
    if b.cash - amount < 0 then Nothing(b)
    else Done(b.(cash := b.cash - amount, checkoutCash := b.checkoutCash + amount, last := d),
              [CashRecord(CashOut, d, amount, 0)])
  }

  ghost function Checkout(cfg: Config, b: Book, d: int, cash: real): Posted {
    if cash <= 0.0 || d < b.last then Nothing(b)
    else
      var u := Update(cfg, b, d);
      After(u.log, PostCheckout(u.book, d, RoundUnits(cash, cfg.precision)))
  }

  function PostCheckinStock(cfg: Config, b: Book, d: int, id: StockId, price: real, number: real): Posted {
    var worth := Worth(cfg, id, price, number);
    var p :=
      if id in b.positions then
        var p := b.positions[id];
        p.(number := p.number + number, totalNumber := p.totalNumber + number, buyMoney := p.buyMoney + worth,
           buyCount := p.buyCount + 1)
      else Position(id, d, None, number, number, worth, 0, 0, 1, 0);
    Done(b.(positions := b.positions[id := p], checkinStock := b.checkinStock + worth, last := d),
         [ShareRecord(StockIn, id, d, price, number, 0)])
  }

  ghost function CheckinStock(cfg: Config, b: Book, d: int, stock: Option<StockId>, price: real, number: real)
    : Posted
  {
    if stock.None? || number == 0.0 || price <= 0.0 || d < b.last then Nothing(b)
    else
      var u := Update(cfg, b, d);
      After(u.log, PostCheckinStock(cfg, u.book, d, stock.value, price, number))
  }

  /** Puts a position back, or moves it to the history when no share is left. */
  function PutPosition(b: Book, id: StockId, p: Position, cleaned: Position): Book {
    if p.number == 0.0 then b.(positions := b.positions - {id}, history := b.history + [cleaned])
    else b.(positions := b.positions[id := p])
  }

  function PostCheckoutStock(cfg: Config, b: Book, d: int, id: StockId, price: real, number: real): Posted {
    if id !in b.positions || number > b.positions[id].number then Nothing(b)
    else
      var held := b.positions[id];
      var n := cfg.precision;
      var taken := Amount(cfg, id, price, number);
      var p := held.(number := held.number - number, sellMoney := RoundUnits(Value(held.sellMoney, n) + taken, n),
                     sellCount := held.sellCount + 1);
      Done(PutPosition(b, id, p, p).(checkoutStock := RoundUnits(Value(b.checkoutStock, n) - taken, n), last := d),
           [ShareRecord(StockOut, id, d, price, number, 0)])
  }

  ghost function CheckoutStock(cfg: Config, b: Book, d: int, stock: Option<StockId>, price: real, number: real)
    : Posted
  {
    if stock.None? || number == 0.0 || price <= 0.0 || d < b.last then Nothing(b)
    else
      var u := Update(cfg, b, d);
      After(u.log, PostCheckoutStock(cfg, u.book, d, stock.value, price, number))
  }

  // ---------------------------------------------------------------------------------------------------------
  // Borrowing

  function PostBorrowCash(cfg: Config, b: Book, d: int, cash: real): Posted {
    var amount := RoundUnits(cash, cfg.precision);
    var cost := cfg.cost(BorrowCashCost(d, cash));
    Done(b.(cash := b.cash + amount - cost, borrowCash := b.borrowCash + amount,
            loans := b.loans + [Lot(d, 1.0, amount as real)], last := d),
         [CashRecord(CashBorrowed, d, amount, cost)])
  }

  ghost function BorrowCash(cfg: Config, b: Book, d: int, cash: real): Posted {
    if cash <= 0.0 || d < b.last then Nothing(b)
    else
      var u := Update(cfg, b, d);
      After(u.log, PostBorrowCash(cfg, u.book, d, cash))
  }

  /** The summed cost of giving `n` units back to the oldest loans. */
  function LoanReturnCost(cfg: Config, loans: seq<Lot>, d: int, n: real): nat {
    if loans == [] then 0
    else if n <= loans[0].number then cfg.cost(ReturnCashCost(loans[0].datetime, d, n))
    else cfg.cost(ReturnCashCost(loans[0].datetime, d, loans[0].number))
         + LoanReturnCost(cfg, loans[1..], d, n - loans[0].number)
  }

  function PostReturnCash(cfg: Config, b: Book, d: int, amount: int): Posted {
    var cost := LoanReturnCost(cfg, b.loans, d, amount as real);
    if Shortfall(b.loans, amount as real) != 0.0 || amount + cost > b.cash then Nothing(b)
    else Done(b.(cash := b.cash - (amount + cost), borrowCash := b.borrowCash - amount,
                 loans := TakeOldest(b.loans, amount as real), last := d),
              [CashRecord(CashReturned, d, amount, cost)])
  }

  ghost function ReturnCash(cfg: Config, b: Book, d: int, cash: real): Posted {
    if cash <= 0.0 || d < b.last || b.loans == [] || d < b.loans[|b.loans| - 1].datetime then Nothing(b)
    else
      var u := Update(cfg, b, d);
      After(u.log, PostReturnCash(cfg, u.book, d, RoundUnits(cash, cfg.precision)))
  }

  function PostBorrowStock(cfg: Config, b: Book, d: int, id: StockId, price: real, number: real): Posted {
    var worth := Worth(cfg, id, price, number);
    var cost := cfg.cost(BorrowStockCost(d, id, price, number));
    var lot := Lot(d, price, number);
    var r :=
      if id in b.borrowed then
        var r := b.borrowed[id];
        BorrowRecord(r.number + number, r.value + worth, r.lots + [lot])
      else BorrowRecord(number, worth, [lot]);
    Done(b.(cash := b.cash - cost, borrowed := b.borrowed[id := r], last := d),
         [ShareRecord(StockBorrowed, id, d, price, number, cost)])
  }

  ghost function BorrowStock(cfg: Config, b: Book, d: int, stock: Option<StockId>, price: real, number: real)
    : Posted
  {
    if stock.None? || d < b.last || number == 0.0 || price <= 0.0 then Nothing(b)
    else
      var u := Update(cfg, b, d);
      After(u.log, PostBorrowStock(cfg, u.book, d, stock.value, price, number))
  }

  /** The summed cost of a return of `number` shares; every lot it touches is charged for the whole number. */
  function StockReturnCost(cfg: Config, id: StockId, lots: seq<Lot>, d: int, price: real, number: real, remain: real)
    : nat
    decreases |lots|
  {
    if lots == [] then 0
    else
      var c := cfg.cost(ReturnStockCost(lots[0].datetime, d, id, price, number));
      if remain <= lots[0].number then c
      else c + StockReturnCost(cfg, id, lots[1..], d, price, number, remain - lots[0].number)
  }

  /** The borrow value a return of `remain` shares gives back, rounded lot by lot on top of `acc`. */
  function ReturnedWorth(cfg: Config, id: StockId, lots: seq<Lot>, remain: real, acc: int): int
    decreases |lots|
  {
    if lots == [] then acc
    else if remain <= lots[0].number then
      RoundUnits(Value(acc, cfg.precision) + Amount(cfg, id, lots[0].price, remain), cfg.precision)
    else
      ReturnedWorth(cfg, id, lots[1..], remain - lots[0].number,
                    RoundUnits(Value(acc, cfg.precision) + Amount(cfg, id, lots[0].price, lots[0].number),
                               cfg.precision))
  }

  function PostReturnStock(cfg: Config, b: Book, d: int, id: StockId, price: real, number: real): Posted {
    if id !in b.borrowed || number > b.borrowed[id].number then Nothing(b)
    else
      var r := b.borrowed[id];
      var cost := StockReturnCost(cfg, id, r.lots, d, price, number, number);
      var lots := TakeOldest(r.lots, number);
      var r' := BorrowRecord(r.number - number, r.value - ReturnedWorth(cfg, id, r.lots, number, 0), lots);
      Done(b.(cash := b.cash - cost,
              borrowed := if lots == [] then b.borrowed - {id} else b.borrowed[id := r'],
              last := d),
           [ShareRecord(StockReturned, id, d, price, number, cost)])
  }

  ghost function ReturnStock(cfg: Config, b: Book, d: int, stock: Option<StockId>, price: real, number: real)
    : Posted
  {
    if stock.None? || d < b.last || number == 0.0 || price <= 0.0 then Nothing(b)
    else
      var u := Update(cfg, b, d);
      After(u.log, PostReturnStock(cfg, u.book, d, stock.value, price, number))
  }

  // ---------------------------------------------------------------------------------------------------------
  // Orders

  predicate TradableNumber(cfg: Config, id: StockId, number: real) {
    number != 0.0 && cfg.minNumber(id) <= number <= cfg.maxNumber(id)
  }

  predicate TradableQuantity(cfg: Config, id: StockId, q: Quantity) {
    q.Shares? ==> TradableNumber(cfg, id, q.number)
  }

  function PostBuy(cfg: Config, b: Book, d: int, id: StockId, price: real, number: real): Posted {
    var cost := cfg.cost(BuyCost(d, id, price, number));
    var money := Worth(cfg, id, price, number);
    if b.cash < money + cost then Nothing(b)
    else
      var p :=
        if id in b.positions then
          var p := b.positions[id];
          p.(number := p.number + number, totalNumber := p.totalNumber + number, buyMoney := money + p.buyMoney,
             totalCost := cost + p.totalCost, buyCount := p.buyCount + 1)
        else Position(id, d, None, number, number, money, cost, 0, 1, 0);
      var record := ShareRecord(BuyIn, id, d, price, number, cost);
      Posted(b.(cash := b.cash - money - cost, positions := b.positions[id := p], last := d), [record], true,
             Some(record))
  }

  /** How far the account's margin falls short of a purchase it finances by itself. */
  function PurchaseGap(cfg: Config, b: Book, d: int, id: StockId, price: real, number: real): int {
    var n := cfg.precision;
    var cost := cfg.cost(BuyCost(d, id, price, number));
    var money := Worth(cfg, id, price, number);
    var loanCost := cfg.cost(BorrowCashCost(d, Value(money, n)));
    money - RoundUnits(Value(b.cash, n) / MARGIN_RATE + Value(cost, n) + Value(loanCost, n), n)
  }

  /** The part of a purchase the account finances by itself: a deposit when the margin is short, then a loan. */
  ghost function Finance(cfg: Config, b: Book, d: int, id: StockId, price: real, number: real): Posted {
    if !cfg.borrowCash then Done(b, [])
    else
      var n := cfg.precision;
      var gap := PurchaseGap(cfg, b, d, id, price, number);
      var c := if gap > 0 then Checkin(cfg, b, d, RoundUp(Value(gap, n), n)) else Done(b, []);
      After(c.log, BorrowCash(cfg, c.book, d, RoundUp(Value(Worth(cfg, id, price, number), n), n)))
  }

  ghost function Buy(cfg: Config, b: Book, d: int, stock: Option<StockId>, price: real, number: real): Posted {
    if stock.None? || d < b.last || !TradableNumber(cfg, stock.value, number) then Nothing(b)
    else
      var u := Update(cfg, b, d);
      var f := Finance(cfg, u.book, d, stock.value, price, number);
      After(u.log, After(f.log, PostBuy(cfg, f.book, d, stock.value, price, number)))
  }

  function PostSell(cfg: Config, b: Book, d: int, id: StockId, price: real, q: Quantity): Posted
    requires id in b.positions
  {
    var held := b.positions[id];
    var number := if q.All? then held.number else q.number;
    if held.number < number then Nothing(b)
    else
      var cost := cfg.cost(SellCost(d, id, price, number));
      var money := Worth(cfg, id, price, number);
      var p := held.(number := held.number - number, totalCost := held.totalCost + cost,
                     sellMoney := held.sellMoney + money, sellCount := held.sellCount + 1);
      var record := ShareRecord(SellOut, id, d, price, number, cost);
      Posted(PutPosition(b, id, p, p.(cleanDatetime := Some(d))).(cash := b.cash + money - cost, last := d),
             [record], true, Some(record))
  }

  /** After a sale the account repays its loans with what cash it has. */
  ghost function Repay(cfg: Config, b: Book, d: int): Posted {
    if cfg.borrowCash && b.borrowCash > 0 && b.cash > 0
    then ReturnCash(cfg, b, d, Value(if b.borrowCash < b.cash then b.borrowCash else b.cash, cfg.precision))
    else Done(b, [])
  }

  ghost function Sell(cfg: Config, b: Book, d: int, stock: Option<StockId>, price: real, q: Quantity): Posted {
    if stock.None? || d < b.last || !TradableQuantity(cfg, stock.value, q) || stock.value !in b.positions
    then Nothing(b)
    else
      var u := Update(cfg, b, d);
      var s := PostSell(cfg, u.book, d, stock.value, price, q);
      if !s.ok then After(u.log, s)
      else
        var r := Repay(cfg, s.book, d);
        Posted(r.book, u.log + (s.log + r.log), true, s.trade)
  }

  /** `roundEx(x)` with its default of no decimal places, on an amount of money. */
  function WholeMoney(k: int, n: nat): int {
    (RoundEx(Value(k, n), 0) * Pow10(n)).Floor
  }

  function PostSellShort(cfg: Config, b: Book, d: int, id: StockId, price: real, number: real): Posted {
    if id !in b.borrowed then Nothing(b)
    else
      var total := b.borrowed[id].number;
      if id in b.shorts && b.shorts[id].number >= total then Nothing(b)
      else
        var free := if id in b.shorts then total - b.shorts[id].number else total;
        var sold := if number > free then free else number;
        var cost := cfg.cost(SellCost(d, id, price, sold));
        var n := cfg.precision;
        var money := ShortProceeds(cfg, id, price, sold, cost);
        var p :=
          if id in b.shorts then
            var p := b.shorts[id];
            p.(number := p.number + sold, totalNumber := p.totalNumber + sold,
               buyMoney := WholeMoney(p.buyMoney + cost, n), totalCost := cost + p.totalCost,
               sellMoney := p.sellMoney + money, sellCount := p.sellCount + 1)
          else Position(id, d, None, sold, sold, cost, cost, money, 0, 1);
        var record := ShareRecord(ShortSold, id, d, price, sold, cost);
        Posted(b.(cash := b.cash + money, shorts := b.shorts[id := p], last := d), [record], true, Some(record))
  }

  /** How far the account's margin falls short of a short sale it borrows the stock for by itself. */
  function ShortGap(cfg: Config, b: Book, d: int, id: StockId, price: real, number: real): int {
    var n := cfg.precision;
    var cost := cfg.cost(SellCost(d, id, price, number));
    RoundUnits(Amount(cfg, id, price, number) + Value(cost, n), n) - RoundUnits(Value(b.cash, n) / MARGIN_RATE, n)
  }

  /** The stock a short sale borrows by itself, after a deposit when the margin is short. */
  ghost function BorrowForShort(cfg: Config, b: Book, d: int, id: StockId, price: real, number: real): Posted {
    if !cfg.borrowStock then Done(b, [])
    else
      var n := cfg.precision;
      var gap := ShortGap(cfg, b, d, id, price, number);
      var c := if gap > 0 then Checkin(cfg, b, d, RoundEx(Value(gap, n), n)) else Done(b, []);
      After(c.log, BorrowStock(cfg, c.book, d, Some(id), price, number))
  }

  ghost function SellShort(cfg: Config, b: Book, d: int, stock: Option<StockId>, price: real, number: real,
                           stoploss: real): Posted
  {
    if stock.None? || d < b.last || !TradableNumber(cfg, stock.value, number)
       || (stoploss != 0.0 && stoploss < price)
    then Nothing(b)
    else
      var u := Update(cfg, b, d);
      var f := BorrowForShort(cfg, u.book, d, stock.value, price, number);
      After(u.log, After(f.log, PostSellShort(cfg, f.book, d, stock.value, price, number)))
  }

  function Covered(held: Position, number: real, money: int, cost: nat): Position {
    held.(number := held.number - number, buyMoney := held.buyMoney + money + cost,
          totalCost := held.totalCost + cost, buyCount := held.buyCount + 1)
  }

  /** Puts a short position back, or moves it to the history when it is covered. */
  function PutShort(b: Book, id: StockId, p: Position, d: int): Book {
    if p.number == 0.0
    then b.(shorts := b.shorts - {id}, shortHistory := b.shortHistory + [p.(cleanDatetime := Some(d))])
    else b.(shorts := b.shorts[id := p])
  }

  function PostBuyShort(cfg: Config, b: Book, d: int, id: StockId, price: real, q: Quantity): Posted
    requires id in b.shorts
  {
    var held := b.shorts[id];
    var number := if q.All? || q.number > held.number then held.number else q.number;
    var cost := cfg.cost(BuyCost(d, id, price, number));
    var money := Worth(cfg, id, price, number);
    var record := ShareRecord(ShortCovered, id, d, price, number, cost);
    Posted(PutShort(b, id, Covered(held, number, money, cost), d).(cash := b.cash - money - cost, last := d),
           [record], true, Some(record))
  }

  ghost function BuyShort(cfg: Config, b: Book, d: int, stock: Option<StockId>, price: real, q: Quantity): Posted {
    if stock.None? || d < b.last || !TradableQuantity(cfg, stock.value, q) || stock.value !in b.shorts
    then Nothing(b)
    else
      var u := Update(cfg, b, d);
      var s := PostBuyShort(cfg, u.book, d, stock.value, price, q);
      var r := if cfg.borrowStock then ReturnStock(cfg, s.book, d, stock, price, s.trade.value.number)
               else Done(s.book, []);
      Posted(r.book, u.log + (s.log + r.log), true, s.trade)
  }

  // ---------------------------------------------------------------------------------------------------------
  // Runs

  datatype Op =
    | OpSettle(d: int)
    | OpCheckin(d: int, cash: real)
    | OpCheckout(d: int, cash: real)
    | OpCheckinStock(d: int, stock: Option<StockId>, price: real, number: real)
    | OpCheckoutStock(d: int, stock: Option<StockId>, price: real, number: real)
    | OpBorrowCash(d: int, cash: real)
    | OpReturnCash(d: int, cash: real)
    | OpBorrowStock(d: int, stock: Option<StockId>, price: real, number: real)
    | OpReturnStock(d: int, stock: Option<StockId>, price: real, number: real)
    | OpBuy(d: int, stock: Option<StockId>, price: real, number: real)
    | OpSell(d: int, stock: Option<StockId>, price: real, q: Quantity)
    | OpSellShort(d: int, stock: Option<StockId>, price: real, number: real, stoploss: real)
    | OpBuyShort(d: int, stock: Option<StockId>, price: real, q: Quantity)

  ghost function Apply(cfg: Config, b: Book, op: Op): Posted {
    match op
    case OpSettle(d) => Update(cfg, b, d)
    case OpCheckin(d, cash) => Checkin(cfg, b, d, cash)
    case OpCheckout(d, cash) => Checkout(cfg, b, d, cash)
    case OpCheckinStock(d, stock, price, number) => CheckinStock(cfg, b, d, stock, price, number)
    case OpCheckoutStock(d, stock, price, number) => CheckoutStock(cfg, b, d, stock, price, number)
    case OpBorrowCash(d, cash) => BorrowCash(cfg, b, d, cash)
    case OpReturnCash(d, cash) => ReturnCash(cfg, b, d, cash)
    case OpBorrowStock(d, stock, price, number) => BorrowStock(cfg, b, d, stock, price, number)
    case OpReturnStock(d, stock, price, number) => ReturnStock(cfg, b, d, stock, price, number)
    case OpBuy(d, stock, price, number) => Buy(cfg, b, d, stock, price, number)
    case OpSell(d, stock, price, q) => Sell(cfg, b, d, stock, price, q)
    case OpSellShort(d, stock, price, number, stoploss) => SellShort(cfg, b, d, stock, price, number, stoploss)
    case OpBuyShort(d, stock, price, q) => BuyShort(cfg, b, d, stock, price, q)
  }

  datatype Account = Account(book: Book, trades: seq<TradeRecord>)

  function Opened(cfg: Config, d: int, initCash: real): Account {
    var p := OpenAccount(cfg, d, initCash);
    Account(p.book, p.log)
  }

  ghost function Step(cfg: Config, a: Account, op: Op): Account {
    var p := Apply(cfg, a.book, op);
    Account(p.book, a.trades + p.log)
  }

  ghost function Run(cfg: Config, a: Account, ops: seq<Op>): Account {
    if ops == [] then a else Step(cfg, Run(cfg, a, ops[..|ops| - 1]), ops[|ops| - 1])
  }

  // ---------------------------------------------------------------------------------------------------------
  // Assumptions on the environment

  ghost predicate Sorted(log: seq<TradeRecord>) {
    forall i, j :: 0 <= i < j < |log| ==> log[i].datetime <= log[j].datetime
  }

  /** `std::sort` permutes a buffer into date order; which order equal dates get is open. */
  ghost predicate Sorts(cfg: Config) {
    forall buffer: seq<TradeRecord> ::
      multiset(cfg.sort(buffer)) == multiset(buffer) && Sorted(cfg.sort(buffer))
  }

  /** Ex-rights events are in date order and stand at midnight. */
  ghost predicate DatedWeights(cfg: Config) {
    forall id: StockId, i, j :: 0 <= i < j < |cfg.weights(id)| ==>
      cfg.weights(id)[i].datetime <= cfg.weights(id)[j].datetime
  }

  ghost predicate MidnightWeights(cfg: Config) {
    forall id: StockId, i :: 0 <= i < |cfg.weights(id)| ==> Midnight(cfg.weights(id)[i].datetime)
  }

  ghost predicate Environment(cfg: Config) {
    2 <= cfg.precision <= 9 && Sorts(cfg) && DatedWeights(cfg) && MidnightWeights(cfg)
  }
}
