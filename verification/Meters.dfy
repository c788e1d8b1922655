/**
 What the log says about the book.  A meter is a quantity the live ledger shows and every trade record changes by
 a fixed reading.  Over every run, each meter shows the sum of the readings of the log: cash is conserved, and the
 long, short and borrowed quantities can be replayed.
 */
module Meters {
  import opened Options
  import opened Keys
  import opened Sequences
  import opened Rounding
  import opened Fifo
  import opened Weights
  import opened Accounts
  import opened Plans

  datatype Meter =
    | Cash | BaseCash | BaseAsset | DebtCash
    | Long(id: StockId) | Short(id: StockId) | Debt(id: StockId)
    | LongProfit

  function RecordWorth(cfg: Config, r: TradeRecord): int {
    if r.stock.None? then 0 else Worth(cfg, r.stock.value, r.price, r.number)
  }

  function RecordShortProceeds(cfg: Config, r: TradeRecord): int {
    if r.stock.None? then 0 else ShortProceeds(cfg, r.stock.value, r.price, r.number, r.cost)
  }

  function CashFlow(cfg: Config, r: TradeRecord): int {
    match r.business
    case Init => r.amount
    case CashIn => r.amount
    case Bonus => r.amount
    case CashOut => -r.amount
    case CashBorrowed => r.amount - r.cost
    case CashReturned => -r.amount - r.cost
    case BuyIn => -RecordWorth(cfg, r) - r.cost
    case SellOut => RecordWorth(cfg, r) - r.cost
    case ShortSold => RecordShortProceeds(cfg, r)
    case ShortCovered => -RecordWorth(cfg, r) - r.cost
    case StockBorrowed => 0 - r.cost
    case StockReturned => 0 - r.cost
    case _ => 0
  }

  function Reading(cfg: Config, m: Meter, r: TradeRecord): real {
    match m
    case Cash => CashFlow(cfg, r) as real
    case BaseCash =>
      if r.business == Init || r.business == CashIn then r.amount as real
      else if r.business == CashOut then -r.amount as real else 0.0
    case BaseAsset => if r.business == StockIn then RecordWorth(cfg, r) as real else 0.0
    case DebtCash =>
      if r.business == CashBorrowed then r.amount as real
      else if r.business == CashReturned then -r.amount as real else 0.0
    case Long(id) =>
      if r.stock != Some(id) then 0.0
      else if r.business in {BuyIn, Gift, StockIn, Suogu} then r.number
      else if r.business in {SellOut, StockOut} then -r.number else 0.0
    case Short(id) =>
      if r.stock != Some(id) then 0.0
      else if r.business == ShortSold then r.number
      else if r.business == ShortCovered then -r.number else 0.0
    case Debt(id) =>
      if r.stock != Some(id) then 0.0
      else if r.business == StockBorrowed then r.number
      else if r.business == StockReturned then -r.number else 0.0
    case LongProfit =>
      if r.business in {BuyIn, SellOut, Bonus} then CashFlow(cfg, r) as real
      else if r.business == StockIn then -RecordWorth(cfg, r) as real else 0.0
  }

  function Sum(cfg: Config, m: Meter, log: seq<TradeRecord>): real {
    if log == [] then 0.0 else Sum(cfg, m, log[..|log| - 1]) + Reading(cfg, m, log[|log| - 1])
  }

  /** Sell money less buy money and costs of one position. */
  function Gain(p: Position): int {
    p.sellMoney - p.buyMoney - p.totalCost
  }

  ghost function Gains(positions: map<StockId, Position>): int
    decreases |positions|
  {
    if positions.Keys == {} then 0
    else
      var id := Least(positions.Keys);
      Gain(positions[id]) + Gains(positions - {id})
  }

  function HistoryGains(history: seq<Position>): int {
    if history == [] then 0 else HistoryGains(history[..|history| - 1]) + Gain(history[|history| - 1])
  }

  function NumberIn(positions: map<StockId, Position>, id: StockId): real {
    if id in positions then positions[id].number else 0.0
  }

  function BorrowedNumber(b: Book, id: StockId): real {
    if id in b.borrowed then b.borrowed[id].number else 0.0
  }

  /** What the live ledger shows. */
  ghost function Shown(b: Book, m: Meter): real {
    match m
    case Cash => b.cash as real
    case BaseCash => (b.checkinCash - b.checkoutCash) as real
    case BaseAsset => (b.checkinStock - b.checkoutStock) as real
    case DebtCash => b.borrowCash as real
    case Long(id) => NumberIn(b.positions, id)
    case Short(id) => NumberIn(b.shorts, id)
    case Debt(id) => BorrowedNumber(b, id)
    case LongProfit => (Gains(b.positions) + HistoryGains(b.history)) as real
  }

  /** Positions are filed under their stock, and the three queues hold what their totals say. */
  ghost predicate Sound(b: Book) {
    && (forall id <- b.positions :: b.positions[id].stock == id)
    && NonNegative(b.loans) && Total(b.loans) == b.borrowCash as real
    && (forall id <- b.borrowed :: b.borrowed[id].lots != [] && Total(b.borrowed[id].lots) == b.borrowed[id].number)
  }

  /** Withdrawn stock is booked against the wrong sign, so it is outside these two meters. */
  predicate Covers(m: Meter, p: Posting) {
    p.DoCheckoutStock? ==> !m.LongProfit? && !m.BaseAsset?
  }

  // ---------------------------------------------------------------------------------------------------------
  // Sums

  lemma {:induction false} SumAppend(cfg: Config, m: Meter, x: seq<TradeRecord>, y: seq<TradeRecord>)
    ensures Sum(cfg, m, x + y) == Sum(cfg, m, x) + Sum(cfg, m, y)
  {
    hide Reading;
    if y == [] {
      assert x + y == x;
    } else {
      assert (x + y)[..|x + y| - 1] == x + y[..|y| - 1];
      SumAppend(cfg, m, x, y[..|y| - 1]);
    }
  }

  lemma SumOne(cfg: Config, m: Meter, r: TradeRecord)
    ensures Sum(cfg, m, [r]) == Reading(cfg, m, r)
  {
    hide Reading;
    assert [r][..0] == [];
  }

  lemma SumRemoveAt(cfg: Config, m: Meter, y: seq<TradeRecord>, i: nat)
    requires i < |y|
    ensures Sum(cfg, m, y) == Sum(cfg, m, RemoveAt(y, i)) + Reading(cfg, m, y[i])
  {
    hide Reading;
    var front, back := y[..i], y[i + 1..];
    assert y == front + ([y[i]] + back);
    SumOne(cfg, m, y[i]);
    SumAppend(cfg, m, [y[i]], back);
    SumAppend(cfg, m, front, [y[i]] + back);
    SumAppend(cfg, m, front, back);
  }

  lemma {:induction false} SumPermutation(cfg: Config, m: Meter, x: seq<TradeRecord>, y: seq<TradeRecord>)
    requires multiset(x) == multiset(y)
    ensures Sum(cfg, m, x) == Sum(cfg, m, y)
    decreases |x|
  {
    if x == [] {
      assert y == [] by { assert |multiset(y)| == |y|; }
    } else {
      assert x[0] in multiset(y);
      var i :| 0 <= i < |y| && y[i] == x[0];
      assert |RemoveAt(x, 0)| < |x|;
      hide Reading, Sum, RemoveAt;
      MultisetRemoveAt(x, 0);
      MultisetRemoveAt(y, i);
      SumPermutation(cfg, m, RemoveAt(x, 0), RemoveAt(y, i));
      SumRemoveAt(cfg, m, x, 0);
      SumRemoveAt(cfg, m, y, i);
    }
  }

  lemma {:induction false} GainsWithout(positions: map<StockId, Position>, id: StockId)
    requires id in positions
    ensures Gains(positions) == Gain(positions[id]) + Gains(positions - {id})
    decreases |positions|
  {
    hide Gain;
    var least := Least(positions.Keys);
    if least != id {
      var rest := positions - {least};
      GainsWithout(rest, id);
      assert rest - {id} == (positions - {id}) - {least};
      assert Least((positions - {id}).Keys) == least;
    }
  }

  lemma GainsUpdate(positions: map<StockId, Position>, id: StockId, p: Position)
    ensures Gains(positions[id := p]) == Gain(p) + Gains(positions - {id})
  {
    hide Gains, Gain;
    assert positions[id := p] - {id} == positions - {id};
    GainsWithout(positions[id := p], id);
  }

  lemma HistoryGainsAppend(history: seq<Position>, p: Position)
    ensures HistoryGains(history + [p]) == HistoryGains(history) + Gain(p)
  {
    assert (history + [p])[..|history|] == history;
  }

  // ---------------------------------------------------------------------------------------------------------
  // Corporate actions

  /** What one position shows of a meter. */
  function Part(p: Position, m: Meter): real {
    match m
    case Long(id) => if p.stock == id then p.number else 0.0
    case LongProfit => Gain(p) as real
    case _ => 0.0
  }

  function Paid(bonus: int, m: Meter): real {
    if m.Cash? then bonus as real else 0.0
  }

  ghost predicate ReadsSettled(cfg: Config, m: Meter, p: Position, s: Settled) {
    s.position.stock == p.stock
    && Part(s.position, m) + Paid(s.bonus, m) == Part(p, m) + Sum(cfg, m, s.records)
  }

  lemma PayBonusReads(cfg: Config, m: Meter, p: Position, w: StockWeight)
    ensures ReadsSettled(cfg, m, p, PayBonus(cfg.precision, p, w))
  {
    hide RoundUnits;
    var s := PayBonus(cfg.precision, p, w);
    if w.bonus != 0.0 {
      SumOne(cfg, m, s.records[0]);
    }
  }

  lemma AddSharesReads(cfg: Config, m: Meter, p: Position, w: StockWeight)
    ensures ReadsSettled(cfg, m, p, AddShares(p, w)) && AddShares(p, w).bonus == 0
  {
    hide RoundUnits;
    var added := p.number / 10.0 * (w.countAsGift + w.increasement);
    if added != 0.0 {
      SumOne(cfg, m, ShareRecord(Gift, p.stock, w.datetime, 0.0, added, 0));
    }
  }

  lemma ConsolidateReads(cfg: Config, m: Meter, p: Position, w: StockWeight)
    ensures ReadsSettled(cfg, m, p, Consolidate(p, w)) && Consolidate(p, w).bonus == 0
  {
    hide RoundUnits, ConsolidatedNumber;
    if w.suogu > 0.0 {
      var n := ConsolidatedNumber(p.number, w.suogu);
      SumOne(cfg, m, ShareRecord(Suogu, p.stock, w.datetime, 0.0, n - p.number, 0));
    }
  }

  lemma SettleEventReads(cfg: Config, m: Meter, p: Position, w: StockWeight)
    ensures ReadsSettled(cfg, m, p, SettleEvent(cfg.precision, p, w))
  {
    hide PayBonus, AddShares, Consolidate, Part, Reading;
    if !IsNothing(w) {
      hide Sum;
      var s1 := PayBonus(cfg.precision, p, w);
      var s2 := AddShares(s1.position, w);
      var s3 := Consolidate(s2.position, w);
      PayBonusReads(cfg, m, p, w);
      AddSharesReads(cfg, m, s1.position, w);
      ConsolidateReads(cfg, m, s2.position, w);
      SumAppend(cfg, m, s1.records, s2.records);
      SumAppend(cfg, m, s1.records + s2.records, s3.records);
    }
  }

  lemma {:induction false} SettleEventsRead(cfg: Config, m: Meter, p: Position, ws: seq<StockWeight>)
    ensures ReadsSettled(cfg, m, p, SettleEvents(cfg.precision, p, ws))
    decreases |ws|
  {
    hide SettleEvent, Part, Reading;
    if ws != [] {
      var s := SettleEvents(cfg.precision, p, ws[..|ws| - 1]);
      SettleEventsRead(cfg, m, p, ws[..|ws| - 1]);
      SettleEventReads(cfg, m, s.position, ws[|ws| - 1]);
      SumAppend(cfg, m, s.records, SettleEvent(cfg.precision, s.position, ws[|ws| - 1]).records);
    }
  }

  /** What all open positions show of a meter. */
  ghost function Holdings(positions: map<StockId, Position>, m: Meter): real {
    match m
    case Long(id) => NumberIn(positions, id)
    case LongProfit => Gains(positions) as real
    case _ => 0.0
  }

  lemma HoldingsUpdate(positions: map<StockId, Position>, id: StockId, p: Position, m: Meter)
    requires id in positions && positions[id].stock == id && p.stock == id
    ensures Holdings(positions[id := p], m) - Holdings(positions, m) == Part(p, m) - Part(positions[id], m)
  {
    if m.LongProfit? {
      GainsUpdate(positions, id, p);
      GainsWithout(positions, id);
    }
  }

  ghost predicate FiledByStock(positions: map<StockId, Position>) {
    forall id <- positions :: positions[id].stock == id
  }

  lemma {:induction false} SettleAllReads(cfg: Config, m: Meter, ids: set<StockId>, positions: map<StockId, Position>,
                                          start: int, end: int)
    requires ids <= positions.Keys && FiledByStock(positions)
    ensures var s := SettleAll(cfg, ids, positions, start, end);
            FiledByStock(s.positions)
            && Holdings(s.positions, m) + Paid(s.bonus, m) == Holdings(positions, m) + Sum(cfg, m, s.records)
    decreases |ids|
  {
    hide Holdings, Part, Reading, SettleEvents, Window;
    if ids != {} {
      var id := Least(ids);
      var s := SettleStock(cfg, positions[id], id, start, end);
      var rest := SettleAll(cfg, ids - {id}, positions, start, end);
      SettleEventsRead(cfg, m, positions[id], Window(cfg.weights(id), start, end));
      SettleAllReads(cfg, m, ids - {id}, positions, start, end);
      HoldingsUpdate(rest.positions, id, s.position, m);
      SumAppend(cfg, m, s.records, rest.records);
    }
  }

  // ---------------------------------------------------------------------------------------------------------
  // Postings

  ghost predicate Reads(cfg: Config, m: Meter, b: Book, p: Posted) {
    Shown(p.book, m) == Shown(b, m) + Sum(cfg, m, p.log)
  }

  lemma UpdateReads(cfg: Config, m: Meter, b: Book, d: int)
    requires Sorts(cfg) && Sound(b)
    ensures Reads(cfg, m, b, Update(cfg, b, d)) && Sound(Update(cfg, b, d).book)
  {
    if d > b.lastUpdate {
      hide SettleAll, Reading;
      var start, end := Calendar.NextDay(b.last), Calendar.NextDay(d);
      var s := SettleAll(cfg, b.positions.Keys, b.positions, start, end);
      SettleAllReads(cfg, m, b.positions.Keys, b.positions, start, end);
      SumPermutation(cfg, m, cfg.sort(s.records), s.records);
    }
  }

  lemma CheckinReads(cfg: Config, m: Meter, b: Book, d: int, amount: int)
    requires Sound(b)
    ensures Reads(cfg, m, b, PostCheckin(b, d, amount)) && Sound(PostCheckin(b, d, amount).book)
  {
    hide Gains, HistoryGains;
    SumOne(cfg, m, CashRecord(CashIn, d, amount, 0));
  }

  lemma CheckoutReads(cfg: Config, m: Meter, b: Book, d: int, amount: int)
    requires Sound(b)
    ensures Reads(cfg, m, b, PostCheckout(b, d, amount)) && Sound(PostCheckout(b, d, amount).book)
  {
    hide Gains, HistoryGains;
    SumOne(cfg, m, CashRecord(CashOut, d, amount, 0));
  }

  lemma BorrowCashReads(cfg: Config, m: Meter, b: Book, d: int, cash: real)
    requires Sound(b) && cash > 0.0
    ensures Reads(cfg, m, b, PostBorrowCash(cfg, b, d, cash)) && Sound(PostBorrowCash(cfg, b, d, cash).book)
  {
    RoundNonNegative(cash, cfg.precision);
    hide RoundUnits;
    var amount := RoundUnits(cash, cfg.precision);
    var lot := Lot(d, 1.0, amount as real);
    TotalAppend(b.loans, [lot]);
    SumOne(cfg, m, CashRecord(CashBorrowed, d, amount, cfg.cost(BorrowCashCost(d, cash))));
  }

  lemma ReturnCashReads(cfg: Config, m: Meter, b: Book, d: int, amount: int)
    requires Sound(b) && amount >= 0 && b.loans != []
    ensures Reads(cfg, m, b, PostReturnCash(cfg, b, d, amount)) && Sound(PostReturnCash(cfg, b, d, amount).book)
  {
    var n := amount as real;
    var cost := LoanReturnCost(cfg, b.loans, d, n);
    hide LoanReturnCost;
    if Shortfall(b.loans, n) == 0.0 && amount + cost <= b.cash {
      ShortfallIsZero(b.loans, n);
      TakeOldestTotal(b.loans, n);
      TakeOldestSigns(b.loans, n);
      SumOne(cfg, m, CashRecord(CashReturned, d, amount, cost));
    }
  }

  lemma BorrowStockReads(cfg: Config, m: Meter, b: Book, d: int, id: StockId, price: real, number: real)
    requires Sound(b)
    ensures Reads(cfg, m, b, PostBorrowStock(cfg, b, d, id, price, number))
    ensures Sound(PostBorrowStock(cfg, b, d, id, price, number).book)
  {
    hide Worth, Gains, HistoryGains;
    var lot := Lot(d, price, number);
    assert Total([lot]) == number;
    if id in b.borrowed {
      TotalAppend(b.borrowed[id].lots, [lot]);
    }
    SumOne(cfg, m, ShareRecord(StockBorrowed, id, d, price, number, cfg.cost(BorrowStockCost(d, id, price, number))));
  }

  lemma ReturnStockReads(cfg: Config, m: Meter, b: Book, d: int, id: StockId, price: real, number: real)
    requires Sound(b)
    ensures Reads(cfg, m, b, PostReturnStock(cfg, b, d, id, price, number))
    ensures Sound(PostReturnStock(cfg, b, d, id, price, number).book)
  {
    if id in b.borrowed && number <= b.borrowed[id].number {
      var lots := b.borrowed[id].lots;
      var cost := StockReturnCost(cfg, id, lots, d, price, number, number);
      hide StockReturnCost, ReturnedWorth, TakeOldest;
      TakeOldestTotal(lots, number);
      SumOne(cfg, m, ShareRecord(StockReturned, id, d, price, number, cost));
    }
  }

  /** Filing a changed position, or moving it to the history, changes the holdings by the change of the position. */
  lemma PutPositionHolds(b: Book, id: StockId, p: Position, cleaned: Position, m: Meter)
    requires id in b.positions && b.positions[id].stock == id && p.stock == id
    requires cleaned == p.(cleanDatetime := cleaned.cleanDatetime)
    ensures var c := PutPosition(b, id, p, cleaned);
            Holdings(c.positions, m) + (if m.LongProfit? then HistoryGains(c.history) as real else 0.0)
            == Holdings(b.positions, m) + (if m.LongProfit? then HistoryGains(b.history) as real else 0.0)
               + Part(p, m) - Part(b.positions[id], m)
  {
    HoldingsUpdate(b.positions, id, p, m);
    if p.number == 0.0 && m.LongProfit? {
      GainsWithout(b.positions, id);
      HistoryGainsAppend(b.history, cleaned);
    }
  }

  lemma InsertHolds(positions: map<StockId, Position>, id: StockId, p: Position, m: Meter)
    requires id !in positions && p.stock == id
    ensures Holdings(positions[id := p], m) == Holdings(positions, m) + Part(p, m)
  {
    if m.LongProfit? {
      GainsUpdate(positions, id, p);
      assert positions - {id} == positions;
    }
  }

  lemma CheckinStockReads(cfg: Config, m: Meter, b: Book, d: int, id: StockId, price: real, number: real)
    requires Sound(b)
    ensures Reads(cfg, m, b, PostCheckinStock(cfg, b, d, id, price, number))
    ensures Sound(PostCheckinStock(cfg, b, d, id, price, number).book)
  {
    hide Worth, Gains, HistoryGains;
    var c := PostCheckinStock(cfg, b, d, id, price, number).book;
    if id in b.positions {
      HoldingsUpdate(b.positions, id, c.positions[id], m);
    } else {
      InsertHolds(b.positions, id, c.positions[id], m);
    }
    SumOne(cfg, m, ShareRecord(StockIn, id, d, price, number, 0));
  }

  lemma CheckoutStockReads(cfg: Config, m: Meter, b: Book, d: int, id: StockId, price: real, number: real)
    requires Sound(b) && !m.LongProfit? && !m.BaseAsset?
    ensures Reads(cfg, m, b, PostCheckoutStock(cfg, b, d, id, price, number))
    ensures Sound(PostCheckoutStock(cfg, b, d, id, price, number).book)
  {
    hide RoundUnits, Gains, HistoryGains, Value;
    SumOne(cfg, m, ShareRecord(StockOut, id, d, price, number, 0));
  }

  lemma BuyReads(cfg: Config, m: Meter, b: Book, d: int, id: StockId, price: real, number: real)
    requires Sound(b)
    ensures Reads(cfg, m, b, PostBuy(cfg, b, d, id, price, number))
    ensures Sound(PostBuy(cfg, b, d, id, price, number).book)
  {
    hide Worth, Gains, HistoryGains;
    var s := PostBuy(cfg, b, d, id, price, number);
    if s.ok {
      if id in b.positions {
        HoldingsUpdate(b.positions, id, s.book.positions[id], m);
      } else {
        InsertHolds(b.positions, id, s.book.positions[id], m);
      }
      SumOne(cfg, m, s.log[0]);
    }
  }

  lemma SellSound(cfg: Config, b: Book, d: int, id: StockId, price: real, q: Quantity)
    requires Sound(b) && id in b.positions
    ensures Sound(PostSell(cfg, b, d, id, price, q).book)
  {
    hide Worth;
  }

  lemma SellReads(cfg: Config, m: Meter, b: Book, d: int, id: StockId, price: real, q: Quantity)
    requires Sound(b) && id in b.positions
    ensures Reads(cfg, m, b, PostSell(cfg, b, d, id, price, q))
  {
    hide Worth, Gains, HistoryGains;
    var s := PostSell(cfg, b, d, id, price, q);
    if s.ok {
      var held := b.positions[id];
      var number := if q.All? then held.number else q.number;
      var cost := cfg.cost(SellCost(d, id, price, number));
      var money := Worth(cfg, id, price, number);
      var p := held.(number := held.number - number, totalCost := held.totalCost + cost,
                     sellMoney := held.sellMoney + money, sellCount := held.sellCount + 1);
      PutPositionHolds(b, id, p, p.(cleanDatetime := Some(d)), m);
      SumOne(cfg, m, s.log[0]);
    }
  }

  lemma SellShortReads(cfg: Config, m: Meter, b: Book, d: int, id: StockId, price: real, number: real)
    requires Sound(b)
    ensures Reads(cfg, m, b, PostSellShort(cfg, b, d, id, price, number))
    ensures Sound(PostSellShort(cfg, b, d, id, price, number).book)
  {
    hide ShortProceeds, WholeMoney, Gains, HistoryGains;
    var s := PostSellShort(cfg, b, d, id, price, number);
    if s.ok {
      SumOne(cfg, m, s.log[0]);
    }
  }

  lemma BuyShortReads(cfg: Config, m: Meter, b: Book, d: int, id: StockId, price: real, q: Quantity)
    requires Sound(b) && id in b.shorts
    ensures Reads(cfg, m, b, PostBuyShort(cfg, b, d, id, price, q))
    ensures Sound(PostBuyShort(cfg, b, d, id, price, q).book)
  {
    hide Worth, Gains, HistoryGains;
    var s := PostBuyShort(cfg, b, d, id, price, q);
    SumOne(cfg, m, s.log[0]);
  }

  lemma PostingReads(cfg: Config, m: Meter, b: Book, p: Posting)
    requires Sorts(cfg) && Sound(b) && Checked(cfg, b, p) && Covers(m, p)
    ensures Reads(cfg, m, b, Do(cfg, b, p)) && Sound(Do(cfg, b, p).book)
  {
    hide Reads, Sound, Sorts, Update, PostCheckin, PostCheckout, PostCheckinStock, PostCheckoutStock, PostBorrowCash,
         PostReturnCash, PostBorrowStock, PostReturnStock, PostBuy, PostSell, PostSellShort, PostBuyShort;
    match p
    case DoSettle(d) => UpdateReads(cfg, m, b, d);
    case DoCheckin(d, amount) => CheckinReads(cfg, m, b, d, amount);
    case DoCheckout(d, amount) => CheckoutReads(cfg, m, b, d, amount);
    case DoCheckinStock(d, id, price, number) => CheckinStockReads(cfg, m, b, d, id, price, number);
    case DoCheckoutStock(d, id, price, number) => CheckoutStockReads(cfg, m, b, d, id, price, number);
    case DoBorrowCash(d, cash) => BorrowCashReads(cfg, m, b, d, cash);
    case DoReturnCash(d, amount) => ReturnCashReads(cfg, m, b, d, amount);
    case DoBorrowStock(d, id, price, number) => BorrowStockReads(cfg, m, b, d, id, price, number);
    case DoReturnStock(d, id, price, number) => ReturnStockReads(cfg, m, b, d, id, price, number);
    case DoBuy(d, id, price, number) => BuyReads(cfg, m, b, d, id, price, number);
    case DoSell(d, id, price, q) =>
      SellSound(cfg, b, d, id, price, q);
      SellReads(cfg, m, b, d, id, price, q);
    case DoSellShort(d, id, price, number) => SellShortReads(cfg, m, b, d, id, price, number);
    case DoBuyShort(d, id, price, q) => BuyShortReads(cfg, m, b, d, id, price, q);
  }

  // ---------------------------------------------------------------------------------------------------------
  // Operations and runs

  predicate CoversOp(m: Meter, op: Op) {
    op.OpCheckoutStock? ==> !m.LongProfit? && !m.BaseAsset?
  }

  predicate AllCovered(m: Meter, plan: seq<Posting>) {
    forall i :: 0 <= i < |plan| ==> Covers(m, plan[i])
  }

  lemma PlanCovered(cfg: Config, m: Meter, b: Book, op: Op)
    requires CoversOp(m, op)
    ensures AllCovered(m, Plan(cfg, b, op))
  {
    hide Update, Checkin, PostSell, PostBuyShort, RoundUnits, RoundUp, RoundEx, Value, Worth, PurchaseGap, ShortGap,
         TradableNumber, TradableQuantity;
  }

  lemma {:induction false} PlanReads(cfg: Config, m: Meter, b: Book, plan: seq<Posting>)
    requires Sorts(cfg) && Sound(b) && AllChecked(cfg, b, plan) && AllCovered(m, plan)
    ensures var e := Execute(cfg, b, plan);
            Sound(e.book) && Shown(e.book, m) == Shown(b, m) + Sum(cfg, m, e.log)
    decreases |plan|
  {
    hide Do, Sound, Shown, Reading, Sorts, Checked;
    if plan != [] {
      var p := Do(cfg, b, plan[0]);
      PostingReads(cfg, m, b, plan[0]);
      PlanReads(cfg, m, p.book, plan[1..]);
      SumAppend(cfg, m, p.log, Execute(cfg, p.book, plan[1..]).log);
    }
  }

  lemma OperationReads(cfg: Config, m: Meter, b: Book, op: Op)
    requires Sorts(cfg) && Sound(b) && CoversOp(m, op)
    ensures var p := Apply(cfg, b, op);
            Sound(p.book) && Shown(p.book, m) == Shown(b, m) + Sum(cfg, m, p.log)
  {
    hide Apply, Plan, Sound, Shown;
    OperationIsItsPlan(cfg, b, op);
    PlanCovered(cfg, m, b, op);
    PlanReads(cfg, m, b, Plan(cfg, b, op));
  }

  ghost predicate Explained(cfg: Config, a: Account, m: Meter) {
    Sound(a.book) && Shown(a.book, m) == Sum(cfg, m, a.trades)
  }

  lemma OpenedExplained(cfg: Config, d: int, initCash: real, m: Meter)
    ensures Explained(cfg, Opened(cfg, d, initCash), m)
  {
    SumOne(cfg, m, Opened(cfg, d, initCash).trades[0]);
  }

  lemma {:induction false} RunExplained(cfg: Config, a: Account, ops: seq<Op>, m: Meter)
    requires Sorts(cfg) && Explained(cfg, a, m) && forall op <- ops :: CoversOp(m, op)
    ensures Explained(cfg, Run(cfg, a, ops), m)
    decreases |ops|
  {
    hide Sorts, Sound, Shown, Apply, Reading, CoversOp;
    if ops != [] {
      var before, op := ops[..|ops| - 1], ops[|ops| - 1];
      RunExplained(cfg, a, before, m);
      var e := Run(cfg, a, before);
      OperationReads(cfg, m, e.book, op);
      SumAppend(cfg, m, e.trades, Apply(cfg, e.book, op).log);
    }
  }

  /** Over every run from the opening of the account, each meter shows what its readings of the log add up to. */
  lemma LogExplainsBook(cfg: Config, d: int, initCash: real, ops: seq<Op>, m: Meter)
    requires Sorts(cfg) && forall op <- ops :: CoversOp(m, op)
    ensures var a := Run(cfg, Opened(cfg, d, initCash), ops);
            Shown(a.book, m) == Sum(cfg, m, a.trades) && Sound(a.book)
  {
    OpenedExplained(cfg, d, initCash, m);
    RunExplained(cfg, Opened(cfg, d, initCash), ops, m);
  }
}
