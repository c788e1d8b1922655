/**
 The funds of an account: the current record and its identities, and where the profit comes from.
 */
module Funds {
  import opened Keys
  import opened Rounding
  import opened Accounts
  import opened Plans
  import opened Meters
  import opened Settlement
  import opened Shorts

  datatype FundsRecord = FundsRecord(
    cash: int, marketValue: int, shortMarketValue: int, baseCash: int, baseAsset: int,
    borrowCash: int, borrowAsset: int)
  {
    function Profit(): int {
      cash + marketValue - shortMarketValue - borrowCash - baseCash - baseAsset
    }
  }

  /** The market value of `ids`, rounded after every stock in ascending order on top of `acc`. */
  ghost function MarketValue(cfg: Config, ids: set<StockId>, positions: map<StockId, Position>,
                             price: StockId -> real, acc: int): int
    requires ids <= positions.Keys
    decreases |ids|
  {
    if ids == {} then acc
    else
      var id := Least(ids);
      MarketValue(cfg, ids - {id}, positions, price,
                  RoundUnits(Value(acc, cfg.precision) + Amount(cfg, id, price(id), positions[id].number),
                             cfg.precision))
  }

  /** The sum of the positions' own rounded worths, in no particular order. */
  ghost function Worths(cfg: Config, ids: set<StockId>, positions: map<StockId, Position>, price: StockId -> real): int
    requires ids <= positions.Keys
    decreases |ids|
  {
    if ids == {} then 0
    else
      var id := Least(ids);
      Worth(cfg, id, price(id), positions[id].number) + Worths(cfg, ids - {id}, positions, price)
  }

  /** Every position is worth something or nothing, and the precision is one that rounds exactly. */
  ghost predicate Priced(cfg: Config, positions: map<StockId, Position>, price: StockId -> real) {
    cfg.precision <= 9 && forall id <- positions :: Amount(cfg, id, price(id), positions[id].number) >= 0.0
  }

  /** Rounding after every stock loses nothing: the running total is the sum of the positions' rounded worths. */
  lemma {:induction false} MarketValueIsSum(cfg: Config, ids: set<StockId>, positions: map<StockId, Position>,
                                            price: StockId -> real, acc: int)
    requires Priced(cfg, positions, price) && ids <= positions.Keys && acc >= 0
    ensures MarketValue(cfg, ids, positions, price, acc) == acc + Worths(cfg, ids, positions, price)
    decreases |ids|
  {
    hide Amount, RoundUnits, Value;
    if ids != {} {
      var id := Least(ids);
      RunningTotal(Amount(cfg, id, price(id), positions[id].number), acc, cfg.precision);
      MarketValueIsSum(cfg, ids - {id}, positions, price, acc + Worth(cfg, id, price(id), positions[id].number));
    }
  }

  ghost function BorrowValue(borrowed: map<StockId, BorrowRecord>): int
    decreases |borrowed|
  {
    if borrowed.Keys == {} then 0
    else
      var id := Least(borrowed.Keys);
      borrowed[id].value + BorrowValue(borrowed - {id})
  }

  /** The borrow asset is the sum of what the records carry, in whichever order they are taken. */
  lemma {:induction false} BorrowValueIsSum(borrowed: map<StockId, BorrowRecord>, id: StockId)
    requires id in borrowed
    ensures BorrowValue(borrowed) == borrowed[id].value + BorrowValue(borrowed - {id})
    decreases |borrowed|
  {
    var least := Least(borrowed.Keys);
    if least != id {
      var rest := borrowed - {least};
      BorrowValueIsSum(rest, id);
      assert rest - {id} == (borrowed - {id}) - {least};
      assert Least((borrowed - {id}).Keys) == least;
    }
  }

  /** The funds of the live account; `price` is what each stock is valued at. */
  ghost function CurrentFunds(cfg: Config, b: Book, price: StockId -> real): FundsRecord {
    FundsRecord(b.cash, MarketValue(cfg, b.positions.Keys, b.positions, price, 0),
                MarketValue(cfg, b.shorts.Keys, b.shorts, price, 0),
                b.checkinCash - b.checkoutCash, b.checkinStock - b.checkoutStock, b.borrowCash,
                BorrowValue(b.borrowed))
  }

  /** A stock loan raises the borrow asset of the funds by what the shares are worth. */
  lemma LoanRaisesBorrowAsset(cfg: Config, b: Book, d: int, id: StockId, share: real, number: real,
                              price: StockId -> real)
    ensures CurrentFunds(cfg, PostBorrowStock(cfg, b, d, id, share, number).book, price).borrowAsset
         == CurrentFunds(cfg, b, price).borrowAsset + Worth(cfg, id, share, number)
  {
    hide MarketValue, Worth, BorrowValue;
    var next := PostBorrowStock(cfg, b, d, id, share, number).book.borrowed;
    BorrowValueIsSum(next, id);
    assert next - {id} == b.borrowed - {id};
    if id in b.borrowed {
      BorrowValueIsSum(b.borrowed, id);
    } else {
      assert b.borrowed - {id} == b.borrowed;
    }
  }

  // ---------------------------------------------------------------------------------------------------------
  // Where the profit comes from

  function ShortFlow(cfg: Config, r: TradeRecord): int {
    if r.business in {ShortSold, ShortCovered, StockBorrowed, StockReturned} then CashFlow(cfg, r) else 0
  }

  function LoanCost(r: TradeRecord): int {
    if r.business in {CashBorrowed, CashReturned} then r.cost else 0
  }

  function ShortFlows(cfg: Config, log: seq<TradeRecord>): int {
    if log == [] then 0 else ShortFlows(cfg, log[..|log| - 1]) + ShortFlow(cfg, log[|log| - 1])
  }

  function LoanCosts(log: seq<TradeRecord>): int {
    if log == [] then 0 else LoanCosts(log[..|log| - 1]) + LoanCost(log[|log| - 1])
  }

  lemma RecordByOrigin(cfg: Config, r: TradeRecord)
    ensures Reading(cfg, Cash, r)
         == Reading(cfg, BaseCash, r) + Reading(cfg, DebtCash, r) + Reading(cfg, BaseAsset, r)
            + Reading(cfg, LongProfit, r) + ShortFlow(cfg, r) as real - LoanCost(r) as real
  {
    hide RecordWorth, RecordShortProceeds;
  }

  lemma {:induction false} FlowsByOrigin(cfg: Config, log: seq<TradeRecord>)
    ensures Sum(cfg, Cash, log)
         == Sum(cfg, BaseCash, log) + Sum(cfg, DebtCash, log) + Sum(cfg, BaseAsset, log) + Sum(cfg, LongProfit, log)
            + ShortFlows(cfg, log) as real - LoanCosts(log) as real
  {
    hide Reading, ShortFlow, LoanCost;
    if log != [] {
      FlowsByOrigin(cfg, log[..|log| - 1]);
      RecordByOrigin(cfg, log[|log| - 1]);
    }
  }

  /** Profit attribution: in every run without withdrawn stock, the profit is the market value, less the short market
      value, plus what the open and closed positions have gained, plus the flows of the short side, less the cost of
      the loans. */
  lemma ProfitAttribution(cfg: Config, d: int, initCash: real, ops: seq<Op>, price: StockId -> real)
    requires Sorts(cfg) && forall op <- ops :: !op.OpCheckoutStock?
    ensures var a := Run(cfg, Opened(cfg, d, initCash), ops);
            var f := CurrentFunds(cfg, a.book, price);
            f.Profit() == f.marketValue - f.shortMarketValue + Gains(a.book.positions) + HistoryGains(a.book.history)
                          + ShortFlows(cfg, a.trades) - LoanCosts(a.trades)
  {
    hide Sorts, Run, Opened, Gains, HistoryGains, MarketValue, BorrowValue;
    LogExplainsBook(cfg, d, initCash, ops, Cash);
    LogExplainsBook(cfg, d, initCash, ops, BaseCash);
    LogExplainsBook(cfg, d, initCash, ops, BaseAsset);
    LogExplainsBook(cfg, d, initCash, ops, DebtCash);
    LogExplainsBook(cfg, d, initCash, ops, LongProfit);
    FlowsByOrigin(cfg, Run(cfg, Opened(cfg, d, initCash), ops).trades);
  }

  /** No short selling, no borrowed stock, no loan. */
  predicate LongOnly(op: Op) {
    !op.OpSellShort? && !op.OpBuyShort? && !op.OpBorrowStock? && !op.OpReturnStock? && !op.OpBorrowCash?
    && !op.OpReturnCash?
  }

  predicate Plain(p: Posting) {
    LeavesShorts(p) && !p.DoBorrowCash? && !p.DoReturnCash?
  }

  lemma PlanIsPlain(cfg: Config, b: Book, op: Op)
    requires LongOnly(op) && !cfg.borrowCash
    ensures forall i :: 0 <= i < |Plan(cfg, b, op)| ==> Plain(Plan(cfg, b, op)[i])
  {
    hide Update, PostSell, RoundUnits, TradableNumber, TradableQuantity;
  }

  /** A record of neither a short sale nor borrowed stock nor a loan. */
  predicate LongRecord(r: TradeRecord) {
    r.business in {Init, BuyIn, SellOut, Gift, Bonus, Suogu, CashIn, CashOut, StockIn, StockOut}
  }

  lemma PlainRecords(cfg: Config, b: Book, p: Posting)
    requires Sorts(cfg) && Sound(b) && Plain(p)
    ensures forall r <- Do(cfg, b, p).log :: LongRecord(r)
  {
    hide CashFlow, Sorts;
    if p.DoSettle? {
      hide Update;
      UpdateKinds(cfg, b, p.d);
    } else {
      hide Do;
      PostedKind(cfg, b, p);
    }
  }

  lemma {:induction false} PlainAppend(cfg: Config, log: seq<TradeRecord>, more: seq<TradeRecord>)
    requires forall r <- more :: LongRecord(r)
    ensures ShortFlows(cfg, log + more) == ShortFlows(cfg, log) && LoanCosts(log + more) == LoanCosts(log)
    decreases |more|
  {
    hide CashFlow;
    if more == [] {
      assert log + more == log;
    } else {
      assert (log + more)[..|log + more| - 1] == log + more[..|more| - 1];
      assert more[|more| - 1] in more;
      PlainAppend(cfg, log, more[..|more| - 1]);
    }
  }

  lemma {:induction false} PlainPlan(cfg: Config, b: Book, plan: seq<Posting>)
    requires Sorts(cfg) && Sound(b) && AllChecked(cfg, b, plan) && forall i :: 0 <= i < |plan| ==> Plain(plan[i])
    ensures forall r <- Execute(cfg, b, plan).log :: LongRecord(r)
    decreases |plan|
  {
    hide Sorts, Sound, Do, Checked, LongRecord;
    if plan != [] {
      PlainRecords(cfg, b, plan[0]);
      PostingReads(cfg, Cash, b, plan[0]);
      PlainPlan(cfg, Do(cfg, b, plan[0]).book, plan[1..]);
    }
  }

  lemma {:induction false} LongOnlyRun(cfg: Config, d: int, initCash: real, ops: seq<Op>)
    requires Sorts(cfg) && !cfg.borrowCash && forall op <- ops :: LongOnly(op)
    ensures var a := Run(cfg, Opened(cfg, d, initCash), ops);
            Sound(a.book) && a.book.shorts == map[] && ShortFlows(cfg, a.trades) == 0 && LoanCosts(a.trades) == 0
            && forall r <- a.trades :: LongRecord(r)
    decreases |ops|
  {
    if ops == [] {
      OpenedExplained(cfg, d, initCash, Cash);
    } else {
      hide Opened, Sorts, Sound, ShortFlows, LoanCosts, ShortFlow, LoanCost, Apply, Plan, Execute, Shown, Reading,
           LongRecord;
      var before, op := ops[..|ops| - 1], ops[|ops| - 1];
      LongOnlyRun(cfg, d, initCash, before);
      var a := Run(cfg, Opened(cfg, d, initCash), before);
      OperationReads(cfg, Cash, a.book, op);
      OperationIsItsPlan(cfg, a.book, op);
      PlanIsPlain(cfg, a.book, op);
      PlanLeavesShorts(cfg, a.book, Plan(cfg, a.book, op));
      PlainPlan(cfg, a.book, Plan(cfg, a.book, op));
      PlainAppend(cfg, a.trades, Apply(cfg, a.book, op).log);
    }
  }

  /** In a long-only run the profit is the market value plus sell money less buy money and costs, over all positions,
      open and closed. */
  lemma LongOnlyProfit(cfg: Config, d: int, initCash: real, ops: seq<Op>, price: StockId -> real)
    requires Sorts(cfg) && !cfg.borrowCash && forall op <- ops :: LongOnly(op) && !op.OpCheckoutStock?
    ensures var a := Run(cfg, Opened(cfg, d, initCash), ops);
            var f := CurrentFunds(cfg, a.book, price);
            f.Profit() == f.marketValue + Gains(a.book.positions) + HistoryGains(a.book.history)
  {
    hide Sorts, Opened, Gains, HistoryGains, BorrowValue, Run, ShortFlows, LoanCosts;
    ProfitAttribution(cfg, d, initCash, ops, price);
    LongOnlyRun(cfg, d, initCash, ops);
  }
}
