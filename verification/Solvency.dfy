/**
 Purchases, withdrawals and repayments are the only operations that look at the cash before they take from it.  As long
 as nothing else costs more than it brings, they keep the cash of the account from ever falling below zero.
 */
module Solvency {
  import opened Rounding
  import opened Accounts
  import opened Plans
  import opened Meters
  import opened Settlement
  import opened Funds
  import opened OrderLaws

  /** What a record of share business comes to, to the nearest money unit. */
  function Turnover(cfg: Config, r: TradeRecord): int {
    if r.stock.None? then 0 else Money(cfg, r.stock.value, r.price, r.number)
  }

  /** The business takes no more cash than it brings.  Nothing is asked of purchases, withdrawals and repayments. */
  predicate PaysForItself(cfg: Config, r: TradeRecord) {
    match r.business
    case Bonus => r.amount >= 0
    case SellOut => Turnover(cfg, r) >= r.cost
    case CashBorrowed => r.amount >= r.cost
    case ShortSold => r.stock.Some? ==> NetMoney(cfg, r.stock.value, r.price, r.number, r.cost) >= 0
    case ShortCovered => Turnover(cfg, r) + r.cost <= 0
    case StockBorrowed => r.cost == 0
    case StockReturned => r.cost == 0
    case _ => true
  }

  lemma {:induction false} DividendsBring(cfg: Config, log: seq<TradeRecord>)
    requires forall r <- log :: r.business in {Bonus, Gift, Suogu} && PaysForItself(cfg, r)
    ensures Sum(cfg, Cash, log) >= 0.0
  {
    if log != [] {
      assert log[|log| - 1] in log;
      DividendsBring(cfg, log[..|log| - 1]);
    }
  }

  lemma PostingSolvent(cfg: Config, b: Book, p: Posting)
    requires Sorts(cfg) && Sound(b) && Checked(cfg, b, p) && b.cash >= 0
    requires forall r <- Do(cfg, b, p).log :: PaysForItself(cfg, r)
    ensures Do(cfg, b, p).book.cash >= 0
  {
    hide Sorts;
    if p.DoSettle? {
      hide Update;
      UpdateKinds(cfg, b, p.d);
      UpdateReads(cfg, Cash, b, p.d);
      DividendsBring(cfg, Update(cfg, b, p.d).log);
    } else {
      OtherPostingSolvent(cfg, b, p);
    }
  }

  lemma ShortSaleSolvent(cfg: Config, b: Book, d: int, id: StockId, price: real, number: real)
    requires b.cash >= 0
    requires forall r <- PostSellShort(cfg, b, d, id, price, number).log :: PaysForItself(cfg, r)
    ensures PostSellShort(cfg, b, d, id, price, number).book.cash >= 0
  {
    var p := PostSellShort(cfg, b, d, id, price, number);
    if p.log != [] {
      assert p.log[0] in p.log;
      var r := p.log[0];
      NetMoneyIs(cfg, id, price, r.number, r.cost);
      hide ShortProceeds, NetMoney, WholeMoney;
    }
  }

  lemma SaleSolvent(cfg: Config, b: Book, d: int, id: StockId, price: real, q: Quantity)
    requires b.cash >= 0 && id in b.positions
    requires forall r <- PostSell(cfg, b, d, id, price, q).log :: PaysForItself(cfg, r)
    ensures PostSell(cfg, b, d, id, price, q).book.cash >= 0
  {
    var p := PostSell(cfg, b, d, id, price, q);
    if p.log != [] {
      assert p.log[0] in p.log;
      MoneyIs(cfg, id, price, p.log[0].number);
      hide Worth, Money;
    }
  }

  lemma CoverSolvent(cfg: Config, b: Book, d: int, id: StockId, price: real, q: Quantity)
    requires b.cash >= 0 && id in b.shorts
    requires forall r <- PostBuyShort(cfg, b, d, id, price, q).log :: PaysForItself(cfg, r)
    ensures PostBuyShort(cfg, b, d, id, price, q).book.cash >= 0
  {
    var p := PostBuyShort(cfg, b, d, id, price, q);
    assert p.log[0] in p.log;
    MoneyIs(cfg, id, price, p.log[0].number);
    hide Worth, Money;
  }

  lemma OtherPostingSolvent(cfg: Config, b: Book, p: Posting)
    requires !p.DoSettle? && Checked(cfg, b, p) && b.cash >= 0
    requires forall r <- Do(cfg, b, p).log :: PaysForItself(cfg, r)
    ensures Do(cfg, b, p).book.cash >= 0
  {
    hide Worth, Amount, RoundUnits, Value, LoanReturnCost, StockReturnCost, ReturnedWorth, Update, Turnover, NetMoney,
         PostSell, PostSellShort, PostBuyShort;
    if p.DoSell? {
      SaleSolvent(cfg, b, p.d, p.id, p.price, p.q);
    } else if p.DoSellShort? {
      ShortSaleSolvent(cfg, b, p.d, p.id, p.price, p.number);
    } else if p.DoBuyShort? {
      CoverSolvent(cfg, b, p.d, p.id, p.price, p.q);
    } else if Do(cfg, b, p).log != [] {
      assert Do(cfg, b, p).log[0] in Do(cfg, b, p).log;
    }
  }

  lemma {:induction false} PlanSolvent(cfg: Config, b: Book, plan: seq<Posting>)
    requires Sorts(cfg) && Sound(b) && AllChecked(cfg, b, plan) && b.cash >= 0
    requires forall r <- Execute(cfg, b, plan).log :: PaysForItself(cfg, r)
    ensures Execute(cfg, b, plan).book.cash >= 0
    decreases |plan|
  {
    hide Sorts, Sound, Do, Checked, PaysForItself;
    if plan != [] {
      PostingSolvent(cfg, b, plan[0]);
      PostingReads(cfg, Cash, b, plan[0]);
      PlanSolvent(cfg, Do(cfg, b, plan[0]).book, plan[1..]);
    }
  }

  /** In every run from non-negative cash whose other business pays for itself, the cash is never negative. */
  lemma {:induction false} NeverOverdrawn(cfg: Config, d: int, initCash: real, ops: seq<Op>)
    requires Sorts(cfg) && initCash >= 0.0
    requires forall r <- Run(cfg, Opened(cfg, d, initCash), ops).trades :: PaysForItself(cfg, r)
    ensures var a := Run(cfg, Opened(cfg, d, initCash), ops); Sound(a.book) && a.book.cash >= 0
    decreases |ops|
  {
    if ops == [] {
      OpenedExplained(cfg, d, initCash, Cash);
      OpeningCash(cfg, initCash);
    } else {
      hide Opened, Sorts, Sound, PaysForItself, Apply, Plan, Execute, Shown, Reading;
      var before, op := ops[..|ops| - 1], ops[|ops| - 1];
      NeverOverdrawn(cfg, d, initCash, before);
      var a := Run(cfg, Opened(cfg, d, initCash), before);
      OperationReads(cfg, Cash, a.book, op);
      OperationIsItsPlan(cfg, a.book, op);
      PlanSolvent(cfg, a.book, Plan(cfg, a.book, op));
    }
  }

  lemma OpeningCash(cfg: Config, initCash: real)
    requires initCash >= 0.0
    ensures RoundUnits(RoundEx(initCash, 2), cfg.precision) >= 0
  {
    hide RoundUnits;
    RoundNonNegative(initCash, 2);
    RoundNonNegative(RoundEx(initCash, 2), cfg.precision);
  }

  /** A long-only account is never overdrawn while no dividend is negative and no sale costs more than it brings. */
  lemma LongOnlyNeverOverdrawn(cfg: Config, d: int, initCash: real, ops: seq<Op>)
    requires Sorts(cfg) && initCash >= 0.0 && !cfg.borrowCash && forall op <- ops :: LongOnly(op)
    requires forall r <- Run(cfg, Opened(cfg, d, initCash), ops).trades ::
               && (r.business == Bonus ==> r.amount >= 0)
               && (r.business == SellOut ==> Turnover(cfg, r) >= r.cost)
    ensures forall k :: 0 <= k <= |ops| ==> Run(cfg, Opened(cfg, d, initCash), ops[..k]).book.cash >= 0
  {
    hide Sorts, Run, Opened, Turnover, Sound, ShortFlows, LoanCosts;
    forall k | 0 <= k <= |ops|
      ensures Run(cfg, Opened(cfg, d, initCash), ops[..k]).book.cash >= 0
    {
      var trades := Run(cfg, Opened(cfg, d, initCash), ops[..k]).trades;
      LongOnlyRun(cfg, d, initCash, ops[..k]);
      TradesGrow(cfg, Opened(cfg, d, initCash), ops, k);
      forall r <- trades
        ensures PaysForItself(cfg, r)
      {
        assert r in Run(cfg, Opened(cfg, d, initCash), ops).trades;
      }
      NeverOverdrawn(cfg, d, initCash, ops[..k]);
    }
  }

  /** The log of a run goes on from the log of what came before. */
  lemma {:induction false} TradesGrow(cfg: Config, a: Account, ops: seq<Op>, k: nat)
    requires k <= |ops|
    ensures Run(cfg, a, ops[..k]).trades <= Run(cfg, a, ops).trades
    decreases |ops|
  {
    hide Apply;
    if k < |ops| {
      TradesGrow(cfg, a, ops[..|ops| - 1], k);
      assert ops[..|ops| - 1][..k] == ops[..k];
    } else {
      assert ops[..k] == ops;
    }
  }
}
