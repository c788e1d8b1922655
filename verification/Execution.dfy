/**
 The execution account as an object: the fields of its ledger, changed in place by its operations.  `State()` is the
 book and log the specification works on; each operation is one step of it.
 */
module Execution {
  import opened Options
  import opened Calendar
  import opened Keys
  import opened Rounding
  import opened Fifo
  import opened Weights
  import opened Accounts
  import opened Plans
  import opened Meters
  import opened Runs
  import opened History
  import opened Funds
  import opened Replay
  import opened ReplayedValue

  /** The account after what an operation has posted. */
  ghost function PostedTo(a: Account, p: Posted): Account {
    Account(p.book, a.trades + p.log)
  }

  /** What an operation of one posting does to the settled book. */
  function OwnPosting(cfg: Config, b: Book, op: Op): Posted
    requires op.OpCheckin? || op.OpCheckout? || op.OpBorrowCash? || op.OpReturnCash?
             || ((op.OpCheckinStock? || op.OpCheckoutStock? || op.OpBorrowStock? || op.OpReturnStock?)
                 && op.stock.Some?)
  {
    match op
    case OpCheckin(d, cash) => PostCheckin(b, d, RoundUnits(cash, cfg.precision))
    case OpCheckout(d, cash) => PostCheckout(b, d, RoundUnits(cash, cfg.precision))
    case OpCheckinStock(d, stock, price, number) => PostCheckinStock(cfg, b, d, stock.value, price, number)
    case OpCheckoutStock(d, stock, price, number) => PostCheckoutStock(cfg, b, d, stock.value, price, number)
    case OpBorrowCash(d, cash) => PostBorrowCash(cfg, b, d, cash)
    case OpReturnCash(d, cash) => PostReturnCash(cfg, b, d, RoundUnits(cash, cfg.precision))
    case OpBorrowStock(d, stock, price, number) => PostBorrowStock(cfg, b, d, stock.value, price, number)
    case OpReturnStock(d, stock, price, number) => PostReturnStock(cfg, b, d, stock.value, price, number)
  }

  ghost predicate Does(cfg: Config, a: Account, op: Op, s: Account, ok: bool) {
    s == Step(cfg, a, op) && ok == Apply(cfg, a.book, op).ok
  }

  lemma RefusedDoes(cfg: Config, a: Account, op: Op)
    requires Refused(cfg, a.book, op)
    ensures Does(cfg, a, op, a, false)
  {
    assert a.trades + [] == a.trades;
  }

  lemma SettledDoes(cfg: Config, a: Account, op: Op)
    requires !Refused(cfg, a.book, op)
    requires op.OpCheckin? || op.OpCheckout? || op.OpBorrowCash? || op.OpReturnCash? || op.OpCheckinStock?
             || op.OpCheckoutStock? || op.OpBorrowStock? || op.OpReturnStock?
    ensures var s := SettledAt(cfg, a, op.d);
            var p := OwnPosting(cfg, s.book, op);
            Does(cfg, a, op, PostedTo(s, p), p.ok)
  {
    SettleIsUpdate(cfg, a.book, op.d);
    hide Update, PostCheckin, PostCheckout, PostCheckinStock, PostCheckoutStock, PostBorrowCash, PostReturnCash,
         PostBorrowStock, PostReturnStock, RoundUnits;
    var u := Update(cfg, a.book, op.d);
    var p := OwnPosting(cfg, u.book, op);
    assert Apply(cfg, a.book, op) == After(u.log, p);
    hide Apply;
    assert a.trades + (u.log + p.log) == (a.trades + u.log) + p.log;
  }

  /** A history query settles and answers; before the account was opened it answers zero. */
  ghost predicate Answers(cfg: Config, a: Account, origin: int, d: int, m: Meter, s: Account, answer: real) {
    if d < origin then s == a && answer == 0.0
    else s == SettledAt(cfg, a, d) && answer == Asked(cfg, a, d, m)
  }

  lemma UptoStart(log: seq<TradeRecord>, d: int)
    ensures log[..0] == [] && Upto(log, d) == log[..0] + Upto(log[0..], d)
  {
    assert log[0..] == log;
  }

  lemma UptoTurn(cfg: Config, m: Meter, log: seq<TradeRecord>, i: nat, d: int)
    requires i < |log| && log[i].datetime <= d && Upto(log, d) == log[..i] + Upto(log[i..], d)
    ensures Upto(log, d) == log[..i + 1] + Upto(log[i + 1..], d)
    ensures Sum(cfg, m, log[..i + 1]) == Sum(cfg, m, log[..i]) + Reading(cfg, m, log[i])
    ensures log[..i + 1][..i] == log[..i]
  {
    hide Reading;
    assert log[i..][1..] == log[i + 1..];
    assert log[..i + 1][..i] == log[..i];
    assert log[..i] + ([log[i]] + Upto(log[i + 1..], d)) == log[..i + 1] + Upto(log[i + 1..], d);
  }

  lemma ReplayTurn(cfg: Config, log: seq<TradeRecord>, i: nat)
    requires i < |log|
    ensures ReplayFrom(cfg, EMPTY, log[..i + 1]) == ReplayRecord(cfg, ReplayFrom(cfg, EMPTY, log[..i]), log[i])
  {
    hide ReplayRecord;
    assert log[..i + 1][..i] == log[..i];
  }

  lemma UptoEnd(log: seq<TradeRecord>, i: nat, d: int)
    requires i <= |log| && (i == |log| || log[i].datetime > d) && Upto(log, d) == log[..i] + Upto(log[i..], d)
    ensures Upto(log, d) == log[..i]
  {
  }

  /** The records dated in [start, end), in order. */
  function Between(log: seq<TradeRecord>, start: int, end: int): seq<TradeRecord> {
    if log == [] then []
    else
      var front, r := Between(log[..|log| - 1], start, end), log[|log| - 1];
      if start <= r.datetime < end then front + [r] else front
  }

  lemma {:induction false} BetweenEmpty(log: seq<TradeRecord>, start: int, end: int)
    requires start >= end
    ensures Between(log, start, end) == []
  {
    if log != [] {
      BetweenEmpty(log[..|log| - 1], start, end);
    }
  }

  lemma {:induction false} BetweenIsSlice(log: seq<TradeRecord>, start: int, end: int, low: nat, high: nat)
    requires start <= end && low <= |log| && high <= |log|
    requires forall i :: 0 <= i < |log| ==> (log[i].datetime < start <==> i < low)
    requires forall i :: 0 <= i < |log| ==> (log[i].datetime < end <==> i < high)
    ensures low <= high && Between(log, start, end) == log[low..high]
  {
    if low > 0 {
      assert log[low - 1].datetime < end;
    }
    if log != [] {
      var n := |log| - 1;
      var low', high' := if low > n then n else low, if high > n then n else high;
      BetweenIsSlice(log[..n], start, end, low', high');
      if low <= n < high {
        assert log[low..high] == log[low..n] + [log[n]];
        assert log[..n][low..n] == log[low..n];
      } else {
        assert log[low..high] == log[..n][low'..high'];
      }
    }
  }

  /** An order does a step and returns its trade. */
  ghost predicate Trades(cfg: Config, a: Account, op: Op, s: Account, trade: Option<TradeRecord>) {
    s == Step(cfg, a, op) && trade == Apply(cfg, a.book, op).trade
  }

  lemma RefusedTrades(cfg: Config, a: Account, op: Op)
    requires Refused(cfg, a.book, op)
    ensures Trades(cfg, a, op, a, None)
  {
    assert a.trades + [] == a.trades;
  }

  lemma CheckinPosts(cfg: Config, a: Account, d: int, amount: real, s: Account, ok: bool)
    requires Does(cfg, a, OpCheckin(d, amount), s, ok)
    ensures s == PostedTo(a, Checkin(cfg, a.book, d, amount))
  {
    hide Checkin;
  }

  lemma BorrowCashPosts(cfg: Config, a: Account, d: int, amount: real, s: Account, ok: bool)
    requires Does(cfg, a, OpBorrowCash(d, amount), s, ok)
    ensures s == PostedTo(a, BorrowCash(cfg, a.book, d, amount))
  {
    hide BorrowCash;
  }

  lemma ReturnCashPosts(cfg: Config, a: Account, d: int, amount: real, s: Account, ok: bool)
    requires Does(cfg, a, OpReturnCash(d, amount), s, ok)
    ensures s == PostedTo(a, ReturnCash(cfg, a.book, d, amount))
  {
    hide ReturnCash;
  }

  lemma BorrowStockPosts(cfg: Config, a: Account, d: int, stock: Option<StockId>, price: real, number: real,
                         s: Account, ok: bool)
    requires Does(cfg, a, OpBorrowStock(d, stock, price, number), s, ok)
    ensures s == PostedTo(a, BorrowStock(cfg, a.book, d, stock, price, number))
  {
    hide BorrowStock;
  }

  lemma ReturnStockPosts(cfg: Config, a: Account, d: int, stock: Option<StockId>, price: real, number: real,
                         s: Account, ok: bool)
    requires Does(cfg, a, OpReturnStock(d, stock, price, number), s, ok)
    ensures s == PostedTo(a, ReturnStock(cfg, a.book, d, stock, price, number))
  {
    hide ReturnStock;
  }

  lemma BuyTrades(cfg: Config, a: Account, d: int, stock: Option<StockId>, price: real, number: real)
    requires !Refused(cfg, a.book, OpBuy(d, stock, price, number))
    ensures var s := SettledAt(cfg, a, d);
            var f := PostedTo(s, Finance(cfg, s.book, d, stock.value, price, number));
            var p := PostBuy(cfg, f.book, d, stock.value, price, number);
            Trades(cfg, a, OpBuy(d, stock, price, number), PostedTo(f, p), p.trade)
  {
    SettleIsUpdate(cfg, a.book, d);
    hide Update, Finance, PostBuy, TradableNumber;
    var u := Update(cfg, a.book, d);
    var f := Finance(cfg, u.book, d, stock.value, price, number);
    var p := PostBuy(cfg, f.book, d, stock.value, price, number);
    assert Apply(cfg, a.book, OpBuy(d, stock, price, number)) == After(u.log, After(f.log, p));
    hide Apply;
    assert a.trades + (u.log + (f.log + p.log)) == ((a.trades + u.log) + f.log) + p.log;
  }

  lemma SellTrades(cfg: Config, a: Account, d: int, stock: Option<StockId>, price: real, q: Quantity)
    requires !Refused(cfg, a.book, OpSell(d, stock, price, q))
    ensures var s := SettledAt(cfg, a, d);
            stock.value in s.book.positions
            && var p := PostSell(cfg, s.book, d, stock.value, price, q);
               var t := PostedTo(s, p);
               var r := if p.ok then PostedTo(t, Repay(cfg, t.book, d)) else t;
               Trades(cfg, a, OpSell(d, stock, price, q), r, p.trade)
  {
    SettleIsUpdate(cfg, a.book, d);
    UpdateOnlySettles(cfg, a.book, d);
    hide Update, Repay, TradableQuantity;
    var u := Update(cfg, a.book, d);
    var p := PostSell(cfg, u.book, d, stock.value, price, q);
    assert !p.ok ==> p.trade == None;
    hide PostSell;
    var r := Repay(cfg, p.book, d);
    assert Apply(cfg, a.book, OpSell(d, stock, price, q))
        == if p.ok then Posted(r.book, u.log + (p.log + r.log), true, p.trade) else After(u.log, p);
    hide Apply;
    assert a.trades + (u.log + p.log) == (a.trades + u.log) + p.log;
    assert a.trades + (u.log + (p.log + r.log)) == ((a.trades + u.log) + p.log) + r.log;
  }

  lemma SellShortTrades(cfg: Config, a: Account, op: Op)
    requires op.OpSellShort? && !Refused(cfg, a.book, op)
    ensures var s := SettledAt(cfg, a, op.d);
            var f := PostedTo(s, BorrowForShort(cfg, s.book, op.d, op.stock.value, op.price, op.number));
            var p := PostSellShort(cfg, f.book, op.d, op.stock.value, op.price, op.number);
            Trades(cfg, a, op, PostedTo(f, p), p.trade)
  {
    SettleIsUpdate(cfg, a.book, op.d);
    hide Update, BorrowForShort, PostSellShort, TradableNumber;
    var u := Update(cfg, a.book, op.d);
    var f := BorrowForShort(cfg, u.book, op.d, op.stock.value, op.price, op.number);
    var p := PostSellShort(cfg, f.book, op.d, op.stock.value, op.price, op.number);
    assert Apply(cfg, a.book, op) == After(u.log, After(f.log, p));
    hide Apply;
    assert a.trades + (u.log + (f.log + p.log)) == ((a.trades + u.log) + f.log) + p.log;
  }

  lemma BuyShortTrades(cfg: Config, a: Account, d: int, stock: Option<StockId>, price: real, q: Quantity)
    requires !Refused(cfg, a.book, OpBuyShort(d, stock, price, q))
    ensures var s := SettledAt(cfg, a, d);
            stock.value in s.book.shorts
            && var p := PostBuyShort(cfg, s.book, d, stock.value, price, q);
               var t := PostedTo(s, p);
               p.trade.Some?
               && var r := if cfg.borrowStock
                           then PostedTo(t, ReturnStock(cfg, t.book, d, stock, price, p.trade.value.number)) else t;
                  Trades(cfg, a, OpBuyShort(d, stock, price, q), r, p.trade)
  {
    SettleIsUpdate(cfg, a.book, d);
    UpdateOnlySettles(cfg, a.book, d);
    hide Update, ReturnStock, TradableQuantity;
    var u := Update(cfg, a.book, d);
    var p := PostBuyShort(cfg, u.book, d, stock.value, price, q);
    assert p.trade.Some?;
    hide PostBuyShort;
    var r := if cfg.borrowStock then ReturnStock(cfg, p.book, d, stock, price, p.trade.value.number)
             else Done(p.book, []);
    assert Apply(cfg, a.book, OpBuyShort(d, stock, price, q))
        == Posted(r.book, u.log + (p.log + r.log), true, p.trade);
    hide Apply;
    assert a.trades + (u.log + (p.log + r.log)) == ((a.trades + u.log) + p.log) + r.log;
    assert ((a.trades + u.log) + p.log) + [] == (a.trades + u.log) + p.log;
  }

  /** Every step keeps the queues sound. */
  lemma StepKeepsSound(cfg: Config, a: Account, op: Op)
    requires Sorts(cfg) && Sound(a.book)
    ensures Sound(Step(cfg, a, op).book)
  {
    hide Apply, Sound, Sorts;
    OperationReads(cfg, Cash, a.book, op);
  }

  /** Whatever does a step keeps the queues sound. */
  lemma DoesKeepSound(cfg: Config, a: Account, op: Op)
    ensures Sorts(cfg) && Sound(a.book) ==>
              forall s: Account, ok: bool :: Does(cfg, a, op, s, ok) ==> Sound(s.book)
  {
    hide Sorts, Sound, Step, Apply;
    if Sorts(cfg) && Sound(a.book) {
      StepKeepsSound(cfg, a, op);
    }
  }

  lemma TradesKeepSound(cfg: Config, a: Account, op: Op)
    ensures Sorts(cfg) && Sound(a.book) ==>
              forall s: Account, trade: Option<TradeRecord> :: Trades(cfg, a, op, s, trade) ==> Sound(s.book)
  {
    hide Sorts, Sound, Step, Apply;
    if Sorts(cfg) && Sound(a.book) {
      StepKeepsSound(cfg, a, op);
    }
  }

  lemma SettledSound(cfg: Config, a: Account, d: int)
    requires Sorts(cfg) && Sound(a.book)
    ensures Sound(SettledAt(cfg, a, d).book)
  {
    StepKeepsSound(cfg, a, OpSettle(d));
  }

  lemma SettlingKeepsSound(cfg: Config, a: Account, d: int)
    ensures Sorts(cfg) && Sound(a.book) ==> Sound(SettledAt(cfg, a, d).book)
  {
    hide Sorts, Sound, SettledAt;
    if Sorts(cfg) && Sound(a.book) {
      SettledSound(cfg, a, d);
    }
  }

  lemma CoverKeepsSound(cfg: Config, b: Book, d: int, id: StockId, price: real, q: Quantity)
    requires Sound(b) && id in b.shorts
    ensures Sound(PostBuyShort(cfg, b, d, id, price, q).book)
  {
    BuyShortReads(cfg, Cash, b, d, id, price, q);
  }

  lemma FinanceComposes(cfg: Config, a: Account, d: int, id: StockId, price: real, number: real)
    requires cfg.borrowCash
    ensures var n := cfg.precision;
            var gap := PurchaseGap(cfg, a.book, d, id, price, number);
            var loan := RoundUp(Value(Worth(cfg, id, price, number), n), n);
            var c := if gap > 0 then PostedTo(a, Checkin(cfg, a.book, d, RoundUp(Value(gap, n), n))) else a;
            PostedTo(c, BorrowCash(cfg, c.book, d, loan)) == PostedTo(a, Finance(cfg, a.book, d, id, price, number))
  {
    hide PurchaseGap, RoundUp, Value, Worth, Checkin, BorrowCash;
    var n := cfg.precision;
    var gap := PurchaseGap(cfg, a.book, d, id, price, number);
    var c := if gap > 0 then Checkin(cfg, a.book, d, RoundUp(Value(gap, n), n)) else Done(a.book, []);
    var b := BorrowCash(cfg, c.book, d, RoundUp(Value(Worth(cfg, id, price, number), n), n));
    assert (a.trades + c.log) + b.log == a.trades + (c.log + b.log);
    assert a.trades + [] == a.trades;
  }

  lemma BorrowForShortComposes(cfg: Config, a: Account, d: int, id: StockId, price: real, number: real)
    requires cfg.borrowStock
    ensures var n := cfg.precision;
            var gap := ShortGap(cfg, a.book, d, id, price, number);
            var c := if gap > 0 then PostedTo(a, Checkin(cfg, a.book, d, RoundEx(Value(gap, n), n))) else a;
            PostedTo(c, BorrowStock(cfg, c.book, d, Some(id), price, number))
            == PostedTo(a, BorrowForShort(cfg, a.book, d, id, price, number))
  {
    hide ShortGap, RoundEx, Value, Checkin, BorrowStock;
    var n := cfg.precision;
    var gap := ShortGap(cfg, a.book, d, id, price, number);
    var c := if gap > 0 then Checkin(cfg, a.book, d, RoundEx(Value(gap, n), n)) else Done(a.book, []);
    var b := BorrowStock(cfg, c.book, d, Some(id), price, number);
    assert (a.trades + c.log) + b.log == a.trades + (c.log + b.log);
    assert a.trades + [] == a.trades;
  }

  lemma SettledLeavesQueues(cfg: Config, a: Account, d: int)
    ensures var b := SettledAt(cfg, a, d).book;
            b.loans == a.book.loans && b.borrowed == a.book.borrowed && b.shorts == a.book.shorts
            && b.positions.Keys == a.book.positions.Keys
  {
    UpdateOnlySettles(cfg, a.book, d);
    hide Update;
  }

  lemma NothingPosted(a: Account)
    ensures PostedTo(a, Nothing(a.book)) == a
  {
    assert a.trades + [] == a.trades;
  }

  class ExecutionRuntime {
    const cfg: Config
    const initDatetime: int
    var lastUpdate: int
    var cash: int
    var checkinCash: int
    var checkoutCash: int
    var checkinStock: int
    var checkoutStock: int
    var borrowCash: int
    var loans: seq<Lot>
    var borrowed: map<StockId, BorrowRecord>
    var trades: seq<TradeRecord>
    var positions: map<StockId, Position>
    var history: seq<Position>
    var shorts: map<StockId, Position>
    var shortHistory: seq<Position>

    function LastDatetime(): int
      reads this
    {
      LastOf(trades, initDatetime)
    }

    ghost function State(): Account
      reads this
    {
      Account(Book(LastDatetime(), lastUpdate, cash, checkinCash, checkoutCash, checkinStock, checkoutStock, borrowCash,
                   loans, borrowed, positions, history, shorts, shortHistory), trades)
    }

    /** The object invariant: the queues hold what their totals say, and the environment can sort. */
    ghost predicate Valid()
      reads this
    {
      Sorts(cfg) && Sound(State().book)
    }

    constructor (cfg: Config, d: int, initCash: real)
      ensures this.cfg == cfg && initDatetime == d
      ensures State() == Opened(cfg, d, initCash)
      ensures Sorts(cfg) ==> Valid()
    {
      this.cfg, initDatetime, lastUpdate := cfg, d, d;
      var opening := RoundUnits(RoundEx(initCash, 2), cfg.precision);
      cash, checkinCash, checkoutCash, checkinStock, checkoutStock, borrowCash := opening, opening, 0, 0, 0, 0;
      loans, borrowed, positions, history, shorts, shortHistory := [], map[], map[], [], map[], [];
      trades := [CashRecord(Init, d, opening, 0)];
      new;
      OpenedExplained(cfg, d, initCash, Cash);
    }

    // -------------------------------------------------------------------------------------------------------
    // Settlement

    /** The inner loop of a settlement: one position through its events. */
    method SettleWeights(held: Position, weights: seq<StockWeight>) returns (s: Settled)
      ensures s == SettleEvents(cfg.precision, held, weights)
    {
      hide PayBonus, AddShares, Consolidate;
      s := Settled(held, 0, []);
      for i := 0 to |weights|
        invariant s == SettleEvents(cfg.precision, held, weights[..i])
      {
        assert weights[..i + 1][..i] == weights[..i];
        ghost var before := s;
        var w := weights[i];
        if !IsNothing(w) {
          var paid := PayBonus(cfg.precision, s.position, w);
          var more := AddShares(paid.position, w);
          var whole := Consolidate(more.position, w);
          s := Settled(whole.position, s.bonus + paid.bonus, s.records + (paid.records + more.records + whole.records));
        } else {
          assert s.records + [] == s.records;
        }
      }
      assert weights[..|weights|] == weights;
    }

    /** The outer loop: every open position in ascending order of its stock. */
    method SettlePositions(start: int, end: int) returns (s: Batch)
      ensures s == SettleAll(cfg, positions.Keys, positions, start, end)
    {
      hide SettleEvents, Window, PartlySettled, SettleAll;
      s := Batch(positions, 0, []);
      var rest := positions.Keys;
      NoneSettled(cfg, positions, start, end);
      while rest != {}
        invariant PartlySettled(cfg, positions, rest, s, start, end)
        decreases |rest|
      {
        var id :| id in rest && forall k <- rest :: id <= k by { assert Least(rest) in rest; }
        RestHeld(cfg, positions, rest, s, start, end);
        var one := SettleWeights(positions[id], Window(cfg.weights(id), start, end));
        SettledOneMore(cfg, positions, rest, s, start, end, id);
        s := Batch(s.positions[id := one.position], s.bonus + one.bonus, s.records + one.records);
        rest := rest - {id};
      }
      AllSettled(cfg, positions, s, start, end);
    }

    method UpdateWithWeight(d: int)
      modifies this
      ensures State() == SettledAt(cfg, old(State()), d)
      ensures old(Valid()) ==> Valid()
    {
      SettlingKeepsSound(cfg, State(), d);
      SettleIsUpdate(cfg, State().book, d);
      hide SettleAll, Apply, Sorts, Sound;
      if d <= lastUpdate {
        assert trades + [] == trades;
        return;
      }
      var s := SettlePositions(NextDay(LastDatetime()), NextDay(d));
      var records := cfg.sort(s.records);
      LastOfAppend(trades, records, initDatetime);
      positions, cash, lastUpdate, trades := s.positions, cash + s.bonus, d, trades + records;
    }

    // -------------------------------------------------------------------------------------------------------
    // Deposits and withdrawals

    method Checkin(d: int, amount: real) returns (ok: bool)
      modifies this
      ensures Does(cfg, old(State()), OpCheckin(d, amount), State(), ok)
      ensures old(Valid()) ==> Valid()
    {
      DoesKeepSound(cfg, State(), OpCheckin(d, amount));
      ghost var a := State();
      hide Does, SettledAt, Update, Sorts, Sound;
      if amount <= 0.0 || d < LastDatetime() {
        RefusedDoes(cfg, a, OpCheckin(d, amount));
        return false;
      }
      UpdateWithWeight(d);
      var inCash := RoundUnits(amount, cfg.precision);
      SettledDoes(cfg, a, OpCheckin(d, amount));
      cash, checkinCash := cash + inCash, checkinCash + inCash;
      trades := trades + [CashRecord(CashIn, d, inCash, 0)];
      ok := true;
    }

    method Checkout(d: int, amount: real) returns (ok: bool)
      modifies this
      ensures Does(cfg, old(State()), OpCheckout(d, amount), State(), ok)
      ensures old(Valid()) ==> Valid()
    {
      DoesKeepSound(cfg, State(), OpCheckout(d, amount));
      ghost var a := State();
      hide Does, SettledAt, Update, Sorts, Sound;
      if amount <= 0.0 || d < LastDatetime() {
        RefusedDoes(cfg, a, OpCheckout(d, amount));
        return false;
      }
      UpdateWithWeight(d);
      var outCash := RoundUnits(amount, cfg.precision);
      SettledDoes(cfg, a, OpCheckout(d, amount));
      if cash - outCash < 0 {
        NothingPosted(State());
        return false;
      }
      cash, checkoutCash := cash - outCash, checkoutCash + outCash;
      trades := trades + [CashRecord(CashOut, d, outCash, 0)];
      ok := true;
    }

    method CheckinStock(d: int, stock: Option<StockId>, price: real, number: real) returns (ok: bool)
      modifies this
      ensures Does(cfg, old(State()), OpCheckinStock(d, stock, price, number), State(), ok)
      ensures old(Valid()) ==> Valid()
    {
      DoesKeepSound(cfg, State(), OpCheckinStock(d, stock, price, number));
      hide Does, SettledAt, Update, PostCheckinStock, Sorts, Sound;
      if stock.None? || number == 0.0 || price <= 0.0 || d < LastDatetime() {
        RefusedDoes(cfg, State(), OpCheckinStock(d, stock, price, number));
        return false;
      }
      SettledDoes(cfg, State(), OpCheckinStock(d, stock, price, number));
      UpdateWithWeight(d);
      ok := DepositStock(d, stock.value, price, number);
    }

    method DepositStock(d: int, id: StockId, price: real, number: real) returns (ok: bool)
      modifies this
      ensures var p := PostCheckinStock(cfg, old(State()).book, d, id, price, number);
              State() == PostedTo(old(State()), p) && ok == p.ok
    {
      hide Worth;
      var marketValue := Worth(cfg, id, price, number);
      if id !in positions {
        positions := positions[id := Position(id, d, None, number, number, marketValue, 0, 0, 1, 0)];
      } else {
        var p := positions[id];
        positions := positions[id := p.(number := p.number + number, totalNumber := p.totalNumber + number,
                                        buyMoney := p.buyMoney + marketValue, buyCount := p.buyCount + 1)];
      }
      checkinStock := checkinStock + marketValue;
      trades := trades + [ShareRecord(StockIn, id, d, price, number, 0)];
      ok := true;
    }

    method CheckoutStock(d: int, stock: Option<StockId>, price: real, number: real) returns (ok: bool)
      modifies this
      ensures Does(cfg, old(State()), OpCheckoutStock(d, stock, price, number), State(), ok)
      ensures old(Valid()) ==> Valid()
    {
      DoesKeepSound(cfg, State(), OpCheckoutStock(d, stock, price, number));
      hide Does, SettledAt, Update, PostCheckoutStock, Sorts, Sound;
      if stock.None? || number == 0.0 || price <= 0.0 || d < LastDatetime() {
        RefusedDoes(cfg, State(), OpCheckoutStock(d, stock, price, number));
        return false;
      }
      SettledDoes(cfg, State(), OpCheckoutStock(d, stock, price, number));
      UpdateWithWeight(d);
      ok := WithdrawStock(d, stock.value, price, number);
    }

    /** Files a changed position, or closes it when no share is left. */
    method FilePosition(id: StockId, p: Position, cleaned: Position)
      modifies this`positions, this`history
      ensures State() == old(State()).(book := PutPosition(old(State()).book, id, p, cleaned))
    {
      if p.number == 0.0 {
        history, positions := history + [cleaned], positions - {id};
      } else {
        positions := positions[id := p];
      }
    }

    method WithdrawStock(d: int, id: StockId, price: real, number: real) returns (ok: bool)
      modifies this
      ensures var p := PostCheckoutStock(cfg, old(State()).book, d, id, price, number);
              State() == PostedTo(old(State()), p) && ok == p.ok
    {
      hide RoundUnits, Value, Amount, PutPosition;
      NothingPosted(State());
      if id !in positions || number > positions[id].number {
        return false;
      }
      var n, taken, p := cfg.precision, Amount(cfg, id, price, number), positions[id];
      p := p.(number := p.number - number, sellMoney := RoundUnits(Value(p.sellMoney, n) + taken, n),
              sellCount := p.sellCount + 1);
      FilePosition(id, p, p);
      checkoutStock := RoundUnits(Value(checkoutStock, n) - taken, n);
      trades := trades + [ShareRecord(StockOut, id, d, price, number, 0)];
      ok := true;
    }

    // -------------------------------------------------------------------------------------------------------
    // Borrowing

    method BorrowCash(d: int, amount: real) returns (ok: bool)
      modifies this
      ensures Does(cfg, old(State()), OpBorrowCash(d, amount), State(), ok)
      ensures old(Valid()) ==> Valid()
    {
      DoesKeepSound(cfg, State(), OpBorrowCash(d, amount));
      hide Does, SettledAt, Update, PostBorrowCash, Sorts, Sound;
      if amount <= 0.0 || d < LastDatetime() {
        RefusedDoes(cfg, State(), OpBorrowCash(d, amount));
        return false;
      }
      SettledDoes(cfg, State(), OpBorrowCash(d, amount));
      UpdateWithWeight(d);
      ok := TakeLoan(d, amount);
    }

    method TakeLoan(d: int, amount: real) returns (ok: bool)
      modifies this
      ensures var p := PostBorrowCash(cfg, old(State()).book, d, amount);
              State() == PostedTo(old(State()), p) && ok == p.ok
    {
      hide RoundUnits;
      var inCash := RoundUnits(amount, cfg.precision);
      var cost := cfg.cost(BorrowCashCost(d, amount));
      cash, borrowCash := cash + inCash - cost, borrowCash + inCash;
      loans := loans + [Lot(d, 1.0, inCash as real)];
      trades := trades + [CashRecord(CashBorrowed, d, inCash, cost)];
      ok := true;
    }

    /** The first loop of a repayment: the cost of the loans it touches, and what they do not cover. */
    method ScanLoans(d: int, n: real) returns (cost: nat, remain: real)
      ensures cost == LoanReturnCost(cfg, loans, d, n) && remain == Shortfall(loans, n)
    {
      cost, remain := 0, n;
      var i, covered := 0, false;
      while i < |loans| && !covered
        invariant 0 <= i <= |loans|
        invariant covered ==> remain == 0.0 == Shortfall(loans, n) && cost == LoanReturnCost(cfg, loans, d, n)
        invariant !covered ==> Shortfall(loans[i..], remain) == Shortfall(loans, n)
        invariant !covered ==> cost + LoanReturnCost(cfg, loans[i..], d, remain) == LoanReturnCost(cfg, loans, d, n)
        decreases |loans| - i, !covered
      {
        assert loans[i..][1..] == loans[i + 1..];
        if remain <= loans[i].number {
          cost := cost + cfg.cost(ReturnCashCost(loans[i].datetime, d, remain));
          remain, covered := 0.0, true;
        } else {
          cost := cost + cfg.cost(ReturnCashCost(loans[i].datetime, d, loans[i].number));
          remain := remain - loans[i].number;
          i := i + 1;
        }
      }
    }

    method ReturnCash(d: int, amount: real) returns (ok: bool)
      modifies this
      ensures Does(cfg, old(State()), OpReturnCash(d, amount), State(), ok)
      ensures old(Valid()) ==> Valid()
    {
      DoesKeepSound(cfg, State(), OpReturnCash(d, amount));
      hide Does, SettledAt, Update, RoundUnits, PostReturnCash, Sorts, Sound;
      if amount <= 0.0 || d < LastDatetime() || loans == [] || d < loans[|loans| - 1].datetime {
        RefusedDoes(cfg, State(), OpReturnCash(d, amount));
        return false;
      }
      SettledDoes(cfg, State(), OpReturnCash(d, amount));
      SettledLeavesQueues(cfg, State(), d);
      UpdateWithWeight(d);
      ok := RepayLoans(d, RoundUnits(amount, cfg.precision));
    }

    method RepayLoans(d: int, inCash: int) returns (ok: bool)
      requires loans != []
      modifies this
      ensures var p := PostReturnCash(cfg, old(State()).book, d, inCash);
              State() == PostedTo(old(State()), p) && ok == p.ok
    {
      hide LoanReturnCost, Shortfall, TakeOldest;
      NothingPosted(State());
      var cost, remain := ScanLoans(d, inCash as real);
      var outCash := inCash + cost;
      if remain != 0.0 || outCash > cash {
        return false;
      }
      var rest := DropOldest(loans, inCash as real);
      cash, borrowCash, loans := cash - outCash, borrowCash - inCash, rest;
      trades := trades + [CashRecord(CashReturned, d, inCash, cost)];
      ok := true;
    }

    method BorrowStock(d: int, stock: Option<StockId>, price: real, number: real) returns (ok: bool)
      modifies this
      ensures Does(cfg, old(State()), OpBorrowStock(d, stock, price, number), State(), ok)
      ensures old(Valid()) ==> Valid()
    {
      DoesKeepSound(cfg, State(), OpBorrowStock(d, stock, price, number));
      hide Does, SettledAt, Update, PostBorrowStock, Sorts, Sound;
      if stock.None? || d < LastDatetime() || number == 0.0 || price <= 0.0 {
        RefusedDoes(cfg, State(), OpBorrowStock(d, stock, price, number));
        return false;
      }
      SettledDoes(cfg, State(), OpBorrowStock(d, stock, price, number));
      UpdateWithWeight(d);
      ok := TakeLot(d, stock.value, price, number);
    }

    method TakeLot(d: int, id: StockId, price: real, number: real) returns (ok: bool)
      modifies this
      ensures var p := PostBorrowStock(cfg, old(State()).book, d, id, price, number);
              State() == PostedTo(old(State()), p) && ok == p.ok
    {
      hide Worth;
      var marketValue := Worth(cfg, id, price, number);
      var cost := cfg.cost(BorrowStockCost(d, id, price, number));
      var lot := Lot(d, price, number);
      cash := cash - cost;
      trades := trades + [ShareRecord(StockBorrowed, id, d, price, number, cost)];
      if id !in borrowed {
        borrowed := borrowed[id := BorrowRecord(number, marketValue, [lot])];
      } else {
        var r := borrowed[id];
        borrowed := borrowed[id := BorrowRecord(r.number + number, r.value + marketValue, r.lots + [lot])];
      }
      ok := true;
    }

    /** The first loop of a stock return: the cost of the lots it touches and the borrow value it gives back. */
    method ScanLots(id: StockId, lots: seq<Lot>, d: int, price: real, number: real)
      returns (cost: nat, marketValue: int)
      ensures cost == StockReturnCost(cfg, id, lots, d, price, number, number)
      ensures marketValue == ReturnedWorth(cfg, id, lots, number, 0)
    {
      hide RoundUnits, Value, Amount;
      cost, marketValue := 0, 0;
      var i, remain, covered := 0, number, false;
      var n := cfg.precision;
      while i < |lots| && !covered
        invariant 0 <= i <= |lots|
        invariant covered ==> cost == StockReturnCost(cfg, id, lots, d, price, number, number)
                              && marketValue == ReturnedWorth(cfg, id, lots, number, 0)
        invariant !covered ==> cost + StockReturnCost(cfg, id, lots[i..], d, price, number, remain)
                               == StockReturnCost(cfg, id, lots, d, price, number, number)
        invariant !covered ==> ReturnedWorth(cfg, id, lots[i..], remain, marketValue)
                               == ReturnedWorth(cfg, id, lots, number, 0)
        decreases |lots| - i, !covered
      {
        assert lots[i..][1..] == lots[i + 1..];
        cost := cost + cfg.cost(ReturnStockCost(lots[i].datetime, d, id, price, number));
        if remain <= lots[i].number {
          marketValue := RoundUnits(Value(marketValue, n) + Amount(cfg, id, lots[i].price, remain), n);
          covered := true;
        } else {
          marketValue := RoundUnits(Value(marketValue, n) + Amount(cfg, id, lots[i].price, lots[i].number), n);
          remain := remain - lots[i].number;
          i := i + 1;
        }
      }
    }

    method ReturnStock(d: int, stock: Option<StockId>, price: real, number: real) returns (ok: bool)
      requires Valid()
      modifies this
      ensures Does(cfg, old(State()), OpReturnStock(d, stock, price, number), State(), ok)
      ensures Valid()
    {
      DoesKeepSound(cfg, State(), OpReturnStock(d, stock, price, number));
      hide Does, SettledAt, Update, PostReturnStock, Total, Sorts;
      if stock.None? || d < LastDatetime() || number == 0.0 || price <= 0.0 {
        RefusedDoes(cfg, State(), OpReturnStock(d, stock, price, number));
        return false;
      }
      SettledDoes(cfg, State(), OpReturnStock(d, stock, price, number));
      SettledLeavesQueues(cfg, State(), d);
      UpdateWithWeight(d);
      ok := GiveLotsBack(d, stock.value, price, number);
    }

    method GiveLotsBack(d: int, id: StockId, price: real, number: real) returns (ok: bool)
      requires id in borrowed ==> borrowed[id].lots != []
      modifies this
      ensures var p := PostReturnStock(cfg, old(State()).book, d, id, price, number);
              State() == PostedTo(old(State()), p) && ok == p.ok
    {
      hide StockReturnCost, ReturnedWorth, TakeOldest;
      NothingPosted(State());
      if id !in borrowed || number > borrowed[id].number {
        return false;
      }
      var r := borrowed[id];
      var cost, marketValue := ScanLots(id, r.lots, d, price, number);
      var lots := DropOldest(r.lots, number);
      if lots == [] {
        borrowed := borrowed - {id};
      } else {
        borrowed := borrowed[id := BorrowRecord(r.number - number, r.value - marketValue, lots)];
      }
      cash := cash - cost;
      trades := trades + [ShareRecord(StockReturned, id, d, price, number, cost)];
      ok := true;
    }

    // -------------------------------------------------------------------------------------------------------
    // Orders

    method FinancePurchase(d: int, id: StockId, price: real, number: real)
      modifies this
      ensures State() == PostedTo(old(State()), Finance(cfg, old(State()).book, d, id, price, number))
    {
      hide RoundUnits, RoundUp, Value, Does, Accounts.Checkin, Accounts.BorrowCash, Worth;
      ghost var a := State();
      NothingPosted(a);
      if cfg.borrowCash {
        var n := cfg.precision;
        var money := Worth(cfg, id, price, number);
        var cost, loanCost := cfg.cost(BuyCost(d, id, price, number)), cfg.cost(BorrowCashCost(d, Value(money, n)));
        var x := RoundUnits(Value(cash, n) / MARGIN_RATE + Value(cost, n) + Value(loanCost, n), n);
        assert money - x == PurchaseGap(cfg, a.book, d, id, price, number);
        hide PurchaseGap;
        if x < money {
          var ok := Checkin(d, RoundUp(Value(money - x, n), n));
          CheckinPosts(cfg, a, d, RoundUp(Value(money - x, n), n), State(), ok);
        }
        ghost var c := State();
        var ok := BorrowCash(d, RoundUp(Value(money, n), n));
        BorrowCashPosts(cfg, c, d, RoundUp(Value(money, n), n), State(), ok);
        FinanceComposes(cfg, a, d, id, price, number);
      }
    }

    method PayFor(d: int, id: StockId, price: real, number: real) returns (trade: Option<TradeRecord>)
      modifies this
      ensures var p := PostBuy(cfg, old(State()).book, d, id, price, number);
              State() == PostedTo(old(State()), p) && trade == p.trade
    {
      hide Worth;
      NothingPosted(State());
      var cost := cfg.cost(BuyCost(d, id, price, number));
      var money := Worth(cfg, id, price, number);
      if cash < money + cost {
        return None;
      }
      cash := cash - money - cost;
      var record := ShareRecord(BuyIn, id, d, price, number, cost);
      trades := trades + [record];
      if id !in positions {
        positions := positions[id := Position(id, d, None, number, number, money, cost, 0, 1, 0)];
      } else {
        var p := positions[id];
        positions := positions[id := p.(number := p.number + number, totalNumber := p.totalNumber + number,
                                        buyMoney := money + p.buyMoney, totalCost := cost + p.totalCost,
                                        buyCount := p.buyCount + 1)];
      }
      trade := Some(record);
    }

    method Buy(d: int, stock: Option<StockId>, price: real, number: real) returns (trade: Option<TradeRecord>)
      modifies this
      ensures Trades(cfg, old(State()), OpBuy(d, stock, price, number), State(), trade)
      ensures old(Valid()) ==> Valid()
    {
      TradesKeepSound(cfg, State(), OpBuy(d, stock, price, number));
      hide Trades, SettledAt, Finance, PostBuy, TradableNumber, Sorts, Sound;
      if stock.None? || d < LastDatetime() || !TradableNumber(cfg, stock.value, number) {
        RefusedTrades(cfg, State(), OpBuy(d, stock, price, number));
        return None;
      }
      BuyTrades(cfg, State(), d, stock, price, number);
      UpdateWithWeight(d);
      FinancePurchase(d, stock.value, price, number);
      trade := PayFor(d, stock.value, price, number);
    }

    method TakeProceeds(d: int, id: StockId, price: real, q: Quantity) returns (trade: Option<TradeRecord>)
      requires id in positions
      modifies this
      ensures var p := PostSell(cfg, old(State()).book, d, id, price, q);
              State() == PostedTo(old(State()), p) && trade == p.trade && trade.Some? == p.ok
    {
      hide Worth, PutPosition;
      NothingPosted(State());
      var held := positions[id];
      var number := if q.All? then held.number else q.number;
      if held.number < number {
        return None;
      }
      var cost := cfg.cost(SellCost(d, id, price, number));
      var money := Worth(cfg, id, price, number);
      var p := held.(number := held.number - number, totalCost := held.totalCost + cost,
                     sellMoney := held.sellMoney + money, sellCount := held.sellCount + 1);
      FilePosition(id, p, p.(cleanDatetime := Some(d)));
      cash := cash + money - cost;
      var record := ShareRecord(SellOut, id, d, price, number, cost);
      trades := trades + [record];
      trade := Some(record);
    }

    method RepayFromCash(d: int)
      modifies this
      ensures State() == PostedTo(old(State()), Repay(cfg, old(State()).book, d))
    {
      hide Does, Value, Accounts.ReturnCash;
      ghost var a := State();
      NothingPosted(a);
      if cfg.borrowCash && borrowCash > 0 && cash > 0 {
        var amount := Value(if borrowCash < cash then borrowCash else cash, cfg.precision);
        var ok := ReturnCash(d, amount);
        ReturnCashPosts(cfg, a, d, amount, State(), ok);
      }
    }

    method Sell(d: int, stock: Option<StockId>, price: real, q: Quantity) returns (trade: Option<TradeRecord>)
      modifies this
      ensures Trades(cfg, old(State()), OpSell(d, stock, price, q), State(), trade)
      ensures old(Valid()) ==> Valid()
    {
      TradesKeepSound(cfg, State(), OpSell(d, stock, price, q));
      hide Trades, SettledAt, Repay, PostSell, TradableQuantity, Sorts, Sound;
      if stock.None? || d < LastDatetime() || !TradableQuantity(cfg, stock.value, q) || stock.value !in positions {
        RefusedTrades(cfg, State(), OpSell(d, stock, price, q));
        return None;
      }
      SellTrades(cfg, State(), d, stock, price, q);
      UpdateWithWeight(d);
      trade := TakeProceeds(d, stock.value, price, q);
      if trade.Some? {
        RepayFromCash(d);
      }
    }

    method BorrowToSell(d: int, id: StockId, price: real, number: real)
      modifies this
      ensures State() == PostedTo(old(State()), BorrowForShort(cfg, old(State()).book, d, id, price, number))
    {
      hide RoundUnits, RoundEx, Value, Does, Accounts.Checkin, Accounts.BorrowStock, Amount;
      ghost var a := State();
      NothingPosted(a);
      if cfg.borrowStock {
        var n := cfg.precision;
        var cost := cfg.cost(SellCost(d, id, price, number));
        var money := RoundUnits(Amount(cfg, id, price, number) + Value(cost, n), n);
        var x := RoundUnits(Value(cash, n) / MARGIN_RATE, n);
        assert money - x == ShortGap(cfg, a.book, d, id, price, number);
        hide ShortGap;
        if x < money {
          var ok := Checkin(d, RoundEx(Value(money - x, n), n));
          CheckinPosts(cfg, a, d, RoundEx(Value(money - x, n), n), State(), ok);
        }
        ghost var c := State();
        var ok := BorrowStock(d, Some(id), price, number);
        BorrowStockPosts(cfg, c, d, Some(id), price, number, State(), ok);
        BorrowForShortComposes(cfg, a, d, id, price, number);
      }
    }

    method TakeShortProceeds(d: int, id: StockId, price: real, number: real) returns (trade: Option<TradeRecord>)
      modifies this
      ensures var p := PostSellShort(cfg, old(State()).book, d, id, price, number);
              State() == PostedTo(old(State()), p) && trade == p.trade
    {
      hide ShortProceeds, WholeMoney;
      NothingPosted(State());
      if id !in borrowed || (id in shorts && shorts[id].number >= borrowed[id].number) {
        return None;
      }
      var free := if id in shorts then borrowed[id].number - shorts[id].number else borrowed[id].number;
      var sold := if number > free then free else number;
      var cost := cfg.cost(SellCost(d, id, price, sold));
      var money := ShortProceeds(cfg, id, price, sold, cost);
      cash := cash + money;
      var record := ShareRecord(ShortSold, id, d, price, sold, cost);
      trades := trades + [record];
      if id !in shorts {
        shorts := shorts[id := Position(id, d, None, sold, sold, cost, cost, money, 0, 1)];
      } else {
        var p := shorts[id];
        shorts := shorts[id := p.(number := p.number + sold, totalNumber := p.totalNumber + sold,
                                  buyMoney := WholeMoney(p.buyMoney + cost, cfg.precision),
                                  totalCost := cost + p.totalCost, sellMoney := p.sellMoney + money,
                                  sellCount := p.sellCount + 1)];
      }
      trade := Some(record);
    }

    method SellShort(d: int, stock: Option<StockId>, price: real, number: real, stoploss: real)
      returns (trade: Option<TradeRecord>)
      modifies this
      ensures Trades(cfg, old(State()), OpSellShort(d, stock, price, number, stoploss), State(), trade)
      ensures old(Valid()) ==> Valid()
    {
      TradesKeepSound(cfg, State(), OpSellShort(d, stock, price, number, stoploss));
      hide Trades, SettledAt, BorrowForShort, PostSellShort, TradableNumber, Sorts, Sound;
      ghost var op := OpSellShort(d, stock, price, number, stoploss);
      if stock.None? || d < LastDatetime() || !TradableNumber(cfg, stock.value, number)
         || (stoploss != 0.0 && stoploss < price) {
        RefusedTrades(cfg, State(), op);
        return None;
      }
      SellShortTrades(cfg, State(), op);
      UpdateWithWeight(d);
      BorrowToSell(d, stock.value, price, number);
      trade := TakeShortProceeds(d, stock.value, price, number);
    }

    method PayCover(d: int, id: StockId, price: real, q: Quantity) returns (record: TradeRecord)
      requires id in shorts
      modifies this
      ensures var p := PostBuyShort(cfg, old(State()).book, d, id, price, q);
              State() == PostedTo(old(State()), p) && p.trade == Some(record)
      ensures borrowed == old(borrowed)
    {
      hide Worth, Covered;
      var held := shorts[id];
      var number := if q.All? || q.number > held.number then held.number else q.number;
      var cost := cfg.cost(BuyCost(d, id, price, number));
      var money := Worth(cfg, id, price, number);
      cash := cash - money - cost;
      record := ShareRecord(ShortCovered, id, d, price, number, cost);
      FileShort(id, Covered(held, number, money, cost), d);
      trades := trades + [record];
    }

    method FileShort(id: StockId, p: Position, d: int)
      modifies this`shorts, this`shortHistory
      ensures shorts == if p.number == 0.0 then old(shorts) - {id} else old(shorts)[id := p]
      ensures shortHistory == if p.number == 0.0 then old(shortHistory) + [p.(cleanDatetime := Some(d))]
                              else old(shortHistory)
    {
      if p.number == 0.0 {
        shortHistory := shortHistory + [p.(cleanDatetime := Some(d))];
        shorts := shorts - {id};
      } else {
        shorts := shorts[id := p];
      }
    }

    method BuyShort(d: int, stock: Option<StockId>, price: real, q: Quantity) returns (trade: Option<TradeRecord>)
      requires Valid()
      modifies this
      ensures Trades(cfg, old(State()), OpBuyShort(d, stock, price, q), State(), trade)
      ensures Valid()
    {
      TradesKeepSound(cfg, State(), OpBuyShort(d, stock, price, q));
      hide Trades, Does, SettledAt, Accounts.ReturnStock, PostBuyShort, TradableQuantity, Sorts, Sound;
      if stock.None? || d < LastDatetime() || !TradableQuantity(cfg, stock.value, q) || stock.value !in shorts {
        RefusedTrades(cfg, State(), OpBuyShort(d, stock, price, q));
        return None;
      }
      BuyShortTrades(cfg, State(), d, stock, price, q);
      UpdateWithWeight(d);
      SettledSound(cfg, old(State()), d);
      CoverKeepsSound(cfg, State().book, d, stock.value, price, q);
      var record := PayCover(d, stock.value, price, q);
      ghost var t := State();
      if cfg.borrowStock {
        var ok := ReturnStock(d, stock, price, record.number);
        ReturnStockPosts(cfg, t, d, stock, price, record.number, State(), ok);
      }
      trade := Some(record);
    }

    // -------------------------------------------------------------------------------------------------------
    // Queries

    /** The replay loop of the held number. */
    method ReplayHoldNumber(d: int, id: StockId) returns (number: real)
      ensures number == Sum(cfg, Long(id), Upto(trades, d))
    {
      hide Upto;
      number := 0.0;
      var i := 0;
      UptoStart(trades, d);
      while i < |trades| && trades[i].datetime <= d
        invariant 0 <= i <= |trades|
        invariant number == Sum(cfg, Long(id), trades[..i])
        invariant Upto(trades, d) == trades[..i] + Upto(trades[i..], d)
      {
        var r := trades[i];
        UptoTurn(cfg, Long(id), trades, i, d);
        if r.stock == Some(id) {
          if r.business in {BuyIn, Gift, StockIn, Suogu} {
            number := number + r.number;
          } else if r.business in {SellOut, StockOut} {
            number := number - r.number;
          }
        }
        i := i + 1;
      }
      UptoEnd(trades, i, d);
    }

    method GetHoldNumber(d: int, id: StockId) returns (number: real)
      modifies this
      ensures Answers(cfg, old(State()), initDatetime, d, Long(id), State(), number)
    {
      hide Upto, Apply, Sum, Reading;
      if d < initDatetime {
        return 0.0;
      }
      UpdateWithWeight(d);
      if d >= LastDatetime() {
        return if id in positions then positions[id].number else 0.0;
      }
      number := ReplayHoldNumber(d, id);
    }

    /** The replay loop of the short number. */
    method ReplayShortNumber(d: int, id: StockId) returns (number: real)
      ensures number == Sum(cfg, Short(id), Upto(trades, d))
    {
      hide Upto;
      number := 0.0;
      var i := 0;
      UptoStart(trades, d);
      while i < |trades| && trades[i].datetime <= d
        invariant 0 <= i <= |trades|
        invariant number == Sum(cfg, Short(id), trades[..i])
        invariant Upto(trades, d) == trades[..i] + Upto(trades[i..], d)
      {
        var r := trades[i];
        UptoTurn(cfg, Short(id), trades, i, d);
        if r.stock == Some(id) {
          if r.business == ShortSold {
            number := number + r.number;
          } else if r.business == ShortCovered {
            number := number - r.number;
          }
        }
        i := i + 1;
      }
      UptoEnd(trades, i, d);
    }

    method GetShortHoldNumber(d: int, id: StockId) returns (number: real)
      modifies this
      ensures Answers(cfg, old(State()), initDatetime, d, Short(id), State(), number)
    {
      hide Upto, Apply, Sum, Reading;
      if d < initDatetime {
        return 0.0;
      }
      UpdateWithWeight(d);
      if d >= LastDatetime() {
        return if id in shorts then shorts[id].number else 0.0;
      }
      number := ReplayShortNumber(d, id);
    }

    /** The replay loop of the borrowed number. */
    method ReplayDebtNumber(d: int, id: StockId) returns (number: real)
      ensures number == Sum(cfg, Debt(id), Upto(trades, d))
    {
      hide Upto;
      number := 0.0;
      var i := 0;
      UptoStart(trades, d);
      while i < |trades| && trades[i].datetime <= d
        invariant 0 <= i <= |trades|
        invariant number == Sum(cfg, Debt(id), trades[..i])
        invariant Upto(trades, d) == trades[..i] + Upto(trades[i..], d)
      {
        var r := trades[i];
        UptoTurn(cfg, Debt(id), trades, i, d);
        if r.stock == Some(id) {
          if r.business == StockBorrowed {
            number := number + r.number;
          } else if r.business == StockReturned {
            number := number - r.number;
          }
        }
        i := i + 1;
      }
      UptoEnd(trades, i, d);
    }

    method GetDebtNumber(d: int, id: StockId) returns (number: real)
      modifies this
      ensures Answers(cfg, old(State()), initDatetime, d, Debt(id), State(), number)
    {
      hide Upto, Apply, Sum, Reading;
      if d < initDatetime {
        return 0.0;
      }
      UpdateWithWeight(d);
      if d >= LastDatetime() {
        return if id in borrowed then borrowed[id].number else 0.0;
      }
      number := ReplayDebtNumber(d, id);
    }

    /** The replay loop of the borrowed cash. */
    method ReplayDebtCash(d: int) returns (number: int)
      ensures number as real == Sum(cfg, DebtCash, Upto(trades, d))
    {
      hide Upto;
      number := 0;
      var i := 0;
      UptoStart(trades, d);
      while i < |trades| && trades[i].datetime <= d
        invariant 0 <= i <= |trades|
        invariant number as real == Sum(cfg, DebtCash, trades[..i])
        invariant Upto(trades, d) == trades[..i] + Upto(trades[i..], d)
      {
        var r := trades[i];
        UptoTurn(cfg, DebtCash, trades, i, d);
        if r.business == CashBorrowed {
          number := number + r.amount;
        } else if r.business == CashReturned {
          number := number - r.amount;
        }
        i := i + 1;
      }
      UptoEnd(trades, i, d);
    }

    method GetDebtCash(d: int) returns (number: int)
      modifies this
      ensures Answers(cfg, old(State()), initDatetime, d, DebtCash, State(), number as real)
    {
      hide Upto, Apply, Sum, Reading;
      if d < initDatetime {
        return 0;
      }
      UpdateWithWeight(d);
      if d >= LastDatetime() {
        return borrowCash;
      }
      number := ReplayDebtCash(d);
    }

    /** `std::lower_bound` over the log: the first record not earlier than `d`. */
    method LowerBound(d: int) returns (at: nat)
      requires Sorted(trades)
      ensures at <= |trades| && forall i :: 0 <= i < |trades| ==> (trades[i].datetime < d <==> i < at)
    {
      var low, high := 0, |trades|;
      while low < high
        invariant 0 <= low <= high <= |trades|
        invariant forall i :: 0 <= i < low ==> trades[i].datetime < d
        invariant forall i :: high <= i < |trades| ==> trades[i].datetime >= d
      {
        var middle := (low + high) / 2;
        if trades[middle].datetime < d {
          low := middle + 1;
        } else {
          high := middle;
        }
      }
      at := low;
    }

    /** The records dated in [start, end). */
    method GetTradeList(start: int, end: int) returns (list: seq<TradeRecord>)
      requires Sorted(trades)
      ensures list == Between(trades, start, end)
    {
      if start >= end {
        BetweenEmpty(trades, start, end);
        return [];
      }
      var low := LowerBound(start);
      var high := LowerBound(end);
      BetweenIsSlice(trades, start, end, low, high);
      list := trades[low..high];
    }

    /** The market value loop over one position map. */
    method SumMarketValue(held: map<StockId, Position>, price: StockId -> real) returns (value: int)
      ensures value == MarketValue(cfg, held.Keys, held, price, 0)
    {
      hide RoundUnits, Value, Amount;
      var n := cfg.precision;
      value := 0;
      var rest := held.Keys;
      while rest != {}
        invariant rest <= held.Keys
        invariant MarketValue(cfg, rest, held, price, value) == MarketValue(cfg, held.Keys, held, price, 0)
        decreases |rest|
      {
        var id :| id in rest && forall k <- rest :: id <= k by { assert Least(rest) in rest; }
        assert id == Least(rest);
        value := RoundUnits(Value(value, n) + Amount(cfg, id, price(id), held[id].number), n);
        rest := rest - {id};
      }
    }

    method GetFunds(price: StockId -> real) returns (funds: FundsRecord)
      ensures funds == CurrentFunds(cfg, State().book, price)
      ensures Priced(cfg, positions, price) ==> funds.marketValue == Worths(cfg, positions.Keys, positions, price)
      ensures Priced(cfg, shorts, price) ==> funds.shortMarketValue == Worths(cfg, shorts.Keys, shorts, price)
    {
      hide MarketValue, Worths, Priced;
      var value := SumMarketValue(positions, price);
      var shortValue := SumMarketValue(shorts, price);
      var borrowAsset, rest := 0, borrowed;
      while rest.Keys != {}
        invariant borrowAsset + BorrowValue(rest) == BorrowValue(borrowed)
        decreases |rest|
      {
        var id :| id in rest && forall k <- rest :: id <= k by { assert Least(rest.Keys) in rest; }
        assert id == Least(rest.Keys);
        borrowAsset, rest := borrowAsset + rest[id].value, rest - {id};
      }
      if Priced(cfg, positions, price) {
        MarketValueIsSum(cfg, positions.Keys, positions, price, 0);
      }
      if Priced(cfg, shorts, price) {
        MarketValueIsSum(cfg, shorts.Keys, shorts, price, 0);
      }
      funds := FundsRecord(cash, value, shortValue, checkinCash - checkoutCash, checkinStock - checkoutStock,
                           borrowCash, borrowAsset);
    }

    /** The replay loop of the historical funds. */
    method ReplayFunds(d: int) returns (f: Rebuilt)
      ensures f == ReplayFrom(cfg, EMPTY, Upto(trades, d))
    {
      hide ReplayRecord, Upto;
      f := EMPTY;
      var i := 0;
      UptoStart(trades, d);
      while i < |trades| && trades[i].datetime <= d
        invariant 0 <= i <= |trades|
        invariant f == ReplayFrom(cfg, EMPTY, trades[..i])
        invariant Upto(trades, d) == trades[..i] + Upto(trades[i..], d)
      {
        UptoTurn(cfg, Cash, trades, i, d);
        assert Upto(trades, d) == trades[..i + 1] + Upto(trades[i + 1..], d);
        ReplayTurn(cfg, trades, i);
        f := ReplayRecord(cfg, f, trades[i]);
        i := i + 1;
      }
      UptoEnd(trades, i, d);
    }

    /** The last loop of the historical funds, over the holdings the replay has rebuilt. */
    method SumReplayedValue(m: map<StockId, real>, price: StockId -> real) returns (value: int)
      ensures value == ReplayedMarketValue(cfg, m.Keys, m, price, 0)
    {
      hide RoundUnits, Value, Amount, Truncated;
      var n := cfg.precision;
      value := 0;
      var rest := m.Keys;
      while rest != {}
        invariant rest <= m.Keys
        invariant ReplayedMarketValue(cfg, rest, m, price, value) == ReplayedMarketValue(cfg, m.Keys, m, price, 0)
        decreases |rest|
      {
        var id :| id in rest && forall k <- rest :: id <= k by { assert Least(rest) in rest; }
        assert id == Least(rest);
        var number := Truncated(m[id]);
        if number != 0.0 {
          value := RoundUnits(Value(value, n) + Amount(cfg, id, price(id), number), n);
        }
        rest := rest - {id};
      }
    }
  }

  /** The iteration has settled all stocks but those of `rest`. */
  ghost predicate PartlySettled(cfg: Config, held: map<StockId, Position>, rest: set<StockId>, s: Batch,
                                start: int, end: int)
  {
    && rest <= held.Keys == s.positions.Keys
    && (forall id <- held :: s.positions[id]
          == (if id in rest then held[id] else SettleStock(cfg, held[id], id, start, end).position))
    && s.bonus + SettleAll(cfg, rest, held, start, end).bonus == SettleAll(cfg, held.Keys, held, start, end).bonus
    && s.records + SettleAll(cfg, rest, held, start, end).records
       == SettleAll(cfg, held.Keys, held, start, end).records
  }

  lemma NoneSettled(cfg: Config, held: map<StockId, Position>, start: int, end: int)
    ensures PartlySettled(cfg, held, held.Keys, Batch(held, 0, []), start, end)
  {
    hide SettleAll, SettleStock;
    var all := SettleAll(cfg, held.Keys, held, start, end);
    assert [] + all.records == all.records;
  }

  lemma RestHeld(cfg: Config, held: map<StockId, Position>, rest: set<StockId>, s: Batch, start: int, end: int)
    requires PartlySettled(cfg, held, rest, s, start, end)
    ensures rest <= held.Keys
  {
  }

  lemma SettleLeast(cfg: Config, ids: set<StockId>, held: map<StockId, Position>, start: int, end: int, id: StockId)
    requires ids <= held.Keys && id in ids && forall k <- ids :: id <= k
    ensures var one := SettleStock(cfg, held[id], id, start, end);
            var all, more := SettleAll(cfg, ids, held, start, end), SettleAll(cfg, ids - {id}, held, start, end);
            all.bonus == one.bonus + more.bonus && all.records == one.records + more.records
  {
    hide SettleStock;
    assert id == Least(ids);
  }

  lemma SettledOneMore(cfg: Config, held: map<StockId, Position>, rest: set<StockId>, s: Batch, start: int, end: int,
                       id: StockId)
    requires PartlySettled(cfg, held, rest, s, start, end) && id in rest && forall k <- rest :: id <= k
    ensures id in held
    ensures var one := SettleStock(cfg, held[id], id, start, end);
            PartlySettled(cfg, held, rest - {id},
                          Batch(s.positions[id := one.position], s.bonus + one.bonus, s.records + one.records),
                          start, end)
  {
    hide SettleStock, SettleAll;
    SettleLeast(cfg, rest, held, start, end, id);
    var one := SettleStock(cfg, held[id], id, start, end);
    var more := SettleAll(cfg, rest - {id}, held, start, end);
    assert s.records + (one.records + more.records) == (s.records + one.records) + more.records;
  }

  lemma AllSettled(cfg: Config, held: map<StockId, Position>, s: Batch, start: int, end: int)
    requires PartlySettled(cfg, held, {}, s, start, end)
    ensures s == SettleAll(cfg, held.Keys, held, start, end)
  {
    hide SettleStock;
    assert SettleAll(cfg, {}, held, start, end) == Batch(held, 0, []);
    hide SettleAll;
    assert s.positions == SettleAll(cfg, held.Keys, held, start, end).positions;
    assert s.records + [] == s.records;
  }

  lemma LastOfAppend(x: seq<TradeRecord>, y: seq<TradeRecord>, otherwise: int)
    ensures LastOf(x + y, otherwise) == LastOf(y, LastOf(x, otherwise))
  {
    if y == [] {
      assert x + y == x;
    }
  }
}
