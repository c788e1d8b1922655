/**
 The base value of deposited and withdrawn stock, live and rebuilt.  The live account books withdrawals with the wrong
 sign.
 */
module StockBase {
  import opened Options
  import opened Rounding
  import opened Fifo
  import opened Accounts
  import opened Plans
  import opened Meters
  import opened Settlement
  import opened Replay

  ghost predicate UnitsNotNegative(cfg: Config) {
    forall id: StockId :: cfg.unit(id) >= 0.0
  }

  /** A deposit rounds the same on top of the running value as by itself; a withdrawal mirrors the live account. */
  lemma StockTotals(cfg: Config, g: int, r: TradeRecord)
    requires cfg.precision <= 9 && g >= 0
    requires r.stock.Some? && r.price > 0.0 && r.number > 0.0 && cfg.unit(r.stock.value) >= 0.0
    ensures StockTotal(cfg, g, r) == g + Worth(cfg, r.stock.value, r.price, r.number) >= 0
  {
    WorthNotNegative(r.price, r.number, cfg.unit(r.stock.value));
    assert Amount(cfg, r.stock.value, r.price, r.number) >= 0.0;
    hide RoundUnits, Value, Amount;
    RunningTotal(Amount(cfg, r.stock.value, r.price, r.number), g, cfg.precision);
  }

  lemma WorthNotNegative(price: real, number: real, unit: real)
    requires price > 0.0 && number > 0.0 && unit >= 0.0
    ensures price * number * unit >= 0.0
  {
    assert price * number > 0.0;
  }

  lemma UnitNotNegative(cfg: Config, id: StockId)
    requires UnitsNotNegative(cfg)
    ensures cfg.unit(id) >= 0.0
  {
  }

  function Deposit(cfg: Config, r: TradeRecord): int {
    if r.business == StockIn then RecordWorth(cfg, r) else 0
  }

  function Withdrawal(cfg: Config, r: TradeRecord): int {
    if r.business == StockOut then RecordWorth(cfg, r) else 0
  }

  /** The rounded worth of all deposited, and of all withdrawn stock of a log. */
  function Deposited(cfg: Config, log: seq<TradeRecord>): int {
    if log == [] then 0 else Deposited(cfg, log[..|log| - 1]) + Deposit(cfg, log[|log| - 1])
  }

  function Withdrawn(cfg: Config, log: seq<TradeRecord>): int {
    if log == [] then 0 else Withdrawn(cfg, log[..|log| - 1]) + Withdrawal(cfg, log[|log| - 1])
  }

  /** The running value of withdrawn stock, rounded after every withdrawal. */
  function RunningOut(cfg: Config, log: seq<TradeRecord>): int {
    if log == [] then 0
    else
      var total, r := RunningOut(cfg, log[..|log| - 1]), log[|log| - 1];
      if r.business == StockOut && r.stock.Some? then StockTotal(cfg, total, r) else total
  }

  /** A stock deposit or withdrawal names its stock and has a positive price and number. */
  predicate RealTransfer(r: TradeRecord) {
    r.business in {StockIn, StockOut} ==> r.stock.Some? && r.price > 0.0 && r.number > 0.0
  }

  ghost predicate RealTransfers(log: seq<TradeRecord>) {
    forall r <- log :: RealTransfer(r)
  }

  lemma TransferNotNegative(cfg: Config, r: TradeRecord)
    requires cfg.precision <= 9 && UnitsNotNegative(cfg) && RealTransfer(r)
    ensures Deposit(cfg, r) >= 0 && Withdrawal(cfg, r) >= 0
  {
    hide RoundUnits, Value, Amount;
    if r.business in {StockIn, StockOut} {
      UnitNotNegative(cfg, r.stock.value);
      StockTotals(cfg, 0, r);
      WorthOnZero(cfg, r);
    }
  }

  lemma WorthOnZero(cfg: Config, r: TradeRecord)
    requires cfg.precision <= 9 && r.stock.Some? && r.price > 0.0 && r.number > 0.0 && cfg.unit(r.stock.value) >= 0.0
    ensures Worth(cfg, r.stock.value, r.price, r.number) >= 0
  {
    WorthNotNegative(r.price, r.number, cfg.unit(r.stock.value));
    hide RoundUnits;
    RoundNonNegative(Amount(cfg, r.stock.value, r.price, r.number), cfg.precision);
  }

  lemma {:induction false} WithdrawnNotNegative(cfg: Config, log: seq<TradeRecord>)
    requires cfg.precision <= 9 && UnitsNotNegative(cfg) && RealTransfers(log)
    ensures Deposited(cfg, log) >= 0 && Withdrawn(cfg, log) >= 0
    ensures Withdrawn(cfg, log) == 0 <==> forall r <- log :: Withdrawal(cfg, r) == 0
  {
    hide Deposit, Withdrawal, UnitsNotNegative, RealTransfer;
    if log != [] {
      var front, r := log[..|log| - 1], log[|log| - 1];
      assert r in log;
      WithdrawnNotNegative(cfg, front);
      TransferNotNegative(cfg, r);
      assert forall x <- log :: x in front || x == r;
    }
  }

  lemma {:induction false} NoTransfers(cfg: Config, log: seq<TradeRecord>, more: seq<TradeRecord>)
    requires forall r <- more :: r.business !in {StockIn, StockOut}
    ensures Deposited(cfg, log + more) == Deposited(cfg, log) && RunningOut(cfg, log + more) == RunningOut(cfg, log)
    decreases |more|
  {
    hide StockTotal, RecordWorth;
    if more == [] {
      assert log + more == log;
    } else {
      assert (log + more)[..|log + more| - 1] == log + more[..|more| - 1];
      assert more[|more| - 1] in more;
      NoTransfers(cfg, log, more[..|more| - 1]);
    }
  }

  lemma {:induction false} ReplayedOut(cfg: Config, log: seq<TradeRecord>)
    ensures ReplayFrom(cfg, EMPTY, log).checkoutStock == RunningOut(cfg, log)
  {
    hide StockTotal, Added, Subtracted, Lent, GivenBack;
    if log != [] {
      ReplayedOut(cfg, log[..|log| - 1]);
    }
  }

  /** The replay loop adds deposits and withdrawals up on their own sides. */
  lemma {:induction false} ReplayedTransfers(cfg: Config, log: seq<TradeRecord>)
    requires cfg.precision <= 9 && UnitsNotNegative(cfg) && RealTransfers(log)
    ensures var f := ReplayFrom(cfg, EMPTY, log);
            f.checkinStock == Deposited(cfg, log) && f.checkoutStock == Withdrawn(cfg, log)
  {
    hide Deposit, Withdrawal, ReplayRecord, UnitsNotNegative, RealTransfer;
    if log != [] {
      var front, r := log[..|log| - 1], log[|log| - 1];
      assert r in log;
      ReplayedTransfers(cfg, front);
      WithdrawnNotNegative(cfg, front);
      ReplayedTransfer(cfg, ReplayFrom(cfg, EMPTY, front), r);
    }
  }

  lemma ReplayedTransfer(cfg: Config, f: Rebuilt, r: TradeRecord)
    requires cfg.precision <= 9 && UnitsNotNegative(cfg) && RealTransfer(r)
    requires f.checkinStock >= 0 && f.checkoutStock >= 0
    ensures var g := ReplayRecord(cfg, f, r);
            && g.checkinStock == f.checkinStock + Deposit(cfg, r)
            && g.checkoutStock == f.checkoutStock + Withdrawal(cfg, r)
  {
    hide StockTotal, Worth, Added, Subtracted, Lent, GivenBack;
    if r.business in {StockIn, StockOut} {
      UnitNotNegative(cfg, r.stock.value);
      hide UnitsNotNegative;
      StockTotals(cfg, f.checkinStock, r);
      StockTotals(cfg, f.checkoutStock, r);
    }
  }

  /** The live account books deposits as they are and withdrawals negated. */
  ghost predicate Transferred(cfg: Config, b: Book, log: seq<TradeRecord>) {
    b.checkinStock == Deposited(cfg, log) && b.checkoutStock == -RunningOut(cfg, log)
  }

  lemma OtherPostingTransfers(cfg: Config, b: Book, p: Posting)
    requires Sorts(cfg) && Sound(b) && !p.DoCheckinStock? && !p.DoCheckoutStock?
    ensures var q := Do(cfg, b, p);
            q.book.checkinStock == b.checkinStock && q.book.checkoutStock == b.checkoutStock
            && forall r <- q.log :: r.business !in {StockIn, StockOut}
  {
    if p.DoSettle? {
      UpdateOnlySettles(cfg, b, p.d);
      UpdateKinds(cfg, b, p.d);
      hide Update, Sorts;
    } else {
      PostedKind(cfg, b, p);
      hide Sorts;
      OtherTotals(cfg, b, p);
      hide Do;
    }
  }

  lemma OtherTotals(cfg: Config, b: Book, p: Posting)
    requires !p.DoSettle? && !p.DoCheckinStock? && !p.DoCheckoutStock?
    ensures Do(cfg, b, p).book.checkinStock == b.checkinStock && Do(cfg, b, p).book.checkoutStock == b.checkoutStock
  {
    hide RoundUnits, Value, Worth, ShortProceeds, WholeMoney, Amount, LoanReturnCost, StockReturnCost, ReturnedWorth,
         TakeOldest, Shortfall, Update, Covered;
  }

  /** Booked with the opposite sign, the running value is rounded alike. */
  lemma OppositeTotal(cfg: Config, g: int, r: TradeRecord)
    requires cfg.precision <= 9 && r.stock.Some?
    ensures RoundUnits(Value(-g, cfg.precision) - Amount(cfg, r.stock.value, r.price, r.number), cfg.precision)
         == -StockTotal(cfg, g, r)
  {
    var x := Amount(cfg, r.stock.value, r.price, r.number);
    assert Value(-g, cfg.precision) - x == -(Value(g, cfg.precision) + x);
    hide RoundUnits, Value, Amount;
    RoundOdd(Value(g, cfg.precision) + x, cfg.precision);
  }

  lemma OneTransfer(cfg: Config, log: seq<TradeRecord>, r: TradeRecord)
    ensures Deposited(cfg, log + [r]) == Deposited(cfg, log) + Deposit(cfg, r)
    ensures RunningOut(cfg, log + [r])
         == if r.business == StockOut && r.stock.Some? then StockTotal(cfg, RunningOut(cfg, log), r)
            else RunningOut(cfg, log)
  {
    hide Deposit, StockTotal;
    assert (log + [r])[..|log + [r]| - 1] == log;
  }

  lemma TransferPosts(cfg: Config, b: Book, log: seq<TradeRecord>, p: Posting)
    requires cfg.precision <= 9 && Transferred(cfg, b, log) && (p.DoCheckinStock? || p.DoCheckoutStock?)
    ensures Transferred(cfg, Do(cfg, b, p).book, log + Do(cfg, b, p).log)
  {
    var q := Do(cfg, b, p);
    hide Amount, Value, RoundUnits, PutPosition, StockTotal, Deposited, RunningOut;
    if q.log == [] {
      assert log + q.log == log;
    } else {
      var r := q.log[0];
      OneTransfer(cfg, log, r);
      OppositeTotal(cfg, RunningOut(cfg, log), r);
      hide Worth;
      assert q.log == [r];
      assert Transferred(cfg, q.book, log + [r]) by {
        TransferBooks(cfg, b, p);
      }
    }
  }

  lemma TransferBooks(cfg: Config, b: Book, p: Posting)
    requires p.DoCheckinStock? || p.DoCheckoutStock?
    ensures var q, x := Do(cfg, b, p), Amount(cfg, p.id, p.price, p.number);
            var worth := if p.DoCheckinStock? then Worth(cfg, p.id, p.price, p.number) else 0;
            q.log != [] ==>
              q.book.checkinStock == b.checkinStock + worth
              && q.book.checkoutStock
                 == (if p.DoCheckinStock? then b.checkoutStock
                     else RoundUnits(Value(b.checkoutStock, cfg.precision) - x, cfg.precision))
  {
    hide Amount, Value, RoundUnits, Worth;
  }

  lemma PostingTransfers(cfg: Config, b: Book, log: seq<TradeRecord>, p: Posting)
    requires Sorts(cfg) && cfg.precision <= 9 && Sound(b) && Transferred(cfg, b, log)
    ensures Transferred(cfg, Do(cfg, b, p).book, log + Do(cfg, b, p).log)
  {
    hide Sorts, Sound, Do;
    if p.DoCheckinStock? || p.DoCheckoutStock? {
      TransferPosts(cfg, b, log, p);
    } else {
      OtherPostingTransfers(cfg, b, p);
      NoTransfers(cfg, log, Do(cfg, b, p).log);
    }
  }

  lemma {:induction false} PlanTransfers(cfg: Config, b: Book, log: seq<TradeRecord>, plan: seq<Posting>)
    requires Sorts(cfg) && cfg.precision <= 9 && Sound(b) && Transferred(cfg, b, log) && AllChecked(cfg, b, plan)
    ensures Transferred(cfg, Execute(cfg, b, plan).book, log + Execute(cfg, b, plan).log)
    decreases |plan|
  {
    hide Sorts, Sound, Do, Checked, Transferred;
    if plan == [] {
      assert log + [] == log;
    } else {
      var q := Do(cfg, b, plan[0]);
      var rest := Execute(cfg, q.book, plan[1..]).log;
      PostingTransfers(cfg, b, log, plan[0]);
      PostingReads(cfg, Cash, b, plan[0]);
      PlanTransfers(cfg, q.book, log + q.log, plan[1..]);
      assert log + (q.log + rest) == log + q.log + rest;
    }
  }

  lemma {:induction false} RunTransfers(cfg: Config, d: int, initCash: real, ops: seq<Op>)
    requires Sorts(cfg) && cfg.precision <= 9
    ensures var a := Run(cfg, Opened(cfg, d, initCash), ops);
            Sound(a.book) && Transferred(cfg, a.book, a.trades)
    decreases |ops|
  {
    var start := Opened(cfg, d, initCash);
    if ops == [] {
      OpenedExplained(cfg, d, initCash, Cash);
      NoTransfers(cfg, [], start.trades);
      assert [] + start.trades == start.trades;
    } else {
      hide Opened, Sorts, Sound, Transferred, Apply, Plan, Execute, Shown, Reading;
      var before, op := ops[..|ops| - 1], ops[|ops| - 1];
      var a := Run(cfg, start, before);
      RunTransfers(cfg, d, initCash, before);
      OperationIsItsPlan(cfg, a.book, op);
      PlanTransfers(cfg, a.book, a.trades, Plan(cfg, a.book, op));
      OperationReads(cfg, Cash, a.book, op);
    }
  }

  /** The stock base over every run: the live account has the worth of the deposits, and adds the withdrawals it should
      subtract.  So when positive numbers are transferred, the live base is the rebuilt one and twice the worth of what
      was withdrawn, and the two agree exactly when no withdrawal on record was worth anything. */
  lemma RebuiltBases(cfg: Config, d: int, initCash: real, ops: seq<Op>)
    requires Sorts(cfg) && cfg.precision <= 9
    ensures var a := Run(cfg, Opened(cfg, d, initCash), ops);
            var f := ReplayFrom(cfg, EMPTY, a.trades);
            var live := a.book.checkinStock - a.book.checkoutStock;
            && a.book.checkoutStock == -f.checkoutStock && live == Deposited(cfg, a.trades) + f.checkoutStock
            && (UnitsNotNegative(cfg) && RealTransfers(a.trades) ==>
                  live == f.BaseAsset() + 2 * Withdrawn(cfg, a.trades)
                  && (live == f.BaseAsset()
                      <==> forall r <- a.trades :: r.business == StockOut ==> RecordWorth(cfg, r) == 0))
  {
    hide Run, Opened, Sorts, Sound, UnitsNotNegative, RecordWorth, ReplayFrom, RealTransfers, Deposited, Withdrawn,
         RunningOut;
    var a := Run(cfg, Opened(cfg, d, initCash), ops);
    RunTransfers(cfg, d, initCash, ops);
    ReplayedOut(cfg, a.trades);
    if UnitsNotNegative(cfg) && RealTransfers(a.trades) {
      ReplayedTransfers(cfg, a.trades);
      WithdrawnNotNegative(cfg, a.trades);
    }
  }

  /** One share of 10.00 deposited and withdrawn again: the live base is 20.00, the rebuilt one nothing. */
  lemma WithdrawalSplitsBases(cfg: Config, d: int)
    requires cfg.precision == 2 && cfg.unit(0) == 1.0
    ensures var ops := [OpCheckinStock(d, Some(0), 10.0, 1.0), OpCheckoutStock(d, Some(0), 10.0, 1.0)];
            var a := Run(cfg, Opened(cfg, d, 0.0), ops);
            a.book.checkinStock - a.book.checkoutStock == 2000
            && ReplayFrom(cfg, EMPTY, a.trades).BaseAsset() == 0
  {
    hide Step, Run, Opened, ReplayFrom;
    var x, y := OpCheckinStock(d, Some(0), 10.0, 1.0), OpCheckoutStock(d, Some(0), 10.0, 1.0);
    RunOfTwo(cfg, Opened(cfg, d, 0.0), x, y);
    TransferAndBack(cfg, d);
    ReplayOfTransfers(cfg, d, Opened(cfg, d, 0.0).trades[0]);
  }

  lemma TransferAndBack(cfg: Config, d: int)
    requires cfg.precision == 2 && cfg.unit(0) == 1.0
    ensures var start := Opened(cfg, d, 0.0);
            var a := Step(cfg, Step(cfg, start, OpCheckinStock(d, Some(0), 10.0, 1.0)),
                          OpCheckoutStock(d, Some(0), 10.0, 1.0));
            a.book.checkinStock == 1000 && a.book.checkoutStock == -1000
            && |start.trades| == 1 && start.trades[0].business == Init && start.trades[0].stock == None
            && a.trades == [start.trades[0], ShareRecord(StockIn, 0, d, 10.0, 1.0, 0),
                            ShareRecord(StockOut, 0, d, 10.0, 1.0, 0)]
  {
    TenIsAThousand(cfg);
    hide RoundUnits, Amount, Value;
    var start := Opened(cfg, d, 0.0);
    var r1 := ShareRecord(StockIn, 0, d, 10.0, 1.0, 0);
    var a := Step(cfg, start, OpCheckinStock(d, Some(0), 10.0, 1.0));
    assert a.trades == [start.trades[0], r1] && a.book.checkinStock == 1000 && a.book.checkoutStock == 0;
    assert a.book.lastUpdate == d == a.book.last && 0 in a.book.positions && a.book.positions[0].number == 1.0;
  }

  lemma ReplayOfTransfers(cfg: Config, d: int, init: TradeRecord)
    requires cfg.precision == 2 && cfg.unit(0) == 1.0 && init.business == Init && init.stock == None
    ensures var r1, r2 := ShareRecord(StockIn, 0, d, 10.0, 1.0, 0), ShareRecord(StockOut, 0, d, 10.0, 1.0, 0);
            ReplayFrom(cfg, EMPTY, [init, r1, r2]).BaseAsset() == 0
  {
    TenIsAThousand(cfg);
    hide RoundUnits, Amount, Value;
    var r1, r2 := ShareRecord(StockIn, 0, d, 10.0, 1.0, 0), ShareRecord(StockOut, 0, d, 10.0, 1.0, 0);
    ReplayOne(cfg, EMPTY, init);
    ReplayInTwo(cfg, EMPTY, [init], [r1]);
    ReplayInTwo(cfg, EMPTY, [init, r1], [r2]);
    ReplayOne(cfg, ReplayFrom(cfg, EMPTY, [init]), r1);
    ReplayOne(cfg, ReplayFrom(cfg, EMPTY, [init, r1]), r2);
    assert [init] + [r1] == [init, r1] && [init, r1] + [r2] == [init, r1, r2];
  }

  lemma TenIsAThousand(cfg: Config)
    requires cfg.precision == 2 && cfg.unit(0) == 1.0
    ensures Worth(cfg, 0, 10.0, 1.0) == 1000
    ensures RoundUnits(Value(0, 2) + Amount(cfg, 0, 10.0, 1.0), 2) == 1000
    ensures RoundUnits(Value(0, 2) - Amount(cfg, 0, 10.0, 1.0), 2) == -1000
  {
    assert Pow10(2) == 100.0;
    assert Amount(cfg, 0, 10.0, 1.0) == 10.0;
  }
}
