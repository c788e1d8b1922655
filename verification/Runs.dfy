/**
 Whole runs in date order: what one operation does in them, and that settling at every midnight instead of lazily leaves
 the same account.
 */
module Runs {
  import opened Calendar
  import opened Accounts
  import opened Plans
  import opened Settlement

  // ---------------------------------------------------------------------------------------------------------
  // One operation at its date

  /** What an operation checks before it settles. */
  predicate Refused(cfg: Config, b: Book, op: Op) {
    match op
    case OpSettle(d) => false
    case OpCheckin(d, cash) => cash <= 0.0 || d < b.last
    case OpCheckout(d, cash) => cash <= 0.0 || d < b.last
    case OpCheckinStock(d, stock, price, number) => stock.None? || number == 0.0 || price <= 0.0 || d < b.last
    case OpCheckoutStock(d, stock, price, number) => stock.None? || number == 0.0 || price <= 0.0 || d < b.last
    case OpBorrowCash(d, cash) => cash <= 0.0 || d < b.last
    case OpReturnCash(d, cash) =>
      cash <= 0.0 || d < b.last || b.loans == [] || d < b.loans[|b.loans| - 1].datetime
    case OpBorrowStock(d, stock, price, number) => stock.None? || d < b.last || number == 0.0 || price <= 0.0
    case OpReturnStock(d, stock, price, number) => stock.None? || d < b.last || number == 0.0 || price <= 0.0
    case OpBuy(d, stock, price, number) => stock.None? || d < b.last || !TradableNumber(cfg, stock.value, number)
    case OpSell(d, stock, price, q) =>
      stock.None? || d < b.last || !TradableQuantity(cfg, stock.value, q) || stock.value !in b.positions
    case OpSellShort(d, stock, price, number, stoploss) =>
      stock.None? || d < b.last || !TradableNumber(cfg, stock.value, number)
      || (stoploss != 0.0 && stoploss < price)
    case OpBuyShort(d, stock, price, q) =>
      stock.None? || d < b.last || !TradableQuantity(cfg, stock.value, q) || stock.value !in b.shorts
  }

  lemma RefusedDoesNothing(cfg: Config, b: Book, op: Op)
    requires Refused(cfg, b, op)
    ensures Apply(cfg, b, op).book == b && Apply(cfg, b, op).log == []
  {
  }

  lemma RefusedAfterUpdate(cfg: Config, b: Book, op: Op, e: int)
    requires b.last <= op.d && Update(cfg, b, e).book.last <= op.d
    ensures Refused(cfg, Update(cfg, b, e).book, op) == Refused(cfg, b, op)
  {
    UpdateOnlySettles(cfg, b, e);
    hide Update, TradableNumber, TradableQuantity;
  }

  ghost predicate SettlesFirst(cfg: Config, b: Book, op: Op) {
    var u := Update(cfg, b, op.d);
    var p, q := Apply(cfg, b, op), Apply(cfg, u.book, op);
    p.book == q.book && p.log == u.log + q.log
  }

  lemma BuySettlesFirst(cfg: Config, b: Book, op: Op)
    requires op.OpBuy? && !Refused(cfg, b, op) && !Refused(cfg, Update(cfg, b, op.d).book, op)
    requires Update(cfg, Update(cfg, b, op.d).book, op.d) == Done(Update(cfg, b, op.d).book, [])
    ensures SettlesFirst(cfg, b, op)
  {
    hide Update, TradableNumber, Finance, PostBuy;
    assert forall log: seq<TradeRecord> :: [] + log == log;
  }

  lemma SellSettlesFirst(cfg: Config, b: Book, op: Op)
    requires op.OpSell? && !Refused(cfg, b, op) && !Refused(cfg, Update(cfg, b, op.d).book, op)
    requires Update(cfg, Update(cfg, b, op.d).book, op.d) == Done(Update(cfg, b, op.d).book, [])
    ensures SettlesFirst(cfg, b, op)
  {
    hide Update, TradableQuantity, Repay, PostSell;
    assert forall log: seq<TradeRecord> :: [] + log == log;
  }

  lemma SellShortSettlesFirst(cfg: Config, b: Book, op: Op)
    requires op.OpSellShort? && !Refused(cfg, b, op) && !Refused(cfg, Update(cfg, b, op.d).book, op)
    requires Update(cfg, Update(cfg, b, op.d).book, op.d) == Done(Update(cfg, b, op.d).book, [])
    ensures SettlesFirst(cfg, b, op)
  {
    hide Update, TradableNumber, BorrowForShort, PostSellShort;
    assert forall log: seq<TradeRecord> :: [] + log == log;
  }

  lemma BuyShortSettlesFirst(cfg: Config, b: Book, op: Op)
    requires op.OpBuyShort? && !Refused(cfg, b, op) && !Refused(cfg, Update(cfg, b, op.d).book, op)
    requires Update(cfg, Update(cfg, b, op.d).book, op.d) == Done(Update(cfg, b, op.d).book, [])
    ensures SettlesFirst(cfg, b, op)
  {
    hide Update, TradableQuantity, ReturnStock, PostBuyShort;
    assert forall log: seq<TradeRecord> :: [] + log == log;
  }

  /** An operation is a settlement followed by the operation on the settled book. */
  lemma SettleFirst(cfg: Config, b: Book, op: Op)
    requires !Refused(cfg, b, op) && b.last <= op.d && Update(cfg, b, op.d).book.last <= op.d
    requires op.d <= Update(cfg, b, op.d).book.lastUpdate
    ensures SettlesFirst(cfg, b, op)
  {
    UpdateIdle(cfg, Update(cfg, b, op.d).book, op.d);
    RefusedAfterUpdate(cfg, b, op, op.d);
    hide Update;
    match op {
      case OpBuy(_, _, _, _) => BuySettlesFirst(cfg, b, op);
      case OpSell(_, _, _, _) => SellSettlesFirst(cfg, b, op);
      case OpSellShort(_, _, _, _, _) => SellShortSettlesFirst(cfg, b, op);
      case OpBuyShort(_, _, _, _) => BuyShortSettlesFirst(cfg, b, op);
      case _ =>
        hide PostCheckin, PostCheckout, PostCheckinStock, PostCheckoutStock, PostBorrowCash, PostReturnCash,
             PostBorrowStock, PostReturnStock;
        assert forall log: seq<TradeRecord> :: [] + log == log && log + [] == log;
    }
  }

  lemma PostingAt(cfg: Config, b: Book, p: Posting)
    requires p.d <= b.lastUpdate
    ensures var q := Do(cfg, b, p);
            q.book.lastUpdate == b.lastUpdate
            && (q.log == [] ==> q.book == b) && (q.log != [] ==> q.book.last == p.d)
            && forall r <- q.log :: r.datetime == p.d
  {
    hide Rounding.RoundUnits, Rounding.Value, LoanReturnCost, StockReturnCost, ReturnedWorth, WholeMoney;
  }

  lemma {:induction false} ExecuteAt(cfg: Config, b: Book, plan: seq<Posting>, d: int)
    requires d <= b.lastUpdate && forall i :: 0 <= i < |plan| ==> plan[i].d == d
    ensures var e := Execute(cfg, b, plan);
            e.book.lastUpdate == b.lastUpdate
            && (e.log == [] ==> e.book == b) && (e.log != [] ==> e.book.last == d)
            && forall r <- e.log :: r.datetime == d
    decreases |plan|
  {
    hide Do;
    if plan != [] {
      PostingAt(cfg, b, plan[0]);
      ExecuteAt(cfg, Do(cfg, b, plan[0]).book, plan[1..], d);
    }
  }

  lemma PlanDates(cfg: Config, b: Book, op: Op)
    ensures forall i :: 0 <= i < |Plan(cfg, b, op)| ==> Plan(cfg, b, op)[i].d == op.d
  {
    hide Update, Checkin, PostSell, PostBuyShort, Rounding.RoundUnits, Rounding.RoundUp, Rounding.RoundEx,
         Rounding.Value, Worth, PurchaseGap, ShortGap, TradableNumber, TradableQuantity;
  }

  /** On a book settled at its date, an operation does nothing or leaves the log at that date. */
  lemma ApplyAt(cfg: Config, b: Book, op: Op)
    requires op.d <= b.lastUpdate
    ensures var q := Apply(cfg, b, op);
            q.book.lastUpdate == b.lastUpdate
            && (q.log == [] ==> q.book == b) && (q.log != [] ==> q.book.last == op.d)
            && forall r <- q.log :: r.datetime == op.d
  {
    hide Apply, Plan, Execute;
    OperationIsItsPlan(cfg, b, op);
    PlanDates(cfg, b, op);
    ExecuteAt(cfg, b, Plan(cfg, b, op), op.d);
  }

  // ---------------------------------------------------------------------------------------------------------
  // Runs in date order

  /** Operation dates never go back, and start no earlier than `from`. */
  ghost predicate Chronological(ops: seq<Op>, from: int) {
    && (forall i :: 0 <= i < |ops| ==> from <= ops[i].d)
    && (forall i, j :: 0 <= i < j < |ops| ==> ops[i].d <= ops[j].d)
  }

  ghost predicate OwnRecordsAfter(settled: seq<TradeRecord>, log: seq<TradeRecord>, d: int) {
    settled <= log && forall r <- log[|settled|..] :: r.datetime == d
  }

  /** What one operation in date order does to a book with nothing outstanding: refused, or the settlement of the new
      days and then records at its own date. */
  lemma OperationInOrder(cfg: Config, b: Book, op: Op)
    requires Environment(cfg) && Quiet(cfg, b) && b.lastUpdate <= op.d
    ensures var p := Apply(cfg, b, op);
            Quiet(cfg, p.book) && b.lastUpdate <= p.book.lastUpdate <= op.d
            && (Refused(cfg, b, op) ==> p.book == b && p.log == [])
            && (!Refused(cfg, b, op) ==>
                  p.book.lastUpdate == op.d && OwnRecordsAfter(Update(cfg, b, op.d).log, p.log, op.d))
  {
    var u := Update(cfg, b, op.d);
    QuietUpdate(cfg, b, op.d);
    if Refused(cfg, b, op) {
      RefusedDoesNothing(cfg, b, op);
    } else {
      SettleFirst(cfg, b, op);
      ApplyAt(cfg, u.book, op);
      hide Apply, Update, Refused;
      var p, q := Apply(cfg, b, op), Apply(cfg, u.book, op);
      assert p.log == u.log + q.log;
      if q.log != [] {
        QuietAtItsDate(cfg, q.book);
      }
    }
  }

  lemma QuietAtItsDate(cfg: Config, b: Book)
    requires b.last == b.lastUpdate
    ensures Quiet(cfg, b)
  {
    forall id <- b.positions
      ensures SettleStock(cfg, b.positions[id], id, NextDay(b.last), NextDay(b.lastUpdate)).records == []
    {
      EmptyWindow(cfg, b.positions[id], id, NextDay(b.last));
    }
  }

  lemma {:induction false} RunAppend(cfg: Config, a: Account, x: seq<Op>, y: seq<Op>)
    ensures Run(cfg, a, x + y) == Run(cfg, Run(cfg, a, x), y)
    decreases |y|
  {
    hide Step;
    if y == [] {
      assert x + y == x;
    } else {
      assert (x + y)[..|x + y| - 1] == x + y[..|y| - 1];
      RunAppend(cfg, a, x, y[..|y| - 1]);
    }
  }

  // ---------------------------------------------------------------------------------------------------------
  // Lazy settlement is eager settlement

  /** The same account, up to the order of records of one date. */
  ghost predicate Alike(a: Account, c: Account) {
    a.book == c.book && multiset(a.trades) == multiset(c.trades)
  }

  ghost function SettledAt(cfg: Config, a: Account, d: int): Account {
    Step(cfg, a, OpSettle(d))
  }

  /** `c` is the account `a` settled further. */
  ghost predicate Ahead(cfg: Config, a: Account, c: Account) {
    a.book.lastUpdate <= c.book.lastUpdate && Alike(SettledAt(cfg, a, c.book.lastUpdate), c)
  }

  /** Settles at every midnight up to `d`, one day after the other. */
  ghost function SettleDaily(cfg: Config, a: Account, d: int): Account
    decreases d - a.book.lastUpdate
  {
    var next := NextDay(a.book.lastUpdate);
    if next > d then a
    else
      UpdateReaches(cfg, a.book, next);
      SettleDaily(cfg, SettledAt(cfg, a, next), d)
  }

  lemma UpdateReaches(cfg: Config, b: Book, d: int)
    ensures Update(cfg, b, d).book.lastUpdate == if d <= b.lastUpdate then b.lastUpdate else d
    ensures b.lastUpdate < NextDay(b.lastUpdate)
  {
  }

  /** A run that settles at every midnight before each of its operations. */
  ghost function EagerRun(cfg: Config, a: Account, ops: seq<Op>): Account {
    if ops == [] then a
    else
      var op := ops[|ops| - 1];
      Step(cfg, SettleDaily(cfg, EagerRun(cfg, a, ops[..|ops| - 1]), op.d), op)
  }

  lemma AheadSettles(cfg: Config, a: Account, c: Account, d: int)
    requires Environment(cfg) && Quiet(cfg, a.book) && Ahead(cfg, a, c) && c.book.lastUpdate <= d
    ensures Quiet(cfg, c.book) && Alike(SettledAt(cfg, a, d), SettledAt(cfg, c, d))
    ensures Ahead(cfg, a, SettledAt(cfg, c, d))
  {
    hide Environment, Quiet;
    var e := c.book.lastUpdate;
    QuietUpdate(cfg, a.book, e);
    UpdateTwice(cfg, a.book, e, d);
    UpdateReaches(cfg, c.book, d);
    hide Update;
    var u, v, w := Update(cfg, a.book, e), Update(cfg, c.book, d), Update(cfg, a.book, d);
    assert u.book == c.book;
    assert multiset(c.trades + v.log) == multiset(a.trades + u.log) + multiset(v.log);
    assert multiset(a.trades + w.log) == multiset(a.trades) + multiset(u.log) + multiset(v.log);
  }

  lemma {:induction false} AheadSettlesDaily(cfg: Config, a: Account, c: Account, d: int)
    requires Environment(cfg) && Quiet(cfg, a.book) && Ahead(cfg, a, c)
    ensures var f := SettleDaily(cfg, c, d);
            Quiet(cfg, f.book) && Ahead(cfg, a, f)
            && f.book.lastUpdate <= (if c.book.lastUpdate <= d then d else c.book.lastUpdate)
    decreases d - c.book.lastUpdate
  {
    hide Environment, Quiet, Ahead, NextDay;
    AheadSettles(cfg, a, c, c.book.lastUpdate);
    var next := NextDay(c.book.lastUpdate);
    UpdateReaches(cfg, c.book, next);
    if next <= d {
      AheadSettles(cfg, a, c, next);
      AheadSettlesDaily(cfg, a, SettledAt(cfg, c, next), d);
    }
  }

  lemma AheadRefuses(cfg: Config, a: Account, c: Account, op: Op)
    requires Environment(cfg) && Quiet(cfg, a.book) && Ahead(cfg, a, c) && c.book.lastUpdate <= op.d
    ensures Refused(cfg, c.book, op) == Refused(cfg, a.book, op)
  {
    SettleIsUpdate(cfg, a.book, c.book.lastUpdate);
    hide Refused, Update, Environment, Apply, SettleStock;
    QuietUpdate(cfg, a.book, c.book.lastUpdate);
    RefusedAfterUpdate(cfg, a.book, op, c.book.lastUpdate);
  }

  lemma SettlesFirstInOrder(cfg: Config, b: Book, op: Op)
    requires Environment(cfg) && Quiet(cfg, b) && b.lastUpdate <= op.d && !Refused(cfg, b, op)
    ensures SettlesFirst(cfg, b, op)
  {
    hide Refused, Update, Environment, SettlesFirst;
    QuietIsOrdered(cfg, b);
    QuietUpdate(cfg, b, op.d);
    SettleFirst(cfg, b, op);
  }

  lemma AheadApplies(cfg: Config, a: Account, c: Account, op: Op)
    requires Environment(cfg) && Quiet(cfg, a.book) && Ahead(cfg, a, c) && c.book.lastUpdate <= op.d
    ensures Ahead(cfg, Step(cfg, a, op), Step(cfg, c, op)) && Quiet(cfg, Step(cfg, a, op).book)
    ensures Step(cfg, c, op).book.lastUpdate <= op.d
  {
    assert a.book.lastUpdate <= c.book.lastUpdate;
    hide Refused, Environment, Quiet, Apply, Ahead, SettlesFirst, Alike, SettledAt;
    AheadSettles(cfg, a, c, op.d);
    OperationInOrder(cfg, a.book, op);
    OperationInOrder(cfg, c.book, op);
    AheadRefuses(cfg, a, c, op);
    if Refused(cfg, a.book, op) {
      RefusedStep(cfg, a, op);
      RefusedStep(cfg, c, op);
    } else {
      SettlesFirstInOrder(cfg, a.book, op);
      SettlesFirstInOrder(cfg, c.book, op);
      StepSettlesFirst(cfg, a, op);
      StepSettlesFirst(cfg, c, op);
      AlikeSteps(cfg, SettledAt(cfg, a, op.d), SettledAt(cfg, c, op.d), op);
      AlikeIsAhead(cfg, Step(cfg, a, op), Step(cfg, c, op));
    }
  }

  lemma RefusedStep(cfg: Config, a: Account, op: Op)
    requires Refused(cfg, a.book, op)
    ensures Step(cfg, a, op) == a
  {
    hide Refused, Apply;
    RefusedDoesNothing(cfg, a.book, op);
    assert a.trades + [] == a.trades;
  }

  /** A step is the same step taken from the settled account. */
  lemma StepSettlesFirst(cfg: Config, a: Account, op: Op)
    requires SettlesFirst(cfg, a.book, op)
    ensures Step(cfg, a, op) == Step(cfg, SettledAt(cfg, a, op.d), op)
  {
    SettleIsUpdate(cfg, a.book, op.d);
    hide Apply, Update;
    var u := Update(cfg, a.book, op.d);
    var own := Apply(cfg, u.book, op).log;
    assert a.trades + (u.log + own) == (a.trades + u.log) + own;
  }

  lemma AlikeSteps(cfg: Config, a: Account, c: Account, op: Op)
    requires Alike(a, c)
    ensures Alike(Step(cfg, a, op), Step(cfg, c, op))
  {
    hide Apply;
  }

  lemma SettleIsUpdate(cfg: Config, b: Book, d: int)
    ensures Apply(cfg, b, OpSettle(d)) == Update(cfg, b, d)
  {
  }

  lemma AlikeIsAhead(cfg: Config, a: Account, c: Account)
    requires Alike(a, c)
    ensures Ahead(cfg, a, c)
  {
    UpdateIdle(cfg, a.book, a.book.lastUpdate);
    SettleIsUpdate(cfg, a.book, a.book.lastUpdate);
    assert a.trades + [] == a.trades;
  }

  lemma {:induction false} EagerRunIsAhead(cfg: Config, a: Account, ops: seq<Op>)
    requires Environment(cfg) && Quiet(cfg, a.book) && Chronological(ops, a.book.lastUpdate)
    ensures var x, y := Run(cfg, a, ops), EagerRun(cfg, a, ops);
            Quiet(cfg, x.book) && Ahead(cfg, x, y)
            && y.book.lastUpdate <= if ops == [] then a.book.lastUpdate else ops[|ops| - 1].d
    decreases |ops|
  {
    hide Environment, Quiet, Ahead;
    if ops == [] {
      AlikeIsAhead(cfg, a, a);
    } else {
      var before, op := ops[..|ops| - 1], ops[|ops| - 1];
      EagerRunIsAhead(cfg, a, before);
      var x, y := Run(cfg, a, before), EagerRun(cfg, a, before);
      AheadSettlesDaily(cfg, x, y, op.d);
      AheadApplies(cfg, x, SettleDaily(cfg, y, op.d), op);
    }
  }

  /** Lazy is eager: over any run in date order, settling at every midnight and settling only when needed lead to
      accounts that are alike once both are settled at one date. */
  lemma LazyIsEager(cfg: Config, d: int, initCash: real, ops: seq<Op>, end: int)
    requires Environment(cfg) && Chronological(ops + [OpSettle(end)], d)
    ensures var start := Opened(cfg, d, initCash);
            Alike(SettledAt(cfg, Run(cfg, start, ops), end), SettledAt(cfg, EagerRun(cfg, start, ops), end))
  {
    var start := Opened(cfg, d, initCash);
    var all := ops + [OpSettle(end)];
    QuietAtItsDate(cfg, start.book);
    assert forall i :: 0 <= i < |ops| ==> ops[i] == all[i];
    assert all[|ops|].d == end;
    hide Environment, Quiet, Ahead, Opened;
    EagerRunIsAhead(cfg, start, ops);
    AheadSettles(cfg, Run(cfg, start, ops), EagerRun(cfg, start, ops), end);
  }
}
