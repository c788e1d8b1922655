/**
 Exactly once, over whole runs.  While a stock is not traded, its position passes through every ex-rights event of the
 days that go by exactly once and in date order, whatever else the account does and however often it is settled.
 */
module Held {
  import opened Options
  import opened Calendar
  import opened Keys
  import opened Weights
  import opened Accounts
  import opened Plans
  import opened Meters
  import opened Settlement
  import opened Runs

  /** The operations that touch the long position of a stock. */
  predicate Trades(op: Op, id: StockId) {
    (op.OpCheckinStock? || op.OpCheckoutStock? || op.OpBuy? || op.OpSell?) && op.stock == Some(id)
  }

  predicate Touches(p: Posting, id: StockId) {
    (p.DoCheckinStock? || p.DoCheckoutStock? || p.DoBuy? || p.DoSell?) && p.id == id
  }

  lemma PlanOfOthers(cfg: Config, b: Book, op: Op, id: StockId)
    requires !Trades(op, id)
    ensures forall i :: 0 <= i < |Plan(cfg, b, op)| ==> !Touches(Plan(cfg, b, op)[i], id)
  {
    hide Update, Checkin, PostSell, PostBuyShort, Rounding.RoundUnits, Rounding.RoundUp, Rounding.RoundEx,
         Rounding.Value, Worth, PurchaseGap, ShortGap, TradableNumber, TradableQuantity;
  }

  /** `q` leaves the position in `id` and the events on record for it as `b` had them. */
  ghost predicate Leaves(b: Book, id: StockId, c: Book, log: seq<TradeRecord>) {
    && id in b.positions && id in c.positions && c.positions[id] == b.positions[id]
    && c.lastUpdate == b.lastUpdate && forall r <- log :: !Corporate(r, {id})
  }

  lemma PostingLeavesPosition(cfg: Config, b: Book, p: Posting, id: StockId)
    requires id in b.positions && !Touches(p, id) && !p.DoSettle?
    ensures var c := Do(cfg, b, p).book;
            id in c.positions && c.positions[id] == b.positions[id] && c.lastUpdate == b.lastUpdate
  {
    hide Update, Rounding.RoundUnits, Rounding.Value, Worth, ShortProceeds, WholeMoney, LoanReturnCost,
         StockReturnCost, ReturnedWorth, Fifo.TakeOldest, Fifo.Shortfall;
  }

  lemma PostingLeaves(cfg: Config, b: Book, p: Posting, id: StockId)
    requires id in b.positions && !Touches(p, id) && p.d <= b.lastUpdate
    ensures Leaves(b, id, Do(cfg, b, p).book, Do(cfg, b, p).log)
  {
    if p.DoSettle? {
      UpdateIdle(cfg, b, p.d);
    } else {
      hide Do, Touches;
      PostedKind(cfg, b, p);
      PostingLeavesPosition(cfg, b, p, id);
    }
  }

  lemma {:induction false} ExecuteLeaves(cfg: Config, b: Book, plan: seq<Posting>, id: StockId)
    requires id in b.positions
    requires forall i :: 0 <= i < |plan| ==> !Touches(plan[i], id) && plan[i].d <= b.lastUpdate
    ensures Leaves(b, id, Execute(cfg, b, plan).book, Execute(cfg, b, plan).log)
    decreases |plan|
  {
    hide Do, Corporate;
    if plan != [] {
      PostingLeaves(cfg, b, plan[0], id);
      ExecuteLeaves(cfg, Do(cfg, b, plan[0]).book, plan[1..], id);
    }
  }

  lemma ApplyLeaves(cfg: Config, b: Book, op: Op, id: StockId)
    requires id in b.positions && !Trades(op, id) && op.d <= b.lastUpdate
    ensures Leaves(b, id, Apply(cfg, b, op).book, Apply(cfg, b, op).log)
  {
    hide Apply, Plan, Execute, Leaves;
    OperationIsItsPlan(cfg, b, op);
    PlanOfOthers(cfg, b, op, id);
    PlanDates(cfg, b, op);
    ExecuteLeaves(cfg, b, Plan(cfg, b, op), id);
  }

  // ---------------------------------------------------------------------------------------------------------
  // The records of one stock in a settlement of all

  lemma StockRecordsOf(cfg: Config, p: Position, id: StockId, start: int, end: int, r: TradeRecord)
    requires !Corporate(r, {p.stock})
    ensures multiset(SettleStock(cfg, p, id, start, end).records)[r] == 0
  {
    SettleEventsKinds(cfg.precision, p, Window(cfg.weights(id), start, end));
    hide SettleEvents, Window, Corporate;
  }

  lemma {:induction false} BatchRecordsOf(cfg: Config, ids: set<StockId>, positions: map<StockId, Position>,
                                          start: int, end: int, id: StockId, r: TradeRecord)
    requires ids <= positions.Keys && (forall k <- ids :: positions[k].stock == k) && Corporate(r, {id})
    ensures multiset(SettleAll(cfg, ids, positions, start, end).records)[r]
         == if id in ids then multiset(SettleStock(cfg, positions[id], id, start, end).records)[r] else 0
    decreases |ids|
  {
    hide SettleStock;
    if ids != {} {
      var least := Least(ids);
      BatchRecordsOf(cfg, ids - {least}, positions, start, end, id, r);
      if least != id {
        StockRecordsOf(cfg, positions[least], least, start, end, r);
      }
    }
  }

  // ---------------------------------------------------------------------------------------------------------
  // Runs

  /** From `a` to `z` the position in `id` has been settled by the events of the days in between, each once and in
      order, and the log has gained exactly their records. */
  ghost predicate AppliedOnce(cfg: Config, id: StockId, a: Account, z: Account) {
    && id in a.book.positions && id in z.book.positions && a.book.lastUpdate <= z.book.lastUpdate
    && var days := Window(cfg.weights(id), NextDay(a.book.lastUpdate), NextDay(z.book.lastUpdate));
       var s := SettleEvents(cfg.precision, a.book.positions[id], days);
       && z.book.positions[id] == s.position
       && forall r: TradeRecord :: Corporate(r, {id}) ==>
            multiset(z.trades)[r] == multiset(a.trades)[r] + multiset(s.records)[r]
  }

  lemma NothingApplied(cfg: Config, id: StockId, a: Account, z: Account, log: seq<TradeRecord>)
    requires Leaves(a.book, id, z.book, log) && z.trades == a.trades + log
    ensures AppliedOnce(cfg, id, a, z)
  {
    EmptyWindow(cfg, a.book.positions[id], id, NextDay(a.book.lastUpdate));
    hide SettleEvents, Window, Corporate;
  }

  lemma AppliedInTurn(cfg: Config, id: StockId, a: Account, m: Account, z: Account)
    requires Environment(cfg) && AppliedOnce(cfg, id, a, m) && AppliedOnce(cfg, id, m, z)
    ensures AppliedOnce(cfg, id, a, z)
  {
    var p := a.book.positions[id];
    var start, middle, end := NextDay(a.book.lastUpdate), NextDay(m.book.lastUpdate), NextDay(z.book.lastUpdate);
    NextDayMonotone(a.book.lastUpdate, m.book.lastUpdate);
    NextDayMonotone(m.book.lastUpdate, z.book.lastUpdate);
    SettleStockSplit(cfg, p, id, start, middle, end);
    hide SettleEvents, Window, Corporate, Environment;
  }

  lemma SortedRecordsOf(cfg: Config, b: Book, d: int, id: StockId)
    requires Sorts(cfg) && Sound(b) && id in b.positions
    ensures var start, end := NextDay(b.lastUpdate), NextDay(d);
            var log := cfg.sort(SettleAll(cfg, b.positions.Keys, b.positions, start, end).records);
            forall r: TradeRecord :: Corporate(r, {id}) ==>
              multiset(log)[r] == multiset(SettleStock(cfg, b.positions[id], id, start, end).records)[r]
  {
    var start, end := NextDay(b.lastUpdate), NextDay(d);
    var batch := SettleAll(cfg, b.positions.Keys, b.positions, start, end).records;
    assert multiset(cfg.sort(batch)) == multiset(batch);
    assert forall k <- b.positions :: b.positions[k].stock == k;
    hide SettleAll, SettleStock, Corporate, Sorts, NextDay, Sound;
    forall r: TradeRecord | Corporate(r, {id})
      ensures multiset(batch)[r] == multiset(SettleStock(cfg, b.positions[id], id, start, end).records)[r]
    {
      BatchRecordsOf(cfg, b.positions.Keys, b.positions, start, end, id, r);
    }
  }

  lemma SettledOnce(cfg: Config, a: Account, d: int, id: StockId)
    requires Environment(cfg) && Quiet(cfg, a.book) && Sound(a.book) && a.book.lastUpdate < d && id in a.book.positions
    ensures AppliedOnce(cfg, id, a, SettledAt(cfg, a, d))
  {
    hide SettleEvents, Window, Corporate, Environment, Quiet, Sorts, Update, Apply, NextDay, Sound;
    SettleIsUpdate(cfg, a.book, d);
    QuietUpdateIs(cfg, a.book, d);
    EnvironmentSorts(cfg);
    SortedRecordsOf(cfg, a.book, d, id);
  }

  lemma StepOnce(cfg: Config, a: Account, op: Op, id: StockId)
    requires Environment(cfg) && Quiet(cfg, a.book) && Sound(a.book) && a.book.lastUpdate <= op.d
    requires id in a.book.positions && !Trades(op, id)
    ensures AppliedOnce(cfg, id, a, Step(cfg, a, op))
  {
    hide Environment, Quiet, Sound, Apply, Refused, SettlesFirst, AppliedOnce, Update;
    if Refused(cfg, a.book, op) {
      RefusedStep(cfg, a, op);
      assert a.trades + [] == a.trades;
      NothingApplied(cfg, id, a, a, []);
    } else {
      SettlesFirstInOrder(cfg, a.book, op);
      StepSettlesFirst(cfg, a, op);
      var m := SettledAt(cfg, a, op.d);
      SettleIsUpdate(cfg, a.book, op.d);
      UpdateReaches(cfg, a.book, op.d);
      UpdateOnlySettles(cfg, a.book, op.d);
      ApplyLeaves(cfg, m.book, op, id);
      NothingApplied(cfg, id, m, Step(cfg, m, op), Apply(cfg, m.book, op).log);
      if a.book.lastUpdate < op.d {
        SettledOnce(cfg, a, op.d, id);
        AppliedInTurn(cfg, id, a, m, Step(cfg, m, op));
      } else {
        UpdateIdle(cfg, a.book, op.d);
        assert a.trades + [] == a.trades;
      }
    }
  }

  /** Runs in date order leave nothing outstanding, and settle no further than their last operation. */
  lemma {:induction false} RunStaysQuiet(cfg: Config, a: Account, ops: seq<Op>)
    requires Environment(cfg) && Quiet(cfg, a.book) && Sound(a.book) && Chronological(ops, a.book.lastUpdate)
    ensures var z := Run(cfg, a, ops);
            Quiet(cfg, z.book) && Sound(z.book)
            && a.book.lastUpdate <= z.book.lastUpdate <= if ops == [] then a.book.lastUpdate else ops[|ops| - 1].d
    decreases |ops|
  {
    hide Environment, Quiet, Sound, Apply, Shown, Reading, Refused, Update;
    if ops != [] {
      var before, op := ops[..|ops| - 1], ops[|ops| - 1];
      RunStaysQuiet(cfg, a, before);
      var m := Run(cfg, a, before);
      EnvironmentSorts(cfg);
      OperationInOrder(cfg, m.book, op);
      OperationReads(cfg, Cash, m.book, op);
    }
  }

  lemma {:induction false} HeldThroughRun(cfg: Config, a: Account, ops: seq<Op>, id: StockId)
    requires Environment(cfg) && Quiet(cfg, a.book) && Sound(a.book) && Chronological(ops, a.book.lastUpdate)
    requires id in a.book.positions && forall op <- ops :: !Trades(op, id)
    ensures AppliedOnce(cfg, id, a, Run(cfg, a, ops))
    decreases |ops|
  {
    hide Environment, Quiet, Sound, Trades, Apply, AppliedOnce;
    if ops == [] {
      assert a.trades + [] == a.trades;
      NothingApplied(cfg, id, a, a, []);
    } else {
      var before, op := ops[..|ops| - 1], ops[|ops| - 1];
      HeldThroughRun(cfg, a, before, id);
      RunStaysQuiet(cfg, a, before);
      var m := Run(cfg, a, before);
      assert id in m.book.positions by { AppliedKeeps(cfg, id, a, m); }
      StepOnce(cfg, m, op, id);
      AppliedInTurn(cfg, id, a, m, Step(cfg, m, op));
    }
  }

  lemma AppliedKeeps(cfg: Config, id: StockId, a: Account, z: Account)
    requires AppliedOnce(cfg, id, a, z)
    ensures id in z.book.positions
  {
  }

  lemma ChronologicalParts(x: seq<Op>, y: seq<Op>, from: int)
    requires Chronological(x + y, from)
    ensures Chronological(x, from) && Chronological(y, if x == [] then from else x[|x| - 1].d)
  {
    var all := x + y;
    assert forall i :: 0 <= i < |x| ==> x[i] == all[i];
    assert forall i :: 0 <= i < |y| ==> y[i] == all[|x| + i];
    assert x == [] || x[|x| - 1] == all[|x| - 1];
  }

  lemma ChronologicalLater(ops: seq<Op>, from: int, earlier: int)
    requires Chronological(ops, from) && earlier <= from
    ensures Chronological(ops, earlier)
  {
  }

  /** Exactly once: take any run in date order and any stock held after it.  However the run goes on without trading
      that stock, and however often it settles on the way, the position has passed through every event of the days
      settled since exactly once, in date order, and the log has gained exactly the records of that passage. */
  lemma EachEventOnce(cfg: Config, d: int, initCash: real, before: seq<Op>, held: seq<Op>, id: StockId)
    requires Environment(cfg) && Chronological(before + held, d)
    requires id in Run(cfg, Opened(cfg, d, initCash), before).book.positions
    requires forall op <- held :: !Trades(op, id)
    ensures var start := Opened(cfg, d, initCash);
            AppliedOnce(cfg, id, Run(cfg, start, before), Run(cfg, start, before + held))
  {
    var start := Opened(cfg, d, initCash);
    QuietAtItsDate(cfg, start.book);
    OpenedExplained(cfg, d, initCash, Cash);
    assert start.book.lastUpdate == d;
    hide Environment, Quiet, Sound, Trades, Apply, Opened, AppliedOnce, Run, Chronological;
    ChronologicalParts(before, held, d);
    RunStaysQuiet(cfg, start, before);
    ChronologicalLater(held, if before == [] then d else before[|before| - 1].d,
                       Run(cfg, start, before).book.lastUpdate);
    HeldThroughRun(cfg, Run(cfg, start, before), held, id);
    RunAppend(cfg, start, before, held);
  }
}
