/**
 What borrowed shares are carried at: the rounded worth of the lots owed, but for what rounding makes of the lots that
 returns have cut in two.
 */
module BorrowValues {
  import opened Rounding
  import opened Fifo
  import opened Accounts
  import opened Plans
  import opened Meters
  import opened Queues

  function LotWorths(cfg: Config, id: StockId, lots: seq<Lot>): int {
    if lots == [] then 0 else Worth(cfg, id, lots[0].price, lots[0].number) + LotWorths(cfg, id, lots[1..])
  }

  /** By how much the two pieces of a lot cut at `n` round to more than the lot. */
  function CutGap(cfg: Config, id: StockId, lot: Lot, n: real): int {
    Worth(cfg, id, lot.price, n) + Worth(cfg, id, lot.price, lot.number - n) - Worth(cfg, id, lot.price, lot.number)
  }

  /** The gap of the lot a return of `n` shares ends in; none when it ends between two lots. */
  function ReturnGap(cfg: Config, id: StockId, lots: seq<Lot>, n: real): int {
    if lots == [] || n == lots[0].number then 0
    else if n < lots[0].number then CutGap(cfg, id, lots[0], n)
    else ReturnGap(cfg, id, lots[1..], n - lots[0].number)
  }

  lemma AmountNotNegative(cfg: Config, id: StockId, price: real, number: real)
    requires cfg.unit(id) >= 0.0 && price >= 0.0 && number >= 0.0
    ensures Amount(cfg, id, price, number) >= 0.0
  {
    assert price * number >= 0.0;
  }

  /** What a return takes off the carried value: the worth of the lots it takes, and the gap of the lot it cuts. */
  lemma {:induction false} ReturnedWorthIs(cfg: Config, id: StockId, lots: seq<Lot>, n: real, acc: int)
    requires cfg.precision <= 9 && cfg.unit(id) >= 0.0 && forall q <- lots :: q.price >= 0.0 && q.number >= 0.0
    requires lots != [] && 0.0 <= n <= Total(lots) && acc >= 0
    ensures ReturnedWorth(cfg, id, lots, n, acc)
         == acc + LotWorths(cfg, id, lots) - LotWorths(cfg, id, TakeOldest(lots, n)) + ReturnGap(cfg, id, lots, n)
    decreases |lots|
  {
    hide Amount, RoundUnits, Value;
    var lot := lots[0];
    if n <= lot.number {
      AmountNotNegative(cfg, id, lot.price, n);
      RunningTotal(Amount(cfg, id, lot.price, n), acc, cfg.precision);
    } else {
      AmountNotNegative(cfg, id, lot.price, lot.number);
      RunningTotal(Amount(cfg, id, lot.price, lot.number), acc, cfg.precision);
      ReturnedWorthIs(cfg, id, lots[1..], n - lot.number, acc + Worth(cfg, id, lot.price, lot.number));
    }
  }

  lemma RoundedPieces(x: real, y: real, n: nat)
    requires n <= 9 && x >= 0.0 && y >= 0.0
    ensures -1 <= RoundUnits(x, n) + RoundUnits(y, n) - RoundUnits(x + y, n) <= 1
  {
    BiasBounds(n);
    assert Scale(x + y, n) == Scale(x, n) + Scale(y, n);
    SignOfScaled(x, n);
    SignOfScaled(y, n);
    hide Scale, Bias;
    var a, c, h := Scale(x, n), Scale(y, n), 0.5 + Bias(n);
    assert a >= 0.0 && c >= 0.0;
    assert RoundUnits(x, n) == (a + 0.5 + Bias(n)).Floor && RoundUnits(y, n) == (c + 0.5 + Bias(n)).Floor;
  }

  /** A gap is a unit of money at most. */
  lemma GapIsSmall(cfg: Config, id: StockId, lot: Lot, n: real)
    requires cfg.precision <= 9 && cfg.unit(id) >= 0.0 && lot.price >= 0.0 && 0.0 <= n <= lot.number
    ensures -1 <= CutGap(cfg, id, lot, n) <= 1
  {
    AmountNotNegative(cfg, id, lot.price, n);
    AmountNotNegative(cfg, id, lot.price, lot.number - n);
    var x, y := Amount(cfg, id, lot.price, n), Amount(cfg, id, lot.price, lot.number - n);
    assert Amount(cfg, id, lot.price, lot.number) == x + y by {
      assert lot.price * lot.number == lot.price * n + lot.price * (lot.number - n);
    }
    hide Amount, RoundUnits;
    RoundedPieces(x, y, cfg.precision);
  }

  lemma {:induction false} ReturnGapIsSmall(cfg: Config, id: StockId, lots: seq<Lot>, n: real)
    requires cfg.precision <= 9 && cfg.unit(id) >= 0.0 && forall q <- lots :: q.price >= 0.0 && q.number >= 0.0
    requires 0.0 <= n
    ensures -1 <= ReturnGap(cfg, id, lots, n) <= 1
    decreases |lots|
  {
    hide CutGap;
    if lots != [] {
      if n < lots[0].number {
        GapIsSmall(cfg, id, lots[0], n);
      } else if n > lots[0].number {
        ReturnGapIsSmall(cfg, id, lots[1..], n - lots[0].number);
      }
    }
  }

  /** How far the carried value of a borrow record is from the worth of its lots. */
  function Drift(cfg: Config, id: StockId, r: BorrowRecord): int {
    r.value - LotWorths(cfg, id, r.lots)
  }

  /** The carried value of borrowed shares is the worth of the lots owed, up to the gaps of the lots returns have cut:
      an accepted return moves it off by exactly the gap of its own cut, a unit of money at most. */
  lemma ReturnDrifts(cfg: Config, b: Book, d: int, id: StockId, price: real, number: real)
    requires cfg.precision <= 9 && cfg.unit(id) >= 0.0 && Sound(b) && 0.0 <= number
    requires id in b.borrowed && forall q <- b.borrowed[id].lots :: q.price >= 0.0 && q.number >= 0.0
    ensures var c, r := PostReturnStock(cfg, b, d, id, price, number).book, b.borrowed[id];
            id in c.borrowed ==>
              Drift(cfg, id, c.borrowed[id])
              == Drift(cfg, id, r) - if number <= r.number then ReturnGap(cfg, id, r.lots, number) else 0
    ensures -1 <= ReturnGap(cfg, id, b.borrowed[id].lots, number) <= 1
  {
    ReturnGapIsSmall(cfg, id, b.borrowed[id].lots, number);
    hide ReturnedWorth, TakeOldest, LotWorths, ReturnGap, StockReturnCost, Total;
    var r := b.borrowed[id];
    if number <= r.number {
      ReturnedWorthIs(cfg, id, r.lots, number, 0);
    }
  }

  lemma {:induction false} LotWorthsAppend(cfg: Config, id: StockId, lots: seq<Lot>, lot: Lot)
    ensures LotWorths(cfg, id, lots + [lot]) == LotWorths(cfg, id, lots) + Worth(cfg, id, lot.price, lot.number)
  {
    hide Worth;
    if lots == [] {
      assert lots + [lot] == [lot];
    } else {
      assert (lots + [lot])[1..] == lots[1..] + [lot];
      LotWorthsAppend(cfg, id, lots[1..], lot);
    }
  }

  /** A borrowing does not move it. */
  lemma BorrowDoesNotDrift(cfg: Config, b: Book, d: int, id: StockId, price: real, number: real)
    ensures var c := PostBorrowStock(cfg, b, d, id, price, number).book;
            Drift(cfg, id, c.borrowed[id]) == if id in b.borrowed then Drift(cfg, id, b.borrowed[id]) else 0
  {
    hide Worth, LotWorths;
    var lots := if id in b.borrowed then b.borrowed[id].lots else [];
    LotWorthsAppend(cfg, id, lots, Lot(d, price, number));
    assert [] + [Lot(d, price, number)] == [Lot(d, price, number)];
    assert LotWorths(cfg, id, []) == 0 by { EmptyWorth(cfg, id); }
  }

  lemma EmptyWorth(cfg: Config, id: StockId)
    ensures LotWorths(cfg, id, []) == 0
  {
  }

  // ---------------------------------------------------------------------------------------------------------
  // Runs

  /** The gaps of the returns on record, since the stock was last not owed at all. */
  function Gaps(cfg: Config, id: StockId, log: seq<TradeRecord>): int {
    if log == [] then 0
    else
      var front, r := log[..|log| - 1], log[|log| - 1];
      var q := QueueOf(ShareLine(id), front);
      if !Returns(ShareLine(id), r) then Gaps(cfg, id, front)
      else if TakeOldest(q, r.number) == [] then 0
      else Gaps(cfg, id, front) + ReturnGap(cfg, id, q, r.number)
  }

  ghost predicate PositiveLots(b: Book, id: StockId) {
    id in b.borrowed ==> forall q <- b.borrowed[id].lots :: q.price > 0.0 && q.number > 0.0
  }

  ghost predicate Carried(cfg: Config, b: Book, id: StockId, log: seq<TradeRecord>) {
    && InLine(ShareLine(id), b, log) && PositiveLots(b, id)
    && Gaps(cfg, id, log) == if id in b.borrowed then -Drift(cfg, id, b.borrowed[id]) else 0
  }

  lemma {:induction false} NoGaps(cfg: Config, id: StockId, log: seq<TradeRecord>, more: seq<TradeRecord>)
    requires forall r <- more :: Passes(ShareLine(id), r)
    ensures Gaps(cfg, id, log + more) == Gaps(cfg, id, log)
    decreases |more|
  {
    hide ReturnGap;
    if more == [] {
      assert log + more == log;
    } else {
      assert (log + more)[..|log + more| - 1] == log + more[..|more| - 1];
      assert more[|more| - 1] in more;
      NoGaps(cfg, id, log, more[..|more| - 1]);
    }
  }

  lemma OneGap(cfg: Config, id: StockId, log: seq<TradeRecord>, r: TradeRecord)
    ensures var q := QueueOf(ShareLine(id), log);
            Gaps(cfg, id, log + [r])
            == if !Returns(ShareLine(id), r) then Gaps(cfg, id, log)
               else if TakeOldest(q, r.number) == [] then 0 else Gaps(cfg, id, log) + ReturnGap(cfg, id, q, r.number)
  {
    hide ReturnGap, TakeOldest, QueueOf;
    assert (log + [r])[..|log + [r]| - 1] == log;
  }

  lemma {:induction false} TakeOldestPriced(q: seq<Lot>, n: real)
    requires forall lot <- q :: lot.price > 0.0 && lot.number > 0.0
    ensures forall lot <- TakeOldest(q, n) :: lot.price > 0.0 && lot.number > 0.0
  {
    if q != [] && n > q[0].number {
      TakeOldestPriced(q[1..], n - q[0].number);
    }
  }

  predicate Worthwhile(cfg: Config, id: StockId) {
    cfg.precision <= 9 && cfg.unit(id) >= 0.0
  }

  lemma BorrowCarries(cfg: Config, b: Book, p: Posting, id: StockId, log: seq<TradeRecord>)
    requires Carried(cfg, b, id, log) && p.DoBorrowStock? && p.id == id && Checked(cfg, b, p)
    requires InLine(ShareLine(id), Do(cfg, b, p).book, log + Do(cfg, b, p).log) && AllReal(id, Do(cfg, b, p).log)
    ensures Carried(cfg, Do(cfg, b, p).book, id, log + Do(cfg, b, p).log)
  {
    hide InLine, Drift, Worth, Gaps;
    var q := Do(cfg, b, p);
    assert q.log == [q.log[0]] && q.log[0] in q.log;
    BorrowDoesNotDrift(cfg, b, p.d, id, p.price, p.number);
    OneGap(cfg, id, log, q.log[0]);
  }

  lemma ReturnCarries(cfg: Config, b: Book, p: Posting, id: StockId, log: seq<TradeRecord>)
    requires Worthwhile(cfg, id) && Sound(b) && Carried(cfg, b, id, log) && p.DoReturnStock? && p.id == id
    requires InLine(ShareLine(id), Do(cfg, b, p).book, log + Do(cfg, b, p).log) && AllReal(id, Do(cfg, b, p).log)
    ensures Carried(cfg, Do(cfg, b, p).book, id, log + Do(cfg, b, p).log)
  {
    hide Drift, Gaps, TakeOldest, Total, QueueOf, Owed, ReturnGap, StockReturnCost, ReturnedWorth;
    var q := Do(cfg, b, p);
    if q.log == [] {
      assert log + q.log == log;
    } else {
      assert q.log == [q.log[0]] && q.log[0] in q.log;
      TakeOldestPriced(b.borrowed[id].lots, p.number);
      ReturnDrifts(cfg, b, p.d, id, p.price, p.number);
      OneGap(cfg, id, log, q.log[0]);
    }
  }

  lemma OthersCarry(cfg: Config, b: Book, p: Posting, id: StockId, log: seq<TradeRecord>)
    requires Sorts(cfg) && Sound(b) && Carried(cfg, b, id, log)
    requires !((p.DoBorrowStock? || p.DoReturnStock?) && p.id == id)
    requires InLine(ShareLine(id), Do(cfg, b, p).book, log + Do(cfg, b, p).log)
    ensures Carried(cfg, Do(cfg, b, p).book, id, log + Do(cfg, b, p).log)
  {
    OthersPass(cfg, b, p, id);
    OthersKeep(cfg, b, p, id);
    hide Do, InLine, Drift, Gaps, Sorts, Sound, Passes;
    NoGaps(cfg, id, log, Do(cfg, b, p).log);
  }

  lemma OthersPass(cfg: Config, b: Book, p: Posting, id: StockId)
    requires Sorts(cfg) && Sound(b) && !((p.DoBorrowStock? || p.DoReturnStock?) && p.id == id)
    ensures forall r <- Do(cfg, b, p).log :: Passes(ShareLine(id), r)
  {
    hide Sorts, Sound;
    if !TouchesQueues(p) {
      hide Do, Passes;
      OtherPostingRecords(cfg, ShareLine(id), b, p);
    } else {
      hide RoundUnits, Worth, LoanReturnCost, StockReturnCost, ReturnedWorth, TakeOldest, Shortfall;
    }
  }

  lemma OthersKeep(cfg: Config, b: Book, p: Posting, id: StockId)
    requires !((p.DoBorrowStock? || p.DoReturnStock?) && p.id == id)
    ensures var c := Do(cfg, b, p).book;
            (id in c.borrowed <==> id in b.borrowed) && (id in b.borrowed ==> c.borrowed[id] == b.borrowed[id])
  {
    if !TouchesQueues(p) {
      hide Do;
      OtherPostingKeepsQueues(cfg, b, p);
    } else {
      hide RoundUnits, Worth, LoanReturnCost, StockReturnCost, ReturnedWorth, TakeOldest, Shortfall;
    }
  }

  lemma PostingCarries(cfg: Config, b: Book, p: Posting, id: StockId, log: seq<TradeRecord>)
    requires Sorts(cfg) && Worthwhile(cfg, id) && Sound(b) && Carried(cfg, b, id, log) && Checked(cfg, b, p)
    requires AllReal(id, Do(cfg, b, p).log)
    ensures Carried(cfg, Do(cfg, b, p).book, id, log + Do(cfg, b, p).log)
  {
    CarriedInLine(cfg, b, id, log);
    hide Sorts, Sound, Carried, Do, Checked, InLine, AllReal, Worthwhile;
    PostingInLine(cfg, ShareLine(id), b, log, p);
    if p.DoBorrowStock? && p.id == id {
      BorrowCarries(cfg, b, p, id, log);
    } else if p.DoReturnStock? && p.id == id {
      ReturnCarries(cfg, b, p, id, log);
    } else {
      OthersCarry(cfg, b, p, id, log);
    }
  }

  lemma CarriedInLine(cfg: Config, b: Book, id: StockId, log: seq<TradeRecord>)
    requires Carried(cfg, b, id, log)
    ensures InLine(ShareLine(id), b, log)
  {
  }

  lemma {:induction false} PlanCarries(cfg: Config, b: Book, plan: seq<Posting>, id: StockId, log: seq<TradeRecord>)
    requires Sorts(cfg) && Worthwhile(cfg, id) && Sound(b) && Carried(cfg, b, id, log) && AllChecked(cfg, b, plan)
    requires AllReal(id, Execute(cfg, b, plan).log)
    ensures Carried(cfg, Execute(cfg, b, plan).book, id, log + Execute(cfg, b, plan).log)
    decreases |plan|
  {
    hide Sorts, Sound, Carried, Do, Checked, AllReal, Worthwhile;
    if plan == [] {
      assert log + [] == log;
    } else {
      var q := Do(cfg, b, plan[0]);
      var rest := Execute(cfg, q.book, plan[1..]).log;
      RealParts(id, q.log, rest);
      PostingCarries(cfg, b, plan[0], id, log);
      PostingReads(cfg, Cash, b, plan[0]);
      PlanCarries(cfg, q.book, plan[1..], id, log + q.log);
      assert log + (q.log + rest) == log + q.log + rest;
    }
  }

  lemma OpenedCarries(cfg: Config, d: int, initCash: real, id: StockId)
    ensures Sound(Opened(cfg, d, initCash).book)
    ensures Carried(cfg, Opened(cfg, d, initCash).book, id, Opened(cfg, d, initCash).trades)
  {
    var start := Opened(cfg, d, initCash);
    OpenedExplained(cfg, d, initCash, Cash);
    NothingTurned(ShareLine(id), [], start.trades);
    NoGaps(cfg, id, [], start.trades);
    assert [] + start.trades == start.trades;
  }

  lemma {:induction false} CarriedThroughout(cfg: Config, d: int, initCash: real, ops: seq<Op>, id: StockId)
    requires Sorts(cfg) && Worthwhile(cfg, id) && AllReal(id, Run(cfg, Opened(cfg, d, initCash), ops).trades)
    ensures var a := Run(cfg, Opened(cfg, d, initCash), ops);
            Sound(a.book) && Carried(cfg, a.book, id, a.trades)
    decreases |ops|
  {
    OpenedCarries(cfg, d, initCash, id);
    if ops != [] {
      hide Opened, Sorts, Sound, Carried, Apply, Plan, Execute, Shown, Reading, AllReal, Worthwhile;
      var before, op := ops[..|ops| - 1], ops[|ops| - 1];
      var a := Run(cfg, Opened(cfg, d, initCash), before);
      RealParts(id, a.trades, Apply(cfg, a.book, op).log);
      CarriedThroughout(cfg, d, initCash, before, id);
      OperationIsItsPlan(cfg, a.book, op);
      PlanCarries(cfg, a.book, Plan(cfg, a.book, op), id, a.trades);
      OperationReads(cfg, Cash, a.book, op);
    }
  }

  /** Over every run with positive numbers of a stock on record, its borrow record carries the rounded worth of the lots
      owed, less the gaps of all returns since the stock was last not owed at all. */
  lemma CarriedValue(cfg: Config, d: int, initCash: real, ops: seq<Op>, id: StockId)
    requires Sorts(cfg) && Worthwhile(cfg, id) && AllReal(id, Run(cfg, Opened(cfg, d, initCash), ops).trades)
    ensures var a := Run(cfg, Opened(cfg, d, initCash), ops);
            id in a.book.borrowed ==>
              a.book.borrowed[id].value == LotWorths(cfg, id, a.book.borrowed[id].lots) - Gaps(cfg, id, a.trades)
  {
    hide Run, Opened, Sorts, Sound, Gaps, LotWorths, AllReal, Worthwhile, InLine;
    CarriedThroughout(cfg, d, initCash, ops, id);
  }
}
