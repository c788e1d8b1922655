/**
 Loans and borrowed shares over whole runs.  Each queue is the tape of everything ever borrowed, as the log records
 it, with what has been returned cut off at its start.
 */
module Queues {
  import opened Options
  import opened Rounding
  import opened Fifo
  import opened Accounts
  import opened Plans
  import opened Meters
  import opened Settlement

  /** Which queue of the account. */
  datatype Line = LoanLine | ShareLine(id: StockId)

  /** What a record adds to the end of a line. */
  function LotOf(line: Line, r: TradeRecord): seq<Lot> {
    match line
    case LoanLine => if r.business == CashBorrowed then [Lot(r.datetime, 1.0, r.amount as real)] else []
    case ShareLine(id) =>
      if r.business == StockBorrowed && r.stock == Some(id) then [Lot(r.datetime, r.price, r.number)] else []
  }

  predicate Returns(line: Line, r: TradeRecord) {
    match line
    case LoanLine => r.business == CashReturned
    case ShareLine(id) => r.business == StockReturned && r.stock == Some(id)
  }

  /** What a record takes off the front of a line. */
  function TakenOf(line: Line, r: TradeRecord): real {
    if !Returns(line, r) then 0.0 else if line.LoanLine? then r.amount as real else r.number
  }

  function Tape(line: Line, log: seq<TradeRecord>): seq<Lot> {
    if log == [] then [] else Tape(line, log[..|log| - 1]) + LotOf(line, log[|log| - 1])
  }

  function Taken(line: Line, log: seq<TradeRecord>): real {
    if log == [] then 0.0 else Taken(line, log[..|log| - 1]) + TakenOf(line, log[|log| - 1])
  }

  function Queue(b: Book, line: Line): seq<Lot> {
    match line
    case LoanLine => b.loans
    case ShareLine(id) => if id in b.borrowed then b.borrowed[id].lots else []
  }

  /** `queue` is `tape` without its first `taken` units: first in, first out. */
  ghost predicate FirstOut(queue: seq<Lot>, tape: seq<Lot>, taken: real) {
    && NonNegative(queue) && NonNegative(tape) && 0.0 <= taken && Total(queue) == Total(tape) - taken
    && forall t: real :: 0.0 <= t < Total(queue) ==> OriginAt(queue, t) == OriginAt(tape, t + taken)
  }

  lemma BorrowKeepsOrder(queue: seq<Lot>, tape: seq<Lot>, taken: real, lot: Lot)
    requires FirstOut(queue, tape, taken) && lot.number >= 0.0
    ensures FirstOut(queue + [lot], tape + [lot], taken)
  {
    TotalAppend(queue, [lot]);
    TotalAppend(tape, [lot]);
    assert Total([lot]) == lot.number;
    forall t: real | 0.0 <= t < Total(queue + [lot])
      ensures OriginAt(queue + [lot], t) == OriginAt(tape + [lot], t + taken)
    {
      AppendAtEnd(queue, lot, t);
      AppendAtEnd(tape, lot, t + taken);
    }
  }

  lemma ReturnKeepsOrder(queue: seq<Lot>, tape: seq<Lot>, taken: real, n: real)
    requires FirstOut(queue, tape, taken) && queue != [] && 0.0 <= n <= Total(queue)
    ensures FirstOut(TakeOldest(queue, n), tape, taken + n)
  {
    TakeOldestTotal(queue, n);
    TakeOldestSigns(queue, n);
    forall t: real | 0.0 <= t < Total(TakeOldest(queue, n))
      ensures OriginAt(TakeOldest(queue, n), t) == OriginAt(tape, t + (taken + n))
    {
      TakeOldestShifts(queue, n, t);
      assert t + n + taken == t + (taken + n);
    }
  }

  // ---------------------------------------------------------------------------------------------------------
  // The queue as the log tells it

  function Turn(line: Line, q: seq<Lot>, r: TradeRecord): seq<Lot> {
    if Returns(line, r) then TakeOldest(q, TakenOf(line, r)) else q + LotOf(line, r)
  }

  function QueueOf(line: Line, log: seq<TradeRecord>): seq<Lot> {
    if log == [] then [] else Turn(line, QueueOf(line, log[..|log| - 1]), log[|log| - 1])
  }

  /** What is returned is owed. */
  predicate Owed(line: Line, log: seq<TradeRecord>) {
    log == []
    || (var q, r := QueueOf(line, log[..|log| - 1]), log[|log| - 1];
        Owed(line, log[..|log| - 1]) && (Returns(line, r) ==> q != [] && TakenOf(line, r) <= Total(q)))
  }

  /** The record borrows and returns no negative number in the line. */
  predicate Proper(line: Line, r: TradeRecord) {
    TakenOf(line, r) >= 0.0 && NonNegative(LotOf(line, r))
  }

  ghost predicate AllProper(line: Line, log: seq<TradeRecord>) {
    forall r <- log :: Proper(line, r)
  }

  lemma {:induction false} QueueIsFifo(line: Line, log: seq<TradeRecord>)
    requires Owed(line, log) && AllProper(line, log)
    ensures FirstOut(QueueOf(line, log), Tape(line, log), Taken(line, log))
  {
    if log != [] {
      hide FirstOut, TakeOldest, Total;
      var front, r := log[..|log| - 1], log[|log| - 1];
      var queue, tape := QueueOf(line, front), Tape(line, front);
      assert r in log;
      QueueIsFifo(line, front);
      if Returns(line, r) {
        assert tape + [] == tape;
        ReturnKeepsOrder(queue, tape, Taken(line, front), TakenOf(line, r));
      } else if LotOf(line, r) == [] {
        assert queue + [] == queue && tape + [] == tape;
      } else {
        BorrowKeepsOrder(queue, tape, Taken(line, front), LotOf(line, r)[0]);
      }
    }
  }

  // ---------------------------------------------------------------------------------------------------------
  // Runs

  /** The live queue is what the log tells; of cash, negative amounts are turned away. */
  ghost predicate InLine(line: Line, b: Book, log: seq<TradeRecord>) {
    Queue(b, line) == QueueOf(line, log) && Owed(line, log) && (line.LoanLine? ==> AllProper(line, log))
  }

  predicate Passes(line: Line, r: TradeRecord) {
    LotOf(line, r) == [] && !Returns(line, r)
  }

  lemma {:induction false} NothingTurned(line: Line, log: seq<TradeRecord>, more: seq<TradeRecord>)
    requires forall r <- more :: Passes(line, r)
    ensures QueueOf(line, log + more) == QueueOf(line, log) && (Owed(line, log) ==> Owed(line, log + more))
    decreases |more|
  {
    hide Returns, LotOf;
    if more == [] {
      assert log + more == log;
    } else {
      assert (log + more)[..|log + more| - 1] == log + more[..|more| - 1];
      assert more[|more| - 1] in more;
      NothingTurned(line, log, more[..|more| - 1]);
      assert QueueOf(line, log) + [] == QueueOf(line, log);
    }
  }

  lemma NothingInLine(line: Line, b: Book, log: seq<TradeRecord>, q: Posted)
    requires InLine(line, b, log) && Queue(q.book, line) == Queue(b, line)
    requires forall r <- q.log :: Passes(line, r)
    ensures InLine(line, q.book, log + q.log)
  {
    hide Returns, LotOf, QueueOf, Owed;
    NothingTurned(line, log, q.log);
  }

  lemma OneInLine(line: Line, b: Book, log: seq<TradeRecord>, q: Posted, r: TradeRecord)
    requires InLine(line, b, log) && q.log == [r] && Queue(q.book, line) == Turn(line, Queue(b, line), r)
    requires Returns(line, r) ==> Queue(b, line) != [] && TakenOf(line, r) <= Total(Queue(b, line))
    requires line.LoanLine? ==> Proper(line, r)
    ensures InLine(line, q.book, log + q.log)
  {
    hide Turn, Returns, Total, Proper;
    assert (log + [r])[..|log + [r]| - 1] == log;
  }

  lemma LoanPostingInLine(cfg: Config, line: Line, b: Book, log: seq<TradeRecord>, p: Posting)
    requires Sound(b) && InLine(line, b, log) && Checked(cfg, b, p) && (p.DoBorrowCash? || p.DoReturnCash?)
    ensures InLine(line, Do(cfg, b, p).book, log + Do(cfg, b, p).log)
  {
    hide InLine, TakeOldest, Total, Shortfall, LoanReturnCost, RoundUnits;
    var q := Do(cfg, b, p);
    if line.ShareLine? || !q.ok {
      NothingInLine(line, b, log, q);
    } else {
      if p.DoBorrowCash? {
        RoundNonNegative(p.cash, cfg.precision);
      } else {
        ShortfallIsZero(b.loans, p.amount as real);
      }
      OneInLine(line, b, log, q, q.log[0]);
    }
  }

  lemma BorrowStockInLine(cfg: Config, line: Line, b: Book, log: seq<TradeRecord>, p: Posting)
    requires InLine(line, b, log) && p.DoBorrowStock?
    ensures InLine(line, Do(cfg, b, p).book, log + Do(cfg, b, p).log)
  {
    hide InLine, Worth, TakeOldest, Total;
    var q := Do(cfg, b, p);
    if line != ShareLine(p.id) {
      NothingInLine(line, b, log, q);
    } else {
      var lot := Lot(p.d, p.price, p.number);
      assert [] + [lot] == [lot];
      OneInLine(line, b, log, q, q.log[0]);
    }
  }

  lemma ReturnStockInLine(cfg: Config, line: Line, b: Book, log: seq<TradeRecord>, p: Posting)
    requires Sound(b) && InLine(line, b, log) && p.DoReturnStock?
    ensures InLine(line, Do(cfg, b, p).book, log + Do(cfg, b, p).log)
  {
    hide InLine, TakeOldest, Total, StockReturnCost, ReturnedWorth;
    var q := Do(cfg, b, p);
    if line != ShareLine(p.id) || !q.ok {
      NothingInLine(line, b, log, q);
    } else {
      OneInLine(line, b, log, q, q.log[0]);
    }
  }

  predicate TouchesQueues(p: Posting) {
    p.DoBorrowCash? || p.DoReturnCash? || p.DoBorrowStock? || p.DoReturnStock?
  }

  lemma OtherPostingKeepsQueues(cfg: Config, b: Book, p: Posting)
    requires !TouchesQueues(p)
    ensures Do(cfg, b, p).book.loans == b.loans && Do(cfg, b, p).book.borrowed == b.borrowed
  {
    if p.DoSettle? {
      UpdateOnlySettles(cfg, b, p.d);
    }
    hide Update, RoundUnits, Value, Worth, ShortProceeds, WholeMoney;
  }

  lemma OtherPostingRecords(cfg: Config, line: Line, b: Book, p: Posting)
    requires Sorts(cfg) && Sound(b) && !TouchesQueues(p)
    ensures forall r <- Do(cfg, b, p).log :: Passes(line, r)
  {
    hide Sorts;
    if p.DoSettle? {
      hide Update;
      UpdateKinds(cfg, b, p.d);
    } else {
      hide Do;
      PostedKind(cfg, b, p);
    }
  }

  lemma PostingInLine(cfg: Config, line: Line, b: Book, log: seq<TradeRecord>, p: Posting)
    requires Sorts(cfg) && Sound(b) && InLine(line, b, log) && Checked(cfg, b, p)
    ensures InLine(line, Do(cfg, b, p).book, log + Do(cfg, b, p).log)
  {
    hide Sorts, Sound, InLine, Checked, Do;
    if p.DoBorrowCash? || p.DoReturnCash? {
      LoanPostingInLine(cfg, line, b, log, p);
    } else if p.DoBorrowStock? {
      BorrowStockInLine(cfg, line, b, log, p);
    } else if p.DoReturnStock? {
      ReturnStockInLine(cfg, line, b, log, p);
    } else {
      OtherPostingKeepsQueues(cfg, b, p);
      OtherPostingRecords(cfg, line, b, p);
      NothingInLine(line, b, log, Do(cfg, b, p));
    }
  }

  lemma {:induction false} PlanInLine(cfg: Config, line: Line, b: Book, log: seq<TradeRecord>, plan: seq<Posting>)
    requires Sorts(cfg) && Sound(b) && InLine(line, b, log) && AllChecked(cfg, b, plan)
    ensures InLine(line, Execute(cfg, b, plan).book, log + Execute(cfg, b, plan).log)
    decreases |plan|
  {
    hide Sorts, Sound, InLine, Do, Checked;
    if plan == [] {
      assert log + [] == log;
    } else {
      var p, q := plan[0], Do(cfg, b, plan[0]);
      PostingInLine(cfg, line, b, log, p);
      PostingReads(cfg, Cash, b, p);
      PlanInLine(cfg, line, q.book, log + q.log, plan[1..]);
      assert log + (q.log + Execute(cfg, q.book, plan[1..]).log) == log + q.log + Execute(cfg, q.book, plan[1..]).log;
    }
  }

  lemma {:induction false} RunInLine(cfg: Config, d: int, initCash: real, ops: seq<Op>, line: Line)
    requires Sorts(cfg)
    ensures var a := Run(cfg, Opened(cfg, d, initCash), ops);
            Sound(a.book) && InLine(line, a.book, a.trades)
    decreases |ops|
  {
    var start := Opened(cfg, d, initCash);
    if ops == [] {
      OpenedExplained(cfg, d, initCash, Cash);
      NothingTurned(line, [], start.trades);
      assert [] + start.trades == start.trades;
    } else {
      hide Opened, Sorts, Sound, InLine, Apply, Plan, Execute, Shown, Reading;
      var before, op := ops[..|ops| - 1], ops[|ops| - 1];
      var a := Run(cfg, start, before);
      RunInLine(cfg, d, initCash, before, line);
      OperationIsItsPlan(cfg, a.book, op);
      PlanInLine(cfg, line, a.book, a.trades, Plan(cfg, a.book, op));
      OperationReads(cfg, Cash, a.book, op);
    }
  }

  /** Over every run the live queues are those the log tells, and nothing is returned that is not owed.  A queue with no
      negative number on record, as that of the loans always is, is first in, first out: it is the tape of the log
      without the returned front. */
  lemma QueuesAreFifo(cfg: Config, d: int, initCash: real, ops: seq<Op>, line: Line)
    requires Sorts(cfg)
    ensures var a := Run(cfg, Opened(cfg, d, initCash), ops);
            && Queue(a.book, line) == QueueOf(line, a.trades) && Owed(line, a.trades)
            && (line.LoanLine? || AllProper(line, a.trades) ==>
                  FirstOut(Queue(a.book, line), Tape(line, a.trades), Taken(line, a.trades)))
  {
    hide Run, Opened, Sorts, Sound, FirstOut, QueueOf, Owed, Tape, Taken, AllProper;
    var a := Run(cfg, Opened(cfg, d, initCash), ops);
    RunInLine(cfg, d, initCash, ops, line);
    if AllProper(line, a.trades) {
      QueueIsFifo(line, a.trades);
    }
  }

  /** The stock is borrowed and returned in positive numbers; the source turns away zero only. */
  ghost predicate AllReal(id: StockId, log: seq<TradeRecord>) {
    forall r <- log :: r.stock == Some(id) && r.business in {StockBorrowed, StockReturned} ==> r.number > 0.0
  }

  lemma RealParts(id: StockId, x: seq<TradeRecord>, y: seq<TradeRecord>)
    requires AllReal(id, x + y)
    ensures AllReal(id, x) && AllReal(id, y)
  {
    assert forall r :: r in x || r in y ==> r in x + y;
  }

  /** A negative return is not turned away, and makes the debt larger. */
  lemma NegativeReturn(cfg: Config, b: Book, d: int, id: StockId, price: real, n: real)
    requires Sound(b) && id in b.borrowed && n < 0.0 && Positive(b.borrowed[id].lots)
    ensures var q := PostReturnStock(cfg, b, d, id, price, n);
            q.ok && id in q.book.borrowed && q.book.borrowed[id].number > b.borrowed[id].number
            && Total(q.book.borrowed[id].lots) == Total(b.borrowed[id].lots) - n
  {
    hide TakeOldest, StockReturnCost, ReturnedWorth, Total;
    TotalNonNegative(b.borrowed[id].lots);
    TakeOldestTotal(b.borrowed[id].lots, n);
    TakeOldestSigns(b.borrowed[id].lots, n);
    assert Total([]) == 0.0 by { EmptyTotal(); }
  }

  lemma EmptyTotal()
    ensures Total([]) == 0.0
  {
  }
}
