/**
 The borrow queues the historical funds rebuild.  The replay loop counts what is returned in unsigned integers, so it
 gives back too little wherever a return cuts the queue at a fraction.
 */
module ReplayedQueues {
  import opened Options
  import opened Rounding
  import opened Fifo
  import opened Accounts
  import opened Queues
  import opened Replay

  /** Every number a return goes through is whole: its own, and what each lot it takes leaves of it. */
  predicate WholeCuts(q: seq<Lot>, n: real) {
    Truncated(n) == n && (q != [] && n > q[0].number ==> WholeCuts(q[1..], n - q[0].number))
  }

  /** The replay never takes more than it should. */
  lemma {:induction false} TruncatedTakesLess(q: seq<Lot>, n: real)
    requires Positive(q) && n >= 0.0
    ensures Positive(TakeTruncated(q, n)) && Total(TakeTruncated(q, n)) >= Total(q) - n
    decreases |q|
  {
    if q != [] {
      var h := q[0].number;
      assert Positive(q[1..]);
      if n < h {
        var head := q[0].(number := h - n);
        assert ([head] + q[1..])[1..] == q[1..];
      } else if n > h {
        TruncatedTakesLess(q[1..], Truncated(n - h));
      }
    }
  }

  /** The two loops leave the same queue exactly when the cuts are whole; otherwise the replay leaves more. */
  lemma {:induction false} TruncatedExactly(q: seq<Lot>, n: real)
    requires Positive(q) && q != [] && 0.0 <= n <= Total(q)
    ensures TakeTruncated(q, Truncated(n)) == TakeOldest(q, n) <==> WholeCuts(q, n)
    ensures !WholeCuts(q, n) ==> Total(TakeTruncated(q, Truncated(n))) > Total(q) - n
    decreases |q|
  {
    var h := q[0].number;
    TakeOldestTotal(q, n);
    if Truncated(n) < n {
      TruncatedTakesLess(q, Truncated(n));
    } else if n > h {
      assert Positive(q[1..]);
      TruncatedExactly(q[1..], n - h);
    }
  }

  function RebuiltQueue(f: Rebuilt, id: StockId): seq<Lot> {
    if id in f.queues then f.queues[id] else []
  }

  predicate WholeReturns(id: StockId, log: seq<TradeRecord>) {
    log == []
    || (var front, r := log[..|log| - 1], log[|log| - 1];
        WholeReturns(id, front) && (Returns(ShareLine(id), r) ==> WholeCuts(QueueOf(ShareLine(id), front), r.number)))
  }

  lemma QueueOfRecord(cfg: Config, f: Rebuilt, id: StockId, r: TradeRecord)
    ensures var q := RebuiltQueue(f, id);
            RebuiltQueue(ReplayRecord(cfg, f, r), id)
            == if Returns(ShareLine(id), r) then TakeTruncated(q, Truncated(r.number))
               else q + LotOf(ShareLine(id), r)
  {
    hide Truncated, StockTotal, Added, Subtracted;
    assert TakeTruncated([], Truncated(r.number)) == [];
    assert RebuiltQueue(f, id) + [] == RebuiltQueue(f, id);
  }

  lemma AppendPositive(q: seq<Lot>, lot: Lot)
    requires Positive(q) && lot.number > 0.0
    ensures Positive(q + [lot]) && Total(q + [lot]) == Total(q) + lot.number
  {
    TotalAppend(q, [lot]);
  }

  /** Once the rebuilt queue has more than the live one it keeps having more. */
  lemma {:induction false} QueuesOfLog(cfg: Config, id: StockId, log: seq<TradeRecord>)
    requires Owed(ShareLine(id), log) && AllReal(id, log)
    ensures var rebuilt, live := RebuiltQueue(ReplayFrom(cfg, EMPTY, log), id), QueueOf(ShareLine(id), log);
            && Positive(rebuilt) && Positive(live) && (rebuilt == live <==> WholeReturns(id, log))
            && (rebuilt != live ==> Total(rebuilt) > Total(live))
  {
    if log != [] {
      hide ReplayRecord, WholeCuts, Truncated, TakeTruncated, TakeOldest, Positive, Total;
      var front, r := log[..|log| - 1], log[|log| - 1];
      var f, live := ReplayFrom(cfg, EMPTY, front), QueueOf(ShareLine(id), front);
      var rebuilt := RebuiltQueue(f, id);
      assert r in log;
      QueuesOfLog(cfg, id, front);
      QueueOfRecord(cfg, f, id, r);
      if Returns(ShareLine(id), r) {
        TakeOldestTotal(live, r.number);
        TakeOldestSigns(live, r.number);
        TruncatedExactly(live, r.number);
        TruncatedNotMore(r.number);
        TruncatedTakesLess(rebuilt, Truncated(r.number));
      } else if LotOf(ShareLine(id), r) == [] {
        assert live + [] == live && rebuilt + [] == rebuilt;
      } else {
        AppendPositive(live, Lot(r.datetime, r.price, r.number));
        AppendPositive(rebuilt, Lot(r.datetime, r.price, r.number));
      }
    }
  }

  lemma TruncatedNotMore(n: real)
    requires n >= 0.0
    ensures 0.0 <= Truncated(n) <= n
  {
  }

  /** Over every run with positive numbers of the stock on record, the replay rebuilds its borrow queue lot by lot
      exactly when every return has cut the queue at whole numbers; otherwise the replay is left owing more. */
  lemma QueuesRebuiltExactly(cfg: Config, d: int, initCash: real, ops: seq<Op>, id: StockId)
    requires Sorts(cfg) && AllReal(id, Run(cfg, Opened(cfg, d, initCash), ops).trades)
    ensures var a := Run(cfg, Opened(cfg, d, initCash), ops);
            var rebuilt, live := RebuiltQueue(ReplayFrom(cfg, EMPTY, a.trades), id), Queue(a.book, ShareLine(id));
            (rebuilt == live <==> WholeReturns(id, a.trades)) && (rebuilt != live ==> Total(rebuilt) > Total(live))
  {
    hide Run, Opened, Sorts, ReplayFrom, QueueOf, Owed, WholeReturns, AllReal, Total, FirstOut, Tape, Taken;
    QueuesAreFifo(cfg, d, initCash, ops, ShareLine(id));
    QueuesOfLog(cfg, id, Run(cfg, Opened(cfg, d, initCash), ops).trades);
  }

  predicate HalfReturned(log: seq<TradeRecord>) {
    && |log| == 3 && log[0].stock == None
    && log[1].business == StockBorrowed && log[1].stock == Some(0) && log[1].number == 1.5
    && log[2].business == StockReturned && log[2].stock == Some(0) && log[2].number == 0.5
  }

  lemma BorrowAndHalfBack(cfg: Config, d: int)
    ensures var a := Step(cfg, Opened(cfg, d, 0.0), OpBorrowStock(d, Some(0), 10.0, 1.5));
            var z := Step(cfg, a, OpReturnStock(d, Some(0), 10.0, 0.5));
            HalfReturned(z.trades) && Queue(z.book, ShareLine(0)) == [Lot(d, 10.0, 1.0)]
  {
    hide RoundUnits, Amount, Value, Rounding.RoundEx, ReturnedWorth, StockReturnCost;
    var a := Step(cfg, Opened(cfg, d, 0.0), OpBorrowStock(d, Some(0), 10.0, 1.5));
    assert Queue(a.book, ShareLine(0)) == [Lot(d, 10.0, 1.5)] && a.book.borrowed[0].number == 1.5;
    assert a.book.last == d == a.book.lastUpdate;
  }

  lemma ReplayOfHalf(cfg: Config, log: seq<TradeRecord>)
    requires HalfReturned(log)
    ensures Total(RebuiltQueue(ReplayFrom(cfg, EMPTY, log), 0)) == 1.5
  {
    hide ReplayRecord;
    var x, y := log[..1], log[..2];
    assert log[..|log| - 1] == y && y[..|y| - 1] == x && x[..|x| - 1] == [];
    assert ReplayFrom(cfg, EMPTY, []) == EMPTY;
    QueueOfRecord(cfg, EMPTY, 0, log[0]);
    QueueOfRecord(cfg, ReplayFrom(cfg, EMPTY, x), 0, log[1]);
    QueueOfRecord(cfg, ReplayFrom(cfg, EMPTY, y), 0, log[2]);
    var lot := Lot(log[1].datetime, log[1].price, 1.5);
    assert [] + [lot] == [lot] && Truncated(0.5) == 0.0;
    assert Total([lot]) == 1.5;
  }

  /** One share and a half borrowed, and half a share returned: one share is owed, and the replay finds the half still
      there. */
  lemma HalfReturnIsLost(cfg: Config, d: int)
    ensures var ops := [OpBorrowStock(d, Some(0), 10.0, 1.5), OpReturnStock(d, Some(0), 10.0, 0.5)];
            var a := Run(cfg, Opened(cfg, d, 0.0), ops);
            Total(Queue(a.book, ShareLine(0))) == 1.0
            && Total(RebuiltQueue(ReplayFrom(cfg, EMPTY, a.trades), 0)) == 1.5
  {
    hide Run, Opened, Step, ReplayFrom;
    var start := Opened(cfg, d, 0.0);
    var x, y := OpBorrowStock(d, Some(0), 10.0, 1.5), OpReturnStock(d, Some(0), 10.0, 0.5);
    RunOfTwo(cfg, start, x, y);
    BorrowAndHalfBack(cfg, d);
    ReplayOfHalf(cfg, Step(cfg, Step(cfg, start, x), y).trades);
    assert Total([Lot(d, 10.0, 1.0)]) == 1.0;
  }
}
