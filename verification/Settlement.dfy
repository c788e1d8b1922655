/**
 Lazy settlement.  Ex-rights events are applied when an operation needs them, over a window that starts at the last
 record of the log rather than at the last settlement.  In chronological runs every event nevertheless reaches every
 open position exactly once, and settling more often changes nothing.
 */
module Settlement {
  import opened Calendar
  import opened Keys
  import opened Sequences
  import opened Weights
  import opened Accounts

  // ---------------------------------------------------------------------------------------------------------
  // One position

  lemma {:induction false} SettleInTwo(precision: nat, p: Position, x: seq<StockWeight>, y: seq<StockWeight>)
    ensures var s := SettleEvents(precision, p, x);
            var t := SettleEvents(precision, s.position, y);
            SettleEvents(precision, p, x + y) == Settled(t.position, s.bonus + t.bonus, s.records + t.records)
    decreases |y|
  {
    hide SettleEvent;
    var s := SettleEvents(precision, p, x);
    if y == [] {
      assert x + y == x;
      assert s.records + [] == s.records;
    } else {
      var y', w := y[..|y| - 1], y[|y| - 1];
      assert (x + y)[..|x + y| - 1] == x + y';
      SettleInTwo(precision, p, x, y');
      var t := SettleEvents(precision, s.position, y');
      var e := SettleEvent(precision, t.position, w);
      assert s.records + t.records + e.records == s.records + (t.records + e.records);
    }
  }

  /** An event without a record changes nothing: a consolidation that rounds back is the only such case. */
  lemma SilentEvent(precision: nat, p: Position, w: StockWeight)
    requires SettleEvent(precision, p, w).records == []
    ensures SettleEvent(precision, p, w) == Settled(p, 0, [])
  {
    hide ConsolidatedNumber, Rounding.RoundUnits;
  }

  lemma {:induction false} SilentEvents(precision: nat, p: Position, ws: seq<StockWeight>)
    requires SettleEvents(precision, p, ws).records == []
    ensures SettleEvents(precision, p, ws) == Settled(p, 0, [])
    decreases |ws|
  {
    hide SettleEvent;
    if ws != [] {
      SilentEvents(precision, p, ws[..|ws| - 1]);
      SilentEvent(precision, p, ws[|ws| - 1]);
    }
  }

  ghost predicate DatedIn(log: seq<TradeRecord>, start: int, end: int) {
    forall r <- log :: start <= r.datetime < end && Midnight(r.datetime)
  }

  lemma SettleEventDates(precision: nat, p: Position, w: StockWeight)
    ensures forall r <- SettleEvent(precision, p, w).records :: r.datetime == w.datetime
  {
    hide ConsolidatedNumber, Rounding.RoundUnits;
  }

  lemma {:induction false} SettleEventsDates(precision: nat, p: Position, ws: seq<StockWeight>, start: int, end: int)
    requires forall w <- ws :: start <= w.datetime < end && Midnight(w.datetime)
    ensures DatedIn(SettleEvents(precision, p, ws).records, start, end)
    decreases |ws|
  {
    hide SettleEvent;
    if ws != [] {
      var s := SettleEvents(precision, p, ws[..|ws| - 1]);
      assert ws[|ws| - 1] in ws;
      SettleEventsDates(precision, p, ws[..|ws| - 1], start, end);
      SettleEventDates(precision, s.position, ws[|ws| - 1]);
    }
  }

  lemma SettleStockDates(cfg: Config, p: Position, id: StockId, start: int, end: int)
    requires Environment(cfg)
    ensures DatedIn(SettleStock(cfg, p, id, start, end).records, start, end)
  {
    var ws := cfg.weights(id);
    WindowDates(ws, start, end);
    forall w <- Window(ws, start, end)
      ensures Midnight(w.datetime)
    {
      var i :| 0 <= i < |ws| && ws[i] == w;
    }
    SettleEventsDates(cfg.precision, p, Window(ws, start, end), start, end);
  }

  lemma SettleStockSplit(cfg: Config, p: Position, id: StockId, start: int, middle: int, end: int)
    requires Environment(cfg) && start <= middle <= end
    ensures var s := SettleStock(cfg, p, id, start, middle);
            var t := SettleStock(cfg, s.position, id, middle, end);
            SettleStock(cfg, p, id, start, end) == Settled(t.position, s.bonus + t.bonus, s.records + t.records)
  {
    hide SettleEvents, Window;
    WindowSplit(cfg.weights(id), start, middle, end);
    SettleInTwo(cfg.precision, p, Window(cfg.weights(id), start, middle), Window(cfg.weights(id), middle, end));
  }

  lemma EmptyWindow(cfg: Config, p: Position, id: StockId, start: int)
    ensures SettleStock(cfg, p, id, start, start) == Settled(p, 0, [])
  {
    WindowBefore(cfg.weights(id), start, start);
  }

  // ---------------------------------------------------------------------------------------------------------
  // All positions

  /** The records of a batch are the records of its stocks. */
  lemma {:induction false} BatchRecords(cfg: Config, ids: set<StockId>, positions: map<StockId, Position>,
                                        start: int, end: int, r: TradeRecord)
    requires ids <= positions.Keys
    ensures r in SettleAll(cfg, ids, positions, start, end).records
       <==> exists id <- ids :: r in SettleStock(cfg, positions[id], id, start, end).records
    decreases |ids|
  {
    hide SettleStock;
    if ids != {} {
      var least := Least(ids);
      BatchRecords(cfg, ids - {least}, positions, start, end, r);
      assert forall id :: id in ids <==> id == least || id in ids - {least};
    }
  }

  lemma BatchDates(cfg: Config, ids: set<StockId>, positions: map<StockId, Position>, start: int, end: int)
    requires Environment(cfg) && ids <= positions.Keys
    ensures DatedIn(SettleAll(cfg, ids, positions, start, end).records, start, end)
  {
    hide SettleStock, SettleAll, Environment;
    forall r <- SettleAll(cfg, ids, positions, start, end).records
      ensures start <= r.datetime < end && Midnight(r.datetime)
    {
      BatchRecords(cfg, ids, positions, start, end, r);
      var id :| id in ids && r in SettleStock(cfg, positions[id], id, start, end).records;
      SettleStockDates(cfg, positions[id], id, start, end);
    }
  }

  /** Two batches over adjoining windows pay and record what one batch over both does. */
  lemma {:induction false} BatchSplit(cfg: Config, ids: set<StockId>, p: map<StockId, Position>,
                                      q: map<StockId, Position>, start: int, middle: int, end: int)
    requires Environment(cfg) && start <= middle <= end && ids <= p.Keys == q.Keys
    requires forall id <- ids :: q[id] == SettleStock(cfg, p[id], id, start, middle).position
    ensures var x := SettleAll(cfg, ids, p, start, middle);
            var y := SettleAll(cfg, ids, q, middle, end);
            var z := SettleAll(cfg, ids, p, start, end);
            z.bonus == x.bonus + y.bonus && multiset(z.records) == multiset(x.records) + multiset(y.records)
    decreases |ids|
  {
    hide SettleStock, Environment;
    if ids != {} {
      var id := Least(ids);
      SettleStockSplit(cfg, p[id], id, start, middle, end);
      BatchSplit(cfg, ids - {id}, p, q, start, middle, end);
      MultisetInterleave(SettleStock(cfg, p[id], id, start, middle).records,
                         SettleStock(cfg, q[id], id, middle, end).records,
                         SettleAll(cfg, ids - {id}, p, start, middle).records,
                         SettleAll(cfg, ids - {id}, q, middle, end).records,
                         SettleAll(cfg, ids - {id}, p, start, end).records);
    }
  }

  lemma BatchSplitPositions(cfg: Config, p: map<StockId, Position>, start: int, middle: int, end: int)
    requires Environment(cfg) && start <= middle <= end
    ensures SettleAll(cfg, p.Keys, p, start, end).positions
         == SettleAll(cfg, p.Keys, SettleAll(cfg, p.Keys, p, start, middle).positions, middle, end).positions
  {
    hide SettleStock, Environment;
    forall id <- p
      ensures SettleStock(cfg, p[id], id, start, end).position
           == SettleStock(cfg, SettleStock(cfg, p[id], id, start, middle).position, id, middle, end).position
    {
      SettleStockSplit(cfg, p[id], id, start, middle, end);
    }
  }

  /** Windows that settle each stock alike settle the batch alike. */
  lemma {:induction false} BatchSame(cfg: Config, ids: set<StockId>, p: map<StockId, Position>,
                                     start: int, start': int, end: int)
    requires ids <= p.Keys
    requires forall id <- ids :: SettleStock(cfg, p[id], id, start, end) == SettleStock(cfg, p[id], id, start', end)
    ensures SettleAll(cfg, ids, p, start, end) == SettleAll(cfg, ids, p, start', end)
    decreases |ids|
  {
    hide SettleStock;
    if ids != {} {
      BatchSame(cfg, ids - {Least(ids)}, p, start, start', end);
    }
  }

  /** A record a settlement writes, for one of the open positions. */
  ghost predicate Corporate(r: TradeRecord, ids: set<StockId>) {
    r.business in {Bonus, Gift, Suogu} && r.stock.Some? && r.stock.value in ids
  }

  lemma {:induction false} SettleEventsKinds(precision: nat, p: Position, ws: seq<StockWeight>)
    ensures SettleEvents(precision, p, ws).position.stock == p.stock
    ensures forall r <- SettleEvents(precision, p, ws).records :: Corporate(r, {p.stock})
    decreases |ws|
  {
    hide ConsolidatedNumber, Rounding.RoundUnits;
    if ws != [] {
      SettleEventsKinds(precision, p, ws[..|ws| - 1]);
    }
  }

  lemma UpdateKinds(cfg: Config, b: Book, d: int)
    requires Sorts(cfg) && forall id <- b.positions :: b.positions[id].stock == id
    ensures forall r <- Update(cfg, b, d).log :: Corporate(r, b.positions.Keys)
  {
    if d > b.lastUpdate {
      var start, end := NextDay(b.last), NextDay(d);
      var s := SettleAll(cfg, b.positions.Keys, b.positions, start, end);
      SortedRecords(cfg, s.records);
      hide SettleAll;
      forall r <- s.records
        ensures Corporate(r, b.positions.Keys)
      {
        BatchRecords(cfg, b.positions.Keys, b.positions, start, end, r);
        var id :| id in b.positions && r in SettleStock(cfg, b.positions[id], id, start, end).records;
        SettleEventsKinds(cfg.precision, b.positions[id], Window(cfg.weights(id), start, end));
      }
    }
  }

  // ---------------------------------------------------------------------------------------------------------
  // Exactly once

  /** Nothing is outstanding: the events between the last record and the last settlement leave no record. */
  ghost predicate Quiet(cfg: Config, b: Book) {
    b.last <= b.lastUpdate
    && forall id <- b.positions ::
         SettleStock(cfg, b.positions[id], id, NextDay(b.last), NextDay(b.lastUpdate)).records == []
  }

  lemma LastIsLatest(cfg: Config, buffer: seq<TradeRecord>, otherwise: int)
    requires Sorts(cfg) && buffer != []
    ensures var log := cfg.sort(buffer);
            (exists r <- buffer :: r.datetime == LastOf(log, otherwise))
            && forall r <- buffer :: r.datetime <= LastOf(log, otherwise)
  {
    var log := cfg.sort(buffer);
    assert multiset(log) == multiset(buffer);
    assert |multiset(log)| == |log| && |multiset(buffer)| == |buffer|;
    assert log[|log| - 1] in multiset(buffer);
    forall r <- buffer
      ensures r.datetime <= LastOf(log, otherwise)
    {
      assert r in multiset(log);
      var i :| 0 <= i < |log| && log[i] == r;
    }
  }

  lemma SortKeepsEmptiness(cfg: Config, buffer: seq<TradeRecord>)
    requires Sorts(cfg)
    ensures cfg.sort(buffer) == [] <==> buffer == []
  {
    assert multiset(cfg.sort(buffer)) == multiset(buffer);
    assert |cfg.sort(buffer)| == |multiset(cfg.sort(buffer))| && |buffer| == |multiset(buffer)|;
  }

  lemma NextDayBounds(start: int, w: int, d: int)
    requires Midnight(w) && NextDay(start) <= w < NextDay(d)
    ensures start <= w <= d && NextDay(start) <= NextDay(w) <= NextDay(d)
  {
  }

  /** The window of an update, and where the log stands after it. */
  lemma UpdateWindow(cfg: Config, b: Book, d: int)
    requires Environment(cfg) && b.last <= b.lastUpdate < d
    ensures var s := SettleAll(cfg, b.positions.Keys, b.positions, NextDay(b.last), NextDay(d));
            var c := Update(cfg, b, d).book;
            b.last <= c.last <= d && DatedIn(s.records, NextDay(b.last), NextDay(d))
            && NextDay(b.last) <= NextDay(c.last) <= NextDay(d)
            && (forall r <- s.records :: r.datetime < NextDay(c.last))
            && (s.records == [] ==> c.last == b.last)
  {
    var start, end := NextDay(b.last), NextDay(d);
    var s := SettleAll(cfg, b.positions.Keys, b.positions, start, end);
    BatchDates(cfg, b.positions.Keys, b.positions, start, end);
    SortKeepsEmptiness(cfg, s.records);
    NextDayMonotone(b.last, d);
    if s.records != [] {
      LastIsLatest(cfg, s.records, b.last);
      hide SettleAll, Environment, LastOf, NextDay, Midnight, Sorts;
      var last := LastOf(cfg.sort(s.records), b.last);
      var r :| r in s.records && r.datetime == last;
      NextDayBounds(b.last, last, d);
      MidnightBeforeNextDay(last, last);
    }
  }

  /** After any update nothing is outstanding. */
  lemma UpdateQuiets(cfg: Config, b: Book, d: int)
    requires Environment(cfg) && b.last <= b.lastUpdate < d
    ensures Quiet(cfg, Update(cfg, b, d).book)
  {
    hide SettleStock, Environment;
    UpdateWindow(cfg, b, d);
    var c := Update(cfg, b, d).book;
    var start, middle, end := NextDay(b.last), NextDay(c.last), NextDay(d);
    forall id <- c.positions
      ensures SettleStock(cfg, c.positions[id], id, middle, end).records == []
    {
      var p := b.positions[id];
      var s := SettleStock(cfg, p, id, start, middle);
      var t := SettleStock(cfg, s.position, id, middle, end);
      SettleStockSplit(cfg, p, id, start, middle, end);
      SettleStockDates(cfg, s.position, id, middle, end);
      if t.records != [] {
        var r := t.records[0];
        assert r in SettleStock(cfg, p, id, start, end).records;
        BatchRecords(cfg, b.positions.Keys, b.positions, start, end, r);
        assert false;
      }
      SilentStock(cfg, s.position, id, middle, end);
    }
  }

  lemma SilentStock(cfg: Config, p: Position, id: StockId, start: int, end: int)
    requires SettleStock(cfg, p, id, start, end).records == []
    ensures SettleStock(cfg, p, id, start, end) == Settled(p, 0, [])
  {
    SilentEvents(cfg.precision, p, Window(cfg.weights(id), start, end));
  }

  /** Exactly once: with nothing outstanding, an update applies the events dated after the last settlement and up to
      the new date, no matter where the log stands. */
  lemma UpdateAppliesNewDays(cfg: Config, b: Book, d: int)
    requires Environment(cfg) && Quiet(cfg, b) && b.lastUpdate <= d
    ensures SettleAll(cfg, b.positions.Keys, b.positions, NextDay(b.last), NextDay(d))
         == SettleAll(cfg, b.positions.Keys, b.positions, NextDay(b.lastUpdate), NextDay(d))
  {
    hide SettleStock, Environment;
    var start, middle, end := NextDay(b.last), NextDay(b.lastUpdate), NextDay(d);
    NextDayMonotone(b.last, b.lastUpdate);
    NextDayMonotone(b.lastUpdate, d);
    forall id <- b.positions
      ensures SettleStock(cfg, b.positions[id], id, start, end) == SettleStock(cfg, b.positions[id], id, middle, end)
    {
      var p := b.positions[id];
      SettleStockSplit(cfg, p, id, start, middle, end);
      SilentStock(cfg, p, id, start, middle);
      var t := SettleStock(cfg, p, id, middle, end);
      assert [] + t.records == t.records;
    }
    BatchSame(cfg, b.positions.Keys, b.positions, start, middle, end);
  }

  /** With nothing outstanding, an update writes only records of days after the last settlement. */
  lemma QuietUpdateDates(cfg: Config, b: Book, d: int)
    requires Environment(cfg) && Quiet(cfg, b) && b.lastUpdate <= d
    ensures DatedIn(Update(cfg, b, d).log, NextDay(b.lastUpdate), NextDay(d))
  {
    if b.lastUpdate < d {
      UpdateAppliesNewDays(cfg, b, d);
      var s := SettleAll(cfg, b.positions.Keys, b.positions, NextDay(b.lastUpdate), NextDay(d));
      BatchDates(cfg, b.positions.Keys, b.positions, NextDay(b.lastUpdate), NextDay(d));
      hide SettleAll, NextDay;
      SortedRecords(cfg, s.records);
    }
  }

  lemma SortedRecords(cfg: Config, buffer: seq<TradeRecord>)
    requires Sorts(cfg)
    ensures forall r <- cfg.sort(buffer) :: r in buffer
  {
    forall r <- cfg.sort(buffer)
      ensures r in buffer
    {
      assert r in multiset(cfg.sort(buffer));
    }
  }

  lemma QuietUpdate(cfg: Config, b: Book, d: int)
    requires Environment(cfg) && Quiet(cfg, b) && b.lastUpdate <= d
    ensures var c := Update(cfg, b, d).book;
            Quiet(cfg, c) && c.lastUpdate == d && b.last <= c.last <= d
  {
    if b.lastUpdate < d {
      UpdateQuiets(cfg, b, d);
      UpdateWindow(cfg, b, d);
    }
  }

  /** The log of two successive updates ends where the log of one does. */
  lemma LastOfTwo(cfg: Config, x: seq<TradeRecord>, y: seq<TradeRecord>, z: seq<TradeRecord>, middle: int, last: int)
    requires Sorts(cfg) && multiset(z) == multiset(x) + multiset(y)
    requires (forall r <- x :: r.datetime < middle) && forall r <- y :: middle <= r.datetime
    ensures LastOf(cfg.sort(z), last) == LastOf(cfg.sort(y), LastOf(cfg.sort(x), last))
  {
    SortKeepsEmptiness(cfg, x);
    SortKeepsEmptiness(cfg, y);
    SortKeepsEmptiness(cfg, z);
    assert |multiset(z)| == |multiset(x)| + |multiset(y)|;
    assert forall r :: r in z <==> r in multiset(z);
    assert forall r :: r in z <==> r in x || r in y;
    if y != [] {
      LastIsLatest(cfg, y, LastOf(cfg.sort(x), last));
      LastIsLatest(cfg, z, last);
    } else if x != [] {
      LastIsLatest(cfg, x, last);
      LastIsLatest(cfg, z, last);
    }
  }

  /** The update of a book with nothing outstanding, in terms of the new days only. */
  lemma QuietUpdateIs(cfg: Config, b: Book, d: int)
    requires Environment(cfg) && Quiet(cfg, b) && b.lastUpdate < d
    ensures var s := SettleAll(cfg, b.positions.Keys, b.positions, NextDay(b.lastUpdate), NextDay(d));
            Update(cfg, b, d)
            == Done(b.(positions := s.positions, cash := b.cash + s.bonus,
                       last := LastOf(cfg.sort(s.records), b.last), lastUpdate := d), cfg.sort(s.records))
  {
    hide SettleAll, SettleStock, NextDay, Environment, Quiet, LastOf;
    UpdateAppliesNewDays(cfg, b, d);
  }

  /** Two batches over adjoining windows, with the sorted logs they lead to. */
  lemma BatchTwice(cfg: Config, p: map<StockId, Position>, start: int, middle: int, end: int, last: int)
    requires Environment(cfg) && start <= middle <= end
    ensures var x := SettleAll(cfg, p.Keys, p, start, middle);
            var y := SettleAll(cfg, p.Keys, x.positions, middle, end);
            var z := SettleAll(cfg, p.Keys, p, start, end);
            && z.positions == y.positions && z.bonus == x.bonus + y.bonus
            && multiset(cfg.sort(z.records)) == multiset(cfg.sort(x.records)) + multiset(cfg.sort(y.records))
            && LastOf(cfg.sort(z.records), last) == LastOf(cfg.sort(y.records), LastOf(cfg.sort(x.records), last))
  {
    hide SettleStock, LastOf, Environment;
    var ids := p.Keys;
    var x := SettleAll(cfg, ids, p, start, middle);
    var y := SettleAll(cfg, ids, x.positions, middle, end);
    var z := SettleAll(cfg, ids, p, start, end);
    BatchSplit(cfg, ids, p, x.positions, start, middle, end);
    BatchSplitPositions(cfg, p, start, middle, end);
    BatchDates(cfg, ids, p, start, middle);
    BatchDates(cfg, ids, x.positions, middle, end);
    EnvironmentSorts(cfg);
    hide SettleAll;
    LastOfTwo(cfg, x.records, y.records, z.records, middle, last);
  }

  lemma EnvironmentSorts(cfg: Config)
    requires Environment(cfg)
    ensures Sorts(cfg)
  {
  }

  lemma QuietIsOrdered(cfg: Config, b: Book)
    requires Quiet(cfg, b)
    ensures b.last <= b.lastUpdate
  {
  }

  lemma UpdateTwiceLater(cfg: Config, b: Book, d1: int, d2: int)
    requires Environment(cfg) && Quiet(cfg, b) && b.last <= b.lastUpdate < d1 < d2
    ensures var u := Update(cfg, b, d1);
            var v := Update(cfg, u.book, d2);
            var w := Update(cfg, b, d2);
            w.book == v.book && multiset(w.log) == multiset(u.log) + multiset(v.log)
  {
    hide SettleAll, NextDay, Environment, Quiet, Update, LastOf;
    UpdateQuiets(cfg, b, d1);
    QuietUpdateIs(cfg, b, d1);
    QuietUpdateIs(cfg, b, d2);
    QuietUpdateIs(cfg, Update(cfg, b, d1).book, d2);
    NextDayMonotone(b.lastUpdate, d1);
    NextDayMonotone(d1, d2);
    BatchTwice(cfg, b.positions, NextDay(b.lastUpdate), NextDay(d1), NextDay(d2), b.last);
  }

  lemma UpdateIdle(cfg: Config, b: Book, d: int)
    requires d <= b.lastUpdate
    ensures Update(cfg, b, d) == Done(b, [])
  {
  }

  /** Settling in between changes nothing: the same book, and the same records up to the order of equal dates. */
  lemma UpdateTwice(cfg: Config, b: Book, d1: int, d2: int)
    requires Environment(cfg) && Quiet(cfg, b) && b.lastUpdate <= d1 <= d2
    ensures var u := Update(cfg, b, d1);
            var v := Update(cfg, u.book, d2);
            var w := Update(cfg, b, d2);
            w.book == v.book && multiset(w.log) == multiset(u.log) + multiset(v.log)
  {
    QuietUpdate(cfg, b, d1);
    hide Update, Environment, Quiet;
    if b.lastUpdate == d1 {
      UpdateIdle(cfg, b, d1);
    } else if d1 == d2 {
      UpdateIdle(cfg, Update(cfg, b, d1).book, d2);
    } else {
      QuietIsOrdered(cfg, b);
      UpdateTwiceLater(cfg, b, d1, d2);
    }
  }
}
