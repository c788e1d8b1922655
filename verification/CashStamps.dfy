/**
 The cash the trade records carry.  A settlement stamps each record with the cash it finds, dividends so far included,
 and then adds the dividends of its sorted buffer up once more; the historical funds read the cash of a date from there.
 */
module CashStamps {
  import opened Calendar
  import opened Keys
  import opened Sequences
  import opened Rounding
  import opened Weights
  import opened Accounts
  import opened Meters
  import opened Settlement

  datatype Stamped = Stamped(record: TradeRecord, cash: int)

  function Dividend(r: TradeRecord): int {
    if r.business == Bonus then r.amount else 0
  }

  function Dividends(log: seq<TradeRecord>): int {
    if log == [] then 0 else Dividends(log[..|log| - 1]) + Dividend(log[|log| - 1])
  }

  /** The records of a settlement as they are made: each dividend is cash before its record is written. */
  function Made(log: seq<TradeRecord>, cash: int): seq<Stamped> {
    if log == [] then []
    else Made(log[..|log| - 1], cash) + [Stamped(log[|log| - 1], cash + Dividends(log))]
  }

  function Records(s: seq<Stamped>): seq<TradeRecord> {
    seq(|s|, i requires 0 <= i < |s| => s[i].record)
  }

  /** What the loop over the sorted buffer makes of it: every record gains the dividends up to it. */
  ghost predicate Adjusted(s: seq<Stamped>, t: seq<Stamped>) {
    |s| == |t| && forall j :: 0 <= j < |s| ==> t[j] == s[j].(cash := s[j].cash + Dividends(Records(s[..j + 1])))
  }

  lemma DividendsOfOneMore(s: seq<Stamped>, i: nat)
    requires i < |s|
    ensures Dividends(Records(s[..i + 1])) == Dividends(Records(s[..i])) + Dividend(s[i].record)
  {
    assert Records(s[..i + 1])[..i] == Records(s[..i]);
  }

  /** The inner loop: a dividend is added to every record from its own on. */
  method AddFrom(buffer: array<Stamped>, i: nat, bonus: int)
    requires i <= buffer.Length
    modifies buffer
    ensures forall j :: 0 <= j < buffer.Length ==>
              buffer[j] == old(if j < i then buffer[j] else buffer[j].(cash := buffer[j].cash + bonus))
  {
    for k := i to buffer.Length
      invariant forall j :: 0 <= j < buffer.Length ==>
                  buffer[j] == old(if i <= j < k then buffer[j].(cash := buffer[j].cash + bonus) else buffer[j])
    {
      buffer[k] := buffer[k].(cash := buffer[k].cash + bonus);
    }
  }

  /** The two loops over the sorted buffer. */
  method AddDividends(buffer: array<Stamped>)
    modifies buffer
    ensures Adjusted(old(buffer[..]), buffer[..])
  {
    hide Dividends, Records;
    ghost var s := buffer[..];
    assert Dividends(Records(s[..0])) == 0 by { NoDividends(s[..0]); }
    for i := 0 to buffer.Length
      invariant forall j :: 0 <= j < buffer.Length ==>
                  buffer[j] == s[j].(cash := s[j].cash + Dividends(Records(s[..if j < i then j + 1 else i])))
    {
      DividendsOfOneMore(s, i);
      if buffer[i].record.business == Bonus {
        AddFrom(buffer, i, buffer[i].record.amount);
      }
    }
  }

  lemma NoDividends(s: seq<Stamped>)
    requires s == []
    ensures Dividends(Records(s)) == 0
  {
  }

  lemma {:induction false} MadeAt(log: seq<TradeRecord>, cash: int, k: nat)
    requires k < |log|
    ensures |Made(log, cash)| == |log| && Made(log, cash)[k] == Stamped(log[k], cash + Dividends(log[..k + 1]))
    decreases |log|
  {
    if |log| > 1 {
      MadeAt(log[..|log| - 1], cash, if k < |log| - 1 then k else 0);
    }
    if k < |log| - 1 {
      assert log[..|log| - 1][..k + 1] == log[..k + 1];
    } else {
      assert log[..k + 1] == log;
    }
  }

  // ---------------------------------------------------------------------------------------------------------
  // A settlement

  lemma RecordsWithout(s: seq<Stamped>, i: nat)
    requires i < |s|
    ensures |RemoveAt(s, i)| < |s| && Records(RemoveAt(s, i)) == RemoveAt(Records(s), i)
    ensures multiset(Records(s)) == multiset(Records(RemoveAt(s, i))) + multiset{s[i].record}
  {
    MultisetRemoveAt(Records(s), i);
    assert Records(s)[i] in multiset(Records(s));
  }

  lemma {:induction false} RecordsPermute(s: seq<Stamped>, t: seq<Stamped>)
    requires multiset(s) == multiset(t)
    ensures multiset(Records(s)) == multiset(Records(t))
    decreases |s|
  {
    assert |multiset(s)| == |s| && |multiset(t)| == |t|;
    if s == [] {
      assert t == [];
    } else {
      assert s[0] in multiset(t);
      var i :| 0 <= i < |t| && t[i] == s[0];
      hide Records, RemoveAt;
      MultisetRemoveAt(s, 0);
      MultisetRemoveAt(t, i);
      RecordsWithout(s, 0);
      RecordsWithout(t, i);
      RecordsPermute(RemoveAt(s, 0), RemoveAt(t, i));
    }
  }

  lemma {:induction false} DividendsArePaid(cfg: Config, log: seq<TradeRecord>)
    requires forall r <- log :: r.business in {Bonus, Gift, Suogu}
    ensures Sum(cfg, Cash, log) == Dividends(log) as real
  {
    if log != [] {
      assert log[|log| - 1] in log;
      DividendsArePaid(cfg, log[..|log| - 1]);
    }
  }

  lemma MadeRecords(log: seq<TradeRecord>, cash: int)
    ensures Records(Made(log, cash)) == log
  {
    assert |Made(log, cash)| == |log| by {
      if log != [] {
        MadeAt(log, cash, 0);
      }
    }
    forall k | 0 <= k < |log|
      ensures Records(Made(log, cash))[k] == log[k]
    {
      MadeAt(log, cash, k);
    }
  }

  lemma DividendsPermute(cfg: Config, records: seq<TradeRecord>, log: seq<TradeRecord>)
    requires multiset(log) == multiset(records) && forall r <- records :: r.business in {Bonus, Gift, Suogu}
    ensures Dividends(log) == Dividends(records)
  {
    hide Dividends, Sum;
    forall r <- log
      ensures r.business in {Bonus, Gift, Suogu}
    {
      assert r in multiset(log);
    }
    SumPermutation(cfg, Cash, log, records);
    DividendsArePaid(cfg, records);
    DividendsArePaid(cfg, log);
  }

  lemma SortedDividends(cfg: Config, records: seq<TradeRecord>, cash: int, sorted: seq<Stamped>)
    requires forall r <- records :: r.business in {Bonus, Gift, Suogu}
    requires multiset(sorted) == multiset(Made(records, cash))
    ensures Dividends(Records(sorted)) == Dividends(records)
  {
    hide Dividends, Records, Made;
    MadeRecords(records, cash);
    RecordsPermute(sorted, Made(records, cash));
    DividendsPermute(cfg, records, Records(sorted));
  }

  lemma LastAdjusted(s: seq<Stamped>, t: seq<Stamped>)
    requires s != [] && Adjusted(s, t)
    ensures |t| == |s| && t[|t| - 1] == s[|s| - 1].(cash := s[|s| - 1].cash + Dividends(Records(s)))
  {
    hide Dividends, Records;
    assert s[..|s| - 1 + 1] == s;
  }

  /** The last record of the sorted and adjusted buffer: it carries its own stamp and all dividends once more. */
  lemma LastStamp(cfg: Config, records: seq<TradeRecord>, cash: int, sorted: seq<Stamped>, t: seq<Stamped>)
    requires records != [] && forall r <- records :: r.business in {Bonus, Gift, Suogu}
    requires multiset(sorted) == multiset(Made(records, cash)) && Adjusted(sorted, t)
    ensures |t| == |records|
    ensures exists k :: 0 <= k < |records| && t[|t| - 1]
                          == Stamped(records[k], cash + Dividends(records) + Dividends(records[..k + 1]))
  {
    SortedDividends(cfg, records, cash, sorted);
    hide Dividends, Records, Made, Adjusted;
    var made := Made(records, cash);
    MadeAt(records, cash, 0);
    assert |multiset(sorted)| == |sorted| && |multiset(made)| == |made|;
    LastAdjusted(sorted, t);
    var last := sorted[|sorted| - 1];
    assert last in multiset(made);
    var k :| 0 <= k < |made| && made[k] == last;
    MadeAt(records, cash, k);
  }

  lemma SortPermutes(cfg: Config, records: seq<TradeRecord>)
    requires Sorts(cfg)
    ensures multiset(cfg.sort(records)) == multiset(records)
  {
  }

  lemma SettledLog(cfg: Config, b: Book, d: int)
    requires Sorts(cfg) && b.lastUpdate < d
    ensures var records := SettleAll(cfg, b.positions.Keys, b.positions, NextDay(b.last), NextDay(d)).records;
            multiset(Update(cfg, b, d).log) == multiset(records)
  {
    hide SettleAll, NextDay, Sorts;
    SortPermutes(cfg, SettleAll(cfg, b.positions.Keys, b.positions, NextDay(b.last), NextDay(d)).records);
  }

  lemma SettledKinds(cfg: Config, b: Book, d: int)
    requires Sorts(cfg) && Sound(b) && b.lastUpdate < d
    ensures var records := SettleAll(cfg, b.positions.Keys, b.positions, NextDay(b.last), NextDay(d)).records;
            multiset(Update(cfg, b, d).log) == multiset(records)
            && forall r <- records :: r.business in {Bonus, Gift, Suogu}
  {
    hide SettleAll, NextDay, Update, Sorts;
    var records := SettleAll(cfg, b.positions.Keys, b.positions, NextDay(b.last), NextDay(d)).records;
    var log := Update(cfg, b, d).log;
    SettledLog(cfg, b, d);
    UpdateKinds(cfg, b, d);
    hide Sound;
    forall r <- records
      ensures r.business in {Bonus, Gift, Suogu}
    {
      assert r in multiset(log) && r in log;
    }
  }

  /** What a settlement adds to the cash is the sum of its dividends. */
  lemma SettledCash(cfg: Config, b: Book, d: int)
    requires Sorts(cfg) && Sound(b) && b.lastUpdate < d
    ensures var records := SettleAll(cfg, b.positions.Keys, b.positions, NextDay(b.last), NextDay(d)).records;
            Update(cfg, b, d).book.cash == b.cash + Dividends(records)
  {
    hide SettleAll, Sound, NextDay, Dividends, Update, Sorts, Sum;
    SettledKinds(cfg, b, d);
    var records := SettleAll(cfg, b.positions.Keys, b.positions, NextDay(b.last), NextDay(d)).records;
    UpdateReads(cfg, Cash, b, d);
    SumPermutation(cfg, Cash, Update(cfg, b, d).log, records);
    DividendsArePaid(cfg, records);
  }

  /** After a settlement the newest record carries the live cash and, on top of it, every dividend that was paid before
      it was written, its own included; so it carries the live cash exactly when these add up to nothing. */
  lemma NewestStampExactly(cfg: Config, b: Book, d: int, sorted: seq<Stamped>, t: seq<Stamped>)
    requires Sorts(cfg) && Sound(b) && b.lastUpdate < d
    requires var records := SettleAll(cfg, b.positions.Keys, b.positions, NextDay(b.last), NextDay(d)).records;
             records != [] && multiset(sorted) == multiset(Made(records, b.cash)) && Adjusted(sorted, t)
    ensures t != []
    ensures var records := SettleAll(cfg, b.positions.Keys, b.positions, NextDay(b.last), NextDay(d)).records;
            var newest, live := t[|t| - 1], Update(cfg, b, d).book.cash;
            exists k ::
              && 0 <= k < |records| && newest.record == records[k]
              && newest.cash == live + Dividends(records[..k + 1])
              && (newest.cash == live <==> Dividends(records[..k + 1]) == 0)
  {
    hide SettleAll, Sound, NextDay, Dividends, Made, Records, Adjusted, Update, Sorts;
    SettledKinds(cfg, b, d);
    SettledCash(cfg, b, d);
    var records := SettleAll(cfg, b.positions.Keys, b.positions, NextDay(b.last), NextDay(d)).records;
    LastStamp(cfg, records, b.cash, sorted, t);
  }

  lemma OneDividend(cfg: Config, p: Position)
    requires cfg.precision == 2 && cfg.weights(0) == [StockWeight(2 * DAY, 0.0, 0.0, 0.0, 10.0, 0.0, 0.0)]
    requires p.number == 10.0
    ensures var s := SettleStock(cfg, p, 0, NextDay(0), NextDay(2 * DAY));
            s.bonus == 1000 && |s.records| == 1 && s.records[0].business == Bonus && s.records[0].amount == 1000
  {
    var w := StockWeight(2 * DAY, 0.0, 0.0, 0.0, 10.0, 0.0, 0.0);
    assert [w][..0] == [] && Window([], NextDay(0), NextDay(2 * DAY)) == [];
    assert Window([w], NextDay(0), NextDay(2 * DAY)) == [w];
    TenIsRounded();
    hide RoundUnits;
    assert p.number * w.bonus * 0.1 == 10.0;
    var e := SettleEvent(cfg.precision, p, w);
    assert e.bonus == 1000 && |e.records| == 1 && e.records[0].business == Bonus && e.records[0].amount == 1000;
    assert SettleEvents(cfg.precision, p, []) == Settled(p, 0, []);
    assert [] + e.records == e.records;
  }

  lemma TenIsRounded()
    ensures RoundUnits(10.0, 2) == 1000
  {
    assert Pow10(2) == 100.0;
  }

  lemma OneSettlement(cfg: Config, b: Book, p: Position)
    requires cfg.precision == 2 && cfg.weights(0) == [StockWeight(2 * DAY, 0.0, 0.0, 0.0, 10.0, 0.0, 0.0)]
    requires b.last == 0 == b.lastUpdate && b.positions == map[0 := p] && p.number == 10.0
    ensures var records := SettleAll(cfg, b.positions.Keys, b.positions, NextDay(0), NextDay(2 * DAY)).records;
            |records| == 1 && Dividend(records[0]) == 1000 && Update(cfg, b, 2 * DAY).book.cash == b.cash + 1000
  {
    OneDividend(cfg, p);
    hide SettleStock, NextDay, Window;
    var s := SettleStock(cfg, p, 0, NextDay(0), NextDay(2 * DAY));
    assert b.positions.Keys == {0} && Least({0}) == 0 && {0} - {0} == {};
    var batch := SettleAll(cfg, b.positions.Keys, b.positions, NextDay(0), NextDay(2 * DAY));
    assert batch.records == s.records + [] == s.records && batch.bonus == 1000;
  }

  /** Ten shares and one dividend of 10.00: the record of it carries 20.00 more than before, the account 10.00. */
  lemma DividendCountedTwice(cfg: Config, b: Book, p: Position, t: seq<Stamped>)
    requires cfg.precision == 2 && cfg.weights(0) == [StockWeight(2 * DAY, 0.0, 0.0, 0.0, 10.0, 0.0, 0.0)]
    requires b.last == 0 == b.lastUpdate && b.positions == map[0 := p] && p.number == 10.0
    requires var records := SettleAll(cfg, b.positions.Keys, b.positions, NextDay(0), NextDay(2 * DAY)).records;
             Adjusted(Made(records, b.cash), t)
    ensures |t| == 1 && t[0].cash == b.cash + 2000 && Update(cfg, b, 2 * DAY).book.cash == b.cash + 1000
  {
    hide SettleAll, NextDay, Update, Records, Made;
    OneSettlement(cfg, b, p);
    var records := SettleAll(cfg, b.positions.Keys, b.positions, NextDay(0), NextDay(2 * DAY)).records;
    assert records[..1] == records && records[..0] == [];
    MadeAt(records, b.cash, 0);
    MadeRecords(records, b.cash);
    var made := Made(records, b.cash);
    assert made[..1] == made;
  }
}
