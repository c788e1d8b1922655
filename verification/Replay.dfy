/**
 The historical funds: `getFunds(datetime)` rebuilds the account by replaying its log.  The loop over the full log
 rebuilds the cash side of the live account; it rebuilds a holding exactly when the first number on record for the
 stock is whole, and a borrow queue exactly when every return has cut it at whole numbers.
 */
module Replay {
  import opened Options
  import opened Rounding
  import opened Fifo
  import opened Accounts
  import opened Plans
  import opened Meters
  import opened Settlement

  datatype Rebuilt = Rebuilt(
    longs: map<StockId, real>, shorts: map<StockId, real>, queues: map<StockId, seq<Lot>>,
    borrowCash: int, checkinCash: int, checkoutCash: int, checkinStock: int, checkoutStock: int)
  {
    function BaseCash(): int {
      checkinCash - checkoutCash
    }

    function BaseAsset(): int {
      checkinStock - checkoutStock
    }
  }

  const EMPTY := Rebuilt(map[], map[], map[], 0, 0, 0, 0, 0)

  /** The loop stores the first number of a stock, and every returned number, as an unsigned integer. */
  function Truncated(number: real): real {
    number.Floor as real
  }

  function Added(m: map<StockId, real>, id: StockId, number: real): map<StockId, real> {
    m[id := if id in m then m[id] + number else Truncated(number)]
  }

  function Subtracted(m: map<StockId, real>, id: StockId, number: real): map<StockId, real> {
    if id in m then m[id := m[id] - number] else m
  }

  function Lent(queues: map<StockId, seq<Lot>>, id: StockId, lot: Lot): map<StockId, seq<Lot>> {
    queues[id := (if id in queues then queues[id] else []) + [lot]]
  }

  /** The do-while loop of the replay: `n` is an unsigned integer, and what a whole lot leaves of it is cut to one. */
  function TakeTruncated(q: seq<Lot>, n: real): seq<Lot> {
    if q == [] then []
    else if n == q[0].number then q[1..]
    else if n < q[0].number then [q[0].(number := q[0].number - n)] + q[1..]
    else TakeTruncated(q[1..], Truncated(n - q[0].number))
  }

  function GivenBack(queues: map<StockId, seq<Lot>>, id: StockId, number: real): map<StockId, seq<Lot>> {
    if id !in queues then queues
    else
      var rest := TakeTruncated(queues[id], Truncated(number));
      if rest == [] then queues - {id} else queues[id := rest]
  }

  /** The running value of deposited or withdrawn stock, rounded after every record. */
  function StockTotal(cfg: Config, total: int, r: TradeRecord): int
    requires r.stock.Some?
  {
    RoundUnits(Value(total, cfg.precision) + Amount(cfg, r.stock.value, r.price, r.number), cfg.precision)
  }

  /** One turn of the replay loop. */
  function ReplayRecord(cfg: Config, f: Rebuilt, r: TradeRecord): Rebuilt {
    if r.stock.None? then
      match r.business
      case Init => f.(checkinCash := f.checkinCash + r.amount)
      case CashIn => f.(checkinCash := f.checkinCash + r.amount)
      case CashOut => f.(checkoutCash := f.checkoutCash + r.amount)
      case CashBorrowed => f.(borrowCash := f.borrowCash + r.amount)
      case CashReturned => f.(borrowCash := f.borrowCash - r.amount)
      case _ => f
    else
      var id := r.stock.value;
      match r.business
      case BuyIn => f.(longs := Added(f.longs, id, r.number))
      case Gift => f.(longs := Added(f.longs, id, r.number))
      case Suogu => f.(longs := Added(f.longs, id, r.number))
      case StockIn => f.(longs := Added(f.longs, id, r.number), checkinStock := StockTotal(cfg, f.checkinStock, r))
      case SellOut => f.(longs := Subtracted(f.longs, id, r.number))
      case StockOut =>
        f.(longs := Subtracted(f.longs, id, r.number), checkoutStock := StockTotal(cfg, f.checkoutStock, r))
      case ShortSold => f.(shorts := Added(f.shorts, id, r.number))
      case ShortCovered => f.(shorts := Subtracted(f.shorts, id, r.number))
      case StockBorrowed => f.(queues := Lent(f.queues, id, Lot(r.datetime, r.price, r.number)))
      case StockReturned => f.(queues := GivenBack(f.queues, id, r.number))
      case _ => f
  }

  function ReplayFrom(cfg: Config, f: Rebuilt, log: seq<TradeRecord>): Rebuilt {
    if log == [] then f else ReplayRecord(cfg, ReplayFrom(cfg, f, log[..|log| - 1]), log[|log| - 1])
  }

  lemma {:induction false} ReplayInTwo(cfg: Config, f: Rebuilt, x: seq<TradeRecord>, y: seq<TradeRecord>)
    ensures ReplayFrom(cfg, f, x + y) == ReplayFrom(cfg, ReplayFrom(cfg, f, x), y)
    decreases |y|
  {
    hide ReplayRecord;
    if y == [] {
      assert x + y == x;
    } else {
      assert (x + y)[..|x + y| - 1] == x + y[..|y| - 1];
      ReplayInTwo(cfg, f, x, y[..|y| - 1]);
    }
  }

  lemma ReplayOne(cfg: Config, f: Rebuilt, r: TradeRecord)
    ensures ReplayFrom(cfg, f, [r]) == ReplayRecord(cfg, f, r)
  {
    hide ReplayRecord;
    assert [r][..0] == [];
    assert ReplayFrom(cfg, f, []) == f;
  }

  // ---------------------------------------------------------------------------------------------------------
  // Cash and holdings

  function Entry(m: map<StockId, real>, id: StockId): real {
    if id in m then m[id] else 0.0
  }

  /** Long or short holdings. */
  datatype Side = LongSide | ShortSide

  function Numbers(f: Rebuilt, side: Side): map<StockId, real> {
    if side.LongSide? then f.longs else f.shorts
  }

  function Positions(b: Book, side: Side): map<StockId, Position> {
    if side.LongSide? then b.positions else b.shorts
  }

  function MeterOf(side: Side, id: StockId): Meter {
    if side.LongSide? then Long(id) else Short(id)
  }

  predicate Adds(side: Side, id: StockId, r: TradeRecord) {
    r.stock == Some(id)
    && if side.LongSide? then r.business in {BuyIn, Gift, StockIn, Suogu} else r.business == ShortSold
  }

  predicate Takes(side: Side, id: StockId, r: TradeRecord) {
    r.stock == Some(id) && if side.LongSide? then r.business in {SellOut, StockOut} else r.business == ShortCovered
  }

  /** The first number the log adds to a holding. */
  function First(side: Side, id: StockId, log: seq<TradeRecord>): Option<real> {
    if log == [] then None
    else
      var first, r := First(side, id, log[..|log| - 1]), log[|log| - 1];
      if first.None? && Adds(side, id, r) then Some(r.number) else first
  }

  /** What the replay loses of a holding: the fraction of its first number. */
  function Lost(side: Side, id: StockId, log: seq<TradeRecord>): real {
    var first := First(side, id, log);
    if first.None? then 0.0 else first.value - Truncated(first.value)
  }

  /** C++ leaves it undefined what unsigned integer a negative number becomes. */
  predicate FirstIsNegative(side: Side, id: StockId, log: seq<TradeRecord>) {
    var first := First(side, id, log);
    first.Some? && first.value < 0.0
  }

  predicate FirstIsWhole(side: Side, id: StockId, log: seq<TradeRecord>) {
    var first := First(side, id, log);
    first.Some? ==> Truncated(first.value) == first.value
  }

  /** Nothing is taken from a holding before something is added to it. */
  predicate Backed(side: Side, id: StockId, log: seq<TradeRecord>) {
    log == []
    || (Backed(side, id, log[..|log| - 1])
        && (Takes(side, id, log[|log| - 1]) ==> First(side, id, log[..|log| - 1]).Some?))
  }

  lemma {:induction false} NumbersOfLog(cfg: Config, side: Side, id: StockId, log: seq<TradeRecord>)
    requires Backed(side, id, log)
    ensures var m := Numbers(ReplayFrom(cfg, EMPTY, log), side);
            (id in m <==> First(side, id, log).Some?)
            && Entry(m, id) == Sum(cfg, MeterOf(side, id), log) - Lost(side, id, log)
  {
    if log != [] {
      NumbersOfLog(cfg, side, id, log[..|log| - 1]);
      NumbersOfRecord(cfg, side, id, ReplayFrom(cfg, EMPTY, log[..|log| - 1]), log[|log| - 1]);
      hide ReplayRecord, Adds, Takes, Reading, Truncated;
    }
  }

  lemma NumbersOfRecord(cfg: Config, side: Side, id: StockId, f: Rebuilt, r: TradeRecord)
    ensures var m, m' := Numbers(f, side), Numbers(ReplayRecord(cfg, f, r), side);
            m' == if Adds(side, id, r) then Added(m, id, r.number)
                  else if Takes(side, id, r) then Subtracted(m, id, r.number)
                  else m'
    ensures var m, m' := Numbers(f, side), Numbers(ReplayRecord(cfg, f, r), side);
            !Adds(side, id, r) && !Takes(side, id, r) ==> (id in m' <==> id in m) && Entry(m', id) == Entry(m, id)
    ensures Reading(cfg, MeterOf(side, id), r)
         == if Adds(side, id, r) then r.number else if Takes(side, id, r) then -r.number else 0.0
  {
    hide Truncated, StockTotal, GivenBack, Lent;
  }

  predicate NamesNoStock(r: TradeRecord) {
    r.business in {Init, CashIn, CashOut, CashBorrowed, CashReturned} ==> r.stock.None?
  }

  lemma CashOfRecord(cfg: Config, f: Rebuilt, r: TradeRecord)
    requires NamesNoStock(r)
    ensures var g := ReplayRecord(cfg, f, r);
            && g.borrowCash as real == f.borrowCash as real + Reading(cfg, DebtCash, r)
            && g.BaseCash() as real == f.BaseCash() as real + Reading(cfg, BaseCash, r)
  {
    hide Added, Subtracted, Lent, GivenBack, StockTotal, CashFlow, RecordWorth;
    if r.stock.Some? {
      assert Reading(cfg, DebtCash, r) == 0.0 == Reading(cfg, BaseCash, r);
    }
  }

  lemma {:induction false} CashOfLog(cfg: Config, log: seq<TradeRecord>)
    requires forall r <- log :: NamesNoStock(r)
    ensures var f := ReplayFrom(cfg, EMPTY, log);
            f.borrowCash as real == Sum(cfg, DebtCash, log) && f.BaseCash() as real == Sum(cfg, BaseCash, log)
  {
    hide ReplayRecord, Reading;
    if log != [] {
      assert log[|log| - 1] in log;
      CashOfLog(cfg, log[..|log| - 1]);
      CashOfRecord(cfg, ReplayFrom(cfg, EMPTY, log[..|log| - 1]), log[|log| - 1]);
    }
  }

  // ---------------------------------------------------------------------------------------------------------
  // The logs of runs

  lemma {:induction false} FirstStays(side: Side, id: StockId, log: seq<TradeRecord>, more: seq<TradeRecord>)
    requires First(side, id, log).Some?
    ensures First(side, id, log + more).Some?
    decreases |more|
  {
    hide Adds;
    if more == [] {
      assert log + more == log;
    } else {
      assert (log + more)[..|log + more| - 1] == log + more[..|more| - 1];
      FirstStays(side, id, log, more[..|more| - 1]);
    }
  }

  lemma {:induction false} NothingTaken(side: Side, id: StockId, log: seq<TradeRecord>, more: seq<TradeRecord>)
    requires Backed(side, id, log) && forall r <- more :: !Takes(side, id, r)
    ensures Backed(side, id, log + more)
    decreases |more|
  {
    hide Takes;
    if more == [] {
      assert log + more == log;
    } else {
      assert (log + more)[..|log + more| - 1] == log + more[..|more| - 1];
      assert more[|more| - 1] in more;
      NothingTaken(side, id, log, more[..|more| - 1]);
    }
  }

  /** What the log says of cash names no stock, and every open holding has been added to. */
  ghost predicate Recorded(b: Book, side: Side, id: StockId, log: seq<TradeRecord>) {
    && (forall r <- log :: NamesNoStock(r))
    && Backed(side, id, log) && (id in Positions(b, side) ==> First(side, id, log).Some?)
  }

  lemma CashNamesNoStock(cfg: Config, b: Book, p: Posting)
    requires !p.DoSettle?
    ensures forall r <- Do(cfg, b, p).log :: NamesNoStock(r)
  {
    hide Rounding.RoundUnits, Rounding.Value, Worth, ShortProceeds, WholeMoney, LoanReturnCost, StockReturnCost,
         ReturnedWorth, TakeOldest, Shortfall, Update;
  }

  /** A posting other than a settlement takes from open holdings, and opens one only with a record of it. */
  lemma PostingOpens(cfg: Config, b: Book, p: Posting, side: Side, id: StockId)
    requires !p.DoSettle?
    ensures var q := Do(cfg, b, p);
            (forall r <- q.log :: Takes(side, id, r) ==> id in Positions(b, side))
            && (id in Positions(q.book, side) && id !in Positions(b, side) ==> q.log != [] && Adds(side, id, q.log[0]))
  {
    hide Rounding.RoundUnits, Rounding.Value, Worth, ShortProceeds, WholeMoney, LoanReturnCost, StockReturnCost,
         ReturnedWorth, TakeOldest, Shortfall, Update;
  }

  lemma SettlementTakesNothing(cfg: Config, b: Book, d: int, side: Side, id: StockId)
    requires Sorts(cfg) && Sound(b)
    ensures forall r <- Update(cfg, b, d).log :: !Takes(side, id, r) && NamesNoStock(r)
  {
    hide Update, Sorts;
    UpdateKinds(cfg, b, d);
  }

  lemma SettleRecords(cfg: Config, b: Book, d: int, side: Side, id: StockId, log: seq<TradeRecord>)
    requires Sorts(cfg) && Sound(b) && Recorded(b, side, id, log)
    ensures Recorded(Update(cfg, b, d).book, side, id, log + Update(cfg, b, d).log)
  {
    SettlementTakesNothing(cfg, b, d, side, id);
    UpdateOnlySettles(cfg, b, d);
    hide Update, Sorts, Sound, First, Backed, Takes, NamesNoStock;
    var more := Update(cfg, b, d).log;
    NothingTaken(side, id, log, more);
    if First(side, id, log).Some? {
      FirstStays(side, id, log, more);
    }
  }

  lemma RecordFollows(side: Side, id: StockId, log: seq<TradeRecord>, r: TradeRecord)
    requires Backed(side, id, log) && (Takes(side, id, r) ==> First(side, id, log).Some?)
    ensures Backed(side, id, log + [r])
    ensures First(side, id, log).Some? || Adds(side, id, r) ==> First(side, id, log + [r]).Some?
  {
    hide Takes, Adds;
    assert (log + [r])[..|log + [r]| - 1] == log;
  }

  lemma PostingRecords(cfg: Config, b: Book, p: Posting, side: Side, id: StockId, log: seq<TradeRecord>)
    requires Sorts(cfg) && Sound(b) && Recorded(b, side, id, log)
    ensures Recorded(Do(cfg, b, p).book, side, id, log + Do(cfg, b, p).log)
  {
    if p.DoSettle? {
      SettleRecords(cfg, b, p.d, side, id, log);
    } else {
      hide Do, Sorts, Sound, Adds, Takes, NamesNoStock, First, Backed;
      var q := Do(cfg, b, p);
      PostedKind(cfg, b, p);
      CashNamesNoStock(cfg, b, p);
      PostingOpens(cfg, b, p, side, id);
      if q.log == [] {
        assert log + q.log == log;
      } else {
        assert q.log == [q.log[0]];
        assert q.log[0] in q.log;
        RecordFollows(side, id, log, q.log[0]);
      }
    }
  }

  lemma {:induction false} PlanRecords(cfg: Config, b: Book, plan: seq<Posting>, side: Side, id: StockId,
                                       log: seq<TradeRecord>)
    requires Sorts(cfg) && Sound(b) && Recorded(b, side, id, log) && AllChecked(cfg, b, plan)
    ensures Recorded(Execute(cfg, b, plan).book, side, id, log + Execute(cfg, b, plan).log)
    decreases |plan|
  {
    hide Sorts, Sound, Recorded, Do, Checked;
    if plan == [] {
      assert log + [] == log;
    } else {
      var q := Do(cfg, b, plan[0]);
      var rest := Execute(cfg, q.book, plan[1..]).log;
      PostingRecords(cfg, b, plan[0], side, id, log);
      PostingReads(cfg, Cash, b, plan[0]);
      PlanRecords(cfg, q.book, plan[1..], side, id, log + q.log);
      assert log + (q.log + rest) == log + q.log + rest;
    }
  }

  lemma {:induction false} RunRecords(cfg: Config, d: int, initCash: real, ops: seq<Op>, side: Side, id: StockId)
    requires Sorts(cfg)
    ensures var a := Run(cfg, Opened(cfg, d, initCash), ops);
            Sound(a.book) && Recorded(a.book, side, id, a.trades)
    decreases |ops|
  {
    var start := Opened(cfg, d, initCash);
    if ops == [] {
      OpenedExplained(cfg, d, initCash, Cash);
      RecordFollows(side, id, [], start.trades[0]);
      assert [] + [start.trades[0]] == start.trades;
    } else {
      hide Opened, Sorts, Sound, Recorded, Apply, Plan, Execute, Shown, Reading;
      var before, op := ops[..|ops| - 1], ops[|ops| - 1];
      var a := Run(cfg, start, before);
      RunRecords(cfg, d, initCash, before, side, id);
      OperationIsItsPlan(cfg, a.book, op);
      PlanRecords(cfg, a.book, Plan(cfg, a.book, op), side, id, a.trades);
      OperationReads(cfg, Cash, a.book, op);
    }
  }

  /** Over every run, the replay of the full log rebuilds the borrowed cash and the cash base; and of each holding it
      loses the fraction of the first number on record, so that it rebuilds the holding exactly when that is whole. */
  lemma ReplayRebuilds(cfg: Config, d: int, initCash: real, ops: seq<Op>, side: Side, id: StockId)
    requires Sorts(cfg)
    ensures var a := Run(cfg, Opened(cfg, d, initCash), ops);
            var f := ReplayFrom(cfg, EMPTY, a.trades);
            var rebuilt, live := Entry(Numbers(f, side), id), NumberIn(Positions(a.book, side), id);
            && f.borrowCash == a.book.borrowCash && f.BaseCash() == a.book.checkinCash - a.book.checkoutCash
            && (id in Positions(a.book, side) ==> id in Numbers(f, side))
            && (!FirstIsNegative(side, id, a.trades) ==>
                  rebuilt == live - Lost(side, id, a.trades)
                  && (rebuilt == live <==> FirstIsWhole(side, id, a.trades)))
  {
    hide Run, Opened, Sorts, Sound, ReplayFrom, First, Backed, Truncated, Numbers, Sum;
    var a := Run(cfg, Opened(cfg, d, initCash), ops);
    RunRecords(cfg, d, initCash, ops, side, id);
    LogExplainsBook(cfg, d, initCash, ops, MeterOf(side, id));
    LogExplainsBook(cfg, d, initCash, ops, DebtCash);
    LogExplainsBook(cfg, d, initCash, ops, BaseCash);
    NumbersOfLog(cfg, side, id, a.trades);
    CashOfLog(cfg, a.trades);
  }

  lemma RunOfOne(cfg: Config, a: Account, op: Op)
    ensures Run(cfg, a, [op]) == Step(cfg, a, op)
  {
    hide Step;
    assert [op][..0] == [];
    assert Run(cfg, a, []) == a;
  }

  lemma RunOfTwo(cfg: Config, a: Account, x: Op, y: Op)
    ensures Run(cfg, a, [x, y]) == Step(cfg, Step(cfg, a, x), y)
  {
    hide Step;
    assert [x, y][..1] == [x];
    RunOfOne(cfg, a, x);
  }

  /** One share and a half deposited: the replay finds one share. */
  lemma FractionIsLost(cfg: Config, d: int)
    ensures var a := Run(cfg, Opened(cfg, d, 0.0), [OpCheckinStock(d, Some(0), 10.0, 1.5)]);
            NumberIn(a.book.positions, 0) == 1.5 && Entry(ReplayFrom(cfg, EMPTY, a.trades).longs, 0) == 1.0
  {
    var start := Opened(cfg, d, 0.0);
    var r := ShareRecord(StockIn, 0, d, 10.0, 1.5, 0);
    RunOfOne(cfg, start, OpCheckinStock(d, Some(0), 10.0, 1.5));
    hide RoundUnits, Amount, Value, Rounding.RoundEx;
    assert Step(cfg, start, OpCheckinStock(d, Some(0), 10.0, 1.5)).trades == start.trades + [r];
    ReplayInTwo(cfg, EMPTY, start.trades, [r]);
    ReplayOne(cfg, EMPTY, start.trades[0]);
    assert start.trades == [start.trades[0]];
    ReplayOne(cfg, ReplayFrom(cfg, EMPTY, start.trades), r);
    assert Truncated(1.5) == 1.0;
  }
}
