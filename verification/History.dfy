/**
 Time travel: the history queries.  For a date before the last record they replay the log up to that date; the
 result is what the live account showed once it was settled at that date, whatever has happened since.
 */
module History {
  import opened Calendar
  import opened Accounts
  import opened Meters
  import opened Settlement
  import opened Runs

  // ---------------------------------------------------------------------------------------------------------
  // The log stays in date order

  ghost predicate Tidy(a: Account) {
    && a.trades != [] && Sorted(a.trades)
    && a.book.last == a.trades[|a.trades| - 1].datetime && a.book.last <= a.book.lastUpdate
  }

  lemma SortedAppend(x: seq<TradeRecord>, y: seq<TradeRecord>)
    requires Sorted(x) && Sorted(y) && forall r <- x, s <- y :: r.datetime <= s.datetime
    ensures Sorted(x + y)
  {
    forall i, j | 0 <= i < j < |x + y|
      ensures (x + y)[i].datetime <= (x + y)[j].datetime
    {
      if i < |x| <= j {
        assert x[i] in x && y[j - |x|] in y;
      }
    }
  }

  lemma TidyAppend(a: Account, log: seq<TradeRecord>, b: Book)
    requires Tidy(a) && Sorted(log) && (forall r <- log :: a.book.last <= r.datetime)
    requires b.last == LastOf(log, a.book.last) && b.last <= b.lastUpdate
    ensures Tidy(Account(b, a.trades + log))
  {
    forall r <- a.trades, s <- log
      ensures r.datetime <= s.datetime
    {
      var i :| 0 <= i < |a.trades| && a.trades[i] == r;
    }
    SortedAppend(a.trades, log);
  }

  lemma UpdateTidies(cfg: Config, a: Account, d: int)
    requires Environment(cfg) && Tidy(a)
    ensures Tidy(SettledAt(cfg, a, d))
    ensures a.book.last <= d ==> SettledAt(cfg, a, d).book.last <= d
  {
    SettleIsUpdate(cfg, a.book, d);
    if d <= a.book.lastUpdate {
      assert a.trades + [] == a.trades;
    } else {
      var u := Update(cfg, a.book, d);
      UpdateWindow(cfg, a.book, d);
      var s := SettleAll(cfg, a.book.positions.Keys, a.book.positions, NextDay(a.book.last), NextDay(d));
      SortedRecords(cfg, s.records);
      hide SettleAll;
      TidyAppend(a, u.log, u.book);
    }
  }

  lemma SameDateSorted(log: seq<TradeRecord>, d: int)
    requires forall r <- log :: r.datetime == d
    ensures Sorted(log)
  {
  }

  lemma SettledStepTidies(cfg: Config, a: Account, op: Op)
    requires Tidy(a) && a.book.last <= op.d <= a.book.lastUpdate
    ensures Tidy(Step(cfg, a, op))
  {
    hide Apply;
    ApplyAt(cfg, a.book, op);
    var q := Apply(cfg, a.book, op);
    SameDateSorted(q.log, op.d);
    if q.log != [] {
      assert q.log[|q.log| - 1] in q.log;
    }
    TidyAppend(a, q.log, q.book);
  }

  /** Every operation appends in date order, in or out of sequence itself. */
  lemma StepTidies(cfg: Config, a: Account, op: Op)
    requires Environment(cfg) && Tidy(a)
    ensures Tidy(Step(cfg, a, op))
  {
    TidyBefore(a);
    hide Apply, Refused, Update, Environment, Tidy, SettlesFirst;
    if Refused(cfg, a.book, op) {
      RefusedStep(cfg, a, op);
    } else if op.d < a.book.last {
      PastStep(cfg, a, op);
    } else {
      UpdateTidies(cfg, a, op.d);
      UpdateReaches(cfg, a.book, op.d);
      SettleIsUpdate(cfg, a.book, op.d);
      SettleFirst(cfg, a.book, op);
      StepSettlesFirst(cfg, a, op);
      SettledStepTidies(cfg, SettledAt(cfg, a, op.d), op);
    }
  }

  lemma PastStep(cfg: Config, a: Account, op: Op)
    requires a.book.last <= a.book.lastUpdate && !Refused(cfg, a.book, op) && op.d < a.book.last
    ensures Step(cfg, a, op) == a
  {
    assert op.OpSettle?;
    UpdateIdle(cfg, a.book, op.d);
    assert a.trades + [] == a.trades;
  }

  lemma OpenedTidy(cfg: Config, d: int, initCash: real)
    ensures Tidy(Opened(cfg, d, initCash)) && Quiet(cfg, Opened(cfg, d, initCash).book)
    ensures Opened(cfg, d, initCash).book.lastUpdate == d
  {
    QuietAtItsDate(cfg, Opened(cfg, d, initCash).book);
  }

  // ---------------------------------------------------------------------------------------------------------
  // The part of the log up to a date

  /** The records a replay reads before it breaks off at the first later one. */
  function Upto(log: seq<TradeRecord>, d: int): seq<TradeRecord> {
    if log == [] || log[0].datetime > d then [] else [log[0]] + Upto(log[1..], d)
  }

  lemma {:induction false} UptoIsPrefix(log: seq<TradeRecord>, d: int)
    ensures Upto(log, d) <= log && forall r <- Upto(log, d) :: r.datetime <= d
    ensures Sorted(log) ==> forall r <- log[|Upto(log, d)|..] :: r.datetime > d
  {
    if log != [] && log[0].datetime <= d {
      UptoIsPrefix(log[1..], d);
      assert Sorted(log) ==> Sorted(log[1..]);
      assert log[|Upto(log, d)|..] == log[1..][|Upto(log[1..], d)|..];
    }
  }

  lemma SplitUnique(front: multiset<TradeRecord>, back: multiset<TradeRecord>,
                    early: multiset<TradeRecord>, late: multiset<TradeRecord>, d: int)
    requires front + back == early + late
    requires (forall r <- front :: r.datetime <= d) && (forall r <- back :: r.datetime > d)
    requires (forall r <- early :: r.datetime <= d) && (forall r <- late :: r.datetime > d)
    ensures front == early
  {
    forall r: TradeRecord
      ensures front[r] == early[r]
    {
      assert (front + back)[r] == (early + late)[r];
      if r.datetime <= d {
        assert r !in back && r !in late;
      } else {
        assert r !in front && r !in early;
      }
    }
  }

  /** A sorted log that holds `early` records up to `d` and later ones besides replays to the early ones. */
  lemma UptoRecovers(log: seq<TradeRecord>, early: seq<TradeRecord>, late: seq<TradeRecord>, d: int)
    requires Sorted(log) && multiset(log) == multiset(early) + multiset(late)
    requires (forall r <- early :: r.datetime <= d) && (forall r <- late :: r.datetime > d)
    ensures multiset(Upto(log, d)) == multiset(early)
  {
    UptoIsPrefix(log, d);
    var front := Upto(log, d);
    var back := log[|front|..];
    assert log == front + back;
    SplitUnique(multiset(front), multiset(back), multiset(early), multiset(late), d);
  }

  // ---------------------------------------------------------------------------------------------------------
  // Looking back

  /** `a` holds the log of `t` and besides it only records later than `d`. */
  ghost predicate Extends(t: Account, a: Account, d: int) {
    d < a.book.lastUpdate
    && exists late: seq<TradeRecord> ::
         multiset(a.trades) == multiset(t.trades) + multiset(late) && forall r <- late :: r.datetime > d
  }

  /** The first operation after `d` settles what was outstanding at `d`, and adds only later records. */
  lemma FirstStepExtends(cfg: Config, a: Account, op: Op, d: int)
    requires Environment(cfg) && Quiet(cfg, a.book) && a.book.lastUpdate <= d < op.d && !Refused(cfg, a.book, op)
    ensures Extends(SettledAt(cfg, a, d), Step(cfg, a, op), d)
  {
    hide Environment, Quiet, Apply, Refused, Update, SettleStock;
    OperationInOrder(cfg, a.book, op);
    UpdateTwice(cfg, a.book, d, op.d);
    QuietUpdate(cfg, a.book, d);
    SettleIsUpdate(cfg, a.book, d);
    var u, p := Update(cfg, a.book, d), Apply(cfg, a.book, op);
    var v, w := Update(cfg, u.book, op.d), Update(cfg, a.book, op.d);
    QuietUpdateDates(cfg, u.book, op.d);
    var own := p.log[|w.log|..];
    var late := v.log + own;
    assert p.log == w.log + own;
    assert d < NextDay(d);
    assert forall r <- late :: r.datetime > d;
    assert Step(cfg, a, op).trades == a.trades + (w.log + own);
    assert SettledAt(cfg, a, d).trades == a.trades + u.log;
    assert multiset(Step(cfg, a, op).trades) == multiset(SettledAt(cfg, a, d).trades) + multiset(late);
  }

  lemma LaterStepExtends(cfg: Config, t: Account, a: Account, op: Op, d: int)
    requires Environment(cfg) && Quiet(cfg, a.book) && Extends(t, a, d) && a.book.lastUpdate <= op.d
    ensures Extends(t, Step(cfg, a, op), d)
  {
    hide Environment, Quiet, Apply, Refused, Update, SettleStock;
    OperationInOrder(cfg, a.book, op);
    QuietUpdateDates(cfg, a.book, op.d);
    var late: seq<TradeRecord> :|
      multiset(a.trades) == multiset(t.trades) + multiset(late) && forall r <- late :: r.datetime > d;
    var p := Apply(cfg, a.book, op);
    if Refused(cfg, a.book, op) {
      assert a.trades + [] == a.trades;
    } else {
      var w := Update(cfg, a.book, op.d);
      var own := p.log[|w.log|..];
      assert p.log == w.log + own;
      assert multiset(a.trades + p.log) == multiset(t.trades) + multiset(late + p.log);
      assert a.book.lastUpdate < NextDay(a.book.lastUpdate);
    }
  }

  lemma {:induction false} RunExtends(cfg: Config, a: Account, ops: seq<Op>, d: int)
    requires Environment(cfg) && Quiet(cfg, a.book) && Tidy(a) && a.book.lastUpdate <= d
    requires Chronological(ops, d + 1)
    ensures var e := Run(cfg, a, ops);
            Quiet(cfg, e.book) && Tidy(e) && (e == a || Extends(SettledAt(cfg, a, d), e, d))
            && e.book.lastUpdate <= if ops == [] then d else ops[|ops| - 1].d
    decreases |ops|
  {
    hide Environment, Quiet, Tidy, Refused, Apply, Extends;
    if ops != [] {
      var before, op := ops[..|ops| - 1], ops[|ops| - 1];
      RunExtends(cfg, a, before, d);
      var e := Run(cfg, a, before);
      StepTidies(cfg, e, op);
      OperationInOrder(cfg, e.book, op);
      if e != a {
        LaterStepExtends(cfg, SettledAt(cfg, a, d), e, op, d);
      } else if Refused(cfg, a.book, op) {
        RefusedStep(cfg, a, op);
      } else {
        FirstStepExtends(cfg, a, op, d);
      }
    }
  }

  /** What a history query answers for the date `d`: it settles first; from the last record on it reads the live
      account, before that it replays the log. */
  ghost function Asked(cfg: Config, a: Account, d: int, m: Meter): real {
    var s := SettledAt(cfg, a, d);
    if d >= s.book.last then Shown(s.book, m) else Sum(cfg, m, Upto(s.trades, d))
  }

  lemma SettledAlready(cfg: Config, a: Account, d: int)
    requires d <= a.book.lastUpdate
    ensures SettledAt(cfg, a, d) == a
  {
    UpdateIdle(cfg, a.book, d);
    SettleIsUpdate(cfg, a.book, d);
    assert a.trades + [] == a.trades;
  }

  lemma UptoOfExtension(t: Account, a: Account, d: int)
    requires Tidy(t) && Tidy(a) && Extends(t, a, d) && t.book.last <= d
    ensures multiset(Upto(a.trades, d)) == multiset(t.trades)
    ensures a.book.last <= d ==> Upto(a.trades, d) == a.trades
  {
    var late: seq<TradeRecord> :|
      multiset(a.trades) == multiset(t.trades) + multiset(late) && forall r <- late :: r.datetime > d;
    forall r <- t.trades
      ensures r.datetime <= d
    {
      var i :| 0 <= i < |t.trades| && t.trades[i] == r;
    }
    UptoRecovers(a.trades, t.trades, late, d);
    if a.book.last <= d {
      UptoAll(a.trades, d);
    }
  }

  lemma ExtendedAnswer(cfg: Config, t: Account, a: Account, d: int, m: Meter)
    requires Tidy(t) && Tidy(a) && Extends(t, a, d) && t.book.last <= d
    requires Explained(cfg, t, m) && Explained(cfg, a, m)
    ensures Asked(cfg, a, d, m) == Shown(t.book, m)
  {
    SettledAlready(cfg, a, d);
    UptoOfExtension(t, a, d);
    hide Shown, Reading, Sound, Apply, Update, Tidy, Extends, Upto, SettledAt;
    SumPermutation(cfg, m, Upto(a.trades, d), t.trades);
  }

  lemma {:induction false} UptoAll(log: seq<TradeRecord>, d: int)
    requires Sorted(log) && (log == [] || log[|log| - 1].datetime <= d)
    ensures Upto(log, d) == log
  {
    if log != [] {
      assert Sorted(log[1..]);
      UptoAll(log[1..], d);
    }
  }

  lemma SettledExplained(cfg: Config, a: Account, d: int, m: Meter)
    requires Environment(cfg) && Explained(cfg, a, m)
    ensures Explained(cfg, SettledAt(cfg, a, d), m)
  {
    OperationReads(cfg, m, a.book, OpSettle(d));
    SumAppend(cfg, m, a.trades, Apply(cfg, a.book, OpSettle(d)).log);
  }

  /** One look back: from an account with nothing outstanding, later operations do not change the answer for `d`. */
  lemma AnswerStands(cfg: Config, a: Account, later: seq<Op>, d: int, m: Meter)
    requires Environment(cfg) && Quiet(cfg, a.book) && Tidy(a) && Explained(cfg, a, m)
    requires a.book.lastUpdate <= d && Chronological(later, d + 1) && forall op <- later :: CoversOp(m, op)
    ensures Asked(cfg, Run(cfg, a, later), d, m) == Shown(SettledAt(cfg, a, d).book, m)
  {
    TidyBefore(a);
    hide Environment, Quiet, Tidy, Explained, Apply, Extends, CoversOp;
    RunExtends(cfg, a, later, d);
    RunExplained(cfg, a, later, m);
    SettledExplained(cfg, a, d, m);
    UpdateTidies(cfg, a, d);
    if Run(cfg, a, later) != a {
      ExtendedAnswer(cfg, SettledAt(cfg, a, d), Run(cfg, a, later), d, m);
    }
  }

  lemma TidyBefore(a: Account)
    requires Tidy(a)
    ensures a.book.last <= a.book.lastUpdate
  {
  }

  /** Time travel: in every run in date order, a query for the date `d`, asked after any later operations, answers
      what the live account showed when it was settled at `d`. */
  lemma QueriesTravelBack(cfg: Config, d0: int, initCash: real, earlier: seq<Op>, later: seq<Op>, d: int, m: Meter)
    requires Environment(cfg)
    requires Chronological(earlier + [OpSettle(d)], d0) && Chronological(later, d + 1)
    requires forall op <- earlier + later :: CoversOp(m, op)
    ensures var start := Opened(cfg, d0, initCash);
            Asked(cfg, Run(cfg, start, earlier + later), d, m)
            == Shown(SettledAt(cfg, Run(cfg, start, earlier), d).book, m)
  {
    var start := Opened(cfg, d0, initCash);
    OpenedTidy(cfg, d0, initCash);
    OpenedExplained(cfg, d0, initCash, m);
    ChronologicalFront(earlier, OpSettle(d), d0);
    hide Environment, Quiet, Tidy, Explained, Shown, Apply, CoversOp, Opened, Asked, Chronological;
    assert forall op <- earlier :: op in earlier + later;
    assert forall op <- later :: op in earlier + later;
    RunAppend(cfg, start, earlier, later);
    EarlierRun(cfg, start, earlier, d0, d);
    RunExplained(cfg, start, earlier, m);
    AnswerStands(cfg, Run(cfg, start, earlier), later, d, m);
  }

  lemma ChronologicalFront(ops: seq<Op>, op: Op, from: int)
    requires Chronological(ops + [op], from)
    ensures Chronological(ops, from) && from <= op.d && forall i :: 0 <= i < |ops| ==> ops[i].d <= op.d
  {
    var all := ops + [op];
    assert forall i :: 0 <= i < |ops| ==> ops[i] == all[i];
    assert all[|ops|] == op;
  }

  lemma {:induction false} EarlierRun(cfg: Config, a: Account, ops: seq<Op>, from: int, d: int)
    requires Environment(cfg) && Quiet(cfg, a.book) && Tidy(a) && a.book.lastUpdate <= from <= d
    requires Chronological(ops, from) && forall i :: 0 <= i < |ops| ==> ops[i].d <= d
    ensures var e := Run(cfg, a, ops);
            Quiet(cfg, e.book) && Tidy(e)
            && e.book.lastUpdate <= if ops == [] then from else ops[|ops| - 1].d
    decreases |ops|
  {
    hide Environment, Quiet, Tidy, Apply;
    if ops != [] {
      var before, op := ops[..|ops| - 1], ops[|ops| - 1];
      EarlierRun(cfg, a, before, from, d);
      var e := Run(cfg, a, before);
      StepTidies(cfg, e, op);
      OperationInOrder(cfg, e.book, op);
    }
  }
}
