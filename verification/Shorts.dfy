/**
 Automatic stock borrowing.  When an account borrows what it sells short and gives back what it covers, each stock's
 short number is its borrowed number, and the two entries appear and vanish together.
 */
module Shorts {
  import opened Rounding
  import opened Fifo
  import opened Accounts
  import opened Plans
  import opened Meters
  import opened Settlement
  import opened History

  // ---------------------------------------------------------------------------------------------------------
  // Positive numbers

  /** The source turns away a borrowed or returned number of zero only; a negative one is outside the queues. */
  predicate PositiveOp(op: Op) {
    (op.OpBorrowStock? || op.OpReturnStock?) ==> op.number > 0.0
  }

  ghost predicate PositiveMinimum(cfg: Config) {
    forall id: StockId :: cfg.minNumber(id) >= 0.0
  }

  predicate PositivePosting(p: Posting) {
    (p.DoBorrowStock? || p.DoReturnStock?) ==> p.number > 0.0
  }

  /** Borrowed lots and short positions are real ones. */
  ghost predicate RealShorts(b: Book) {
    && (forall id <- b.borrowed :: Positive(b.borrowed[id].lots))
    && (forall id <- b.shorts :: b.shorts[id].number > 0.0)
  }

  lemma ReturnKeepsReal(cfg: Config, b: Book, d: int, id: StockId, price: real, number: real)
    requires RealShorts(b)
    ensures RealShorts(PostReturnStock(cfg, b, d, id, price, number).book)
  {
    hide StockReturnCost, ReturnedWorth, TakeOldest;
    if id in b.borrowed {
      TakeOldestSigns(b.borrowed[id].lots, number);
    }
  }

  lemma SellShortKeepsReal(cfg: Config, b: Book, d: int, id: StockId, price: real, number: real)
    requires Sound(b) && RealShorts(b) && number > 0.0
    ensures RealShorts(PostSellShort(cfg, b, d, id, price, number).book)
  {
    hide ShortProceeds, WholeMoney;
    if id in b.borrowed {
      TotalNonNegative(b.borrowed[id].lots);
    }
  }

  lemma BuyShortKeepsReal(cfg: Config, b: Book, d: int, id: StockId, price: real, q: Quantity)
    requires RealShorts(b) && id in b.shorts && (q.Shares? ==> q.number > 0.0)
    ensures RealShorts(PostBuyShort(cfg, b, d, id, price, q).book)
    ensures PostBuyShort(cfg, b, d, id, price, q).trade.value.number > 0.0
  {
    hide Worth;
  }

  lemma PostingKeepsReal(cfg: Config, b: Book, p: Posting)
    requires Sound(b) && RealShorts(b) && PositiveMinimum(cfg) && Checked(cfg, b, p) && PositivePosting(p)
    ensures RealShorts(Do(cfg, b, p).book)
  {
    match p {
      case DoSettle(d) => UpdateOnlySettles(cfg, b, d);
      case DoReturnStock(d, id, price, number) => ReturnKeepsReal(cfg, b, d, id, price, number);
      case DoSellShort(d, id, price, number) =>
        hide PostSellShort;
        SellShortKeepsReal(cfg, b, d, id, price, number);
      case DoBuyShort(d, id, price, q) =>
        hide PostBuyShort;
        BuyShortKeepsReal(cfg, b, d, id, price, q);
      case _ => hide RoundUnits, RoundUp, Value, LoanReturnCost, TakeOldest, Total, Shortfall, Worth, ShortProceeds;
    }
  }

  lemma {:induction false} PlanKeepsReal(cfg: Config, b: Book, plan: seq<Posting>)
    requires Sorts(cfg) && Sound(b) && RealShorts(b) && PositiveMinimum(cfg) && AllChecked(cfg, b, plan)
    requires AllPositive(plan)
    ensures RealShorts(Execute(cfg, b, plan).book)
    decreases |plan|
  {
    hide Sorts, Sound, RealShorts, PositiveMinimum, Do, Checked;
    if plan != [] {
      PostingKeepsReal(cfg, b, plan[0]);
      PostingReads(cfg, Cash, b, plan[0]);
      PlanKeepsReal(cfg, Do(cfg, b, plan[0]).book, plan[1..]);
    }
  }

  ghost predicate AllPositive(plan: seq<Posting>) {
    forall i :: 0 <= i < |plan| ==> PositivePosting(plan[i])
  }

  lemma BorrowForShortPlanPositive(cfg: Config, b: Book, d: int, id: StockId, price: real, number: real)
    requires number > 0.0
    ensures AllPositive(BorrowForShortPlan(cfg, b, d, id, price, number))
  {
    hide Checkin, RoundUnits, RoundEx, Value, ShortGap;
  }

  lemma OrderPlanPositive(cfg: Config, b: Book, op: Op)
    requires op.OpBuy? || op.OpSell?
    ensures AllPositive(Plan(cfg, b, op))
  {
    hide Update, Checkin, PostSell, RoundUnits, RoundUp, Value, Worth, PurchaseGap, TradableNumber, TradableQuantity;
  }

  /** Positive operations post positive numbers; what a cover gives back is what it covered. */
  lemma PlanPositive(cfg: Config, b: Book, op: Op)
    requires Sorts(cfg) && Sound(b) && RealShorts(b) && PositiveMinimum(cfg) && PositiveOp(op)
    ensures AllPositive(Plan(cfg, b, op))
  {
    hide Update, RoundUnits, RoundUp, Value, Worth, Sorts, Sound, RealShorts, PositiveMinimum;
    match op {
      case OpBuyShort(_, _, _, _) => BuyShortPlanPositive(cfg, b, op);
      case OpSellShort(_, _, _, _, _) => SellShortPlanPositive(cfg, b, op);
      case OpBuy(_, _, _, _) => OrderPlanPositive(cfg, b, op);
      case OpSell(_, _, _, _) => OrderPlanPositive(cfg, b, op);
      case _ => OtherPlanPositive(cfg, b, op);
    }
  }

  lemma OtherPlanPositive(cfg: Config, b: Book, op: Op)
    requires PositiveOp(op) && !op.OpBuyShort? && !op.OpSellShort? && !op.OpBuy? && !op.OpSell?
    ensures AllPositive(Plan(cfg, b, op))
  {
    hide Update, RoundUnits, RoundUp, Value, Worth;
  }

  lemma SellShortPlanPositive(cfg: Config, b: Book, op: Op)
    requires PositiveMinimum(cfg) && PositiveOp(op) && op.OpSellShort?
    ensures AllPositive(Plan(cfg, b, op))
  {
    hide Update, BorrowForShortPlan;
    if !(op.stock.None? || !TradableNumber(cfg, op.stock.value, op.number)) {
      BorrowForShortPlanPositive(cfg, Update(cfg, b, op.d).book, op.d, op.stock.value, op.price, op.number);
    }
  }

  lemma BuyShortPlanPositive(cfg: Config, b: Book, op: Op)
    requires Sorts(cfg) && Sound(b) && RealShorts(b) && PositiveMinimum(cfg) && op.OpBuyShort?
    ensures AllPositive(Plan(cfg, b, op))
  {
    UpdateOnlySettles(cfg, b, op.d);
    hide Update, PostBuyShort, TakeOldest, Total;
    if Plan(cfg, b, op) != [] {
      BuyShortKeepsReal(cfg, Update(cfg, b, op.d).book, op.d, op.stock.value, op.price, op.q);
    }
  }

  lemma OperationKeepsReal(cfg: Config, b: Book, op: Op)
    requires Sorts(cfg) && Sound(b) && RealShorts(b) && PositiveMinimum(cfg) && PositiveOp(op)
    ensures Sound(Apply(cfg, b, op).book) && RealShorts(Apply(cfg, b, op).book)
  {
    hide Sorts, Sound, RealShorts, PositiveMinimum, Apply, Plan, Execute, Shown, Reading;
    OperationReads(cfg, Cash, b, op);
    OperationIsItsPlan(cfg, b, op);
    PlanPositive(cfg, b, op);
    PlanKeepsReal(cfg, b, Plan(cfg, b, op));
  }

  // ---------------------------------------------------------------------------------------------------------
  // Short is borrowed

  ghost predicate Matched(b: Book) {
    && b.shorts.Keys == b.borrowed.Keys
    && forall id <- b.shorts :: b.shorts[id].number == b.borrowed[id].number
  }

  /** Everything but direct stock loans. */
  predicate Submitted(op: Op) {
    !op.OpBorrowStock? && !op.OpReturnStock?
  }

  predicate LeavesShorts(p: Posting) {
    !p.DoBorrowStock? && !p.DoReturnStock? && !p.DoSellShort? && !p.DoBuyShort?
  }

  lemma PostingLeavesShorts(cfg: Config, b: Book, p: Posting)
    requires LeavesShorts(p)
    ensures Do(cfg, b, p).book.shorts == b.shorts && Do(cfg, b, p).book.borrowed == b.borrowed
  {
    if p.DoSettle? {
      UpdateOnlySettles(cfg, b, p.d);
    }
    hide Update, RoundUnits, Value, Worth, LoanReturnCost, TakeOldest;
  }

  lemma {:induction false} PlanLeavesShorts(cfg: Config, b: Book, plan: seq<Posting>)
    requires forall i :: 0 <= i < |plan| ==> LeavesShorts(plan[i])
    ensures var e := Execute(cfg, b, plan).book;
            e.shorts == b.shorts && e.borrowed == b.borrowed
    decreases |plan|
  {
    hide Do;
    if plan != [] {
      PostingLeavesShorts(cfg, b, plan[0]);
      PlanLeavesShorts(cfg, Do(cfg, b, plan[0]).book, plan[1..]);
    }
  }

  lemma OtherOperationLeavesShorts(cfg: Config, b: Book, op: Op)
    requires Submitted(op) && !op.OpSellShort? && !op.OpBuyShort?
    ensures Apply(cfg, b, op).book.shorts == b.shorts && Apply(cfg, b, op).book.borrowed == b.borrowed
  {
    hide Apply, Plan, Execute, Submitted;
    OperationIsItsPlan(cfg, b, op);
    PlanWithoutShorts(cfg, b, op);
    PlanLeavesShorts(cfg, b, Plan(cfg, b, op));
  }

  lemma PlanWithoutShorts(cfg: Config, b: Book, op: Op)
    requires Submitted(op) && !op.OpSellShort? && !op.OpBuyShort?
    ensures forall i :: 0 <= i < |Plan(cfg, b, op)| ==> LeavesShorts(Plan(cfg, b, op)[i])
  {
    hide Apply, Update, Checkin, PostSell, RoundUnits, RoundUp, Value, Worth, PurchaseGap, TradableNumber,
         TradableQuantity;
  }

  /** On a settled book, the loan a short sale takes is not refused and adds exactly the number sold. */
  lemma ShortIsBorrowed(cfg: Config, b: Book, d: int, id: StockId, price: real, number: real)
    requires cfg.borrowStock && b.last <= d <= b.lastUpdate && price > 0.0 && number > 0.0
    ensures var c := BorrowForShort(cfg, b, d, id, price, number).book;
            c.shorts == b.shorts && c.borrowed.Keys == b.borrowed.Keys + {id}
            && c.borrowed[id].number == BorrowedNumber(b, id) + number
            && forall k <- b.borrowed :: k != id ==> c.borrowed[k] == b.borrowed[k]
  {
    hide RoundUnits, RoundEx, Value, ShortGap, Worth;
    UpdateIdle(cfg, b, d);
    var n := cfg.precision;
    var gap := ShortGap(cfg, b, d, id, price, number);
    var c := if gap > 0 then Checkin(cfg, b, d, RoundEx(Value(gap, n), n)).book else b;
    assert c.shorts == b.shorts && c.borrowed == b.borrowed && c.last <= d && c.lastUpdate == b.lastUpdate;
    UpdateIdle(cfg, c, d);
    hide Update, Checkin;
  }

  lemma SellShortMatches(cfg: Config, b: Book, d: int, id: StockId, price: real, number: real)
    requires cfg.borrowStock && Sound(b) && Matched(b) && RealShorts(b)
    requires b.last <= d <= b.lastUpdate && price > 0.0 && number > 0.0
    ensures Matched(PostSellShort(cfg, BorrowForShort(cfg, b, d, id, price, number).book, d, id, price, number).book)
  {
    ShortIsBorrowed(cfg, b, d, id, price, number);
    hide BorrowForShort, ShortProceeds, WholeMoney, Total, Sound;
  }

  /** At no price the loan is refused, and with it, for want of borrowed stock, the sale. */
  lemma UnpricedSaleMatches(cfg: Config, b: Book, d: int, id: StockId, price: real, number: real)
    requires cfg.borrowStock && Matched(b) && b.last <= d <= b.lastUpdate && price <= 0.0
    ensures Matched(PostSellShort(cfg, BorrowForShort(cfg, b, d, id, price, number).book, d, id, price, number).book)
  {
    hide RoundUnits, RoundEx, Value, ShortGap, Worth, ShortProceeds, WholeMoney;
    UpdateIdle(cfg, b, d);
    hide Update;
    var c := BorrowForShort(cfg, b, d, id, price, number).book;
    assert c.shorts == b.shorts && c.borrowed == b.borrowed;
  }

  lemma SellShortOrderMatches(cfg: Config, b: Book, op: Op)
    requires Environment(cfg) && PositiveMinimum(cfg) && cfg.borrowStock && op.OpSellShort?
    requires Sound(b) && Matched(b) && RealShorts(b) && b.last <= b.lastUpdate
    ensures Matched(Apply(cfg, b, op).book)
  {
    SettledBook(cfg, b, op.d);
    hide Update, PostSellShort, BorrowForShort, Sound, Matched, RealShorts;
    var u := Update(cfg, b, op.d).book;
    if op.stock.Some? && TradableNumber(cfg, op.stock.value, op.number) && b.last <= op.d {
      if op.price > 0.0 {
        SellShortMatches(cfg, u, op.d, op.stock.value, op.price, op.number);
      } else {
        UnpricedSaleMatches(cfg, u, op.d, op.stock.value, op.price, op.number);
      }
    }
  }

  /** What a settlement leaves for the rest of an operation at the same date. */
  lemma SettledBook(cfg: Config, b: Book, d: int)
    requires Environment(cfg) && Sound(b) && Matched(b) && RealShorts(b) && b.last <= b.lastUpdate
    ensures var u := Update(cfg, b, d).book;
            Sound(u) && Matched(u) && RealShorts(u) && u.shorts == b.shorts
            && (b.last <= d ==> u.last <= d <= u.lastUpdate)
  {
    UpdateOnlySettles(cfg, b, d);
    UpdateReads(cfg, Cash, b, d);
    if d > b.lastUpdate {
      UpdateWindow(cfg, b, d);
    }
    hide SettleAll, Sound, Environment;
  }

  lemma CoverGivesBack(cfg: Config, b: Book, d: int, id: StockId, price: real, q: Quantity)
    requires Sound(b) && Matched(b) && RealShorts(b) && id in b.shorts && (q.Shares? ==> q.number > 0.0)
    ensures var s := PostBuyShort(cfg, b, d, id, price, q);
            0.0 < s.trade.value.number <= b.borrowed[id].number
            && Matched(PostReturnStock(cfg, s.book, d, id, price, s.trade.value.number).book)
  {
    hide Worth, StockReturnCost, ReturnedWorth, TakeOldest, Total;
    var s := PostBuyShort(cfg, b, d, id, price, q);
    TakeOldestEmpties(b.borrowed[id].lots, s.trade.value.number);
  }

  /** A cover that gives nothing back leaves more borrowed than short. */
  lemma CoverKeepsBorrowed(cfg: Config, b: Book, d: int, id: StockId, price: real, q: Quantity)
    requires Matched(b) && RealShorts(b) && id in b.shorts && (q.Shares? ==> q.number > 0.0)
    ensures !Matched(PostBuyShort(cfg, b, d, id, price, q).book)
  {
    hide Worth;
    assert id in b.borrowed;
  }

  /** A cover order that is not refused. */
  predicate Covers(cfg: Config, b: Book, op: Op) {
    op.OpBuyShort? && op.stock.Some? && TradableQuantity(cfg, op.stock.value, op.q) && b.last <= op.d
    && op.stock.value in b.shorts
  }

  lemma CoverMatchesExactly(cfg: Config, b: Book, op: Op)
    requires Environment(cfg) && PositiveMinimum(cfg) && cfg.borrowStock && Covers(cfg, b, op)
    requires Sound(b) && Matched(b) && RealShorts(b) && b.last <= b.lastUpdate
    ensures Matched(Apply(cfg, b, op).book) <==> op.price > 0.0
  {
    SettledBook(cfg, b, op.d);
    hide Update;
    var u := Update(cfg, b, op.d).book;
    var s := PostBuyShort(cfg, u, op.d, op.stock.value, op.price, op.q);
    assert s.book.last == op.d && s.book.lastUpdate == u.lastUpdate;
    CoverKeepsBorrowed(cfg, u, op.d, op.stock.value, op.price, op.q);
    CoverGivesBack(cfg, u, op.d, op.stock.value, op.price, op.q);
    hide PostBuyShort, PostReturnStock, Sound, Matched, RealShorts;
    if op.price > 0.0 {
      UpdateIdle(cfg, s.book, op.d);
      var r := ReturnStock(cfg, s.book, op.d, op.stock, op.price, s.trade.value.number);
      assert r.book == PostReturnStock(cfg, s.book, op.d, op.stock.value, op.price, s.trade.value.number).book;
    }
  }

  // ---------------------------------------------------------------------------------------------------------
  // What the log says of covers

  ghost predicate CoversPriced(log: seq<TradeRecord>) {
    forall r <- log :: r.business == ShortCovered ==> r.price > 0.0
  }

  predicate CoversAt(p: Posting, price: real) {
    p.DoBuyShort? ==> p.price == price
  }

  lemma PostedCover(cfg: Config, b: Book, p: Posting, price: real)
    requires Sorts(cfg) && Sound(b) && CoversAt(p, price)
    ensures forall r <- Do(cfg, b, p).log :: r.business == ShortCovered ==> p.DoBuyShort? && r.price == price
  {
    hide Sorts;
    if p.DoSettle? {
      hide Update;
      UpdateKinds(cfg, b, p.d);
    } else if p.DoBuyShort? {
      hide Worth;
    } else {
      hide Do;
      PostedKind(cfg, b, p);
    }
  }

  lemma {:induction false} PlannedCovers(cfg: Config, b: Book, plan: seq<Posting>, price: real)
    requires Sorts(cfg) && Sound(b) && AllChecked(cfg, b, plan)
    requires forall i :: 0 <= i < |plan| ==> CoversAt(plan[i], price)
    ensures forall r <- Execute(cfg, b, plan).log ::
              r.business == ShortCovered ==> r.price == price && exists p <- plan :: p.DoBuyShort?
    decreases |plan|
  {
    hide Sorts, Sound, Do, Checked;
    if plan != [] {
      PostedCover(cfg, b, plan[0], price);
      PostingReads(cfg, Cash, b, plan[0]);
      PlannedCovers(cfg, Do(cfg, b, plan[0]).book, plan[1..], price);
    }
  }

  lemma PlanCoversAt(cfg: Config, b: Book, op: Op)
    ensures forall p <- Plan(cfg, b, op) :: p.DoBuyShort? ==> Covers(cfg, b, op) && p.price == op.price
  {
    hide Update, Checkin, PostSell, PostBuyShort, RoundUnits, RoundUp, RoundEx, Value, Worth, PurchaseGap, ShortGap,
         TradableNumber, TradableQuantity;
  }

  /** The records of covers an operation leaves: none unless it covers, and then one at its price. */
  lemma CoversOfOperation(cfg: Config, b: Book, op: Op)
    requires Sorts(cfg) && Sound(b)
    ensures CoversPriced(Apply(cfg, b, op).log) <==> (Covers(cfg, b, op) ==> op.price > 0.0)
  {
    var price := if op.OpBuyShort? then op.price else 0.0;
    PlanCoversAt(cfg, b, op);
    OperationIsItsPlan(cfg, b, op);
    if Covers(cfg, b, op) {
      CoverIsOnRecord(cfg, b, op);
    }
    hide Plan, Apply, Sorts, Sound, Execute;
    PlannedCovers(cfg, b, Plan(cfg, b, op), price);
  }

  lemma CoverIsOnRecord(cfg: Config, b: Book, op: Op)
    requires Covers(cfg, b, op)
    ensures exists r <- Apply(cfg, b, op).log :: r.business == ShortCovered && r.price == op.price
  {
    UpdateOnlySettles(cfg, b, op.d);
    hide Update, ReturnStock, Worth;
    var s := PostBuyShort(cfg, Update(cfg, b, op.d).book, op.d, op.stock.value, op.price, op.q);
    assert s.log[0] in Apply(cfg, b, op).log;
  }

  /** After an operation short is still borrowed exactly when it is not a cover at a price of zero or less. */
  lemma OperationMatchesExactly(cfg: Config, b: Book, op: Op)
    requires Environment(cfg) && PositiveMinimum(cfg) && cfg.borrowStock && Submitted(op)
    requires Sound(b) && Matched(b) && RealShorts(b) && b.last <= b.lastUpdate
    ensures Matched(Apply(cfg, b, op).book) <==> (Covers(cfg, b, op) ==> op.price > 0.0)
  {
    if Covers(cfg, b, op) {
      CoverMatchesExactly(cfg, b, op);
    } else if op.OpBuyShort? {
      hide Update, Matched;
    } else if op.OpSellShort? {
      SellShortOrderMatches(cfg, b, op);
    } else {
      OtherOperationLeavesShorts(cfg, b, op);
      hide Apply;
    }
  }

  // ---------------------------------------------------------------------------------------------------------
  // Runs

  ghost predicate Orderly(a: Account) {
    RealShorts(a.book) && Sound(a.book) && Tidy(a)
  }

  /** At the opening and after every operation. */
  ghost predicate MatchedThroughout(cfg: Config, a: Account, ops: seq<Op>)
    decreases |ops|
  {
    Matched(Run(cfg, a, ops).book) && (ops == [] || MatchedThroughout(cfg, a, ops[..|ops| - 1]))
  }

  lemma OpenedOrderly(cfg: Config, d: int, initCash: real)
    ensures Orderly(Opened(cfg, d, initCash)) && Matched(Opened(cfg, d, initCash).book)
    ensures CoversPriced(Opened(cfg, d, initCash).trades)
  {
    OpenedExplained(cfg, d, initCash, Cash);
    OpenedTidy(cfg, d, initCash);
  }

  lemma StepMatchesExactly(cfg: Config, a: Account, op: Op)
    requires Environment(cfg) && PositiveMinimum(cfg) && cfg.borrowStock && Submitted(op) && Orderly(a)
    ensures Orderly(Step(cfg, a, op))
    ensures Matched(a.book) ==> (Matched(Step(cfg, a, op).book) <==> CoversPriced(Apply(cfg, a.book, op).log))
  {
    EnvironmentSorts(cfg);
    hide Environment, Sorts, Sound, RealShorts, Matched, PositiveMinimum, Apply, Tidy, CoversPriced, Covers;
    TidyBefore(a);
    OperationKeepsReal(cfg, a.book, op);
    StepTidies(cfg, a, op);
    CoversOfOperation(cfg, a.book, op);
    if Matched(a.book) {
      OperationMatchesExactly(cfg, a.book, op);
    }
  }

  /** Short is borrowed: over every run without direct stock loans, on an account that borrows stock by itself, each
      stock is short by exactly the number it is borrowed, and neither entry stands without the other, throughout the
      run, exactly when no cover on record is at a price of zero or less. */
  lemma {:induction false} ShortIsBorrowedThroughout(cfg: Config, d: int, initCash: real, ops: seq<Op>)
    requires Environment(cfg) && PositiveMinimum(cfg) && cfg.borrowStock && forall op <- ops :: Submitted(op)
    ensures var start := Opened(cfg, d, initCash);
            Orderly(Run(cfg, start, ops))
            && (MatchedThroughout(cfg, start, ops) <==> CoversPriced(Run(cfg, start, ops).trades))
    decreases |ops|
  {
    OpenedOrderly(cfg, d, initCash);
    if ops != [] {
      hide Opened, Environment, Orderly, PositiveMinimum, Matched, Apply, CoversPriced;
      var before, op := ops[..|ops| - 1], ops[|ops| - 1];
      var a := Run(cfg, Opened(cfg, d, initCash), before);
      ShortIsBorrowedThroughout(cfg, d, initCash, before);
      StepMatchesExactly(cfg, a, op);
      CoversOfTwo(a.trades, Apply(cfg, a.book, op).log);
      StillMatched(cfg, Opened(cfg, d, initCash), before);
    }
  }

  lemma StillMatched(cfg: Config, a: Account, ops: seq<Op>)
    ensures MatchedThroughout(cfg, a, ops) ==> Matched(Run(cfg, a, ops).book)
  {
  }

  lemma CoversOfTwo(x: seq<TradeRecord>, y: seq<TradeRecord>)
    ensures CoversPriced(x + y) <==> CoversPriced(x) && CoversPriced(y)
  {
    assert forall r :: r in x + y <==> r in x || r in y;
  }
}
