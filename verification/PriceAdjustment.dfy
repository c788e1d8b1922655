/**
 Forward and backward price adjustment of a bar buffer for ex-rights events.

 The two sweeps run over the events in opposite orders and move opposite parts of the buffer, by maps that undo each
 other.  One affine map, the composition of all event maps, takes the whole backward-adjusted price series to the
 forward-adjusted one, for as long as both sweeps cut the buffer at the same bars.
 */
module PriceAdjustment {
  import opened Calendar
  import opened Weights
  import opened KRecords

  datatype Field = Open | High | Low | Close

  function Price(r: KRecord, f: Field): real {
    match f
    case Open => r.openPrice
    case High => r.highPrice
    case Low => r.lowPrice
    case Close => r.closePrice
  }

  // ---------------------------------------------------------------------------------------------------------
  // The event maps

  /** An event that changes no more than the share capital. */
  predicate Idle(w: StockWeight) {
    w.countAsGift == 0.0 && w.countForSell == 0.0 && w.priceForSell == 0.0 && w.bonus == 0.0 && w.increasement == 0.0
    && w.suogu == 0.0
  }

  function Change(w: StockWeight): real {
    0.1 * (w.countAsGift + w.countForSell + w.increasement)
  }

  function Denominator(w: StockWeight): real {
    if w.suogu != 0.0 then w.suogu else 1.0 + Change(w)
  }

  /** What the record-date price gains before it is divided: the rights money less the dividend. */
  function Shift(w: StockWeight): real {
    if w.suogu != 0.0 then 0.0 else w.priceForSell * Change(w) - 0.1 * w.bonus
  }

  predicate Trivial(w: StockWeight) {
    Denominator(w) == 1.0 && Shift(w) == 0.0
  }

  function Lower(x: real, w: StockWeight): real
    requires Denominator(w) != 0.0
  {
    (x + Shift(w)) / Denominator(w)
  }

  function Raise(x: real, w: StockWeight): real {
    x * Denominator(w) - Shift(w)
  }

  lemma LowerUndoesRaise(x: real, w: StockWeight)
    requires Denominator(w) != 0.0
    ensures Lower(Raise(x, w), w) == x && Raise(Lower(x, w), w) == x
    ensures Trivial(w) || Idle(w) ==> Lower(x, w) == x && Raise(x, w) == x
  {
    var d, t := Denominator(w), Shift(w);
    assert (x * d - t + t) / d == x;
    assert (x + t) / d * d - t == x;
  }

  function LowerBar(r: KRecord, w: StockWeight): KRecord
    requires Denominator(w) != 0.0
  {
    var count := r.transCount * (1.0 / Denominator(w));
    var close := Lower(r.closePrice, w);
    KRecord(r.datetime, Lower(r.openPrice, w), Lower(r.highPrice, w), Lower(r.lowPrice, w), close, close * count, count)
  }

  function RaiseBar(r: KRecord, w: StockWeight): KRecord
    requires Denominator(w) != 0.0
  {
    var count := r.transCount * (1.0 / Denominator(w));
    var close := Raise(r.closePrice, w);
    KRecord(r.datetime, Raise(r.openPrice, w), Raise(r.highPrice, w), Raise(r.lowPrice, w), close, close * count, count)
  }

  /** No event divides by zero. */
  ghost predicate Divisible(ws: seq<StockWeight>) {
    forall i :: 0 <= i < |ws| ==> Denominator(ws[i]) != 0.0
  }

  // ---------------------------------------------------------------------------------------------------------
  // The sweeps

  function LowerBefore(s: seq<KRecord>, cut: nat, w: StockWeight): (r: seq<KRecord>)
    requires cut <= |s| && Denominator(w) != 0.0
    ensures |r| == |s| && forall i :: 0 <= i < |s| ==> r[i] == if i < cut then LowerBar(s[i], w) else s[i]
  {
    seq(|s|, i requires 0 <= i < |s| => if i < cut then LowerBar(s[i], w) else s[i])
  }

  function RaiseFrom(s: seq<KRecord>, cut: nat, w: StockWeight): (r: seq<KRecord>)
    requires cut <= |s| && Denominator(w) != 0.0
    ensures |r| == |s| && forall i :: 0 <= i < |s| ==> r[i] == if i < cut then s[i] else RaiseBar(s[i], w)
  {
    seq(|s|, i requires 0 <= i < |s| => if i < cut then s[i] else RaiseBar(s[i], w))
  }

  /** The forward sweep: events oldest first, each lowering the bars before it. */
  ghost function Forward(s: seq<KRecord>, ws: seq<StockWeight>, start: nat): (r: seq<KRecord>)
    requires start <= |s| && Divisible(ws)
    ensures |r| == |s|
    decreases |ws|
  {
    if ws == [] then s
    else if Idle(ws[0]) then Forward(s, ws[1..], start)
    else
      var cut := FirstFrom(s, start, ws[0].datetime);
      Forward(if Trivial(ws[0]) then s else LowerBefore(s, cut, ws[0]), ws[1..], cut)
  }

  /** The last index up to `from` whose bar is not later than `d`, or 0. */
  function LastUpTo(s: seq<KRecord>, from: nat, d: int): (r: nat)
    requires from < |s|
    ensures r <= from
    ensures forall i :: r < i <= from ==> s[i].datetime > d
    ensures r == 0 || s[r].datetime <= d
  {
    if from > 0 && s[from].datetime > d then LastUpTo(s, from - 1, d) else from
  }

  /** Where the backward sweep cuts: it steps over the bar it stops at when that is an intraday one. */
  function CutBack(s: seq<KRecord>, from: nat, d: int): (r: nat)
    requires from < |s|
    ensures r <= from
  {
    var i := LastUpTo(s, from, d);
    if i != from && !Midnight(s[i].datetime) then i + 1 else i
  }

  /** The backward sweep: events newest first, each raising the bars from it on. */
  ghost function Backward(s: seq<KRecord>, ws: seq<StockWeight>, from: nat): (r: seq<KRecord>)
    requires from < |s| && Divisible(ws)
    ensures |r| == |s|
    decreases |ws|
  {
    if ws == [] then s
    else
      var w, older := ws[|ws| - 1], ws[..|ws| - 1];
      if Idle(w) then Backward(s, older, from)
      else
        var cut := CutBack(s, from, w.datetime);
        Backward(if Trivial(w) then s else RaiseFrom(s, cut, w), older, cut)
  }

  /** The events a buffer is adjusted for: from the day of its first bar up to the end of its last bar. */
  function EventsOf(s: seq<KRecord>, weights: seq<StockWeight>, barSeconds: int): seq<StockWeight>
    requires s != []
  {
    Window(weights, DateOf(s[0].datetime), s[|s| - 1].datetime + barSeconds)
  }

  ghost predicate EventsDivisible(s: seq<KRecord>, weights: seq<StockWeight>, barSeconds: int) {
    s != [] ==> Divisible(EventsOf(s, weights, barSeconds))
  }

  ghost function ForwardAdjusted(s: seq<KRecord>, weights: seq<StockWeight>, barSeconds: int): (r: seq<KRecord>)
    requires EventsDivisible(s, weights, barSeconds)
    ensures |r| == |s|
  {
    if s == [] then s else Forward(s, EventsOf(s, weights, barSeconds), 0)
  }

  ghost function BackwardAdjusted(s: seq<KRecord>, weights: seq<StockWeight>, barSeconds: int): (r: seq<KRecord>)
    requires EventsDivisible(s, weights, barSeconds)
    ensures |r| == |s|
  {
    if s == [] then s else Backward(s, EventsOf(s, weights, barSeconds), |s| - 1)
  }

  // ---------------------------------------------------------------------------------------------------------
  // Where the sweeps cut

  /** Where the backward sweep cuts for an event, wherever the events before it in the sweep have left it. */
  function Cut(s: seq<KRecord>, e: int): (r: nat)
    requires s != []
    ensures r < |s|
  {
    CutBack(s, |s| - 1, e)
  }

  /** The sweep can start from the cut of any later date. */
  lemma SweepCut(s: seq<KRecord>, last: int, e: int)
    requires s != [] && Ordered(s) && e <= last
    ensures CutBack(s, Cut(s, last), e) == Cut(s, e) <= Cut(s, last)
  {
    hide LastUpTo;
    var n, i, j := |s| - 1, LastUpTo(s, |s| - 1, last), LastUpTo(s, |s| - 1, e);
    LastIsLast(s, n, e, j);
    assert j <= i;
    var from := Cut(s, last);
    if from < n {
      if from > i {
        assert s[from].datetime > last;
      }
      LastIsLast(s, from, e, j);
    }
  }

  lemma LastIsLast(s: seq<KRecord>, from: nat, e: int, i: nat)
    requires Ordered(s) && from < |s| && i <= from
    requires (i == 0 || s[i].datetime <= e) && forall k :: i < k <= from ==> s[k].datetime > e
    ensures LastUpTo(s, from, e) == i
  {
  }

  lemma CutAtEnd(s: seq<KRecord>, last: int)
    requires s != [] && s[|s| - 1].datetime <= last
    ensures Cut(s, last) == |s| - 1
  {
  }

  /** When the two cuts of one event meet: an event with a bar of its own needs that bar to stand at midnight or to be
      the newest, an event between two bars needs the one before it to be an intraday bar, and an event before all bars
      needs the first one to stand at midnight or to be the only one. */
  lemma CutsMeet(s: seq<KRecord>, e: int)
    requires s != [] && Ordered(s)
    ensures var at := Place(s, e);
            Cut(s, e) == at
            <==> if at < |s| && s[at].datetime == e then at == |s| - 1 || Midnight(e)
                 else if at > 0 then at < |s| && !Midnight(s[at - 1].datetime)
                 else |s| == 1 || Midnight(s[0].datetime)
  {
    var at, n := Place(s, e), |s| - 1;
    if at <= n && s[at].datetime == e {
      LastIsLast(s, n, e, at);
    } else if at > 0 {
      assert s[at - 1].datetime < e;
      LastIsLast(s, n, e, at - 1);
    }
  }

  /** Both sweeps cut at the place of every event that is not idle. */
  ghost predicate SameCuts(s: seq<KRecord>, ws: seq<StockWeight>)
    requires s != []
  {
    forall j :: 0 <= j < |ws| && !Idle(ws[j]) ==> Cut(s, ws[j].datetime) == Place(s, ws[j].datetime)
  }

  /** Every event that is not idle stands at midnight and has a bar of its own, as daily bars do when the stock trades
      on the day. */
  ghost predicate BarOnEachDate(s: seq<KRecord>, ws: seq<StockWeight>) {
    forall j :: 0 <= j < |ws| && !Idle(ws[j]) ==>
      Midnight(ws[j].datetime) && Place(s, ws[j].datetime) < |s|
      && s[Place(s, ws[j].datetime)].datetime == ws[j].datetime
  }

  lemma OwnBarsSameCuts(s: seq<KRecord>, ws: seq<StockWeight>)
    requires s != [] && Ordered(s) && BarOnEachDate(s, ws)
    ensures SameCuts(s, ws)
  {
    hide Cut, Idle, FirstFrom;
    forall j | 0 <= j < |ws| && !Idle(ws[j])
      ensures Cut(s, ws[j].datetime) == Place(s, ws[j].datetime)
    {
      CutsMeet(s, ws[j].datetime);
    }
  }

  /** Intraday bars: every event stands at midnight between two bars, and no bar does. */
  ghost predicate BarsAroundEachDate(s: seq<KRecord>, ws: seq<StockWeight>) {
    && (forall i :: 0 <= i < |s| ==> !Midnight(s[i].datetime))
    && (forall j :: 0 <= j < |ws| && !Idle(ws[j]) ==>
         Midnight(ws[j].datetime) && 0 < Place(s, ws[j].datetime) < |s|)
  }

  lemma IntradayBarsSameCuts(s: seq<KRecord>, ws: seq<StockWeight>)
    requires s != [] && Ordered(s) && BarsAroundEachDate(s, ws)
    ensures SameCuts(s, ws)
  {
    hide Cut, Idle, FirstFrom;
    forall j | 0 <= j < |ws| && !Idle(ws[j])
      ensures Cut(s, ws[j].datetime) == Place(s, ws[j].datetime)
    {
      CutsMeet(s, ws[j].datetime);
    }
  }

  // ---------------------------------------------------------------------------------------------------------
  // What the sweeps do to one price

  /** The composition of all event maps, oldest first. */
  ghost function AllLower(x: real, ws: seq<StockWeight>): real
    requires Divisible(ws)
    decreases |ws|
  {
    if ws == [] then x else AllLower(Lower(x, ws[0]), ws[1..])
  }

  /** The composition of all undone maps, newest first. */
  ghost function AllRaise(x: real, ws: seq<StockWeight>): real
    decreases |ws|
  {
    if ws == [] then x else AllRaise(Raise(x, ws[|ws| - 1]), ws[..|ws| - 1])
  }

  /** The first `m` events have their place up to bar `i`, and the others behind it. */
  ghost predicate PlacedAt(s: seq<KRecord>, ws: seq<StockWeight>, i: nat, m: nat) {
    m <= |ws| && forall j :: 0 <= j < |ws| ==> (Place(s, ws[j].datetime) <= i <==> j < m)
  }

  /** The first `k` events are cut up to bar `i` by the backward sweep, and the others behind it. */
  ghost predicate CutAt(s: seq<KRecord>, ws: seq<StockWeight>, i: nat, k: nat)
    requires s != []
  {
    k <= |ws| && forall j :: 0 <= j < |ws| ==> (Cut(s, ws[j].datetime) <= i <==> j < k)
  }

  lemma FindPlaced(s: seq<KRecord>, ws: seq<StockWeight>, i: nat) returns (m: nat)
    requires Ordered(s) && InOrder(ws)
    ensures m <= |ws| && PlacedAt(s, ws, i, m)
  {
    hide Place;
    m := 0;
    while m < |ws| && Place(s, ws[m].datetime) <= i
      invariant m <= |ws| && forall j :: 0 <= j < m ==> Place(s, ws[j].datetime) <= i
    {
      m := m + 1;
    }
    forall j | m <= j < |ws|
      ensures Place(s, ws[j].datetime) > i
    {
      PlaceMonotone(s, ws[m].datetime, ws[j].datetime);
    }
  }

  lemma FindCut(s: seq<KRecord>, ws: seq<StockWeight>, i: nat) returns (k: nat)
    requires s != [] && Ordered(s) && InOrder(ws)
    ensures k <= |ws| && CutAt(s, ws, i, k)
  {
    hide Cut, CutBack;
    k := 0;
    while k < |ws| && Cut(s, ws[k].datetime) <= i
      invariant k <= |ws| && forall j :: 0 <= j < k ==> Cut(s, ws[j].datetime) <= i
    {
      k := k + 1;
    }
    forall j | k <= j < |ws|
      ensures Cut(s, ws[j].datetime) > i
    {
      SweepCut(s, ws[j].datetime, ws[k].datetime);
    }
  }

  lemma SweepStart(s: seq<KRecord>, start: nat, d: int)
    requires Ordered(s) && start <= Place(s, d)
    ensures FirstFrom(s, start, d) == Place(s, d)
  {
  }

  predicate SameDates(s: seq<KRecord>, t: seq<KRecord>) {
    |s| == |t| && forall k :: 0 <= k < |s| ==> s[k].datetime == t[k].datetime
  }

  /** The forward sweep gives every bar the maps of exactly the events placed behind it. */
  lemma {:induction false} ForwardPrice(s0: seq<KRecord>, s: seq<KRecord>, ws: seq<StockWeight>, start: nat, i: nat,
                                        m: nat, f: Field)
    requires Ordered(s0) && SameDates(s, s0) && InOrder(ws) && Divisible(ws) && start <= |s| && i < |s|
    requires forall k :: 0 <= k < |ws| ==> start <= Place(s0, ws[k].datetime)
    requires PlacedAt(s0, ws, i, m)
    ensures Price(Forward(s, ws, start)[i], f) == AllLower(Price(s[i], f), ws[m..])
    decreases |ws|
  {
    hide FirstFrom, Place, Lower, Idle, Trivial;
    if ws != [] {
      var w, later, m' := ws[0], ws[1..], if m > 0 then m - 1 else 0;
      LowerUndoesRaise(Price(s[i], f), w);
      assert if m > 0 then ws[m..] == later[m'..] else ws[m..][1..] == later[m'..];
      assert PlacedAt(s0, later, i, m');
      if Idle(w) {
        ForwardPrice(s0, s, later, start, i, m', f);
      } else {
        SamePlace(s, s0, start, w.datetime);
        SweepStart(s0, start, w.datetime);
        var cut := Place(s0, w.datetime);
        forall k | 0 <= k < |later|
          ensures cut <= Place(s0, later[k].datetime)
        {
          PlaceMonotone(s0, w.datetime, later[k].datetime);
        }
        ForwardPrice(s0, if Trivial(w) then s else LowerBefore(s, cut, w), later, cut, i, m', f);
      }
    }
  }

  lemma {:induction false} SameCutBack(s: seq<KRecord>, t: seq<KRecord>, from: nat, d: int)
    requires SameDates(s, t) && from < |s|
    ensures LastUpTo(s, from, d) == LastUpTo(t, from, d) && CutBack(s, from, d) == CutBack(t, from, d)
    decreases from
  {
    if from > 0 {
      SameCutBack(s, t, from - 1, d);
    }
  }

  /** The backward sweep gives every bar the undone maps of exactly the events it cuts up to it; `last` is the date of
      the event it has just done, or the end of the bars. */
  lemma {:induction false} BackwardPrice(s0: seq<KRecord>, s: seq<KRecord>, ws: seq<StockWeight>, last: int, i: nat,
                                         k: nat, f: Field)
    requires s != [] && Ordered(s0) && SameDates(s, s0) && InOrder(ws) && Divisible(ws) && i < |s|
    requires forall j :: 0 <= j < |ws| ==> ws[j].datetime <= last
    requires CutAt(s0, ws, i, k)
    ensures Price(Backward(s, ws, Cut(s0, last))[i], f) == AllRaise(Price(s[i], f), ws[..k])
    decreases |ws|
  {
    hide Raise, Idle, Trivial, Cut, CutBack;
    if ws != [] {
      var w, older := ws[|ws| - 1], ws[..|ws| - 1];
      var k' := if k == |ws| then k - 1 else k;
      LowerUndoesRaise(Price(s[i], f), w);
      assert if k == |ws| then ws[..k] == ws && older[..k'] == older else ws[..k] == older[..k'];
      assert CutAt(s0, older, i, k');
      if Idle(w) {
        BackwardPrice(s0, s, older, last, i, k', f);
      } else {
        SameCutBack(s, s0, Cut(s0, last), w.datetime);
        SweepCut(s0, last, w.datetime);
        var cut := Cut(s0, w.datetime);
        BackwardPrice(s0, if Trivial(w) then s else RaiseFrom(s, cut, w), older, w.datetime, i, k', f);
      }
    }
  }

  lemma BackwardFromEnd(s: seq<KRecord>, ws: seq<StockWeight>, i: nat, k: nat, f: Field)
    requires Ordered(s) && InOrder(ws) && Divisible(ws) && i < |s| && CutAt(s, ws, i, k)
    ensures Price(Backward(s, ws, |s| - 1)[i], f) == AllRaise(Price(s[i], f), ws[..k])
  {
    hide Backward, AllRaise, Price, CutAt;
    var end := s[|s| - 1].datetime;
    var last := if ws != [] && ws[|ws| - 1].datetime > end then ws[|ws| - 1].datetime else end;
    CutAtEnd(s, last);
    BackwardPrice(s, s, ws, last, i, k, f);
  }

  // ---------------------------------------------------------------------------------------------------------
  // One map between the two series

  lemma {:induction false} AllLowerOfTwo(x: real, a: seq<StockWeight>, b: seq<StockWeight>)
    requires Divisible(a) && Divisible(b)
    ensures Divisible(a + b) && AllLower(x, a + b) == AllLower(AllLower(x, a), b)
    decreases |a|
  {
    hide Lower;
    if a == [] {
      assert a + b == b;
    } else {
      assert (a + b)[1..] == a[1..] + b;
      AllLowerOfTwo(Lower(x, a[0]), a[1..], b);
    }
  }

  /** Lowering by all events what was raised by the oldest of them leaves the maps of the others. */
  lemma {:induction false} AllLowerOfRaised(x: real, a: seq<StockWeight>, b: seq<StockWeight>)
    requires Divisible(a) && Divisible(b)
    ensures Divisible(a + b) && AllLower(AllRaise(x, a), a + b) == AllLower(x, b)
    decreases |a|
  {
    hide Lower, Raise;
    if a == [] {
      assert a + b == b;
    } else {
      var w, front := a[|a| - 1], a[..|a| - 1];
      assert a + b == front + ([w] + b) && ([w] + b)[1..] == b;
      AllLowerOfRaised(Raise(x, w), front, [w] + b);
      LowerUndoesRaise(x, w);
    }
  }

  /** The map loses nothing: it can be undone, so the backward series is a function of the forward one too. */
  lemma {:induction false} AllLowerInjective(x: real, y: real, ws: seq<StockWeight>)
    requires Divisible(ws) && AllLower(x, ws) == AllLower(y, ws)
    ensures x == y
    decreases |ws|
  {
    if ws != [] {
      AllLowerInjective(Lower(x, ws[0]), Lower(y, ws[0]), ws[1..]);
      LowerUndoesRaise(x, ws[0]);
      LowerUndoesRaise(y, ws[0]);
    }
  }

  lemma {:induction false} IdleMapsStay(x: real, ws: seq<StockWeight>)
    requires Divisible(ws) && forall j :: 0 <= j < |ws| ==> Idle(ws[j])
    ensures AllLower(x, ws) == x
    decreases |ws|
  {
    hide Idle;
    if ws != [] {
      LowerUndoesRaise(x, ws[0]);
      IdleMapsStay(x, ws[1..]);
    }
  }

  /** The two sweeps treat bar `i` alike for an event of date `e`: both move it, or neither does. */
  predicate Alike(s: seq<KRecord>, i: nat, e: int)
    requires s != []
  {
    Cut(s, e) <= i <==> i < Place(s, e)
  }

  /** The events that both sweeps move bar `i` for, or neither. */
  function Astray(s: seq<KRecord>, ws: seq<StockWeight>, i: nat): (r: seq<StockWeight>)
    requires s != []
    ensures forall w <- r :: w in ws && Alike(s, i, w.datetime)
  {
    if ws == [] then []
    else
      var front, w := Astray(s, ws[..|ws| - 1], i), ws[|ws| - 1];
      if Alike(s, i, w.datetime) then front + [w] else front
  }

  lemma {:induction false} AstrayIsSlice(s: seq<KRecord>, ws: seq<StockWeight>, i: nat, low: nat, high: nat)
    requires s != [] && low <= high <= |ws|
    requires forall j :: 0 <= j < |ws| ==> (Alike(s, i, ws[j].datetime) <==> low <= j < high)
    ensures Astray(s, ws, i) == ws[low..high]
    decreases |ws|
  {
    hide Alike;
    if ws != [] {
      var n := |ws| - 1;
      var low', high' := if low > n then n else low, if high > n then n else high;
      AstrayIsSlice(s, ws[..n], i, low', high');
      if low <= n < high {
        assert ws[low..high] == ws[low..n] + [ws[n]];
        assert ws[..n][low..n] == ws[low..n];
      } else {
        assert ws[low..high] == ws[..n][low'..high'];
      }
    }
  }

  lemma AstrayBetween(s: seq<KRecord>, ws: seq<StockWeight>, i: nat, m: nat, k: nat)
    requires s != [] && PlacedAt(s, ws, i, m) && CutAt(s, ws, i, k)
    ensures Astray(s, ws, i) == if m <= k then ws[m..k] else ws[k..m]
  {
    hide Place, Cut, Astray;
    if m <= k {
      AstrayIsSlice(s, ws, i, m, k);
    } else {
      AstrayIsSlice(s, ws, i, k, m);
    }
  }

  lemma AstrayDivisible(s: seq<KRecord>, ws: seq<StockWeight>, i: nat)
    requires s != [] && Divisible(ws)
    ensures Divisible(Astray(s, ws, i))
  {
    hide Alike;
    forall j | 0 <= j < |Astray(s, ws, i)|
      ensures Denominator(Astray(s, ws, i)[j]) != 0.0
    {
      assert Astray(s, ws, i)[j] in ws;
    }
  }

  /** The composition of all event maps takes the backward-adjusted price of a bar to the forward-adjusted one exactly
      when the events that both sweeps move the bar for, or neither, together leave its unadjusted price alone. */
  lemma SeriesMeetExactly(s: seq<KRecord>, ws: seq<StockWeight>, i: nat, f: Field)
    requires Ordered(s) && InOrder(ws) && Divisible(ws) && i < |s|
    ensures Divisible(Astray(s, ws, i))
    ensures Price(Forward(s, ws, 0)[i], f) == AllLower(Price(Backward(s, ws, |s| - 1)[i], f), ws)
       <==> AllLower(Price(s[i], f), Astray(s, ws, i)) == Price(s[i], f)
  {
    hide Forward, Backward, AllLower, AllRaise, Price, Astray, PlacedAt, CutAt;
    var m := FindPlaced(s, ws, i);
    var k := FindCut(s, ws, i);
    var x := Price(s[i], f);
    ForwardPrice(s, s, ws, 0, i, m, f);
    BackwardFromEnd(s, ws, i, k, f);
    AstrayBetween(s, ws, i, m, k);
    AstrayDivisible(s, ws, i);
    assert ws == ws[..k] + ws[k..];
    AllLowerOfRaised(x, ws[..k], ws[k..]);
    if m <= k {
      OnlyMiddleMatters(x, ws, m, k);
    } else {
      OnlyMiddleMatters(x, ws, k, m);
    }
  }

  lemma OnlyMiddleMatters(x: real, ws: seq<StockWeight>, low: nat, high: nat)
    requires Divisible(ws) && low <= high <= |ws|
    ensures AllLower(x, ws[low..]) == AllLower(x, ws[high..]) <==> AllLower(x, ws[low..high]) == x
  {
    hide AllLower;
    var y := AllLower(x, ws[low..high]);
    assert ws[low..] == ws[low..high] + ws[high..];
    AllLowerOfTwo(x, ws[low..high], ws[high..]);
    if AllLower(y, ws[high..]) == AllLower(x, ws[high..]) {
      AllLowerInjective(y, x, ws[high..]);
    }
  }

  /** Where both sweeps cut at the same bars, the one map joins the two series. */
  lemma ForwardIsMappedBackward(s: seq<KRecord>, ws: seq<StockWeight>, i: nat, f: Field)
    requires Ordered(s) && InOrder(ws) && Divisible(ws) && i < |s| && SameCuts(s, ws)
    ensures Price(Forward(s, ws, 0)[i], f) == AllLower(Price(Backward(s, ws, |s| - 1)[i], f), ws)
  {
    hide Forward, Backward, AllLower, Price, Astray, Cut, Place;
    SeriesMeetExactly(s, ws, i, f);
    var stray := Astray(s, ws, i);
    forall j | 0 <= j < |stray|
      ensures Idle(stray[j])
    {
      assert stray[j] in ws && Alike(s, i, stray[j].datetime);
    }
    IdleMapsStay(Price(s[i], f), stray);
  }

  lemma EventsOfInOrder(s: seq<KRecord>, weights: seq<StockWeight>, barSeconds: int)
    requires s != [] && InOrder(weights)
    ensures InOrder(EventsOf(s, weights, barSeconds))
  {
    WindowInOrder(weights, DateOf(s[0].datetime), s[|s| - 1].datetime + barSeconds);
  }

  /** Daily bars: for a stock that trades on each of its ex-dates the two adjusted series differ by one affine map. */
  lemma DailyBars(s: seq<KRecord>, weights: seq<StockWeight>, barSeconds: int, i: nat, f: Field)
    requires Ordered(s) && InOrder(weights) && EventsDivisible(s, weights, barSeconds) && i < |s|
    requires BarOnEachDate(s, EventsOf(s, weights, barSeconds))
    ensures Price(ForwardAdjusted(s, weights, barSeconds)[i], f)
         == AllLower(Price(BackwardAdjusted(s, weights, barSeconds)[i], f), EventsOf(s, weights, barSeconds))
  {
    hide Forward, Backward, SameCuts, AllLower, EventsOf, BarOnEachDate;
    EventsOfInOrder(s, weights, barSeconds);
    OwnBarsSameCuts(s, EventsOf(s, weights, barSeconds));
    ForwardIsMappedBackward(s, EventsOf(s, weights, barSeconds), i, f);
  }

  /** Intraday bars: the same, when every event falls between two bars of the buffer. */
  lemma IntradayBars(s: seq<KRecord>, weights: seq<StockWeight>, barSeconds: int, i: nat, f: Field)
    requires Ordered(s) && InOrder(weights) && EventsDivisible(s, weights, barSeconds) && i < |s|
    requires BarsAroundEachDate(s, EventsOf(s, weights, barSeconds))
    ensures Price(ForwardAdjusted(s, weights, barSeconds)[i], f)
         == AllLower(Price(BackwardAdjusted(s, weights, barSeconds)[i], f), EventsOf(s, weights, barSeconds))
  {
    hide Forward, Backward, SameCuts, AllLower, EventsOf, BarsAroundEachDate;
    EventsOfInOrder(s, weights, barSeconds);
    IntradayBarsSameCuts(s, EventsOf(s, weights, barSeconds));
    ForwardIsMappedBackward(s, EventsOf(s, weights, barSeconds), i, f);
  }

  // ---------------------------------------------------------------------------------------------------------
  // Daily bars of a stock that need not trade on its ex-dates

  /** The date lies strictly between bar `i` and the next one. */
  predicate InGap(s: seq<KRecord>, i: nat, e: int)
    requires i < |s|
  {
    s[i].datetime < e && (i + 1 < |s| ==> e < s[i + 1].datetime)
  }

  /** The events on whose dates the stock did not trade, after bar `i` and before the next one. */
  function GapEvents(s: seq<KRecord>, ws: seq<StockWeight>, i: nat): (r: seq<StockWeight>)
    requires i < |s|
    ensures forall w <- r :: w in ws
  {
    if ws == [] then []
    else
      var front, w := GapEvents(s, ws[..|ws| - 1], i), ws[|ws| - 1];
      if InGap(s, i, w.datetime) then front + [w] else front
  }

  predicate AllMidnight(s: seq<KRecord>) {
    forall i :: 0 <= i < |s| ==> Midnight(s[i].datetime)
  }

  lemma GapIsAlike(s: seq<KRecord>, i: nat, e: int)
    requires Ordered(s) && AllMidnight(s) && i < |s|
    ensures Alike(s, i, e) <==> InGap(s, i, e)
  {
    hide LastUpTo, FirstFrom;
    var j, at := LastUpTo(s, |s| - 1, e), Place(s, e);
    assert Cut(s, e) == j;
    assert j <= i <==> i + 1 == |s| || s[i + 1].datetime > e;
    assert i < at <==> s[i].datetime < e;
  }

  lemma {:induction false} GapEventsAreAstray(s: seq<KRecord>, ws: seq<StockWeight>, i: nat)
    requires Ordered(s) && AllMidnight(s) && i < |s|
    ensures Astray(s, ws, i) == GapEvents(s, ws, i)
    decreases |ws|
  {
    hide Alike, InGap;
    if ws != [] {
      GapEventsAreAstray(s, ws[..|ws| - 1], i);
      GapIsAlike(s, i, ws[|ws| - 1].datetime);
    }
  }

  /** Daily bars, whether or not the stock trades on its ex-dates: the one map joins the two prices of a bar exactly
      when the events between it and the next bar together leave its unadjusted price alone.  Both sweeps move the bar
      for those events. */
  lemma DailyBarsMeetExactly(s: seq<KRecord>, weights: seq<StockWeight>, barSeconds: int, i: nat, f: Field)
    requires Ordered(s) && AllMidnight(s) && InOrder(weights) && EventsDivisible(s, weights, barSeconds) && i < |s|
    ensures Divisible(GapEvents(s, EventsOf(s, weights, barSeconds), i))
    ensures Price(ForwardAdjusted(s, weights, barSeconds)[i], f)
              == AllLower(Price(BackwardAdjusted(s, weights, barSeconds)[i], f), EventsOf(s, weights, barSeconds))
       <==> AllLower(Price(s[i], f), GapEvents(s, EventsOf(s, weights, barSeconds), i)) == Price(s[i], f)
  {
    hide Forward, Backward, AllLower, EventsOf, Astray, GapEvents, Price;
    EventsOfInOrder(s, weights, barSeconds);
    GapEventsAreAstray(s, EventsOf(s, weights, barSeconds), i);
    SeriesMeetExactly(s, EventsOf(s, weights, barSeconds), i, f);
  }

  // ---------------------------------------------------------------------------------------------------------
  // The bases of the two series

  /** The backward sweep cuts at the first bar for the date: that bar stands at midnight and the next is later, or it is
      the only one. */
  predicate AtFirstBar(s: seq<KRecord>, e: int)
    requires s != []
  {
    |s| == 1 || (Midnight(s[0].datetime) && e < s[1].datetime)
  }

  function FirstEvents(s: seq<KRecord>, ws: seq<StockWeight>): seq<StockWeight>
    requires s != []
  {
    if ws == [] then []
    else
      var front, w := FirstEvents(s, ws[..|ws| - 1]), ws[|ws| - 1];
      if AtFirstBar(s, w.datetime) then front + [w] else front
  }

  lemma CutsFirst(s: seq<KRecord>, e: int)
    requires s != [] && Ordered(s)
    ensures Cut(s, e) == 0 <==> AtFirstBar(s, e)
  {
    hide LastUpTo;
    var n, i := |s| - 1, LastUpTo(s, |s| - 1, e);
    if n > 0 && e < s[1].datetime {
      LastIsLast(s, n, e, 0);
    }
  }

  lemma {:induction false} FirstEventsAreFirst(s: seq<KRecord>, ws: seq<StockWeight>, k: nat)
    requires s != [] && Ordered(s) && CutAt(s, ws, 0, k)
    ensures FirstEvents(s, ws) == ws[..k]
    decreases |ws|
  {
    hide Cut, AtFirstBar;
    if ws != [] {
      var n := |ws| - 1;
      var k' := if k > n then n else k;
      CutsFirst(s, ws[n].datetime);
      FirstEventsAreFirst(s, ws[..n], k');
      assert ws[..n][..k'] == ws[..k'];
      assert k > n ==> ws[..k] == ws[..n] + [ws[n]];
    }
  }

  lemma {:induction false} LateEventsAreLast(s: seq<KRecord>, ws: seq<StockWeight>, m: nat)
    requires s != [] && Ordered(s) && PlacedAt(s, ws, |s| - 1, m)
    ensures GapEvents(s, ws, |s| - 1) == ws[m..]
    decreases |ws|
  {
    hide FirstFrom;
    if ws != [] {
      var n := |ws| - 1;
      var m' := if m > n then n else m;
      assert Place(s, ws[n].datetime) <= |s| - 1 <==> !InGap(s, |s| - 1, ws[n].datetime);
      LateEventsAreLast(s, ws[..n], m');
      assert m <= n ==> ws[m..] == ws[..n][m..] + [ws[n]];
    }
  }

  /** The bases: the newest price of the forward series is the unadjusted one, but for the events dated after its bar;
      the oldest price of the backward series is the unadjusted one, but for the events the sweep cuts at its bar. */
  lemma BasesStay(s: seq<KRecord>, ws: seq<StockWeight>, f: Field)
    requires s != [] && Ordered(s) && InOrder(ws) && Divisible(ws)
    ensures var late := GapEvents(s, ws, |s| - 1);
            Divisible(late) && Price(Forward(s, ws, 0)[|s| - 1], f) == AllLower(Price(s[|s| - 1], f), late)
    ensures Price(Backward(s, ws, |s| - 1)[0], f) == AllRaise(Price(s[0], f), FirstEvents(s, ws))
  {
    hide Forward, Backward, AllLower, AllRaise, Price, Place, PlacedAt, CutAt, GapEvents, FirstEvents;
    var m := FindPlaced(s, ws, |s| - 1);
    var k := FindCut(s, ws, 0);
    ForwardPrice(s, s, ws, 0, |s| - 1, m, f);
    LateEventsAreLast(s, ws, m);
    BackwardFromEnd(s, ws, 0, k, f);
    FirstEventsAreFirst(s, ws, k);
  }

  /** A stock that does not trade on its ex-date: the backward sweep raises the bar before the event as well, and no
      single map can join the two series. */
  lemma SuspendedStock()
    ensures var bar := (day: int) => KRecord(day * DAY, 1.0, 1.0, 1.0, 1.0, 1.0, 1.0);
            var s := [bar(1), bar(3)];
            var ws := [StockWeight(2 * DAY, 0.0, 0.0, 0.0, 5.0, 0.0, 0.0)];
            Divisible(ws) && EventsOf(s, ws, DAY) == ws
            && Forward(s, ws, 0)[0].closePrice != Forward(s, ws, 0)[1].closePrice
            && Backward(s, ws, 1)[0].closePrice == Backward(s, ws, 1)[1].closePrice
  {
    var s := [KRecord(1 * DAY, 1.0, 1.0, 1.0, 1.0, 1.0, 1.0), KRecord(3 * DAY, 1.0, 1.0, 1.0, 1.0, 1.0, 1.0)];
    var w := StockWeight(2 * DAY, 0.0, 0.0, 0.0, 5.0, 0.0, 0.0);
    assert [w][..0] == [] && [w][1..] == [];
    assert Window([], DAY, 4 * DAY) == [];
    assert EventsOf(s, [w], DAY) == [w];
    assert FirstFrom(s, 0, 2 * DAY) == 1;
    assert Forward(s, [w], 0) == LowerBefore(s, 1, w);
    assert LastUpTo(s, 1, 2 * DAY) == 0;
    assert Backward(s, [w], 1) == RaiseFrom(s, 0, w);
  }
}
