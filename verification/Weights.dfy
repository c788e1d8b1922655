/**
 Ex-rights events, and the range query on a stock's list of them.
 */
module Weights {
  /** An ex-rights event: what ten shares receive, and the consolidation ratio. */
  datatype StockWeight = StockWeight(
    datetime: int, countAsGift: real, countForSell: real, priceForSell: real,
    bonus: real, increasement: real, suogu: real)

  /** The ex-rights events dated in [start, end), as `Stock::getWeight` returns them. */
  function Window(ws: seq<StockWeight>, start: int, end: int): seq<StockWeight> {
    if ws == [] then []
    else
      var rest := Window(ws[..|ws| - 1], start, end);
      var w := ws[|ws| - 1];
      if start <= w.datetime < end then rest + [w] else rest
  }

  ghost predicate InOrder(ws: seq<StockWeight>) {
    forall i, j :: 0 <= i < j < |ws| ==> ws[i].datetime <= ws[j].datetime
  }

  lemma {:induction false} WindowDates(ws: seq<StockWeight>, start: int, end: int)
    ensures forall w :: w in Window(ws, start, end) <==> w in ws && start <= w.datetime < end
  {
    if ws != [] {
      WindowDates(ws[..|ws| - 1], start, end);
    }
  }

  lemma {:induction false} WindowBefore(ws: seq<StockWeight>, start: int, end: int)
    requires forall w <- ws :: w.datetime < start || w.datetime >= end
    ensures Window(ws, start, end) == []
  {
    if ws != [] {
      assert ws[|ws| - 1] in ws;
      WindowBefore(ws[..|ws| - 1], start, end);
    }
  }

  lemma {:induction false} WindowSplit(ws: seq<StockWeight>, start: int, middle: int, end: int)
    requires InOrder(ws) && start <= middle <= end
    ensures Window(ws, start, end) == Window(ws, start, middle) + Window(ws, middle, end)
  {
    if ws != [] {
      var front, w := ws[..|ws| - 1], ws[|ws| - 1];
      WindowSplit(front, start, middle, end);
      if w.datetime < middle {
        WindowBefore(front, middle, end);
      }
    }
  }

  /** The window is exactly the events dated in it, in order: two lower bounds of the sorted list. */
  lemma {:induction false} WindowIsSlice(ws: seq<StockWeight>, start: int, end: int, low: nat, high: nat)
    requires low <= high <= |ws|
    requires forall i :: 0 <= i < |ws| ==> (ws[i].datetime < start <==> i < low)
    requires forall i :: 0 <= i < |ws| ==> (ws[i].datetime < end <==> i < high)
    ensures Window(ws, start, end) == ws[low..high]
  {
    if ws != [] {
      var n := |ws| - 1;
      var low', high' := if low > n then n else low, if high > n then n else high;
      WindowIsSlice(ws[..n], start, end, low', high');
      if low <= n < high {
        assert ws[low..high] == ws[low..n] + [ws[n]];
        assert ws[..n][low..n] == ws[low..n];
      } else {
        assert ws[low..high] == ws[..n][low'..high'];
      }
    }
  }

  lemma {:induction false} WindowInOrder(ws: seq<StockWeight>, start: int, end: int)
    requires InOrder(ws)
    ensures InOrder(Window(ws, start, end))
  {
    if ws != [] {
      WindowInOrder(ws[..|ws| - 1], start, end);
      WindowDates(ws[..|ws| - 1], start, end);
    }
  }
}
