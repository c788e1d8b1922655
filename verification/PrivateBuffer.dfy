/**
 The bar buffer of a query, and its four adjustment sweeps in place.
 */
module PrivateBuffer {
  import opened Calendar
  import opened Weights
  import opened KRecords
  import opened PriceAdjustment
  import opened EqualRatio
  import opened Options

  class KDataPrivatedBuffer {
    const buffer: array<KRecord>
    const weights: seq<StockWeight>
    const barSeconds: int

    constructor (bars: array<KRecord>, weights: seq<StockWeight>, barSeconds: int)
      ensures this.buffer == bars && this.weights == weights && this.barSeconds == barSeconds
    {
      this.buffer, this.weights, this.barSeconds := bars, weights, barSeconds;
    }

    /** `getPos` of the private buffer: `std::lower_bound`, then a look at what it found. */
    method GetPos(d: int) returns (pos: Option<nat>)
      requires Ordered(buffer[..])
      ensures var bars := buffer[..]; forall i: nat :: pos == Some(i) <==> i < |bars| && bars[i].datetime == d
    {
      ghost var bars := buffer[..];
      var low, high := 0, buffer.Length;
      while low < high
        invariant 0 <= low <= high <= buffer.Length
        invariant forall i :: 0 <= i < low ==> bars[i].datetime < d
        invariant forall i :: high <= i < buffer.Length ==> bars[i].datetime >= d
      {
        var middle := (low + high) / 2;
        if buffer[middle].datetime < d {
          low := middle + 1;
        } else {
          high := middle;
        }
      }
      pos := if low == buffer.Length || buffer[low].datetime != d then None else Some(low);
    }

    /** The first bar from `start` on that is not earlier than `d`. */
    method SeekForward(start: nat, d: int) returns (i: nat)
      requires start <= buffer.Length
      ensures i == FirstFrom(buffer[..], start, d)
    {
      i := start;
      while i < buffer.Length && buffer[i].datetime < d
        invariant start <= i <= buffer.Length
        invariant FirstFrom(buffer[..], i, d) == FirstFrom(buffer[..], start, d)
      {
        i := i + 1;
      }
    }

    method SeekBackward(from: nat, d: int) returns (cut: nat)
      requires from < buffer.Length
      ensures cut == CutBack(buffer[..], from, d)
    {
      var i := from;
      while i > 0 && buffer[i].datetime > d
        invariant 0 <= i <= from
        invariant LastUpTo(buffer[..], i, d) == LastUpTo(buffer[..], from, d)
      {
        i := i - 1;
      }
      if i != from && buffer[i].datetime != DateOf(buffer[i].datetime) {
        i := i + 1;
      }
      cut := i;
    }

    method LowerBars(cut: nat, w: StockWeight)
      requires cut <= buffer.Length && Denominator(w) != 0.0
      modifies buffer
      ensures buffer[..] == LowerBefore(old(buffer[..]), cut, w)
    {
      hide LowerBar;
      for i := 0 to cut
        invariant forall k :: 0 <= k < buffer.Length ==>
                    buffer[k] == old(if k < i then LowerBar(buffer[k], w) else buffer[k])
      {
        buffer[i] := LowerBar(buffer[i], w);
      }
    }

    method RaiseBars(cut: nat, w: StockWeight)
      requires cut <= buffer.Length && Denominator(w) != 0.0
      modifies buffer
      ensures buffer[..] == RaiseFrom(old(buffer[..]), cut, w)
    {
      hide RaiseBar;
      for i := cut to buffer.Length
        invariant forall k :: 0 <= k < buffer.Length ==>
                    buffer[k] == old(if cut <= k < i then RaiseBar(buffer[k], w) else buffer[k])
      {
        buffer[i] := RaiseBar(buffer[i], w);
      }
    }

    method ScaleBars(low: nat, high: nat, k: real, countFactor: real)
      requires low <= high <= buffer.Length
      modifies buffer
      ensures forall i :: 0 <= i < buffer.Length ==>
                buffer[i] == old(if low <= i < high then ScaleBar(buffer[i], k, countFactor) else buffer[i])
    {
      hide ScaleBar;
      for i := low to high
        invariant forall j :: 0 <= j < buffer.Length ==>
                    buffer[j] == old(if low <= j < i then ScaleBar(buffer[j], k, countFactor) else buffer[j])
      {
        buffer[i] := ScaleBar(buffer[i], k, countFactor);
      }
    }

    method RecoverForward()
      requires EventsDivisible(buffer[..], weights, barSeconds)
      modifies buffer
      ensures buffer[..] == old(ForwardAdjusted(buffer[..], weights, barSeconds))
    {
      if buffer.Length == 0 {
        return;
      }
      hide Idle, Trivial, LowerBefore, FirstFrom, EventsOf, Denominator;
      var ws := EventsOf(buffer[..], weights, barSeconds);
      var cut: nat, j: nat := 0, 0;
      while j < |ws|
        invariant j <= |ws| && cut <= buffer.Length && Divisible(ws[j..])
        invariant Forward(buffer[..], ws[j..], cut) == old(Forward(buffer[..], ws, 0))
      {
        var w := ws[j];
        assert ws[j..][0] == w && ws[j..][1..] == ws[j + 1..];
        if !Idle(w) {
          cut := SeekForward(cut, w.datetime);
          if !Trivial(w) {
            LowerBars(cut, w);
          }
        }
        j := j + 1;
      }
    }

    method RecoverBackward()
      requires EventsDivisible(buffer[..], weights, barSeconds)
      modifies buffer
      ensures buffer[..] == old(BackwardAdjusted(buffer[..], weights, barSeconds))
    {
      if buffer.Length == 0 {
        return;
      }
      var ws := EventsOf(buffer[..], weights, barSeconds);
      var cut: nat, j: nat := buffer.Length - 1, |ws|;
      assert ws[..j] == ws;
      hide Idle, Trivial, RaiseFrom, CutBack, EventsOf, Denominator, Divisible, Backward;
      ghost var s0 := buffer[..];
      while j > 0
        invariant j <= |ws| && cut < buffer.Length && Divisible(ws[..j])
        invariant Backward(buffer[..], ws[..j], cut) == Backward(s0, ws, buffer.Length - 1)
      {
        j := j - 1;
        var w := ws[j];
        BackwardTurn(buffer[..], ws, j, cut);
        if !Idle(w) {
          cut := SeekBackward(cut, w.datetime);
          if !Trivial(w) {
            RaiseBars(cut, w);
          }
        }
      }
    }

    method LowerByRatio(s0: seq<KRecord>, cut: nat, w: StockWeight)
      requires cut <= buffer.Length == |s0|
      modifies buffer
      ensures buffer[..] == LowerOnce(s0, old(buffer[..]), w, cut)
    {
      hide Denominator, Trivial, ScaleBar, LowerRatio;
      if cut > 0 {
        var close := s0[cut - 1].closePrice;
        if close != 0.0 && Denominator(w) != 0.0 && !Trivial(w) {
          ScaleBars(0, cut, LowerRatio(w, close), 1.0 / Denominator(w));
        }
      }
    }

    method RaiseByRatio(cut: nat, w: StockWeight)
      requires cut <= buffer.Length
      modifies buffer
      ensures buffer[..] == RaiseOnce(old(buffer[..]), w, cut)
    {
      hide Denominator, Shifted, ScaleBar, RaiseRatio;
      if cut > 0 {
        var close := buffer[cut - 1].closePrice;
        if Shifted(w, close) != 0.0 && Denominator(w) != 0.0 {
          ScaleBars(cut, buffer.Length, RaiseRatio(w, close), Denominator(w));
        }
      }
    }

    method RecoverEqualForward()
      modifies buffer
      ensures buffer[..] == old(EqualForwardAdjusted(buffer[..], weights, barSeconds))
    {
      if buffer.Length == 0 {
        return;
      }
      hide Idle, LowerOnce, FirstFrom, EventsOf;
      var ws := EventsOf(buffer[..], weights, barSeconds);
      var s0 := buffer[..];
      var cut: nat, j: nat := 0, 0;
      while j < |ws|
        invariant j <= |ws| && cut <= buffer.Length
        invariant EqualForward(s0, buffer[..], ws[j..], cut) == EqualForward(s0, s0, ws, 0)
      {
        var w := ws[j];
        assert ws[j..][0] == w && ws[j..][1..] == ws[j + 1..];
        if !Idle(w) {
          cut := SeekForward(cut, w.datetime);
          LowerByRatio(s0, cut, w);
        }
        j := j + 1;
      }
    }

    method RecoverEqualBackward()
      modifies buffer
      ensures buffer[..] == old(EqualBackwardAdjusted(buffer[..], weights, barSeconds))
    {
      if buffer.Length == 0 {
        return;
      }
      hide EqualBackward, RaiseOnce, CutBack, EventsOf;
      var ws := EventsOf(buffer[..], weights, barSeconds);
      var cut: nat, j: nat := buffer.Length - 1, |ws|;
      assert ws[..j] == ws;
      ghost var adjusted := EqualBackward(buffer[..], ws, cut);
      while j > 0
        invariant j <= |ws| && cut < buffer.Length
        invariant EqualBackward(buffer[..], ws[..j], cut) == adjusted
      {
        j := j - 1;
        var w := ws[j];
        EqualBackwardTurn(buffer[..], ws, j, cut);
        cut := SeekBackward(cut, w.datetime);
        RaiseByRatio(cut, w);
      }
      NoEventsLeft(buffer[..], ws[..0], cut);
    }
  }

  lemma BackwardTurn(s: seq<KRecord>, ws: seq<StockWeight>, j: nat, from: nat)
    requires j < |ws| && Divisible(ws[..j + 1]) && from < |s|
    ensures var w, cut := ws[j], CutBack(s, from, ws[j].datetime);
            Divisible(ws[..j]) && Denominator(w) != 0.0
            && Backward(s, ws[..j + 1], from)
               == if Idle(w) then Backward(s, ws[..j], from)
                  else Backward(if Trivial(w) then s else RaiseFrom(s, cut, w), ws[..j], cut)
  {
    hide Idle, Trivial, RaiseFrom, CutBack, Denominator;
    assert ws[..j + 1][j] == ws[j] && ws[..j + 1][..j] == ws[..j];
  }

  lemma EqualBackwardTurn(s: seq<KRecord>, ws: seq<StockWeight>, j: nat, from: nat)
    requires j < |ws| && from < |s|
    ensures var cut := CutBack(s, from, ws[j].datetime);
            EqualBackward(s, ws[..j + 1], from) == EqualBackward(RaiseOnce(s, ws[j], cut), ws[..j], cut)
  {
    hide RaiseOnce, CutBack;
    assert ws[..j + 1][j] == ws[j] && ws[..j + 1][..j] == ws[..j];
  }

  lemma NoEventsLeft(s: seq<KRecord>, ws: seq<StockWeight>, from: nat)
    requires ws == [] && from < |s|
    ensures EqualBackward(s, ws, from) == s
  {
  }
}
