/**
 First-in-first-out lots: the loan list of an account and the borrow queue of each stock.  A loan is a lot whose
 price is one unit of money.
 */
module Fifo {

  datatype Lot = Lot(datetime: int, price: real, number: real)

  function Total(q: seq<Lot>): real {
    if q == [] then 0.0 else q[0].number + Total(q[1..])
  }

  /** What is left when `n` is given back, oldest lots first. */
  function TakeOldest(q: seq<Lot>, n: real): seq<Lot> {
    if q == [] then []
    else if n == q[0].number then q[1..]
    else if n < q[0].number then [q[0].(number := q[0].number - n)] + q[1..]
    else TakeOldest(q[1..], n - q[0].number)
  }

  /** What of `n` the lots do not cover; the scan stops at the first lot that covers the rest. */
  function Shortfall(q: seq<Lot>, n: real): real {
    if q == [] then n
    else if n <= q[0].number then 0.0
    else Shortfall(q[1..], n - q[0].number)
  }

  predicate NonNegative(q: seq<Lot>) {
    forall i :: 0 <= i < |q| ==> q[i].number >= 0.0
  }

  predicate Positive(q: seq<Lot>) {
    forall i :: 0 <= i < |q| ==> q[i].number > 0.0
  }

  /** Where and at what price the share at position `t` of the queue was borrowed. */
  function OriginAt(q: seq<Lot>, t: real): (int, real)
    requires NonNegative(q) && 0.0 <= t < Total(q)
  {
    if t < q[0].number then (q[0].datetime, q[0].price) else OriginAt(q[1..], t - q[0].number)
  }

  /** The do-while loop that gives `n` back, as all three queues of the account run it. */
  method DropOldest(q: seq<Lot>, n: real) returns (rest: seq<Lot>)
    requires q != []
    ensures rest == TakeOldest(q, n)
  {
    rest := q;
    var remain, done := n, false;
    while !done
      invariant done ==> rest == TakeOldest(q, n)
      invariant !done ==> rest != [] && TakeOldest(rest, remain) == TakeOldest(q, n)
      decreases !done, |rest|
    {
      if remain == rest[0].number {
        rest := rest[1..];
        done := true;
      } else if remain < rest[0].number {
        rest := [rest[0].(number := rest[0].number - remain)] + rest[1..];
        done := true;
      } else {
        remain := remain - rest[0].number;
        rest := rest[1..];
        done := rest == [];
      }
    }
  }

  lemma {:induction false} TotalAppend(q: seq<Lot>, r: seq<Lot>)
    ensures Total(q + r) == Total(q) + Total(r)
  {
    if q == [] {
      assert q + r == r;
    } else {
      assert (q + r)[1..] == q[1..] + r;
      TotalAppend(q[1..], r);
    }
  }

  lemma {:induction false} TotalNonNegative(q: seq<Lot>)
    requires NonNegative(q)
    ensures Total(q) >= 0.0
    ensures Positive(q) && q != [] ==> Total(q) > 0.0
  {
    if q != [] {
      assert NonNegative(q[1..]);
      TotalNonNegative(q[1..]);
    }
  }

  /** Giving back an amount the queue holds removes exactly that amount, whatever the signs of the lots. */
  lemma {:induction false} TakeOldestTotal(q: seq<Lot>, n: real)
    requires q != [] && n <= Total(q)
    ensures Total(TakeOldest(q, n)) == Total(q) - n
  {
    var h := q[0].number;
    if n < h {
      var head := q[0].(number := h - n);
      assert ([head] + q[1..])[1..] == q[1..];
    } else if n > h {
      TakeOldestTotal(q[1..], n - h);
    }
  }

  /** The cost scan covers the whole amount exactly when the queue holds it. */
  lemma {:induction false} ShortfallIsZero(q: seq<Lot>, n: real)
    requires NonNegative(q) && n >= 0.0
    ensures Shortfall(q, n) == 0.0 <==> n <= Total(q)
  {
    if q != [] {
      assert NonNegative(q[1..]);
      TotalNonNegative(q[1..]);
      if n > q[0].number {
        ShortfallIsZero(q[1..], n - q[0].number);
      }
    }
  }

  lemma {:induction false} TakeOldestSigns(q: seq<Lot>, n: real)
    ensures NonNegative(q) ==> NonNegative(TakeOldest(q, n))
    ensures Positive(q) ==> Positive(TakeOldest(q, n))
  {
    if q != [] && n > q[0].number {
      TakeOldestSigns(q[1..], n - q[0].number);
    }
  }

  /** A queue of real lots runs empty exactly when everything it holds is given back. */
  lemma TakeOldestEmpties(q: seq<Lot>, n: real)
    requires q != [] && Positive(q) && n <= Total(q)
    ensures TakeOldest(q, n) == [] <==> n == Total(q)
  {
    TakeOldestTotal(q, n);
    TakeOldestSigns(q, n);
    TotalNonNegative(TakeOldest(q, n));
  }

  /** First in, first out: after `n` is given back, position `t` is what position `t + n` was. */
  lemma {:induction false} TakeOldestShifts(q: seq<Lot>, n: real, t: real)
    requires NonNegative(q) && q != [] && 0.0 <= n && 0.0 <= t < Total(q) - n
    ensures NonNegative(TakeOldest(q, n)) && t < Total(TakeOldest(q, n))
    ensures OriginAt(TakeOldest(q, n), t) == OriginAt(q, t + n)
  {
    TakeOldestTotal(q, n);
    TakeOldestSigns(q, n);
    var h := q[0].number;
    if n < h {
      var head := q[0].(number := h - n);
      assert TakeOldest(q, n)[1..] == q[1..];
      assert TakeOldest(q, n)[0] == head;
      if t >= h - n {
        assert t - (h - n) == t + n - h;
      }
    } else if n > h {
      assert NonNegative(q[1..]);
      assert q[1..] != [];
      TakeOldestShifts(q[1..], n - h, t);
    }
  }

  /** A new lot goes to the end of the queue and leaves every earlier position where it was. */
  lemma {:induction false} AppendAtEnd(q: seq<Lot>, lot: Lot, t: real)
    requires NonNegative(q) && lot.number >= 0.0 && 0.0 <= t < Total(q) + lot.number
    ensures NonNegative(q + [lot]) && Total(q + [lot]) == Total(q) + lot.number
    ensures OriginAt(q + [lot], t) == if t < Total(q) then OriginAt(q, t) else (lot.datetime, lot.price)
  {
    TotalAppend(q, [lot]);
    if q == [] {
      assert q + [lot] == [lot];
    } else {
      assert (q + [lot])[1..] == q[1..] + [lot];
      assert NonNegative(q[1..]);
      TotalNonNegative(q[1..]);
      if t >= q[0].number {
        AppendAtEnd(q[1..], lot, t - q[0].number);
      }
    }
  }
}
