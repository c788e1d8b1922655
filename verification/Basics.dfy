/** Failure-free optional values. */
module Options {
  datatype Option<+T> = None | Some(value: T)
}

/** Datetimes as a count of seconds; a date is the midnight it starts at. */
module Calendar {
  const DAY := 86400

  function DateOf(d: int): int {
    d - d % DAY
  }

  /** The midnight after `d`, as `Datetime(d.date() + bd::days(1))` gives it. */
  function NextDay(d: int): int {
    DateOf(d) + DAY
  }

  predicate Midnight(d: int) {
    d % DAY == 0
  }

  /** A midnight lies before the next day of `d` exactly when it is not later than `d`. */
  lemma MidnightBeforeNextDay(w: int, d: int)
    requires Midnight(w)
    ensures w < NextDay(d) <==> w <= d
    ensures d < NextDay(d) && Midnight(NextDay(d))
  {
  }

  lemma NextDayMonotone(c: int, d: int)
    requires c <= d
    ensures NextDay(c) <= NextDay(d)
  {
  }
}

/** Ascending iteration over the keys of a `std::map`. */
module Keys {
  lemma FindLeast(ids: set<nat>) returns (m: nat)
    requires ids != {}
    ensures m in ids && forall x :: x in ids ==> m <= x
  {
    var k :| k in ids;
    m := k;
    if ids - {k} != {} {
      var n := FindLeast(ids - {k});
      m := if n < k then n else k;
    }
    forall x | x in ids
      ensures m <= x
    {
      assert x == k || x in ids - {k};
    }
  }

  ghost function Least(ids: set<nat>): (m: nat)
    requires ids != {}
    ensures m in ids && forall x :: x in ids ==> m <= x
  {
    assert exists m :: m in ids && forall x :: x in ids ==> m <= x by {
      var m := FindLeast(ids);
    }
    var m :| m in ids && forall x :: x in ids ==> m <= x;
    m
  }
}

module Sequences {
  function RemoveAt<T>(s: seq<T>, i: nat): seq<T>
    requires i < |s|
  {
    s[..i] + s[i + 1..]
  }

  lemma MultisetRemoveAt<T>(s: seq<T>, i: nat)
    requires i < |s|
    ensures multiset(RemoveAt(s, i)) == multiset(s) - multiset{s[i]}
  {
    assert s == s[..i] + ([s[i]] + s[i + 1..]);
  }

  /** Two interleaved concatenations hold the same elements. */
  lemma MultisetInterleave<T>(s: seq<T>, t: seq<T>, x: seq<T>, y: seq<T>, rest: seq<T>)
    requires multiset(rest) == multiset(x) + multiset(y)
    ensures multiset(s + t + rest) == multiset(s + x) + multiset(t + y)
  {
  }
}
