/**
 K-line bars, and the place of a datetime among bars in date order.
 */
module KRecords {
  datatype KRecord = KRecord(
    datetime: int, openPrice: real, highPrice: real, lowPrice: real, closePrice: real,
    transAmount: real, transCount: real)

  /** No two bars share a datetime, and later bars stand behind. */
  ghost predicate Ordered(s: seq<KRecord>) {
    forall i, j :: 0 <= i < j < |s| ==> s[i].datetime < s[j].datetime
  }

  /** The first index from `start` on whose bar is not earlier than `d`. */
  function FirstFrom(s: seq<KRecord>, start: nat, d: int): (r: nat)
    requires start <= |s|
    ensures start <= r <= |s|
    ensures forall i :: start <= i < r ==> s[i].datetime < d
    ensures r < |s| ==> s[r].datetime >= d
    decreases |s| - start
  {
    if start < |s| && s[start].datetime < d then FirstFrom(s, start + 1, d) else start
  }

  /** `std::lower_bound` by datetime. */
  function Place(s: seq<KRecord>, d: int): (r: nat)
    ensures r <= |s|
  {
    FirstFrom(s, 0, d)
  }

  lemma PlaceMonotone(s: seq<KRecord>, d: int, e: int)
    requires Ordered(s) && d <= e
    ensures Place(s, d) <= Place(s, e)
  {
  }

  /** The place depends on the datetimes alone. */
  lemma {:induction false} SamePlace(s: seq<KRecord>, t: seq<KRecord>, start: nat, d: int)
    requires |s| == |t| && start <= |s| && forall i :: 0 <= i < |s| ==> s[i].datetime == t[i].datetime
    ensures FirstFrom(s, start, d) == FirstFrom(t, start, d)
    decreases |s| - start
  {
    if start < |s| {
      SamePlace(s, t, start + 1, d);
    }
  }
}
