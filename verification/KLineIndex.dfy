/**
 The in-memory K-line buffer of a stock: realtime updates, which keep it in date order, and the queries, which need it
 to be.  Indices are `nat`, so every unsigned subtraction is shown not to wrap.
 */
module KLineIndex {
  import opened Options
  import opened KRecords

  /** The end of a date query; the null datetime is later than every other. */
  datatype Bound = At(d: int) | Never

  predicate Later(b: Bound, d: int) {
    b.Never? || b.d > d
  }

  /** Where an index counted from the end points. */
  function FromStart(i: int, total: nat): int {
    if i < 0 then i + total else i
  }

  // ---------------------------------------------------------------------------------------------------------
  // What updates make of a buffer

  /** A later quote of the same bar widens its range and replaces the rest, but for the open. */
  function Merged(bar: KRecord, r: KRecord): KRecord {
    KRecord(bar.datetime, bar.openPrice,
            if bar.highPrice < r.highPrice then r.highPrice else bar.highPrice,
            if bar.lowPrice > r.lowPrice then r.lowPrice else bar.lowPrice,
            r.closePrice, r.transAmount, r.transCount)
  }

  function Updated(kdata: seq<KRecord>, r: KRecord): seq<KRecord> {
    if kdata == [] then [r]
    else
      var bar := kdata[|kdata| - 1];
      if bar.datetime == r.datetime then kdata[..|kdata| - 1] + [Merged(bar, r)]
      else if bar.datetime < r.datetime then kdata + [r]
      else kdata
  }

  function UpdatedAll(kdata: seq<KRecord>, rs: seq<KRecord>): seq<KRecord> {
    if rs == [] then kdata else Updated(UpdatedAll(kdata, rs[..|rs| - 1]), rs[|rs| - 1])
  }

  /** Every sequence of updates keeps the bars in strict date order. */
  lemma {:induction false} UpdatesKeepOrder(kdata: seq<KRecord>, rs: seq<KRecord>)
    requires Ordered(kdata)
    ensures Ordered(UpdatedAll(kdata, rs))
  {
    if rs != [] {
      UpdatesKeepOrder(kdata, rs[..|rs| - 1]);
    }
  }

  /** The quotes that are not older than one before them. */
  function Accepted(rs: seq<KRecord>): seq<KRecord> {
    if rs == [] then []
    else
      var before, r := Accepted(rs[..|rs| - 1]), rs[|rs| - 1];
      if before == [] || before[|before| - 1].datetime <= r.datetime then before + [r] else before
  }

  function Of(rs: seq<KRecord>, d: int): seq<KRecord> {
    if rs == [] then []
    else
      var before, r := Of(rs[..|rs| - 1], d), rs[|rs| - 1];
      if r.datetime == d then before + [r] else before
  }

  /** The bar sums up these quotes: the first open, the extremes, and the last of the rest. */
  ghost predicate SumsUp(bar: KRecord, quotes: seq<KRecord>) {
    && quotes != []
    && bar.openPrice == quotes[0].openPrice
    && (forall q <- quotes :: q.datetime == bar.datetime && q.lowPrice >= bar.lowPrice && q.highPrice <= bar.highPrice)
    && (exists q :: q in quotes && q.highPrice == bar.highPrice)
    && (exists q :: q in quotes && q.lowPrice == bar.lowPrice)
    && bar.closePrice == quotes[|quotes| - 1].closePrice
    && bar.transAmount == quotes[|quotes| - 1].transAmount && bar.transCount == quotes[|quotes| - 1].transCount
  }

  lemma MergedSumsUp(bar: KRecord, quotes: seq<KRecord>, r: KRecord)
    requires SumsUp(bar, quotes) && r.datetime == bar.datetime
    ensures SumsUp(Merged(bar, r), quotes + [r])
  {
    var h :| h in quotes && h.highPrice == bar.highPrice;
    var l :| l in quotes && l.lowPrice == bar.lowPrice;
    var all := quotes + [r];
    assert all[0] == quotes[0] && all[|all| - 1] == r;
    assert h in all && l in all && r in all;
    forall q <- all
      ensures q == r || q in quotes
    {
    }
  }

  lemma OneSumsUp(r: KRecord)
    ensures SumsUp(r, [r])
  {
    assert r in [r];
  }

  lemma {:induction false} NoneOf(rs: seq<KRecord>, d: int)
    requires forall r <- rs :: r.datetime != d
    ensures Of(rs, d) == []
  {
    if rs != [] {
      assert rs[|rs| - 1] in rs;
      NoneOf(rs[..|rs| - 1], d);
    }
  }

  /** What the buffer holds after the updates: a bar for every date of an accepted quote, summing up the accepted
      quotes of its date. */
  ghost predicate Holds(kdata: seq<KRecord>, quotes: seq<KRecord>) {
    && Ordered(kdata)
    && (kdata == [] <==> quotes == [])
    && (quotes != [] ==> kdata[|kdata| - 1].datetime == quotes[|quotes| - 1].datetime)
    && (forall q <- quotes :: q.datetime <= quotes[|quotes| - 1].datetime)
    && (forall q <- quotes :: exists i :: 0 <= i < |kdata| && kdata[i].datetime == q.datetime)
    && (forall i :: 0 <= i < |kdata| ==> SumsUp(kdata[i], Of(quotes, kdata[i].datetime)))
  }

  lemma FirstHolds(r: KRecord)
    ensures Holds([r], [r])
  {
    OneSumsUp(r);
    OfOneMore([], r, r.datetime);
    assert [] + [r] == [r] && Of([], r.datetime) == [];
    hide SumsUp, Of;
    assert [r][0].datetime == r.datetime;
  }

  lemma OfOneMore(quotes: seq<KRecord>, r: KRecord, d: int)
    ensures Of(quotes + [r], d) == if r.datetime == d then Of(quotes, d) + [r] else Of(quotes, d)
  {
    assert (quotes + [r])[..|quotes|] == quotes;
  }

  lemma SameBarHolds(kdata: seq<KRecord>, quotes: seq<KRecord>, r: KRecord)
    requires Holds(kdata, quotes) && kdata != [] && kdata[|kdata| - 1].datetime == r.datetime
    ensures Holds(Updated(kdata, r), quotes + [r])
  {
    hide SumsUp, Of;
    var n, more := |kdata| - 1, quotes + [r];
    var t := Updated(kdata, r);
    forall i | 0 <= i < |t|
      ensures SumsUp(t[i], Of(more, t[i].datetime))
    {
      OfOneMore(quotes, r, kdata[i].datetime);
      if i == n {
        MergedSumsUp(kdata[n], Of(quotes, r.datetime), r);
      }
    }
    forall q <- more
      ensures exists i :: 0 <= i < |t| && t[i].datetime == q.datetime
    {
      if q in quotes {
        var i :| 0 <= i < |kdata| && kdata[i].datetime == q.datetime;
        assert t[i].datetime == q.datetime;
      } else {
        assert t[n].datetime == q.datetime;
      }
    }
  }

  lemma NewBarHolds(kdata: seq<KRecord>, quotes: seq<KRecord>, r: KRecord)
    requires Holds(kdata, quotes) && kdata != [] && kdata[|kdata| - 1].datetime < r.datetime
    ensures Holds(Updated(kdata, r), quotes + [r])
  {
    hide SumsUp, Of;
    var n, more := |kdata|, quotes + [r];
    var t := Updated(kdata, r);
    forall i | 0 <= i < |t|
      ensures SumsUp(t[i], Of(more, t[i].datetime))
    {
      OfOneMore(quotes, r, t[i].datetime);
      if i == n {
        NoneOf(quotes, r.datetime);
        OneSumsUp(r);
        assert [] + [r] == [r];
      } else {
        assert kdata[i].datetime < r.datetime;
      }
    }
    forall q <- more
      ensures exists i :: 0 <= i < |t| && t[i].datetime == q.datetime
    {
      if q in quotes {
        var i :| 0 <= i < |kdata| && kdata[i].datetime == q.datetime;
        assert t[i].datetime == q.datetime;
      } else {
        assert t[n].datetime == q.datetime;
      }
    }
  }

  /** After any sequence of realtime updates of an empty buffer, the bars are in strict date order, one for every date
      quoted in time, and each sums up the quotes of its date. */
  lemma {:induction false} BarsSumUpQuotes(rs: seq<KRecord>)
    ensures Holds(UpdatedAll([], rs), Accepted(rs))
  {
    if rs != [] {
      BarsSumUpQuotes(rs[..|rs| - 1]);
      OneQuoteMore(UpdatedAll([], rs[..|rs| - 1]), Accepted(rs[..|rs| - 1]), rs[|rs| - 1]);
    } else {
      assert Holds([], []);
    }
  }

  lemma OneQuoteMore(kdata: seq<KRecord>, quotes: seq<KRecord>, r: KRecord)
    requires Holds(kdata, quotes)
    ensures Holds(Updated(kdata, r),
                  if quotes == [] || quotes[|quotes| - 1].datetime <= r.datetime then quotes + [r] else quotes)
  {
    hide Of, SumsUp, Merged;
    if quotes == [] {
      FirstHolds(r);
      assert [] + [r] == [r];
    } else if kdata[|kdata| - 1].datetime == r.datetime {
      SameBarHolds(kdata, quotes, r);
    } else if kdata[|kdata| - 1].datetime < r.datetime {
      NewBarHolds(kdata, quotes, r);
    }
  }

  // ---------------------------------------------------------------------------------------------------------
  // The buffer

  /** What an index or date query answers: an index range, or that there is none. */
  datatype Range = Missing | Found(start: nat, end: nat)

  predicate Covers(range: Range, i: nat) {
    range.Found? && range.start <= i < range.end
  }

  predicate NewestUpTo(s: seq<KRecord>, i: nat, d: int)
    requires i < |s|
  {
    s[i].datetime <= d && (i + 1 < |s| ==> s[i + 1].datetime > d)
  }

  class StockBuffer {
    var kdata: seq<KRecord>

    ghost predicate Valid()
      reads this
    {
      Ordered(kdata)
    }

    constructor ()
      ensures Valid() && kdata == []
    {
      kdata := [];
    }

    /** Records without a datetime, and those of holidays, are not applied. */
    method RealtimeUpdate(r: KRecord, isNull: bool, isHoliday: bool)
      requires Valid()
      modifies this
      ensures Valid()
      ensures kdata == if isNull || isHoliday then old(kdata) else Updated(old(kdata), r)
    {
      if isNull || isHoliday {
        return;
      }
      if kdata == [] {
        kdata := [r];
        return;
      }
      var bar := kdata[|kdata| - 1];
      if bar.datetime == r.datetime {
        var high, low := bar.highPrice, bar.lowPrice;
        if bar.highPrice < r.highPrice {
          high := r.highPrice;
        }
        if bar.lowPrice > r.lowPrice {
          low := r.lowPrice;
        }
        kdata := kdata[..|kdata| - 1] + [bar.(highPrice := high, lowPrice := low, closePrice := r.closePrice,
                                              transAmount := r.transAmount, transCount := r.transCount)];
      } else if bar.datetime < r.datetime {
        kdata := kdata + [r];
      }
    }

    /** The search of a date query from `from` on.  It leaves the loop by one of the two exits only, which is what gives
        `mid` its value, and `mid - 1` never wraps. */
    method Search(from: nat, bound: Bound) returns (mid: nat)
      requires Valid() && from < |kdata|
      ensures from <= mid <= |kdata|
      ensures forall i :: from <= i < |kdata| ==> (Later(bound, kdata[i].datetime) <==> i < mid)
    {
      mid := *;
      var low: nat, high: nat := from, |kdata| - 1;
      while low <= high
        invariant from <= low <= high < |kdata|
        invariant forall i :: from <= i < low ==> Later(bound, kdata[i].datetime)
        invariant forall i :: high < i < |kdata| ==> !Later(bound, kdata[i].datetime)
        decreases high - low
      {
        if Later(bound, kdata[high].datetime) {
          mid := high + 1;
          break;
        }
        if !Later(bound, kdata[low].datetime) {
          mid := low;
          break;
        }
        mid := (low + high) / 2;
        if Later(bound, kdata[mid].datetime) {
          low := mid + 1;
        } else {
          high := mid - 1;
        }
      }
    }

    /** A date query finds exactly the records in [start, end). */
    method IndexRangeByDate(start: Bound, end: Bound) returns (range: Range)
      requires Valid()
      ensures range.Found? ==> range.start < range.end <= |kdata|
      ensures forall i :: 0 <= i < |kdata| ==>
                (Covers(range, i) <==> !Later(start, kdata[i].datetime) && Later(end, kdata[i].datetime))
    {
      var total := |kdata|;
      if total == 0 {
        return Missing;
      }
      var startpos := Search(0, start);
      if startpos >= total {
        return Missing;
      }
      var mid := Search(startpos, end);
      var endpos := if mid >= total then total else mid;
      if startpos >= endpos {
        return Missing;
      }
      range := Found(startpos, endpos);
    }

    /** An index query finds exactly the records from `start` to before `end`, negative indices counted from the end. */
    method IndexRangeByIndex(start: int, end: int) returns (range: Range)
      ensures range.Found? ==> range.start < range.end <= |kdata|
      ensures forall i :: 0 <= i < |kdata| ==>
                (Covers(range, i) <==> FromStart(start, |kdata|) <= i < FromStart(end, |kdata|))
    {
      var total := |kdata|;
      if total == 0 {
        return Missing;
      }
      var startix := start;
      if startix < 0 {
        startix := startix + total;
        if startix < 0 {
          startix := 0;
        }
      }
      var endix := end;
      if endix < 0 {
        endix := endix + total;
        if endix < 0 {
          endix := 0;
        }
      }
      if endix > total {
        endix := total;
      }
      if startix >= endix {
        return Missing;
      }
      range := Found(startix, endix);
    }

    method RecordList(start: nat, end: nat) returns (list: seq<KRecord>)
      ensures list == if start < end && start < |kdata|
                      then kdata[start..if end > |kdata| then |kdata| else end] else []
    {
      var total := |kdata|;
      if total == 0 || start >= end || start >= total {
        return [];
      }
      var length := if end > total then total - start else end - start;
      list := kdata[start..start + length];
    }

    /** The records of a date query: those in [start, end), in order. */
    method RecordsByDate(start: Bound, end: Bound) returns (list: seq<KRecord>)
      requires Valid()
      ensures forall r :: r in list <==> r in kdata && !Later(start, r.datetime) && Later(end, r.datetime)
      ensures Ordered(list)
    {
      var range := IndexRangeByDate(start, end);
      if range.Missing? {
        list := [];
      } else {
        list := RecordList(range.start, range.end);
        assert list == kdata[range.start..range.end];
        forall i | range.start <= i < range.end
          ensures kdata[i] in list
        {
          assert kdata[i] == list[i - range.start];
        }
      }
    }

    /** The buffered market value: nothing for a null security and for one delisted before `d`; else the close of the
        newest record not later than `d`, and when every record is later, that of the newest one of all. */
    method MarketValue(d: int, isNull: bool, valid: bool, lastDatetime: int) returns (price: real)
      requires Valid()
      ensures isNull || (!valid && d > lastDatetime) || kdata == [] ==> price == 0.0
      ensures !isNull && (valid || d <= lastDatetime) && kdata != [] ==>
                && (kdata[0].datetime > d ==> price == kdata[|kdata| - 1].closePrice)
                && forall i :: 0 <= i < |kdata| && NewestUpTo(kdata, i, d) ==> price == kdata[i].closePrice
    {
      if isNull || (!valid && d > lastDatetime) {
        return 0.0;
      }
      var range := IndexRangeByDate(At(d), Never);
      if range.Found? {
        var k := kdata[range.start];
        if k.datetime == d {
          return k.closePrice;
        }
        if range.start != 0 {
          return kdata[range.start - 1].closePrice;
        }
      }
      price := 0.0;
      var total := |kdata|;
      if total > 0 {
        price := kdata[total - 1].closePrice;
      }
    }
  }

  /** A window of the stock's buffer that a query shares. */
  class KDataSharedBuffer {
    const data: array<KRecord>
    const start: nat
    const size: nat

    ghost predicate Valid()
      reads data
    {
      start + size <= data.Length && Ordered(data[start..start + size])
    }

    constructor (data: array<KRecord>, start: nat, end: nat)
      requires start <= end <= data.Length && Ordered(data[start..end])
      ensures Valid() && this.data == data && this.start == start && this.size == end - start
    {
      this.data, this.start, this.size := data, start, end - start;
    }

    /** `getPos` of the shared buffer: the search with early exits. */
    method GetPos(d: int) returns (pos: Option<nat>)
      requires Valid()
      ensures var bars := data[start..start + size];
              forall i: nat :: pos == Some(i) <==> i < |bars| && bars[i].datetime == d
    {
      ghost var bars := data[start..start + size];
      if size == 0 {
        return None;
      }
      var mid: nat := *;
      var low: nat, high: nat := 0, size - 1;
      while low <= high
        invariant 0 <= low <= high < size
        invariant forall i :: 0 <= i < low ==> bars[i].datetime < d
        invariant forall i :: high < i < size ==> bars[i].datetime >= d
        decreases high - low
      {
        assert bars[low] == data[start + low] && bars[high] == data[start + high];
        if d > data[start + high].datetime {
          mid := high + 1;
          break;
        }
        if data[start + low].datetime >= d {
          mid := low;
          break;
        }
        mid := (low + high) / 2;
        assert bars[mid] == data[start + mid];
        if d > data[start + mid].datetime {
          low := mid + 1;
        } else {
          high := mid - 1;
        }
      }
      assert mid < size ==> bars[mid] == data[start + mid];
      if mid >= size {
        return None;
      }
      pos := if data[start + mid].datetime == d then Some(mid) else None;
    }
  }
}
