/**
 The ex-rights cache of one stock where it can be evicted: readers that load it on demand, and releases that empty it.

 Every call is broken into the steps other threads can come between: the atomic flag is read outside the lock, and the
 two writes under the lock, to the list and to the flag, are separate.
 */
module WeightCache {
  import opened Weights

  type Id = nat

  /** Where a reader stands in `getWeight`. */
  datatype Pc =
    | CheckReady                                      // reads the flag without the lock
    | WantLoad | Recheck | Listed | Loaded            // first load: waits, has the unique lock, list in, flag up
    | WantRead | Inspect | InspectFlag                // waits, holds the shared lock, has seen an empty list
    | WantReload | RecheckAgain | ListedAgain | LoadedAgain
    | WantReadAgain
    | Copy                                            // holds the shared lock, about to copy the range
    | Returned(result: seq<StockWeight>)

  /** A call and how many releases have had the lock during it. */
  datatype Reader = Reader(start: int, end: int, pc: Pc, overlaps: nat)

  /** Where a release stands; it empties the list before it lowers the flag. */
  datatype ReleasePc = WantRelease | Locked | Emptied | Lowered

  datatype Writer = NoWriter | ByReader(reader: Id) | ByRelease(release: Id)

  datatype System = System(
    list: seq<StockWeight>, ready: bool, writer: Writer, readers: map<Id, Reader>, releases: map<Id, ReleasePc>)

  datatype Event =
    | Call(id: Id, start: int, end: int)
    | ReaderStep(id: Id)
    | Release(id: Id)
    | ReleaseStep(id: Id)

  // ---------------------------------------------------------------------------------------------------------
  // The range query

  /** The first event not earlier than `d`, from `from` on. */
  method LowerBound(list: seq<StockWeight>, from: nat, d: int) returns (at: nat)
    requires InOrder(list) && from <= |list|
    ensures from <= at <= |list|
    ensures forall i :: from <= i < |list| ==> (list[i].datetime < d <==> i < at)
  {
    var low, high := from, |list|;
    while low < high
      invariant from <= low <= high <= |list|
      invariant forall i :: from <= i < low ==> list[i].datetime < d
      invariant forall i :: high <= i < |list| ==> list[i].datetime >= d
    {
      var middle := (low + high) / 2;
      if list[middle].datetime < d {
        low := middle + 1;
      } else {
        high := middle;
      }
    }
    at := low;
  }

  /** The end of `getWeight`: copies the events dated in [start, end). */
  method CopyRange(list: seq<StockWeight>, start: int, end: int) returns (result: seq<StockWeight>)
    requires InOrder(list) && start < end
    ensures result == Window(list, start, end)
  {
    hide Window;
    result := [];
    var low := LowerBound(list, 0, start);
    var high := LowerBound(list, low, end);
    WindowIsSlice(list, start, end, low, high);
    var i := low;
    while i != high
      invariant low <= i <= high
      invariant result == list[low..i]
      decreases high - i
    {
      result := result + [list[i]];
      i := i + 1;
    }
  }

  // ---------------------------------------------------------------------------------------------------------
  // Steps

  predicate HoldsShared(pc: Pc) {
    pc in {Inspect, InspectFlag, Copy}
  }

  predicate HoldsUnique(pc: Pc) {
    pc in {Recheck, Listed, Loaded, RecheckAgain, ListedAgain, LoadedAgain}
  }

  predicate Free(s: System) {
    s.writer.NoWriter? && forall id <- s.readers :: !HoldsShared(s.readers[id].pc)
  }

  function Put(s: System, id: Id, r: Reader, pc: Pc): System {
    s.(readers := s.readers[id := r.(pc := pc)])
  }

  /** The next step of a reader; it waits where it needs a lock that is taken. */
  function StepReader(driver: seq<StockWeight>, s: System, id: Id, r: Reader): System {
    match r.pc
    case CheckReady => Put(s, id, r, if s.ready then WantRead else WantLoad)
    case WantLoad => if Free(s) then Put(s, id, r, Recheck).(writer := ByReader(id)) else s
    case Recheck => if s.ready then Put(s, id, r, Loaded) else Put(s, id, r, Listed).(list := driver)
    case Listed => Put(s, id, r, Loaded).(ready := true)
    case Loaded => Put(s, id, r, WantRead).(writer := NoWriter)
    case WantRead => if s.writer.NoWriter? then Put(s, id, r, Inspect) else s
    case Inspect => Put(s, id, r, if s.list == [] then InspectFlag else Copy)
    case InspectFlag => Put(s, id, r, if s.ready then Copy else WantReload)
    case WantReload => if Free(s) then Put(s, id, r, RecheckAgain).(writer := ByReader(id)) else s
    case RecheckAgain => if s.ready then Put(s, id, r, LoadedAgain) else Put(s, id, r, ListedAgain).(list := driver)
    case ListedAgain => Put(s, id, r, LoadedAgain).(ready := true)
    case LoadedAgain => Put(s, id, r, WantReadAgain).(writer := NoWriter)
    case WantReadAgain => if s.writer.NoWriter? then Put(s, id, r, Copy) else s
    case Copy => Put(s, id, r, Returned(Window(s.list, r.start, r.end)))
    case Returned(_) => s
  }

  /** A release that gets the lock overlaps every call that has not returned. */
  function Overlapped(readers: map<Id, Reader>): map<Id, Reader> {
    map id | id in readers ::
      if readers[id].pc.Returned? then readers[id] else readers[id].(overlaps := readers[id].overlaps + 1)
  }

  function StepRelease(s: System, id: Id, pc: ReleasePc): System {
    match pc
    case WantRelease =>
      if Free(s)
      then s.(releases := s.releases[id := Locked], writer := ByRelease(id), readers := Overlapped(s.readers))
      else s
    case Locked => s.(releases := s.releases[id := Emptied], list := [])
    case Emptied => s.(releases := s.releases[id := Lowered], ready := false)
    case Lowered => s.(releases := s.releases - {id}, writer := NoWriter)
  }

  /** One step; an event that is not possible changes nothing.  A call that begins while a release has the lock is
      overlapped by it. */
  function Step(driver: seq<StockWeight>, s: System, e: Event): System {
    match e
    case Call(id, start, end) =>
      if id in s.readers then s
      else
        s.(readers := s.readers[id := Reader(start, end, if start >= end then Returned([]) else CheckReady,
                                             if s.writer.ByRelease? then 1 else 0)])
    case ReaderStep(id) => if id in s.readers then StepReader(driver, s, id, s.readers[id]) else s
    case Release(id) => if id in s.releases then s else s.(releases := s.releases[id := WantRelease])
    case ReleaseStep(id) => if id in s.releases then StepRelease(s, id, s.releases[id]) else s
  }

  /** At first the cache is either materialized or not loaded at all. */
  function Start(driver: seq<StockWeight>, materialized: bool): System {
    System(if materialized then driver else [], materialized, NoWriter, map[], map[])
  }

  function Run(driver: seq<StockWeight>, materialized: bool, events: seq<Event>): System {
    if events == [] then Start(driver, materialized)
    else Step(driver, Run(driver, materialized, events[..|events| - 1]), events[|events| - 1])
  }

  // ---------------------------------------------------------------------------------------------------------
  // The invariant

  /** Who has the unique lock is where its holder stands, and nobody reads meanwhile. */
  ghost predicate LockSound(s: System) {
    && (forall id <- s.readers :: HoldsUnique(s.readers[id].pc) <==> s.writer == ByReader(id))
    && (forall id <- s.releases :: s.releases[id] != WantRelease <==> s.writer == ByRelease(id))
    && (s.writer.ByReader? ==> s.writer.reader in s.readers)
    && (s.writer.ByRelease? ==> s.writer.release in s.releases)
    && (!s.writer.NoWriter? ==> forall id <- s.readers :: !HoldsShared(s.readers[id].pc))
  }

  /** The flag is up exactly while the list is in, but for a writer between its two writes. */
  ghost predicate CacheSound(driver: seq<StockWeight>, s: System)
    requires LockSound(s)
  {
    match s.writer
    case NoWriter => s.list == if s.ready then driver else []
    case ByReader(id) =>
      var pc := s.readers[id].pc;
      if pc in {Recheck, RecheckAgain} then s.list == if s.ready then driver else []
      else s.list == driver && (pc in {Loaded, LoadedAgain} ==> s.ready)
    case ByRelease(id) =>
      match s.releases[id]
      case WantRelease => false
      case Locked => s.list == if s.ready then driver else []
      case Emptied => s.list == []
      case Lowered => s.list == [] && !s.ready
  }

  /** What a call knows.  Before its first look at the list the cache can only have been emptied by a release that
      overlaps the call; after it has reloaded the list that takes a second one. */
  ghost predicate ReaderSound(driver: seq<StockWeight>, s: System, r: Reader) {
    && (s.writer.ByRelease? && !r.pc.Returned? ==> r.overlaps > 0)
    && (s.writer.ByRelease? && r.pc == WantReadAgain && driver != [] ==> r.overlaps > 1)
    && (r.pc in {WantRead, Inspect, InspectFlag} && r.overlaps == 0 ==> s.ready && s.list == driver)
    && (r.pc == InspectFlag ==> s.list == [])
    && (r.pc in {WantReload, RecheckAgain, ListedAgain, LoadedAgain, WantReadAgain} && driver != [] ==> r.overlaps > 0)
    && (r.pc == WantReadAgain && r.overlaps <= 1 ==> s.list == driver)
    && (r.pc == Copy ==> s.list == driver || (s.list == [] && r.overlaps > 1))
    && (r.pc.Returned? ==>
          r.pc.result == Window(driver, r.start, r.end) || (r.pc.result == [] && r.overlaps > 1))
  }

  ghost predicate Sound(driver: seq<StockWeight>, s: System) {
    && LockSound(s) && CacheSound(driver, s)
    && (forall id <- s.readers :: ReaderSound(driver, s, s.readers[id]))
  }

  // ---------------------------------------------------------------------------------------------------------
  // Every step keeps the invariant

  lemma ReaderKeepsLock(driver: seq<StockWeight>, s: System, id: Id)
    requires LockSound(s) && id in s.readers
    ensures LockSound(StepReader(driver, s, id, s.readers[id]))
  {
    hide Window;
    SameOthers(driver, s, id);
    var pc := s.readers[id].pc;
    if pc in {WantLoad, WantReload} {
    } else if pc in {WantRead, WantReadAgain} {
    } else if HoldsUnique(pc) {
    } else {
    }
  }

  lemma ReleaseKeepsLock(s: System, id: Id)
    requires LockSound(s) && id in s.releases
    ensures LockSound(StepRelease(s, id, s.releases[id]))
  {
  }

  lemma ReaderKeepsCache(driver: seq<StockWeight>, s: System, id: Id)
    requires LockSound(s) && CacheSound(driver, s) && id in s.readers
    requires LockSound(StepReader(driver, s, id, s.readers[id]))
    ensures CacheSound(driver, StepReader(driver, s, id, s.readers[id]))
  {
  }

  lemma ReleaseKeepsCache(driver: seq<StockWeight>, s: System, id: Id)
    requires LockSound(s) && CacheSound(driver, s) && id in s.releases
    requires LockSound(StepRelease(s, id, s.releases[id]))
    ensures CacheSound(driver, StepRelease(s, id, s.releases[id]))
  {
  }

  /** What a reader's step does to the others: at most it brings the list and the flag up. */
  lemma ReaderKeepsOthers(driver: seq<StockWeight>, s: System, id: Id, other: Id)
    requires Sound(driver, s) && id in s.readers && other in s.readers && other != id
    ensures ReaderSound(driver, StepReader(driver, s, id, s.readers[id]), s.readers[other])
  {
    hide Window;
    var r := s.readers[other];
    assert ReaderSound(driver, s, r);
  }

  lemma ReaderKeepsItself(driver: seq<StockWeight>, s: System, id: Id)
    requires Sound(driver, s) && id in s.readers
    ensures var t := StepReader(driver, s, id, s.readers[id]);
            id in t.readers && ReaderSound(driver, t, t.readers[id])
  {
    var r := s.readers[id];
    assert ReaderSound(driver, s, r);
    assert Window([], r.start, r.end) == [];
    hide Window;
  }

  lemma ReaderKeeps(driver: seq<StockWeight>, s: System, id: Id)
    requires Sound(driver, s) && id in s.readers
    ensures Sound(driver, StepReader(driver, s, id, s.readers[id]))
  {
    ReaderKeepsLock(driver, s, id);
    ReaderKeepsCache(driver, s, id);
    ReaderKeepsItself(driver, s, id);
    var t := StepReader(driver, s, id, s.readers[id]);
    SameOthers(driver, s, id);
    hide StepReader, CacheSound, LockSound, ReaderSound;
    forall other <- t.readers
      ensures ReaderSound(driver, t, t.readers[other])
    {
      if other != id {
        ReaderKeepsOthers(driver, s, id, other);
      }
    }
  }

  lemma SameOthers(driver: seq<StockWeight>, s: System, id: Id)
    requires id in s.readers
    ensures var t := StepReader(driver, s, id, s.readers[id]);
            t.readers.Keys == s.readers.Keys
            && forall other <- s.readers :: other != id ==> t.readers[other] == s.readers[other]
  {
    hide Window, Free;
    var r := s.readers[id];
    if r.pc.Returned? {
    } else if HoldsUnique(r.pc) {
    } else if r.pc in {CheckReady, WantLoad, WantRead, WantReload, WantReadAgain} {
    } else {
    }
  }

  lemma ReleaseKeepsReader(driver: seq<StockWeight>, s: System, id: Id, other: Id)
    requires Sound(driver, s) && id in s.releases && other in s.readers
    ensures var t := StepRelease(s, id, s.releases[id]);
            other in t.readers && ReaderSound(driver, t, t.readers[other])
  {
    hide Window;
    assert ReaderSound(driver, s, s.readers[other]);
  }

  lemma ReleaseKeeps(driver: seq<StockWeight>, s: System, id: Id)
    requires Sound(driver, s) && id in s.releases
    ensures Sound(driver, StepRelease(s, id, s.releases[id]))
  {
    ReleaseKeepsLock(s, id);
    ReleaseKeepsCache(driver, s, id);
    var t := StepRelease(s, id, s.releases[id]);
    assert t.readers.Keys == s.readers.Keys;
    hide StepRelease, CacheSound, LockSound, ReaderSound;
    forall other <- t.readers
      ensures ReaderSound(driver, t, t.readers[other])
    {
      ReleaseKeepsReader(driver, s, id, other);
    }
  }

  lemma CallKeeps(driver: seq<StockWeight>, s: System, e: Event)
    requires Sound(driver, s) && (e.Call? || e.Release?)
    ensures Sound(driver, Step(driver, s, e))
  {
    hide Window, StepReader, StepRelease;
    var t := Step(driver, s, e);
    forall id <- t.readers
      ensures ReaderSound(driver, t, t.readers[id])
    {
      if id in s.readers {
        assert ReaderSound(driver, s, s.readers[id]);
      } else if e.start >= e.end {
        WindowBefore(driver, e.start, e.end);
      }
    }
  }

  lemma {:induction false} RunIsSound(driver: seq<StockWeight>, materialized: bool, events: seq<Event>)
    ensures Sound(driver, Run(driver, materialized, events))
    decreases |events|
  {
    hide StepReader, StepRelease;
    if events != [] {
      var before, e := events[..|events| - 1], events[|events| - 1];
      RunIsSound(driver, materialized, before);
      var s := Run(driver, materialized, before);
      hide Sound;
      match e {
        case ReaderStep(id) => if id in s.readers { ReaderKeeps(driver, s, id); }
        case ReleaseStep(id) => if id in s.releases { ReleaseKeeps(driver, s, id); }
        case _ => CallKeeps(driver, s, e);
      }
    }
  }

  // ---------------------------------------------------------------------------------------------------------
  // Main results

  /** Whatever the interleaving, a call that at most one release overlaps returns exactly the events of the driver
      dated in [start, end); with more overlaps it returns those or nothing. */
  lemma CallsReadTheDriver(driver: seq<StockWeight>, materialized: bool, events: seq<Event>, id: Id)
    requires id in Run(driver, materialized, events).readers
             && Run(driver, materialized, events).readers[id].pc.Returned?
    ensures var r := Run(driver, materialized, events).readers[id];
            (r.overlaps <= 1 ==> r.pc.result == Window(driver, r.start, r.end))
            && r.pc.result in {Window(driver, r.start, r.end), []}
  {
    hide Run, Window;
    RunIsSound(driver, materialized, events);
    assert ReaderSound(driver, Run(driver, materialized, events), Run(driver, materialized, events).readers[id]);
  }

  /** Nobody is stopped for good: while no other thread stands in its way, a call runs to its end. */
  lemma UndisturbedCallReturns(driver: seq<StockWeight>, s: System, id: Id)
    requires Sound(driver, s) && id in s.readers && !s.readers[id].pc.Returned?
    requires s.writer in {NoWriter, ByReader(id)}
    requires forall other <- s.readers :: other == id || !HoldsShared(s.readers[other].pc)
    ensures var t := StepReader(driver, s, id, s.readers[id]);
            t.writer in {NoWriter, ByReader(id)}
            && (forall other <- t.readers :: other == id || !HoldsShared(t.readers[other].pc))
            && Distance(t.readers[id].pc) < Distance(s.readers[id].pc)
  {
    hide Window;
    assert ReaderSound(driver, s, s.readers[id]);
  }

  /** How many steps are left at most. */
  function Distance(pc: Pc): nat {
    match pc
    case CheckReady => 14
    case WantLoad => 13
    case Recheck => 12
    case Listed => 11
    case Loaded => 10
    case WantRead => 9
    case Inspect => 8
    case InspectFlag => 7
    case WantReload => 6
    case RecheckAgain => 5
    case ListedAgain => 4
    case LoadedAgain => 3
    case WantReadAgain => 2
    case Copy => 1
    case Returned(_) => 0
  }

  // ---------------------------------------------------------------------------------------------------------
  // Two releases are too many

  function RunFrom(driver: seq<StockWeight>, s: System, events: seq<Event>): System
    decreases |events|
  {
    if events == [] then s else RunFrom(driver, Step(driver, s, events[0]), events[1..])
  }

  lemma {:induction false} RunIsRunFrom(driver: seq<StockWeight>, materialized: bool, events: seq<Event>,
                                        more: seq<Event>)
    ensures Run(driver, materialized, events + more) == RunFrom(driver, Run(driver, materialized, events), more)
    decreases |more|
  {
    hide Step;
    if more == [] {
      assert events + more == events;
    } else {
      var front := events + [more[0]];
      assert front[..|front| - 1] == events && front + more[1..] == events + more;
      RunIsRunFrom(driver, materialized, front, more[1..]);
    }
  }

  lemma {:induction false} RunFromTwo(driver: seq<StockWeight>, s: System, x: seq<Event>, y: seq<Event>)
    ensures RunFrom(driver, s, x + y) == RunFrom(driver, RunFrom(driver, s, x), y)
    decreases |x|
  {
    hide Step;
    if x == [] {
      assert x + y == y;
    } else {
      assert (x + y)[1..] == x[1..] + y;
      RunFromTwo(driver, Step(driver, s, x[0]), x[1..], y);
    }
  }

  /** One call, with nobody holding the lock. */
  function Lone(list: seq<StockWeight>, ready: bool, start: int, end: int, pc: Pc, overlaps: nat): System {
    System(list, ready, NoWriter, map[0 := Reader(start, end, pc, overlaps)], map[])
  }

  const RELEASE := [Release(0), ReleaseStep(0), ReleaseStep(0), ReleaseStep(0), ReleaseStep(0)]

  lemma RunOne(driver: seq<StockWeight>, s: System, e: Event, rest: seq<Event>)
    ensures RunFrom(driver, s, [e] + rest) == RunFrom(driver, Step(driver, s, e), rest)
  {
    assert ([e] + rest)[0] == e && ([e] + rest)[1..] == rest;
  }

  lemma OneRelease(driver: seq<StockWeight>, start: int, end: int, pc: Pc, overlaps: nat)
    requires pc in {WantRead, WantReadAgain}
    ensures RunFrom(driver, Lone(driver, true, start, end, pc, overlaps), RELEASE)
         == Lone([], false, start, end, pc, overlaps + 1)
  {
    hide Window, RunFrom;
    var s := Lone(driver, true, start, end, pc, overlaps);
    var readers := map[0 := Reader(start, end, pc, overlaps + 1)];
    var s1 := s.(releases := map[0 := WantRelease]);
    var s2 := System(driver, true, ByRelease(0), readers, map[0 := Locked]);
    var s3 := System([], true, ByRelease(0), readers, map[0 := Emptied]);
    var s4 := System([], false, ByRelease(0), readers, map[0 := Lowered]);
    assert Step(driver, s, Release(0)) == s1;
    assert Overlapped(s1.readers) == readers;
    assert Step(driver, s1, ReleaseStep(0)) == s2;
    assert Step(driver, s2, ReleaseStep(0)) == s3;
    assert Step(driver, s3, ReleaseStep(0)) == s4;
    assert Step(driver, s4, ReleaseStep(0)) == Lone([], false, start, end, pc, overlaps + 1);
    FiveSteps(driver, s, s1, s2, s3, s4, RELEASE);
  }

  lemma FiveSteps(driver: seq<StockWeight>, s: System, s1: System, s2: System, s3: System, s4: System, es: seq<Event>)
    requires |es| == 5 && Step(driver, s, es[0]) == s1 && Step(driver, s1, es[1]) == s2 && Step(driver, s2, es[2]) == s3
    requires Step(driver, s3, es[3]) == s4
    ensures RunFrom(driver, s, es) == Step(driver, s4, es[4])
  {
    hide Step;
    RunOne(driver, s, es[0], es[1..]);
    RunOne(driver, s1, es[1], es[2..]);
    RunOne(driver, s2, es[2], es[3..]);
    RunOne(driver, s3, es[3], es[4..]);
    RunOne(driver, s4, es[4], []);
    assert es == [es[0]] + es[1..] && es[1..] == [es[1]] + es[2..] && es[2..] == [es[2]] + es[3..];
    assert es[3..] == [es[3]] + es[4..] && es[4..] == [es[4]] + [];
  }

  const GO := ReaderStep(0)
  const RELOAD := [GO, GO, GO, GO, GO]

  /** The reader finds the list empty and the flag down, and loads the list. */
  lemma FindEmpty(driver: seq<StockWeight>, start: int, end: int, overlaps: nat)
    ensures RunFrom(driver, Lone([], false, start, end, WantRead, overlaps), RELOAD)
         == Lone(driver, false, start, end, ListedAgain, overlaps).(writer := ByReader(0))
  {
    hide Window, RunFrom, StepRelease;
    var s := Lone([], false, start, end, WantRead, overlaps);
    var s1 := Lone([], false, start, end, Inspect, overlaps);
    var s2 := Lone([], false, start, end, InspectFlag, overlaps);
    var s3 := Lone([], false, start, end, WantReload, overlaps);
    var s4 := Lone([], false, start, end, RecheckAgain, overlaps).(writer := ByReader(0));
    assert Step(driver, s, GO) == s1;
    assert Step(driver, s1, GO) == s2;
    assert Step(driver, s2, GO) == s3;
    assert Step(driver, s3, GO) == s4;
    FiveSteps(driver, s, s1, s2, s3, s4, RELOAD);
  }

  lemma Reload(driver: seq<StockWeight>, start: int, end: int, overlaps: nat)
    ensures RunFrom(driver, Lone([], false, start, end, WantRead, overlaps), RELOAD + [GO, GO])
         == Lone(driver, true, start, end, WantReadAgain, overlaps)
  {
    hide Window, RunFrom, StepRelease, Free;
    var s := Lone([], false, start, end, WantRead, overlaps);
    FindEmpty(driver, start, end, overlaps);
    var s5 := Lone(driver, false, start, end, ListedAgain, overlaps).(writer := ByReader(0));
    var s6 := Lone(driver, true, start, end, LoadedAgain, overlaps).(writer := ByReader(0));
    assert Step(driver, s5, GO) == s6;
    assert Step(driver, s6, GO) == Lone(driver, true, start, end, WantReadAgain, overlaps);
    RunFromTwo(driver, s, RELOAD, [GO, GO]);
    TwoSteps(driver, s5, GO, GO);
  }

  lemma TwoSteps(driver: seq<StockWeight>, s: System, d: Event, e: Event)
    ensures RunFrom(driver, s, [d, e]) == Step(driver, Step(driver, s, d), e)
  {
    hide Step;
    RunOne(driver, s, d, [e]);
    RunOne(driver, Step(driver, s, d), e, []);
    assert [d, e] == [d] + [e] && [e] == [e] + [];
  }

  function Unlucky(start: int, end: int): seq<Event> {
    [Call(0, start, end), GO] + (RELEASE + (RELOAD + [GO, GO] + (RELEASE + [GO, GO])))
  }

  /** One overlap is the limit: for every non-empty answer there is a run in which a call with two overlaps, one between
      its look at the flag and its look at the list and one after its reload, returns nothing. */
  lemma TwoReleasesLoseTheAnswer(driver: seq<StockWeight>, start: int, end: int)
    requires Window(driver, start, end) != []
    ensures var t := Run(driver, true, Unlucky(start, end));
            0 in t.readers && t.readers[0] == Reader(start, end, Returned([]), 2)
            && t.readers[0].pc.result != Window(driver, start, end)
  {
    hide RunFrom;
    if start >= end {
      WindowBefore(driver, start, end);
    }
    var s := Start(driver, true);
    RunIsRunFrom(driver, true, [], Unlucky(start, end));
    assert [] + Unlucky(start, end) == Unlucky(start, end);
    RunFromTwo(driver, s, [Call(0, start, end), GO], RELEASE + (RELOAD + [GO, GO] + (RELEASE + [GO, GO])));
    TwoSteps(driver, s, Call(0, start, end), GO);
    var s1 := Lone(driver, true, start, end, WantRead, 0);
    assert Step(driver, Step(driver, s, Call(0, start, end)), GO) == s1;
    RunFromTwo(driver, s1, RELEASE, RELOAD + [GO, GO] + (RELEASE + [GO, GO]));
    OneRelease(driver, start, end, WantRead, 0);
    var s2 := Lone([], false, start, end, WantRead, 1);
    RunFromTwo(driver, s2, RELOAD + [GO, GO], RELEASE + [GO, GO]);
    Reload(driver, start, end, 1);
    var s3 := Lone(driver, true, start, end, WantReadAgain, 1);
    RunFromTwo(driver, s3, RELEASE, [GO, GO]);
    OneRelease(driver, start, end, WantReadAgain, 1);
    var s4 := Lone([], false, start, end, WantReadAgain, 2);
    TwoSteps(driver, s4, GO, GO);
    assert Step(driver, s4, GO) == Lone([], false, start, end, Copy, 2);
    assert Window([], start, end) == [];
  }
}
