/**
 Session and process lifetime: sessions that open, fail to open and close at the same time share one data runtime and
 one process runtime, each counted.

 Every call is broken into the steps other threads can come between.
 */
module Session {
  import opened Options

  type Id = nat
  type OptionsId = nat

  /** Where the thread that opens or closes a session stands.  `first` is what `open` saw of the session count. */
  datatype Pc =
    | Starting                                    // open: before the process runtime
    | Acquired                                    // open: waits for the session mutex
    | Entered(first: bool) | Created(first: bool) | Prepared(first: bool) | Counted
    | Failing(first: bool) | Unset | FailNulled | FailFreed   // open: the error path, under the mutex
    | Unwinding                                   // open: the error path, after the mutex
    | Failed
    | Open
    | Closing                                     // close: the flag is down, waits for the session mutex
    | Leaving | Left | LeaveNulled | LeaveFreed | Quitting | Quit
    | Closed

  datatype Session = Session(options: OptionsId, pc: Pc)

  /** What the sessions share.  `runtime` is whether the data runtime exists, `active` whether it is published,
      `process` whether the process runtime is up. */
  datatype Globals = Globals(
    mutex: Option<Id>, count: nat, options: Option<OptionsId>, users: nat, process: bool, runtime: bool, active: bool)

  datatype System = System(sessions: map<Id, Session>, g: Globals)

  const EMPTY := System(map[], Globals(None, 0, None, 0, false, false, false))

  datatype Event =
    | Begin(id: Id, options: OptionsId)
    | Go(id: Id, fails: bool)
    | Close(id: Id)

  // ---------------------------------------------------------------------------------------------------------
  // Steps

  datatype Moved = Moved(pc: Pc, g: Globals)

  function AcquireProcess(g: Globals): Globals {
    g.(users := g.users + 1, process := true)
  }

  function ReleaseProcess(g: Globals): Globals {
    if g.users == 0 then g else g.(users := g.users - 1, process := g.process && g.users != 1)
  }

  /** The next step of `open`; `fails` is whether what it calls throws. */
  function GoOpen(g: Globals, id: Id, x: Session, fails: bool): Moved {
    match x.pc
    case Starting => if g.users == 0 && fails then Moved(Failed, g) else Moved(Acquired, AcquireProcess(g))
    case Acquired => if g.mutex.None? then Moved(Entered(g.count == 0), g.(mutex := Some(id))) else Moved(x.pc, g)
    case Entered(first) =>
      if g.active then Moved(Created(first), g)
      else if fails then Moved(Failing(first), g)
      else Moved(Created(first), g.(runtime := true, active := true))
    case Created(first) =>
      if first then
        if fails then Moved(Failing(true), g) else Moved(Prepared(true), g.(options := Some(x.options)))
      else if g.options == Some(x.options) then Moved(Prepared(false), g)
      else Moved(Failing(false), g)
    case Prepared(first) => if fails then Moved(Failing(first), g) else Moved(Counted, g.(count := g.count + 1))
    case Counted => Moved(Open, g.(mutex := None))
    case Failing(first) => if first then Moved(Unset, g.(options := None)) else Moved(Unwinding, g.(mutex := None))
    case Unset => Moved(FailNulled, g.(active := false))
    case FailNulled => Moved(FailFreed, g.(runtime := false))
    case FailFreed => Moved(Unwinding, g.(mutex := None))
    case Unwinding => Moved(Failed, ReleaseProcess(g))
    case _ => Moved(x.pc, g)
  }

  /** The next step of `close`. */
  function GoClose(g: Globals, id: Id, x: Session): Moved {
    match x.pc
    case Closing => if g.mutex.None? then Moved(Leaving, g.(mutex := Some(id))) else Moved(x.pc, g)
    case Leaving => Moved(Left, g.(count := if g.count > 0 then g.count - 1 else 0))
    case Left => if g.count == 0 then Moved(LeaveNulled, g.(active := false)) else Moved(Quitting, g)
    case LeaveNulled => Moved(LeaveFreed, g.(runtime := false))
    case LeaveFreed => Moved(Quitting, g.(options := None))
    case Quitting => Moved(Quit, ReleaseProcess(g))
    case Quit => Moved(Closed, g.(mutex := None))
    case _ => Moved(x.pc, g)
  }

  predicate InClose(pc: Pc) {
    pc in {Closing, Leaving, Left, LeaveNulled, LeaveFreed, Quitting, Quit, Closed}
  }

  /** Of two calls of `close` one takes the flag down and goes on. */
  function Advance(g: Globals, id: Id, x: Session, e: Event): Moved {
    match e
    case Begin(_, _) => Moved(x.pc, g)
    case Go(_, fails) => if InClose(x.pc) then GoClose(g, id, x) else GoOpen(g, id, x, fails)
    case Close(_) => Moved(if x.pc.Open? then Closing else x.pc, g)
  }

  /** One step; an event that is not possible changes nothing. */
  function Step(s: System, e: Event): System {
    if e.id in s.sessions then
      var x := s.sessions[e.id];
      var m := Advance(s.g, e.id, x, e);
      System(s.sessions[e.id := x.(pc := m.pc)], m.g)
    else if e.Begin? then s.(sessions := s.sessions[e.id := Session(e.options, Starting)])
    else s
  }

  function Run(events: seq<Event>): System {
    if events == [] then EMPTY else Step(Run(events[..|events| - 1]), events[|events| - 1])
  }

  // ---------------------------------------------------------------------------------------------------------
  // The invariant

  predicate HoldsMutex(pc: Pc) {
    pc.Entered? || pc.Created? || pc.Prepared? || pc.Failing?
    || pc in {Counted, Unset, FailNulled, FailFreed, Leaving, Left, LeaveNulled, LeaveFreed, Quitting, Quit}
  }

  /** Between the acquisition and the release of the process runtime. */
  predicate HoldsUser(pc: Pc) {
    !(pc in {Starting, Failed, Quit, Closed})
  }

  /** Between the increment and the decrement of the session count. */
  predicate IsCounted(pc: Pc) {
    pc in {Counted, Open, Closing, Leaving}
  }

  ghost function Users(s: System): set<Id> {
    set id | id in s.sessions && HoldsUser(s.sessions[id].pc)
  }

  ghost function CountedSessions(s: System): set<Id> {
    set id | id in s.sessions && IsCounted(s.sessions[id].pc)
  }

  ghost predicate MutexSound(s: System) {
    && (forall id <- s.sessions :: HoldsMutex(s.sessions[id].pc) <==> s.g.mutex == Some(id))
    && (s.g.mutex.Some? ==> s.g.mutex.value in s.sessions)
  }

  ghost predicate CountSound(s: System) {
    s.g.users == |Users(s)| && s.g.count == |CountedSessions(s)| && (s.g.process <==> s.g.users > 0)
  }

  /** Outside the critical sections: a data runtime, and options, exactly when sessions are counted. */
  predicate Settled(g: Globals) {
    (g.runtime <==> g.count > 0) && (g.active <==> g.count > 0) && (g.options.Some? <==> g.count > 0)
  }

  /** What holds inside a critical section. */
  predicate Inside(g: Globals, x: Session) {
    match x.pc
    case Entered(first) => Settled(g) && (first <==> g.count == 0)
    case Created(first) => g.runtime && g.active && (first <==> g.count == 0) && (g.options.Some? <==> g.count > 0)
    case Prepared(first) => g.runtime && g.active && (first <==> g.count == 0) && g.options == Some(x.options)
    case Counted => Settled(g)
    case Failing(first) => (first <==> g.count == 0) && g.active == g.runtime && (!first ==> Settled(g))
    case Unset => g.count == 0 && g.options.None? && g.active == g.runtime
    case FailNulled => g.count == 0 && g.options.None? && !g.active
    case FailFreed => g.count == 0 && Settled(g)
    case Leaving => Settled(g)
    case Left => g.runtime && g.active && g.options.Some?
    case LeaveNulled => g.count == 0 && g.options.Some? && !g.active
    case LeaveFreed => g.count == 0 && g.options.Some? && !g.active && !g.runtime
    case Quitting => Settled(g)
    case Quit => Settled(g)
    case _ => true
  }

  /** What a counted session relies on. */
  predicate Shares(g: Globals, x: Session) {
    IsCounted(x.pc) ==> g.runtime && g.active && g.options == Some(x.options)
  }

  ghost predicate DataSound(s: System) {
    && (s.g.mutex.None? ==> Settled(s.g))
    && (s.g.mutex.Some? && s.g.mutex.value in s.sessions ==> Inside(s.g, s.sessions[s.g.mutex.value]))
    && (forall id <- s.sessions :: Shares(s.g, s.sessions[id]))
  }

  ghost predicate Sound(s: System) {
    MutexSound(s) && CountSound(s) && DataSound(s)
  }

  // ---------------------------------------------------------------------------------------------------------
  // One step of one session

  function One(b: bool): nat {
    if b then 1 else 0
  }

  predicate Counts(g: Globals, x: Session, m: Moved) {
    m.g.users + One(HoldsUser(x.pc)) == g.users + One(HoldsUser(m.pc))
    && m.g.count + One(IsCounted(x.pc)) == g.count + One(IsCounted(m.pc))
    && (m.g.process <==> m.g.users > 0)
  }

  lemma OpenCounts(g: Globals, id: Id, x: Session, fails: bool)
    requires (HoldsUser(x.pc) ==> g.users > 0) && (g.process <==> g.users > 0)
    ensures Counts(g, x, GoOpen(g, id, x, fails))
  {
  }

  lemma CloseCounts(g: Globals, id: Id, x: Session)
    requires (HoldsUser(x.pc) ==> g.users > 0) && (IsCounted(x.pc) ==> g.count > 0) && (g.process <==> g.users > 0)
    ensures Counts(g, x, GoClose(g, id, x))
  {
  }

  lemma AdvanceCounts(g: Globals, id: Id, x: Session, e: Event)
    requires (HoldsUser(x.pc) ==> g.users > 0) && (IsCounted(x.pc) ==> g.count > 0) && (g.process <==> g.users > 0)
    ensures Counts(g, x, Advance(g, id, x, e))
  {
    hide GoOpen, GoClose;
    CloseCounts(g, id, x);
    if e.Go? {
      OpenCounts(g, id, x, e.fails);
    }
  }

  lemma AdvanceMutex(g: Globals, id: Id, x: Session, e: Event)
    requires HoldsMutex(x.pc) <==> g.mutex == Some(id)
    ensures var m := Advance(g, id, x, e);
            (HoldsMutex(m.pc) <==> m.g.mutex == Some(id))
            && (m.g.mutex == g.mutex || (g.mutex.None? && m.g.mutex == Some(id))
                || (g.mutex == Some(id) && m.g.mutex.None?))
  {
  }

  predicate StaysInside(id: Id, x: Session, m: Moved) {
    && (m.g.mutex.None? ==> Settled(m.g))
    && (m.g.mutex == Some(id) ==> Inside(m.g, x.(pc := m.pc)))
    && Shares(m.g, x.(pc := m.pc))
  }

  ghost predicate IsInside(g: Globals, id: Id, x: Session) {
    (HoldsMutex(x.pc) <==> g.mutex == Some(id)) && StaysInside(id, x, Moved(x.pc, g))
  }

  lemma OpenInside(g: Globals, id: Id, x: Session, fails: bool)
    requires IsInside(g, id, x) && !InClose(x.pc)
    ensures StaysInside(id, x, GoOpen(g, id, x, fails))
  {
  }

  lemma CloseInside(g: Globals, id: Id, x: Session)
    requires IsInside(g, id, x) && InClose(x.pc)
    ensures StaysInside(id, x, GoClose(g, id, x))
  {
  }

  lemma AdvanceInside(g: Globals, id: Id, x: Session, e: Event)
    requires IsInside(g, id, x)
    ensures StaysInside(id, x, Advance(g, id, x, e))
  {
    hide GoOpen, GoClose, Settled;
    if e.Go? && InClose(x.pc) {
      CloseInside(g, id, x);
    } else if e.Go? {
      OpenInside(g, id, x, e.fails);
    }
  }

  /** Nothing shared goes away while another session is counted. */
  lemma AdvanceShares(g: Globals, id: Id, x: Session, e: Event, y: Session)
    requires HoldsMutex(x.pc) <==> g.mutex == Some(id)
    requires (g.mutex == Some(id) ==> Inside(g, x)) && Shares(g, y)
    requires IsCounted(y.pc) ==> g.count > 0
    ensures Shares(Advance(g, id, x, e).g, y)
  {
  }

  /** A session outside leaves the critical section of another one alone. */
  lemma AdvanceOutside(g: Globals, id: Id, x: Session, e: Event, y: Session)
    requires !HoldsMutex(x.pc) && g.mutex.Some? && Inside(g, y)
    ensures Inside(Advance(g, id, x, e).g, y)
  {
  }

  // ---------------------------------------------------------------------------------------------------------
  // Counting

  lemma OneElement(a: set<Id>, b: set<Id>, id: Id)
    requires a - {id} == b - {id}
    ensures |a| + One(id in b) == |b| + One(id in a)
  {
    assert a == (a - {id}) + (if id in a then {id} else {});
    assert b == (b - {id}) + (if id in b then {id} else {});
  }

  lemma OneMoves(s: System, id: Id, x: Session, g: Globals)
    ensures var t := System(s.sessions[id := x], g);
            |Users(t)| + One(id in Users(s)) == |Users(s)| + One(HoldsUser(x.pc))
            && |CountedSessions(t)| + One(id in CountedSessions(s)) == |CountedSessions(s)| + One(IsCounted(x.pc))
  {
    var t := System(s.sessions[id := x], g);
    assert Users(t) - {id} == Users(s) - {id};
    assert CountedSessions(t) - {id} == CountedSessions(s) - {id};
    OneElement(Users(t), Users(s), id);
    OneElement(CountedSessions(t), CountedSessions(s), id);
  }

  lemma SomeoneCounted(s: System, id: Id)
    requires id in s.sessions
    ensures HoldsUser(s.sessions[id].pc) ==> |Users(s)| > 0
    ensures IsCounted(s.sessions[id].pc) ==> |CountedSessions(s)| > 0
  {
    assert HoldsUser(s.sessions[id].pc) ==> id in Users(s);
    assert IsCounted(s.sessions[id].pc) ==> id in CountedSessions(s);
  }

  // ---------------------------------------------------------------------------------------------------------
  // Every step keeps the invariant

  lemma StepKeepsMutex(s: System, e: Event)
    requires MutexSound(s)
    ensures MutexSound(Step(s, e))
  {
    if e.id in s.sessions {
      AdvanceMutex(s.g, e.id, s.sessions[e.id], e);
    }
    hide Advance;
  }

  lemma StepKeepsCounts(s: System, e: Event)
    requires CountSound(s)
    ensures CountSound(Step(s, e))
  {
    hide Advance, HoldsUser, IsCounted;
    if e.id in s.sessions {
      var x := s.sessions[e.id];
      SomeoneCounted(s, e.id);
      AdvanceCounts(s.g, e.id, x, e);
      var m := Advance(s.g, e.id, x, e);
      OneMoves(s, e.id, x.(pc := m.pc), m.g);
    } else if e.Begin? {
      NewIsNotCounted(s, e.id, e.options);
    }
  }

  lemma NewIsNotCounted(s: System, id: Id, options: OptionsId)
    requires id !in s.sessions
    ensures var t := s.(sessions := s.sessions[id := Session(options, Starting)]);
            Users(t) == Users(s) && CountedSessions(t) == CountedSessions(s)
  {
  }

  lemma StepKeepsData(s: System, e: Event)
    requires Sound(s)
    ensures DataSound(Step(s, e))
  {
    hide Advance, Settled, Inside;
    if e.id in s.sessions {
      hide Shares;
      var x := s.sessions[e.id];
      AdvanceInside(s.g, e.id, x, e);
      AdvanceMutex(s.g, e.id, x, e);
      var m := Advance(s.g, e.id, x, e);
      forall id <- s.sessions
        ensures Shares(m.g, s.sessions[id])
      {
        SomeoneCounted(s, id);
        AdvanceShares(s.g, e.id, x, e, s.sessions[id]);
      }
      if m.g.mutex.Some? && m.g.mutex != Some(e.id) {
        AdvanceOutside(s.g, e.id, x, e, s.sessions[s.g.mutex.value]);
      }
    }
  }

  lemma StepKeeps(s: System, e: Event)
    requires Sound(s)
    ensures Sound(Step(s, e))
  {
    hide MutexSound, CountSound, DataSound, Step;
    StepKeepsMutex(s, e);
    StepKeepsCounts(s, e);
    StepKeepsData(s, e);
  }

  lemma {:induction false} RunIsSound(events: seq<Event>)
    ensures Sound(Run(events))
    decreases |events|
  {
    if events == [] {
      assert Users(EMPTY) == {} && CountedSessions(EMPTY) == {};
    } else {
      RunIsSound(events[..|events| - 1]);
      hide Sound, Step;
      StepKeeps(Run(events[..|events| - 1]), events[|events| - 1]);
    }
  }

  // ---------------------------------------------------------------------------------------------------------
  // Main results

  ghost function OpenSessions(s: System): set<Id> {
    set id | id in s.sessions && s.sessions[id].pc.Open?
  }

  /** The sessions whose `open` has taken the process runtime and not returned, and those whose `close` has begun and
      not given it back. */
  ghost function InFlight(s: System): set<Id> {
    set id | id in s.sessions && !s.sessions[id].pc.Open? && HoldsUser(s.sessions[id].pc)
  }

  /** The closing sessions that still wait for the mutex. */
  ghost function Waiting(s: System): set<Id> {
    set id | id in s.sessions && s.sessions[id].pc.Closing?
  }

  lemma UsersSplit(s: System)
    ensures |Users(s)| == |OpenSessions(s)| + |InFlight(s)|
  {
    assert Users(s) == OpenSessions(s) + InFlight(s) && OpenSessions(s) !! InFlight(s);
  }

  lemma CountedSplit(s: System)
    requires forall id <- s.sessions :: !HoldsMutex(s.sessions[id].pc)
    ensures |CountedSessions(s)| == |OpenSessions(s)| + |Waiting(s)|
  {
    assert CountedSessions(s) == OpenSessions(s) + Waiting(s) && OpenSessions(s) !! Waiting(s);
  }

  lemma RuntimeNeedsProcess(s: System)
    requires Sound(s)
    ensures s.g.runtime ==> s.g.process
  {
    if s.g.runtime {
      if s.g.mutex.Some? && s.sessions[s.g.mutex.value].pc != Quit {
        SomeoneCounted(s, s.g.mutex.value);
      } else {
        assert s.g.count > 0;
        var id :| id in CountedSessions(s);
        SomeoneCounted(s, id);
      }
    }
  }

  /** Lifetimes, in every interleaving of opens, failing opens and closes: outside the critical sections the data
      runtime exists exactly when sessions are counted; the process runtime has exactly the open sessions and the calls
      in flight as users, and is up exactly while it has users; and the data runtime never outlives it. */
  lemma Lifetimes(events: seq<Event>)
    ensures var s := Run(events);
            && ((forall id <- s.sessions :: !HoldsMutex(s.sessions[id].pc)) ==>
                  Settled(s.g) && s.g.count == |OpenSessions(s)| + |Waiting(s)|)
            && s.g.users == |OpenSessions(s)| + |InFlight(s)|
            && (s.g.process <==> s.g.users > 0)
            && (s.g.runtime ==> s.g.process)
  {
    hide Run, Settled, Inside, Shares;
    var s := Run(events);
    RunIsSound(events);
    UsersSplit(s);
    RuntimeNeedsProcess(s);
    if forall id <- s.sessions :: !HoldsMutex(s.sessions[id].pc) {
      CountedSplit(s);
    }
  }

  /** An open session always has its data runtime, whatever others are doing, and all open sessions agree on the
      options. */
  lemma OpenSessionsShareOneRuntime(events: seq<Event>, x: Id, y: Id)
    requires x in OpenSessions(Run(events)) && y in OpenSessions(Run(events))
    ensures var s := Run(events);
            s.g.runtime && s.g.active && s.g.process && s.g.options == Some(s.sessions[x].options)
            && s.sessions[x].options == s.sessions[y].options
  {
    hide Run, Settled, Inside;
    RunIsSound(events);
    var s := Run(events);
    assert Shares(s.g, s.sessions[x]) && Shares(s.g, s.sessions[y]);
    RuntimeNeedsProcess(s);
  }

  /** When every call has returned and every session is closed, nothing is left. */
  lemma NothingIsLeft(events: seq<Event>)
    requires forall id <- Run(events).sessions :: Run(events).sessions[id].pc in {Starting, Failed, Closed}
    ensures Run(events).g == EMPTY.g
  {
    hide Run;
    RunIsSound(events);
    var s := Run(events);
    assert Users(s) == {} && CountedSessions(s) == {};
  }

  // ---------------------------------------------------------------------------------------------------------
  // Whole calls that nothing comes between

  lemma RunThen(events: seq<Event>, e: Event)
    ensures Run(events + [e]) == Step(Run(events), e)
  {
    assert (events + [e])[..|events + [e]| - 1] == events;
  }

  /** The events of one call of `open`; `fails` says of every step whether what it calls throws. */
  function OpenCall(id: Id, options: OptionsId, fails: seq<bool>): seq<Event> {
    [Begin(id, options)] + seq(|fails|, i requires 0 <= i < |fails| => Go(id, fails[i]))
  }

  /** Where such a call stands after its steps, and what it has made of the shared state. */
  function Opening(g: Globals, id: Id, options: OptionsId, fails: seq<bool>): Moved {
    if fails == [] then Moved(Starting, g)
    else
      var m := Opening(g, id, options, fails[..|fails| - 1]);
      GoOpen(m.g, id, Session(options, m.pc), fails[|fails| - 1])
  }

  lemma {:induction false} NeverClosing(g: Globals, id: Id, options: OptionsId, fails: seq<bool>)
    ensures !InClose(Opening(g, id, options, fails).pc)
  {
    if fails != [] {
      NeverClosing(g, id, options, fails[..|fails| - 1]);
    }
  }

  lemma OpenCallGrows(events: seq<Event>, id: Id, options: OptionsId, fails: seq<bool>)
    requires fails != []
    ensures events + OpenCall(id, options, fails)
         == (events + OpenCall(id, options, fails[..|fails| - 1])) + [Go(id, fails[|fails| - 1])]
  {
  }

  lemma {:induction false} RunOpening(events: seq<Event>, id: Id, options: OptionsId, fails: seq<bool>)
    requires id !in Run(events).sessions
    ensures var s, m := Run(events), Opening(Run(events).g, id, options, fails);
            Run(events + OpenCall(id, options, fails)) == System(s.sessions[id := Session(options, m.pc)], m.g)
    decreases |fails|
  {
    if fails == [] {
      assert OpenCall(id, options, fails) == [Begin(id, options)];
      RunThen(events, Begin(id, options));
    } else {
      hide GoOpen, GoClose, Run, OpenCall, InClose;
      var front, go := fails[..|fails| - 1], Go(id, fails[|fails| - 1]);
      RunOpening(events, id, options, front);
      NeverClosing(Run(events).g, id, options, front);
      OpenCallGrows(events, id, options, fails);
      RunThen(events + OpenCall(id, options, front), go);
    }
  }

  /** The options can be shared: nobody is counted, or with the same ones. */
  predicate Admits(g: Globals, options: OptionsId) {
    g.count == 0 || g.options == Some(options)
  }

  /** What the shared state is once a session with `options` has been added. */
  function Added(g: Globals, options: OptionsId): Globals {
    g.(count := g.count + 1, options := Some(options), users := g.users + 1, process := true, runtime := true,
       active := true)
  }

  /** Whether it matters that step `i` of a call that finds the shared state as `g0` throws: the process runtime is
      built by the first user, the data runtime by the first session counted, and every session is attached to it. */
  predicate Matters(g0: Globals, i: nat) {
    (i == 0 && g0.users == 0) || ((i == 2 || i == 3) && g0.count == 0) || i == 4
  }

  predicate Clean(g0: Globals, fails: seq<bool>) {
    forall i :: 0 <= i < |fails| && fails[i] ==> !Matters(g0, i)
  }

  /** A call on its way in has used one step for each place. */
  predicate OnTime(pc: Pc, n: nat) {
    match pc
    case Starting => n == 0 case Acquired => n == 1 case Entered(_) => n == 2 case Created(_) => n == 3
    case Prepared(_) => n == 4 case Counted => n == 5 case Open => n > 5
    case _ => true
  }

  /** The shared state in the middle of a call that found it as `g0`; `clean` is whether nothing has thrown where it
      matters. */
  predicate Midway(g0: Globals, id: Id, options: OptionsId, clean: bool, m: Moved) {
    var held := AcquireProcess(g0).(mutex := Some(id));
    match m.pc
    case Starting => clean && m.g == g0
    case Acquired => clean && m.g == AcquireProcess(g0)
    case Entered(first) => clean && m.g == held && (first <==> g0.count == 0)
    case Created(first) => clean && m.g == held.(runtime := true, active := true) && (first <==> g0.count == 0)
    case Prepared(first) =>
      && m.g == Added(g0, options).(mutex := Some(id), count := g0.count) && (first <==> g0.count == 0)
      && clean && Admits(g0, options)
    case Counted => clean && m.g == Added(g0, options).(mutex := Some(id)) && Admits(g0, options)
    case Open => clean && m.g == Added(g0, options) && Admits(g0, options)
    case Failing(first) =>
      (first <==> g0.count == 0) && (clean ==> !Admits(g0, options))
      && m.g == held.(runtime := m.g.runtime, active := m.g.active, options := m.g.options) && (!first ==> m.g == held)
    case Unset => g0.count == 0 && !clean && m.g == held.(runtime := m.g.runtime, active := m.g.active)
    case FailNulled => g0.count == 0 && !clean && m.g == held.(runtime := m.g.runtime)
    case FailFreed => g0.count == 0 && !clean && m.g == held
    case Unwinding => m.g == AcquireProcess(g0) && (clean ==> !Admits(g0, options))
    case Failed => m.g == g0 && (clean ==> !Admits(g0, options))
    case _ => false
  }

  /** At most how many steps are left. */
  function StepsLeft(pc: Pc): nat {
    match pc
    case Starting => 10 case Acquired => 9 case Entered(_) => 8 case Created(_) => 7 case Prepared(_) => 6
    case Counted => 1 case Failing(_) => 5 case Unset => 4 case FailNulled => 3 case FailFreed => 2 case Unwinding => 1
    case _ => 0
  }

  /** One step keeps midway and comes nearer the end. */
  predicate Nearer(g0: Globals, id: Id, options: OptionsId, clean: bool, n: nat, m: Moved, next: Moved) {
    Midway(g0, id, options, clean, next) && OnTime(next.pc, n + 1)
    && (StepsLeft(next.pc) < StepsLeft(m.pc) || (StepsLeft(m.pc) == 0 && next == m))
  }

  /** What a call finds when nobody is in a critical section. */
  predicate Free(g: Globals) {
    g.mutex.None? && Settled(g) && (g.process <==> g.users > 0)
  }

  lemma NextOnTheWay(g0: Globals, id: Id, options: OptionsId, clean: bool, n: nat, m: Moved,
                  fails: bool)
    requires Midway(g0, id, options, clean, m) && Free(g0) && OnTime(m.pc, n)
    requires m.pc.Starting? || m.pc.Acquired? || m.pc.Entered? || m.pc.Counted? || m.pc.Open?
    ensures Nearer(g0, id, options, clean && !(fails && Matters(g0, n)), n, m,
                   GoOpen(m.g, id, Session(options, m.pc), fails))
  {
  }

  lemma NextInside(g0: Globals, id: Id, options: OptionsId, clean: bool, n: nat, m: Moved,
                  fails: bool)
    requires Midway(g0, id, options, clean, m) && Free(g0) && OnTime(m.pc, n) && (m.pc.Created? || m.pc.Prepared?)
    ensures Nearer(g0, id, options, clean && !(fails && Matters(g0, n)), n, m,
                   GoOpen(m.g, id, Session(options, m.pc), fails))
  {
  }

  lemma NextBack(g0: Globals, id: Id, options: OptionsId, clean: bool, n: nat, m: Moved,
                  fails: bool)
    requires Midway(g0, id, options, clean, m) && Free(g0) && OnTime(m.pc, n)
    requires m.pc.Failing? || m.pc in {Unset, FailNulled, FailFreed, Unwinding, Failed}
    ensures Nearer(g0, id, options, clean && !(fails && Matters(g0, n)), n, m,
                   GoOpen(m.g, id, Session(options, m.pc), fails))
  {
  }

  lemma NextMidway(g0: Globals, id: Id, options: OptionsId, clean: bool, n: nat, m: Moved,
                  fails: bool)
    requires Midway(g0, id, options, clean, m) && Free(g0) && OnTime(m.pc, n)
    ensures Nearer(g0, id, options, clean && !(fails && Matters(g0, n)), n, m,
                   GoOpen(m.g, id, Session(options, m.pc), fails))
  {
    MidwayPlaces(g0, id, options, clean, m);
    hide Midway, Nearer, GoOpen, Matters, OnTime;
    match m.pc {
      case Created(_) => NextInside(g0, id, options, clean, n, m, fails);
      case Prepared(_) => NextInside(g0, id, options, clean, n, m, fails);
      case Starting => NextOnTheWay(g0, id, options, clean, n, m, fails);
      case Acquired => NextOnTheWay(g0, id, options, clean, n, m, fails);
      case Entered(_) => NextOnTheWay(g0, id, options, clean, n, m, fails);
      case Counted => NextOnTheWay(g0, id, options, clean, n, m, fails);
      case Open => NextOnTheWay(g0, id, options, clean, n, m, fails);
      case _ => NextBack(g0, id, options, clean, n, m, fails);
    }
  }

  lemma MidwayPlaces(g0: Globals, id: Id, options: OptionsId, clean: bool, m: Moved)
    requires Midway(g0, id, options, clean, m)
    ensures !InClose(m.pc)
  {
  }

  lemma {:induction false} OpeningMidway(g: Globals, id: Id, options: OptionsId, fails: seq<bool>)
    requires Free(g)
    ensures var m := Opening(g, id, options, fails);
            && Midway(g, id, options, Clean(g, fails), m) && OnTime(m.pc, |fails|)
            && (StepsLeft(m.pc) == 0 || StepsLeft(m.pc) + |fails| <= 10)
    decreases |fails|
  {
    if fails != [] {
      var front, last := fails[..|fails| - 1], fails[|fails| - 1];
      OpeningMidway(g, id, options, front);
      NextMidway(g, id, options, Clean(g, front), |front|, Opening(g, id, options, front), last);
      assert Clean(g, fails) <==> Clean(g, front) && !(last && Matters(g, |front|)) by {
        assert fails == front + [last];
      }
      hide Midway, GoOpen, StepsLeft, Free, OnTime, Clean;
    }
  }

  /** The options of everybody who is counted are `options`. */
  ghost predicate Agree(s: System, options: OptionsId) {
    forall y <- CountedSessions(s) :: s.sessions[y].options == options
  }

  lemma AgreeIsAdmits(s: System, options: OptionsId)
    requires Sound(s) && s.g.mutex.None?
    ensures Agree(s, options) <==> Admits(s.g, options)
  {
    assert s.g.count == 0 <==> CountedSessions(s) == {};
    if s.g.count > 0 {
      var y :| y in CountedSessions(s);
      assert Shares(s.g, s.sessions[y]);
    }
    assert forall y <- CountedSessions(s) :: Shares(s.g, s.sessions[y]);
  }

  lemma FreeAndSettled(events: seq<Event>)
    requires Run(events).g.mutex.None?
    ensures Sound(Run(events)) && Free(Run(events).g)
  {
    RunIsSound(events);
  }

  /** Something throws that the call needs: the process runtime when nobody uses it, the data runtime or its preparation
      when nobody is counted, or what comes before the session is counted. */
  predicate Fatal(g: Globals, fails: seq<bool>)
    requires |fails| >= 10
  {
    (fails[0] && g.users == 0) || ((fails[2] || fails[3]) && g.count == 0) || fails[4]
  }

  /** Opening: after any run that leaves the mutex free, a call of `open` that nothing comes between returns or throws
      within ten steps.  It returns exactly when everybody counted has the options of the session and nothing throws
      that the call needs as the shared state stands; then the session is one more of those counted.  A call that
      throws leaves the shared state as it was. */
  lemma OpenSucceedsExactly(events: seq<Event>, id: Id, options: OptionsId, fails: seq<bool>)
    requires Run(events).g.mutex.None? && id !in Run(events).sessions && |fails| >= 10
    ensures var s, t := Run(events), Run(events + OpenCall(id, options, fails));
            && id in t.sessions && t.sessions == s.sessions[id := t.sessions[id]] && t.sessions[id].options == options
            && (t.sessions[id].pc == Open || t.sessions[id].pc == Failed)
            && (t.sessions[id].pc == Open <==> Agree(s, options) && !Fatal(s.g, fails))
            && t.g == if t.sessions[id].pc == Open then Added(s.g, options) else s.g
  {
    var s := Run(events);
    FreeAndSettled(events);
    AgreeIsAdmits(s, options);
    RunOpening(events, id, options, fails);
    OpeningMidway(s.g, id, options, fails);
    assert Clean(s.g, fails) <==> !Fatal(s.g, fails);
    hide Run, Sound, Agree, Admits, Opening, Free, Clean, Fatal;
  }

  // ---------------------------------------------------------------------------------------------------------
  // Closing

  function CloseCall(id: Id): seq<Event> {
    [Close(id)] + seq(7, i => Go(id, false))
  }

  /** What the shared state is once a session has been taken away. */
  function Removed(g: Globals): Globals
    requires g.count > 0 && g.users > 0
  {
    g.(count := g.count - 1, users := g.users - 1, process := g.users > 1, runtime := g.count > 1,
       active := g.count > 1, options := if g.count > 1 then g.options else None)
  }

  /** The steps of `close` by itself, until it is through. */
  function Leave(g: Globals, id: Id, x: Session, n: nat): Moved {
    if n == 0 then Moved(x.pc, g)
    else
      var m := Leave(g, id, x, n - 1);
      GoClose(m.g, id, x.(pc := m.pc))
  }

  lemma {:induction false} RunLeaving(events: seq<Event>, id: Id, n: nat)
    requires id in Run(events).sessions && Run(events).sessions[id].pc.Closing?
    ensures var s := Run(events);
            var m := Leave(s.g, id, s.sessions[id], n);
            InClose(m.pc) && Run(events + seq(n, i => Go(id, false)))
                             == System(s.sessions[id := s.sessions[id].(pc := m.pc)], m.g)
    decreases n
  {
    var s := Run(events);
    if n == 0 {
      assert events + seq(n, i => Go(id, false)) == events;
      assert s.sessions == s.sessions[id := s.sessions[id].(pc := Closing)];
    } else {
      RunLeaving(events, id, n - 1);
      RunThen(events + seq(n - 1, i => Go(id, false)), Go(id, false));
      assert events + seq(n, i => Go(id, false)) == (events + seq(n - 1, i => Go(id, false))) + [Go(id, false)];
    }
  }

  lemma LeavesInSeven(g: Globals, id: Id, x: Session)
    requires x.pc.Closing? && g.mutex.None? && g.count > 0 && g.users > 0 && Settled(g) && g.process
    ensures Leave(g, id, x, 7) == Moved(Closed, Removed(g))
  {
    assert Leave(g, id, x, 0) == Moved(x.pc, g);
    var m1 := Leave(g, id, x, 1);
    assert m1 == Moved(Leaving, g.(mutex := Some(id)));
    var m2 := Leave(g, id, x, 2);
    assert m2 == Moved(Left, m1.g.(count := g.count - 1));
    if g.count == 1 {
      assert Leave(g, id, x, 3) == Moved(LeaveNulled, m2.g.(active := false));
      assert Leave(g, id, x, 4) == Moved(LeaveFreed, m2.g.(active := false, runtime := false));
      assert Leave(g, id, x, 5) == Moved(Quitting, m2.g.(active := false, runtime := false, options := None));
      assert Leave(g, id, x, 6).pc == Quit;
    } else {
      assert Leave(g, id, x, 3) == Moved(Quitting, m2.g);
      assert Leave(g, id, x, 4).pc == Quit;
      assert Leave(g, id, x, 5) == Moved(Closed, Removed(g));
      assert Leave(g, id, x, 6) == Moved(Closed, Removed(g));
    }
  }

  lemma CloseSteps(events: seq<Event>, id: Id)
    requires var s := Run(events); id in s.sessions && s.sessions[id].pc.Open? && s.g.mutex.None?
    ensures var s := Run(events);
            s.g.count > 0 && s.g.users > 0
            && Run(events + CloseCall(id)) == System(s.sessions[id := s.sessions[id].(pc := Closed)], Removed(s.g))
  {
    var s := Run(events);
    FreeAndSettled(events);
    SomeoneCounted(s, id);
    SomeoneUses(s, id);
    RunThen(events, Close(id));
    var closing := events + [Close(id)];
    assert Run(closing) == System(s.sessions[id := s.sessions[id].(pc := Closing)], s.g);
    RunLeaving(closing, id, 7);
    LeavesInSeven(s.g, id, s.sessions[id].(pc := Closing));
    assert events + CloseCall(id) == closing + seq(7, i => Go(id, false));
    hide Run, Leave;
  }

  lemma SomeoneUses(s: System, id: Id)
    requires Sound(s) && id in s.sessions && s.sessions[id].pc.Open?
    ensures s.g.count > 0 && s.g.users > 0 && s.g.process
  {
    assert id in Users(s) && id in CountedSessions(s);
  }

  /** Closing undoes opening: a call of `close` that nothing comes between, made of a session that was opened by itself,
      leaves the shared state as `open` had found it. */
  lemma CloseUndoesOpen(events: seq<Event>, id: Id, options: OptionsId, fails: seq<bool>)
    requires Run(events).g.mutex.None? && id !in Run(events).sessions && |fails| >= 10
    requires id in OpenSessions(Run(events + OpenCall(id, options, fails)))
    ensures var t := Run(events + OpenCall(id, options, fails) + CloseCall(id));
            t.g == Run(events).g && id in t.sessions && t.sessions[id].pc == Closed
  {
    var s := Run(events);
    FreeAndSettled(events);
    OpenSucceedsExactly(events, id, options, fails);
    CloseSteps(events + OpenCall(id, options, fails), id);
    AgreeIsAdmits(s, options);
    hide Run, Sound, Agree;
  }
}
