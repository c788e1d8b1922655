/**
 Cross-process file locks: POSIX record locks behind an in-process mutex registry.

 Every call is broken into the steps other threads and processes can come between.  A record lock belongs to a process
 and is dropped when the process closes any descriptor of the file; the registry is what keeps that from happening
 while a lock is held.
 */
module FileLocks {
  import opened Options
  import opened LockKey

  type Proc = nat
  type LockId = nat
  type File = nat

  /** Where the thread that works on a lock object stands. */
  datatype Pc =
    | Idle       // in no call
    | GotMutex   // tryLock: has the mutex of the path
    | Opened     // lockFile: has a descriptor
    | Denied     // lockFile: fcntl has refused the record lock
    | Granted    // lockFile: fcntl has given the record lock
    | Refused    // tryLock: lockFile has failed and holds no descriptor
    | Cleared    // unlockFile: fcntl has been asked to drop the record lock
    | Closed     // unlock: the descriptor is closed

  /** `handle` is the descriptor of the lock file, in the local variable of `lockFile` or in `handle_`; `mutex` is the
      registry key of the mutex `local_lock_` is associated with. */
  datatype FileLock = FileLock(
    proc: Proc, filename: string, locked: bool, mutex: Option<string>, owns: bool, handle: Option<File>, pc: Pc)

  datatype System = System(
    locks: map<LockId, FileLock>, mutexes: map<(Proc, string), LockId>, owner: map<File, Proc>)

  /** Which file a path names; lock files are never renamed or deleted. */
  datatype Env = Env(file: string -> File)

  const EMPTY := System(map[], map[], map[])

  datatype Event =
    | Construct(id: LockId, proc: Proc, filename: string)
    | TryMutex(id: LockId)
    | Open(id: LockId, fails: bool)
    | SetLock(id: LockId, fails: bool)
    | CloseDenied(id: LockId)
    | GiveMutexBack(id: LockId)
    | Finish(id: LockId)
    | ClearLock(id: LockId, fails: bool)
    | CloseHandle(id: LockId)
    | ReleaseMutex(id: LockId)
    | Destroy(id: LockId)
    | Move(from: LockId, to: LockId)
    | Crash(proc: Proc)

  // ---------------------------------------------------------------------------------------------------------
  // Steps

  function Put(s: System, id: LockId, l: FileLock): System {
    s.(locks := s.locks[id := l])
  }

  /** Closing a descriptor, or clearing the lock through it, drops whatever record lock the process has on the file. */
  function Dropped(owner: map<File, Proc>, f: File, p: Proc): map<File, Proc> {
    if f in owner && owner[f] == p then owner - {f} else owner
  }

  /** The mutex part of `tryLock`: nothing happens when the lock is held already, the object was moved from, or the
      mutex is taken. */
  function StepTryMutex(s: System, id: LockId, l: FileLock): System {
    if l.pc != Idle || l.locked || l.filename == "" || l.mutex.None? then s
    else if l.owns then Put(s, id, l.(pc := GotMutex))
    else
      var m := (l.proc, l.mutex.value);
      if m in s.mutexes then s
      else Put(s, id, l.(owns := true, pc := GotMutex)).(mutexes := s.mutexes[m := id])
  }

  function StepOpen(env: Env, s: System, id: LockId, l: FileLock, fails: bool): System {
    if l.pc != GotMutex then s
    else if fails then Put(s, id, l.(pc := Refused))
    else Put(s, id, l.(handle := Some(env.file(l.filename)), pc := Opened))
  }

  /** fcntl(F_SETLK): granted unless another process has the record lock, or the call fails for another reason. */
  function StepSetLock(s: System, id: LockId, l: FileLock, fails: bool): System {
    if l.pc != Opened || l.handle.None? then s
    else if fails || (l.handle.value in s.owner && s.owner[l.handle.value] != l.proc)
    then Put(s, id, l.(pc := Denied))
    else Put(s, id, l.(pc := Granted)).(owner := s.owner[l.handle.value := l.proc])
  }

  function StepCloseDenied(s: System, id: LockId, l: FileLock): System {
    if l.pc != Denied || l.handle.None? then s
    else Put(s, id, l.(handle := None, pc := Refused)).(owner := Dropped(s.owner, l.handle.value, l.proc))
  }

  function Unlocked(s: System, l: FileLock): map<(Proc, string), LockId> {
    if l.owns && l.mutex.Some? then s.mutexes - {(l.proc, l.mutex.value)} else s.mutexes
  }

  function StepGiveMutexBack(s: System, id: LockId, l: FileLock): System {
    if l.pc != Refused then s else Put(s, id, l.(owns := false, pc := Idle)).(mutexes := Unlocked(s, l))
  }

  function StepFinish(s: System, id: LockId, l: FileLock): System {
    if l.pc != Granted then s else Put(s, id, l.(locked := true, pc := Idle))
  }

  /** The start of `unlock`; a failing fcntl(F_UNLCK) only warns. */
  function StepClearLock(s: System, id: LockId, l: FileLock, fails: bool): System {
    if l.pc != Idle || !l.locked then s
    else if l.handle.None? then Put(s, id, l.(locked := false, pc := Closed))
    else Put(s, id, l.(pc := Cleared)).(owner := if fails then s.owner else Dropped(s.owner, l.handle.value, l.proc))
  }

  function StepCloseHandle(s: System, id: LockId, l: FileLock): System {
    if l.pc != Cleared || l.handle.None? then s
    else Put(s, id, l.(handle := None, locked := false, pc := Closed))
           .(owner := Dropped(s.owner, l.handle.value, l.proc))
  }

  function StepReleaseMutex(s: System, id: LockId, l: FileLock): System {
    if l.pc != Closed && (l.pc != Idle || l.locked) then s
    else Put(s, id, l.(owns := false, pc := Idle)).(mutexes := Unlocked(s, l))
  }

  /** An object at rest: in no call, and `unlock` has run. */
  predicate AtRest(l: FileLock) {
    l.pc == Idle && !l.locked && !l.owns
  }

  function MovedFrom(l: FileLock): FileLock {
    l.(filename := "", locked := false, mutex := None, owns := false, handle := None)
  }

  /** Both moves: the target is a new object, or one that has run its `unlock`. */
  function StepMove(s: System, from: LockId, to: LockId): System {
    if from !in s.locks || from == to || s.locks[from].pc != Idle then s
    else if to in s.locks && (!AtRest(s.locks[to]) || s.locks[to].proc != s.locks[from].proc) then s
    else
      var l := s.locks[from];
      System(s.locks[from := MovedFrom(l)][to := l],
             if l.owns && l.mutex.Some? then s.mutexes[(l.proc, l.mutex.value) := to] else s.mutexes, s.owner)
  }

  /** The kernel drops the record locks of a process that dies, and its registry dies with it. */
  function StepCrash(s: System, p: Proc): System {
    System(map id | id in s.locks && s.locks[id].proc != p :: s.locks[id],
           map m | m in s.mutexes && m.0 != p :: s.mutexes[m],
           map f | f in s.owner && s.owner[f] != p :: s.owner[f])
  }

  /** One step; an event that is not possible changes nothing. */
  function Step(env: Env, s: System, e: Event): System {
    match e
    case Construct(id, p, filename) =>
      if id in s.locks then s
      else Put(s, id, FileLock(p, filename, false, Some(Key(filename)), false, None, Idle))
    case Move(from, to) => StepMove(s, from, to)
    case Crash(p) => StepCrash(s, p)
    case TryMutex(id) => if id in s.locks then StepTryMutex(s, id, s.locks[id]) else s
    case Open(id, fails) => if id in s.locks then StepOpen(env, s, id, s.locks[id], fails) else s
    case SetLock(id, fails) => if id in s.locks then StepSetLock(s, id, s.locks[id], fails) else s
    case CloseDenied(id) => if id in s.locks then StepCloseDenied(s, id, s.locks[id]) else s
    case GiveMutexBack(id) => if id in s.locks then StepGiveMutexBack(s, id, s.locks[id]) else s
    case Finish(id) => if id in s.locks then StepFinish(s, id, s.locks[id]) else s
    case ClearLock(id, fails) => if id in s.locks then StepClearLock(s, id, s.locks[id], fails) else s
    case CloseHandle(id) => if id in s.locks then StepCloseHandle(s, id, s.locks[id]) else s
    case ReleaseMutex(id) => if id in s.locks then StepReleaseMutex(s, id, s.locks[id]) else s
    case Destroy(id) => if id in s.locks && AtRest(s.locks[id]) then s.(locks := s.locks - {id}) else s
  }

  function Run(env: Env, events: seq<Event>): System {
    if events == [] then EMPTY else Step(env, Run(env, events[..|events| - 1]), events[|events| - 1])
  }

  // ---------------------------------------------------------------------------------------------------------
  // What is promised

  /** The lock is held: `tryLock` has returned true and `unlock` has not begun. */
  predicate Holds(s: System, id: LockId) {
    id in s.locks && s.locks[id].locked && s.locks[id].pc == Idle
  }

  /** At most one lock object of all processes holds each file. */
  ghost predicate Exclusive(env: Env, s: System) {
    forall x, y :: Holds(s, x) && Holds(s, y) && env.file(s.locks[x].filename) == env.file(s.locks[y].filename)
      ==> x == y
  }

  /** All locks are made for these paths. */
  predicate Within(names: set<string>, events: seq<Event>) {
    forall i :: 0 <= i < |events| && events[i].Construct? ==> events[i].filename in names
  }

  /** No file has two spellings of different keys among the paths. */
  ghost predicate OneKeyPerFile(env: Env, names: set<string>) {
    forall n, m :: n in names && m in names && n != "" && m != "" && env.file(n) == env.file(m) ==> Key(n) == Key(m)
  }

  // ---------------------------------------------------------------------------------------------------------
  // The invariant

  /** The lock object has the record lock, as far as it knows. */
  predicate Has(l: FileLock) {
    l.pc == Granted || (l.locked && l.pc == Idle)
  }

  predicate HasDescriptor(l: FileLock) {
    l.pc in {Opened, Denied, Granted, Cleared} || (l.locked && l.pc == Idle)
  }

  predicate LockSound(env: Env, names: set<string>, l: FileLock) {
    && (l.owns <==> l.locked || l.pc != Idle)
    && (l.locked ==> l.pc in {Idle, Cleared})
    && (l.pc == Cleared ==> l.locked)
    && (l.handle.Some? <==> HasDescriptor(l))
    && (l.handle.Some? ==> l.handle.value == env.file(l.filename))
    && (l.owns ==> l.filename != "" && l.mutex.Some?)
    && (l.mutex.Some? ==> l.mutex.value == Key(l.filename))
    && (l.filename != "" ==> l.filename in names)
  }

  predicate Registered(s: System, id: LockId)
    requires id in s.locks
  {
    var l := s.locks[id];
    l.owns ==> l.mutex.Some? && (l.proc, l.mutex.value) in s.mutexes && s.mutexes[(l.proc, l.mutex.value)] == id
  }

  predicate Owned(s: System, m: (Proc, string))
    requires m in s.mutexes
  {
    var id := s.mutexes[m];
    id in s.locks && s.locks[id].owns && s.locks[id].proc == m.0 && s.locks[id].mutex == Some(m.1)
  }

  ghost predicate MutexSound(s: System) {
    (forall id <- s.locks :: Registered(s, id)) && forall m <- s.mutexes :: Owned(s, m)
  }

  /** The lock object behind a record lock of the kernel. */
  predicate Behind(s: System, f: File, id: LockId) {
    id in s.locks && f in s.owner && s.locks[id].proc == s.owner[f] && s.locks[id].handle == Some(f)
    && (Has(s.locks[id]) || s.locks[id].pc == Cleared)
  }

  ghost predicate KernelSound(s: System) {
    && (forall id <- s.locks :: Has(s.locks[id]) ==>
          s.locks[id].handle.Some? && Behind(s, s.locks[id].handle.value, id))
    && (forall f <- s.owner :: exists id :: Behind(s, f, id))
  }

  ghost predicate Sound(env: Env, names: set<string>, s: System) {
    (forall id <- s.locks :: LockSound(env, names, s.locks[id])) && MutexSound(s) && KernelSound(s)
  }

  /** Two objects of one process with descriptors of one file share a mutex, so they are the same object. */
  lemma OneDescriptor(env: Env, names: set<string>, s: System, x: LockId, y: LockId)
    requires OneKeyPerFile(env, names) && (forall id <- s.locks :: LockSound(env, names, s.locks[id])) && MutexSound(s)
    requires x in s.locks && y in s.locks && s.locks[x].proc == s.locks[y].proc
    requires s.locks[x].handle.Some? && s.locks[x].handle == s.locks[y].handle
    ensures x == y
  {
    var lx, ly := s.locks[x], s.locks[y];
    assert LockSound(env, names, lx) && LockSound(env, names, ly);
    assert Key(lx.filename) == Key(ly.filename);
  }

  lemma SoundIsExclusive(env: Env, names: set<string>, s: System)
    requires OneKeyPerFile(env, names) && Sound(env, names, s)
    ensures Exclusive(env, s)
  {
    forall x, y | Holds(s, x) && Holds(s, y) && env.file(s.locks[x].filename) == env.file(s.locks[y].filename)
      ensures x == y
    {
      assert LockSound(env, names, s.locks[x]) && LockSound(env, names, s.locks[y]);
      assert Behind(s, s.locks[x].handle.value, x) && Behind(s, s.locks[y].handle.value, y);
      OneDescriptor(env, names, s, x, y);
    }
  }

  // ---------------------------------------------------------------------------------------------------------
  // Every step keeps the invariant

  /** A step of one object that leaves its mutex alone. */
  lemma PutKeepsMutexes(s: System, id: LockId, l: FileLock, owner: map<File, Proc>)
    requires id in s.locks && MutexSound(s) && l.proc == s.locks[id].proc && l.mutex == s.locks[id].mutex
    requires l.owns == s.locks[id].owns
    ensures MutexSound(Put(s, id, l).(owner := owner))
  {
  }

  /** A step of one object that leaves the kernel alone. */
  lemma PutKeepsKernel(s: System, id: LockId, l: FileLock, mutexes: map<(Proc, string), LockId>)
    requires id in s.locks && KernelSound(s) && l.proc == s.locks[id].proc
    requires l.handle == s.locks[id].handle || (!Has(s.locks[id]) && s.locks[id].pc != Cleared)
    requires Has(s.locks[id]) || s.locks[id].pc == Cleared ==> Has(l) || l.pc == Cleared
    requires Has(l) ==> Has(s.locks[id]) && l.handle == s.locks[id].handle
    ensures KernelSound(Put(s, id, l).(mutexes := mutexes))
  {
    var t := Put(s, id, l).(mutexes := mutexes);
    forall f <- t.owner
      ensures exists x :: Behind(t, f, x)
    {
      var x :| Behind(s, f, x);
      assert Behind(t, f, x);
    }
    forall x <- t.locks | Has(t.locks[x])
      ensures t.locks[x].handle.Some? && Behind(t, t.locks[x].handle.value, x)
    {
      assert Has(s.locks[x]) && Behind(s, s.locks[x].handle.value, x);
    }
  }

  /** Dropping the record lock of a file drops no lock another object has. */
  lemma DropKeepsKernel(env: Env, names: set<string>, s: System, id: LockId, l: FileLock, keep: bool)
    requires OneKeyPerFile(env, names) && Sound(env, names, s)
    requires id in s.locks && s.locks[id].handle.Some? && l.proc == s.locks[id].proc && !Has(l)
    requires keep ==> l.handle == s.locks[id].handle && l.pc == Cleared
    ensures var f := s.locks[id].handle.value;
            var owner := if keep then s.owner else Dropped(s.owner, f, l.proc);
            KernelSound(Put(s, id, l).(owner := owner))
  {
    hide LockSound, OneKeyPerFile, MutexSound;
    var f := s.locks[id].handle.value;
    var owner := if keep then s.owner else Dropped(s.owner, f, l.proc);
    var t := Put(s, id, l).(owner := owner);
    forall g <- t.owner
      ensures exists x :: Behind(t, g, x)
    {
      var x :| Behind(s, g, x);
      if x == id && !keep {
        assert false;
      }
      assert Behind(t, g, x);
    }
    forall x <- t.locks | Has(t.locks[x])
      ensures t.locks[x].handle.Some? && Behind(t, t.locks[x].handle.value, x)
    {
      assert x != id && Behind(s, s.locks[x].handle.value, x);
      if s.locks[x].handle.value == f && s.locks[x].proc == l.proc {
        OneDescriptor(env, names, s, x, id);
      }
    }
  }

  lemma ReleaseKeepsMutexes(s: System, id: LockId, l: FileLock)
    requires id in s.locks && MutexSound(s) && l.proc == s.locks[id].proc && l.mutex == s.locks[id].mutex && !l.owns
    ensures MutexSound(Put(s, id, l).(mutexes := Unlocked(s, s.locks[id])))
  {
  }

  lemma TakeKeepsMutexes(s: System, id: LockId, l: FileLock)
    requires id in s.locks && MutexSound(s) && l.proc == s.locks[id].proc && l.mutex == s.locks[id].mutex && l.owns
    requires l.mutex.Some? && (l.proc, l.mutex.value) !in s.mutexes
    ensures MutexSound(Put(s, id, l).(mutexes := s.mutexes[(l.proc, l.mutex.value) := id]))
  {
  }

  lemma TryMutexKeeps(env: Env, names: set<string>, s: System, id: LockId)
    requires Sound(env, names, s) && id in s.locks
    ensures Sound(env, names, StepTryMutex(s, id, s.locks[id]))
  {
    hide MutexSound, KernelSound, OneKeyPerFile;
    var l, t := s.locks[id], StepTryMutex(s, id, s.locks[id]);
    assert LockSound(env, names, l);
    if t != s {
      TakeKeepsMutexes(s, id, t.locks[id]);
      PutKeepsKernel(s, id, t.locks[id], t.mutexes);
    }
  }

  lemma OpenKeeps(env: Env, names: set<string>, s: System, id: LockId, fails: bool)
    requires Sound(env, names, s) && id in s.locks
    ensures Sound(env, names, StepOpen(env, s, id, s.locks[id], fails))
  {
    hide MutexSound, KernelSound, OneKeyPerFile;
    var l, t := s.locks[id], StepOpen(env, s, id, s.locks[id], fails);
    assert LockSound(env, names, l);
    if t != s {
      PutKeepsMutexes(s, id, t.locks[id], s.owner);
      PutKeepsKernel(s, id, t.locks[id], s.mutexes);
    }
  }

  lemma GrantKeepsKernel(s: System, id: LockId, l: FileLock)
    requires id in s.locks && KernelSound(s) && l.proc == s.locks[id].proc && l.handle == s.locks[id].handle
    requires l.handle.Some? && l.pc == Granted && !Has(s.locks[id]) && s.locks[id].pc != Cleared
    requires l.handle.value in s.owner ==> s.owner[l.handle.value] == l.proc
    ensures KernelSound(Put(s, id, l).(owner := s.owner[l.handle.value := l.proc]))
  {
    var t := Put(s, id, l).(owner := s.owner[l.handle.value := l.proc]);
    assert Behind(t, l.handle.value, id);
    forall g <- t.owner
      ensures exists x :: Behind(t, g, x)
    {
      if g != l.handle.value {
        var x :| Behind(s, g, x);
        assert Behind(t, g, x);
      }
    }
    forall x <- t.locks | Has(t.locks[x])
      ensures t.locks[x].handle.Some? && Behind(t, t.locks[x].handle.value, x)
    {
      if x != id {
        assert Behind(s, s.locks[x].handle.value, x);
      }
    }
  }

  lemma SetLockKeeps(env: Env, names: set<string>, s: System, id: LockId, fails: bool)
    requires Sound(env, names, s) && id in s.locks
    ensures Sound(env, names, StepSetLock(s, id, s.locks[id], fails))
  {
    hide MutexSound, KernelSound, OneKeyPerFile;
    var l, t := s.locks[id], StepSetLock(s, id, s.locks[id], fails);
    assert LockSound(env, names, l);
    if t != s {
      PutKeepsMutexes(s, id, t.locks[id], t.owner);
      if t.locks[id].pc == Denied {
        PutKeepsKernel(s, id, t.locks[id], s.mutexes);
      } else {
        GrantKeepsKernel(s, id, t.locks[id]);
      }
    }
  }

  lemma DropKeeps(env: Env, names: set<string>, s: System, id: LockId, e: Event)
    requires OneKeyPerFile(env, names) && Sound(env, names, s) && id in s.locks
    requires e in {CloseDenied(id), ClearLock(id, true), ClearLock(id, false), CloseHandle(id)}
    ensures Sound(env, names, Step(env, s, e))
  {
    hide MutexSound, KernelSound, OneKeyPerFile, Dropped;
    var l, t := s.locks[id], Step(env, s, e);
    assert LockSound(env, names, l);
    if t != s {
      PutKeepsMutexes(s, id, t.locks[id], t.owner);
      DropKeepsKernel(env, names, s, id, t.locks[id], e == ClearLock(id, true));
    }
  }

  lemma ReleaseKeeps(env: Env, names: set<string>, s: System, id: LockId, e: Event)
    requires Sound(env, names, s) && id in s.locks && e in {GiveMutexBack(id), ReleaseMutex(id)}
    ensures Sound(env, names, Step(env, s, e))
  {
    hide MutexSound, KernelSound, OneKeyPerFile, Unlocked;
    var l, t := s.locks[id], Step(env, s, e);
    assert LockSound(env, names, l);
    if t != s {
      ReleaseKeepsMutexes(s, id, t.locks[id]);
      PutKeepsKernel(s, id, t.locks[id], t.mutexes);
    }
  }

  lemma FinishKeeps(env: Env, names: set<string>, s: System, id: LockId)
    requires Sound(env, names, s) && id in s.locks
    ensures Sound(env, names, StepFinish(s, id, s.locks[id]))
  {
    hide MutexSound, KernelSound, OneKeyPerFile;
    var l, t := s.locks[id], StepFinish(s, id, s.locks[id]);
    assert LockSound(env, names, l);
    if t != s {
      PutKeepsMutexes(s, id, t.locks[id], s.owner);
      PutKeepsKernel(s, id, t.locks[id], s.mutexes);
    }
  }

  /** Objects at rest come and go. */
  ghost predicate OnlyRestingChange(s: System, t: System) {
    && (forall id <- t.locks :: if id in s.locks then t.locks[id] == s.locks[id] else AtRest(t.locks[id]))
    && (forall id <- s.locks :: id in t.locks || AtRest(s.locks[id]))
  }

  lemma NewKeepsKernel(env: Env, names: set<string>, s: System, t: System)
    requires Sound(env, names, s) && t.owner == s.owner
    requires OnlyRestingChange(s, t)
    ensures KernelSound(t)
  {
    hide MutexSound;
    forall f <- t.owner
      ensures exists x :: Behind(t, f, x)
    {
      var x :| Behind(s, f, x);
      assert Behind(t, f, x);
    }
    forall x <- t.locks | Has(t.locks[x])
      ensures t.locks[x].handle.Some? && Behind(t, t.locks[x].handle.value, x)
    {
      assert Behind(s, s.locks[x].handle.value, x);
    }
  }

  lemma NewKeepsMutexes(s: System, t: System)
    requires MutexSound(s) && t.mutexes == s.mutexes
    requires OnlyRestingChange(s, t)
    ensures MutexSound(t)
  {
    forall id <- t.locks
      ensures Registered(t, id)
    {
      assert id in s.locks ==> Registered(s, id);
    }
    forall m <- t.mutexes
      ensures Owned(t, m)
    {
      assert Owned(s, m);
    }
  }

  lemma NewKeeps(env: Env, names: set<string>, s: System, e: Event)
    requires Sound(env, names, s) && (e.Construct? || e.Destroy?) && Within(names, [e])
    ensures Sound(env, names, Step(env, s, e))
  {
    hide MutexSound, KernelSound, Key, LockSound;
    var t := Step(env, s, e);
    assert OnlyRestingChange(s, t);
    NewKeepsKernel(env, names, s, t);
    NewKeepsMutexes(s, t);
    if e.Construct? {
      assert [e][0].filename in names;
      NewLockSound(env, names, e.proc, e.filename);
    }
  }

  lemma NewLockSound(env: Env, names: set<string>, p: Proc, filename: string)
    requires filename in names
    ensures LockSound(env, names, FileLock(p, filename, false, Some(Key(filename)), false, None, Idle))
  {
    hide Key;
  }

  lemma MoveKeepsLocks(env: Env, names: set<string>, s: System, from: LockId, to: LockId)
    requires Sound(env, names, s)
    ensures forall id <- StepMove(s, from, to).locks :: LockSound(env, names, StepMove(s, from, to).locks[id])
  {
  }

  lemma MoveKeepsMutexes(env: Env, names: set<string>, s: System, from: LockId, to: LockId)
    requires MutexSound(s)
    ensures MutexSound(StepMove(s, from, to))
  {
    var t := StepMove(s, from, to);
    if t != s {
      assert Registered(s, from);
      forall id <- t.locks
        ensures Registered(t, id)
      {
        assert id in s.locks ==> Registered(s, id);
      }
      forall m <- t.mutexes
        ensures Owned(t, m)
      {
        assert m in s.mutexes ==> Owned(s, m);
      }
    }
  }

  lemma MoveKeepsKernel(env: Env, names: set<string>, s: System, from: LockId, to: LockId)
    requires Sound(env, names, s)
    ensures KernelSound(StepMove(s, from, to))
  {
    hide MutexSound;
    var t := StepMove(s, from, to);
    if t != s {
      assert LockSound(env, names, s.locks[from]) && (to in s.locks ==> LockSound(env, names, s.locks[to]));
      forall f <- t.owner
        ensures exists x :: Behind(t, f, x)
      {
        var x :| Behind(s, f, x);
        assert Behind(t, f, if x == from then to else x);
      }
      forall x <- t.locks | Has(t.locks[x])
        ensures t.locks[x].handle.Some? && Behind(t, t.locks[x].handle.value, x)
      {
        var y := if x == to then from else x;
        assert Behind(s, s.locks[y].handle.value, y);
      }
    }
  }

  lemma CrashKeepsKernel(s: System, p: Proc)
    requires KernelSound(s)
    ensures KernelSound(StepCrash(s, p))
  {
    var t := StepCrash(s, p);
    forall f <- t.owner
      ensures exists x :: Behind(t, f, x)
    {
      var x :| Behind(s, f, x);
      assert Behind(t, f, x);
    }
    forall x <- t.locks | Has(t.locks[x])
      ensures t.locks[x].handle.Some? && Behind(t, t.locks[x].handle.value, x)
    {
      assert Behind(s, s.locks[x].handle.value, x);
    }
  }

  lemma CrashKeepsMutexes(s: System, p: Proc)
    requires MutexSound(s)
    ensures MutexSound(StepCrash(s, p))
  {
    var t := StepCrash(s, p);
    forall id <- t.locks
      ensures Registered(t, id)
    {
      assert Registered(s, id);
    }
    forall m <- t.mutexes
      ensures Owned(t, m)
    {
      assert Owned(s, m);
    }
  }

  lemma CrashKeeps(env: Env, names: set<string>, s: System, p: Proc)
    requires Sound(env, names, s)
    ensures Sound(env, names, StepCrash(s, p))
  {
    hide MutexSound, KernelSound, LockSound;
    CrashKeepsMutexes(s, p);
    CrashKeepsKernel(s, p);
  }

  lemma StepKeeps(env: Env, names: set<string>, s: System, e: Event)
    requires OneKeyPerFile(env, names) && Sound(env, names, s) && Within(names, [e])
    ensures Sound(env, names, Step(env, s, e))
  {
    hide Sound, OneKeyPerFile, StepTryMutex, StepOpen, StepSetLock, StepCloseDenied, StepGiveMutexBack, StepFinish,
         StepClearLock, StepCloseHandle, StepReleaseMutex, StepMove, StepCrash, Within, LockSound, MutexSound,
         KernelSound;
    match e {
      case Construct(_, _, _) => NewKeeps(env, names, s, e);
      case Destroy(_) => NewKeeps(env, names, s, e);
      case Move(from, to) => MoveKeeps(env, names, s, from, to);
      case Crash(p) => CrashKeeps(env, names, s, p);
      case TryMutex(id) => if id in s.locks { TryMutexKeeps(env, names, s, id); }
      case Open(id, fails) => if id in s.locks { OpenKeeps(env, names, s, id, fails); }
      case SetLock(id, fails) => if id in s.locks { SetLockKeeps(env, names, s, id, fails); }
      case Finish(id) => if id in s.locks { FinishKeeps(env, names, s, id); }
      case CloseDenied(id) => if id in s.locks { DropKeeps(env, names, s, id, e); }
      case ClearLock(id, fails) => if id in s.locks { DropKeeps(env, names, s, id, e); }
      case CloseHandle(id) => if id in s.locks { DropKeeps(env, names, s, id, e); }
      case GiveMutexBack(id) => if id in s.locks { ReleaseKeeps(env, names, s, id, e); }
      case ReleaseMutex(id) => if id in s.locks { ReleaseKeeps(env, names, s, id, e); }
    }
  }

  lemma MoveKeeps(env: Env, names: set<string>, s: System, from: LockId, to: LockId)
    requires Sound(env, names, s)
    ensures Sound(env, names, StepMove(s, from, to))
  {
    hide StepMove, LockSound, MutexSound, KernelSound;
    MoveKeepsLocks(env, names, s, from, to);
    MoveKeepsMutexes(env, names, s, from, to);
    MoveKeepsKernel(env, names, s, from, to);
  }

  lemma {:induction false} RunIsSound(env: Env, names: set<string>, events: seq<Event>)
    requires OneKeyPerFile(env, names) && Within(names, events)
    ensures Sound(env, names, Run(env, events))
    decreases |events|
  {
    hide OneKeyPerFile, Step;
    if events != [] {
      var before := events[..|events| - 1];
      RunIsSound(env, names, before);
      hide Sound;
      StepKeeps(env, names, Run(env, before), events[|events| - 1]);
    }
  }

  // ---------------------------------------------------------------------------------------------------------
  // Main results

  /** Mutual exclusion: however the steps of all threads and processes interleave, with failed attempts, moves and
      crashes, no file is held twice.  The kernel has a record lock of a process exactly when an object of that process
      has it, or is just giving it back. */
  lemma MutualExclusion(env: Env, names: set<string>, events: seq<Event>)
    requires OneKeyPerFile(env, names) && Within(names, events)
    ensures Exclusive(env, Run(env, events))
    ensures var s := Run(env, events);
            (forall f <- s.owner :: exists id :: Behind(s, f, id))
            && forall id <- s.locks :: Holds(s, id) ==>
                 env.file(s.locks[id].filename) in s.owner
                 && s.owner[env.file(s.locks[id].filename)] == s.locks[id].proc
  {
    hide Run, OneKeyPerFile, Within, MutexSound;
    var s := Run(env, events);
    RunIsSound(env, names, events);
    SoundIsExclusive(env, names, s);
    forall id <- s.locks | Holds(s, id)
      ensures env.file(s.locks[id].filename) in s.owner
              && s.owner[env.file(s.locks[id].filename)] == s.locks[id].proc
    {
      assert LockSound(env, names, s.locks[id]) && Behind(s, s.locks[id].handle.value, id);
    }
  }

  /** One object at work on its own: from construction to a held lock. */
  function Take(id: LockId, p: Proc, filename: string): seq<Event> {
    [Construct(id, p, filename), TryMutex(id), Open(id, false), SetLock(id, false), Finish(id)]
  }

  function RunFrom(env: Env, s: System, events: seq<Event>): System
    decreases |events|
  {
    if events == [] then s else RunFrom(env, Step(env, s, events[0]), events[1..])
  }

  lemma {:induction false} RunIsRunFrom(env: Env, events: seq<Event>, more: seq<Event>)
    ensures Run(env, events + more) == RunFrom(env, Run(env, events), more)
    decreases |more|
  {
    hide Step;
    if more == [] {
      assert events + more == events;
    } else {
      var front := events + [more[0]];
      assert front[..|front| - 1] == events;
      assert front + more[1..] == events + more;
      RunIsRunFrom(env, front, more[1..]);
    }
  }

  /** A file whose record lock no other process has, by a path whose mutex is free, is there for the taking. */
  lemma FreeIsTaken(env: Env, s: System, id: LockId, p: Proc, filename: string)
    requires id !in s.locks && filename != "" && (p, Key(filename)) !in s.mutexes
    requires env.file(filename) in s.owner ==> s.owner[env.file(filename)] == p
    ensures RunFrom(env, s, Take(id, p, filename))
         == System(s.locks[id := FileLock(p, filename, true, Some(Key(filename)), true, Some(env.file(filename)),
                                          Idle)],
                   s.mutexes[(p, Key(filename)) := id], s.owner[env.file(filename) := p])
  {
    hide Key, RunFrom;
    var k, f := Key(filename), env.file(filename);
    var l0 := FileLock(p, filename, false, Some(k), false, None, Idle);
    var s1 := Put(s, id, l0);
    var s2 := Put(s1, id, l0.(owns := true, pc := GotMutex)).(mutexes := s.mutexes[(p, k) := id]);
    var s3 := Put(s2, id, s2.locks[id].(handle := Some(f), pc := Opened));
    var s4 := Put(s3, id, s3.locks[id].(pc := Granted)).(owner := s.owner[f := p]);
    var s5 := Put(s4, id, s4.locks[id].(locked := true, pc := Idle));
    var es := Take(id, p, filename);
    RunFromFive(env, s, es);
    assert Step(env, s, es[0]) == s1;
    assert Step(env, s1, es[1]) == s2;
    assert Step(env, s2, es[2]) == s3;
    assert Step(env, s3, es[3]) == s4;
    assert Step(env, s4, es[4]) == s5;
  }

  lemma RunFromFive(env: Env, s: System, es: seq<Event>)
    requires |es| == 5
    ensures RunFrom(env, s, es)
         == Step(env, Step(env, Step(env, Step(env, Step(env, s, es[0]), es[1]), es[2]), es[3]), es[4])
  {
    hide Step;
    var s1 := Step(env, s, es[0]);
    var s2 := Step(env, s1, es[1]);
    var s3 := Step(env, s2, es[2]);
    assert RunFrom(env, s, es) == RunFrom(env, s1, es[1..]);
    assert es[1..][0] == es[1] && es[1..][1..] == es[2..];
    assert RunFrom(env, s1, es[1..]) == RunFrom(env, s2, es[2..]);
    assert es[2..][0] == es[2] && es[2..][1..] == es[3..];
    assert RunFrom(env, s2, es[2..]) == RunFrom(env, s3, es[3..]);
    assert es[3..][0] == es[3] && es[3..][1..] == es[4..];
    var s4 := Step(env, s3, es[3]);
    assert RunFrom(env, s3, es[3..]) == RunFrom(env, s4, es[4..]);
    assert es[4..][0] == es[4] && es[4..][1..] == [];
    assert RunFrom(env, s4, es[4..]) == RunFrom(env, Step(env, s4, es[4]), []);
  }

  // ---------------------------------------------------------------------------------------------------------
  // One call on its own

  /** The steps of `tryLock`; which of them happen is up to the state. */
  function Attempt(id: LockId, openFails: bool, lockFails: bool): seq<Event> {
    [TryMutex(id), Open(id, openFails), SetLock(id, lockFails)] + Conclusion(id)
  }

  function Conclusion(id: LockId): seq<Event> {
    [CloseDenied(id), GiveMutexBack(id), Finish(id)]
  }

  /** The steps of `unlock`. */
  function Release(id: LockId, clearFails: bool): seq<Event> {
    [ClearLock(id, clearFails), CloseHandle(id), ReleaseMutex(id)]
  }

  lemma RunFromThree(env: Env, s: System, a: Event, b: Event, c: Event)
    ensures RunFrom(env, s, [a, b, c]) == Step(env, Step(env, Step(env, s, a), b), c)
  {
    hide Step;
    var s1 := Step(env, s, a);
    var s2 := Step(env, s1, b);
    assert [a, b, c][1..] == [b, c] && [b, c][1..] == [c] && [c][1..] == [];
    assert RunFrom(env, s1, [b, c]) == RunFrom(env, s2, [c]);
    assert RunFrom(env, s2, [c]) == RunFrom(env, Step(env, s2, c), []);
  }

  lemma {:induction false} RunFromTwo(env: Env, s: System, x: seq<Event>, y: seq<Event>)
    ensures RunFrom(env, s, x + y) == RunFrom(env, RunFrom(env, s, x), y)
    decreases |x|
  {
    hide Step;
    if x == [] {
      assert x + y == y;
    } else {
      assert (x + y)[1..] == x[1..] + y;
      RunFromTwo(env, Step(env, s, x[0]), x[1..], y);
    }
  }

  /** Nothing stands in the way of the lock: no object of the process has the mutex, no other process has the record
      lock, and no call fails. */
  predicate Available(env: Env, s: System, l: FileLock, openFails: bool, lockFails: bool) {
    && l.filename != "" && l.mutex.Some? && (l.proc, l.mutex.value) !in s.mutexes
    && !openFails && !lockFails && env.file(l.filename) !in s.owner
  }

  /** The object behind a record lock has the mutex of its path. */
  lemma BehindHasMutex(env: Env, names: set<string>, s: System, f: File, y: LockId)
    requires Sound(env, names, s) && Behind(s, f, y)
    ensures var l := s.locks[y];
            env.file(l.filename) == f && l.filename != "" && l.filename in names
            && (l.proc, Key(l.filename)) in s.mutexes
  {
    assert LockSound(env, names, s.locks[y]) && Registered(s, y);
  }

  /** An object whose mutex is free finds no record lock of its own process. */
  lemma NoLockOfOwnProcess(env: Env, names: set<string>, s: System, id: LockId)
    requires OneKeyPerFile(env, names) && Sound(env, names, s) && id in s.locks
    requires s.locks[id].filename != "" && s.locks[id].mutex.Some?
    requires (s.locks[id].proc, s.locks[id].mutex.value) !in s.mutexes
    ensures env.file(s.locks[id].filename) in s.owner ==> s.owner[env.file(s.locks[id].filename)] != s.locks[id].proc
  {
    var l := s.locks[id];
    var f := env.file(l.filename);
    assert LockSound(env, names, l);
    if f in s.owner && s.owner[f] == l.proc {
      var y :| Behind(s, f, y);
      BehindHasMutex(env, names, s, f, y);
    }
  }

  /** The object after the steps of an attempt that found the mutex free. */
  function Tried(env: Env, s: System, id: LockId, openFails: bool, lockFails: bool): System
    requires id in s.locks && s.locks[id].mutex.Some?
  {
    var l := s.locks[id];
    var f := env.file(l.filename);
    var t := s.(mutexes := s.mutexes[(l.proc, l.mutex.value) := id]);
    if openFails then Put(t, id, l.(owns := true, pc := Refused))
    else if lockFails || (f in s.owner && s.owner[f] != l.proc)
    then Put(t, id, l.(owns := true, handle := Some(f), pc := Denied))
    else Put(t, id, l.(owns := true, handle := Some(f), pc := Granted)).(owner := s.owner[f := l.proc])
  }

  lemma TriedSteps(env: Env, s: System, id: LockId, openFails: bool, lockFails: bool)
    requires id in s.locks && AtRest(s.locks[id]) && s.locks[id].filename != "" && s.locks[id].mutex.Some?
    requires (s.locks[id].proc, s.locks[id].mutex.value) !in s.mutexes
    ensures RunFrom(env, s, [TryMutex(id), Open(id, openFails), SetLock(id, lockFails)])
         == Tried(env, s, id, openFails, lockFails)
  {
    RunFromThree(env, s, TryMutex(id), Open(id, openFails), SetLock(id, lockFails));
    var l := s.locks[id];
    var s1 := Put(s, id, l.(owns := true, pc := GotMutex)).(mutexes := s.mutexes[(l.proc, l.mutex.value) := id]);
    assert Step(env, s, TryMutex(id)) == s1;
    var s2 := if openFails then Put(s1, id, s1.locks[id].(pc := Refused))
              else Put(s1, id, s1.locks[id].(handle := Some(env.file(l.filename)), pc := Opened));
    assert Step(env, s1, Open(id, openFails)) == s2;
    assert Step(env, s2, SetLock(id, lockFails)) == Tried(env, s, id, openFails, lockFails);
  }

  lemma ConcludeRefused(env: Env, s: System, id: LockId, lockFails: bool)
    requires id in s.locks && AtRest(s.locks[id]) && s.locks[id].mutex.Some?
    requires (s.locks[id].proc, s.locks[id].mutex.value) !in s.mutexes
    ensures RunFrom(env, Tried(env, s, id, true, lockFails), Conclusion(id)) == s
  {
    var t := Tried(env, s, id, true, lockFails);
    RunFromThree(env, t, CloseDenied(id), GiveMutexBack(id), Finish(id));
    hide RunFrom;
    assert Step(env, t, CloseDenied(id)) == t;
    var u := Step(env, t, GiveMutexBack(id));
    assert u.mutexes == s.mutexes && u.locks == s.locks;
    assert u == s;
    assert Step(env, s, Finish(id)) == s;
  }

  lemma ConcludeDenied(env: Env, s: System, id: LockId, lockFails: bool)
    requires id in s.locks && AtRest(s.locks[id]) && s.locks[id].mutex.Some? && s.locks[id].handle.None?
    requires (s.locks[id].proc, s.locks[id].mutex.value) !in s.mutexes
    requires Tried(env, s, id, false, lockFails).locks[id].pc == Denied
    requires var f := env.file(s.locks[id].filename); f in s.owner ==> s.owner[f] != s.locks[id].proc
    ensures RunFrom(env, Tried(env, s, id, false, lockFails), Conclusion(id)) == s
  {
    var t := Tried(env, s, id, false, lockFails);
    RunFromThree(env, t, CloseDenied(id), GiveMutexBack(id), Finish(id));
    hide RunFrom;
    var t1 := Put(t, id, t.locks[id].(handle := None, pc := Refused));
    assert Step(env, t, CloseDenied(id)) == t1;
    var u := Step(env, t1, GiveMutexBack(id));
    assert u.mutexes == s.mutexes && u.locks == s.locks;
    assert u == s;
    assert Step(env, s, Finish(id)) == s;
  }

  lemma ConcludeGranted(env: Env, s: System, id: LockId)
    requires id in s.locks && s.locks[id].pc == Granted
    ensures RunFrom(env, s, Conclusion(id)) == Put(s, id, s.locks[id].(locked := true, pc := Idle))
  {
    RunFromThree(env, s, CloseDenied(id), GiveMutexBack(id), Finish(id));
  }

  lemma NothingToTry(env: Env, s: System, id: LockId, openFails: bool, lockFails: bool)
    requires id in s.locks && s.locks[id].pc == Idle && StepTryMutex(s, id, s.locks[id]) == s
    ensures RunFrom(env, s, Attempt(id, openFails, lockFails)) == s
  {
    RunFromTwo(env, s, [TryMutex(id), Open(id, openFails), SetLock(id, lockFails)], Conclusion(id));
    RunFromThree(env, s, TryMutex(id), Open(id, openFails), SetLock(id, lockFails));
    RunFromThree(env, s, CloseDenied(id), GiveMutexBack(id), Finish(id));
    hide RunFrom, StepTryMutex;
  }

  /** A call of `tryLock` on its own ends with the lock held exactly when it was held already or nothing stands in the
      way, and a failed call leaves no trace: not in the kernel, not in the registry, not in the object. */
  lemma AttemptSucceedsExactly(env: Env, names: set<string>, s: System, id: LockId, openFails: bool, lockFails: bool)
    requires OneKeyPerFile(env, names) && Sound(env, names, s) && id in s.locks && s.locks[id].pc == Idle
    ensures var t := RunFrom(env, s, Attempt(id, openFails, lockFails));
            (Holds(t, id) <==> Holds(s, id) || Available(env, s, s.locks[id], openFails, lockFails))
            && (Holds(s, id) || !Holds(t, id) ==> t == s)
  {
    var l := s.locks[id];
    assert LockSound(env, names, l);
    hide Attempt, Conclusion, RunFrom, Key;
    if l.locked || l.filename == "" || l.mutex.None? || (l.proc, l.mutex.value) in s.mutexes {
      assert l.locked ==> Registered(s, id);
      NothingToTry(env, s, id, openFails, lockFails);
    } else {
      AttemptRuns(env, s, id, openFails, lockFails);
      NoLockOfOwnProcess(env, names, s, id);
      if openFails {
        ConcludeRefused(env, s, id, lockFails);
      } else if Tried(env, s, id, false, lockFails).locks[id].pc == Denied {
        ConcludeDenied(env, s, id, lockFails);
      } else {
        ConcludeGranted(env, Tried(env, s, id, false, lockFails), id);
      }
    }
  }

  lemma AttemptRuns(env: Env, s: System, id: LockId, openFails: bool, lockFails: bool)
    requires id in s.locks && AtRest(s.locks[id]) && s.locks[id].filename != "" && s.locks[id].mutex.Some?
    requires (s.locks[id].proc, s.locks[id].mutex.value) !in s.mutexes
    ensures RunFrom(env, s, Attempt(id, openFails, lockFails))
         == RunFrom(env, Tried(env, s, id, openFails, lockFails), Conclusion(id))
  {
    hide RunFrom, Conclusion, Tried;
    RunFromTwo(env, s, [TryMutex(id), Open(id, openFails), SetLock(id, lockFails)], Conclusion(id));
    TriedSteps(env, s, id, openFails, lockFails);
  }

  /** `unlock` undoes `tryLock`, even when the kernel refuses to clear the lock: a call that took the lock and the one
      that gives it back leave the whole system as it was. */
  lemma ReleaseUndoesAttempt(env: Env, names: set<string>, s: System, id: LockId, clearFails: bool)
    requires OneKeyPerFile(env, names) && Sound(env, names, s) && id in s.locks && AtRest(s.locks[id])
    requires Available(env, s, s.locks[id], false, false)
    ensures RunFrom(env, RunFrom(env, s, Attempt(id, false, false)), Release(id, clearFails)) == s
  {
    var l := s.locks[id];
    var f := env.file(l.filename);
    assert LockSound(env, names, l);
    hide Attempt, Conclusion, Key, OneKeyPerFile, Sound;
    AttemptRuns(env, s, id, false, false);
    ConcludeGranted(env, Tried(env, s, id, false, false), id);
    var held := l.(owns := true, handle := Some(f), locked := true);
    var t := System(s.locks[id := held], s.mutexes[(l.proc, l.mutex.value) := id], s.owner[f := l.proc]);
    assert RunFrom(env, s, Attempt(id, false, false)) == t by {
      hide RunFrom;
      assert Tried(env, s, id, false, false).locks[id := held] == t.locks;
    }
    Released(env, s, t, id, clearFails);
  }

  lemma Released(env: Env, s: System, t: System, id: LockId, clearFails: bool)
    requires id in s.locks && AtRest(s.locks[id]) && s.locks[id].mutex.Some? && s.locks[id].handle.None?
    requires var l := s.locks[id];
             var f := env.file(l.filename);
             (l.proc, l.mutex.value) !in s.mutexes && f !in s.owner
             && t == System(s.locks[id := l.(owns := true, handle := Some(f), locked := true)],
                            s.mutexes[(l.proc, l.mutex.value) := id], s.owner[f := l.proc])
    ensures RunFrom(env, t, Release(id, clearFails)) == s
  {
    RunFromThree(env, t, ClearLock(id, clearFails), CloseHandle(id), ReleaseMutex(id));
    hide RunFrom;
    var l := s.locks[id];
    var f := env.file(l.filename);
    assert Dropped(t.owner, f, l.proc) == s.owner && Dropped(s.owner, f, l.proc) == s.owner;
    var t1 := Put(t, id, t.locks[id].(pc := Cleared)).(owner := if clearFails then t.owner else s.owner);
    assert Step(env, t, ClearLock(id, clearFails)) == t1;
    var t2 := Put(t1, id, l.(owns := true, pc := Closed)).(owner := s.owner);
    assert Step(env, t1, CloseHandle(id)) == t2;
    var u := Step(env, t2, ReleaseMutex(id));
    assert u.mutexes == s.mutexes && u.locks == s.locks;
  }

  lemma NothingToRelease(env: Env, s: System, id: LockId, clearFails: bool)
    requires id in s.locks && AtRest(s.locks[id])
    ensures RunFrom(env, s, Release(id, clearFails)) == s
  {
    RunFromThree(env, s, ClearLock(id, clearFails), CloseHandle(id), ReleaseMutex(id));
    hide RunFrom;
    assert s.locks[id := s.locks[id]] == s.locks;
  }

  /** A lock object that is constructed, tries to take its lock, gives back what it has and is destroyed leaves the
      whole system as it was, whichever call fails on the way. */
  lemma LifetimeLeavesNothing(env: Env, names: set<string>, s: System, id: LockId, p: Proc, filename: string,
                              openFails: bool, lockFails: bool, clearFails: bool)
    requires OneKeyPerFile(env, names) && Sound(env, names, s) && id !in s.locks && filename in names
    ensures var t := RunFrom(env, Step(env, s, Construct(id, p, filename)), Attempt(id, openFails, lockFails));
            Step(env, RunFrom(env, t, Release(id, clearFails)), Destroy(id)) == s
  {
    var c := Step(env, s, Construct(id, p, filename));
    StepKeeps(env, names, s, Construct(id, p, filename));
    assert c.locks - {id} == s.locks;
    hide Attempt, Release, RunFrom, Key, OneKeyPerFile, Sound;
    AttemptSucceedsExactly(env, names, c, id, openFails, lockFails);
    if Available(env, c, c.locks[id], openFails, lockFails) {
      ReleaseUndoesAttempt(env, names, c, id, clearFails);
    } else {
      NothingToRelease(env, c, id, clearFails);
    }
  }

  /** A move hands everything over: the lock and its place in the registry are the target's, the source is left without
      a path and takes no lock again, and neither the kernel nor any other object sees it. */
  lemma MoveHandsOver(env: Env, names: set<string>, s: System, from: LockId, to: LockId)
    requires Sound(env, names, s) && from in s.locks && from != to && s.locks[from].pc == Idle
    requires to in s.locks ==> AtRest(s.locks[to]) && s.locks[to].proc == s.locks[from].proc
    ensures var t := Step(env, s, Move(from, to));
            && t.locks == s.locks[from := t.locks[from]][to := s.locks[from]] && t.owner == s.owner
            && t.locks[from].filename == "" && AtRest(t.locks[from])
            && t.mutexes.Keys == s.mutexes.Keys
            && (forall m <- s.mutexes :: t.mutexes[m] == if s.mutexes[m] == from then to else s.mutexes[m])
            && forall openFails, lockFails :: RunFrom(env, t, Attempt(from, openFails, lockFails)) == t
  {
    var t := Step(env, s, Move(from, to));
    assert Registered(s, from) && LockSound(env, names, s.locks[from]);
    assert forall m <- s.mutexes :: Owned(s, m);
    forall openFails, lockFails
      ensures RunFrom(env, t, Attempt(from, openFails, lockFails)) == t
    {
      NothingToTry(env, t, from, openFails, lockFails);
    }
  }

  /** Two keys for one file defeat the registry: one process can hold the file twice. */
  lemma TwoKeysTwoHolders(env: Env, n: string, m: string, p: Proc)
    requires n != "" && m != "" && env.file(n) == env.file(m) && Key(n) != Key(m)
    ensures !Exclusive(env, Run(env, Take(0, p, n) + Take(1, p, m)))
  {
    hide Key, Take;
    var s1 := RunFrom(env, EMPTY, Take(0, p, n));
    FreeIsTaken(env, EMPTY, 0, p, n);
    FreeIsTaken(env, s1, 1, p, m);
    var s2 := RunFrom(env, s1, Take(1, p, m));
    RunIsRunFrom(env, [], Take(0, p, n));
    assert [] + Take(0, p, n) == Take(0, p, n);
    RunIsRunFrom(env, Take(0, p, n), Take(1, p, m));
    assert Holds(s2, 0) && Holds(s2, 1);
  }

  /** Exactly when no file has two keys among the paths the participants use, every run is exclusive. */
  lemma ExclusiveExactly(env: Env, names: set<string>)
    ensures (forall events: seq<Event> :: Within(names, events) ==> Exclusive(env, Run(env, events)))
       <==> OneKeyPerFile(env, names)
  {
    hide Key, Run, Exclusive, Take;
    if OneKeyPerFile(env, names) {
      forall events: seq<Event> | Within(names, events)
        ensures Exclusive(env, Run(env, events))
      {
        MutualExclusion(env, names, events);
      }
    } else {
      var n, m :| n in names && m in names && n != "" && m != "" && env.file(n) == env.file(m) && Key(n) != Key(m);
      TwoKeysTwoHolders(env, n, m, 0);
      TakeWithin(names, 0, 0, n, 1, m);
      assert Within(names, Take(0, 0, n) + Take(1, 0, m));
    }
  }

  lemma TakeWithin(names: set<string>, x: LockId, p: Proc, n: string, y: LockId, m: string)
    requires n in names && m in names
    ensures Within(names, Take(x, p, n) + Take(y, p, m))
  {
  }

  /** A path through the parent directory is such a second key. */
  lemma ParentDirectoryHasItsOwnKey()
    ensures Key("a/../b") != Key("b")
  {
    SameKey("a/../b", "b");
    ComponentsOfTwo("a", "../b");
    ComponentsOfTwo("..", "b");
    assert "a" + "/" + "../b" == "a/../b" && ".." + "/" + "b" == "../b";
    ComponentOfOne("a");
    ComponentOfOne("..");
    ComponentOfOne("b");
  }
}
