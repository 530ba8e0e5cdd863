/** Lockset protection (analyzer/concurrency.go) and what it means for threads that
    take the locks of an RWMutex. */
module Locksets {
  import opened Wrappers
  import opened MemoryKeys

  predicate SameLockKey(a: MemoryKey, b: MemoryKey) {
    LockBase(a) == LockBase(b)
  }

  predicate LockModesProtect(leftKind: AccessKind, leftLock: MemoryKey, rightKind: AccessKind, rightLock: MemoryKey) {
    && !(leftKind == Write && IsReadLock(leftLock))
    && !(rightKind == Write && IsReadLock(rightLock))
  }

  predicate LocksetsProtect(a: Access, b: Access) {
    exists left, right :: left in a.lockset && right in b.lockset && SameLockKey(left, right)
      && LockModesProtect(a.kind, left, b.kind, right)
  }

  lemma ProtectSymmetric(a: Access, b: Access)
    ensures LocksetsProtect(a, b) <==> LocksetsProtect(b, a)
  {
    if LocksetsProtect(a, b) {
      var left, right :| left in a.lockset && right in b.lockset && SameLockKey(left, right)
        && LockModesProtect(a.kind, left, b.kind, right);
      assert SameLockKey(right, left);
    }
    if LocksetsProtect(b, a) {
      var left, right :| left in b.lockset && right in a.lockset && SameLockKey(left, right)
        && LockModesProtect(b.kind, left, a.kind, right);
      assert SameLockKey(right, left);
    }
  }

  /** Holding more locks never loses protection. */
  lemma ProtectMonotone(a: Access, b: Access, locks: seq<MemoryKey>)
    requires LocksetsProtect(a, b) && forall l :: l in a.lockset ==> l in locks
    ensures LocksetsProtect(a.(lockset := locks), b)
  {
    var left, right :| left in a.lockset && right in b.lockset && SameLockKey(left, right)
      && LockModesProtect(a.kind, left, b.kind, right);
    assert left in locks;
  }

  // ---------- read-write mutexes ----------

  type Thread = nat

  /** One sync.RWMutex. The source's mutex does not know who holds it; the thread
      names are kept for the argument only. */
  datatype RWMutex = RWMutex(writer: Option<Thread>, readers: multiset<Thread>)

  /** mutexes: the locks that were ever taken, by key; running: the access each thread is in. */
  datatype State = State(mutexes: map<MemoryKey, RWMutex>, running: map<Thread, Access>)

  datatype Action =
    | Lock(t: Thread, key: MemoryKey)
    | RLock(t: Thread, key: MemoryKey)
    | Unlock(t: Thread, key: MemoryKey)
    | RUnlock(t: Thread, key: MemoryKey)
    | Begin(t: Thread, access: Access)
    | End(t: Thread)

  function Mutex(s: State, key: MemoryKey): RWMutex {
    if key in s.mutexes then s.mutexes[key] else RWMutex(None, multiset{})
  }

  /** t holds the lock in the mode the lockset entry records. */
  predicate Holds(s: State, t: Thread, lock: MemoryKey) {
    if IsReadLock(lock) then t in Mutex(s, LockBase(lock)).readers
    else Mutex(s, LockBase(lock)).writer == Some(t)
  }

  predicate HoldsAll(s: State, t: Thread, locks: seq<MemoryKey>) {
    forall l :: l in locks ==> Holds(s, t, l)
  }

  /** Lock waits until nobody holds the mutex, RLock until nobody writes. An access
      starts with its lockset held, and no lock of it is given up before it ends. */
  predicate Enabled(s: State, a: Action) {
    match a
    case Lock(t, key) => Mutex(s, key).writer.None? && Mutex(s, key).readers == multiset{}
    case RLock(t, key) => Mutex(s, key).writer.None?
    case Unlock(t, key) => Mutex(s, key).writer == Some(t) && LocksetHeld(Do(s, a), t)
    case RUnlock(t, key) => t in Mutex(s, key).readers && LocksetHeld(Do(s, a), t)
    case Begin(t, access) => t !in s.running && HoldsAll(s, t, access.lockset)
    case End(t) => t in s.running
  }

  predicate LocksetHeld(s: State, t: Thread) {
    t in s.running ==> HoldsAll(s, t, s.running[t].lockset)
  }

  function Do(s: State, a: Action): State {
    match a
    case Lock(t, key) => s.(mutexes := s.mutexes[key := Mutex(s, key).(writer := Some(t))])
    case RLock(t, key) =>
      s.(mutexes := s.mutexes[key := Mutex(s, key).(readers := Mutex(s, key).readers + multiset{t})])
    case Unlock(t, key) => s.(mutexes := s.mutexes[key := Mutex(s, key).(writer := None)])
    case RUnlock(t, key) =>
      s.(mutexes := s.mutexes[key := Mutex(s, key).(readers := Mutex(s, key).readers - multiset{t})])
    case Begin(t, access) => s.(running := s.running[t := access])
    case End(t) => s.(running := s.running - {t})
  }

  function Exec(actions: seq<Action>): State {
    if actions == [] then State(map[], map[])
    else
      var s, a := Exec(actions[..|actions| - 1]), actions[|actions| - 1];
      if Enabled(s, a) then Do(s, a) else s
  }

  /** A mutex has a writer or readers, never both; and every access holds its lockset. */
  ghost predicate Inv(s: State) {
    && (forall key :: Mutex(s, key).writer.None? || Mutex(s, key).readers == multiset{})
    && (forall t :: t in s.running ==> HoldsAll(s, t, s.running[t].lockset))
  }

  /** What t does leaves the locks of other threads alone. */
  lemma OthersKeepLocks(s: State, a: Action, u: Thread, locks: seq<MemoryKey>)
    requires Inv(s) && Enabled(s, a) && u != a.t && HoldsAll(s, u, locks)
    ensures HoldsAll(Do(s, a), u, locks)
  {
    forall l | l in locks
      ensures Holds(Do(s, a), u, l)
    {
      assert Holds(s, u, l);
      assert Mutex(s, LockBase(l)).writer.None? || Mutex(s, LockBase(l)).readers == multiset{};
    }
  }

  /** Taking a further lock gives up none. */
  lemma TakingKeepsLocks(s: State, a: Action, locks: seq<MemoryKey>)
    requires Inv(s) && Enabled(s, a) && (a.Lock? || a.RLock?) && HoldsAll(s, a.t, locks)
    ensures HoldsAll(Do(s, a), a.t, locks)
  {
    forall l | l in locks
      ensures Holds(Do(s, a), a.t, l)
    {
      assert Holds(s, a.t, l);
    }
  }

  lemma DoKeeps(s: State, a: Action)
    requires Inv(s) && Enabled(s, a)
    ensures Inv(Do(s, a))
  {
    hide HoldsAll;
    var r := Do(s, a);
    forall key
      ensures Mutex(r, key).writer.None? || Mutex(r, key).readers == multiset{}
    {
      assert Mutex(s, key).writer.None? || Mutex(s, key).readers == multiset{};
    }
    forall t | t in r.running
      ensures HoldsAll(r, t, r.running[t].lockset)
    {
      RunningKeeps(s, a, t);
    }
  }

  lemma RunningKeeps(s: State, a: Action, t: Thread)
    requires Inv(s) && Enabled(s, a) && t in Do(s, a).running
    ensures HoldsAll(Do(s, a), t, Do(s, a).running[t].lockset)
  {
    hide HoldsAll, Holds;
    if a.Begin? || a.End? {
      SameMutexes(s, Do(s, a), t, Do(s, a).running[t].lockset);
    } else if t != a.t {
      OthersKeepLocks(s, a, t, s.running[t].lockset);
    } else if a.Lock? || a.RLock? {
      TakingKeepsLocks(s, a, s.running[t].lockset);
    }
  }

  lemma SameMutexes(s: State, r: State, t: Thread, locks: seq<MemoryKey>)
    requires s.mutexes == r.mutexes
    ensures HoldsAll(s, t, locks) <==> HoldsAll(r, t, locks)
  {
    assert forall l :: Holds(s, t, l) <==> Holds(r, t, l);
  }

  lemma {:induction false} InEveryRun(actions: seq<Action>)
    ensures Inv(Exec(actions))
  {
    if actions != [] {
      InEveryRun(actions[..|actions| - 1]);
      if Enabled(Exec(actions[..|actions| - 1]), actions[|actions| - 1]) {
        DoKeeps(Exec(actions[..|actions| - 1]), actions[|actions| - 1]);
      }
    }
  }

  /** Two threads hold one mutex at once only as readers. */
  lemma SharedIsReading(s: State, t: Thread, u: Thread, left: MemoryKey, right: MemoryKey)
    requires Inv(s) && t != u && Holds(s, t, left) && Holds(s, u, right) && SameLockKey(left, right)
    ensures IsReadLock(left) && IsReadLock(right)
  {
    assert Mutex(s, LockBase(left)).writer.None? || Mutex(s, LockBase(left)).readers == multiset{};
  }

  /** Soundness: in every run in which each access happens only while its lockset is
      held, two threads are never in a protected pair of accesses, one a write, at once. */
  lemma ProtectedPairsExclude(actions: seq<Action>, t: Thread, u: Thread)
    requires t != u && t in Exec(actions).running && u in Exec(actions).running
    requires Exec(actions).running[t].kind == Write || Exec(actions).running[u].kind == Write
    ensures !LocksetsProtect(Exec(actions).running[t], Exec(actions).running[u])
  {
    InEveryRun(actions);
    var s := Exec(actions);
    forall left, right | left in s.running[t].lockset && right in s.running[u].lockset && SameLockKey(left, right)
      ensures IsReadLock(left) && IsReadLock(right)
    {
      SharedIsReading(s, t, u, left, right);
    }
  }

  // ---------- when nothing protects a pair ----------

  /** Some run has a and b under way at once, in two threads. */
  ghost predicate CanOverlap(a: Access, b: Access) {
    exists actions, t, u :: t != u && BothRunning(Exec(actions), t, a, u, b)
  }

  predicate BothRunning(s: State, t: Thread, a: Access, u: Thread, b: Access) {
    t in s.running && s.running[t] == a && u in s.running && s.running[u] == b
  }

  /** No base is named in both modes. */
  predicate Consistent(locks: seq<MemoryKey>) {
    forall l, r :: l in locks && r in locks && SameLockKey(l, r) ==> (IsReadLock(l) <==> IsReadLock(r))
  }

  /** What two locksets share is read by both. */
  predicate ReadersOnly(left: seq<MemoryKey>, right: seq<MemoryKey>) {
    forall l, r :: l in left && r in right && SameLockKey(l, r) ==> IsReadLock(l) && IsReadLock(r)
  }

  /** The lock and its mode are those of an entry of the lockset. */
  predicate Names(locks: seq<MemoryKey>, key: MemoryKey, reading: bool) {
    exists l :: l in locks && LockBase(l) == key && IsReadLock(l) == reading
  }

  /** Nobody but t and u holds anything, and they only what their locksets name. */
  ghost predicate OnlyTheirs(s: State, t: Thread, left: seq<MemoryKey>, u: Thread, right: seq<MemoryKey>) {
    forall key ::
      && (Mutex(s, key).writer == None || (Mutex(s, key).writer == Some(t) && Names(left, key, false))
          || (Mutex(s, key).writer == Some(u) && Names(right, key, false)))
      && (Mutex(s, key).readers == multiset{} || Names(left, key, true) || Names(right, key, true))
  }

  /** The call that takes the lock in its mode. */
  function Taking(t: Thread, lock: MemoryKey): Action {
    if IsReadLock(lock) then RLock(t, LockBase(lock)) else Lock(t, LockBase(lock))
  }

  function TakingAll(t: Thread, locks: seq<MemoryKey>): seq<Action> {
    if locks == [] then [] else TakingAll(t, locks[..|locks| - 1]) + [Taking(t, locks[|locks| - 1])]
  }

  /** A lock of left is free for t, or t has it. */
  lemma TakeOne(s: State, t: Thread, left: seq<MemoryKey>, u: Thread, right: seq<MemoryKey>, l: MemoryKey)
    requires Inv(s) && t != u && Consistent(left) && ReadersOnly(left, right) && l in left
    requires OnlyTheirs(s, t, left, u, right)
    ensures !Enabled(s, Taking(t, l)) ==> Holds(s, t, l)
    ensures Enabled(s, Taking(t, l)) ==>
      && Holds(Do(s, Taking(t, l)), t, l) && OnlyTheirs(Do(s, Taking(t, l)), t, left, u, right)
      && Do(s, Taking(t, l)).running == s.running
  {
    var key := LockBase(l);
    assert forall r :: r in left && LockBase(r) == key ==> SameLockKey(l, r);
    assert forall r :: r in right && LockBase(r) == key ==> SameLockKey(l, r);
    assert Names(left, key, IsReadLock(l)) && !Names(left, key, !IsReadLock(l)) && !Names(right, key, false);
    assert Mutex(s, key).writer != Some(u);
    if !IsReadLock(l) {
      assert !Names(right, key, true);
    }
    if Enabled(s, Taking(t, l)) {
      hide Names;
      var r := Do(s, Taking(t, l));
      assert forall k :: k != key ==> Mutex(r, k) == Mutex(s, k);
    }
  }

  /** One more lock taken, or held already: nothing that was held is lost. */
  lemma TakeNext(before: seq<Action>, t: Thread, left: seq<MemoryKey>, u: Thread, right: seq<MemoryKey>,
                 init: seq<MemoryKey>, l: MemoryKey, others: seq<MemoryKey>)
    requires t != u && Consistent(left) && ReadersOnly(left, right) && l in left
    requires OnlyTheirs(Exec(before), t, left, u, right)
    requires HoldsAll(Exec(before), t, init) && HoldsAll(Exec(before), u, others)
    ensures var s := Exec(before + [Taking(t, l)]);
      && OnlyTheirs(s, t, left, u, right) && HoldsAll(s, t, init + [l]) && HoldsAll(s, u, others)
      && s.running == Exec(before).running
  {
    hide OnlyTheirs, Holds, HoldsAll, Consistent, ReadersOnly, Enabled, Do, Inv, Exec;
    var s := Exec(before);
    NextAction(before, Taking(t, l));
    InEveryRun(before);
    TakeOne(s, t, left, u, right, l);
    if Enabled(s, Taking(t, l)) {
      TakingKeepsLocks(s, Taking(t, l), init);
      OthersKeepLocks(s, Taking(t, l), u, others);
    }
    HoldsMore(Exec(before + [Taking(t, l)]), t, init, l);
  }

  lemma HoldsMore(s: State, t: Thread, locks: seq<MemoryKey>, l: MemoryKey)
    requires HoldsAll(s, t, locks) && Holds(s, t, l)
    ensures HoldsAll(s, t, locks + [l])
  {
    hide Holds;
  }

  /** t takes its whole lockset while u holds what it holds. */
  lemma {:induction false} TakeAll(actions: seq<Action>, t: Thread, left: seq<MemoryKey>, u: Thread,
                                   right: seq<MemoryKey>, locks: seq<MemoryKey>, others: seq<MemoryKey>)
    requires t != u && Consistent(left) && ReadersOnly(left, right) && forall l :: l in locks ==> l in left
    requires OnlyTheirs(Exec(actions), t, left, u, right) && HoldsAll(Exec(actions), u, others)
    ensures var s := Exec(actions + TakingAll(t, locks));
      && OnlyTheirs(s, t, left, u, right) && HoldsAll(s, t, locks) && HoldsAll(s, u, others)
      && s.running == Exec(actions).running
  {
    hide OnlyTheirs, Holds, Consistent, ReadersOnly, Exec;
    if locks == [] {
      assert actions + TakingAll(t, []) == actions;
    } else {
      var init, l := locks[..|locks| - 1], locks[|locks| - 1];
      TakeAll(actions, t, left, u, right, init, others);
      TakeNext(actions + TakingAll(t, init), t, left, u, right, init, l, others);
      assert actions + TakingAll(t, locks) == actions + TakingAll(t, init) + [Taking(t, l)];
      assert locks == init + [l];
    }
  }

  lemma NextAction(actions: seq<Action>, a: Action)
    ensures Exec(actions + [a]) == if Enabled(Exec(actions), a) then Do(Exec(actions), a) else Exec(actions)
  {
    assert (actions + [a])[..|actions|] == actions;
  }

  /** Both take their locks and begin. */
  lemma OverlapWitness(a: Access, b: Access)
    requires Consistent(a.lockset) && Consistent(b.lockset) && ReadersOnly(a.lockset, b.lockset)
    ensures CanOverlap(a, b)
  {
    hide Consistent, ReadersOnly, Inv, OnlyTheirs, HoldsAll, TakingAll;
    NothingHeld(0, a.lockset, 1, b.lockset);
    ReadersOnlySymmetric(a.lockset, b.lockset);
    TakeAll([], 0, a.lockset, 1, b.lockset, a.lockset, []);
    var locked := TakingAll(0, a.lockset);
    assert [] + locked == locked;
    TheirsSymmetric(Exec(locked), 0, a.lockset, 1, b.lockset);
    TakeAll(locked, 1, b.lockset, 0, a.lockset, b.lockset, a.lockset);
    var ready := locked + TakingAll(1, b.lockset);
    NextAction(ready, Begin(0, a));
    NextAction(ready + [Begin(0, a)], Begin(1, b));
    SameMutexes(Exec(ready), Exec(ready + [Begin(0, a)]), 1, b.lockset);
    assert BothRunning(Exec(ready + [Begin(0, a)] + [Begin(1, b)]), 0, a, 1, b);
  }

  lemma NothingHeld(t: Thread, left: seq<MemoryKey>, u: Thread, right: seq<MemoryKey>)
    ensures OnlyTheirs(Exec([]), t, left, u, right) && HoldsAll(Exec([]), u, []) && Exec([]).running == map[]
  {
  }

  lemma ReadersOnlySymmetric(left: seq<MemoryKey>, right: seq<MemoryKey>)
    requires ReadersOnly(left, right)
    ensures ReadersOnly(right, left)
  {
    assert forall l, r :: SameLockKey(l, r) ==> SameLockKey(r, l);
  }

  lemma TheirsSymmetric(s: State, t: Thread, left: seq<MemoryKey>, u: Thread, right: seq<MemoryKey>)
    requires OnlyTheirs(s, t, left, u, right)
    ensures OnlyTheirs(s, u, right, t, left)
  {
    hide Names;
  }

  lemma HeldIsConsistent(s: State, t: Thread, locks: seq<MemoryKey>)
    requires Inv(s) && HoldsAll(s, t, locks)
    ensures Consistent(locks)
  {
    forall l, r | l in locks && r in locks && SameLockKey(l, r)
      ensures IsReadLock(l) <==> IsReadLock(r)
    {
      assert Holds(s, t, l) && Holds(s, t, r);
      assert Mutex(s, LockBase(l)).writer.None? || Mutex(s, LockBase(l)).readers == multiset{};
    }
  }

  /** Two accesses are under way at once in some run exactly when each lockset can be held
      and what they share is read by both. */
  lemma OverlapIff(a: Access, b: Access)
    ensures CanOverlap(a, b) <==>
      Consistent(a.lockset) && Consistent(b.lockset) && ReadersOnly(a.lockset, b.lockset)
  {
    hide Consistent, Exec;
    if CanOverlap(a, b) {
      var actions, t, u :| t != u && BothRunning(Exec(actions), t, a, u, b);
      InEveryRun(actions);
      HeldIsConsistent(Exec(actions), t, a.lockset);
      HeldIsConsistent(Exec(actions), u, b.lockset);
      forall l, r | l in a.lockset && r in b.lockset && SameLockKey(l, r)
        ensures IsReadLock(l) && IsReadLock(r)
      {
        SharedIsReading(Exec(actions), t, u, l, r);
      }
    }
    if Consistent(a.lockset) && Consistent(b.lockset) && ReadersOnly(a.lockset, b.lockset) {
      OverlapWitness(a, b);
    }
  }

  /** The lockset can be held, and a write is under no read lock. */
  predicate WellLocked(a: Access) {
    Consistent(a.lockset) && (a.kind == Write ==> forall l :: l in a.lockset ==> !IsReadLock(l))
  }

  /** Exactness: two well-locked accesses, one a write, are protected exactly when no run has
      them under way at once. */
  lemma ProtectIff(a: Access, b: Access)
    requires WellLocked(a) && WellLocked(b) && (a.kind == Write || b.kind == Write)
    ensures LocksetsProtect(a, b) <==> !CanOverlap(a, b)
  {
    hide CanOverlap;
    OverlapIff(a, b);
  }

  /** A write under a read lock is not protected from a read under the write lock, though no
      run has them under way at once. */
  lemma WriteUnderReadLock(key: MemoryKey, a: Access, b: Access)
    requires a.kind == Write && a.lockset == [key.(rootID := ReadLockRootID(key.rootID))]
    requires b.kind == Read && b.lockset == [key] && !IsReadLock(key)
    ensures !LocksetsProtect(a, b) && !CanOverlap(a, b)
  {
    hide CanOverlap;
    PrefixOfReadLock(key.rootID);
    OverlapIff(a, b);
    assert SameLockKey(a.lockset[0], b.lockset[0]);
  }
}
