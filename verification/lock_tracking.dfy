/** The lockset a function scan keeps up to date (analyzer/dataflow.go), and why an access
    recorded with it happens only while those locks are held. */
module LockTracking {
  import opened Wrappers
  import opened MemoryKeys
  import opened Locksets

  datatype Name = NameLock | NameUnlock | NameRLock | NameRUnlock

  function NameOf(name: string): Option<Name> {
    if name == "Lock" then Some(NameLock)
    else if name == "Unlock" then Some(NameUnlock)
    else if name == "RLock" then Some(NameRLock)
    else if name == "RUnlock" then Some(NameRUnlock)
    else None
  }

  /** A call of a lock method on the mutex with this key; deferred: in a defer statement. */
  datatype LockCall = LockCall(name: Name, key: MemoryKey, deferred: bool)

  function AsRead(key: MemoryKey): MemoryKey {
    key.(rootID := ReadLockRootID(key.rootID))
  }

  function Added(locks: seq<MemoryKey>, key: MemoryKey): seq<MemoryKey> {
    if key in locks then locks else locks + [key]
  }

  /** The first entry with this key is cut out. */
  function Removed(locks: seq<MemoryKey>, key: MemoryKey): seq<MemoryKey> {
    if locks == [] then [] else if locks[0] == key then locks[1..] else [locks[0]] + Removed(locks[1..], key)
  }

  /** A deferred Lock counts at once; a deferred Unlock does not count at all. */
  function Recorded(locks: seq<MemoryKey>, c: LockCall): seq<MemoryKey> {
    match c.name
    case NameLock => Added(locks, c.key)
    case NameRLock => Added(locks, AsRead(c.key))
    case NameUnlock => if c.deferred then locks else Removed(locks, c.key)
    case NameRUnlock => if c.deferred then locks else Removed(locks, AsRead(c.key))
  }

  /** The lockset after the calls met so far, in the order of the scan. */
  function Tracked(calls: seq<LockCall>): seq<MemoryKey> {
    if calls == [] then [] else Recorded(Tracked(calls[..|calls| - 1]), calls[|calls| - 1])
  }

  class Builder {
    var lockset: seq<MemoryKey>

    constructor ()
      ensures lockset == []
    {
      lockset := [];
    }

    method AddLock(key: MemoryKey)
      modifies this
      ensures lockset == Added(old(lockset), key)
    {
      for i := 0 to |lockset|
        invariant lockset == old(lockset) && key !in lockset[..i]
      {
        if lockset[i] == key {
          return;
        }
      }
      lockset := lockset + [key];
    }

    method AddReadLock(key: MemoryKey)
      modifies this
      ensures lockset == Added(old(lockset), AsRead(key))
    {
      AddLock(AsRead(key));
    }

    method RemoveLock(key: MemoryKey)
      modifies this
      ensures lockset == Removed(old(lockset), key)
    {
      for i := 0 to |lockset|
        invariant lockset == old(lockset)
        invariant Removed(lockset, key) == lockset[..i] + Removed(lockset[i..], key)
      {
        if lockset[i] == key {
          lockset := lockset[..i] + lockset[i + 1..];
          return;
        }
        assert lockset[i..][1..] == lockset[i + 1..];
      }
    }

    method RemoveReadLock(key: MemoryKey)
      modifies this
      ensures lockset == Removed(old(lockset), AsRead(key))
    {
      RemoveLock(AsRead(key));
    }

    /** recordLockCall: whether the method of this name is a lock call; when it has an
        argument, and that has a key, it is recorded. */
    method RecordLockCall(name: string, hasArgs: bool, key: Option<MemoryKey>, deferred: bool) returns (isLock: bool)
      modifies this
      ensures isLock <==> NameOf(name).Some?
      ensures lockset ==
        if isLock && hasArgs && key.Some? then Recorded(old(lockset), LockCall(NameOf(name).value, key.value, deferred))
        else old(lockset)
    {
      if name != "Lock" && name != "Unlock" && name != "RLock" && name != "RUnlock" {
        return false;
      }
      if !hasArgs || key.None? {
        return true;
      }
      if name == "Lock" {
        AddLock(key.value);
      } else if name == "RLock" {
        AddReadLock(key.value);
      } else if name == "Unlock" {
        if !deferred {
          RemoveLock(key.value);
        }
      } else if !deferred {
        RemoveReadLock(key.value);
      }
      return true;
    }
  }

  // ---------- what the lockset says about a run ----------

  /** The lock method a step of a thread is. */
  function CallOf(a: Action): (c: LockCall)
    requires a.Lock? || a.RLock? || a.Unlock? || a.RUnlock?
  {
    match a
    case Lock(_, key) => LockCall(NameLock, key, false)
    case RLock(_, key) => LockCall(NameRLock, key, false)
    case Unlock(_, key) => LockCall(NameUnlock, key, false)
    case RUnlock(_, key) => LockCall(NameRUnlock, key, false)
  }

  /** The lock methods that t went through in a run, in order. */
  function CallsOf(actions: seq<Action>, t: Thread): seq<LockCall> {
    if actions == [] then []
    else
      var init, a := actions[..|actions| - 1], actions[|actions| - 1];
      CallsOf(init, t) +
      if a.t == t && !a.Begin? && !a.End? && Enabled(Exec(init), a) then [CallOf(a)] else []
  }

  ghost predicate NoDuplicates(locks: seq<MemoryKey>) {
    forall i, j :: 0 <= i < j < |locks| ==> locks[i] != locks[j]
  }

  lemma {:induction false} RemovedIs(locks: seq<MemoryKey>, key: MemoryKey)
    requires NoDuplicates(locks)
    ensures NoDuplicates(Removed(locks, key))
    ensures forall l :: l in Removed(locks, key) <==> l in locks && l != key
  {
    if locks != [] {
      RemovedIs(locks[1..], key);
      var rest := Removed(locks[1..], key);
      assert locks == [locks[0]] + locks[1..];
      assert forall i :: 0 <= i < |rest| ==> rest[i] in rest;
    }
  }

  /** No two entries are the same. */
  lemma {:induction false} TrackedDistinct(calls: seq<LockCall>)
    ensures NoDuplicates(Tracked(calls))
  {
    if calls != [] {
      var init, c := calls[..|calls| - 1], calls[|calls| - 1];
      TrackedDistinct(init);
      RemovedIs(Tracked(init), c.key);
      RemovedIs(Tracked(init), AsRead(c.key));
    }
  }

  lemma ReadKey(key: MemoryKey)
    ensures IsReadLock(AsRead(key)) && LockBase(AsRead(key)) == key
    ensures !IsReadLock(key) ==> LockBase(key) == key
  {
  }

  ghost predicate Matches(s: State, t: Thread, locks: seq<MemoryKey>) {
    && HoldsAll(s, t, locks)
    && forall l :: !IsReadLock(l) && Holds(s, t, l) ==> l in locks
  }

  /** In every run, with other threads at work in between: the locks that the scan has
      recorded for the lock calls t went through are held by t, in the recorded modes; and
      of the locks t holds for writing none is missing. Keys with the read prefix of their
      own are shut out. */
  lemma {:induction false} TrackedAreHeld(actions: seq<Action>, t: Thread)
    requires forall i :: 0 <= i < |actions| && !actions[i].Begin? && !actions[i].End? ==> !IsReadLock(actions[i].key)
    ensures Matches(Exec(actions), t, Tracked(CallsOf(actions, t)))
  {
    hide Matches, Enabled, Do, Recorded;
    if actions == [] {
      NothingMatches(t);
    } else {
      var init, a := actions[..|actions| - 1], actions[|actions| - 1];
      var calls := CallsOf(init, t);
      TrackedAreHeld(init, t);
      InEveryRun(init);
      TrackedDistinct(calls);
      assert calls + [] == calls;
      if Enabled(Exec(init), a) {
        if a.Begin? || a.End? || a.t != t {
          OthersMatch(Exec(init), a, t, Tracked(calls));
        } else {
          assert (calls + [CallOf(a)])[..|calls|] == calls;
          OwnMatches(Exec(init), a, Tracked(calls));
        }
      }
    }
  }

  lemma NothingMatches(t: Thread)
    ensures Matches(State(map[], map[]), t, [])
  {
  }

  lemma OthersMatch(s: State, a: Action, t: Thread, locks: seq<MemoryKey>)
    requires Inv(s) && Enabled(s, a) && Matches(s, t, locks)
    requires a.Begin? || a.End? || (a.t != t && !IsReadLock(a.key))
    ensures Matches(Do(s, a), t, locks)
  {
    if a.Begin? || a.End? {
      assert forall l :: Holds(Do(s, a), t, l) <==> Holds(s, t, l);
    } else {
      OthersKeepLocks(s, a, t, locks);
      forall l | !IsReadLock(l) && Holds(Do(s, a), t, l)
        ensures l in locks
      {
        assert Holds(s, t, l);
      }
    }
  }

  lemma OwnMatches(s: State, a: Action, locks: seq<MemoryKey>)
    requires Inv(s) && Enabled(s, a) && !a.Begin? && !a.End? && !IsReadLock(a.key)
    requires Matches(s, a.t, locks) && NoDuplicates(locks)
    ensures Matches(Do(s, a), a.t, Recorded(locks, CallOf(a)))
  {
    hide Holds, Inv, Enabled, Do, Removed, IsReadLock, ReadLockRootID;
    var r, after := Do(s, a), Recorded(locks, CallOf(a));
    RemovedIs(locks, a.key);
    RemovedIs(locks, AsRead(a.key));
    ReadKey(a.key);
    forall l
      ensures l in after ==> Holds(r, a.t, l)
      ensures !IsReadLock(l) && Holds(r, a.t, l) ==> l in after
    {
      OneLock(s, a, l);
    }
  }

  /** What a thread's own step does to one lock. */
  lemma OneLock(s: State, a: Action, l: MemoryKey)
    requires Inv(s) && Enabled(s, a) && !a.Begin? && !a.End? && !IsReadLock(a.key)
    ensures a.Lock? && l == a.key ==> Holds(Do(s, a), a.t, l)
    ensures a.Lock? && l != a.key ==> (Holds(Do(s, a), a.t, l) <==> Holds(s, a.t, l))
    ensures a.RLock? && l == AsRead(a.key) ==> Holds(Do(s, a), a.t, l)
    ensures a.RLock? && l != AsRead(a.key) ==> (Holds(Do(s, a), a.t, l) <==> Holds(s, a.t, l))
    ensures a.Unlock? && l == a.key ==> !Holds(Do(s, a), a.t, l)
    ensures a.Unlock? && l != a.key ==> (Holds(Do(s, a), a.t, l) <==> Holds(s, a.t, l))
    ensures a.RUnlock? && l != AsRead(a.key) ==> (Holds(Do(s, a), a.t, l) <==> Holds(s, a.t, l))
  {
    ReadKey(l);
    ReadKey(a.key);
    ReadBack(l);
    assert Mutex(s, a.key).writer.None? || Mutex(s, a.key).readers == multiset{};
  }

  /** A read entry is its lock's. */
  lemma ReadBack(l: MemoryKey)
    ensures IsReadLock(l) ==> l == AsRead(LockBase(l))
  {
  }

  // ---------- deferred calls ----------

  /** The calls that are made where they stand. */
  function Immediate(calls: seq<LockCall>): seq<LockCall> {
    if calls == [] then []
    else
      var last := calls[|calls| - 1];
      Immediate(calls[..|calls| - 1]) + if last.deferred then [] else [last]
  }

  predicate IsUnlock(c: LockCall) {
    c.name == NameUnlock || c.name == NameRUnlock
  }

  /** Deferred unlocks leave no trace in the lockset, as they leave none in the run until
      the function returns. */
  lemma {:induction false} DeferredUnlocksDoNotCount(calls: seq<LockCall>)
    requires forall i :: 0 <= i < |calls| && calls[i].deferred ==> IsUnlock(calls[i])
    ensures Tracked(calls) == Tracked(Immediate(calls))
  {
    if calls != [] {
      var init, last := calls[..|calls| - 1], calls[|calls| - 1];
      DeferredUnlocksDoNotCount(init);
      assert (Immediate(init) + [last])[..|Immediate(init)|] == Immediate(init);
      assert Immediate(init) + [] == Immediate(init);
    }
  }

  /** So what a scan has recorded is held, as long as only unlocks are deferred: an access
      recorded with the tracked lockset may begin. */
  lemma RecordedAccessMayBegin(actions: seq<Action>, t: Thread, calls: seq<LockCall>, access: Access)
    requires forall i :: 0 <= i < |actions| && !actions[i].Begin? && !actions[i].End? ==> !IsReadLock(actions[i].key)
    requires Immediate(calls) == CallsOf(actions, t)
    requires forall i :: 0 <= i < |calls| && calls[i].deferred ==> IsUnlock(calls[i])
    requires t !in Exec(actions).running && access.lockset == Tracked(calls)
    ensures Enabled(Exec(actions), Begin(t, access))
  {
    TrackedAreHeld(actions, t);
    DeferredUnlocksDoNotCount(calls);
  }

  /** The lock that a taking call is about, in its mode. */
  function TakenBy(c: LockCall): MemoryKey {
    if c.name == NameLock then c.key else AsRead(c.key)
  }

  /** With all recorded locks held, a further deferred call leaves it so exactly when it
      unlocks, or takes a lock the thread holds in that mode already. */
  lemma DeferredCallIff(s: State, t: Thread, locks: seq<MemoryKey>, c: LockCall)
    requires c.deferred && HoldsAll(s, t, locks)
    ensures HoldsAll(s, t, Recorded(locks, c)) <==> IsUnlock(c) || Holds(s, t, TakenBy(c))
  {
    if !IsUnlock(c) {
      assert TakenBy(c) in Recorded(locks, c);
    }
  }

  /** A function that begins with a deferred Lock: the scan records the lock, nobody holds
      it, and an access recorded with it may not begin. */
  lemma DeferredLockIsNotHeld(t: Thread, access: Access)
    requires var mu := MemoryKey(Global, "p.mu", "", []);
      access.lockset == Tracked([LockCall(NameLock, mu, true)])
    ensures var mu := MemoryKey(Global, "p.mu", "", []);
      && access.lockset == [mu]
      && Immediate([LockCall(NameLock, mu, true)]) == CallsOf([], t)
      && !Enabled(Exec([]), Begin(t, access))
  {
    var mu := MemoryKey(Global, "p.mu", "", []);
    var call := LockCall(NameLock, mu, true);
    assert [call][..0] == [];
    assert access.lockset == [mu];
    assert !IsReadLock(mu) && !Holds(Exec([]), t, mu);
  }

  // ---------- branches ----------

  /** The scan walks all blocks in order, whatever path the thread takes. A lock it has
      recorded for writing is held exactly when the calls of the thread's own path leave it
      recorded too. */
  lemma ScannedLockIff(actions: seq<Action>, t: Thread, scanned: seq<LockCall>, l: MemoryKey)
    requires forall i :: 0 <= i < |actions| && !actions[i].Begin? && !actions[i].End? ==> !IsReadLock(actions[i].key)
    requires l in Tracked(scanned) && !IsReadLock(l)
    ensures Holds(Exec(actions), t, l) <==> l in Tracked(CallsOf(actions, t))
  {
    TrackedAreHeld(actions, t);
  }

  /** A write behind `if c { mu.Lock() }`, on the path that does not take the lock: the scan
      has recorded the lock, the thread has made no call, and the access may not begin. */
  lemma BranchedLockIsNotHeld(t: Thread, access: Access)
    requires var mu := MemoryKey(Global, "p.mu", "", []);
      access.lockset == Tracked([LockCall(NameLock, mu, false)])
    ensures var mu := MemoryKey(Global, "p.mu", "", []);
      && access.lockset == [mu]
      && CallsOf([], t) == []
      && !Enabled(Exec([]), Begin(t, access))
  {
    var mu := MemoryKey(Global, "p.mu", "", []);
    var call := LockCall(NameLock, mu, false);
    assert [call][..0] == [];
    assert access.lockset == [mu];
    assert !IsReadLock(mu) && !Holds(Exec([]), t, mu);
  }
}
