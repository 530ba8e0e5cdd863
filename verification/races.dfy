/** From summaries to the report: what the locks of global accesses are taken for
    (analyzer/dataflow.go, analyzer/concurrency.go). */
module Races {
  import opened Wrappers
  import opened MemoryKeys
  import opened Dataflow
  import opened Locksets
  import opened Risks

  /** The access as the lockset of its function is meant: with the caller's locks. */
  function Meant(params: Params, a: Access, args: seq<MemoryKey>): Access {
    a.(lockset := SubstituteLockset(params, a.lockset, args, map[]))
  }

  /** Two goroutines run one function that touches a global under the lock it is given, each
      with a lock of its own. With the locks that were given the accesses are a race; with the
      locks they are collected with they are none. */
  lemma GlobalLocksHideARace(sums: Summaries, f: Fn, w: Access, r: Access, l: MemoryKey, m1: MemoryKey, m2: MemoryKey)
    requires f in sums && FiledAt(sums[f], GlobalAccess, w) && FiledAt(sums[f], GlobalAccess, r)
    requires w.key == r.key && w.kind == Write && !(w.atomic && r.atomic) && w.goroutineID == r.goroutineID == ""
    requires w.lockset == r.lockset == [l] && l.kind == Param && !IsReadLock(l)
    requires FirstNamed(sums[f].params, l.rootID, 0)
    requires m1.rootID != m2.rootID && !IsReadLock(m1) && !IsReadLock(m2)
    ensures var first, second := Spawn(Some(f), [m1], map[], "g1"), Spawn(Some(f), [m2], map[], "g2");
      exists a, b ::
        && a in SpawnAccesses(sums, first) && b in SpawnAccesses(sums, second)
        && !RacyPair(a, b) && Race(Meant(sums[f].params, a, [m1]), Meant(sums[f].params, b, [m2]))
  {
    hide FiledAt, FirstNamed, RacyPair, Race, Expanded;
    var a := SpawnedAccess(sums, f, w, m1, "g1");
    var b := SpawnedAccess(sums, f, r, m2, "g2");
    MeantLocks(sums[f].params, a, l, m1);
    MeantLocks(sums[f].params, b, l, m2);
    LocksTell(a, b, l, m1, m2, Meant(sums[f].params, a, [m1]), Meant(sums[f].params, b, [m2]));
  }

  lemma SpawnedAccess(sums: Summaries, f: Fn, r: Access, m: MemoryKey, id: string) returns (a: Access)
    requires f in sums && FiledAt(sums[f], GlobalAccess, r) && r.goroutineID == ""
    ensures a == r.(inGoroutine := true, goroutineID := id)
    ensures a in SpawnAccesses(sums, Spawn(Some(f), [m], map[], id))
  {
    hide FiledAt, SubstituteLockset, SpawnAccesses;
    var spawn, env := Spawn(Some(f), [m], map[], id), Env(f, [m], map[]);
    var b := Adapt(sums[f].params, GlobalAccess, r, env, id);
    a := b.(inGoroutine := true, goroutineID := id);
    assert SeenAs(sums, env, id, b, [], GlobalAccess, r);
    assert OfSpawn(sums, spawn, a);
    SpawnAccessesAre(sums, spawn, a);
  }

  lemma MeantLocks(params: Params, a: Access, l: MemoryKey, m: MemoryKey)
    requires a.lockset == [l] && l.kind == Param && !IsReadLock(l) && FirstNamed(params, l.rootID, 0)
    ensures Meant(params, a, [m]) == a.(lockset := [SubstituteRoot(l, m)])
  {
    hide FirstNamed;
    ParamIndexIsFirst(params, l.rootID, 0);
    assert SubstituteLockset(params, [l], [m], map[]) == [SubstituteRoot(l, m)];
  }

  lemma LocksTell(a: Access, b: Access, l: MemoryKey, m1: MemoryKey, m2: MemoryKey, a': Access, b': Access)
    requires a.key == b.key && a.kind == Write && !(a.atomic && b.atomic)
    requires a.goroutineID == "g1" && b.goroutineID == "g2" && a.lockset == b.lockset == [l] && !IsReadLock(l)
    requires m1.rootID != m2.rootID && !IsReadLock(m1) && !IsReadLock(m2)
    requires a' == a.(lockset := [SubstituteRoot(l, m1)]) && b' == b.(lockset := [SubstituteRoot(l, m2)])
    ensures !RacyPair(a, b) && Race(a', b')
  {
    assert SameLockKey(l, l) && l in a.lockset && l in b.lockset;
    assert !SameLockKey(SubstituteRoot(l, m1), SubstituteRoot(l, m2));
    assert "g1" != "g2" && "g1" != "" && "g2" != "";
    assert RacyPair(a', b');
    RacyPairIff(a', b');
  }
}
