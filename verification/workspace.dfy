/** The cache structure of Workspace (analyzer/workspace.go): a map and a recency
    list that share their entries. */
module Workspace {
  import opened Wrappers
  import opened WorkspaceCache

  /** Lists with the same keys that differ at i only agree once that key is taken out. */
  lemma SameOthers(es: seq<Entry>, fs: seq<Entry>, i: nat)
    requires |es| == |fs| && i < |fs| && DistinctKeys(fs)
    requires forall j :: 0 <= j < |es| ==> es[j].key == fs[j].key && (j != i ==> es[j] == fs[j])
    ensures Without(es, fs[i].key) == Without(fs, fs[i].key)
  {
    hide Without, Has, Get;
    WithoutAt(es, i);
    WithoutAt(fs, i);
    assert es[..i] == fs[..i] && es[i + 1..] == fs[i + 1..];
  }

  class CacheEntry {
    const key: Key
    var prog: Program
    var lastAccess: int

    constructor (key: Key, prog: Program, lastAccess: int)
      ensures this.key == key && this.prog == prog && this.lastAccess == lastAccess
    {
      this.key, this.prog, this.lastAccess := key, prog, lastAccess;
    }

    ghost function Snapshot(): Entry
      reads this
    {
      Entry(key, prog, lastAccess)
    }
  }

  /** The list's current contents. */
  ghost function Snapshots(order: seq<CacheEntry>): (es: seq<Entry>)
    reads order
    ensures |es| == |order| && forall i :: 0 <= i < |order| ==> es[i] == order[i].Snapshot()
  {
    seq(|order|, i requires 0 <= i < |order| reads order => order[i].Snapshot())
  }

  ghost predicate DistinctEntries(order: seq<CacheEntry>) {
    forall i, j :: 0 <= i < j < |order| ==> order[i].key != order[j].key
  }

  /** The list without its i-th entry. */
  function Minus(order: seq<CacheEntry>, i: nat): seq<CacheEntry>
    requires i < |order|
  {
    order[..i] + order[i + 1..]
  }

  lemma MinusElements(order: seq<CacheEntry>, i: nat)
    requires DistinctEntries(order) && i < |order|
    ensures |Minus(order, i)| == |order| - 1
    ensures forall e :: e in Minus(order, i) <==> e in order && e != order[i]
    ensures forall e :: e in Minus(order, i) ==> e.key != order[i].key
    ensures DistinctEntries(Minus(order, i)) && DistinctEntries([order[i]] + Minus(order, i))
  {
    var rest := Minus(order, i);
    forall e | e in order && e != order[i]
      ensures e in rest
    {
      var j :| 0 <= j < |order| && order[j] == e;
      assert rest[if j < i then j else j - 1] == e;
    }
    assert forall k :: 0 <= k < |rest| ==> rest[k] == order[if k < i then k else k + 1];
  }

  lemma MinusSnapshots(order: seq<CacheEntry>, i: nat)
    requires DistinctEntries(order) && i < |order|
    ensures Snapshots(Minus(order, i)) == Without(Snapshots(order), order[i].key)
  {
    WithoutAt(Snapshots(order), i);
  }

  lemma FrontSnapshots(order: seq<CacheEntry>, i: nat)
    requires DistinctEntries(order) && i < |order|
    ensures Snapshots([order[i]] + Minus(order, i)) == Front(Snapshots(order), order[i].Snapshot())
  {
    MinusSnapshots(order, i);
    assert Snapshots([order[i]] + Minus(order, i)) == [order[i].Snapshot()] + Snapshots(Minus(order, i));
  }

  lemma ConsDistinct(e: CacheEntry, order: seq<CacheEntry>)
    requires DistinctEntries(order) && forall f :: f in order ==> f.key != e.key
    ensures DistinctEntries([e] + order)
  {
  }

  lemma ConsSnapshots(e: CacheEntry, order: seq<CacheEntry>)
    ensures Snapshots([e] + order) == [e.Snapshot()] + Snapshots(order)
  {
  }

  class Workspace {
    var capacity: nat
    var ttl: int
    var cache: map<Key, CacheEntry>
    var order: seq<CacheEntry>

    /** Map and list hold the same entries, each under its own key. */
    ghost predicate Linked()
      reads this
    {
      && DistinctEntries(order)
      && (forall e :: e in order ==> e.key in cache && cache[e.key] == e)
      && (forall k :: k in cache ==> cache[k] in order && cache[k].key == k)
    }

    ghost predicate Valid()
      reads this
    {
      Linked() && capacity >= 1 && |order| <= capacity
    }

    ghost function Abs(): Cache
      reads this, order
    {
      Cache(capacity, ttl, Snapshots(order))
    }

    constructor (capacity: nat)
      requires capacity >= 1
      ensures Valid() && Abs() == Cache(capacity, 900, [])
    {
      this.capacity, ttl, cache, order := capacity, 900, map[], [];
    }

    lemma CacheIsList(key: Key)
      requires Linked()
      ensures DistinctKeys(Snapshots(order))
      ensures key in cache <==> Has(Snapshots(order), key)
      ensures key in cache ==> Get(Snapshots(order), key) == cache[key].Snapshot()
    {
      if key in cache {
        var i :| 0 <= i < |order| && order[i] == cache[key];
        GetAt(Snapshots(order), i);
      }
    }

    /** list.PushFront, and the entry of the map. */
    method PushFront(e: CacheEntry)
      requires Linked() && e.key !in cache
      modifies this`order, this`cache
      ensures Linked() && order == [e] + old(order)
      ensures Snapshots(order) == [e.Snapshot()] + old(Snapshots(order))
    {
      hide DistinctEntries, Snapshots;
      ConsDistinct(e, order);
      ConsSnapshots(e, order);
      order := [e] + order;
      cache := cache[e.key := e];
    }

    /** list.MoveToFront. */
    method MoveToFront(e: CacheEntry)
      requires Linked() && e in order
      modifies this`order
      ensures Linked() && |order| == |old(order)| && forall f :: f in order <==> f in old(order)
      ensures Snapshots(order) == Front(Snapshots(old(order)), e.Snapshot())
    {
      hide Minus, DistinctEntries, Without, Front, Snapshots;
      var i :| 0 <= i < |order| && order[i] == e;
      MinusElements(order, i);
      FrontSnapshots(order, i);
      order := [e] + Minus(order, i);
    }

    /** list.Remove and deletion from the map. */
    method Drop(e: CacheEntry)
      requires Linked() && e in order
      modifies this`order, this`cache
      ensures Linked() && |order| < |old(order)| && forall f :: f in order ==> f in old(order)
      ensures Snapshots(order) == Without(Snapshots(old(order)), e.key)
    {
      hide Minus, DistinctEntries, Without, Front, Snapshots;
      var i :| 0 <= i < |order| && order[i] == e;
      MinusElements(order, i);
      MinusSnapshots(order, i);
      cache := map k | k in cache && k != e.key :: cache[k];
      order := Minus(order, i);
    }

    /** evictLocked. */
    method EvictLocked()
      requires Linked()
      modifies this`order, this`cache
      ensures Linked() && |order| <= capacity && forall f :: f in order ==> f in old(order)
      ensures Snapshots(order) == Trim(Snapshots(old(order)), capacity)
    {
      while |order| > capacity
        invariant Linked() && order <= old(order)
        invariant |order| >= capacity || order == old(order)
      {
        RemoveBack();
      }
    }

    /** Removal of the last entry, from the list and from the map. */
    method RemoveBack()
      requires Linked() && |order| > 0
      modifies this`order, this`cache
      ensures Linked() && order == old(order)[..|old(order)| - 1]
    {
      var tail := order[|order| - 1];
      hide DistinctEntries;
      MinusElements(order, |order| - 1);
      assert Minus(order, |order| - 1) == order[..|order| - 1];
      cache := map k | k in cache && k != tail.key :: cache[k];
      order := order[..|order| - 1];
    }

    /** sweep, at time now. */
    method SweepAt(now: int)
      requires Valid()
      modifies this`order, this`cache
      ensures Valid() && Abs() == Sweep(old(Abs()), now)
    {
      hide Linked, DistinctEntries;
      if ttl <= 0 {
        return;
      }
      ghost var before := Snapshots(order);
      while |order| > 0
        invariant Valid() && forall f :: f in order ==> f in old(order)
        invariant DropExpired(Snapshots(order), ttl, now) == DropExpired(before, ttl, now)
      {
        var entry := order[|order| - 1];
        if now - entry.lastAccess > ttl {
          assert Snapshots(order[..|order| - 1]) == Snapshots(order)[..|order| - 1];
          RemoveBack();
        } else {
          break;
        }
      }
    }

    /** SetCapacity. */
    method SetCapacity(n: int)
      requires Valid()
      modifies this`capacity, this`order, this`cache
      ensures Valid() && Abs() == Resize(old(Abs()), n)
    {
      capacity := if n < 1 then 1 else n;
      EvictLocked();
    }

    /** Invalidate and Clear, for an already computed key; Clear returns the flag. */
    method Clear(key: Key) returns (existed: bool)
      requires Valid()
      modifies this`order, this`cache
      ensures Valid() && Abs() == Remove(old(Abs()), key)
      ensures existed == Has(old(Abs()).entries, key)
    {
      CacheIsList(key);
      if key in cache {
        Drop(cache[key]);
        return true;
      }
      WithoutHas(Snapshots(order), key);
      return false;
    }

    /** ClearAll. */
    method ClearAll() returns (removed: nat)
      requires Valid()
      modifies this`order, this`cache
      ensures Valid() && Abs() == old(Abs()).(entries := []) && removed == |old(order)|
    {
      removed := |order|;
      cache, order := map[], [];
    }

    /** First critical section of getOrLoad, at time now. */
    method Lookup(key: Key, mode: LoadMode, now: int) returns (prog: Option<Program>)
      requires Valid()
      modifies this`order, order
      ensures Valid()
      ensures if Serves(old(Abs()), key, mode) then
          Abs() == Touch(old(Abs()), key, now) && prog == Some(Get(old(Abs()).entries, key).prog)
        else Abs() == old(Abs()) && prog == None
    {
      CacheIsList(key);
      if key in cache {
        var entry := cache[key];
        if entry.prog.mode >= mode {
          prog := Some(entry.prog);
          ghost var before := Snapshots(order);
          entry.lastAccess := now;
          MoveUpdated(entry, before);
          return;
        }
      }
      return None;
    }

    /** MoveToFront of an entry whose fields were just assigned. */
    method MoveUpdated(e: CacheEntry, ghost before: seq<Entry>)
      requires Linked() && e in order && |before| == |order|
      requires forall i :: 0 <= i < |order| ==> before[i].key == order[i].key
      requires forall i :: 0 <= i < |order| && order[i] != e ==> before[i] == order[i].Snapshot()
      modifies this`order
      ensures Linked() && |order| == |old(order)| && forall f :: f in order <==> f in old(order)
      ensures Snapshots(order) == Front(before, e.Snapshot())
    {
      var i :| 0 <= i < |order| && order[i] == e;
      SameOthers(before, Snapshots(order), i);
      MoveToFront(e);
    }

    /** Second critical section of getOrLoad: the loaded program meets the cache. */
    method Land(key: Key, mode: LoadMode, loaded: Program, now: int) returns (prog: Program)
      requires Valid()
      modifies this`order, this`cache, order
      ensures Valid()
      ensures Abs() == Install(old(Abs()), key, mode, loaded, now)
      ensures prog == Landed(old(Abs()), key, mode, loaded)
    {
      hide Linked, Without, Get, Has, Front, Trim, DistinctEntries;
      CacheIsList(key);
      if key in cache {
        prog := LandOnEntry(key, mode, loaded, now);
      } else {
        LandNew(key, loaded, now);
        prog := loaded;
      }
    }

    /** The branch of an entry that is there. */
    method LandOnEntry(key: Key, mode: LoadMode, loaded: Program, now: int) returns (prog: Program)
      requires Valid() && key in cache
      modifies this`order, order
      ensures Valid()
      ensures Abs() == Install(old(Abs()), key, mode, loaded, now)
      ensures prog == Landed(old(Abs()), key, mode, loaded)
    {
      hide Without, Get, Has, Front, Trim, DistinctEntries;
      CacheIsList(key);
      ghost var before := Snapshots(order);
      var entry := cache[key];
      if entry.prog.mode >= mode {
        entry.lastAccess := now;
        MoveUpdated(entry, before);
        return entry.prog;
      }
      entry.prog := loaded;
      entry.lastAccess := now;
      MoveUpdated(entry, before);
      return loaded;
    }

    /** The branch of a new key. */
    method LandNew(key: Key, loaded: Program, now: int)
      requires Valid() && key !in cache
      modifies this`order, this`cache
      ensures Valid()
      ensures Abs() == old(Abs()).(entries := Trim([Entry(key, loaded, now)] + old(Abs()).entries, capacity))
    {
      hide Trim, DistinctEntries, Linked, Snapshots;
      ghost var before := Snapshots(order);
      var entry := new CacheEntry(key, loaded, now);
      PushFront(entry);
      assert Snapshots(order) == [Entry(key, loaded, now)] + before;
      EvictLocked();
    }
  }
}
