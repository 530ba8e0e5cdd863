/** What the Workspace cache computes (analyzer/workspace.go), as functions on its
    recency list. Entries stand most recently used first. */
module WorkspaceCache {

  type Key = string

  // LoadModeSyntax = 0, LoadModeTypes = 1, LoadModeSSA = 2
  type LoadMode = m: nat | m <= 2

  datatype Program = Program(id: nat, mode: LoadMode)

  datatype Entry = Entry(key: Key, prog: Program, lastAccess: int)

  datatype Cache = Cache(capacity: nat, ttl: int, entries: seq<Entry>)

  function Keys(es: seq<Entry>): seq<Key> {
    if es == [] then [] else [es[0].key] + Keys(es[1..])
  }

  predicate Has(es: seq<Entry>, key: Key) {
    exists i :: 0 <= i < |es| && es[i].key == key
  }

  /** The entry of a key; the first one if there were several. */
  function Get(es: seq<Entry>, key: Key): (e: Entry)
    requires Has(es, key)
    ensures e in es && e.key == key
  {
    if es[0].key == key then es[0] else Get(es[1..], key)
  }

  function Without(es: seq<Entry>, key: Key): seq<Entry> {
    if es == [] then [] else if es[0].key == key then Without(es[1..], key) else [es[0]] + Without(es[1..], key)
  }

  function Front(es: seq<Entry>, e: Entry): seq<Entry> {
    [e] + Without(es, e.key)
  }

  function Trim(es: seq<Entry>, n: nat): seq<Entry> {
    if |es| <= n then es else es[..n]
  }

  predicate Serves(c: Cache, key: Key, mode: LoadMode) {
    Has(c.entries, key) && Get(c.entries, key).prog.mode >= mode
  }

  /** First critical section of getOrLoad, when the cached program is good enough. */
  function Touch(c: Cache, key: Key, now: int): Cache
    requires Has(c.entries, key)
  {
    c.(entries := Front(c.entries, Get(c.entries, key).(lastAccess := now)))
  }

  /** Second critical section of getOrLoad, with the program just loaded. */
  function Install(c: Cache, key: Key, mode: LoadMode, prog: Program, now: int): Cache {
    if Serves(c, key, mode) then Touch(c, key, now)
    else if Has(c.entries, key) then c.(entries := Front(c.entries, Entry(key, prog, now)))
    else c.(entries := Trim([Entry(key, prog, now)] + c.entries, c.capacity))
  }

  /** The program the second critical section hands out. */
  function Landed(c: Cache, key: Key, mode: LoadMode, prog: Program): Program {
    if Serves(c, key, mode) then Get(c.entries, key).prog else prog
  }

  /** The longest prefix of the list whose last entry has not expired. */
  function DropExpired(es: seq<Entry>, ttl: int, now: int): seq<Entry> {
    if es == [] || now - es[|es| - 1].lastAccess <= ttl then es
    else DropExpired(es[..|es| - 1], ttl, now)
  }

  function Sweep(c: Cache, now: int): Cache {
    if c.ttl <= 0 then c else c.(entries := DropExpired(c.entries, c.ttl, now))
  }

  /** A capacity below one counts as one, and the least recently used entries go. */
  function Resize(c: Cache, n: int): (d: Cache)
    ensures d.capacity >= 1 && (n >= 1 ==> d.capacity == n) && (n < 1 ==> d.capacity == 1) && d.ttl == c.ttl
    ensures d.entries <= c.entries && |d.entries| <= d.capacity
    ensures |d.entries| < d.capacity ==> d.entries == c.entries
  {
    var cap := if n < 1 then 1 else n;
    c.(capacity := cap, entries := Trim(c.entries, cap))
  }

  function Remove(c: Cache, key: Key): Cache {
    c.(entries := Without(c.entries, key))
  }

  // ---------- invariants ----------

  ghost predicate DistinctKeys(es: seq<Entry>) {
    forall i, j :: 0 <= i < j < |es| ==> es[i].key != es[j].key
  }

  ghost predicate Valid(c: Cache) {
    c.capacity >= 1 && |c.entries| <= c.capacity && DistinctKeys(c.entries)
  }

  /** Most recently used first, nothing used after now. */
  ghost predicate ByRecency(es: seq<Entry>, now: int) {
    && (forall i, j :: 0 <= i < j < |es| ==> es[j].lastAccess <= es[i].lastAccess)
    && (forall i :: 0 <= i < |es| ==> es[i].lastAccess <= now)
  }

  // ---------- Without ----------

  lemma {:induction false} WithoutHas(es: seq<Entry>, key: Key)
    ensures forall e :: e in Without(es, key) <==> e in es && e.key != key
    ensures !Has(Without(es, key), key)
    ensures !Has(es, key) ==> Without(es, key) == es
  {
    if es != [] {
      WithoutHas(es[1..], key);
      assert es == [es[0]] + es[1..];
      assert !Has(es, key) ==> es[0].key != key && !Has(es[1..], key);
    }
  }

  lemma {:induction false} WithoutDistinct(es: seq<Entry>, key: Key)
    requires DistinctKeys(es)
    ensures DistinctKeys(Without(es, key))
  {
    if es != [] {
      var rest := Without(es[1..], key);
      WithoutDistinct(es[1..], key);
      WithoutHas(es[1..], key);
      assert forall i :: 0 <= i < |rest| ==> rest[i] in es[1..];
    }
  }

  /** Taking one entry out of the list is removing its key. */
  lemma {:induction false} WithoutAt(es: seq<Entry>, i: nat)
    requires DistinctKeys(es) && i < |es|
    ensures Without(es, es[i].key) == es[..i] + es[i + 1..]
  {
    hide Get, Has;
    if i == 0 {
      WithoutAbsent(es[1..], es[0].key);
    } else {
      WithoutAt(es[1..], i - 1);
      assert es[1..][..i - 1] == es[1..i] && es[1..][i..] == es[i + 1..];
    }
  }

  lemma WithoutAbsent(es: seq<Entry>, key: Key)
    requires forall i :: 0 <= i < |es| ==> es[i].key != key
    ensures Without(es, key) == es
  {
    WithoutHas(es, key);
  }

  /** Removing a key cuts its one entry out and leaves the others as they stand. */
  lemma RemoveCutsOne(c: Cache, key: Key, i: nat)
    requires DistinctKeys(c.entries)
    ensures !Has(Remove(c, key).entries, key)
    ensures !Has(c.entries, key) ==> Remove(c, key) == c
    ensures i < |c.entries| && c.entries[i].key == key ==>
      Remove(c, key) == c.(entries := c.entries[..i] + c.entries[i + 1..])
  {
    hide Without;
    WithoutHas(c.entries, key);
    if i < |c.entries| && c.entries[i].key == key {
      WithoutAt(c.entries, i);
    }
  }

  lemma {:induction false} GetAt(es: seq<Entry>, i: nat)
    requires DistinctKeys(es) && i < |es|
    ensures Has(es, es[i].key) && Get(es, es[i].key) == es[i]
  {
    if i > 0 {
      GetAt(es[1..], i - 1);
    }
  }

  lemma {:induction false} WithoutByRecency(es: seq<Entry>, key: Key, now: int)
    requires ByRecency(es, now)
    ensures ByRecency(Without(es, key), now)
  {
    hide ByRecency;
    if es != [] {
      ConsByRecency(es[0], es[1..], now);
      assert es == [es[0]] + es[1..];
      WithoutByRecency(es[1..], key, now);
      var rest := Without(es[1..], key);
      WithoutHas(es[1..], key);
      forall i | 0 <= i < |rest|
        ensures rest[i].lastAccess <= es[0].lastAccess
      {
        assert rest[i] in es[1..];
      }
      ConsByRecency(es[0], rest, now);
    }
  }

  lemma ConsByRecency(e: Entry, es: seq<Entry>, now: int)
    ensures ByRecency([e] + es, now) <==>
      ByRecency(es, now) && e.lastAccess <= now && forall i :: 0 <= i < |es| ==> es[i].lastAccess <= e.lastAccess
  {
    if ByRecency([e] + es, now) {
      forall i, j | 0 <= i < j < |es|
        ensures es[j].lastAccess <= es[i].lastAccess <= now
      {
        assert ([e] + es)[i + 1] == es[i] && ([e] + es)[j + 1] == es[j];
      }
      assert ([e] + es)[0] == e;
      assert forall i :: 0 <= i < |es| ==> es[i] == ([e] + es)[i + 1];
    }
  }

  lemma {:induction false} WithoutShorter(es: seq<Entry>, key: Key)
    ensures |Without(es, key)| <= |es| && (Has(es, key) ==> |Without(es, key)| < |es|)
  {
    if es != [] {
      WithoutShorter(es[1..], key);
      assert Has(es, key) && es[0].key != key ==> Has(es[1..], key);
    }
  }

  lemma FrontKeeps(es: seq<Entry>, e: Entry, now: int)
    requires DistinctKeys(es)
    ensures DistinctKeys(Front(es, e))
    ensures ByRecency(es, now) && e.lastAccess == now ==> ByRecency(Front(es, e), now)
    ensures |Front(es, e)| <= |es| + 1 && (Has(es, e.key) ==> |Front(es, e)| <= |es|)
  {
    hide Without, Has, Get;
    WithoutHas(es, e.key);
    WithoutDistinct(es, e.key);
    WithoutShorter(es, e.key);
    if ByRecency(es, now) {
      WithoutByRecency(es, e.key, now);
    }
    var rest := Without(es, e.key);
    assert forall i :: 0 <= i < |rest| ==> rest[i] in rest;
  }

  // ---------- every operation keeps the list valid and sorted ----------

  lemma LaterKeepsRecency(es: seq<Entry>, now: int, later: int)
    requires ByRecency(es, now) && now <= later
    ensures ByRecency(es, later)
  {
  }

  lemma TouchKeeps(c: Cache, key: Key, now: int)
    requires Valid(c) && Has(c.entries, key)
    ensures Valid(Touch(c, key, now))
    ensures ByRecency(c.entries, now) ==> ByRecency(Touch(c, key, now).entries, now)
  {
    FrontKeeps(c.entries, Get(c.entries, key).(lastAccess := now), now);
  }

  lemma InstallKeeps(c: Cache, key: Key, mode: LoadMode, prog: Program, now: int)
    requires Valid(c)
    ensures Valid(Install(c, key, mode, prog, now))
    ensures ByRecency(c.entries, now) ==> ByRecency(Install(c, key, mode, prog, now).entries, now)
  {
    if Has(c.entries, key) {
      TouchKeeps(c, key, now);
      FrontKeeps(c.entries, Entry(key, prog, now), now);
    }
  }

  lemma {:induction false} DropExpiredIsPrefix(es: seq<Entry>, ttl: int, now: int)
    ensures DropExpired(es, ttl, now) <= es
    ensures forall i :: |DropExpired(es, ttl, now)| <= i < |es| ==> now - es[i].lastAccess > ttl
  {
    if es != [] && now - es[|es| - 1].lastAccess > ttl {
      DropExpiredIsPrefix(es[..|es| - 1], ttl, now);
    }
  }

  /** Because the list is sorted, stopping at the first fresh tail entry drops exactly
      the entries idle for longer than the TTL and keeps the order of the others. */
  lemma SweepIsExact(c: Cache, now: int)
    requires ByRecency(c.entries, now)
    ensures Sweep(c, now).entries == if c.ttl <= 0 then c.entries else Fresh(c.entries, c.ttl, now)
  {
    if c.ttl > 0 {
      DropIsFresh(c.entries, c.ttl, now);
    }
  }

  /** The entries idle for at most ttl, in order. */
  function Fresh(es: seq<Entry>, ttl: int, now: int): seq<Entry> {
    if es == [] then []
    else Fresh(es[..|es| - 1], ttl, now) + if now - es[|es| - 1].lastAccess <= ttl then [es[|es| - 1]] else []
  }

  lemma {:induction false} DropIsFresh(es: seq<Entry>, ttl: int, now: int)
    requires ByRecency(es, now)
    ensures DropExpired(es, ttl, now) == Fresh(es, ttl, now)
  {
    if es != [] {
      if now - es[|es| - 1].lastAccess <= ttl {
        AllFresh(es, ttl, now);
      } else {
        DropIsFresh(es[..|es| - 1], ttl, now);
      }
    }
  }

  lemma {:induction false} AllFresh(es: seq<Entry>, ttl: int, now: int)
    requires forall i :: 0 <= i < |es| ==> now - es[i].lastAccess <= ttl
    ensures Fresh(es, ttl, now) == es
  {
    if es != [] {
      AllFresh(es[..|es| - 1], ttl, now);
      assert es == es[..|es| - 1] + [es[|es| - 1]];
    }
  }

  /** After a load has landed its key is cached, first and with the program handed out: the
      cached one if its mode is good enough, else the one just loaded. */
  lemma LandedIsCached(c: Cache, key: Key, mode: LoadMode, prog: Program, now: int, i: nat)
    requires Valid(c)
    ensures var es := Install(c, key, mode, prog, now).entries;
      es != [] && es[0] == Entry(key, Landed(c, key, mode, prog), now)
    ensures i < |c.entries| && c.entries[i].key == key ==>
      Landed(c, key, mode, prog) == if c.entries[i].prog.mode >= mode then c.entries[i].prog else prog
    ensures (forall e :: e in c.entries ==> e.key != key) ==> Landed(c, key, mode, prog) == prog
  {
    if i < |c.entries| && c.entries[i].key == key {
      GetAt(c.entries, i);
    }
  }

  // ---------- least recently used ----------

  function KeysWithout(ks: seq<Key>, key: Key): seq<Key> {
    if ks == [] then [] else if ks[0] == key then KeysWithout(ks[1..], key) else [ks[0]] + KeysWithout(ks[1..], key)
  }

  function FirstKeys(ks: seq<Key>, n: nat): seq<Key> {
    if |ks| <= n then ks else ks[..n]
  }

  /** The distinct keys of an access trace, latest access first. */
  function Recent(trace: seq<Key>): seq<Key> {
    if trace == [] then []
    else
      var last := trace[|trace| - 1];
      [last] + KeysWithout(Recent(trace[..|trace| - 1]), last)
  }

  /** A successful getOrLoad call. */
  datatype Access = Access(key: Key, mode: LoadMode, prog: Program, now: int)

  function GetOrLoad(c: Cache, a: Access): Cache {
    if Serves(c, a.key, a.mode) then Touch(c, a.key, a.now) else Install(c, a.key, a.mode, a.prog, a.now)
  }

  function Accesses(c: Cache, accesses: seq<Access>): Cache {
    if accesses == [] then c else GetOrLoad(Accesses(c, accesses[..|accesses| - 1]), accesses[|accesses| - 1])
  }

  function TraceOf(accesses: seq<Access>): seq<Key> {
    if accesses == [] then [] else TraceOf(accesses[..|accesses| - 1]) + [accesses[|accesses| - 1].key]
  }

  lemma {:induction false} KeysWithoutMatches(es: seq<Entry>, key: Key)
    ensures Keys(Without(es, key)) == KeysWithout(Keys(es), key)
  {
    if es != [] {
      KeysWithoutMatches(es[1..], key);
      if es[0].key != key {
        assert ([es[0]] + Without(es[1..], key))[1..] == Without(es[1..], key);
      }
    }
  }

  lemma {:induction false} KeysAre(es: seq<Entry>)
    ensures |Keys(es)| == |es| && forall i :: 0 <= i < |es| ==> Keys(es)[i] == es[i].key
    ensures forall k :: k in Keys(es) <==> Has(es, k)
  {
    if es != [] {
      KeysAre(es[1..]);
      assert forall i :: 1 <= i < |es| ==> es[i] == es[1..][i - 1];
    }
  }

  lemma {:induction false} KeysTrim(es: seq<Entry>, n: nat)
    ensures Keys(Trim(es, n)) == FirstKeys(Keys(es), n)
  {
    KeysAre(es);
    KeysAre(Trim(es, n));
  }

  lemma {:induction false} KeysWithoutAbsent(ks: seq<Key>, key: Key)
    ensures forall k :: k in KeysWithout(ks, key) <==> k in ks && k != key
    ensures key !in ks ==> KeysWithout(ks, key) == ks
  {
    if ks != [] {
      KeysWithoutAbsent(ks[1..], key);
    }
  }

  /** Whatever the modes, a successful call moves its key to the front and cuts the tail. */
  lemma GetOrLoadKeys(c: Cache, a: Access)
    requires Valid(c)
    ensures Keys(GetOrLoad(c, a).entries) == FirstKeys([a.key] + KeysWithout(Keys(c.entries), a.key), c.capacity)
    ensures Valid(GetOrLoad(c, a)) && GetOrLoad(c, a).capacity == c.capacity
  {
    InstallKeeps(c, a.key, a.mode, a.prog, a.now);
    KeysAre(c.entries);
    if Has(c.entries, a.key) {
      TouchKeeps(c, a.key, a.now);
      FrontKeys(c.entries, Get(c.entries, a.key).(lastAccess := a.now));
      FrontKeys(c.entries, Entry(a.key, a.prog, a.now));
      KeysAre(GetOrLoad(c, a).entries);
    } else {
      KeysWithoutAbsent(Keys(c.entries), a.key);
      var es := [Entry(a.key, a.prog, a.now)] + c.entries;
      assert es[1..] == c.entries;
      KeysTrim(es, c.capacity);
    }
  }

  lemma FrontKeys(es: seq<Entry>, e: Entry)
    ensures Keys(Front(es, e)) == [e.key] + KeysWithout(Keys(es), e.key)
  {
    KeysWithoutMatches(es, e.key);
    assert Front(es, e)[1..] == Without(es, e.key);
  }

  /** Cutting the list before or after a touch is the same, as long as the front stays. */
  lemma {:induction false} WithoutOfFirst(ks: seq<Key>, key: Key, n: nat)
    requires n >= 1
    requires forall i, j :: 0 <= i < j < |ks| ==> ks[i] != ks[j]
    ensures FirstKeys([key] + KeysWithout(FirstKeys(ks, n), key), n) == FirstKeys([key] + KeysWithout(ks, key), n)
  {
    hide KeysWithout, FirstKeys;
    FirstWithout(ks, key, n);
    FirstCons(key, KeysWithout(FirstKeys(ks, n), key), n);
    FirstCons(key, KeysWithout(ks, key), n);
  }

  /** The first n - 1 other keys can be read off the first n keys. */
  lemma {:induction false} FirstWithout(ks: seq<Key>, key: Key, n: nat)
    requires n >= 1
    requires forall i, j :: 0 <= i < j < |ks| ==> ks[i] != ks[j]
    ensures FirstKeys(KeysWithout(FirstKeys(ks, n), key), n - 1) == FirstKeys(KeysWithout(ks, key), n - 1)
  {
    if |ks| > n {
      var first := ks[..n];
      assert first[0] == ks[0] && first[1..] == FirstKeys(ks[1..], n - 1);
      if ks[0] == key {
        KeysWithoutAbsent(ks[1..], key);
        KeysWithoutAbsent(first[1..], key);
      } else if n > 1 {
        FirstWithout(ks[1..], key, n - 1);
        FirstCons(ks[0], KeysWithout(first[1..], key), n - 1);
        FirstCons(ks[0], KeysWithout(ks[1..], key), n - 1);
      }
    }
  }

  lemma FirstCons(k: Key, ks: seq<Key>, n: nat)
    requires n >= 1
    ensures FirstKeys([k] + ks, n) == [k] + FirstKeys(ks, n - 1)
  {
  }

  lemma {:induction false} RecentDistinct(trace: seq<Key>)
    ensures forall i, j :: 0 <= i < j < |Recent(trace)| ==> Recent(trace)[i] != Recent(trace)[j]
  {
    if trace != [] {
      RecentDistinct(trace[..|trace| - 1]);
      KeysWithoutDistinct(Recent(trace[..|trace| - 1]), trace[|trace| - 1]);
    }
  }

  lemma {:induction false} KeysWithoutDistinct(ks: seq<Key>, key: Key)
    requires forall i, j :: 0 <= i < j < |ks| ==> ks[i] != ks[j]
    ensures forall i, j :: 0 <= i < j < |KeysWithout(ks, key)| ==> KeysWithout(ks, key)[i] != KeysWithout(ks, key)[j]
    ensures forall i :: 0 <= i < |KeysWithout(ks, key)| ==>
      KeysWithout(ks, key)[i] in ks && KeysWithout(ks, key)[i] != key
  {
    if ks != [] {
      KeysWithoutDistinct(ks[1..], key);
    }
  }

  /** The LRU law: after any run of successful calls the cached keys are the first
      capacity distinct keys of the access trace read backwards. */
  lemma {:induction false} KeepsMostRecent(c: Cache, accesses: seq<Access>)
    requires c.capacity >= 1 && c.entries == []
    ensures Valid(Accesses(c, accesses)) && Accesses(c, accesses).capacity == c.capacity
    ensures Keys(Accesses(c, accesses).entries) == FirstKeys(Recent(TraceOf(accesses)), c.capacity)
  {
    if accesses != [] {
      var init, a := accesses[..|accesses| - 1], accesses[|accesses| - 1];
      KeepsMostRecent(c, init);
      GetOrLoadKeys(Accesses(c, init), a);
      RecentDistinct(TraceOf(init));
      WithoutOfFirst(Recent(TraceOf(init)), a.key, c.capacity);
      assert TraceOf(accesses)[..|TraceOf(accesses)| - 1] == TraceOf(init);
    }
  }

  /** A larger cache keeps all that a smaller one keeps, in the same order; and the
      entry just touched is there in both. */
  lemma LargerKeepsMore(c: Cache, d: Cache, accesses: seq<Access>)
    requires 1 <= c.capacity <= d.capacity && c.entries == [] == d.entries
    ensures Keys(Accesses(c, accesses).entries) <= Keys(Accesses(d, accesses).entries)
    ensures accesses != [] ==>
      var ks := Keys(Accesses(c, accesses).entries);
      |ks| > 0 && ks[0] == accesses[|accesses| - 1].key
  {
    KeepsMostRecent(c, accesses);
    KeepsMostRecent(d, accesses);
  }
}
