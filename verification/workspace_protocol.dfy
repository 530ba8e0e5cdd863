/** Any number of getOrLoad calls at once (analyzer/workspace.go): each runs its two
    critical sections, and the load between them, interleaved with the others and
    with sweeps, resizes and removals. Loads of one key and mode share a flight. */
module WorkspaceProtocol {
  import opened WorkspaceCache

  datatype Call =
    | Asked(key: Key, mode: LoadMode)
    | Missed(key: Key, mode: LoadMode)
    | Joined(key: Key, mode: LoadMode)
    | Got(key: Key, mode: LoadMode, prog: Program)
    | Failed(key: Key, mode: LoadMode)

  /** The singleflight call for a key and mode, until its result is handed out. */
  datatype Flight = Loading | Loaded(prog: Program) | Settled(prog: Program)

  datatype State = State(cache: Cache, clock: int, calls: map<nat, Call>, flights: map<(Key, LoadMode), Flight>)

  datatype Action =
    | Ask(id: nat, key: Key, mode: LoadMode)
    | Look(id: nat, now: int)
    | Join(id: nat)
    | LoadSucceeds(key: Key, mode: LoadMode, prog: Program)
    | LoadFails(key: Key, mode: LoadMode)
    | Land(key: Key, mode: LoadMode, now: int)
    | Deliver(key: Key, mode: LoadMode)
    | SweepAt(now: int)
    | SetCapacity(n: int)
    | SetTTL(ttl: int)
    | Clear(key: Key)
    | ClearAll

  predicate Enabled(s: State, a: Action) {
    match a
    case Ask(id, _, _) => id !in s.calls
    case Look(id, now) => id in s.calls && s.calls[id].Asked? && s.clock <= now
    case Join(id) => id in s.calls && s.calls[id].Missed?
    case LoadSucceeds(key, mode, prog) => (key, mode) in s.flights && s.flights[(key, mode)].Loading? &&
      prog.mode == mode
    case LoadFails(key, mode) => (key, mode) in s.flights && s.flights[(key, mode)].Loading?
    case Land(key, mode, now) => (key, mode) in s.flights && s.flights[(key, mode)].Loaded? && s.clock <= now
    case Deliver(key, mode) => (key, mode) in s.flights && s.flights[(key, mode)].Settled?
    case SweepAt(now) => s.clock <= now
    case _ => true
  }

  /** All calls that share the flight see its outcome. */
  function Answer(calls: map<nat, Call>, key: Key, mode: LoadMode, outcome: Call): map<nat, Call> {
    map id | id in calls :: if calls[id] == Joined(key, mode) then outcome else calls[id]
  }

  function Do(s: State, a: Action): State
    requires Enabled(s, a)
  {
    match a
    case Ask(id, key, mode) => s.(calls := s.calls[id := Asked(key, mode)])
    case Look(id, now) =>
      var c := s.calls[id];
      if Serves(s.cache, c.key, c.mode) then
        s.(cache := Touch(s.cache, c.key, now), clock := now,
           calls := s.calls[id := Got(c.key, c.mode, Get(s.cache.entries, c.key).prog)])
      else s.(clock := now, calls := s.calls[id := Missed(c.key, c.mode)])
    case Join(id) =>
      var c := s.calls[id];
      var flight := (c.key, c.mode);
      s.(calls := s.calls[id := Joined(c.key, c.mode)],
         flights := if flight in s.flights then s.flights else s.flights[flight := Loading])
    case LoadSucceeds(key, mode, prog) => s.(flights := s.flights[(key, mode) := Loaded(prog)])
    case LoadFails(key, mode) =>
      s.(flights := s.flights - {(key, mode)}, calls := Answer(s.calls, key, mode, Failed(key, mode)))
    case Land(key, mode, now) =>
      var prog := s.flights[(key, mode)].prog;
      s.(cache := Install(s.cache, key, mode, prog, now), clock := now,
         flights := s.flights[(key, mode) := Settled(Landed(s.cache, key, mode, prog))])
    case Deliver(key, mode) =>
      var prog := s.flights[(key, mode)].prog;
      s.(flights := s.flights - {(key, mode)}, calls := Answer(s.calls, key, mode, Got(key, mode, prog)))
    case SweepAt(now) => s.(cache := Sweep(s.cache, now), clock := now)
    case SetCapacity(n) => s.(cache := Resize(s.cache, n))
    case SetTTL(ttl) => s.(cache := s.cache.(ttl := ttl))
    case Clear(key) => s.(cache := Remove(s.cache, key))
    case ClearAll => s.(cache := s.cache.(entries := []))
  }

  /** Actions that are not enabled do not happen. */
  function Exec(s: State, actions: seq<Action>): State {
    if actions == [] then s
    else
      var t, a := Exec(s, actions[..|actions| - 1]), actions[|actions| - 1];
      if Enabled(t, a) then Do(t, a) else t
  }

  ghost predicate Inv(s: State) {
    && Valid(s.cache) && ByRecency(s.cache.entries, s.clock)
    && (forall id :: id in s.calls && s.calls[id].Got? ==> s.calls[id].prog.mode >= s.calls[id].mode)
    && (forall f :: f in s.flights && !s.flights[f].Loading? ==> s.flights[f].prog.mode >= f.1)
    && (forall id :: id in s.calls && s.calls[id].Joined? ==> (s.calls[id].key, s.calls[id].mode) in s.flights)
  }

  lemma TrimKeeps(es: seq<Entry>, n: nat, now: int)
    requires DistinctKeys(es)
    ensures DistinctKeys(Trim(es, n)) && |Trim(es, n)| <= n
    ensures ByRecency(es, now) ==> ByRecency(Trim(es, n), now)
  {
  }

  lemma CacheStepKeeps(c: Cache, clock: int, d: Cache, now: int, a: Action)
    requires Valid(c) && ByRecency(c.entries, clock) && clock <= now
    requires d == match a
      case Look(_, _) => c
      case SweepAt(_) => Sweep(c, now)
      case SetCapacity(n) => Resize(c, n)
      case SetTTL(ttl) => c.(ttl := ttl)
      case Clear(key) => Remove(c, key)
      case ClearAll => c.(entries := [])
      case _ => c
    ensures Valid(d) && ByRecency(d.entries, now)
  {
    LaterKeepsRecency(c.entries, clock, now);
    match a
    case SweepAt(_) => DropExpiredIsPrefix(c.entries, c.ttl, now);
    case SetCapacity(n) => TrimKeeps(c.entries, d.capacity, now);
    case Clear(key) =>
      WithoutDistinct(c.entries, key);
      WithoutByRecency(c.entries, key, now);
      WithoutShorter(c.entries, key);
    case _ =>
  }

  lemma DoKeeps(s: State, a: Action)
    requires Inv(s) && Enabled(s, a)
    ensures Inv(Do(s, a))
  {
    hide Valid, ByRecency, Has, Get, Without, Trim, DropExpired;
    var t := Do(s, a);
    match a
    case Look(id, now) =>
      LaterKeepsRecency(s.cache.entries, s.clock, now);
      if Serves(s.cache, s.calls[id].key, s.calls[id].mode) {
        TouchKeeps(s.cache, s.calls[id].key, now);
      }
    case Land(key, mode, now) =>
      LaterKeepsRecency(s.cache.entries, s.clock, now);
      InstallKeeps(s.cache, key, mode, s.flights[(key, mode)].prog, now);
    case _ => CacheStepKeeps(s.cache, s.clock, t.cache, t.clock, a);
  }

  /** In every interleaving: the list has distinct keys, at most capacity of them, and
      is sorted by last use; a caller that asked for a mode got at least that mode; and
      whoever waits for a load waits for one that is still under way. */
  lemma {:induction false} InEveryRun(capacity: nat, actions: seq<Action>)
    requires capacity >= 1
    ensures Inv(Exec(State(Cache(capacity, 900, []), 0, map[], map[]), actions))
  {
    if actions != [] {
      var s := Exec(State(Cache(capacity, 900, []), 0, map[], map[]), actions[..|actions| - 1]);
      InEveryRun(capacity, actions[..|actions| - 1]);
      if Enabled(s, actions[|actions| - 1]) {
        DoKeeps(s, actions[|actions| - 1]);
      }
    }
  }

  /** A call is answered from the cache exactly when an entry of its key has its mode or a
      larger one, and then with that entry's program; otherwise it goes on to load. */
  lemma LookIff(s: State, id: nat, now: int, i: nat)
    requires Inv(s) && Enabled(s, Look(id, now))
    ensures var call, t := s.calls[id], Do(s, Look(id, now));
      && t.flights == s.flights
      && (i < |s.cache.entries| && s.cache.entries[i].key == call.key ==>
            t.calls[id] == if s.cache.entries[i].prog.mode >= call.mode
              then Got(call.key, call.mode, s.cache.entries[i].prog) else Missed(call.key, call.mode))
      && ((forall e :: e in s.cache.entries ==> e.key != call.key) ==> t.calls[id] == Missed(call.key, call.mode))
  {
    if i < |s.cache.entries| && s.cache.entries[i].key == s.calls[id].key {
      GetAt(s.cache.entries, i);
    }
  }

  function Stage(f: Flight): nat {
    match f
    case Loading => 0
    case Loaded(_) => 1
    case Settled(_) => 2
  }

  /** A flight is never begun again while it is under way: it goes on or stays as it is, and
      ends only in its own delivery or failure. */
  lemma FlightsAdvance(s: State, a: Action, f: (Key, LoadMode))
    requires Enabled(s, a) && f in s.flights
    ensures var t := Do(s, a);
      if f in t.flights then t.flights[f] == s.flights[f] || Stage(t.flights[f]) == Stage(s.flights[f]) + 1
      else a == Deliver(f.0, f.1) || a == LoadFails(f.0, f.1)
  {
    hide Serves, Touch, Install, Landed, Sweep, Remove, Answer;
  }

  /** While a key stays cached its mode never goes down. */
  lemma ModeNeverDrops(s: State, a: Action, key: Key)
    requires Inv(s) && Enabled(s, a)
    requires Has(s.cache.entries, key) && Has(Do(s, a).cache.entries, key)
    ensures Get(Do(s, a).cache.entries, key).prog.mode >= Get(s.cache.entries, key).prog.mode
  {
    hide Has, Get, Without, Trim, Valid, ByRecency, DropExpired;
    match a
    case Look(id, now) =>
      if Serves(s.cache, s.calls[id].key, s.calls[id].mode) {
        FrontGets(s.cache.entries, Get(s.cache.entries, s.calls[id].key).(lastAccess := now), key);
      }
    case Land(k, mode, now) => InstallNeverDrops(s.cache, k, mode, s.flights[(k, mode)].prog, now, key);
    case SweepAt(now) =>
      DropExpiredIsPrefix(s.cache.entries, s.cache.ttl, now);
      PrefixGets(Do(s, a).cache.entries, s.cache.entries, key);
    case SetCapacity(n) =>
      TrimIsPrefix(s.cache.entries, Do(s, a).cache.capacity);
      PrefixGets(Do(s, a).cache.entries, s.cache.entries, key);
    case Clear(k) => WithoutGets(s.cache.entries, k, key);
    case _ =>
  }

  lemma InstallNeverDrops(c: Cache, k: Key, mode: LoadMode, prog: Program, now: int, key: Key)
    requires prog.mode >= mode && Has(c.entries, key) && Has(Install(c, k, mode, prog, now).entries, key)
    ensures Get(Install(c, k, mode, prog, now).entries, key).prog.mode >= Get(c.entries, key).prog.mode
  {
    hide Has, Get, Without, Trim;
    if Serves(c, k, mode) {
      FrontGets(c.entries, Get(c.entries, k).(lastAccess := now), key);
    } else if Has(c.entries, k) {
      FrontGets(c.entries, Entry(k, prog, now), key);
    } else {
      var es := [Entry(k, prog, now)] + c.entries;
      TrimIsPrefix(es, c.capacity);
      PrefixGets(Trim(es, c.capacity), es, key);
      ConsGets(Entry(k, prog, now), c.entries, key);
    }
  }

  lemma ConsGets(e: Entry, es: seq<Entry>, key: Key)
    requires !Has(es, e.key) && Has(es, key)
    ensures Has([e] + es, key) && Get([e] + es, key) == Get(es, key)
  {
    var fs := [e] + es;
    var i :| 0 <= i < |es| && es[i].key == key;
    assert fs[i + 1].key == key;
    assert fs[1..] == es;
  }

  lemma TrimIsPrefix(es: seq<Entry>, n: nat)
    ensures Trim(es, n) <= es
  {
  }

  lemma {:induction false} WithoutGets(es: seq<Entry>, k: Key, key: Key)
    requires Has(es, key) && Has(Without(es, k), key)
    ensures Get(Without(es, k), key) == Get(es, key)
  {
    WithoutHas(es, k);
    if es[0].key == k {
      assert Has(es[1..], key);
      WithoutGets(es[1..], k, key);
    } else if es[0].key != key {
      assert ([es[0]] + Without(es[1..], k))[1..] == Without(es[1..], k);
      WithoutGets(es[1..], k, key);
    }
  }

  lemma FrontGets(es: seq<Entry>, e: Entry, key: Key)
    requires Has(es, key)
    ensures Has(Front(es, e), key)
    ensures Get(Front(es, e), key) == if key == e.key then e else Get(es, key)
  {
    var front := Front(es, e);
    assert front[0] == e && front[1..] == Without(es, e.key);
    if key != e.key {
      WithoutHas(es, e.key);
      assert Get(es, key) in Without(es, e.key);
      var i :| 0 <= i < |front[1..]| && front[1..][i] == Get(es, key);
      assert front[i + 1].key == key;
      assert Has(Without(es, e.key), key);
      WithoutGets(es, e.key, key);
    }
  }

  lemma {:induction false} PrefixGets(es: seq<Entry>, fs: seq<Entry>, key: Key)
    requires es <= fs && Has(es, key)
    ensures Has(fs, key) && Get(fs, key) == Get(es, key)
  {
    assert forall i :: 0 <= i < |es| ==> es[i] == fs[i];
    if es[0].key != key {
      assert Has(es[1..], key);
      PrefixGets(es[1..], fs[1..], key);
    }
  }
}
