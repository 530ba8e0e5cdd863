/** The pre-emptible named lock (analyzer/compute_mutex.go). */
module ComputeMutex {

  // PriorityHigh = 0, PriorityNormal = 1, PriorityLow = 2
  type Priority = p: nat | p <= 2

  const HIGH: Priority := 0
  const LOW: Priority := 2

  /** An empty holder means that the lock is free. */
  datatype Mutex = Mutex(holder: string, priority: Priority, aborted: bool)

  /** (true, nil), ErrComputeAborted and ErrComputeInProgress. */
  datatype Outcome = Locked | Preempting | Busy

  const FREE := Mutex("", LOW, false)

  function TryLocked(m: Mutex, owner: string, priority: Priority): (r: (Mutex, Outcome)) {
    if m.holder == "" then (Mutex(owner, priority, false), Locked)
    else if m.holder == owner then (m, Locked)
    else if priority == HIGH && m.priority > HIGH then (m.(aborted := true), Preempting)
    else (m, Busy)
  }

  function Unlocked(m: Mutex, owner: string): Mutex {
    if owner != "" && m.holder != "" && m.holder != owner then m else FREE
  }

  class Lock {
    var holder: string
    var priority: Priority
    var aborted: bool

    constructor ()
      ensures M() == FREE
    {
      holder, priority, aborted := "", LOW, false;
    }

    ghost function M(): Mutex
      reads this
    {
      Mutex(holder, priority, aborted)
    }

    method TryLock(owner: string, priority: Priority) returns (outcome: Outcome)
      modifies this
      ensures (M(), outcome) == TryLocked(old(M()), owner, priority)
    {
      if holder == "" {
        holder := owner;
        this.priority := priority;
        aborted := false;
        return Locked;
      }
      if holder == owner {
        return Locked;
      }
      if priority == HIGH && this.priority > HIGH {
        aborted := true;
        return Preempting;
      }
      return Busy;
    }

    method Unlock(owner: string)
      modifies this
      ensures M() == Unlocked(old(M()), owner)
    {
      if owner != "" && holder != "" && holder != owner {
        return;
      }
      holder, priority, aborted := "", LOW, false;
    }

    method CheckAborted() returns (b: bool)
      ensures b == M().aborted
    {
      b := aborted;
    }
  }

  // ---------- sessions ----------

  datatype Session = Session(owner: string, priority: Priority)

  /** inside: the sessions between a successful TryLock and their Unlock; refused: since
      the lock was last taken, a high-priority contender was turned away from a holder of
      lower priority. */
  datatype Sessions = Sessions(mutex: Mutex, inside: map<nat, Session>, refused: bool)

  datatype Action =
    | Enter(id: nat, owner: string, priority: Priority)
    | Leave(id: nat)
    | StrayUnlock(owner: string)

  ghost predicate InUse(s: Sessions, owner: string) {
    exists id :: id in s.inside && s.inside[id].owner == owner
  }

  /** The hypothesis: sessions that overlap have distinct, non-empty names, and nobody
      unlocks in the name of another session. */
  ghost predicate Enabled(s: Sessions, a: Action) {
    match a
    case Enter(id, owner, _) => id !in s.inside && owner != "" && !InUse(s, owner)
    case Leave(id) => id in s.inside
    case StrayUnlock(owner) => owner != "" && !InUse(s, owner)
  }

  function Do(s: Sessions, a: Action): Sessions {
    match a
    case Enter(id, owner, priority) =>
      var (m, outcome) := TryLocked(s.mutex, owner, priority);
      Sessions(m,
            if outcome == Locked then s.inside[id := Session(owner, priority)] else s.inside,
            if outcome == Locked then false else s.refused || (priority == HIGH && s.mutex.priority > HIGH))
    case Leave(id) =>
      if id in s.inside then Sessions(Unlocked(s.mutex, s.inside[id].owner), s.inside - {id}, false) else s
    case StrayUnlock(owner) => s.(mutex := Unlocked(s.mutex, owner))
  }

  ghost function Exec(actions: seq<Action>): Sessions {
    if actions == [] then Sessions(FREE, map[], false)
    else
      var s, a := Exec(actions[..|actions| - 1]), actions[|actions| - 1];
      if Enabled(s, a) then Do(s, a) else s
  }

  ghost predicate OnlyInside(s: Sessions, id: nat) {
    s.inside == map[id := Session(s.mutex.holder, s.mutex.priority)]
  }

  ghost predicate Inv(s: Sessions) {
    && (s.mutex.holder == "" ==> s.inside == map[])
    && (s.mutex.holder != "" ==> exists id :: OnlyInside(s, id))
    && (s.mutex.aborted <==> s.refused)
    && (s.refused ==> s.mutex.holder != "" && s.mutex.priority > HIGH)
  }

  lemma DoKeeps(s: Sessions, a: Action)
    requires Inv(s) && Enabled(s, a)
    ensures Inv(Do(s, a))
  {
    if s.mutex.holder != "" {
      var id :| OnlyInside(s, id);
      assert id in s.inside;
      match a
      case Enter(_, owner, _) =>
        assert owner != s.mutex.holder;
        assert OnlyInside(Do(s, a), id);
      case Leave(other) =>
        assert other == id;
        assert s.inside - {id} == map[];
      case StrayUnlock(owner) =>
        assert owner != s.mutex.holder;
        assert OnlyInside(Do(s, a), id);
    } else if a.Enter? {
      assert OnlyInside(Do(s, a), a.id);
    }
  }

  lemma {:induction false} InEveryRun(actions: seq<Action>)
    ensures Inv(Exec(actions))
  {
    if actions != [] {
      InEveryRun(actions[..|actions| - 1]);
      if Enabled(Exec(actions[..|actions| - 1]), actions[|actions| - 1]) {
        DoKeeps(Exec(actions[..|actions| - 1]), actions[|actions| - 1]);
      }
    }
  }

  /** Mutual exclusion, in every run of distinctly named sessions. */
  lemma AtMostOneInside(actions: seq<Action>, a: nat, b: nat)
    requires a in Exec(actions).inside && b in Exec(actions).inside
    ensures a == b
  {
    InEveryRun(actions);
  }

  /** The abort flag means exactly that a high-priority contender was refused since the
      present holder came in, and that holder ranks lower. */
  lemma AbortedMeansRefused(actions: seq<Action>)
    ensures var s := Exec(actions);
      && (s.mutex.aborted <==> s.refused)
      && (s.mutex.aborted ==> s.mutex.holder != "" && s.mutex.priority > HIGH && |s.inside| == 1)
  {
    InEveryRun(actions);
    var s := Exec(actions);
    if s.mutex.aborted {
      var id :| OnlyInside(s, id);
      assert |map[id := Session(s.mutex.holder, s.mutex.priority)]| == 1;
    }
  }

  /** Only the holder's own Unlock ends its tenure: a contender never changes the holder. */
  lemma PreemptionWaits(m: Mutex, owner: string, priority: Priority)
    requires m.holder != ""
    ensures TryLocked(m, owner, priority).0.holder == m.holder
    ensures TryLocked(m, owner, priority).0.priority == m.priority
    ensures owner != "" && owner != m.holder ==> Unlocked(m, owner) == m
  {
  }

  /** When exclusion fails: with one session inside, a second one gets in exactly when
      the two have the same name or the first has the empty name. */
  lemma SecondEntersIff(first: string, p: Priority, second: string, q: Priority)
    ensures var m := TryLocked(FREE, first, p).0;
      TryLocked(m, second, q).1 == Locked <==> first == second || first == ""
  {
  }

  /** Two overlapping requests for one tool share its name: both are let in, and when
      the first one ends, a third session gets in beside the second. */
  lemma SameNameBreaksExclusion()
    ensures var m1 := TryLocked(FREE, "find_callers", HIGH);
      var m2 := TryLocked(m1.0, "find_callers", HIGH);
      var m3 := TryLocked(Unlocked(m2.0, "find_callers"), "find_dead_code", HIGH);
      m1.1 == Locked && m2.1 == Locked && m3.1 == Locked
  {
  }

  // ---------- sessions under any names ----------

  /** A session that is not inside tries to enter, one that is inside leaves. */
  predicate CanHappen(s: Sessions, a: Action) {
    match a
    case Enter(id, _, _) => id !in s.inside
    case Leave(id) => id in s.inside
    case StrayUnlock(_) => false
  }

  /** A run under any names; each session unlocks in its own name. */
  function AnyRun(actions: seq<Action>): Sessions {
    if actions == [] then Sessions(FREE, map[], false)
    else
      var s, a := AnyRun(actions[..|actions| - 1]), actions[|actions| - 1];
      if CanHappen(s, a) then Do(s, a) else s
  }

  ghost predicate Single(s: Sessions) {
    forall a, b :: a in s.inside && b in s.inside ==> a == b
  }

  /** A session tries to enter while one with the same name, or the empty name, is inside. */
  ghost predicate Clash(s: Sessions, a: Action) {
    && a.Enter? && a.id !in s.inside
    && exists id :: id in s.inside && (s.inside[id].owner == a.owner || s.inside[id].owner == "")
  }

  ghost predicate AlwaysSingle(actions: seq<Action>) {
    Single(AnyRun(actions)) && (actions != [] ==> AlwaysSingle(actions[..|actions| - 1]))
  }

  ghost predicate NeverClashes(actions: seq<Action>) {
    actions != [] ==>
      NeverClashes(actions[..|actions| - 1]) && !Clash(AnyRun(actions[..|actions| - 1]), actions[|actions| - 1])
  }

  /** Who is inside has the lock's name, and with nobody inside the lock is free. */
  ghost predicate Tidy(s: Sessions) {
    && Single(s)
    && (forall id :: id in s.inside ==> s.inside[id].owner == s.mutex.holder)
    && (s.inside == map[] ==> s.mutex.holder == "")
  }

  /** One step from a tidy state: a clash lets a second session in, anything else is tidy. */
  lemma TidyStep(s: Sessions, a: Action)
    requires Tidy(s) && CanHappen(s, a)
    ensures !Clash(s, a) ==> Tidy(Do(s, a))
    ensures Clash(s, a) ==> !Single(Do(s, a))
  {
    var r := Do(s, a);
    if a.Leave? {
      assert forall id :: id in s.inside ==> id == a.id;
      assert r.inside == map[];
    } else if Clash(s, a) {
      var id :| id in s.inside && (s.inside[id].owner == a.owner || s.inside[id].owner == "");
      assert id in r.inside && a.id in r.inside;
    } else if s.inside == map[] {
      assert r.inside == map[a.id := Session(a.owner, a.priority)];
    } else {
      var id :| id in s.inside;
      assert r.inside == s.inside;
    }
  }

  /** Exclusion holds all through a run exactly when no session enters while one with the
      same name, or the empty name, is inside. */
  lemma {:induction false} ExclusionIff(actions: seq<Action>)
    ensures AlwaysSingle(actions) <==> NeverClashes(actions)
    ensures NeverClashes(actions) ==> Tidy(AnyRun(actions))
  {
    if actions != [] {
      hide Single, Clash, Tidy, Do, CanHappen;
      var init, last := actions[..|actions| - 1], actions[|actions| - 1];
      ExclusionIff(init);
      TidyIsSingle(AnyRun(actions));
      ClashHappens(AnyRun(init), last);
      if NeverClashes(init) && CanHappen(AnyRun(init), last) {
        TidyStep(AnyRun(init), last);
      }
    }
  }

  lemma TidyIsSingle(s: Sessions)
    ensures Tidy(s) ==> Single(s)
  {
  }

  lemma ClashHappens(s: Sessions, a: Action)
    ensures Clash(s, a) ==> CanHappen(s, a)
  {
  }
}
