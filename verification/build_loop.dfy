/** SyncManager.backgroundBuildLoop (analyzer/sync_manager.go) among the goroutines that
    submit requests and the tools that take the same lock. Every step is one critical
    section; runRebuild only succeeds or fails. */
module BuildLoop {
  import opened Wrappers
  import opened ComputeMutex
  import opened RebuildQueue

  const OWNER := "sync-manager"

  /** Where the loop stands, with the request in its hand. */
  datatype Point =
    | Head
    | Taken(req: Request)
    | Holding(req: Request)
    | Building(req: Request)
    | GivingUp(req: Request)
    | Bouncing(req: Request)
    | Requeued
    | Built(req: Request, ok: bool)
    | Released(req: Request, ok: bool)

  datatype State = State(
    queue: Queue, mutex: Mutex, at: Point,
    submitted: multiset<Request>, completed: multiset<Request>, failed: multiset<Request>)

  datatype Action =
    | LoopStep(now: nat, buildOk: bool)
    | Submit(req: Request, now: nat)
    | AbortQueue(reason: string)
    | ToolTryLock(owner: string, priority: Priority)
    | ToolUnlock(owner: string)

  predicate Enabled(s: State, a: Action) {
    match a
    case LoopStep(now, _) => now > 0 && (s.at.Head? ==> s.queue.pending != [])
    case Submit(_, now) => now > 0
    case AbortQueue(_) => true
    case ToolTryLock(owner, _) => owner != "" && owner != OWNER
    case ToolUnlock(owner) => owner != "" && owner != OWNER
  }

  /** The loop's next critical section. */
  function Step(s: State, now: nat, buildOk: bool): State
    requires s.at.Head? ==> s.queue.pending != []
  {
    match s.at
    case Head => s.(queue := Dequeued(s.queue), at := Taken(s.queue.pending[0]))
    case Taken(req) =>
      var (m, outcome) := TryLocked(s.mutex, OWNER, req.priority);
      s.(mutex := m, at := if outcome == Locked then Holding(req) else Bouncing(req))
    case Holding(req) => s.(at := if s.mutex.aborted then GivingUp(req) else Building(req))
    case GivingUp(req) => s.(mutex := Unlocked(s.mutex, OWNER), at := Bouncing(req))
    case Bouncing(req) => s.(queue := Enqueued(s.queue, req, now), at := Requeued)
    case Requeued => s.(queue := Finished(s.queue), at := Head)
    case Building(req) => s.(at := Built(req, buildOk))
    case Built(req, ok) => s.(mutex := Unlocked(s.mutex, OWNER), at := Released(req, ok))
    case Released(req, ok) =>
      s.(queue := Finished(s.queue), at := Head,
         completed := if ok then s.completed + multiset{req} else s.completed,
         failed := if ok then s.failed else s.failed + multiset{req})
  }

  function Do(s: State, a: Action): State
    requires Enabled(s, a)
  {
    match a
    case LoopStep(now, buildOk) => Step(s, now, buildOk)
    case Submit(req, now) =>
      s.(queue := Enqueued(s.queue, req, now), submitted := s.submitted + multiset{Stamped(req, now)})
    case AbortQueue(reason) => s.(queue := s.queue.(aborted := true, reason := reason))
    case ToolTryLock(owner, priority) => s.(mutex := TryLocked(s.mutex, owner, priority).0)
    case ToolUnlock(owner) => s.(mutex := Unlocked(s.mutex, owner))
  }

  function Exec(actions: seq<Action>): State {
    if actions == [] then State(Queue([], None, false, ""), FREE, Head, multiset{}, multiset{}, multiset{})
    else
      var s, a := Exec(actions[..|actions| - 1]), actions[|actions| - 1];
      if Enabled(s, a) then Do(s, a) else s
  }

  function InHand(at: Point): multiset<Request> {
    if at.Head? || at.Requeued? then multiset{} else multiset{at.req}
  }

  /** Every submitted request is waiting, in the loop's hand, completed or failed, once. */
  ghost predicate Conserved(s: State) {
    s.submitted == Accounted(s)
  }

  function Accounted(s: State): multiset<Request> {
    multiset(s.queue.pending) + InHand(s.at) + s.completed + s.failed
  }

  /** The loop owns the lock in exactly the stretch from TryLock to Unlock. */
  ghost predicate LockDiscipline(s: State) {
    s.mutex.holder == OWNER <==> s.at.Holding? || s.at.GivingUp? || s.at.Building? || s.at.Built?
  }

  ghost predicate ActiveDiscipline(s: State) {
    && (s.at.Head? <==> s.queue.active.None?)
    && (!s.at.Head? && !s.at.Requeued? ==> s.queue.active == Some(s.at.req))
  }

  ghost predicate AllStamped(s: State) {
    && (forall i :: 0 <= i < |s.queue.pending| ==> s.queue.pending[i].createdAt > 0)
    && (!s.at.Head? && !s.at.Requeued? ==> s.at.req.createdAt > 0)
  }

  ghost predicate Inv(s: State) {
    Conserved(s) && LockDiscipline(s) && ActiveDiscipline(s) && Sorted(s.queue.pending) && AllStamped(s)
  }

  lemma EnqueueKeepsStamps(q: Queue, r: Request, now: nat)
    requires now > 0 && forall i :: 0 <= i < |q.pending| ==> q.pending[i].createdAt > 0
    ensures forall i :: 0 <= i < |Enqueued(q, r, now).pending| ==> Enqueued(q, r, now).pending[i].createdAt > 0
  {
    EnqueueSorts(q, r, now);
    var out := Enqueued(q, r, now).pending;
    forall i | 0 <= i < |out|
      ensures out[i].createdAt > 0
    {
      assert out[i] in multiset(out);
      if out[i] != Stamped(r, now) {
        assert out[i] in multiset(q.pending);
      }
    }
  }

  /** A request moves from the queue to the hand, back, or on to the results. */
  lemma Regroup<T>(p: multiset<T>, r: T, c: multiset<T>, f: multiset<T>)
    ensures (multiset{r} + p) + multiset{} + c + f == p + multiset{r} + c + f
    ensures p + multiset{r} + c + f == (p + multiset{r}) + multiset{} + c + f
    ensures p + multiset{r} + c + f == p + multiset{} + (c + multiset{r}) + f
    ensures p + multiset{r} + c + f == p + multiset{} + c + (f + multiset{r})
  {
  }

  lemma HeadConserves(s: State, now: nat, buildOk: bool)
    requires s.at.Head? && s.queue.pending != []
    ensures Accounted(Step(s, now, buildOk)) == Accounted(s)
  {
    var r, rest := s.queue.pending[0], s.queue.pending[1..];
    assert s.queue.pending == [r] + rest;
    Regroup(multiset(rest), r, s.completed, s.failed);
  }

  lemma BounceConserves(s: State, now: nat, buildOk: bool)
    requires s.at.Bouncing? && AllStamped(s)
    ensures Accounted(Step(s, now, buildOk)) == Accounted(s)
  {
    hide Enqueued, AllStamped;
    BounceStamps(s, now);
    Regroup(multiset(s.queue.pending), s.at.req, s.completed, s.failed);
  }

  lemma ReleasedConserves(s: State, now: nat, buildOk: bool)
    requires s.at.Released?
    ensures Accounted(Step(s, now, buildOk)) == Accounted(s)
  {
    Regroup(multiset(s.queue.pending), s.at.req, s.completed, s.failed);
  }

  lemma OtherConserves(s: State, now: nat, buildOk: bool)
    requires !s.at.Head? && !s.at.Bouncing? && !s.at.Released?
    ensures Accounted(Step(s, now, buildOk)) == Accounted(s)
  {
    hide TryLocked, Unlocked, Enqueued, Dequeued;
    var t := Step(s, now, buildOk);
    assert t.queue.pending == s.queue.pending && InHand(t.at) == InHand(s.at);
  }

  lemma StepConserves(s: State, now: nat, buildOk: bool)
    requires Conserved(s) && AllStamped(s) && (s.at.Head? ==> s.queue.pending != [])
    ensures Conserved(Step(s, now, buildOk))
  {
    hide Accounted, AllStamped, Enqueued, Dequeued, Finished, TryLocked, Unlocked;
    if s.at.Head? {
      HeadConserves(s, now, buildOk);
    } else if s.at.Bouncing? {
      BounceConserves(s, now, buildOk);
    } else if s.at.Released? {
      ReleasedConserves(s, now, buildOk);
    } else {
      OtherConserves(s, now, buildOk);
    }
  }

  lemma BounceStamps(s: State, now: nat)
    requires s.at.Bouncing? && AllStamped(s)
    ensures multiset(Enqueued(s.queue, s.at.req, now).pending) == multiset(s.queue.pending) + multiset{s.at.req}
  {
    EnqueueSorts(s.queue, s.at.req, now);
  }

  lemma DoConserves(s: State, a: Action)
    requires Inv(s) && Enabled(s, a)
    ensures Conserved(Do(s, a))
  {
    hide Enqueued, Step, Sorted, LockDiscipline, ActiveDiscipline, TryLocked, Unlocked;
    match a
    case LoopStep(now, buildOk) => StepConserves(s, now, buildOk);
    case Submit(req, now) => EnqueueSorts(s.queue, req, now);
    case _ =>
  }

  lemma DoKeepsOrder(s: State, a: Action)
    requires Inv(s) && Enabled(s, a)
    ensures Sorted(Do(s, a).queue.pending) && AllStamped(Do(s, a))
  {
    hide StableSort, Sorted, Conserved, LockDiscipline, ActiveDiscipline, TryLocked, Unlocked;
    match a
    case LoopStep(now, _) =>
      match s.at {
        case Head => OldestFirst(s.queue, s.queue.pending[0]);
        case Bouncing(req) =>
          EnqueueSorts(s.queue, req, now);
          EnqueueKeepsStamps(s.queue, req, now);
        case _ =>
      }
    case Submit(req, now) =>
      EnqueueSorts(s.queue, req, now);
      EnqueueKeepsStamps(s.queue, req, now);
    case _ =>
  }

  lemma DoKeeps(s: State, a: Action)
    requires Inv(s) && Enabled(s, a)
    ensures Inv(Do(s, a))
  {
    hide StableSort, Sorted, Conserved, AllStamped;
    DoConserves(s, a);
    DoKeepsOrder(s, a);
  }

  /** In every interleaving no request is lost or doubled, the loop holds its lock only
      between TryLock and Unlock, and the queue stays sorted. */
  lemma {:induction false} InEveryRun(actions: seq<Action>)
    ensures Inv(Exec(actions))
  {
    if actions != [] {
      InEveryRun(actions[..|actions| - 1]);
      if Enabled(Exec(actions[..|actions| - 1]), actions[|actions| - 1]) {
        DoKeeps(Exec(actions[..|actions| - 1]), actions[|actions| - 1]);
      }
    }
  }

  /** At each loop head the loop's lock is free, nothing is active, and every submitted
      request is pending, completed or failed. */
  lemma AtLoopHead(actions: seq<Action>)
    requires Exec(actions).at.Head?
    ensures var s := Exec(actions);
      && s.mutex.holder != OWNER && s.queue.active.None?
      && s.submitted == multiset(s.queue.pending) + s.completed + s.failed
  {
    InEveryRun(actions);
  }

  /** A bounce puts the very same request back, before every waiting request of its
      priority that was created later. */
  lemma BounceKeepsPlace(actions: seq<Action>, now: nat, buildOk: bool, i: nat, j: nat)
    requires Exec(actions).at.Bouncing? && now > 0
    requires var p := Step(Exec(actions), now, buildOk).queue.pending;
      && i < |p| && j < |p| && p[i] == Exec(actions).at.req
      && p[j].priority == p[i].priority && p[i].createdAt < p[j].createdAt
    ensures i < j
    ensures multiset(Step(Exec(actions), now, buildOk).queue.pending) ==
      multiset(Exec(actions).queue.pending) + multiset{Exec(actions).at.req}
  {
    hide StableSort, Exec, Insert;
    InEveryRun(actions);
    EnqueueSorts(Exec(actions).queue, Exec(actions).at.req, now);
  }

  /** In every run the loop takes a request of the highest priority that waits, and of those
      one that is oldest. */
  lemma TakesOldest(actions: seq<Action>, now: nat, buildOk: bool, r: Request)
    requires Exec(actions).at.Head? && r in Exec(actions).queue.pending
    ensures var t := Step(Exec(actions), now, buildOk);
      && t.at.Taken? && t.queue.active == Some(t.at.req) && t.at.req.priority <= r.priority
      && (t.at.req.priority == r.priority ==> t.at.req.createdAt <= r.createdAt)
  {
    hide Exec, Sorted;
    InEveryRun(actions);
    OldestFirst(Exec(actions).queue, r);
  }

  // ---------- what becomes of a request ----------

  /** The k-th action is a high-priority tool's TryLock that was turned away, and the loop has
      held the lock from then on. */
  ghost predicate Refused(actions: seq<Action>, k: nat) {
    && k < |actions| && actions[k].ToolTryLock? && actions[k].priority == HIGH
    && Enabled(Exec(actions[..k]), actions[k])
    && TryLocked(Exec(actions[..k]).mutex, actions[k].owner, HIGH).1 != Locked
    && forall j :: k <= j <= |actions| ==> Exec(actions[..j]).mutex.holder == OWNER
  }

  ghost predicate RefusedSince(actions: seq<Action>) {
    exists k :: Refused(actions, k)
  }

  lemma NextAction(actions: seq<Action>, a: Action)
    ensures Exec(actions + [a]) == if Enabled(Exec(actions), a) then Do(Exec(actions), a) else Exec(actions)
  {
    assert (actions + [a])[..|actions|] == actions;
  }

  /** One more action: the refusals so far still count while the loop holds the lock. */
  lemma RefusedNext(actions: seq<Action>, a: Action)
    ensures Exec(actions).mutex.holder != OWNER ==> !RefusedSince(actions + [a])
    ensures Exec(actions).mutex.holder == OWNER == Exec(actions + [a]).mutex.holder ==>
      (RefusedSince(actions + [a]) <==>
        RefusedSince(actions) || (Enabled(Exec(actions), a) && a.ToolTryLock? && a.priority == HIGH))
  {
    hide Exec;
    var more := actions + [a];
    assert more[..|more|] == more && actions[..|actions|] == actions;
    forall k: nat | k <= |actions|
      ensures more[..k] == actions[..k]
    {
    }
    if Exec(actions).mutex.holder == OWNER == Exec(more).mutex.holder {
      forall k: nat | k < |actions|
        ensures Refused(actions, k) <==> Refused(more, k)
      {
      }
      if Enabled(Exec(actions), a) && a.ToolTryLock? && a.priority == HIGH {
        assert Refused(more, |actions|);
      }
    }
  }

  /** While the loop holds the lock: it holds it with the priority of the request in its hand,
      and the flag says that a high-priority tool was turned away since it got it. */
  ghost predicate FlagMeansRefused(actions: seq<Action>) {
    var s := Exec(actions);
    s.mutex.holder == OWNER ==>
      && !s.at.Head? && !s.at.Requeued? && s.mutex.priority == s.at.req.priority
      && (s.mutex.aborted <==> s.mutex.priority > HIGH && RefusedSince(actions))
      && (s.at.GivingUp? ==> s.mutex.aborted)
  }

  lemma {:induction false} FlagInEveryRun(actions: seq<Action>)
    ensures FlagMeansRefused(actions)
  {
    hide RefusedSince, Exec, Do, Sorted, Conserved, AllStamped, ActiveDiscipline;
    if actions != [] {
      var init, a := actions[..|actions| - 1], actions[|actions| - 1];
      assert actions == init + [a];
      FlagInEveryRun(init);
      InEveryRun(init);
      NextAction(init, a);
      RefusedNext(init, a);
      if Enabled(Exec(init), a) {
        FlagStep(Exec(init), a);
      }
    } else {
      assert Exec(actions) == Exec([]);
      FreeAtFirst();
    }
  }

  lemma FreeAtFirst()
    ensures Exec([]).mutex.holder == ""
  {
  }

  /** What one action does to the loop's hold on the lock. */
  lemma FlagStep(s: State, a: Action)
    requires Enabled(s, a) && LockDiscipline(s)
    ensures var t := Do(s, a);
      && (t.mutex.holder == OWNER ==> !t.at.Head? && !t.at.Requeued?)
      && (s.mutex.holder != OWNER && t.mutex.holder == OWNER ==>
            t.at.Holding? && t.mutex == Mutex(OWNER, t.at.req.priority, false))
      && (s.mutex.holder == OWNER == t.mutex.holder ==>
            && t.at.req == s.at.req && t.mutex.priority == s.mutex.priority
            && (t.mutex.aborted <==>
                  s.mutex.aborted || (a.ToolTryLock? && a.priority == HIGH && s.mutex.priority > HIGH))
            && (t.at.GivingUp? ==> s.at.GivingUp? || s.mutex.aborted))
  {
    hide Enqueued, Dequeued, Finished;
  }

  /** The lock is free to the loop exactly when no tool holds it; and with the lock taken it
      gives up exactly when its request is not of high priority and a high-priority tool was
      turned away since. */
  lemma BouncedIff(actions: seq<Action>, now: nat, buildOk: bool)
    ensures Exec(actions).at.Taken? ==>
      (Step(Exec(actions), now, buildOk).at.Bouncing? <==> Exec(actions).mutex.holder != "")
    ensures Exec(actions).at.Holding? ==>
      (Step(Exec(actions), now, buildOk).at.GivingUp? <==>
        Exec(actions).at.req.priority > HIGH && RefusedSince(actions))
    ensures Exec(actions).at.GivingUp? ==> RefusedSince(actions)
  {
    hide Exec, RefusedSince;
    InEveryRun(actions);
    FlagInEveryRun(actions);
  }

  /** With the lock free a request goes from the head into the build. */
  lemma RoundStarts(s: State, round: seq<Action>, states: seq<State>)
    requires s.at.Head? && s.queue.pending != [] && s.mutex.holder == ""
    requires |round| >= 3 && forall i :: 0 <= i < 3 ==> round[i].LoopStep? && round[i].now > 0
    requires |states| >= 4 && states[0] == s
    requires forall i :: 0 <= i < 3 && Enabled(states[i], round[i]) ==> states[i + 1] == Do(states[i], round[i])
    ensures var r := s.queue.pending[0];
      states[3] == s.(queue := Dequeued(s.queue), mutex := Mutex(OWNER, r.priority, false), at := Building(r))
  {
    hide Enqueued, Finished;
    var r := s.queue.pending[0];
    assert states[1] == s.(queue := Dequeued(s.queue), at := Taken(r));
    assert states[2] == states[1].(mutex := Mutex(OWNER, r.priority, false), at := Holding(r));
  }

  /** And from the build to the results, with the lock given back. */
  lemma RoundEnds(s: State, r: Request, round: seq<Action>, states: seq<State>)
    requires s.at == Building(r) && s.mutex.holder == OWNER
    requires |round| >= 3 && forall i :: 0 <= i < 3 ==> round[i].LoopStep? && round[i].now > 0
    requires |states| >= 4 && states[0] == s
    requires forall i :: 0 <= i < 3 && Enabled(states[i], round[i]) ==> states[i + 1] == Do(states[i], round[i])
    ensures var ok := round[0].buildOk;
      states[3] == s.(queue := Finished(s.queue), mutex := FREE, at := Head,
                      completed := s.completed + if ok then multiset{r} else multiset{},
                      failed := s.failed + if ok then multiset{} else multiset{r})
  {
    hide Enqueued, Dequeued, Finished, TryLocked;
    assert states[1] == s.(at := Built(r, round[0].buildOk));
    assert states[2] == states[1].(mutex := FREE, at := Released(r, round[0].buildOk));
  }

  /** One round of the loop with nothing in between, from the head with the lock free: the
      first request is built, and it is completed when the build succeeds. */
  lemma LoopBuilds(actions: seq<Action>, round: seq<Action>)
    requires Exec(actions).at.Head? && Exec(actions).queue.pending != [] && Exec(actions).mutex.holder == ""
    requires |round| == 6 && forall i :: 0 <= i < 6 ==> round[i].LoopStep? && round[i].now > 0
    ensures var s, t := Exec(actions), Exec(actions + round);
      && t.at.Head? && t.queue.pending == s.queue.pending[1..] && t.mutex.holder == "" && t.submitted == s.submitted
      && t.completed == s.completed + (if round[3].buildOk then multiset{s.queue.pending[0]} else multiset{})
      && t.failed == s.failed + (if round[3].buildOk then multiset{} else multiset{s.queue.pending[0]})
  {
    hide Exec, Enabled, Do;
    var states := seq(7, i requires 0 <= i < 7 => Exec(actions + round[..i]));
    forall i | 0 <= i < 6 && Enabled(states[i], round[i])
      ensures states[i + 1] == Do(states[i], round[i])
    {
      assert actions + round[..i + 1] == actions + round[..i] + [round[i]];
      NextAction(actions + round[..i], round[i]);
    }
    assert actions + round[..0] == actions && actions + round[..6] == actions + round;
    RoundStarts(Exec(actions), round, states);
    RoundEnds(states[3], Exec(actions).queue.pending[0], round[3..], states[3..]);
  }

  /** So undisturbed rounds that succeed complete all that waits. */
  lemma {:induction false} LoopDrains(actions: seq<Action>, rounds: seq<Action>)
    requires Exec(actions).at.Head? && Exec(actions).mutex.holder == ""
    requires |rounds| == 6 * |Exec(actions).queue.pending|
    requires forall i :: 0 <= i < |rounds| ==> rounds[i].LoopStep? && rounds[i].now > 0 && rounds[i].buildOk
    ensures var s, t := Exec(actions), Exec(actions + rounds);
      t.at.Head? && t.queue.pending == [] && t.completed == s.completed + multiset(s.queue.pending)
    decreases |rounds|
  {
    hide Exec;
    if rounds == [] {
      assert actions + rounds == actions;
    } else {
      var pending := Exec(actions).queue.pending;
      LoopBuilds(actions, rounds[..6]);
      LoopDrains(actions + rounds[..6], rounds[6..]);
      assert actions + rounds[..6] + rounds[6..] == actions + rounds;
      assert pending == [pending[0]] + pending[1..];
    }
  }

  // ---------- aborting the queue ----------

  /** The state without what Abort writes. */
  function Quiet(s: State): State {
    s.(queue := s.queue.(aborted := false, reason := ""))
  }

  function WithoutAborts(actions: seq<Action>): seq<Action> {
    if actions == [] then []
    else
      var last := actions[|actions| - 1];
      WithoutAborts(actions[..|actions| - 1]) + if last.AbortQueue? then [] else [last]
  }

  function QuietQueue(q: Queue): Queue {
    q.(aborted := false, reason := "")
  }

  /** What the flag and the reason are makes no difference to what the queue does. */
  lemma QueueQuiet(q: Queue, r: Queue, req: Request, now: nat)
    requires QuietQueue(q) == QuietQueue(r)
    ensures q.pending == r.pending && QuietQueue(Finished(q)) == QuietQueue(Finished(r))
    ensures QuietQueue(Enqueued(q, req, now)) == QuietQueue(Enqueued(r, req, now))
    ensures q.pending != [] ==> QuietQueue(Dequeued(q)) == QuietQueue(Dequeued(r))
  {
    hide StableSort;
  }

  lemma QuietLoop(s: State, t: State, now: nat, buildOk: bool)
    requires Quiet(s) == Quiet(t) && (s.at.Head? ==> s.queue.pending != [])
    ensures Quiet(Step(s, now, buildOk)) == Quiet(Step(t, now, buildOk))
  {
    hide Enqueued, Dequeued, Finished, TryLocked, Unlocked;
    assert QuietQueue(s.queue) == QuietQueue(t.queue) && s.at == t.at && s.mutex == t.mutex;
    QueueQuiet(s.queue, t.queue, if s.at.Bouncing? then s.at.req else Request("", [], 0, false, "", "", 0), now);
  }

  lemma QuietStep(s: State, t: State, a: Action)
    requires Quiet(s) == Quiet(t) && !a.AbortQueue?
    ensures Enabled(s, a) <==> Enabled(t, a)
    ensures Enabled(s, a) ==> Quiet(Do(s, a)) == Quiet(Do(t, a))
  {
    hide StableSort, TryLocked, Unlocked, Step;
    if a.LoopStep? && Enabled(s, a) {
      QuietLoop(s, t, a.now, a.buildOk);
    }
  }

  /** Aborting the queue stops nothing: in every run, leaving out all its aborts changes no
      request, no lock and no step of the loop, but only the flag and the reason it shows. */
  lemma {:induction false} AbortsStopNothing(actions: seq<Action>)
    ensures Quiet(Exec(actions)) == Quiet(Exec(WithoutAborts(actions)))
  {
    if actions != [] {
      var init, last := actions[..|actions| - 1], actions[|actions| - 1];
      var kept := WithoutAborts(init);
      AbortsStopNothing(init);
      if last.AbortQueue? {
        assert kept + [] == kept;
      } else {
        QuietStep(Exec(init), Exec(kept), last);
        assert (kept + [last])[..|kept|] == kept;
      }
    }
  }
}
