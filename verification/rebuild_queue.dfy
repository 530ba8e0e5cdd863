/** The queue of rebuild requests (analyzer/sync_queue.go). */
module RebuildQueue {
  import opened Wrappers
  import opened ComputeMutex

  /** createdAt = 0 is the zero time. */
  datatype Request = Request(
    rootPath: string, patterns: seq<string>, priority: Priority, forceFull: bool,
    reason: string, createdBy: string, createdAt: nat)

  /** The comparison Enqueue sorts by. */
  predicate Before(a: Request, b: Request) {
    a.priority < b.priority || (a.priority == b.priority && a.createdAt < b.createdAt)
  }

  /** A smaller number is a higher priority, and within a priority the older goes first. */
  predicate InOrder(a: Request, b: Request) {
    a.priority <= b.priority && (a.priority == b.priority ==> a.createdAt <= b.createdAt)
  }

  ghost predicate Sorted(rs: seq<Request>) {
    forall i, j :: 0 <= i < j < |rs| ==> InOrder(rs[i], rs[j])
  }

  /** x put behind everything it does not have to precede. */
  function Insert(rs: seq<Request>, x: Request): seq<Request> {
    if rs == [] || !Before(x, rs[|rs| - 1]) then rs + [x]
    else Insert(rs[..|rs| - 1], x) + [rs[|rs| - 1]]
  }

  /** sort.SliceStable. */
  function StableSort(rs: seq<Request>): seq<Request> {
    if rs == [] then [] else Insert(StableSort(rs[..|rs| - 1]), rs[|rs| - 1])
  }

  lemma {:induction false} InsertElements(rs: seq<Request>, x: Request)
    ensures multiset(Insert(rs, x)) == multiset(rs) + multiset{x}
  {
    if rs != [] && Before(x, rs[|rs| - 1]) {
      InsertElements(rs[..|rs| - 1], x);
      assert rs == rs[..|rs| - 1] + [rs[|rs| - 1]];
    }
  }

  lemma InsertMembers(rs: seq<Request>, x: Request, y: Request)
    ensures y in Insert(rs, x) ==> y in rs || y == x
  {
    InsertElements(rs, x);
    if y in Insert(rs, x) {
      assert y in multiset(Insert(rs, x));
    }
  }

  lemma {:induction false} InsertSorts(rs: seq<Request>, x: Request)
    requires Sorted(rs)
    ensures Sorted(Insert(rs, x))
  {
    if rs != [] && Before(x, rs[|rs| - 1]) {
      var init, last := rs[..|rs| - 1], rs[|rs| - 1];
      var out := Insert(init, x);
      InsertSorts(init, x);
      forall i | 0 <= i < |out|
        ensures InOrder(out[i], last)
      {
        InsertMembers(init, x, out[i]);
      }
    }
  }

  lemma {:induction false} StableSortElements(rs: seq<Request>)
    ensures multiset(StableSort(rs)) == multiset(rs)
  {
    hide Insert;
    if rs != [] {
      StableSortElements(rs[..|rs| - 1]);
      InsertElements(StableSort(rs[..|rs| - 1]), rs[|rs| - 1]);
      assert rs == rs[..|rs| - 1] + [rs[|rs| - 1]];
    }
  }

  lemma {:induction false} StableSortSorts(rs: seq<Request>)
    ensures Sorted(StableSort(rs))
  {
    if rs != [] {
      StableSortSorts(rs[..|rs| - 1]);
      InsertSorts(StableSort(rs[..|rs| - 1]), rs[|rs| - 1]);
    }
  }

  /** The requests of one priority and time, in order. */
  function Class(rs: seq<Request>, priority: Priority, createdAt: nat): seq<Request> {
    if rs == [] then []
    else
      var last := rs[|rs| - 1];
      Class(rs[..|rs| - 1], priority, createdAt) +
      if last.priority == priority && last.createdAt == createdAt then [last] else []
  }

  lemma ClassLast(rs: seq<Request>, x: Request, priority: Priority, createdAt: nat)
    ensures Class(rs + [x], priority, createdAt) ==
      Class(rs, priority, createdAt) + if x.priority == priority && x.createdAt == createdAt then [x] else []
  {
    assert (rs + [x])[..|rs|] == rs;
  }

  lemma {:induction false} InsertKeepsClasses(rs: seq<Request>, x: Request, priority: Priority, createdAt: nat)
    ensures Class(Insert(rs, x), priority, createdAt) == Class(rs + [x], priority, createdAt)
  {
    hide Class;
    if rs != [] && Before(x, rs[|rs| - 1]) {
      var init, last := rs[..|rs| - 1], rs[|rs| - 1];
      InsertKeepsClasses(init, x, priority, createdAt);
      ClassLast(Insert(init, x), last, priority, createdAt);
      ClassLast(init, x, priority, createdAt);
      ClassLast(init, last, priority, createdAt);
      ClassLast(rs, x, priority, createdAt);
      assert rs == init + [last];
    }
  }

  /** Stability: requests that compare equal keep their order. */
  lemma {:induction false} StableSortIsStable(rs: seq<Request>, priority: Priority, createdAt: nat)
    ensures Class(StableSort(rs), priority, createdAt) == Class(rs, priority, createdAt)
  {
    if rs != [] {
      var init, last := rs[..|rs| - 1], rs[|rs| - 1];
      StableSortIsStable(init, priority, createdAt);
      InsertKeepsClasses(StableSort(init), last, priority, createdAt);
      ClassLast(StableSort(init), last, priority, createdAt);
    }
  }

  datatype Queue = Queue(pending: seq<Request>, active: Option<Request>, aborted: bool, reason: string)

  /** A request without a time gets the present one; a bounced one keeps its own. */
  function Stamped(r: Request, now: nat): Request {
    if r.createdAt == 0 then r.(createdAt := now) else r
  }

  function Enqueued(q: Queue, r: Request, now: nat): Queue {
    q.(pending := StableSort(q.pending + [Stamped(r, now)]))
  }

  function Dequeued(q: Queue): Queue
    requires q.pending != []
  {
    Queue(q.pending[1..], Some(q.pending[0]), false, "")
  }

  function Finished(q: Queue): Queue {
    q.(active := None, aborted := false, reason := "")
  }

  lemma EnqueueSorts(q: Queue, r: Request, now: nat)
    ensures Sorted(Enqueued(q, r, now).pending)
    ensures multiset(Enqueued(q, r, now).pending) == multiset(q.pending) + multiset{Stamped(r, now)}
  {
    StableSortSorts(q.pending + [Stamped(r, now)]);
    StableSortElements(q.pending + [Stamped(r, now)]);
  }

  /** A dequeued request comes before every other: none has a higher priority, and none
      of the same priority is older. So a bounced request, which keeps its time, is tried
      again before any request of its priority that was created later. */
  lemma OldestFirst(q: Queue, r: Request)
    requires Sorted(q.pending) && q.pending != [] && r in q.pending
    ensures var first := Dequeued(q).active.value;
      first.priority <= r.priority && (first.priority == r.priority ==> first.createdAt <= r.createdAt)
    ensures Sorted(Dequeued(q).pending)
  {
    var i :| 0 <= i < |q.pending| && q.pending[i] == r;
  }

  class Requests {
    var pending: seq<Request>
    var active: Option<Request>
    var aborted: bool
    var reason: string
    var lastError: string

    constructor ()
      ensures Q() == Queue([], None, false, "") && lastError == ""
    {
      pending, active, aborted, reason, lastError := [], None, false, "", "";
    }

    ghost function Q(): Queue
      reads this
    {
      Queue(pending, active, aborted, reason)
    }

    method Enqueue(r: Request, now: nat)
      modifies this`pending
      ensures Q() == Enqueued(old(Q()), r, now)
    {
      var req := r;
      if req.createdAt == 0 {
        req := req.(createdAt := now);
      }
      pending := pending + [req];
      pending := StableSort(pending);
    }

    /** One round of Dequeue's polling loop. */
    method TryDequeue() returns (r: Option<Request>)
      modifies this`pending, this`active, this`aborted, this`reason
      ensures if old(pending) == [] then r == None && Q() == old(Q())
        else r == Some(old(pending)[0]) && Q() == Dequeued(old(Q()))
    {
      if |pending| > 0 {
        var req := pending[0];
        pending := pending[1..];
        active := Some(req);
        aborted := false;
        reason := "";
        return Some(req);
      }
      return None;
    }

    method Abort(reason: string)
      modifies this`aborted, this`reason
      ensures Q() == old(Q()).(aborted := true, reason := reason)
    {
      aborted := true;
      this.reason := reason;
    }

    method FinishActive()
      modifies this`active, this`aborted, this`reason
      ensures Q() == Finished(old(Q()))
    {
      active, aborted, reason := None, false, "";
    }
  }
}
