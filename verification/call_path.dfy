/** FindCallPath (analyzer/call_path.go): breadth-first enumeration of simple paths. */
module CallPath {
  import opened Wrappers
  import opened CallGraph

  const DEFAULT_MAX_DEPTH := 8
  const DEFAULT_MAX_PATHS := 20

  datatype Trail = Trail(nodes: seq<Node>, edges: seq<Edge>)

  type Item = p: Trail | |p.nodes| > 0 witness Trail([0], [])

  datatype Cutoff = NoCutoff | MaxPathsReached | NoPathWithinDepth

  datatype Result = Result(reachable: bool, paths: seq<Item>, cutoff: Cutoff, maxDepth: nat, maxPaths: nat)

  // ---------- what a path is ----------

  function Last(p: Item): Node {
    p.nodes[|p.nodes| - 1]
  }

  /** A walk along callable edges that starts in s. */
  ghost predicate IsWalk(g: Graph, s: Node, p: Item) {
    && |p.nodes| == |p.edges| + 1
    && p.nodes[0] == s
    && (forall i :: 0 <= i < |p.edges| ==> Hop(g, p, i))
  }

  ghost predicate Hop(g: Graph, p: Item, i: nat)
    requires i < |p.edges| && i + 1 < |p.nodes|
  {
    p.edges[i] in Out(g, p.nodes[i]) && Named(g, p.edges[i].callee) && p.edges[i].callee.value == p.nodes[i + 1]
  }

  ghost predicate Distinct<T(!new)>(xs: seq<T>) {
    forall i, j :: 0 <= i < j < |xs| ==> xs[i] != xs[j]
  }

  /** A simple path of length 1 to d from s to t. */
  ghost predicate IsPath(g: Graph, s: Node, t: Node, d: nat, p: Item) {
    IsWalk(g, s, p) && Distinct(p.nodes) && Last(p) == t && 1 <= |p.edges| <= d
  }

  ghost predicate WithinDistance(g: Graph, s: Node, t: Node, d: nat) {
    exists p :: IsWalk(g, s, p) && Last(p) == t && |p.edges| <= d
  }

  /** Every edge is its own object, listed once at its caller. */
  ghost predicate DistinctEdges(g: Graph) {
    forall n :: Distinct(Out(g, n))
  }

  // ---------- the enumeration the queue runs through ----------

  /** The extensions of p by the first k edges out of its end. */
  function Children(g: Graph, p: Item, k: nat): seq<Item>
    requires k <= |Out(g, Last(p))|
  {
    if k == 0 then []
    else
      var e := Out(g, Last(p))[k - 1];
      Children(g, p, k - 1) +
      if Named(g, e.callee) && e.callee.value !in p.nodes then
        [Trail(p.nodes + [e.callee.value], p.edges + [e])]
      else []
  }

  function AllChildren(g: Graph, p: Item): seq<Item> {
    Children(g, p, |Out(g, Last(p))|)
  }

  function Expand(g: Graph, ps: seq<Item>): seq<Item> {
    if ps == [] then [] else Expand(g, ps[..|ps| - 1]) + AllChildren(g, ps[|ps| - 1])
  }

  /** The items of ps that do (hit) or do not end in t. */
  function Ending(t: Node, hit: bool, ps: seq<Item>): seq<Item> {
    if ps == [] then []
    else Ending(t, hit, ps[..|ps| - 1]) + if (Last(ps[|ps| - 1]) == t) == hit then [ps[|ps| - 1]] else []
  }

  /** The queue entries with d edges. */
  function Frontier(g: Graph, s: Node, t: Node, d: nat): seq<Item> {
    if d == 0 then [Trail([s], [])] else Ending(t, false, Expand(g, Frontier(g, s, t, d - 1)))
  }

  /** The paths of at most d edges, in the order of their discovery. */
  function Found(g: Graph, s: Node, t: Node, d: nat): seq<Item> {
    if d == 0 then [] else Found(g, s, t, d - 1) + Ending(t, true, Expand(g, Frontier(g, s, t, d - 1)))
  }

  // ---------- what the enumeration contains ----------

  /** q without its last step. */
  ghost function Front(q: Item): (p: Item)
    requires |q.edges| > 0 && |q.nodes| == |q.edges| + 1
  {
    Trail(q.nodes[..|q.nodes| - 1], q.edges[..|q.edges| - 1])
  }

  ghost predicate IsChild(g: Graph, p: Item, q: Item, j: nat) {
    && j < |Out(g, Last(p))|
    && var e := Out(g, Last(p))[j];
      && Named(g, e.callee) && e.callee.value !in p.nodes
      && q == Trail(p.nodes + [e.callee.value], p.edges + [e])
  }

  ghost predicate ChildUpTo(g: Graph, p: Item, q: Item, k: nat) {
    exists j: nat :: j < k && IsChild(g, p, q, j)
  }

  lemma {:induction false} ChildrenAre(g: Graph, p: Item, k: nat)
    requires k <= |Out(g, Last(p))|
    ensures forall q :: q in Children(g, p, k) <==> ChildUpTo(g, p, q, k)
  {
    if k > 0 {
      ChildrenAre(g, p, k - 1);
      forall q
        ensures q in Children(g, p, k) <==> ChildUpTo(g, p, q, k)
      {
        assert ChildUpTo(g, p, q, k) <==> ChildUpTo(g, p, q, k - 1) || IsChild(g, p, q, k - 1);
      }
    }
  }

  /** q is p followed by one edge to a node that p does not visit. */
  ghost predicate Follows(g: Graph, p: Item, q: Item) {
    && |q.edges| > 0 && |q.nodes| == |q.edges| + 1
    && p == Front(q) && Hop(g, q, |q.edges| - 1) && Last(q) !in p.nodes
  }

  lemma AllChildrenFollow(g: Graph, p: Item, q: Item)
    requires |p.nodes| == |p.edges| + 1
    ensures q in AllChildren(g, p) <==> Follows(g, p, q)
  {
    ChildrenAre(g, p, |Out(g, Last(p))|);
    if q in AllChildren(g, p) {
      var j: nat :| IsChild(g, p, q, j);
      assert Front(q) == p;
    }
    if Follows(g, p, q) {
      var e := q.edges[|q.edges| - 1];
      var j: nat :| j < |Out(g, Last(p))| && Out(g, Last(p))[j] == e;
      assert q == Trail(p.nodes + [Last(q)], p.edges + [e]);
      assert IsChild(g, p, q, j);
    }
  }

  /** Every item has one node more than edges. */
  ghost predicate Shaped(ps: seq<Item>) {
    forall i :: 0 <= i < |ps| ==> |ps[i].nodes| == |ps[i].edges| + 1
  }

  ghost predicate FollowsOneOf(g: Graph, ps: seq<Item>, q: Item) {
    |q.edges| > 0 && |q.nodes| == |q.edges| + 1 && Front(q) in ps && Follows(g, Front(q), q)
  }

  lemma {:induction false} ExpandFollows(g: Graph, ps: seq<Item>, q: Item)
    requires Shaped(ps)
    ensures q in Expand(g, ps) <==> FollowsOneOf(g, ps, q)
  {
    if ps != [] {
      var last := ps[|ps| - 1];
      ExpandFollows(g, ps[..|ps| - 1], q);
      AllChildrenFollow(g, last, q);
      assert ps == ps[..|ps| - 1] + [last];
    }
  }

  lemma {:induction false} EndingAre(t: Node, hit: bool, ps: seq<Item>)
    ensures forall q :: q in Ending(t, hit, ps) <==> q in ps && (Last(q) == t) == hit
  {
    if ps != [] {
      EndingAre(t, hit, ps[..|ps| - 1]);
      assert ps == ps[..|ps| - 1] + [ps[|ps| - 1]];
    }
  }

  /** A queue entry: a simple walk of d edges that has not come to t. */
  ghost predicate Pending(g: Graph, s: Node, t: Node, d: nat, p: Item) {
    IsWalk(g, s, p) && Distinct(p.nodes) && |p.edges| == d && t !in p.nodes[1..]
  }

  lemma FollowsPending(g: Graph, s: Node, t: Node, d: nat, p: Item, q: Item)
    requires Follows(g, p, q)
    ensures IsWalk(g, s, p) && Distinct(p.nodes) <==> IsWalk(g, s, q) && Distinct(q.nodes)
    ensures t !in q.nodes[1..] <==> t !in p.nodes[1..] && Last(q) != t
  {
    assert q.nodes == p.nodes + [Last(q)];
    assert q.nodes[1..] == p.nodes[1..] + [Last(q)];
    if IsWalk(g, s, p) {
      forall i | 0 <= i < |q.edges|
        ensures Hop(g, q, i)
      {
        if i < |p.edges| {
          assert Hop(g, p, i);
        }
      }
    }
    if IsWalk(g, s, q) {
      forall i | 0 <= i < |p.edges|
        ensures Hop(g, p, i)
      {
        assert Hop(g, q, i);
      }
    }
  }

  lemma WalkFollows(g: Graph, s: Node, q: Item)
    requires IsWalk(g, s, q) && Distinct(q.nodes) && |q.edges| > 0
    ensures Follows(g, Front(q), q)
  {
    assert Hop(g, q, |q.edges| - 1);
  }

  /** One level down: a simple walk of d > 0 edges that avoids t extends one of d - 1 edges. */
  lemma PendingStep(g: Graph, s: Node, t: Node, d: nat, q: Item)
    requires d > 0
    ensures Pending(g, s, t, d, q) <==>
      && |q.edges| > 0 && |q.nodes| == |q.edges| + 1
      && Follows(g, Front(q), q) && Pending(g, s, t, d - 1, Front(q)) && Last(q) != t
  {
    hide Hop;
    if |q.edges| > 0 && |q.nodes| == |q.edges| + 1 && Follows(g, Front(q), q) {
      FollowsPending(g, s, t, d, Front(q), q);
    }
    if Pending(g, s, t, d, q) {
      WalkFollows(g, s, q);
      FollowsPending(g, s, t, d, Front(q), q);
    }
  }

  lemma RootIsPending(g: Graph, s: Node, t: Node, q: Item)
    ensures Pending(g, s, t, 0, q) <==> q == Trail([s], [])
  {
    if IsWalk(g, s, q) && |q.edges| == 0 {
      assert q.nodes == [s];
    }
  }

  lemma {:induction false} FrontierArePending(g: Graph, s: Node, t: Node, d: nat, q: Item)
    ensures q in Frontier(g, s, t, d) <==> Pending(g, s, t, d, q)
  {
    hide Pending, Follows, Expand, Ending;
    if d == 0 {
      RootIsPending(g, s, t, q);
    } else {
      var ps := Frontier(g, s, t, d - 1);
      FrontierShaped(g, s, t, d - 1);
      EndingAre(t, false, Expand(g, ps));
      ExpandFollows(g, ps, q);
      PendingStep(g, s, t, d, q);
      if |q.edges| > 0 && |q.nodes| == |q.edges| + 1 {
        FrontierArePending(g, s, t, d - 1, Front(q));
      }
    }
  }

  lemma FrontierShaped(g: Graph, s: Node, t: Node, d: nat)
    ensures forall p :: p in Frontier(g, s, t, d) ==> |p.nodes| == |p.edges| + 1 && |p.edges| == d
    ensures Shaped(Frontier(g, s, t, d))
  {
    forall p | p in Frontier(g, s, t, d)
      ensures |p.nodes| == |p.edges| + 1 && |p.edges| == d
    {
      FrontierArePending(g, s, t, d, p);
    }
  }

  /** The paths found on level d: simple paths of exactly d edges. */
  lemma LevelArePaths(g: Graph, s: Node, t: Node, d: nat, q: Item)
    requires d > 0
    ensures q in Ending(t, true, Expand(g, Frontier(g, s, t, d - 1))) <==> IsPath(g, s, t, d, q) && |q.edges| == d
  {
    hide Follows, Hop, Expand, Ending, Frontier;
    var ps := Frontier(g, s, t, d - 1);
    FrontierShaped(g, s, t, d - 1);
    EndingAre(t, true, Expand(g, ps));
    ExpandFollows(g, ps, q);
    if |q.edges| > 0 && |q.nodes| == |q.edges| + 1 {
      FrontierArePending(g, s, t, d - 1, Front(q));
      if Follows(g, Front(q), q) {
        FollowsPending(g, s, t, d, Front(q), q);
      }
    }
    if IsPath(g, s, t, d, q) && |q.edges| == d {
      WalkFollows(g, s, q);
      FollowsPending(g, s, t, d, Front(q), q);
    }
  }

  /** The enumeration holds exactly the simple paths of length 1 to d. */
  lemma {:induction false} FoundArePaths(g: Graph, s: Node, t: Node, d: nat, q: Item)
    ensures q in Found(g, s, t, d) <==> IsPath(g, s, t, d, q)
  {
    if d > 0 {
      FoundArePaths(g, s, t, d - 1, q);
      LevelArePaths(g, s, t, d, q);
    }
  }

  // ---------- order and multiplicity ----------

  ghost predicate NonDecreasing(ps: seq<Item>) {
    forall i, j :: 0 <= i < j < |ps| ==> |ps[i].edges| <= |ps[j].edges|
  }

  lemma {:induction false} FoundInOrder(g: Graph, s: Node, t: Node, d: nat)
    ensures NonDecreasing(Found(g, s, t, d))
  {
    hide Expand, Ending, IsPath;
    if d > 0 {
      FoundInOrder(g, s, t, d - 1);
      var found, level := Found(g, s, t, d - 1), Ending(t, true, Expand(g, Frontier(g, s, t, d - 1)));
      forall i | 0 <= i < |found|
        ensures |found[i].edges| < d
      {
        FoundArePaths(g, s, t, d - 1, found[i]);
        LongerIsNoPath(g, s, t, d, found[i]);
      }
      forall i | 0 <= i < |level|
        ensures |level[i].edges| == d
      {
        LevelArePaths(g, s, t, d, level[i]);
      }
    }
  }

  lemma DistinctSingle(p: Item)
    ensures Distinct<Item>([]) && Distinct([p])
  {
  }

  lemma DistinctConcat<T(!new)>(xs: seq<T>, ys: seq<T>)
    requires Distinct(xs) && Distinct(ys) && forall x :: x in xs ==> x !in ys
    ensures Distinct(xs + ys)
  {
    var zs := xs + ys;
    forall i, j | 0 <= i < j < |zs|
      ensures zs[i] != zs[j]
    {
      if i < |xs| <= j {
        assert zs[i] in xs && zs[j] in ys;
      }
    }
  }

  lemma {:induction false} ChildrenDistinct(g: Graph, p: Item, k: nat)
    requires k <= |Out(g, Last(p))| && Distinct(Out(g, Last(p)))
    ensures Distinct(Children(g, p, k))
  {
    if k > 0 {
      ChildrenDistinct(g, p, k - 1);
      ChildrenAre(g, p, k - 1);
      var q := Trail(p.nodes + [0], p.edges + [Out(g, Last(p))[k - 1]]);
      forall c | c in Children(g, p, k - 1)
        ensures c.edges != q.edges
      {
        assert ChildUpTo(g, p, c, k - 1);
        var j: nat :| j < k - 1 && IsChild(g, p, c, j);
        assert c.edges[|p.edges|] != q.edges[|p.edges|];
      }
    }
  }

  lemma {:induction false} ExpandDistinct(g: Graph, ps: seq<Item>)
    requires DistinctEdges(g) && Shaped(ps) && Distinct(ps)
    ensures Distinct(Expand(g, ps))
  {
    if ps != [] {
      hide Follows, Hop;
      var rest, last := ps[..|ps| - 1], ps[|ps| - 1];
      ExpandDistinct(g, rest);
      ChildrenDistinct(g, last, |Out(g, Last(last))|);
      forall q | q in Expand(g, rest)
        ensures q !in AllChildren(g, last)
      {
        ExpandFollows(g, rest, q);
        AllChildrenFollow(g, last, q);
        FrontOf(g, last, q);
      }
      DistinctConcat(Expand(g, rest), AllChildren(g, last));
    }
  }

  lemma FrontOf(g: Graph, p: Item, q: Item)
    requires |q.edges| > 0 && |q.nodes| == |q.edges| + 1
    ensures Follows(g, p, q) ==> p == Front(q)
  {
  }

  lemma {:induction false} EndingDistinct(t: Node, hit: bool, ps: seq<Item>)
    requires Distinct(ps)
    ensures Distinct(Ending(t, hit, ps))
  {
    if ps != [] {
      EndingDistinct(t, hit, ps[..|ps| - 1]);
      EndingAre(t, hit, ps[..|ps| - 1]);
    }
  }

  lemma {:induction false} FrontierDistinct(g: Graph, s: Node, t: Node, d: nat)
    requires DistinctEdges(g)
    ensures Distinct(Frontier(g, s, t, d))
  {
    hide Distinct, DistinctEdges, Shaped, Expand, Ending;
    if d == 0 {
      DistinctSingle(Trail([s], []));
    } else {
      FrontierDistinct(g, s, t, d - 1);
      FrontierShaped(g, s, t, d - 1);
      ExpandDistinct(g, Frontier(g, s, t, d - 1));
      EndingDistinct(t, false, Expand(g, Frontier(g, s, t, d - 1)));
    }
  }

  lemma LongerIsNoPath(g: Graph, s: Node, t: Node, d: nat, q: Item)
    requires d > 0 && IsPath(g, s, t, d - 1, q)
    ensures |q.edges| < d
  {
  }

  /** Each path is listed once. */
  lemma {:induction false} FoundDistinct(g: Graph, s: Node, t: Node, d: nat)
    requires DistinctEdges(g)
    ensures Distinct(Found(g, s, t, d))
  {
    hide Distinct, DistinctEdges, Shaped, Expand, Ending, IsPath;
    if d == 0 {
      DistinctSingle(Trail([s], []));
    } else {
      FoundDistinct(g, s, t, d - 1);
      FrontierDistinct(g, s, t, d - 1);
      FrontierShaped(g, s, t, d - 1);
      ExpandDistinct(g, Frontier(g, s, t, d - 1));
      EndingDistinct(t, true, Expand(g, Frontier(g, s, t, d - 1)));
      var found, level := Found(g, s, t, d - 1), Ending(t, true, Expand(g, Frontier(g, s, t, d - 1)));
      forall q | q in found
        ensures q !in level
      {
        FoundArePaths(g, s, t, d - 1, q);
        LevelArePaths(g, s, t, d, q);
        LongerIsNoPath(g, s, t, d, q);
      }
      DistinctConcat(found, level);
    }
  }

  // ---------- reachability ----------

  /** p with the round trip between its equal nodes i and j cut out. */
  ghost function Cut(p: Item, i: nat, j: nat): Item
    requires |p.nodes| == |p.edges| + 1 && i < j < |p.nodes|
  {
    Trail(p.nodes[..i] + p.nodes[j..], p.edges[..i] + p.edges[j..])
  }

  lemma CutIsWalk(g: Graph, s: Node, p: Item, i: nat, j: nat)
    requires IsWalk(g, s, p) && i < j < |p.nodes| && p.nodes[i] == p.nodes[j]
    ensures IsWalk(g, s, Cut(p, i, j)) && Last(Cut(p, i, j)) == Last(p)
  {
    var q := Cut(p, i, j);
    forall k | 0 <= k < |q.edges|
      ensures Hop(g, q, k)
    {
      assert Hop(g, p, if k < i then k else k - i + j);
    }
  }

  lemma {:induction false} SimpleWalk(g: Graph, s: Node, p: Item) returns (q: Item)
    requires IsWalk(g, s, p)
    ensures IsWalk(g, s, q) && Distinct(q.nodes) && Last(q) == Last(p) && |q.edges| <= |p.edges|
    decreases |p.edges|
  {
    if Distinct(p.nodes) {
      q := p;
    } else {
      var i, j :| 0 <= i < j < |p.nodes| && p.nodes[i] == p.nodes[j];
      CutIsWalk(g, s, p, i, j);
      q := SimpleWalk(g, s, Cut(p, i, j));
    }
  }

  /** The enumeration is non-empty exactly when t is another node within distance d. */
  lemma FoundIffWithin(g: Graph, s: Node, t: Node, d: nat)
    ensures Found(g, s, t, d) != [] <==> s != t && WithinDistance(g, s, t, d)
  {
    hide Found, Hop;
    if Found(g, s, t, d) != [] {
      FoundArePaths(g, s, t, d, Found(g, s, t, d)[0]);
    }
    if s != t && WithinDistance(g, s, t, d) {
      var p :| IsWalk(g, s, p) && Last(p) == t && |p.edges| <= d;
      var q := SimpleWalk(g, s, p);
      FoundArePaths(g, s, t, d, q);
    }
  }

  // ---------- the queue loop ----------

  lemma {:induction false} EndingConcat(t: Node, hit: bool, xs: seq<Item>, ys: seq<Item>)
    ensures Ending(t, hit, xs + ys) == Ending(t, hit, xs) + Ending(t, hit, ys)
  {
    if ys == [] {
      assert xs + ys == xs;
    } else {
      EndingConcat(t, hit, xs, ys[..|ys| - 1]);
      assert (xs + ys)[..|xs + ys| - 1] == xs + ys[..|ys| - 1];
    }
  }

  lemma {:induction false} ChildrenPrefix(g: Graph, p: Item, k: nat, n: nat)
    requires k <= n <= |Out(g, Last(p))|
    ensures Children(g, p, k) <= Children(g, p, n)
    decreases n - k
  {
    if k < n {
      ChildrenPrefix(g, p, k, n - 1);
    }
  }

  lemma {:induction false} ExpandPrefix(g: Graph, ps: seq<Item>, i: nat)
    requires i <= |ps|
    ensures Expand(g, ps[..i]) <= Expand(g, ps)
    decreases |ps| - i
  {
    if i < |ps| {
      assert ps[..i + 1][..i] == ps[..i];
      ExpandPrefix(g, ps, i + 1);
    } else {
      assert ps[..i] == ps;
    }
  }

  lemma {:induction false} FoundPrefix(g: Graph, s: Node, t: Node, d: nat, m: nat)
    requires d <= m
    ensures Found(g, s, t, d) <= Found(g, s, t, m)
    decreases m
  {
    hide Frontier, Expand, Ending;
    if d < m {
      FoundPrefix(g, s, t, d, m - 1);
    }
  }

  lemma NothingFromNothing(g: Graph, t: Node)
    ensures Ending(t, true, Expand(g, [])) == [] == Ending(t, false, Expand(g, []))
  {
  }

  lemma {:induction false} FoundStops(g: Graph, s: Node, t: Node, d: nat, m: nat)
    requires d <= m && Frontier(g, s, t, d) == []
    ensures Frontier(g, s, t, m) == [] && Found(g, s, t, m) == Found(g, s, t, d)
    decreases m
  {
    hide Expand, Ending;
    if d < m {
      FoundStops(g, s, t, d, m - 1);
      NothingFromNothing(g, t);
    }
  }

  ghost function Hits(g: Graph, s: Node, t: Node, d: nat, i: nat): seq<Item>
    requires i <= |Frontier(g, s, t, d)|
  {
    Found(g, s, t, d) + Ending(t, true, Expand(g, Frontier(g, s, t, d)[..i]))
  }

  ghost function Waiting(g: Graph, s: Node, t: Node, d: nat, i: nat): seq<Item>
    requires i <= |Frontier(g, s, t, d)|
  {
    Frontier(g, s, t, d)[i..] + Ending(t, false, Expand(g, Frontier(g, s, t, d)[..i]))
  }

  /** The loop's state after i items of level d. */
  ghost predicate At(g: Graph, s: Node, t: Node, maxDepth: nat, d: nat, i: nat, queue: seq<Item>, paths: seq<Item>) {
    && d <= maxDepth && i <= |Frontier(g, s, t, d)|
    && (|queue| > 0 ==> i < |Frontier(g, s, t, d)|)
    && if d < maxDepth then queue == Waiting(g, s, t, d, i) && paths == Hits(g, s, t, d, i)
       else queue == Frontier(g, s, t, d)[i..] && paths == Found(g, s, t, d)
  }

  lemma AtStart(g: Graph, s: Node, t: Node, maxDepth: nat)
    requires maxDepth > 0
    ensures At(g, s, t, maxDepth, 0, 0, [Trail([s], [])], [])
  {
    assert Frontier(g, s, t, 0)[..0] == [];
  }

  lemma HeadOf(g: Graph, s: Node, t: Node, maxDepth: nat, d: nat, i: nat, queue: seq<Item>, paths: seq<Item>)
    requires At(g, s, t, maxDepth, d, i, queue, paths) && |queue| > 0
    ensures d <= maxDepth && queue[0] == Frontier(g, s, t, d)[i] && |queue[0].nodes| == d + 1
  {
    hide Found, Expand, Ending;
    FrontierShaped(g, s, t, d);
    assert queue[0] in Frontier(g, s, t, d);
  }

  lemma ExpandNext(g: Graph, ps: seq<Item>, i: nat)
    requires i < |ps|
    ensures Expand(g, ps[..i + 1]) == Expand(g, ps[..i]) + AllChildren(g, ps[i])
  {
    assert ps[..i + 1][..i] == ps[..i];
  }

  /** Handling an item shorter than the limit: its children join the queue or the paths. */
  lemma StepOn(g: Graph, s: Node, t: Node, maxDepth: nat, d: nat, i: nat, queue: seq<Item>, paths: seq<Item>)
    requires At(g, s, t, maxDepth, d, i, queue, paths) && |queue| > 0 && d < maxDepth
    ensures var kids := AllChildren(g, queue[0]);
      && i + 1 <= |Frontier(g, s, t, d)|
      && queue[1..] + Ending(t, false, kids) == Waiting(g, s, t, d, i + 1)
      && paths + Ending(t, true, kids) == Hits(g, s, t, d, i + 1)
  {
    hide Found, Frontier, Expand, Ending, AllChildren;
    var level := Frontier(g, s, t, d);
    ExpandNext(g, level, i);
    EndingConcat(t, false, Expand(g, level[..i]), AllChildren(g, level[i]));
    EndingConcat(t, true, Expand(g, level[..i]), AllChildren(g, level[i]));
  }

  /** The end of a level is the start of the next. */
  lemma NextLevel(g: Graph, s: Node, t: Node, d: nat)
    ensures Waiting(g, s, t, d, |Frontier(g, s, t, d)|) == Waiting(g, s, t, d + 1, 0) == Frontier(g, s, t, d + 1)
    ensures Hits(g, s, t, d, |Frontier(g, s, t, d)|) == Hits(g, s, t, d + 1, 0) == Found(g, s, t, d + 1)
  {
    var level := Frontier(g, s, t, d);
    assert level[..|level|] == level;
    assert Frontier(g, s, t, d + 1)[..0] == [];
  }

  /** The items of levels d to maxDepth that are not handled yet. */
  ghost function Measure(g: Graph, s: Node, t: Node, maxDepth: nat, d: nat, i: nat): (n: nat)
    decreases if d <= maxDepth then maxDepth - d + 1 else 0
  {
    if d > maxDepth then 0
    else (if i <= |Frontier(g, s, t, d)| then |Frontier(g, s, t, d)| - i else 0) + Measure(g, s, t, maxDepth, d + 1, 0)
  }

  /** Move the position to the next level when this one is exhausted. */
  lemma Normalize(g: Graph, s: Node, t: Node, maxDepth: nat, d: nat, i: nat, queue: seq<Item>, paths: seq<Item>)
    returns (d': nat, i': nat)
    requires d < maxDepth && i <= |Frontier(g, s, t, d)|
    requires queue == Waiting(g, s, t, d, i) && paths == Hits(g, s, t, d, i)
    ensures At(g, s, t, maxDepth, d', i', queue, paths)
    ensures Measure(g, s, t, maxDepth, d', i') == Measure(g, s, t, maxDepth, d, i)
  {
    hide Found, Expand, Ending, Frontier;
    if i < |Frontier(g, s, t, d)| {
      d', i' := d, i;
    } else {
      NextLevel(g, s, t, d);
      d', i' := d + 1, 0;
    }
  }

  lemma SkipStep(g: Graph, s: Node, t: Node, maxDepth: nat, d: nat, i: nat, queue: seq<Item>, paths: seq<Item>)
    returns (d': nat, i': nat)
    requires At(g, s, t, maxDepth, d, i, queue, paths) && |queue| > 0 && d == maxDepth
    ensures At(g, s, t, maxDepth, d', i', queue[1..], paths)
    ensures Measure(g, s, t, maxDepth, d', i') < Measure(g, s, t, maxDepth, d, i)
  {
    hide Found, Expand, Ending, Frontier;
    d', i' := d, i + 1;
  }

  lemma ExtendStep(g: Graph, s: Node, t: Node, maxDepth: nat, d: nat, i: nat, queue: seq<Item>, paths: seq<Item>)
    returns (d': nat, i': nat)
    requires At(g, s, t, maxDepth, d, i, queue, paths) && |queue| > 0 && d < maxDepth
    ensures var kids := AllChildren(g, queue[0]);
      At(g, s, t, maxDepth, d', i', queue[1..] + Ending(t, false, kids), paths + Ending(t, true, kids))
    ensures Measure(g, s, t, maxDepth, d', i') < Measure(g, s, t, maxDepth, d, i)
  {
    hide Found, Expand, Ending, Frontier, AllChildren, Hits, Waiting;
    var kids := AllChildren(g, queue[0]);
    StepOn(g, s, t, maxDepth, d, i, queue, paths);
    d', i' := Normalize(g, s, t, maxDepth, d, i + 1,
                        queue[1..] + Ending(t, false, kids), paths + Ending(t, true, kids));
  }

  lemma CutPrefix(g: Graph, s: Node, t: Node, maxDepth: nat, d: nat, i: nat, queue: seq<Item>, paths: seq<Item>, k: nat)
    requires At(g, s, t, maxDepth, d, i, queue, paths) && |queue| > 0 && d < maxDepth
    requires k <= |Out(g, Last(queue[0]))|
    ensures paths + Ending(t, true, Children(g, queue[0], k)) <= Found(g, s, t, maxDepth)
  {
    HeadOf(g, s, t, maxDepth, d, i, queue, paths);
    PartIsPrefix(g, s, t, maxDepth, d, i, k);
  }

  lemma Finish(g: Graph, s: Node, t: Node, maxDepth: nat, d: nat, i: nat, paths: seq<Item>)
    requires At(g, s, t, maxDepth, d, i, [], paths)
    ensures paths == Found(g, s, t, maxDepth)
  {
    hide Found, Expand, Ending;
    if d < maxDepth {
      assert i == |Frontier(g, s, t, d)|;
      NextLevel(g, s, t, d);
      FoundStops(g, s, t, d + 1, maxDepth);
    }
  }

  /** The paths collected in the middle of an item are a prefix of the enumeration. */
  lemma PartIsPrefix(g: Graph, s: Node, t: Node, maxDepth: nat, d: nat, i: nat, k: nat)
    requires d < maxDepth && i < |Frontier(g, s, t, d)|
    requires k <= |Out(g, Last(Frontier(g, s, t, d)[i]))|
    ensures Hits(g, s, t, d, i) + Ending(t, true, Children(g, Frontier(g, s, t, d)[i], k)) <= Found(g, s, t, maxDepth)
  {
    hide Frontier, Expand, Ending, Children;
    var level := Frontier(g, s, t, d);
    var before, part := Expand(g, level[..i]), Children(g, level[i], k);
    ChildrenPrefix(g, level[i], k, |Out(g, Last(level[i]))|);
    ExpandNext(g, level, i);
    ExpandPrefix(g, level, i + 1);
    PrefixEnding(t, before + part, Expand(g, level));
    EndingConcat(t, true, before, part);
    FoundPrefix(g, s, t, d + 1, maxDepth);
  }

  lemma PrefixEnding(t: Node, xs: seq<Item>, ys: seq<Item>)
    requires xs <= ys
    ensures Ending(t, true, xs) <= Ending(t, true, ys)
  {
    EndingConcat(t, true, xs, ys[|xs|..]);
    assert ys == xs + ys[|xs|..];
  }

  function EffectiveDepth(maxDepth: int): (d: nat)
    ensures 1 <= d <= 12 && (1 <= maxDepth <= 12 ==> d == maxDepth)
  {
    if maxDepth <= 0 || maxDepth > 12 then DEFAULT_MAX_DEPTH else maxDepth
  }

  function EffectivePaths(maxPaths: int): (n: nat)
    ensures 1 <= n <= 100 && (1 <= maxPaths <= 100 ==> n == maxPaths)
  {
    if maxPaths <= 0 || maxPaths > 100 then DEFAULT_MAX_PATHS else maxPaths
  }

  function Take(ps: seq<Item>, n: nat): seq<Item> {
    if |ps| <= n then ps else ps[..n]
  }

  lemma NoChildren(g: Graph, t: Node, p: Item)
    ensures Ending(t, true, Children(g, p, 0)) == [] == Ending(t, false, Children(g, p, 0))
  {
  }

  /** One more edge out of p's end. */
  lemma ChildrenStep(g: Graph, t: Node, p: Item, k: nat)
    requires k < |Out(g, Last(p))|
    ensures var e := Out(g, Last(p))[k];
      var q := if Named(g, e.callee) && e.callee.value !in p.nodes
               then [Trail(p.nodes + [e.callee.value], p.edges + [e])] else [];
      && Ending(t, true, Children(g, p, k + 1)) ==
         Ending(t, true, Children(g, p, k)) + (if q != [] && e.callee.value == t then q else [])
      && Ending(t, false, Children(g, p, k + 1)) ==
         Ending(t, false, Children(g, p, k)) + (if q != [] && e.callee.value != t then q else [])
  {
    var e := Out(g, Last(p))[k];
    if Named(g, e.callee) && e.callee.value !in p.nodes {
      var q: Item := Trail(p.nodes + [e.callee.value], p.edges + [e]);
      EndingConcat(t, true, Children(g, p, k), [q]);
      EndingConcat(t, false, Children(g, p, k), [q]);
      assert [q][..0] == [];
    } else {
      assert Children(g, p, k) + [] == Children(g, p, k);
    }
  }

  /** The loop over current.Out: every extension of item that ends in t becomes a
      path, the others join the queue; it stops at the path limit. */
  method ExtendItem(g: Graph, t: Node, item: Item, paths0: seq<Item>, queue0: seq<Item>, limit: nat)
    returns (paths: seq<Item>, queue: seq<Item>, cutoff: bool)
    requires |paths0| < limit
    ensures if cutoff then
      && |paths| == limit
      && exists k :: 0 <= k <= |Out(g, Last(item))| && paths == paths0 + Ending(t, true, Children(g, item, k))
    else
      && |paths| < limit
      && paths == paths0 + Ending(t, true, AllChildren(g, item))
      && queue == queue0 + Ending(t, false, AllChildren(g, item))
  {
    paths, queue, cutoff := paths0, queue0, false;
    hide Ending, Children;
    NoChildren(g, t, item);
    for k := 0 to |Out(g, Last(item))|
      invariant !cutoff && |paths| < limit
      invariant paths == paths0 + Ending(t, true, Children(g, item, k))
      invariant queue == queue0 + Ending(t, false, Children(g, item, k))
    {
      var edge := Out(g, Last(item))[k];
      ChildrenStep(g, t, item, k);
      if !Named(g, edge.callee) {
        continue;
      }
      if edge.callee.value in item.nodes {
        continue;
      }
      var next: Item := Trail(item.nodes + [edge.callee.value], item.edges + [edge]);
      if edge.callee.value == t {
        paths := paths + [next];
        if |paths| >= limit {
          cutoff := true;
          break;
        }
        continue;
      }
      queue := queue + [next];
    }
  }

  /** FindCallPath once both functions are resolved; None stands for a function that
      is no node of the call graph. */
  method FindCallPath(g: Graph, from: Option<Node>, to: Option<Node>, maxDepth: int, maxPaths: int) returns (r: Result)
    ensures r.maxDepth == EffectiveDepth(maxDepth) && r.maxPaths == EffectivePaths(maxPaths)
    ensures from.None? || to.None? ==> !r.reachable && r.paths == [] && r.cutoff == NoCutoff
    ensures from.Some? && to.Some? ==>
      var all := Found(g, from.value, to.value, r.maxDepth);
      && r.paths == Take(all, r.maxPaths)
      && r.reachable == (all != [])
      && r.cutoff == (if |all| >= r.maxPaths then MaxPathsReached
                      else if all == [] then NoPathWithinDepth
                      else NoCutoff)
  {
    hide At, Found, Frontier, Ending, Children, AllChildren, Expand, Hits, Waiting, Measure, EffectiveDepth;
    hide EffectivePaths;
    var depth, limit := EffectiveDepth(maxDepth), EffectivePaths(maxPaths);
    if from.None? || to.None? {
      return Result(false, [], NoCutoff, depth, limit);
    }
    var s, t := from.value, to.value;
    var queue: seq<Item> := [Trail([s], [])];
    var paths: seq<Item> := [];
    var cutoff := false;
    ghost var d, i := 0, 0;
    AtStart(g, s, t, depth);
    while |queue| > 0
      invariant !cutoff && At(g, s, t, depth, d, i, queue, paths) && |paths| < limit
      decreases Measure(g, s, t, depth, d, i)
    {
      if |paths| >= limit {
        cutoff := true;
        break;
      }
      HeadOf(g, s, t, depth, d, i, queue, paths);
      var item := queue[0];
      ghost var before, known := queue, paths;
      queue := queue[1..];
      if |item.nodes| - 1 >= depth {
        d, i := SkipStep(g, s, t, depth, d, i, before, paths);
        continue;
      }
      paths, queue, cutoff := ExtendItem(g, t, item, paths, queue, limit);
      if cutoff {
        ghost var k :| 0 <= k <= |Out(g, Last(item))| && paths == known + Ending(t, true, Children(g, item, k));
        CutPrefix(g, s, t, depth, d, i, before, known, k);
        break;
      }
      d, i := ExtendStep(g, s, t, depth, d, i, before, known);
    }
    if !cutoff {
      Finish(g, s, t, depth, d, i, paths);
    }
    var why := if cutoff then MaxPathsReached else if paths == [] then NoPathWithinDepth else NoCutoff;
    r := Result(paths != [], paths, why, depth, limit);
  }
}
