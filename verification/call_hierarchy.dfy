/** The depth-limited walks of AnalyzeCallHierarchyWithOptions (analyzer/call_hierarchy.go)
    and FindCallersWithOptions (analyzer/callers.go). They differ in the edges they
    follow and are one method here, told apart by the direction. */
module CallHierarchy {
  import opened Wrappers
  import opened CallGraph

  datatype Direction = Callees | Callers

  /** An entry of result.Edges: the edge first met for its pair, and the depth then. */
  datatype Hit = Hit(edge: Edge, depth: nat)

  const DEFAULT_DEPTH := 3

  /** Callees are followed through at most three calls, callers through at most eight. */
  function EffectiveDepth(dir: Direction, maxDepth: int): (d: nat)
    ensures 1 <= d <= if dir.Callees? then 3 else 8
    ensures 1 <= maxDepth <= 3 || (dir.Callers? && 3 < maxDepth <= 8) ==> d == maxDepth
  {
    var most := if dir.Callees? then 3 else 8;
    if maxDepth <= 0 || maxDepth > most then DEFAULT_DEPTH else maxDepth
  }

  function Adjacent(dir: Direction, g: Graph, n: Node): seq<Edge> {
    if dir.Callees? then Out(g, n) else Into(g, n)
  }

  /** Both ends have functions; the walk skips the other edges. */
  predicate Live(g: Graph, e: Edge) {
    Named(g, e.caller) && Named(g, e.callee)
  }

  function Far(dir: Direction, e: Edge): Node
    requires e.caller.Some? && e.callee.Some?
  {
    if dir.Callees? then e.callee.value else e.caller.value
  }

  const ARROW := "->"

  /** The string an edge is recognised by. */
  function Key(g: Graph, e: Edge): string
    requires Live(g, e)
  {
    g.name[e.caller.value] + ARROW + g.name[e.callee.value]
  }

  predicate ArrowAt(s: string, k: nat) {
    k + 1 < |s| && s[k] == '-' && s[k + 1] == '>'
  }

  /** A name without the arrow, as Go's are. */
  ghost predicate NoArrow(s: string) {
    forall k: nat :: !ArrowAt(s, k)
  }

  lemma OnlyArrow(from: string, to: string, k: nat)
    requires NoArrow(from) && NoArrow(to)
    ensures ArrowAt(from + ARROW + to, k) <==> k == |from|
  {
    assert !ArrowAt(from, k);
    if k >= |from| + 2 {
      assert !ArrowAt(to, k - |from| - 2);
    }
  }

  /** The edge leads from a function of the one name to a function of the other. */
  predicate Joins(g: Graph, e: Edge, from: string, to: string) {
    Live(g, e) && g.name[e.caller.value] == from && g.name[e.callee.value] == to
  }

  /** The string tells a pair of names without the arrow from every other pair. */
  lemma KeyIff(g: Graph, e: Edge, from: string, to: string)
    requires Live(g, e) && NoArrow(from) && NoArrow(to)
    ensures Key(g, e) == from + ARROW + to <==> Joins(g, e, from, to)
  {
    var caller, callee := g.name[e.caller.value], g.name[e.callee.value];
    if Key(g, e) == from + ARROW + to {
      assert ArrowAt(Key(g, e), |caller|);
      OnlyArrow(from, to, |caller|);
      assert Key(g, e)[..|caller|] == caller && (from + ARROW + to)[..|from|] == from;
      assert Key(g, e)[|caller| + 2..] == callee && (from + ARROW + to)[|from| + 2..] == to;
    }
  }

  // ---------- distance ----------

  ghost predicate Step(dir: Direction, g: Graph, n: Node, e: Edge, m: Node) {
    e in Adjacent(dir, g, n) && Live(g, e) && Far(dir, e) == m
  }

  /** There is a walk of exactly k live edges from root to n. */
  ghost predicate Walk(dir: Direction, g: Graph, root: Node, k: nat, n: Node) {
    if k == 0 then n == root
    else exists e, m :: Walk(dir, g, root, k - 1, m) && Step(dir, g, m, e, n)
  }

  // ---------- the walk ----------

  datatype Visit = Visit(seen: map<Node, nat>, keys: set<string>, hits: seq<Hit>)

  /** The first k live edges of n lead to nodes seen at depth d or less. */
  ghost predicate FarSeen(dir: Direction, g: Graph, v: Visit, n: Node, k: nat, d: nat) {
    forall i :: 0 <= i < k && i < |Adjacent(dir, g, n)| && Live(g, Adjacent(dir, g, n)[i]) ==>
      var m := Far(dir, Adjacent(dir, g, n)[i]);
      m in v.seen && v.seen[m] <= d
  }

  ghost predicate KeysSeen(dir: Direction, g: Graph, v: Visit, n: Node, k: nat) {
    forall i :: 0 <= i < k && i < |Adjacent(dir, g, n)| && Live(g, Adjacent(dir, g, n)[i]) ==>
      Key(g, Adjacent(dir, g, n)[i]) in v.keys
  }

  /** n's edges have all been followed from its recorded depth. */
  ghost predicate Settled(dir: Direction, g: Graph, maxDepth: nat, v: Visit, n: Node) {
    && n in v.seen
    && KeysSeen(dir, g, v, n, |Adjacent(dir, g, n)|)
    && (v.seen[n] < maxDepth ==> FarSeen(dir, g, v, n, |Adjacent(dir, g, n)|, v.seen[n] + 1))
  }

  /** Every recorded depth is one more than the length of some walk. */
  ghost predicate SeenByWalk(dir: Direction, g: Graph, root: Node, maxDepth: nat, v: Visit) {
    forall n :: n in v.seen ==> 1 <= v.seen[n] <= maxDepth && Walk(dir, g, root, v.seen[n] - 1, n)
  }

  /** The call that made the hit stood on m, at the hit's depth. */
  ghost predicate HitFrom(dir: Direction, g: Graph, root: Node, maxDepth: nat, v: Visit, h: Hit, m: Node) {
    && h.edge in Adjacent(dir, g, m) && Live(g, h.edge) && m in v.seen
    && 1 <= h.depth <= maxDepth && Walk(dir, g, root, h.depth - 1, m)
  }

  ghost predicate HitMade(dir: Direction, g: Graph, root: Node, maxDepth: nat, v: Visit, h: Hit) {
    exists m :: HitFrom(dir, g, root, maxDepth, v, h, m)
  }

  /** The reported edges and the recognised strings are one to one. */
  ghost predicate HitsMatchKeys(dir: Direction, g: Graph, root: Node, maxDepth: nat, v: Visit) {
    && (forall i :: 0 <= i < |v.hits| ==>
          Live(g, v.hits[i].edge) && Key(g, v.hits[i].edge) in v.keys
          && HitMade(dir, g, root, maxDepth, v, v.hits[i]))
    && (forall i, j :: 0 <= i < j < |v.hits| ==> Key(g, v.hits[i].edge) != Key(g, v.hits[j].edge))
    && (forall k {:trigger k in v.keys} :: k in v.keys ==> Reported(g, v.hits, k))
  }

  ghost predicate Reported(g: Graph, hits: seq<Hit>, key: string) {
    exists i :: 0 <= i < |hits| && Live(g, hits[i].edge) && Key(g, hits[i].edge) == key
  }

  /** The state between calls: only the active nodes, whose calls are still running
      at smaller depths, may have edges left. */
  ghost predicate Inv(dir: Direction, g: Graph, root: Node, maxDepth: nat, v: Visit, active: set<Node>, depth: nat) {
    && SeenByWalk(dir, g, root, maxDepth, v)
    && HitsMatchKeys(dir, g, root, maxDepth, v)
    && (forall n :: n in v.seen && n !in active ==> Settled(dir, g, maxDepth, v, n))
    && (forall n :: n in active ==> n in v.seen && v.seen[n] < depth)
  }

  /** What a call at the given depth may change. */
  ghost predicate After(v: Visit, w: Visit, depth: nat) {
    && (forall n :: n in v.seen ==> n in w.seen && w.seen[n] <= v.seen[n])
    && (forall n :: n in w.seen ==> (n in v.seen && w.seen[n] == v.seen[n]) || depth <= w.seen[n])
    && v.keys <= w.keys
  }

  lemma FarSeenAfter(dir: Direction, g: Graph, v: Visit, w: Visit, depth: nat, n: Node, k: nat, d: nat)
    requires After(v, w, depth) && FarSeen(dir, g, v, n, k, d)
    ensures FarSeen(dir, g, w, n, k, d)
  {
  }

  lemma KeysSeenAfter(dir: Direction, g: Graph, v: Visit, w: Visit, n: Node, k: nat)
    requires v.keys <= w.keys && KeysSeen(dir, g, v, n, k)
    ensures KeysSeen(dir, g, w, n, k)
  {
  }

  lemma SettledAfter(dir: Direction, g: Graph, maxDepth: nat, v: Visit, w: Visit, depth: nat, n: Node)
    requires After(v, w, depth) && Settled(dir, g, maxDepth, v, n) && w.seen[n] == v.seen[n]
    ensures Settled(dir, g, maxDepth, w, n)
  {
    hide FarSeen, KeysSeen;
    KeysSeenAfter(dir, g, v, w, n, |Adjacent(dir, g, n)|);
    if v.seen[n] < maxDepth {
      FarSeenAfter(dir, g, v, w, depth, n, |Adjacent(dir, g, n)|, v.seen[n] + 1);
    }
  }

  /** Entering node at a smaller depth than before. */
  lemma EnterKeeps(dir: Direction, g: Graph, root: Node, maxDepth: nat, v: Visit, active: set<Node>, node: Node,
                   depth: nat)
    requires Inv(dir, g, root, maxDepth, v, active, depth) && 1 <= depth <= maxDepth
    requires Walk(dir, g, root, depth - 1, node) && (node in v.seen ==> depth < v.seen[node])
    ensures var w := v.(seen := v.seen[node := depth]);
      && Inv(dir, g, root, maxDepth, w, active + {node}, depth + 1) && After(v, w, depth)
      && node !in active
  {
    hide FarSeen, KeysSeen, Walk, HitsMatchKeys;
    var w := v.(seen := v.seen[node := depth]);
    assert After(v, w, depth);
    forall n | n in w.seen && n !in active + {node}
      ensures Settled(dir, g, maxDepth, w, n)
    {
      SettledAfter(dir, g, maxDepth, v, w, depth, n);
    }
    HitsAfter(dir, g, root, maxDepth, v, w);
  }

  lemma HitsAfter(dir: Direction, g: Graph, root: Node, maxDepth: nat, v: Visit, w: Visit)
    requires HitsMatchKeys(dir, g, root, maxDepth, v) && w.keys == v.keys && w.hits == v.hits
    requires forall n :: n in v.seen ==> n in w.seen
    ensures HitsMatchKeys(dir, g, root, maxDepth, w)
  {
    hide Walk;
    forall i | 0 <= i < |w.hits|
      ensures HitMade(dir, g, root, maxDepth, w, w.hits[i])
    {
      assert HitMade(dir, g, root, maxDepth, v, v.hits[i]);
      var m :| HitFrom(dir, g, root, maxDepth, v, v.hits[i], m);
      assert HitFrom(dir, g, root, maxDepth, w, w.hits[i], m);
    }
  }

  /** The visit after an edge of node has been looked at. */
  function Report(g: Graph, v: Visit, e: Edge, depth: nat): Visit
    requires Live(g, e)
  {
    if Key(g, e) in v.keys then v else v.(keys := v.keys + {Key(g, e)}, hits := v.hits + [Hit(e, depth)])
  }

  lemma ReportKeepsHits(dir: Direction, g: Graph, root: Node, maxDepth: nat, v: Visit, node: Node, e: Edge, depth: nat)
    requires HitsMatchKeys(dir, g, root, maxDepth, v)
    requires Live(g, e) && HitFrom(dir, g, root, maxDepth, v, Hit(e, depth), node)
    ensures HitsMatchKeys(dir, g, root, maxDepth, Report(g, v, e, depth))
  {
    hide Walk;
    var w := Report(g, v, e, depth);
    if Key(g, e) !in v.keys {
      forall i | 0 <= i < |w.hits|
        ensures Live(g, w.hits[i].edge) && Key(g, w.hits[i].edge) in w.keys
        ensures HitMade(dir, g, root, maxDepth, w, w.hits[i])
      {
        var m := node;
        if i < |v.hits| {
          assert HitMade(dir, g, root, maxDepth, v, v.hits[i]);
          m :| HitFrom(dir, g, root, maxDepth, v, v.hits[i], m);
        }
        assert HitFrom(dir, g, root, maxDepth, w, w.hits[i], m);
      }
      forall i, j | 0 <= i < j < |w.hits|
        ensures Key(g, w.hits[i].edge) != Key(g, w.hits[j].edge)
      {
        assert Key(g, v.hits[i].edge) in v.keys;
      }
      forall k | k in w.keys
        ensures Reported(g, w.hits, k)
      {
        if k in v.keys {
          assert Reported(g, v.hits, k);
          var i :| 0 <= i < |v.hits| && Live(g, v.hits[i].edge) && Key(g, v.hits[i].edge) == k;
          assert w.hits[i] == v.hits[i];
        } else {
          assert w.hits[|v.hits|] == Hit(e, depth);
        }
      }
    }
  }

  lemma ReportKeeps(dir: Direction, g: Graph, root: Node, maxDepth: nat, v: Visit, active: set<Node>, depth: nat,
                    node: Node, e: Edge)
    requires Inv(dir, g, root, maxDepth, v, active, depth + 1)
    requires node in v.seen && v.seen[node] == depth && e in Adjacent(dir, g, node) && Live(g, e)
    ensures var w := Report(g, v, e, depth);
      Inv(dir, g, root, maxDepth, w, active, depth + 1) && After(v, w, depth + 1) && Key(g, e) in w.keys &&
        w.seen == v.seen
  {
    hide FarSeen, KeysSeen, Walk, HitsMatchKeys;
    var w := Report(g, v, e, depth);
    assert HitFrom(dir, g, root, maxDepth, v, Hit(e, depth), node);
    ReportKeepsHits(dir, g, root, maxDepth, v, node, e, depth);
    assert After(v, w, depth + 1);
    forall n | n in w.seen && n !in active
      ensures Settled(dir, g, maxDepth, w, n)
    {
      SettledAfter(dir, g, maxDepth, v, w, depth + 1, n);
    }
  }

  /** node's edges are all followed: it joins the settled nodes. */
  lemma LeaveKeeps(dir: Direction, g: Graph, root: Node, maxDepth: nat, v: Visit, active: set<Node>, node: Node,
                   depth: nat)
    requires Inv(dir, g, root, maxDepth, v, active + {node}, depth + 1)
    requires node in v.seen && v.seen[node] == depth && node !in active
    requires forall n :: n in active ==> n in v.seen && v.seen[n] < depth
    requires KeysSeen(dir, g, v, node, |Adjacent(dir, g, node)|)
    requires depth < maxDepth ==> FarSeen(dir, g, v, node, |Adjacent(dir, g, node)|, depth + 1)
    ensures Inv(dir, g, root, maxDepth, v, active, depth)
  {
    hide FarSeen, KeysSeen, Walk, HitsMatchKeys, SeenByWalk;
  }

  /** The closure variables of walk. */
  class Walker {
    const dir: Direction
    const g: Graph
    const root: Node
    const maxDepth: nat
    var seenNodes: map<Node, nat>
    var seenEdges: set<string>
    var edges: seq<Hit>

    constructor (dir: Direction, g: Graph, root: Node, maxDepth: nat)
      ensures this.dir == dir && this.g == g && this.root == root && this.maxDepth == maxDepth
      ensures V() == Visit(map[], {}, [])
    {
      this.dir, this.g, this.root, this.maxDepth := dir, g, root, maxDepth;
      seenNodes, seenEdges, edges := map[], {}, [];
    }

    ghost function V(): Visit
      reads this
    {
      Visit(seenNodes, seenEdges, edges)
    }

    /** walk(node, depth). active: the nodes of the calls this one is nested in. */
    method WalkFrom(node: Node, depth: nat, ghost active: set<Node>)
      requires 1 <= depth && Walk(dir, g, root, depth - 1, node)
      requires Inv(dir, g, root, maxDepth, V(), active, depth)
      modifies this
      ensures Inv(dir, g, root, maxDepth, V(), active, depth) && After(old(V()), V(), depth)
      ensures depth <= maxDepth ==> node in seenNodes && seenNodes[node] <= depth
      decreases if depth <= maxDepth then maxDepth + 1 - depth else 0
    {
      hide Walk, Inv, After, FarSeen, KeysSeen;
      ghost var before := V();
      AfterSelf(before, depth);
      if depth > maxDepth {
        return;
      }
      if node in seenNodes && seenNodes[node] <= depth {
        return;
      }
      EnterKeeps(dir, g, root, maxDepth, V(), active, node, depth);
      seenNodes := seenNodes[node := depth];
      StartEdges(dir, g, V(), node, depth + 1);
      for i := 0 to |Adjacent(dir, g, node)|
        invariant node in seenNodes && seenNodes[node] == depth
        invariant Inv(dir, g, root, maxDepth, V(), active + {node}, depth + 1)
        invariant After(before, V(), depth)
        invariant KeysSeen(dir, g, V(), node, i)
        invariant depth < maxDepth ==> FarSeen(dir, g, V(), node, i, depth + 1)
      {
        var edge := Adjacent(dir, g, node)[i];
        ghost var u := V();
        if !Live(g, edge) {
          SkipEdge(dir, g, u, node, i, depth + 1);
          continue;
        }
        ReportKeeps(dir, g, root, maxDepth, u, active + {node}, depth, node, edge);
        var key := Key(g, edge);
        if key !in seenEdges {
          seenEdges := seenEdges + {key};
          edges := edges + [Hit(edge, depth)];
        }
        ghost var v := V();
        assert v == Report(g, u, edge, depth);
        WalkStep(dir, g, root, depth, node, edge);
        WalkFrom(Far(dir, edge), depth + 1, active + {node});
        EdgeDone(dir, g, before, u, v, V(), node, i, depth, maxDepth);
      }
      ActiveBelow(dir, g, root, maxDepth, before, V(), active, depth);
      LeaveKeeps(dir, g, root, maxDepth, V(), active, node, depth);
    }
  }

  lemma AfterSelf(v: Visit, depth: nat)
    ensures After(v, v, depth)
  {
  }

  lemma StartEdges(dir: Direction, g: Graph, v: Visit, n: Node, d: nat)
    ensures KeysSeen(dir, g, v, n, 0) && FarSeen(dir, g, v, n, 0, d)
  {
  }

  lemma SkipEdge(dir: Direction, g: Graph, v: Visit, n: Node, i: nat, d: nat)
    requires i < |Adjacent(dir, g, n)| && !Live(g, Adjacent(dir, g, n)[i])
    ensures KeysSeen(dir, g, v, n, i) ==> KeysSeen(dir, g, v, n, i + 1)
    ensures FarSeen(dir, g, v, n, i, d) ==> FarSeen(dir, g, v, n, i + 1, d)
  {
  }

  lemma WalkStep(dir: Direction, g: Graph, root: Node, depth: nat, node: Node, e: Edge)
    requires 1 <= depth && Walk(dir, g, root, depth - 1, node)
    requires e in Adjacent(dir, g, node) && Live(g, e)
    ensures Walk(dir, g, root, depth, Far(dir, e))
  {
    assert Step(dir, g, node, e, Far(dir, e));
  }

  /** One edge looked at and its far node walked. */
  lemma EdgeDone(dir: Direction, g: Graph, before: Visit, u: Visit, v: Visit, w: Visit, node: Node, i: nat, depth: nat,
                 maxDepth: nat)
    requires i < |Adjacent(dir, g, node)| && Live(g, Adjacent(dir, g, node)[i])
    requires After(before, u, depth) && After(u, v, depth + 1) && After(v, w, depth + 1)
    requires node in u.seen && u.seen[node] == depth
    requires KeysSeen(dir, g, u, node, i) && Key(g, Adjacent(dir, g, node)[i]) in v.keys
    requires depth < maxDepth ==> FarSeen(dir, g, u, node, i, depth + 1)
    requires depth < maxDepth ==>
      var m := Far(dir, Adjacent(dir, g, node)[i]);
      m in w.seen && w.seen[m] <= depth + 1
    ensures After(before, w, depth) && node in w.seen && w.seen[node] == depth
    ensures KeysSeen(dir, g, w, node, i + 1)
    ensures depth < maxDepth ==> FarSeen(dir, g, w, node, i + 1, depth + 1)
  {
  }

  /** The nested calls leave the depths of the enclosing calls' nodes alone. */
  lemma ActiveBelow(dir: Direction, g: Graph, root: Node, maxDepth: nat, v: Visit, w: Visit, active: set<Node>,
                    depth: nat)
    requires Inv(dir, g, root, maxDepth, v, active, depth) && After(v, w, depth)
    ensures forall n :: n in active ==> n in w.seen && w.seen[n] < depth
  {
  }

  // ---------- what a whole walk reports ----------

  ghost predicate Within(dir: Direction, g: Graph, root: Node, d: nat, n: Node) {
    exists k: nat :: k <= d && Walk(dir, g, root, k, n)
  }

  /** d is the length of a shortest walk from root to n. */
  ghost predicate IsDistance(dir: Direction, g: Graph, root: Node, d: nat, n: Node) {
    Walk(dir, g, root, d, n) && forall k: nat :: Walk(dir, g, root, k, n) ==> d <= k
  }

  /** Every walk of fewer than maxDepth edges ends in a node seen no later than that. */
  lemma {:induction false} WalksAreSeen(dir: Direction, g: Graph, root: Node, maxDepth: nat, v: Visit, k: nat, n: Node)
    requires Inv(dir, g, root, maxDepth, v, {}, 1) && root in v.seen && v.seen[root] <= 1
    requires Walk(dir, g, root, k, n) && k < maxDepth
    ensures n in v.seen && v.seen[n] <= k + 1
  {
    if k > 0 {
      var e, m :| Walk(dir, g, root, k - 1, m) && Step(dir, g, m, e, n);
      WalksAreSeen(dir, g, root, maxDepth, v, k - 1, m);
      assert Settled(dir, g, maxDepth, v, m);
      var i :| 0 <= i < |Adjacent(dir, g, m)| && Adjacent(dir, g, m)[i] == e;
    }
  }

  /** The recorded depths are the distances plus one. */
  lemma SeenAreDistances(dir: Direction, g: Graph, root: Node, maxDepth: nat, v: Visit, n: Node)
    requires Inv(dir, g, root, maxDepth, v, {}, 1) && root in v.seen && v.seen[root] <= 1 && maxDepth > 0
    ensures n in v.seen <==> Within(dir, g, root, maxDepth - 1, n)
    ensures n in v.seen ==> v.seen[n] > 0 && IsDistance(dir, g, root, v.seen[n] - 1, n)
  {
    hide Settled, HitsMatchKeys;
    if n in v.seen {
      forall k: nat | Walk(dir, g, root, k, n)
        ensures v.seen[n] - 1 <= k
      {
        if k < maxDepth {
          WalksAreSeen(dir, g, root, maxDepth, v, k, n);
        }
      }
    }
    if Within(dir, g, root, maxDepth - 1, n) {
      var k: nat :| k <= maxDepth - 1 && Walk(dir, g, root, k, n);
      WalksAreSeen(dir, g, root, maxDepth, v, k, n);
    }
  }

  ghost predicate LiveEdgeWithin(dir: Direction, g: Graph, root: Node, d: nat, e: Edge, n: Node) {
    Within(dir, g, root, d, n) && e in Adjacent(dir, g, n) && Live(g, e)
  }

  /** Some live edge with these names starts at a node within d. */
  ghost predicate PairWithin(dir: Direction, g: Graph, root: Node, d: nat, key: string) {
    exists e, n :: LiveEdgeWithin(dir, g, root, d, e, n) && Key(g, e) == key
  }

  lemma ReportedIsWithin(dir: Direction, g: Graph, root: Node, maxDepth: nat, v: Visit, key: string)
    requires Inv(dir, g, root, maxDepth, v, {}, 1) && root in v.seen && v.seen[root] <= 1 && maxDepth > 0
    requires Reported(g, v.hits, key)
    ensures PairWithin(dir, g, root, maxDepth - 1, key)
  {
    hide Walk, Within, Settled, SeenByWalk;
    var i :| 0 <= i < |v.hits| && Live(g, v.hits[i].edge) && Key(g, v.hits[i].edge) == key;
    assert HitMade(dir, g, root, maxDepth, v, v.hits[i]);
    var m :| HitFrom(dir, g, root, maxDepth, v, v.hits[i], m);
    SeenAreDistances(dir, g, root, maxDepth, v, m);
    assert LiveEdgeWithin(dir, g, root, maxDepth - 1, v.hits[i].edge, m);
  }

  lemma WithinIsReported(dir: Direction, g: Graph, root: Node, maxDepth: nat, v: Visit, key: string)
    requires Inv(dir, g, root, maxDepth, v, {}, 1) && root in v.seen && v.seen[root] <= 1 && maxDepth > 0
    requires PairWithin(dir, g, root, maxDepth - 1, key)
    ensures Reported(g, v.hits, key)
  {
    hide Walk, Within, HitMade, FarSeen, SeenByWalk, Reported;
    var e, n :| LiveEdgeWithin(dir, g, root, maxDepth - 1, e, n) && Key(g, e) == key;
    SeenAreDistances(dir, g, root, maxDepth, v, n);
    assert Settled(dir, g, maxDepth, v, n);
    var i :| 0 <= i < |Adjacent(dir, g, n)| && Adjacent(dir, g, n)[i] == e;
    assert key in v.keys;
  }

  lemma ReportedIffWithin(dir: Direction, g: Graph, root: Node, maxDepth: nat, v: Visit, key: string)
    requires Inv(dir, g, root, maxDepth, v, {}, 1) && root in v.seen && v.seen[root] <= 1 && maxDepth > 0
    ensures Reported(g, v.hits, key) <==> PairWithin(dir, g, root, maxDepth - 1, key)
  {
    hide Inv, Reported, PairWithin;
    if Reported(g, v.hits, key) {
      ReportedIsWithin(dir, g, root, maxDepth, v, key);
    }
    if PairWithin(dir, g, root, maxDepth - 1, key) {
      WithinIsReported(dir, g, root, maxDepth, v, key);
    }
  }

  /** A hit has these names. */
  ghost predicate HasPair(g: Graph, hits: seq<Hit>, from: string, to: string) {
    exists i :: 0 <= i < |hits| && Joins(g, hits[i].edge, from, to)
  }

  /** Some live edge with these names starts at a node within d. */
  ghost predicate JoinedWithin(dir: Direction, g: Graph, root: Node, d: nat, from: string, to: string) {
    exists e, n :: LiveEdgeWithin(dir, g, root, d, e, n) && Joins(g, e, from, to)
  }

  /** On names alone: what is reported for the string is reported for the names, once. */
  lemma PairIff(dir: Direction, g: Graph, root: Node, d: nat, hits: seq<Hit>, from: string, to: string)
    requires Reported(g, hits, from + ARROW + to) <==> PairWithin(dir, g, root, d, from + ARROW + to)
    requires forall i :: 0 <= i < |hits| ==> Live(g, hits[i].edge)
    requires forall i, j :: 0 <= i < j < |hits| ==> Key(g, hits[i].edge) != Key(g, hits[j].edge)
    requires NoArrow(from) && NoArrow(to)
    ensures HasPair(g, hits, from, to) <==> JoinedWithin(dir, g, root, d, from, to)
    ensures forall i, j :: 0 <= i < j < |hits| && Joins(g, hits[i].edge, from, to) ==> !Joins(g, hits[j].edge, from, to)
  {
    hide Within, NoArrow, Key, Joins;
    forall e | Live(g, e)
      ensures Key(g, e) == from + ARROW + to <==> Joins(g, e, from, to)
    {
      KeyIff(g, e, from, to);
    }
    assert forall e :: Joins(g, e, from, to) ==> Live(g, e) by {
      JoinsIsLive(g, from, to);
    }
  }

  lemma JoinsIsLive(g: Graph, from: string, to: string)
    ensures forall e :: Joins(g, e, from, to) ==> Live(g, e)
  {
  }

  /** The edge was met at the end of a walk of exactly h.depth edges. */
  ghost predicate MetAfterWalk(dir: Direction, g: Graph, root: Node, h: Hit) {
    h.depth >= 1 && exists m :: h.edge in Adjacent(dir, g, m) && Walk(dir, g, root, h.depth - 1, m)
  }

  /** What a finished walk leaves behind. */
  lemma WalkReports(dir: Direction, g: Graph, root: Node, maxDepth: nat, v: Visit)
    requires Inv(dir, g, root, maxDepth, v, {}, 1) && root in v.seen && v.seen[root] <= 1 && maxDepth > 0
    ensures forall n :: n in v.seen <==> Within(dir, g, root, maxDepth - 1, n)
    ensures forall n :: n in v.seen ==> v.seen[n] > 0 && IsDistance(dir, g, root, v.seen[n] - 1, n)
    ensures forall key :: Reported(g, v.hits, key) <==> PairWithin(dir, g, root, maxDepth - 1, key)
    ensures forall i :: 0 <= i < |v.hits| ==>
      Live(g, v.hits[i].edge) && v.hits[i].depth <= maxDepth && MetAfterWalk(dir, g, root, v.hits[i])
    ensures forall i, j :: 0 <= i < j < |v.hits| ==> Key(g, v.hits[i].edge) != Key(g, v.hits[j].edge)
  {
    hide Walk, Settled, Within, Reported, PairWithin;
    forall n
      ensures n in v.seen <==> Within(dir, g, root, maxDepth - 1, n)
      ensures n in v.seen ==> v.seen[n] > 0 && IsDistance(dir, g, root, v.seen[n] - 1, n)
    {
      SeenAreDistances(dir, g, root, maxDepth, v, n);
    }
    forall key
      ensures Reported(g, v.hits, key) <==> PairWithin(dir, g, root, maxDepth - 1, key)
    {
      ReportedIffWithin(dir, g, root, maxDepth, v, key);
    }
    forall i | 0 <= i < |v.hits|
      ensures Live(g, v.hits[i].edge) && v.hits[i].depth <= maxDepth && MetAfterWalk(dir, g, root, v.hits[i])
    {
      var m :| HitFrom(dir, g, root, maxDepth, v, v.hits[i], m);
    }
  }

  /** The edge collection of AnalyzeCallHierarchyWithOptions and FindCallersWithOptions
      (before sorting), with the depth map that drives it. */
  method CollectEdges(dir: Direction, g: Graph, root: Node, maxDepth: int)
    returns (seen: map<Node, nat>, hits: seq<Hit>)
    ensures var d := EffectiveDepth(dir, maxDepth);
      && (forall n :: n in seen <==> Within(dir, g, root, d - 1, n))
      && (forall n :: n in seen ==> seen[n] > 0 && IsDistance(dir, g, root, seen[n] - 1, n))
      && (forall key :: Reported(g, hits, key) <==> PairWithin(dir, g, root, d - 1, key))
      && (forall i :: 0 <= i < |hits| ==>
         Live(g, hits[i].edge) && hits[i].depth <= d && MetAfterWalk(dir, g, root, hits[i]))
    ensures forall i, j :: 0 <= i < j < |hits| ==> Key(g, hits[i].edge) != Key(g, hits[j].edge)
    ensures forall from, to :: NoArrow(from) && NoArrow(to) ==>
      && (HasPair(g, hits, from, to) <==> JoinedWithin(dir, g, root, EffectiveDepth(dir, maxDepth) - 1, from, to))
      && (forall i, j :: 0 <= i < j < |hits| && Joins(g, hits[i].edge, from, to) ==>
            !Joins(g, hits[j].edge, from, to))
  {
    hide Walk, Within, IsDistance, Inv, After, Reported, PairWithin, HasPair, JoinedWithin, NoArrow, Joins, Key;
    hide MetAfterWalk;
    var d := EffectiveDepth(dir, maxDepth);
    var walker := new Walker(dir, g, root, d);
    StartKeeps(dir, g, root, d);
    walker.WalkFrom(root, 1, {});
    seen, hits := walker.seenNodes, walker.edges;
    WalkReports(dir, g, root, d, walker.V());
    forall from, to | NoArrow(from) && NoArrow(to)
      ensures HasPair(g, hits, from, to) <==> JoinedWithin(dir, g, root, d - 1, from, to)
      ensures forall i, j :: 0 <= i < j < |hits| && Joins(g, hits[i].edge, from, to) ==>
        !Joins(g, hits[j].edge, from, to)
    {
      PairIff(dir, g, root, d - 1, hits, from, to);
    }
  }

  lemma StartKeeps(dir: Direction, g: Graph, root: Node, maxDepth: nat)
    ensures Walk(dir, g, root, 0, root) && Inv(dir, g, root, maxDepth, Visit(map[], {}, []), {}, 1)
  {
  }

  // ---------- callers are callees of the reversed graph ----------

  /** Each live edge is listed at both its ends, and nowhere else. */
  ghost predicate TwoSided(g: Graph) {
    && (forall n, e :: e in Out(g, n) && Live(g, e) ==> e.caller.value == n && e in Into(g, e.callee.value))
    && (forall n, e :: e in Into(g, n) && Live(g, e) ==> e.callee.value == n && e in Out(g, e.caller.value))
  }

  lemma {:induction false} WalkPrepend(dir: Direction, g: Graph, a: Node, e: Edge, b: Node, k: nat, n: Node)
    requires Step(dir, g, a, e, b) && Walk(dir, g, b, k, n)
    ensures Walk(dir, g, a, k + 1, n)
  {
    if k == 0 {
      assert Walk(dir, g, a, 0, a);
    } else {
      var f, m :| Walk(dir, g, b, k - 1, m) && Step(dir, g, m, f, n);
      WalkPrepend(dir, g, a, e, b, k - 1, m);
    }
  }

  function Opposite(dir: Direction): Direction {
    if dir.Callees? then Callers else Callees
  }

  lemma StepReversed(dir: Direction, g: Graph, m: Node, e: Edge, n: Node)
    requires TwoSided(g) && Step(dir, g, m, e, n)
    ensures Step(Opposite(dir), g, n, e, m)
  {
  }

  lemma LastStep(dir: Direction, g: Graph, root: Node, k: nat, n: Node) returns (e: Edge, m: Node)
    requires k > 0 && Walk(dir, g, root, k, n)
    ensures Walk(dir, g, root, k - 1, m) && Step(dir, g, m, e, n)
  {
    e, m :| Walk(dir, g, root, k - 1, m) && Step(dir, g, m, e, n);
  }

  lemma NoStep(dir: Direction, other: Direction, g: Graph, root: Node, n: Node)
    ensures Walk(dir, g, root, 0, n) ==> Walk(other, g, n, 0, root)
  {
  }

  /** A walk over incoming edges from root to n is a call chain from n to root. */
  lemma {:induction false} WalkReversed(dir: Direction, g: Graph, root: Node, k: nat, n: Node)
    requires TwoSided(g) && Walk(dir, g, root, k, n)
    ensures Walk(Opposite(dir), g, n, k, root)
  {
    hide Walk, Step, TwoSided;
    if k == 0 {
      NoStep(dir, Opposite(dir), g, root, n);
    } else {
      var e, m := LastStep(dir, g, root, k, n);
      WalkReversed(dir, g, root, k - 1, m);
      StepReversed(dir, g, m, e, n);
      WalkPrepend(Opposite(dir), g, n, e, m, k - 1, root);
    }
  }

  /** So FindCallers measures how many calls a function is away from the root. */
  lemma CallersDistance(g: Graph, root: Node, d: nat, n: Node)
    requires TwoSided(g)
    ensures IsDistance(Callers, g, root, d, n) <==> IsDistance(Callees, g, n, d, root)
  {
    forall k: nat
      ensures Walk(Callers, g, root, k, n) <==> Walk(Callees, g, n, k, root)
    {
      if Walk(Callers, g, root, k, n) {
        WalkReversed(Callers, g, root, k, n);
      }
      if Walk(Callees, g, n, k, root) {
        WalkReversed(Callees, g, n, k, root);
      }
    }
  }
}
