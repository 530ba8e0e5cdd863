/** The invariant of Tarjan's search, apart from the data structures that carry it. */
module TarjanInvariant {
  import opened ImportGraph

  /** num: visiting order of the nodes met so far; open: nodes on the stack;
      done: nodes whose component was emitted; gray: nodes whose call is running. */
  datatype State = State(idx: nat, num: map<string, nat>, open: set<string>, done: set<string>, gray: set<string>)

  ghost predicate Shape(g: Graph, s: State) {
    && s.num.Keys <= g.Keys
    && (forall u :: u in s.num ==> s.num[u] < s.idx)
    && s.num.Keys == s.open + s.done
    && s.open !! s.done
    && s.gray <= s.open
  }

  /** A visited node that is not gray has no unvisited successor. */
  ghost predicate NoBlackToWhite(g: Graph, s: State) {
    forall u, w :: u in s.num && u !in s.gray && Edge(g, u, w) ==> w in s.num
  }

  /** A gray node reaches all that lies above it on the stack. */
  ghost predicate GrayReachesUp(g: Graph, s: State)
    requires Shape(g, s)
  {
    forall x, y :: x in s.gray && y in s.open && s.num[x] <= s.num[y] ==> Reaches(g, x, y)
  }

  ghost predicate Anchored(g: Graph, s: State, y: string, x: string)
    requires Shape(g, s) && y in s.open
  {
    x in s.gray && s.num[x] <= s.num[y] && Reaches(g, y, x)
  }

  ghost predicate HasAnchor(g: Graph, s: State, y: string)
    requires Shape(g, s) && y in s.open
  {
    exists x :: Anchored(g, s, y, x)
  }

  /** Every node on the stack reaches a gray node at or below it. */
  ghost predicate OpenReachesGray(g: Graph, s: State)
    requires Shape(g, s)
  {
    forall y {:trigger HasAnchor(g, s, y)} :: y in s.open ==> HasAnchor(g, s, y)
  }

  lemma AnchorOf(g: Graph, s: State, y: string) returns (x: string)
    requires Shape(g, s) && OpenReachesGray(g, s) && y in s.open
    ensures Anchored(g, s, y, x)
  {
    assert HasAnchor(g, s, y);
    x :| Anchored(g, s, y, x);
  }

  ghost predicate Inv(g: Graph, s: State) {
    && Shape(g, s)
    && NoBlackToWhite(g, s)
    && GrayReachesUp(g, s)
    && OpenReachesGray(g, s)
    && Closed(g, s.done)
  }

  /** Every running call leads to v. */
  ghost predicate GrayReaches(g: Graph, s: State, v: string) {
    forall x :: x in s.gray ==> Reaches(g, x, v)
  }

  /** What a later state keeps of an earlier one; nodes met since have larger numbers. */
  ghost predicate Extends(s: State, t: State) {
    && s.idx <= t.idx
    && s.num.Keys <= t.num.Keys
    && (forall u :: u in s.num ==> t.num[u] == s.num[u])
    && (forall u :: u in t.num && u !in s.num ==> s.idx <= t.num[u])
    && s.open <= t.open
    && s.done <= t.done
    && s.gray == t.gray
  }

  ghost predicate LowReached(g: Graph, s: State, v: string, l: nat)
    requires Shape(g, s)
  {
    exists y :: y in s.open && s.num[y] == l && Reaches(g, v, y)
  }

  /** No edge from a node opened since s to a node open in s goes below l. */
  ghost predicate LowBounds(g: Graph, s: State, t: State, l: nat)
    requires Shape(g, s)
  {
    forall u, y :: u in t.open && u !in s.open && y in s.open && Edge(g, u, y) ==> l <= s.num[y]
  }

  /** What a finished call on v promises about its lowlink l: either v's component
      was emitted, or v stays on the stack with a way down to number l. */
  ghost predicate Finished(g: Graph, s: State, t: State, v: string, l: nat)
    requires Shape(g, s)
  {
    && v in t.num
    && if v in t.open then LowReached(g, s, v, l) && LowBounds(g, s, t, l)
       else t.open == s.open && s.idx <= l
  }

  function Entered(s: State, v: string): State {
    State(s.idx + 1, s.num[v := s.idx], s.open + {v}, s.done, s.gray + {v})
  }

  function Leave(s: State, v: string): State {
    s.(gray := s.gray - {v})
  }

  function Pop(s: State, v: string, top: set<string>): State {
    s.(gray := s.gray - {v}, open := s.open - top, done := s.done + top)
  }

  ghost predicate EdgesSeen(g: Graph, s: State, t: State, v: string, l: nat, i: nat)
    requires Shape(g, s) && v in g
  {
    forall j :: 0 <= j < i && j < |g[v]| && g[v][j] in g ==>
      g[v][j] in t.num && (g[v][j] in s.open ==> l <= s.num[g[v][j]])
  }

  /** The lowlink l of the running call on v after i of its edges. e is the state
      just after v was entered. */
  ghost predicate Walking(g: Graph, s: State, t: State, v: string, l: nat, i: nat)
    requires Shape(g, s) && v in g && v !in s.num
  {
    && Shape(g, t)
    && Extends(Entered(s, v), t)
    && LowReached(g, t, v, l) && l <= s.idx
    && LowBounds(g, Entered(s, v), t, l)
    && EdgesSeen(g, s, t, v, l, i)
  }

  lemma EnterShape(g: Graph, s: State, v: string)
    requires Shape(g, s) && v in g && v !in s.num
    ensures Shape(g, Entered(s, v))
  {
  }

  lemma EnterColors(g: Graph, s: State, v: string)
    requires Shape(g, s) && v in g && v !in s.num && NoBlackToWhite(g, s)
    ensures NoBlackToWhite(g, Entered(s, v))
  {
  }

  lemma EnterReachesUp(g: Graph, s: State, v: string)
    requires Shape(g, s) && v in g && v !in s.num && GrayReachesUp(g, s) && GrayReaches(g, s, v)
    requires Shape(g, Entered(s, v))
    ensures GrayReachesUp(g, Entered(s, v))
  {
    ReachesSelf(g, v);
  }

  lemma EnterAnchored(g: Graph, s: State, v: string)
    requires Shape(g, s) && v in g && v !in s.num && OpenReachesGray(g, s)
    requires Shape(g, Entered(s, v))
    ensures OpenReachesGray(g, Entered(s, v))
  {
    var t := Entered(s, v);
    ReachesSelf(g, v);
    forall y | y in t.open
      ensures HasAnchor(g, t, y)
    {
      if y == v {
        assert Anchored(g, t, v, v);
      } else {
        var x := AnchorOf(g, s, y);
        assert Anchored(g, t, y, x);
      }
    }
  }

  lemma EnterWalks(g: Graph, s: State, v: string)
    requires Shape(g, s) && v in g && v !in s.num && Shape(g, Entered(s, v))
    ensures Walking(g, s, Entered(s, v), v, s.idx, 0)
  {
    var t := Entered(s, v);
    ReachesSelf(g, v);
    assert v in t.open && t.num[v] == s.idx;
  }

  lemma EnterKeeps(g: Graph, s: State, v: string)
    requires Inv(g, s) && v in g && v !in s.num && GrayReaches(g, s, v)
    ensures Inv(g, Entered(s, v)) && Shape(g, s) && Shape(g, Entered(s, v))
    ensures Walking(g, s, Entered(s, v), v, s.idx, 0)
  {
    EnterShape(g, s, v);
    EnterColors(g, s, v);
    EnterReachesUp(g, s, v);
    EnterAnchored(g, s, v);
    EnterWalks(g, s, v);
  }

  lemma ExtendsTrans(s: State, t: State, r: State)
    requires Extends(s, t) && Extends(t, r)
    ensures Extends(s, r)
  {
  }

  lemma ChildLowReached(g: Graph, t: State, v: string, l: nat, w: string, r: State, lw: nat)
    requires Shape(g, t) && Shape(g, r) && Extends(t, r)
    requires LowReached(g, t, v, l) && l < t.idx && Edge(g, v, w) && Finished(g, t, r, w, lw)
    ensures LowReached(g, r, v, if lw < l then lw else l)
  {
    ReachesEdge(g, v, w);
    if lw < l {
      var y :| y in t.open && t.num[y] == lw && Reaches(g, w, y);
      ReachesTrans(g, v, w, y);
      assert y in r.open && r.num[y] == lw;
    } else {
      var y :| y in t.open && t.num[y] == l && Reaches(g, v, y);
      assert y in r.open && r.num[y] == l;
    }
  }

  lemma ChildLowBounds(g: Graph, e: State, t: State, l: nat, w: string, r: State, lw: nat)
    requires Shape(g, e) && Shape(g, t) && Shape(g, r) && Extends(e, t) && Extends(t, r)
    requires LowBounds(g, e, t, l) && Finished(g, t, r, w, lw)
    ensures LowBounds(g, e, r, if lw < l then lw else l)
  {
  }

  /** A finished call on an edge's target keeps the walk going, with l lowered to
      the target's lowlink when that is smaller. */
  lemma ChildKeeps(g: Graph, s: State, t: State, v: string, l: nat, i: nat, r: State, lw: nat)
    requires Shape(g, s) && v in g && v !in s.num && Walking(g, s, t, v, l, i)
    requires i < |g[v]| && g[v][i] in g && g[v][i] !in t.num
    requires Shape(g, r) && Extends(t, r) && Finished(g, t, r, g[v][i], lw)
    ensures Walking(g, s, r, v, if lw < l then lw else l, i + 1)
  {
    EnterShape(g, s, v);
    ExtendsTrans(Entered(s, v), t, r);
    ChildLowReached(g, t, v, l, g[v][i], r, lw);
    ChildLowBounds(g, Entered(s, v), t, l, g[v][i], r, lw);
  }

  /** An edge to a node on the stack lowers l to that node's number. */
  lemma BackEdgeKeeps(g: Graph, s: State, t: State, v: string, l: nat, i: nat)
    requires Shape(g, s) && v in g && v !in s.num && Walking(g, s, t, v, l, i)
    requires i < |g[v]| && g[v][i] in t.open
    ensures Walking(g, s, t, v, if t.num[g[v][i]] < l then t.num[g[v][i]] else l, i + 1)
  {
    ReachesEdge(g, v, g[v][i]);
  }

  /** An edge out of the loaded set, or to an emitted node, changes nothing. */
  lemma SkipKeeps(g: Graph, s: State, t: State, v: string, l: nat, i: nat)
    requires Shape(g, s) && v in g && v !in s.num && Walking(g, s, t, v, l, i)
    requires i < |g[v]| && (g[v][i] in g ==> g[v][i] in t.num && g[v][i] !in t.open)
    ensures Walking(g, s, t, v, l, i + 1)
  {
  }

  lemma GrayReachesChild(g: Graph, s: State, t: State, v: string, l: nat, i: nat, w: string)
    requires Shape(g, s) && v in g && v !in s.num && Walking(g, s, t, v, l, i)
    requires GrayReaches(g, s, v) && Edge(g, v, w)
    ensures GrayReaches(g, t, w)
  {
    ReachesEdge(g, v, w);
    forall x | x in t.gray
      ensures Reaches(g, x, w)
    {
      if x != v {
        ReachesTrans(g, x, v, w);
      }
    }
  }

  /** All edges of v walked: v's successors are visited, and those on the old stack
      are not below l. */
  lemma EdgesDone(g: Graph, s: State, t: State, v: string, l: nat)
    requires Shape(g, s) && v in g && EdgesSeen(g, s, t, v, l, |g[v]|)
    ensures forall w :: Edge(g, v, w) ==> w in t.num && (w in s.open ==> l <= s.num[w])
  {
    forall w | Edge(g, v, w)
      ensures w in t.num && (w in s.open ==> l <= s.num[w])
    {
      var j :| 0 <= j < |g[v]| && g[v][j] == w;
    }
  }

  /** The call on v ends with a lowlink below its number: v turns black and stays
      on the stack. */
  lemma LeaveKeeps(g: Graph, s: State, t: State, v: string, l: nat)
    requires Inv(g, s) && v in g && v !in s.num && GrayReaches(g, s, v)
    requires Inv(g, t) && Walking(g, s, t, v, l, |g[v]|) && v in t.num && l != t.num[v]
    ensures Shape(g, Leave(t, v)) && Inv(g, Leave(t, v))
    ensures Extends(s, Leave(t, v)) && Finished(g, s, Leave(t, v), v, l)
  {
    LeaveExtends(g, s, t, v);
    EdgesDone(g, s, t, v, l);
    LeaveAnchored(g, s, t, v, l);
    assert LowReached(g, s, v, l);
  }

  lemma LeaveExtends(g: Graph, s: State, t: State, v: string)
    requires Shape(g, s) && Shape(g, t) && v !in s.num && Extends(Entered(s, v), t)
    ensures Shape(g, Leave(t, v)) && Extends(s, Leave(t, v))
    ensures v in t.open && t.num[v] == s.idx
  {
    assert v in Entered(s, v).open;
    assert Leave(t, v).gray == s.gray;
  }

  lemma LowIsGray(g: Graph, s: State, t: State, v: string, l: nat) returns (x: string)
    requires Shape(g, s) && OpenReachesGray(g, s) && v !in s.num
    requires Shape(g, t) && Extends(Entered(s, v), t) && LowReached(g, t, v, l) && l < s.idx
    ensures x in s.gray && s.num[x] < s.idx && Reaches(g, v, x)
    ensures LowReached(g, s, v, l)
  {
    var y :| y in t.open && t.num[y] == l && Reaches(g, v, y);
    assert y in s.open;
    x := AnchorOf(g, s, y);
    ReachesTrans(g, v, y, x);
  }

  lemma LeaveAnchored(g: Graph, s: State, t: State, v: string, l: nat)
    requires Shape(g, s) && OpenReachesGray(g, s) && v in g && v !in s.num
    requires Shape(g, t) && OpenReachesGray(g, t) && Shape(g, Leave(t, v))
    requires Extends(Entered(s, v), t) && LowReached(g, t, v, l) && l < s.idx
    ensures OpenReachesGray(g, Leave(t, v))
    ensures LowReached(g, s, v, l)
  {
    var r := Leave(t, v);
    var x := LowIsGray(g, s, t, v, l);
    forall z | z in r.open
      ensures HasAnchor(g, r, z)
    {
      var a := AnchorOf(g, t, z);
      if a == v {
        ReachesTrans(g, z, v, x);
        assert Anchored(g, r, z, x);
      } else {
        assert Anchored(g, r, z, a);
      }
    }
  }

  /** When v's lowlink is its own number, v and the nodes above it reach each other. */
  lemma TopIsMutual(g: Graph, s: State, t: State, v: string)
    requires Shape(g, s) && v !in s.num && GrayReaches(g, s, v)
    requires Shape(g, t) && GrayReachesUp(g, t) && OpenReachesGray(g, t) && Extends(Entered(s, v), t)
    ensures v in t.open - s.open
    ensures forall u :: u in t.open - s.open ==> Mutual(g, u, v)
  {
    assert v in Entered(s, v).open;
    forall u | u in t.open - s.open
      ensures Mutual(g, u, v)
    {
      assert u !in s.num;
      var x := AnchorOf(g, t, u);
      if x != v {
        ReachesTrans(g, u, x, v);
      }
    }
  }

  /** ... and no edge leads from them to anything but emitted nodes. */
  lemma TopIsClosed(g: Graph, s: State, t: State, v: string)
    requires Shape(g, s) && v in g && v !in s.num
    requires Shape(g, t) && Closed(g, t.done) && NoBlackToWhite(g, t) && Walking(g, s, t, v, s.idx, |g[v]|)
    ensures Closed(g, t.done + (t.open - s.open))
  {
    EdgesDone(g, s, t, v, s.idx);
    forall u, w | u in t.done + (t.open - s.open) && Edge(g, u, w)
      ensures w in t.done + (t.open - s.open)
    {
      if u in t.open - s.open {
        assert w in t.num;
        assert w !in s.open;
      }
    }
  }

  /** The nodes above v form a whole component: exactly the nodes mutual with any of them. */
  lemma TopIsComponent(g: Graph, s: State, t: State, v: string, u: string, w: string)
    requires Inv(g, s) && v in g && v !in s.num && GrayReaches(g, s, v)
    requires Inv(g, t) && Walking(g, s, t, v, s.idx, |g[v]|)
    requires u in t.open - s.open
    ensures w in t.open - s.open <==> Mutual(g, u, w)
  {
    TopIsMutual(g, s, t, v);
    TopIsClosed(g, s, t, v);
    if w in t.open - s.open {
      ReachesTrans(g, u, v, w);
      ReachesTrans(g, w, v, u);
    }
    if Mutual(g, u, w) {
      StaysInside(g, t.done + (t.open - s.open), u, w);
      if w in t.done {
        StaysInside(g, t.done, w, u);
        assert false;
      }
    }
  }

  lemma PopKeeps(g: Graph, s: State, t: State, v: string)
    requires Inv(g, s) && v in g && v !in s.num
    requires Inv(g, t) && Walking(g, s, t, v, s.idx, |g[v]|)
    ensures Inv(g, Pop(t, v, t.open - s.open))
    ensures Extends(s, Pop(t, v, t.open - s.open))
    ensures Finished(g, s, Pop(t, v, t.open - s.open), v, s.idx)
  {
    var r := Pop(t, v, t.open - s.open);
    LeaveExtends(g, s, t, v);
    TopIsClosed(g, s, t, v);
    PopShape(g, s, t, v);
    PopAnchored(g, s, t, r);
    EdgesDone(g, s, t, v, s.idx);
    assert NoBlackToWhite(g, r);
  }

  lemma PopShape(g: Graph, s: State, t: State, v: string)
    requires Shape(g, s) && v !in s.num && Shape(g, t) && Extends(Entered(s, v), t)
    ensures Shape(g, Pop(t, v, t.open - s.open)) && Extends(s, Pop(t, v, t.open - s.open))
    ensures Pop(t, v, t.open - s.open).open == s.open
  {
    var r := Pop(t, v, t.open - s.open);
    assert r.open == s.open;
    assert r.gray == s.gray;
  }

  lemma PopAnchored(g: Graph, s: State, t: State, r: State)
    requires Shape(g, s) && OpenReachesGray(g, s)
    requires Shape(g, r) && Extends(s, r) && r.open == s.open
    ensures OpenReachesGray(g, r)
  {
    forall y | y in r.open
      ensures HasAnchor(g, r, y)
    {
      var x := AnchorOf(g, s, y);
      assert Anchored(g, r, y, x);
    }
  }
}

/** findSCCs (analyzer/cycles.go). */
module Tarjan {
  import opened ImportGraph
  import opened TarjanInvariant

  ghost predicate NoDuplicates(xs: seq<string>) {
    forall i, j :: 0 <= i < j < |xs| ==> xs[i] != xs[j]
  }

  /** Components are non-empty, list each node once, and do not overlap. */
  ghost predicate Disjoint(sccs: seq<seq<string>>) {
    && (forall i :: 0 <= i < |sccs| ==> |sccs[i]| > 0 && NoDuplicates(sccs[i]))
    && (forall i, j, u :: 0 <= i < j < |sccs| && u in sccs[i] ==> u !in sccs[j])
  }

  ghost predicate Lists(sccs: seq<seq<string>>, nodes: set<string>) {
    && (forall i, u :: 0 <= i < |sccs| && u in sccs[i] ==> u in nodes)
    && (forall u {:trigger ListedUpTo(sccs, u, |sccs|)} :: u in nodes ==> ListedUpTo(sccs, u, |sccs|))
  }

  /** Two nodes share a component exactly when each reaches the other. */
  ghost predicate Components(g: Graph, sccs: seq<seq<string>>) {
    forall i, u, w :: 0 <= i < |sccs| && u in sccs[i] ==> (w in sccs[i] <==> Mutual(g, u, w))
  }

  ghost predicate ListedUpTo(sccs: seq<seq<string>>, w: string, n: nat) {
    exists j :: 0 <= j < n && j < |sccs| && w in sccs[j]
  }

  /** Reverse topological order: an edge never leads to a later component. */
  ghost predicate ReverseTopological(g: Graph, sccs: seq<seq<string>>) {
    forall i, u, w :: 0 <= i < |sccs| && u in sccs[i] && Edge(g, u, w) ==> ListedUpTo(sccs, w, i + 1)
  }

  ghost predicate Reported(g: Graph, sccs: seq<seq<string>>, nodes: set<string>) {
    Disjoint(sccs) && Lists(sccs, nodes) && Components(g, sccs) && ReverseTopological(g, sccs)
  }

  /** Appending the whole component top, closed but for listed nodes, keeps the report. */
  lemma ReportOne(g: Graph, sccs: seq<seq<string>>, nodes: set<string>, scc: seq<string>, top: set<string>)
    requires Reported(g, sccs, nodes)
    requires |scc| > 0 && NoDuplicates(scc) && (forall u :: u in scc <==> u in top) && nodes !! top
    requires forall u, w :: u in top ==> (w in top <==> Mutual(g, u, w))
    requires Closed(g, nodes + top)
    ensures Reported(g, sccs + [scc], nodes + top)
  {
    var all := sccs + [scc];
    ReportedOnce(sccs, nodes, scc, top);
    assert Components(g, all);
    forall i, u, w | 0 <= i < |all| && u in all[i] && Edge(g, u, w)
      ensures ListedUpTo(all, w, i + 1)
    {
      if i < |sccs| {
        assert ListedUpTo(sccs, w, i + 1);
        var j :| 0 <= j < i + 1 && j < |sccs| && w in sccs[j];
        assert w in all[j];
      } else {
        assert ListedUpTo(all, w, |all|);
      }
    }
  }

  lemma ReportedOnce(sccs: seq<seq<string>>, nodes: set<string>, scc: seq<string>, top: set<string>)
    requires Disjoint(sccs) && Lists(sccs, nodes)
    requires |scc| > 0 && NoDuplicates(scc) && (forall u :: u in scc <==> u in top) && nodes !! top
    ensures Disjoint(sccs + [scc]) && Lists(sccs + [scc], nodes + top)
  {
    var all := sccs + [scc];
    forall u | u in nodes + top
      ensures ListedUpTo(all, u, |all|)
    {
      if u in nodes {
        assert ListedUpTo(sccs, u, |sccs|);
        var j :| 0 <= j < |sccs| && u in sccs[j];
        assert u in all[j];
      } else {
        assert u in all[|sccs|];
      }
    }
  }

  lemma VisitedIsOpen(g: Graph, s: State, t: State, v: string, l: nat)
    requires Inv(g, s) && Inv(g, t) && v in g && v !in s.num && Walking(g, s, t, v, l, |g[v]|)
    ensures s.open <= t.open && v in t.open
  {
    EnterShape(g, s, v);
    LeaveExtends(g, s, t, v);
  }

  /** A call whose lowlink is its own number emits the nodes above v as the next component. */
  lemma EmitKeeps(g: Graph, s: State, t: State, v: string, l: nat, sccs: seq<seq<string>>, scc: seq<string>)
    requires Inv(g, s) && v in g && v !in s.num && GrayReaches(g, s, v)
    requires Inv(g, t) && Walking(g, s, t, v, l, |g[v]|) && v in t.num && l == t.num[v]
    requires Reported(g, sccs, t.done)
    requires |scc| > 0 && NoDuplicates(scc) && forall u :: u in scc <==> u in t.open - s.open
    ensures var r := Pop(t, v, t.open - s.open);
      && Shape(g, r) && Inv(g, r) && Reported(g, sccs + [scc], r.done)
      && r.open == s.open && Extends(s, r) && Finished(g, s, r, v, l)
  {
    hide GrayReachesUp, OpenReachesGray, NoBlackToWhite, Reported, Finished;
    var top := t.open - s.open;
    LeaveExtends(g, s, t, v);
    PopShape(g, s, t, v);
    PopKeeps(g, s, t, v);
    forall u, w | u in top
      ensures w in top <==> Mutual(g, u, w)
    {
      TopIsComponent(g, s, t, v, u, w);
    }
    TopIsClosed(g, s, t, v);
    ReportOne(g, sccs, t.done, scc, top);
  }

  ghost predicate Stacked(onStack: map<string, bool>, stack: seq<string>) {
    (forall w :: w in stack <==> w in onStack && onStack[w]) && NoDuplicates(stack)
  }

  lemma PopOne(all: seq<string>, stack: seq<string>, below: seq<string>, v: string, scc: seq<string>)
    requires NoDuplicates(all) && below + [v] <= all && |below| < |stack| && stack <= all
    requires NoDuplicates(scc) && forall u :: u in scc <==> u in all && u !in stack
    ensures var rest, w := stack[..|stack| - 1], stack[|stack| - 1];
      && NoDuplicates(rest) && NoDuplicates(scc + [w])
      && (forall u :: u in rest <==> u in stack && u != w)
      && (forall u :: u in scc + [w] <==> u in all && u !in rest)
      && (w == v <==> rest == below)
  {
    var rest, w := stack[..|stack| - 1], stack[|stack| - 1];
    assert stack == rest + [w];
    assert all[|rest|] == w && all[|below|] == v;
    assert w !in rest && w in all;
    assert all[..|below|] == below && all[..|rest|] == rest;
  }

  lemma EnterParts(s: State, v: string)
    ensures var t := Entered(s, v);
      t.idx == s.idx + 1 && t.num == s.num[v := s.idx] && t.open == s.open + {v} && t.done == s.done
  {
  }

  /** The closure variables of findSCCs. The ghost field st follows them. */
  class Search {
    const graph: Graph
    var idx: nat
    var indexMap: map<string, nat>
    var lowlink: map<string, nat>
    var onStack: map<string, bool>
    var stack: seq<string>
    var sccs: seq<seq<string>>
    ghost var st: State

    constructor (g: Graph)
      ensures graph == g && Valid() && st == State(0, map[], {}, {}, {})
      ensures sccs == []
    {
      graph := g;
      idx, indexMap, lowlink, onStack, stack, sccs := 0, map[], map[], map[], [], [];
      st := State(0, map[], {}, {}, {});
    }

    ghost predicate Tables()
      reads this
    {
      && Stacked(onStack, stack)
      && lowlink.Keys == indexMap.Keys == onStack.Keys
      && idx == st.idx && indexMap == st.num
      && (forall u :: u in stack <==> u in st.open)
    }

    ghost predicate Valid()
      reads this
    {
      Tables() && Shape(graph, st) && Inv(graph, st) && Reported(graph, sccs, st.done)
    }

    method StrongConnect(v: string)
      requires Valid() && v in graph && v !in indexMap && GrayReaches(graph, st, v)
      modifies this
      ensures Valid() && Extends(old(st), st) && old(stack) <= stack
      ensures forall u :: u in old(lowlink) ==> u in lowlink && lowlink[u] == old(lowlink[u])
      ensures v in lowlink && Finished(graph, old(st), st, v, lowlink[v])
      decreases graph.Keys - indexMap.Keys, 0
    {
      ghost var s, below := st, stack;
      Enter(v);
      for i := 0 to |graph[v]|
        invariant Valid() && v in lowlink && below + [v] <= stack
        invariant Walking(graph, s, st, v, lowlink[v], i)
        invariant forall u :: u in old(lowlink) ==> u in lowlink && lowlink[u] == old(lowlink[u])
      {
        WalkEdge(v, i, s);
      }
      Exit(v, s, below);
    }

    /** strongConnect up to its loop. */
    method Enter(v: string)
      requires Valid() && v in graph && v !in indexMap && GrayReaches(graph, st, v)
      modifies this
      ensures Valid() && st == Entered(old(st), v) && stack == old(stack) + [v]
      ensures lowlink == old(lowlink)[v := old(idx)]
      ensures Walking(graph, old(st), st, v, lowlink[v], 0)
    {
      hide Shape, Inv, Reported, Walking, Stacked, Entered, GrayReaches;
      EnterKeeps(graph, st, v);
      EnterParts(st, v);
      Number(v);
      Push(v);
      st := Entered(st, v);
    }

    /** The node's number, which is its lowlink to begin with. */
    method Number(v: string)
      modifies this`indexMap, this`lowlink, this`idx
      ensures indexMap == old(indexMap)[v := old(idx)] && lowlink == old(lowlink)[v := old(idx)]
      ensures idx == old(idx) + 1
    {
      indexMap := indexMap[v := idx];
      lowlink := lowlink[v := idx];
      idx := idx + 1;
    }

    method Push(v: string)
      requires Stacked(onStack, stack) && v !in stack
      modifies this`stack, this`onStack
      ensures Stacked(onStack, stack) && stack == old(stack) + [v] && onStack == old(onStack)[v := true]
    {
      stack := stack + [v];
      onStack := onStack[v := true];
    }

    /** strongConnect after its loop. */
    method Exit(v: string, ghost s: State, ghost below: seq<string>)
      requires Valid() && v in graph && v in lowlink && below + [v] <= stack
      requires Inv(graph, s) && v !in s.num && GrayReaches(graph, s, v)
      requires forall u :: u in s.open <==> u in below
      requires Walking(graph, s, st, v, lowlink[v], |graph[v]|)
      modifies this
      ensures Valid() && Extends(s, st) && below <= stack
      ensures lowlink == old(lowlink) && Finished(graph, s, st, v, lowlink[v])
    {
      hide Shape, Inv, Reported, Walking, Finished, Extends;
      VisitedIsOpen(graph, s, st, v, lowlink[v]);
      if lowlink[v] == indexMap[v] {
        var scc := PopUntil(v, below);
        EmitKeeps(graph, s, st, v, lowlink[v], sccs, scc);
        sccs := sccs + [scc];
        st := Pop(st, v, st.open - s.open);
      } else {
        LeaveKeeps(graph, s, st, v, lowlink[v]);
        st := Leave(st, v);
      }
    }

    /** One turn of the loop over graph[v]. */
    method WalkEdge(v: string, i: nat, ghost s: State)
      requires Valid() && v in graph && v in lowlink && i < |graph[v]|
      requires Shape(graph, s) && v !in s.num && GrayReaches(graph, s, v)
      requires Walking(graph, s, st, v, lowlink[v], i)
      modifies this
      ensures Valid() && old(stack) <= stack && v in lowlink
      ensures Walking(graph, s, st, v, lowlink[v], i + 1)
      ensures forall u :: u in old(lowlink) && u != v ==> u in lowlink && lowlink[u] == old(lowlink[u])
      decreases graph.Keys - indexMap.Keys, 1
    {
      hide Shape, Inv, Reported, NoDuplicates, Finished, Walking, Extends;
      var w := graph[v][i];
      ghost var t, l := st, lowlink[v];
      if w !in graph {
        SkipKeeps(graph, s, t, v, l, i);
        return;
      }
      if w !in indexMap {
        GrayReachesChild(graph, s, t, v, l, i, w);
        StrongConnect(w);
        ChildKeeps(graph, s, t, v, l, i, st, lowlink[w]);
        if lowlink[w] < lowlink[v] {
          lowlink := lowlink[v := lowlink[w]];
        }
      } else if onStack[w] {
        BackEdgeKeeps(graph, s, t, v, l, i);
        if indexMap[w] < lowlink[v] {
          lowlink := lowlink[v := indexMap[w]];
        }
      } else {
        SkipKeeps(graph, s, t, v, l, i);
      }
    }

    /** The popping loop. */
    method PopUntil(v: string, ghost below: seq<string>) returns (scc: seq<string>)
      requires Stacked(onStack, stack) && below + [v] <= stack
      modifies this`stack, this`onStack
      ensures Stacked(onStack, stack) && stack == below && onStack.Keys == old(onStack.Keys)
      ensures |scc| > 0 && NoDuplicates(scc) && forall u :: u in scc <==> u in old(stack) && u !in below
    {
      scc := [];
      while true
        invariant |below| < |stack| && stack <= old(stack)
        invariant Stacked(onStack, stack) && onStack.Keys == old(onStack.Keys)
        invariant NoDuplicates(scc) && forall u :: u in scc <==> u in old(stack) && u !in stack
        decreases |stack|
      {
        var w := stack[|stack| - 1];
        PopOne(old(stack), stack, below, v, scc);
        stack := stack[..|stack| - 1];
        onStack := onStack[w := false];
        scc := scc + [w];
        if w == v {
          break;
        }
      }
    }
  }

  /** findSCCs. keys lists the graph's keys in the order the outer loop visits them;
      the source sorts them, and the result is right for every order. */
  method FindSCCs(g: Graph, keys: seq<string>) returns (sccs: seq<seq<string>>)
    requires forall u :: u in keys <==> u in g
    ensures Disjoint(sccs) && Lists(sccs, g.Keys)
    ensures Components(g, sccs)
    ensures ReverseTopological(g, sccs)
  {
    var search := new Search(g);
    for i := 0 to |keys|
      invariant fresh(search) && search.graph == g
      invariant search.Valid() && search.st.gray == {}
      invariant forall j :: 0 <= j < i ==> keys[j] in search.indexMap
    {
      var v := keys[i];
      if v !in search.indexMap {
        hide Inv, Reported, Finished;
        search.StrongConnect(v);
      }
    }
    AllDone(g, search.st);
    assert search.st.done == g.Keys;
    sccs := search.sccs;
  }

  /** With no call running, every visited node's component has been emitted. */
  lemma AllDone(g: Graph, s: State)
    requires Inv(g, s) && s.gray == {}
    ensures s.open == {} && s.done == s.num.Keys
  {
    if s.open != {} {
      var y :| y in s.open;
      var x := AnchorOf(g, s, y);
    }
  }

  ghost predicate InOneOf(sccs: seq<seq<string>>, u: string, w: string) {
    exists i :: 0 <= i < |sccs| && u in sccs[i] && w in sccs[i]
  }

  /** Read as a relation: being listed together is mutual reachability. */
  lemma TogetherIffMutual(g: Graph, sccs: seq<seq<string>>, u: string, w: string)
    requires Lists(sccs, g.Keys) && Components(g, sccs)
    requires u in g
    ensures InOneOf(sccs, u, w) <==> Mutual(g, u, w)
  {
    assert ListedUpTo(sccs, u, |sccs|);
  }

  /** The order is a reverse topological order for reachability, not for edges alone. */
  lemma ReachesEarlier(g: Graph, sccs: seq<seq<string>>, i: nat, j: nat, u: string, w: string)
    requires Disjoint(sccs) && ReverseTopological(g, sccs)
    requires i < |sccs| && j < |sccs| && u in sccs[i] && w in sccs[j] && Reaches(g, u, w)
    ensures j <= i
  {
    var early := set k, x | 0 <= k <= i && x in sccs[k] :: x;
    forall x, y | x in early && Edge(g, x, y)
      ensures y in early
    {
      var k :| 0 <= k <= i && x in sccs[k];
      assert ListedUpTo(sccs, y, k + 1);
    }
    StaysInside(g, early, u, w);
    var k :| 0 <= k <= i && w in sccs[k];
  }
}
