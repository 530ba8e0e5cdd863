/** The package import graph and reachability in it (analyzer/cycles.go). */
module ImportGraph {

  // Package path to the paths it imports. An imported path that is no key of
  // the map lies outside the loaded set and is skipped by the algorithm.
  type Graph = map<string, seq<string>>

  predicate Edge(g: Graph, u: string, w: string) {
    u in g && w in g && w in g[u]
  }

  ghost predicate Walk(g: Graph, p: seq<string>) {
    && |p| > 0
    && (forall i :: 0 <= i < |p| ==> p[i] in g)
    && (forall i :: 0 <= i < |p| - 1 ==> Edge(g, p[i], p[i + 1]))
  }

  ghost predicate Reaches(g: Graph, u: string, w: string) {
    exists p :: Walk(g, p) && p[0] == u && p[|p| - 1] == w
  }

  ghost predicate Mutual(g: Graph, u: string, w: string) {
    Reaches(g, u, w) && Reaches(g, w, u)
  }

  ghost predicate Closed(g: Graph, s: set<string>) {
    forall u, w :: u in s && Edge(g, u, w) ==> w in s
  }

  lemma ReachesSelf(g: Graph, u: string)
    requires u in g
    ensures Reaches(g, u, u)
  {
    assert Walk(g, [u]);
  }

  lemma ReachesEdge(g: Graph, u: string, w: string)
    requires Edge(g, u, w)
    ensures Reaches(g, u, w)
  {
    assert Walk(g, [u, w]);
  }

  lemma ReachesTrans(g: Graph, u: string, v: string, w: string)
    requires Reaches(g, u, v) && Reaches(g, v, w)
    ensures Reaches(g, u, w)
  {
    var p :| Walk(g, p) && p[0] == u && p[|p| - 1] == v;
    var q :| Walk(g, q) && q[0] == v && q[|q| - 1] == w;
    var r := p + q[1..];
    forall i | 0 <= i < |r| - 1
      ensures Edge(g, r[i], r[i + 1])
    {
      if i >= |p| - 1 {
        assert r[i] == q[i - |p| + 1] && r[i + 1] == q[i - |p| + 2];
      }
    }
    assert Walk(g, r);
    assert r[|r| - 1] == w;
  }

  /** No walk leaves a set that is closed under edges. */
  lemma StaysInside(g: Graph, s: set<string>, u: string, w: string)
    requires Closed(g, s) && u in s && Reaches(g, u, w)
    ensures w in s
  {
    var p :| Walk(g, p) && p[0] == u && p[|p| - 1] == w;
    var i := 0;
    while i < |p| - 1
      invariant 0 <= i < |p| && p[i] in s
    {
      assert Edge(g, p[i], p[i + 1]);
      i := i + 1;
    }
  }
}

