/** DetectImportCycles (analyzer/cycles.go): the components of two and more packages, each
    sorted, and sorted by size and first member. */
module CycleReport {
  import opened ImportGraph
  import opened Tarjan
  import opened Ordering

  function First(c: seq<string>): string {
    if c == [] then "" else c[0]
  }

  predicate CycleBefore(c: seq<string>, d: seq<string>) {
    if |c| != |d| then |c| < |d| else Before(First(c), First(d))
  }

  lemma CycleBeforeIsOrder()
    ensures StrictOrder(CycleBefore)
  {
    BeforeIsOrder();
    hide Before;
    assert forall c, d :: CycleBefore(c, d) ==> !CycleBefore(d, c);
    assert forall c, d, e :: CycleBefore(c, d) && CycleBefore(d, e) ==> CycleBefore(c, e);
  }

  /** A cycle is sorted, and holds with a package all that import it and that it imports,
      directly or not. */
  ghost predicate IsCycle(g: Graph, c: seq<string>) {
    && |c| >= 2 && Sorted(c, Before)
    && (forall u, w :: u in c ==> u in g && (w in c <==> Mutual(g, u, w)))
  }

  ghost predicate InSome(cycles: seq<seq<string>>, u: string) {
    exists c :: c in cycles && u in c
  }

  /** All cycles, in order. */
  ghost predicate IsReport(g: Graph, cycles: seq<seq<string>>) {
    && (forall c :: c in cycles ==> IsCycle(g, c))
    && (forall u, w {:trigger Mutual(g, u, w)} :: u != w && Mutual(g, u, w) ==> InSome(cycles, u))
    && Sorted(cycles, CycleBefore)
  }

  /** Each cycle of one report is in every other report. */
  lemma CycleIsReported(g: Graph, cycles: seq<seq<string>>, c: seq<string>)
    requires IsReport(g, cycles) && IsCycle(g, c)
    ensures c in cycles
  {
    hide Mutual;
    BeforeIsOrder();
    var u, w := c[0], c[1];
    assert Before(u, w);
    assert u in c && w in c;
    assert Mutual(g, u, w);
    var d :| d in cycles && u in d;
    assert forall x :: x in c <==> x in d;
    SortedOnce(c, d, Before);
  }

  /** The result is determined by the graph: no order of keys or imports plays a part. */
  lemma ReportIsUnique(g: Graph, cycles: seq<seq<string>>, others: seq<seq<string>>)
    requires IsReport(g, cycles) && IsReport(g, others)
    ensures cycles == others
  {
    hide IsCycle;
    CycleBeforeIsOrder();
    forall c
      ensures c in cycles <==> c in others
    {
      if c in cycles {
        CycleIsReported(g, others, c);
      }
      if c in others {
        CycleIsReported(g, cycles, c);
      }
    }
    SortedOnce(cycles, others, CycleBefore);
  }

  /** Smaller cycles go first, and cycles of one size by their first members. */
  lemma SmallestFirst(g: Graph, cycles: seq<seq<string>>)
    requires IsReport(g, cycles)
    ensures forall i :: 0 <= i < |cycles| ==> |cycles[i]| >= 2
    ensures forall i, j :: 0 <= i < j < |cycles| ==>
      |cycles[i]| <= |cycles[j]| && (|cycles[i]| == |cycles[j]| ==> Before(cycles[i][0], cycles[j][0]))
  {
    hide Before, Mutual;
    forall i | 0 <= i < |cycles|
      ensures |cycles[i]| >= 2
    {
      assert IsCycle(g, cycles[i]);
    }
  }

  /** Sorting the members of a component of two and more. */
  lemma MembersSorted(g: Graph, scc: seq<string>)
    requires |scc| >= 2 && NoDuplicates(scc)
    requires forall u, w :: u in scc ==> u in g && (w in scc <==> Mutual(g, u, w))
    ensures IsCycle(g, Sort(scc, Before))
  {
    hide Mutual, Before, Sort, StrictOrder;
    BeforeIsOrder();
    SortElements(scc, Before);
    forall i, j | 0 <= i < j < |scc|
      ensures Before(scc[i], scc[j]) || Before(scc[j], scc[i])
    {
      BeforeTotal(scc[i], scc[j]);
    }
    SortSorts(scc, Before);
  }

  /** DetectImportCycles. keys: the graph's keys in any order. */
  method DetectImportCycles(g: Graph, keys: seq<string>) returns (cycles: seq<seq<string>>, count: nat)
    requires forall u :: u in keys <==> u in g
    ensures IsReport(g, cycles) && count == |cycles|
    ensures forall i, j :: 0 <= i < j < |cycles| ==>
      |cycles[i]| <= |cycles[j]| && (|cycles[i]| == |cycles[j]| ==> Before(cycles[i][0], cycles[j][0]))
    ensures forall u, w :: u in g && u != w ==> (InOneOf(cycles, u, w) <==> Mutual(g, u, w))
  {
    var sccs := FindSCCs(g, keys);
    var found := [];
    for n := 0 to |sccs|
      invariant found == SortedCycles(sccs[..n])
    {
      assert sccs[..n + 1][..n] == sccs[..n];
      if |sccs[n]| < 2 {
        continue;
      }
      found := found + [Sort(sccs[n], Before)];
    }
    assert sccs[..|sccs|] == sccs;
    cycles := Sort(found, CycleBefore);
    count := |cycles|;
    FoundIsReport(g, sccs);
    SmallestFirst(g, cycles);
    forall u, w | u in g && u != w
      ensures InOneOf(cycles, u, w) <==> Mutual(g, u, w)
    {
      ReportSays(g, cycles, u, w);
    }
  }

  /** The members of the large components, each sorted. */
  function SortedCycles(sccs: seq<seq<string>>): seq<seq<string>> {
    if sccs == [] then []
    else
      var last := sccs[|sccs| - 1];
      SortedCycles(sccs[..|sccs| - 1]) + if |last| < 2 then [] else [Sort(last, Before)]
  }

  /** Where the large components stand. */
  function LargeAt(sccs: seq<seq<string>>): seq<nat> {
    if sccs == [] then []
    else LargeAt(sccs[..|sccs| - 1]) + if |sccs[|sccs| - 1]| < 2 then [] else [|sccs| - 1]
  }

  predicate IsLarge(sccs: seq<seq<string>>, n: nat) {
    n < |sccs| && |sccs[n]| >= 2
  }

  lemma {:induction false} LargeAtAre(sccs: seq<seq<string>>)
    ensures forall n: nat :: n in LargeAt(sccs) <==> IsLarge(sccs, n)
    ensures forall i, j :: 0 <= i < j < |LargeAt(sccs)| ==> LargeAt(sccs)[i] < LargeAt(sccs)[j]
  {
    if sccs != [] {
      var init := sccs[..|sccs| - 1];
      var before := LargeAt(init);
      LargeAtAre(init);
      forall n: nat
        ensures IsLarge(sccs, n) <==> IsLarge(init, n) || (n == |init| && |sccs[|init|]| >= 2)
      {
        assert n < |init| ==> init[n] == sccs[n];
      }
      hide IsLarge;
      assert forall i :: 0 <= i < |before| ==> before[i] in before && before[i] < |init| by {
        AllWithin(init, before);
      }
    }
  }

  lemma AllWithin(sccs: seq<seq<string>>, at: seq<nat>)
    requires forall n: nat :: n in at ==> IsLarge(sccs, n)
    ensures forall i :: 0 <= i < |at| ==> at[i] in at && at[i] < |sccs|
  {
    forall i | 0 <= i < |at|
      ensures at[i] in at && at[i] < |sccs|
    {
      assert IsLarge(sccs, at[i]);
    }
  }

  /** The i-th cycle comes from the i-th large component. */
  lemma {:induction false} SortedCyclesAre(sccs: seq<seq<string>>)
    ensures |SortedCycles(sccs)| == |LargeAt(sccs)|
    ensures forall i :: 0 <= i < |LargeAt(sccs)| ==>
      LargeAt(sccs)[i] < |sccs| && SortedCycles(sccs)[i] == Sort(sccs[LargeAt(sccs)[i]], Before)
  {
    hide Sort;
    if sccs != [] {
      SortedCyclesAre(sccs[..|sccs| - 1]);
    }
  }

  /** Large components have different first members once they are sorted. */
  lemma FirstsApart(g: Graph, sccs: seq<seq<string>>, m: nat, n: nat)
    requires Disjoint(sccs) && m < n < |sccs| && |sccs[m]| >= 2 && |sccs[n]| >= 2
    ensures var c, d := Sort(sccs[m], Before), Sort(sccs[n], Before);
      CycleBefore(c, d) || CycleBefore(d, c)
  {
    var c, d := Sort(sccs[m], Before), Sort(sccs[n], Before);
    SortElements(sccs[m], Before);
    SortElements(sccs[n], Before);
    assert c[0] in sccs[m] && d[0] in sccs[n];
    BeforeTotal(c[0], d[0]);
  }

  lemma FoundIsReport(g: Graph, sccs: seq<seq<string>>)
    requires Disjoint(sccs) && Lists(sccs, g.Keys) && Components(g, sccs)
    ensures IsReport(g, Sort(SortedCycles(sccs), CycleBefore))
  {
    hide Mutual, Sort, CycleBefore, Disjoint;
    var found := SortedCycles(sccs);
    var at := LargeAt(sccs);
    LargeAtAre(sccs);
    SortedCyclesAre(sccs);
    CycleBeforeIsOrder();
    SortElements(found, CycleBefore);
    forall i, j | 0 <= i < j < |found|
      ensures CycleBefore(found[i], found[j]) || CycleBefore(found[j], found[i])
    {
      assert IsLarge(sccs, at[i]) && IsLarge(sccs, at[j]);
      FirstsApart(g, sccs, at[i], at[j]);
    }
    SortSorts(found, CycleBefore);
    forall c | c in found
      ensures IsCycle(g, c)
    {
      var i :| 0 <= i < |found| && found[i] == c;
      assert IsLarge(sccs, at[i]);
      LargeIsCycle(g, sccs, at[i]);
    }
    forall u, w | u != w && Mutual(g, u, w)
      ensures InSome(Sort(found, CycleBefore), u)
    {
      MutualIsFound(g, sccs, u, w);
    }
  }

  lemma LargeIsCycle(g: Graph, sccs: seq<seq<string>>, n: nat)
    requires Disjoint(sccs) && Lists(sccs, g.Keys) && Components(g, sccs) && n < |sccs| && |sccs[n]| >= 2
    ensures IsCycle(g, Sort(sccs[n], Before))
  {
    hide Mutual, Sort;
    MembersSorted(g, sccs[n]);
  }

  lemma MutualIsFound(g: Graph, sccs: seq<seq<string>>, u: string, w: string)
    requires Lists(sccs, g.Keys) && Components(g, sccs) && u != w && Mutual(g, u, w)
    ensures InSome(SortedCycles(sccs), u)
  {
    hide Mutual, Sort, SortedCycles, LargeAt;
    MutualIn(g, u, w);
    TogetherIffMutual(g, sccs, u, w);
    var n :| 0 <= n < |sccs| && u in sccs[n] && w in sccs[n];
    Two(sccs[n], u, w);
    assert IsLarge(sccs, n);
    LargeAtAre(sccs);
    SortedCyclesAre(sccs);
    var i :| 0 <= i < |LargeAt(sccs)| && LargeAt(sccs)[i] == n;
    SortElements(sccs[n], Before);
    assert SortedCycles(sccs)[i] in SortedCycles(sccs);
  }

  lemma Two(xs: seq<string>, u: string, w: string)
    requires u in xs && w in xs && u != w
    ensures |xs| >= 2
  {
  }

  lemma MutualIn(g: Graph, u: string, w: string)
    requires Mutual(g, u, w)
    ensures u in g && w in g
  {
    var p :| Walk(g, p) && p[0] == u && p[|p| - 1] == w;
  }

  /** Read as a relation: two different packages share a reported cycle exactly when each
      imports the other, directly or not. */
  lemma ReportSays(g: Graph, cycles: seq<seq<string>>, u: string, w: string)
    requires IsReport(g, cycles) && u != w
    ensures InOneOf(cycles, u, w) <==> Mutual(g, u, w)
  {
    hide Mutual;
    if Mutual(g, u, w) {
      var c :| c in cycles && u in c;
      assert IsCycle(g, c) && w in c;
      var i :| 0 <= i < |cycles| && cycles[i] == c;
    }
    if InOneOf(cycles, u, w) {
      var i :| 0 <= i < |cycles| && u in cycles[i] && w in cycles[i];
      assert IsCycle(g, cycles[i]);
    }
  }
}
