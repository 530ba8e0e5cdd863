/** Sorting as sort.Strings and sort.Slice do it: by an order that tells the elements apart,
    so that the result depends on nothing but what the elements are. */
module Ordering {

  /** Go's order of strings. */
  predicate Before(a: string, b: string) {
    if b == "" then false
    else if a == "" then true
    else if a[0] != b[0] then a[0] < b[0]
    else Before(a[1..], b[1..])
  }

  ghost predicate StrictOrder<T(!new)>(less: (T, T) -> bool) {
    && (forall a, b :: less(a, b) ==> !less(b, a))
    && (forall a, b, c :: less(a, b) && less(b, c) ==> less(a, c))
  }

  lemma {:induction false} BeforeTotal(a: string, b: string)
    ensures Before(a, b) ==> !Before(b, a)
    ensures a != b ==> Before(a, b) || Before(b, a)
  {
    if a != "" && b != "" && a[0] == b[0] {
      BeforeTotal(a[1..], b[1..]);
      assert a == [a[0]] + a[1..] && b == [b[0]] + b[1..];
    }
  }

  /** b goes on where a ends, or has the larger character where they first differ. */
  predicate DiffersAt(a: string, b: string, k: nat) {
    k <= |a| && k < |b| && a[..k] == b[..k] && (k < |a| ==> a[k] < b[k])
  }

  lemma {:induction false} DifferenceDecides(a: string, b: string, k: nat)
    requires DiffersAt(a, b, k)
    ensures Before(a, b)
  {
    if k > 0 {
      assert a[..k][0] == b[..k][0] && a[1..][..k - 1] == a[..k][1..] && b[1..][..k - 1] == b[..k][1..];
      DifferenceDecides(a[1..], b[1..], k - 1);
    }
  }

  lemma {:induction false} Difference(a: string, b: string) returns (k: nat)
    requires Before(a, b)
    ensures DiffersAt(a, b, k)
  {
    k := 0;
    if a != "" && a[0] == b[0] {
      var n := Difference(a[1..], b[1..]);
      k := n + 1;
      assert a[..k] == [a[0]] + a[1..][..n] && b[..k] == [b[0]] + b[1..][..n];
    }
  }

  /** The order is that of the first difference. */
  lemma BeforeIff(a: string, b: string)
    ensures Before(a, b) <==> exists k: nat :: DiffersAt(a, b, k)
  {
    hide Before, DiffersAt;
    if Before(a, b) {
      var k := Difference(a, b);
    }
    if k: nat :| DiffersAt(a, b, k) {
      DifferenceDecides(a, b, k);
    }
  }

  lemma {:induction false} BeforeTransitive(a: string, b: string, c: string)
    requires Before(a, b) && Before(b, c)
    ensures Before(a, c)
  {
    if a != "" && a[0] == b[0] == c[0] {
      BeforeTransitive(a[1..], b[1..], c[1..]);
    }
  }

  lemma BeforeIsOrder()
    ensures StrictOrder(Before)
  {
    forall a, b
      ensures Before(a, b) ==> !Before(b, a)
    {
      BeforeTotal(a, b);
    }
    forall a, b, c | Before(a, b) && Before(b, c)
      ensures Before(a, c)
    {
      BeforeTransitive(a, b, c);
    }
  }

  // ---------- sorting ----------

  ghost predicate Sorted<T(!new)>(xs: seq<T>, less: (T, T) -> bool) {
    forall i, j :: 0 <= i < j < |xs| ==> less(xs[i], xs[j])
  }

  function Insert<T>(xs: seq<T>, x: T, less: (T, T) -> bool): seq<T> {
    if xs == [] then [x] else if less(x, xs[0]) then [x] + xs else [xs[0]] + Insert(xs[1..], x, less)
  }

  function Sort<T>(xs: seq<T>, less: (T, T) -> bool): seq<T> {
    if xs == [] then [] else Insert(Sort(xs[..|xs| - 1], less), xs[|xs| - 1], less)
  }

  lemma {:induction false} InsertElements<T>(xs: seq<T>, x: T, less: (T, T) -> bool)
    ensures |Insert(xs, x, less)| == |xs| + 1
    ensures forall y :: y in Insert(xs, x, less) <==> y in xs || y == x
  {
    if xs != [] {
      InsertElements(xs[1..], x, less);
      assert xs == [xs[0]] + xs[1..];
    }
  }

  lemma {:induction false} SortElements<T>(xs: seq<T>, less: (T, T) -> bool)
    ensures |Sort(xs, less)| == |xs|
    ensures forall y :: y in Sort(xs, less) <==> y in xs
  {
    if xs != [] {
      var init, last := xs[..|xs| - 1], xs[|xs| - 1];
      SortElements(init, less);
      InsertElements(Sort(init, less), last, less);
      assert xs == init + [last];
    }
  }

  lemma {:induction false} InsertSorts<T(!new)>(xs: seq<T>, x: T, less: (T, T) -> bool)
    requires StrictOrder(less) && Sorted(xs, less)
    requires forall y :: y in xs ==> less(x, y) || less(y, x)
    ensures Sorted(Insert(xs, x, less), less)
  {
    if xs != [] && !less(x, xs[0]) {
      var rest := Insert(xs[1..], x, less);
      InsertSorts(xs[1..], x, less);
      InsertElements(xs[1..], x, less);
      forall j | 0 <= j < |rest|
        ensures less(xs[0], rest[j])
      {
        assert rest[j] in rest;
      }
    }
  }

  /** A list whose elements the order tells apart comes out sorted. */
  lemma {:induction false} SortSorts<T(!new)>(xs: seq<T>, less: (T, T) -> bool)
    requires StrictOrder(less)
    requires forall i, j :: 0 <= i < j < |xs| ==> less(xs[i], xs[j]) || less(xs[j], xs[i])
    ensures Sorted(Sort(xs, less), less)
  {
    if xs != [] {
      var init, last := xs[..|xs| - 1], xs[|xs| - 1];
      SortSorts(init, less);
      SortElements(init, less);
      forall y | y in Sort(init, less)
        ensures less(last, y) || less(y, last)
      {
        var i :| 0 <= i < |init| && init[i] == y;
        assert xs[i] == y;
      }
      InsertSorts(Sort(init, less), last, less);
    }
  }

  /** Two sorted lists of the same elements are the same list. */
  lemma {:induction false} SortedOnce<T(!new)>(xs: seq<T>, ys: seq<T>, less: (T, T) -> bool)
    requires StrictOrder(less) && Sorted(xs, less) && Sorted(ys, less)
    requires forall x :: x in xs <==> x in ys
    ensures xs == ys
  {
    if xs == [] || ys == [] {
      Inhabited(xs);
      Inhabited(ys);
    } else {
      FirstIsLeast(xs, ys[0], less);
      FirstIsLeast(ys, xs[0], less);
      TailElements(xs, less);
      TailElements(ys, less);
      SortedOnce(xs[1..], ys[1..], less);
      assert xs == [xs[0]] + xs[1..] && ys == [ys[0]] + ys[1..];
    }
  }

  lemma Inhabited<T>(xs: seq<T>)
    ensures xs == [] <==> forall x :: x !in xs
  {
    if xs != [] {
      assert xs[0] in xs;
    }
  }

  lemma FirstIsLeast<T(!new)>(xs: seq<T>, x: T, less: (T, T) -> bool)
    requires Sorted(xs, less) && x in xs
    ensures x == xs[0] || less(xs[0], x)
  {
    var i :| 0 <= i < |xs| && xs[i] == x;
  }

  lemma TailElements<T(!new)>(xs: seq<T>, less: (T, T) -> bool)
    requires xs != [] && StrictOrder(less) && Sorted(xs, less)
    ensures forall x :: x in xs[1..] <==> x in xs && x != xs[0]
  {
    assert xs == [xs[0]] + xs[1..];
    forall x | x in xs[1..]
      ensures x != xs[0]
    {
      var k :| 0 <= k < |xs[1..]| && xs[1..][k] == x;
      assert less(xs[0], xs[k + 1]);
    }
  }
}
