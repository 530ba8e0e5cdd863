/** The complexity visitor (analyzer/complexity.go). */
module Complexity {

  /** Go expressions as far as the visitor tells them apart. Parts stands for every node
      whose children are just visited in order: parentheses, unary and arithmetic
      operators, stars, assertions, indexing, slicing, composite literals, key-value
      pairs; with no parts for literals and for nil. */
  datatype Expr =
    | Name(name: string)
    | Selector(x: Expr, sel: string)
    | Logical(x: Expr, y: Expr)
    | Call(fn: Expr, args: seq<Expr>)
    | Parts(parts: seq<Expr>)
    | FuncLit(body: seq<Stmt>)

  /** Go statements. Exprs stands for every statement that is the expressions it holds:
      expression, assignment, return, declaration, go, defer, increment and send. Branch
      says whether it is a goto, a fallthrough or labelled. */
  datatype Stmt =
    | Nil
    | If(init: Stmt, cond: Expr, body: seq<Stmt>, els: Stmt)
    | For(init: Stmt, cond: Expr, post: Stmt, body: seq<Stmt>)
    | Range(x: Expr, body: seq<Stmt>)
    | Switch(init: Stmt, tag: Expr, cases: seq<Case>)
    | TypeSwitch(init: Stmt, assign: Stmt, cases: seq<Case>)
    | Select(comms: seq<Comm>)
    | Branch(counted: bool)
    | Block(stmts: seq<Stmt>)
    | Exprs(exprs: seq<Expr>)
    | Labeled(stmt: Stmt)
    | Empty

  /** A default clause has an empty list, or a nil communication. */
  datatype Case = Case(list: seq<Expr>, body: seq<Stmt>)

  datatype Comm = Comm(comm: Stmt, body: seq<Stmt>)

  // ---------- what the visitor meets ----------

  /** Note: a nesting level is entered; Decision: an if or a loop; Fork: a switch, type
      switch or select; Option: a clause that is no default; then logical operators,
      counted branch statements and calls of the function itself. */
  datatype Event = Note(n: nat) | Decision(n: nat) | Fork(n: nat) | Option | Operator | Jump | SelfCall

  predicate IsSelf(f: string, e: Expr) {
    (e.Name? && e.name == f) || (e.Selector? && e.sel == f)
  }

  function OfExpr(f: string, e: Expr, n: nat): seq<Event>
    decreases e, 1
  {
    match e
    case Name(_) => []
    case Selector(x, _) => OfExpr(f, x, n)
    case Logical(x, y) => [Operator] + OfExpr(f, x, n) + OfExpr(f, y, n)
    case Call(fn, args) => (if IsSelf(f, fn) then [SelfCall] else []) + OfExpr(f, fn, n) + OfExprs(f, args, n)
    case Parts(parts) => OfExprs(f, parts, n)
    case FuncLit(body) => OfBlock(f, body, n + 1)
  }

  function OfExprs(f: string, es: seq<Expr>, n: nat): seq<Event>
    decreases es, 0
  {
    if es == [] then [] else OfExpr(f, es[0], n) + OfExprs(f, es[1..], n)
  }

  function OfBlock(f: string, ss: seq<Stmt>, n: nat): seq<Event>
    decreases ss, 1
  {
    [Note(n)] + OfStmts(f, ss, n)
  }

  function OfStmts(f: string, ss: seq<Stmt>, n: nat): seq<Event>
    decreases ss, 0
  {
    if ss == [] then [] else OfStmt(f, ss[0], n) + OfStmts(f, ss[1..], n)
  }

  function OfStmt(f: string, s: Stmt, n: nat): seq<Event>
    decreases s, 2
  {
    if s.Nil? then [] else [Note(n)] + OfInner(f, s, n)
  }

  function OfInner(f: string, s: Stmt, n: nat): seq<Event>
    decreases s, 1
  {
    match s
    case If(init, cond, body, els) =>
      [Decision(n)] + OfStmt(f, init, n) + OfExpr(f, cond, n) + OfBlock(f, body, n + 1) +
      if els.If? then OfStmt(f, els, n) else OfStmt(f, els, n + 1)
    case For(init, cond, post, body) =>
      [Decision(n)] + OfStmt(f, init, n) + OfExpr(f, cond, n) + OfStmt(f, post, n) + OfBlock(f, body, n + 1)
    case Range(x, body) => [Decision(n)] + OfExpr(f, x, n) + OfBlock(f, body, n + 1)
    case Switch(init, tag, cases) =>
      [Fork(n)] + OfStmt(f, init, n) + OfExpr(f, tag, n) + [Note(n + 1)] + OfCases(f, cases, n + 1)
    case TypeSwitch(init, assign, cases) =>
      [Fork(n)] + OfStmt(f, init, n) + OfStmt(f, assign, n) + [Note(n + 1)] + OfCases(f, cases, n + 1)
    case Select(comms) => [Fork(n)] + [Note(n + 1)] + OfComms(f, comms, n + 1)
    case Branch(counted) => if counted then [Jump] else []
    case Block(stmts) => OfBlock(f, stmts, n)
    case Exprs(exprs) => OfExprs(f, exprs, n)
    case Labeled(stmt) => OfStmt(f, stmt, n)
    case Empty => []
    case Nil => []
  }

  function OfCases(f: string, cs: seq<Case>, n: nat): seq<Event>
    decreases cs, 0
  {
    if cs == [] then []
    else
      var option := if |cs[0].list| > 0 then [Option] else [];
      option + OfExprs(f, cs[0].list, n) + OfStmts(f, cs[0].body, n) + OfCases(f, cs[1..], n)
  }

  function OfComms(f: string, cs: seq<Comm>, n: nat): seq<Event>
    decreases cs, 0
  {
    if cs == [] then []
    else
      var option := if cs[0].comm != Nil then [Option] else [];
      option + OfStmt(f, cs[0].comm, n) + OfStmts(f, cs[0].body, n) + OfComms(f, cs[1..], n)
  }

  // ---------- what the visitor counts ----------

  datatype Score = Score(cyclomatic: nat, cognitive: nat, maxNesting: nat, recursionCounted: bool)

  function Count(s: Score, e: Event): Score {
    match e
    case Note(n) => if n > s.maxNesting then s.(maxNesting := n) else s
    case Decision(n) => s.(cyclomatic := s.cyclomatic + 1, cognitive := s.cognitive + 1 + n)
    case Fork(n) => s.(cognitive := s.cognitive + 1 + n)
    case Option => s.(cyclomatic := s.cyclomatic + 1)
    case Operator => s.(cyclomatic := s.cyclomatic + 1, cognitive := s.cognitive + 1)
    case Jump => s.(cognitive := s.cognitive + 1)
    case SelfCall => if s.recursionCounted then s else s.(cognitive := s.cognitive + 1, recursionCounted := true)
  }

  function CountAll(s: Score, es: seq<Event>): Score {
    if es == [] then s else Count(CountAll(s, es[..|es| - 1]), es[|es| - 1])
  }

  lemma {:induction false} CountConcat(s: Score, a: seq<Event>, b: seq<Event>)
    ensures CountAll(s, a + b) == CountAll(CountAll(s, a), b)
  {
    if b == [] {
      assert a + b == a;
    } else {
      CountConcat(s, a, b[..|b| - 1]);
      assert (a + b)[..|a + b| - 1] == a + b[..|b| - 1];
    }
  }

  lemma CountOne(s: Score, e: Event)
    ensures CountAll(s, [e]) == Count(s, e) && CountAll(s, []) == s
  {
    assert [e][..0] == [];
  }

  // ---------- the visitor ----------

  class Analyzer {
    const functionName: string
    var cyclomatic: nat
    var cognitive: nat
    var maxNesting: nat
    var recursionCounted: bool

    constructor (functionName: string)
      ensures this.functionName == functionName && S() == Score(1, 0, 0, false)
    {
      this.functionName := functionName;
      cyclomatic, cognitive, maxNesting, recursionCounted := 1, 0, 0, false;
    }

    ghost function S(): Score
      reads this
    {
      Score(cyclomatic, cognitive, maxNesting, recursionCounted)
    }

    method NoteNesting(nesting: nat)
      modifies this
      ensures S() == CountAll(old(S()), [Note(nesting)])
    {
      CountOne(S(), Note(nesting));
      if nesting > maxNesting {
        maxNesting := nesting;
      }
    }

    method AddDecision(nesting: nat)
      modifies this
      ensures S() == CountAll(old(S()), [Decision(nesting)])
    {
      CountOne(S(), Decision(nesting));
      cyclomatic := cyclomatic + 1;
      cognitive := cognitive + 1 + nesting;
    }

    method VisitExpr(e: Expr, nesting: nat)
      modifies this
      ensures S() == CountAll(old(S()), OfExpr(functionName, e, nesting))
      decreases e, 1
    {
      hide CountAll;
      ghost var s := S();
      match e
      case Name(_) => CountOne(s, Jump);
      case Selector(x, _) => VisitExpr(x, nesting);
      case Logical(x, y) =>
        CountOne(s, Operator);
        cyclomatic := cyclomatic + 1;
        cognitive := cognitive + 1;
        VisitExpr(x, nesting);
        VisitExpr(y, nesting);
        CountConcat(s, [Operator], OfExpr(functionName, x, nesting));
        CountConcat(s, [Operator] + OfExpr(functionName, x, nesting), OfExpr(functionName, y, nesting));
      case Call(fn, args) =>
        ghost var self := if IsSelf(functionName, fn) then [SelfCall] else [];
        CountOne(s, SelfCall);
        if !recursionCounted && IsSelf(functionName, fn) {
          cognitive := cognitive + 1;
          recursionCounted := true;
        }
        VisitExpr(fn, nesting);
        VisitExprs(args, nesting);
        CountConcat(s, self, OfExpr(functionName, fn, nesting));
        CountConcat(s, self + OfExpr(functionName, fn, nesting), OfExprs(functionName, args, nesting));
      case Parts(parts) => VisitExprs(parts, nesting);
      case FuncLit(body) => VisitBlock(body, nesting + 1);
    }

    /** The loops over lists of expressions. */
    method VisitExprs(es: seq<Expr>, nesting: nat)
      modifies this
      ensures S() == CountAll(old(S()), OfExprs(functionName, es, nesting))
      decreases es, 0
    {
      hide CountAll;
      ghost var s := S();
      CountOne(s, Jump);
      for i := 0 to |es|
        invariant CountAll(S(), OfExprs(functionName, es[i..], nesting)) ==
          CountAll(s, OfExprs(functionName, es, nesting))
      {
        ghost var t := S();
        VisitExpr(es[i], nesting);
        CountConcat(t, OfExpr(functionName, es[i], nesting), OfExprs(functionName, es[i + 1..], nesting));
        assert es[i..][1..] == es[i + 1..];
      }
      CountOne(S(), Jump);
    }

    method VisitBlock(ss: seq<Stmt>, nesting: nat)
      modifies this
      ensures S() == CountAll(old(S()), OfBlock(functionName, ss, nesting))
      decreases ss, 1
    {
      hide CountAll;
      ghost var s := S();
      NoteNesting(nesting);
      VisitStmts(ss, nesting);
      CountConcat(s, [Note(nesting)], OfStmts(functionName, ss, nesting));
    }

    /** The loops over lists of statements. */
    method VisitStmts(ss: seq<Stmt>, nesting: nat)
      modifies this
      ensures S() == CountAll(old(S()), OfStmts(functionName, ss, nesting))
      decreases ss, 0
    {
      hide CountAll;
      ghost var s := S();
      for i := 0 to |ss|
        invariant CountAll(S(), OfStmts(functionName, ss[i..], nesting)) ==
          CountAll(s, OfStmts(functionName, ss, nesting))
      {
        ghost var t := S();
        VisitStmt(ss[i], nesting);
        CountConcat(t, OfStmt(functionName, ss[i], nesting), OfStmts(functionName, ss[i + 1..], nesting));
        assert ss[i..][1..] == ss[i + 1..];
      }
      CountOne(S(), Jump);
    }

    method VisitStmt(s: Stmt, nesting: nat)
      modifies this
      ensures S() == CountAll(old(S()), OfStmt(functionName, s, nesting))
      decreases s, 2
    {
      hide CountAll;
      ghost var a := S();
      CountOne(a, Jump);
      if s == Nil {
        return;
      }
      NoteNesting(nesting);
      VisitInner(s, nesting);
      CountConcat(a, [Note(nesting)], OfInner(functionName, s, nesting));
    }

    /** The type switch of visitStmt. */
    method VisitInner(s: Stmt, nesting: nat)
      requires s != Nil
      modifies this
      ensures S() == CountAll(old(S()), OfInner(functionName, s, nesting))
      decreases s, 1
    {
      hide CountAll, OfStmt, OfExpr, OfExprs, OfBlock, OfCases, OfComms;
      ghost var f, a, n := functionName, S(), nesting;
      CountOne(a, Jump);
      match s
      case If(init, cond, body, els) =>
        AddDecision(nesting);
        VisitStmt(init, nesting);
        VisitExpr(cond, nesting);
        VisitBlock(body, nesting + 1);
        ghost var others := if els.If? then OfStmt(f, els, n) else OfStmt(f, els, n + 1);
        CountFive(a, [Decision(n)], OfStmt(f, init, n), OfExpr(f, cond, n), OfBlock(f, body, n + 1), others);
        if els != Nil {
          if els.If? {
            VisitStmt(els, nesting);
          } else {
            VisitStmt(els, nesting + 1);
          }
        } else {
          NilMeetsNothing(f, n + 1);
          CountOne(S(), Jump);
        }
      case For(init, cond, post, body) =>
        AddDecision(nesting);
        VisitStmt(init, nesting);
        VisitExpr(cond, nesting);
        VisitStmt(post, nesting);
        VisitBlock(body, nesting + 1);
        CountFive(a, [Decision(n)], OfStmt(f, init, n), OfExpr(f, cond, n), OfStmt(f, post, n),
                  OfBlock(f, body, n + 1));
      case Range(x, body) =>
        AddDecision(nesting);
        VisitExpr(x, nesting);
        VisitBlock(body, nesting + 1);
        CountConcat(a, [Decision(n)], OfExpr(f, x, n));
        CountConcat(a, [Decision(n)] + OfExpr(f, x, n), OfBlock(f, body, n + 1));
      case Switch(init, tag, cases) =>
        AddFork(nesting);
        VisitStmt(init, nesting);
        VisitExpr(tag, nesting);
        VisitCases(cases, nesting + 1);
        CountFive(a, [Fork(n)], OfStmt(f, init, n), OfExpr(f, tag, n), [Note(n + 1)], OfCases(f, cases, n + 1));
      case TypeSwitch(init, assign, cases) =>
        AddFork(nesting);
        VisitStmt(init, nesting);
        VisitStmt(assign, nesting);
        VisitCases(cases, nesting + 1);
        CountFive(a, [Fork(n)], OfStmt(f, init, n), OfStmt(f, assign, n), [Note(n + 1)], OfCases(f, cases, n + 1));
      case Select(comms) =>
        AddFork(nesting);
        VisitComms(comms, nesting + 1);
        CountConcat(a, [Fork(n)], [Note(n + 1)]);
        CountConcat(a, [Fork(n)] + [Note(n + 1)], OfComms(f, comms, n + 1));
      case Branch(counted) =>
        if counted {
          cognitive := cognitive + 1;
        }
      case Block(stmts) => VisitBlock(stmts, nesting);
      case Exprs(exprs) => VisitExprs(exprs, nesting);
      case Labeled(stmt) => VisitStmt(stmt, nesting);
      case Empty =>
    }

    /** The cognitive cost of a switch, type switch or select. */
    method AddFork(nesting: nat)
      modifies this
      ensures S() == CountAll(old(S()), [Fork(nesting)])
    {
      CountOne(S(), Fork(nesting));
      cognitive := cognitive + 1 + nesting;
    }

    method VisitCases(cs: seq<Case>, nesting: nat)
      modifies this
      ensures S() == CountAll(CountAll(old(S()), [Note(nesting)]), OfCases(functionName, cs, nesting))
      decreases cs, 0
    {
      hide CountAll;
      NoteNesting(nesting);
      ghost var s, f := S(), functionName;
      for i := 0 to |cs|
        invariant CountAll(S(), OfCases(f, cs[i..], nesting)) == CountAll(s, OfCases(f, cs, nesting))
      {
        ghost var t := S();
        ghost var option := if |cs[i].list| > 0 then [Option] else [];
        CountOne(t, Option);
        if |cs[i].list| > 0 {
          cyclomatic := cyclomatic + 1;
        }
        VisitExprs(cs[i].list, nesting);
        VisitStmts(cs[i].body, nesting);
        CountFour(t, option, OfExprs(f, cs[i].list, nesting), OfStmts(f, cs[i].body, nesting),
                  OfCases(f, cs[i + 1..], nesting));
        assert cs[i..][1..] == cs[i + 1..];
      }
      CountOne(S(), Jump);
    }

    method VisitComms(cs: seq<Comm>, nesting: nat)
      modifies this
      ensures S() == CountAll(CountAll(old(S()), [Note(nesting)]), OfComms(functionName, cs, nesting))
      decreases cs, 0
    {
      hide CountAll;
      NoteNesting(nesting);
      ghost var s, f := S(), functionName;
      for i := 0 to |cs|
        invariant CountAll(S(), OfComms(f, cs[i..], nesting)) == CountAll(s, OfComms(f, cs, nesting))
      {
        ghost var t := S();
        ghost var option := if cs[i].comm != Nil then [Option] else [];
        CountOne(t, Option);
        if cs[i].comm != Nil {
          cyclomatic := cyclomatic + 1;
        }
        VisitStmt(cs[i].comm, nesting);
        VisitStmts(cs[i].body, nesting);
        CountFour(t, option, OfStmt(f, cs[i].comm, nesting), OfStmts(f, cs[i].body, nesting),
                  OfComms(f, cs[i + 1..], nesting));
        assert cs[i..][1..] == cs[i + 1..];
      }
      CountOne(S(), Jump);
    }
  }

  lemma NilMeetsNothing(f: string, n: nat)
    ensures OfStmt(f, Nil, n) == []
  {
  }

  lemma CountFour(s: Score, a: seq<Event>, b: seq<Event>, c: seq<Event>, d: seq<Event>)
    ensures CountAll(s, a + b + c + d) == CountAll(CountAll(CountAll(CountAll(s, a), b), c), d)
  {
    hide CountAll;
    CountConcat(s, a, b);
    CountConcat(s, a + b, c);
    CountConcat(s, a + b + c, d);
  }

  lemma CountFive(s: Score, a: seq<Event>, b: seq<Event>, c: seq<Event>, d: seq<Event>, e: seq<Event>)
    ensures CountAll(s, a + b + c + d + e) == CountAll(CountAll(CountAll(CountAll(CountAll(s, a), b), c), d), e)
  {
    hide CountAll;
    CountFour(s, a, b, c, d);
    CountConcat(s, a + b + c + d, e);
  }

  // ---------- totals ----------

  /** How many branches, structures and flat costs there are, wherever they stand:
      branches are ifs, loops, clauses that are no default and logical operators; structures
      are ifs, loops, switches, type switches and selects; flat are logical operators and
      counted branch statements. */
  datatype Tally = Tally(branches: nat, structures: nat, flat: nat) {
    function Plus(t: Tally): Tally {
      Tally(branches + t.branches, structures + t.structures, flat + t.flat)
    }
  }

  const NOTHING := Tally(0, 0, 0)

  datatype Kind = Branches | Structures | Flat | Levels

  /** An event's share of a total; for Levels, the nesting level of a structure. */
  function Worth(e: Event, kind: Kind): nat {
    match e
    case Decision(n) => if kind.Levels? then n else if kind.Flat? then 0 else 1
    case Fork(n) => if kind.Levels? then n else if kind.Structures? then 1 else 0
    case Option => if kind.Branches? then 1 else 0
    case Operator => if kind.Branches? || kind.Flat? then 1 else 0
    case Jump => if kind.Flat? then 1 else 0
    case Note(_) => 0
    case SelfCall => 0
  }

  function Total(es: seq<Event>, kind: Kind): nat {
    if es == [] then 0 else Total(es[..|es| - 1], kind) + Worth(es[|es| - 1], kind)
  }

  function Met(es: seq<Event>): Tally {
    Tally(Total(es, Branches), Total(es, Structures), Total(es, Flat))
  }

  function Max(a: nat, b: nat): nat {
    if a < b then b else a
  }

  function Deepest(es: seq<Event>): nat {
    if es == [] then 0
    else Max(Deepest(es[..|es| - 1]), match es[|es| - 1] { case Note(n) => n case _ => 0 })
  }

  ghost predicate Totals(s: Score, es: seq<Event>, t: Score) {
    && t.cyclomatic == s.cyclomatic + Met(es).branches
    && t.cognitive == s.cognitive + Met(es).structures + Total(es, Levels) + Met(es).flat +
       (if SelfCall in es && !s.recursionCounted then 1 else 0)
    && t.maxNesting == Max(s.maxNesting, Deepest(es))
    && (t.recursionCounted <==> s.recursionCounted || SelfCall in es)
  }

  /** The stateful scores are sums over what was met: cyclomatic counts the branches;
      cognitive the structures with their levels, the flat costs, and one recursion. */
  lemma {:induction false} ScoreIsTotal(s: Score, es: seq<Event>)
    ensures Totals(s, es, CountAll(s, es))
  {
    if es != [] {
      hide Count;
      ScoreIsTotal(s, es[..|es| - 1]);
      OneMore(s, es[..|es| - 1], CountAll(s, es[..|es| - 1]), es[|es| - 1]);
      assert es == es[..|es| - 1] + [es[|es| - 1]];
    }
  }

  lemma OneMore(s: Score, es: seq<Event>, t: Score, e: Event)
    requires Totals(s, es, t)
    ensures Totals(s, es + [e], Count(t, e))
  {
    assert (es + [e])[..|es|] == es;
  }

  // ---------- nesting ----------

  function Deeper(e: Event, k: nat): Event {
    match e
    case Note(n) => Note(n + k)
    case Decision(n) => Decision(n + k)
    case Fork(n) => Fork(n + k)
    case _ => e
  }

  function AllDeeper(es: seq<Event>, k: nat): (out: seq<Event>)
    ensures |out| == |es|
  {
    seq(|es|, i requires 0 <= i < |es| => Deeper(es[i], k))
  }

  /** Every structure's level was noted: it is n, or at most the deepest note. */
  ghost predicate Noted(es: seq<Event>, n: nat) {
    forall i :: 0 <= i < |es| ==> match es[i]
      case Decision(d) => d <= Max(n, Deepest(es))
      case Fork(d) => d <= Max(n, Deepest(es))
      case _ => true
  }

  lemma AllDeeperConcat(a: seq<Event>, b: seq<Event>, k: nat)
    ensures AllDeeper(a + b, k) == AllDeeper(a, k) + AllDeeper(b, k)
  {
  }

  lemma {:induction false} DeepestConcat(a: seq<Event>, b: seq<Event>)
    ensures Deepest(a + b) == Max(Deepest(a), Deepest(b))
  {
    if b == [] {
      assert a + b == a;
    } else {
      DeepestConcat(a, b[..|b| - 1]);
      assert (a + b)[..|a + b| - 1] == a + b[..|b| - 1];
    }
  }

  lemma NotedConcat(a: seq<Event>, b: seq<Event>, n: nat)
    requires Noted(a, n) && Noted(b, n)
    ensures Noted(a + b, n)
  {
    hide Deepest;
    DeepestConcat(a, b);
    assert forall i :: 0 <= i < |b| ==> (a + b)[|a| + i] == b[i];
  }

  /** Moving code k levels down moves its events k levels down, and keeps them noted. */
  ghost predicate Moves(es: seq<Event>, fs: seq<Event>, n: nat, k: nat) {
    fs == AllDeeper(es, k) && Noted(es, n)
  }

  lemma MovesConcat(a: seq<Event>, b: seq<Event>, a': seq<Event>, b': seq<Event>, n: nat, k: nat)
    requires Moves(a, a', n, k) && Moves(b, b', n, k)
    ensures Moves(a + b, a' + b', n, k)
  {
    AllDeeperConcat(a, b, k);
    NotedConcat(a, b, n);
  }

  /** Code one level down that notes its level is noted one level up. */
  lemma MovesUp(es: seq<Event>, fs: seq<Event>, n: nat, k: nat)
    requires Moves(es, fs, n + 1, k) && Deepest(es) >= n + 1
    ensures Moves(es, fs, n, k)
  {
  }

  lemma MovesOne(n: nat, k: nat, m: nat)
    requires m == n || m == n + 1
    ensures Moves([], [], n, k) && Moves([Note(m)], [Note(m + k)], n, k)
    ensures Moves([Decision(n)], [Decision(n + k)], n, k) && Moves([Fork(n)], [Fork(n + k)], n, k)
    ensures Moves([Option], [Option], n, k) && Moves([Operator], [Operator], n, k)
    ensures Moves([Jump], [Jump], n, k) && Moves([SelfCall], [SelfCall], n, k)
    ensures Deepest([Note(m)]) == m
  {
    assert [Note(m)][..0] == [];
  }

  lemma {:induction false} ExprMoves(f: string, e: Expr, n: nat, k: nat)
    ensures Moves(OfExpr(f, e, n), OfExpr(f, e, n + k), n, k)
    decreases e, 1
  {
    hide Moves;
    MovesOne(n, k, n);
    match e
    case Name(_) =>
    case Selector(x, _) => ExprMoves(f, x, n, k);
    case Logical(x, y) =>
      ExprMoves(f, x, n, k);
      ExprMoves(f, y, n, k);
      MovesConcat([Operator], OfExpr(f, x, n), [Operator], OfExpr(f, x, n + k), n, k);
      MovesConcat([Operator] + OfExpr(f, x, n), OfExpr(f, y, n),
                  [Operator] + OfExpr(f, x, n + k), OfExpr(f, y, n + k), n, k);
    case Call(fn, args) =>
      var self := if IsSelf(f, fn) then [SelfCall] else [];
      ExprMoves(f, fn, n, k);
      ExprsMove(f, args, n, k);
      MovesConcat(self, OfExpr(f, fn, n), self, OfExpr(f, fn, n + k), n, k);
      MovesConcat(self + OfExpr(f, fn, n), OfExprs(f, args, n),
                  self + OfExpr(f, fn, n + k), OfExprs(f, args, n + k), n, k);
    case Parts(parts) => ExprsMove(f, parts, n, k);
    case FuncLit(body) => InnerBlockMoves(f, body, n, k);
  }

  lemma {:induction false} ExprsMove(f: string, es: seq<Expr>, n: nat, k: nat)
    ensures Moves(OfExprs(f, es, n), OfExprs(f, es, n + k), n, k)
    decreases es, 0
  {
    hide Moves;
    if es == [] {
      MovesOne(n, k, n);
    } else {
      ExprMoves(f, es[0], n, k);
      ExprsMove(f, es[1..], n, k);
      MovesConcat(OfExpr(f, es[0], n), OfExprs(f, es[1..], n),
                  OfExpr(f, es[0], n + k), OfExprs(f, es[1..], n + k), n, k);
    }
  }

  lemma {:induction false} BlockMoves(f: string, ss: seq<Stmt>, n: nat, k: nat)
    ensures Moves(OfBlock(f, ss, n), OfBlock(f, ss, n + k), n, k) && Deepest(OfBlock(f, ss, n)) >= n
    decreases ss, 1
  {
    hide Moves;
    StmtsMove(f, ss, n, k);
    MovesOne(n, k, n);
    MovesConcat([Note(n)], OfStmts(f, ss, n), [Note(n + k)], OfStmts(f, ss, n + k), n, k);
    DeepestConcat([Note(n)], OfStmts(f, ss, n));
  }

  /** A block inside a structure at level n. */
  lemma {:induction false} InnerBlockMoves(f: string, ss: seq<Stmt>, n: nat, k: nat)
    ensures Moves(OfBlock(f, ss, n + 1), OfBlock(f, ss, n + k + 1), n, k)
    decreases ss, 2
  {
    BlockMoves(f, ss, n + 1, k);
    MovesUp(OfBlock(f, ss, n + 1), OfBlock(f, ss, n + k + 1), n, k);
  }

  lemma {:induction false} StmtsMove(f: string, ss: seq<Stmt>, n: nat, k: nat)
    ensures Moves(OfStmts(f, ss, n), OfStmts(f, ss, n + k), n, k)
    decreases ss, 0
  {
    hide Moves;
    if ss == [] {
      MovesOne(n, k, n);
    } else {
      StmtMoves(f, ss[0], n, k);
      StmtsMove(f, ss[1..], n, k);
      MovesConcat(OfStmt(f, ss[0], n), OfStmts(f, ss[1..], n),
                  OfStmt(f, ss[0], n + k), OfStmts(f, ss[1..], n + k), n, k);
    }
  }

  lemma {:induction false} StmtMoves(f: string, s: Stmt, n: nat, k: nat)
    ensures Moves(OfStmt(f, s, n), OfStmt(f, s, n + k), n, k)
    ensures s != Nil ==> Deepest(OfStmt(f, s, n)) >= n
    decreases s, 2
  {
    hide Moves;
    MovesOne(n, k, n);
    if s != Nil {
      InnerMoves(f, s, n, k);
      MovesConcat([Note(n)], OfInner(f, s, n), [Note(n + k)], OfInner(f, s, n + k), n, k);
      DeepestConcat([Note(n)], OfInner(f, s, n));
    }
  }

  lemma {:induction false} InnerStmtMoves(f: string, s: Stmt, n: nat, k: nat)
    ensures Moves(OfStmt(f, s, n + 1), OfStmt(f, s, n + k + 1), n, k)
    decreases s, 3
  {
    hide Moves, Deepest, OfStmt;
    StmtMoves(f, s, n + 1, k);
    if s == Nil {
      NilMeetsNothing(f, n + 1);
      NilMeetsNothing(f, n + k + 1);
      MovesOne(n, k, n);
    } else {
      MovesUp(OfStmt(f, s, n + 1), OfStmt(f, s, n + k + 1), n, k);
    }
  }

  lemma MovesFive(a: seq<Event>, b: seq<Event>, c: seq<Event>, d: seq<Event>, e: seq<Event>,
                  a': seq<Event>, b': seq<Event>, c': seq<Event>, d': seq<Event>, e': seq<Event>, n: nat, k: nat)
    requires Moves(a, a', n, k) && Moves(b, b', n, k) && Moves(c, c', n, k) && Moves(d, d', n, k) && Moves(e, e', n, k)
    ensures Moves(a + b + c, a' + b' + c', n, k)
    ensures Moves(a + b + c + d, a' + b' + c' + d', n, k)
    ensures Moves(a + b + c + d + e, a' + b' + c' + d' + e', n, k)
  {
    hide Moves;
    MovesConcat(a, b, a', b', n, k);
    MovesConcat(a + b, c, a' + b', c', n, k);
    MovesConcat(a + b + c, d, a' + b' + c', d', n, k);
    MovesConcat(a + b + c + d, e, a' + b' + c' + d', e', n, k);
  }

  /** A head at level n, then clauses that note level n + 1. */
  lemma MovesInside(head: seq<Event>, clauses: seq<Event>, head': seq<Event>, clauses': seq<Event>, n: nat, k: nat)
    requires Moves(head, head', n, k) && Moves(clauses, clauses', n + 1, k)
    ensures Moves(head + [Note(n + 1)] + clauses, head' + [Note(n + k + 1)] + clauses', n, k)
  {
    hide Moves, Deepest;
    MovesOne(n + 1, k, n + 1);
    MovesConcat([Note(n + 1)], clauses, [Note(n + k + 1)], clauses', n + 1, k);
    DeepestConcat([Note(n + 1)], clauses);
    MovesUp([Note(n + 1)] + clauses, [Note(n + k + 1)] + clauses', n, k);
    MovesConcat(head, [Note(n + 1)] + clauses, head', [Note(n + k + 1)] + clauses', n, k);
    assert head + ([Note(n + 1)] + clauses) == head + [Note(n + 1)] + clauses;
    assert head' + ([Note(n + k + 1)] + clauses') == head' + [Note(n + k + 1)] + clauses';
  }

  lemma {:induction false} CasesMove(f: string, cs: seq<Case>, n: nat, k: nat)
    ensures Moves(OfCases(f, cs, n), OfCases(f, cs, n + k), n, k)
    decreases cs, 0
  {
    hide Moves;
    MovesOne(n, k, n);
    if cs != [] {
      var m, option := n + k, if |cs[0].list| > 0 then [Option] else [];
      ExprsMove(f, cs[0].list, n, k);
      StmtsMove(f, cs[0].body, n, k);
      CasesMove(f, cs[1..], n, k);
      MovesFive(option, OfExprs(f, cs[0].list, n), OfStmts(f, cs[0].body, n), OfCases(f, cs[1..], n), [],
                option, OfExprs(f, cs[0].list, m), OfStmts(f, cs[0].body, m), OfCases(f, cs[1..], m), [], n, k);
    }
  }

  lemma {:induction false} CommsMove(f: string, cs: seq<Comm>, n: nat, k: nat)
    ensures Moves(OfComms(f, cs, n), OfComms(f, cs, n + k), n, k)
    decreases cs, 0
  {
    hide Moves;
    MovesOne(n, k, n);
    if cs != [] {
      var m, option := n + k, if cs[0].comm != Nil then [Option] else [];
      StmtMoves(f, cs[0].comm, n, k);
      StmtsMove(f, cs[0].body, n, k);
      CommsMove(f, cs[1..], n, k);
      MovesFive(option, OfStmt(f, cs[0].comm, n), OfStmts(f, cs[0].body, n), OfComms(f, cs[1..], n), [],
                option, OfStmt(f, cs[0].comm, m), OfStmts(f, cs[0].body, m), OfComms(f, cs[1..], m), [], n, k);
    }
  }

  lemma {:induction false} InnerMoves(f: string, s: Stmt, n: nat, k: nat)
    ensures Moves(OfInner(f, s, n), OfInner(f, s, n + k), n, k)
    decreases s, 1
  {
    hide Moves, OfStmt, OfExpr, OfExprs, OfBlock, OfCases, OfComms;
    var m := n + k;
    MovesOne(n, k, n);
    MovesOne(n, k, n + 1);
    match s
    case If(init, cond, body, els) =>
      StmtMoves(f, init, n, k);
      ExprMoves(f, cond, n, k);
      InnerBlockMoves(f, body, n, k);
      StmtMoves(f, els, n, k);
      InnerStmtMoves(f, els, n, k);
      var others := if els.If? then OfStmt(f, els, n) else OfStmt(f, els, n + 1);
      var others' := if els.If? then OfStmt(f, els, m) else OfStmt(f, els, m + 1);
      MovesFive([Decision(n)], OfStmt(f, init, n), OfExpr(f, cond, n), OfBlock(f, body, n + 1), others,
                [Decision(m)], OfStmt(f, init, m), OfExpr(f, cond, m), OfBlock(f, body, m + 1), others', n, k);
    case For(init, cond, post, body) =>
      StmtMoves(f, init, n, k);
      ExprMoves(f, cond, n, k);
      StmtMoves(f, post, n, k);
      InnerBlockMoves(f, body, n, k);
      MovesFive([Decision(n)], OfStmt(f, init, n), OfExpr(f, cond, n), OfStmt(f, post, n), OfBlock(f, body, n + 1),
                [Decision(m)], OfStmt(f, init, m), OfExpr(f, cond, m), OfStmt(f, post, m),
                OfBlock(f, body, m + 1), n, k);
    case Range(x, body) =>
      ExprMoves(f, x, n, k);
      InnerBlockMoves(f, body, n, k);
      MovesConcat([Decision(n)], OfExpr(f, x, n), [Decision(m)], OfExpr(f, x, m), n, k);
      MovesConcat([Decision(n)] + OfExpr(f, x, n), OfBlock(f, body, n + 1),
                  [Decision(m)] + OfExpr(f, x, m), OfBlock(f, body, m + 1), n, k);
    case Switch(init, tag, cases) =>
      StmtMoves(f, init, n, k);
      ExprMoves(f, tag, n, k);
      MovesFive([Fork(n)], OfStmt(f, init, n), OfExpr(f, tag, n), [], [],
                [Fork(m)], OfStmt(f, init, m), OfExpr(f, tag, m), [], [], n, k);
      CasesMove(f, cases, n + 1, k);
      MovesInside([Fork(n)] + OfStmt(f, init, n) + OfExpr(f, tag, n), OfCases(f, cases, n + 1),
                  [Fork(m)] + OfStmt(f, init, m) + OfExpr(f, tag, m), OfCases(f, cases, m + 1), n, k);
    case TypeSwitch(init, assign, cases) =>
      StmtMoves(f, init, n, k);
      StmtMoves(f, assign, n, k);
      MovesFive([Fork(n)], OfStmt(f, init, n), OfStmt(f, assign, n), [], [],
                [Fork(m)], OfStmt(f, init, m), OfStmt(f, assign, m), [], [], n, k);
      CasesMove(f, cases, n + 1, k);
      MovesInside([Fork(n)] + OfStmt(f, init, n) + OfStmt(f, assign, n), OfCases(f, cases, n + 1),
                  [Fork(m)] + OfStmt(f, init, m) + OfStmt(f, assign, m), OfCases(f, cases, m + 1), n, k);
    case Select(comms) =>
      CommsMove(f, comms, n + 1, k);
      MovesInside([Fork(n)], OfComms(f, comms, n + 1), [Fork(m)], OfComms(f, comms, m + 1), n, k);
    case Branch(counted) =>
    case Block(stmts) => BlockMoves(f, stmts, n, k);
    case Exprs(exprs) => ExprsMove(f, exprs, n, k);
    case Labeled(stmt) => StmtMoves(f, stmt, n, k);
    case Empty =>
    case Nil =>
  }

  // ---------- counting syntax ----------

  function InExpr(e: Expr): Tally
    decreases e, 1
  {
    match e
    case Name(_) => NOTHING
    case Selector(x, _) => InExpr(x)
    case Logical(x, y) => Tally(1, 0, 1).Plus(InExpr(x)).Plus(InExpr(y))
    case Call(fn, args) => InExpr(fn).Plus(InExprs(args))
    case Parts(parts) => InExprs(parts)
    case FuncLit(body) => InStmts(body)
  }

  function InExprs(es: seq<Expr>): Tally
    decreases es, 0
  {
    if es == [] then NOTHING else InExpr(es[0]).Plus(InExprs(es[1..]))
  }

  function InStmts(ss: seq<Stmt>): Tally
    decreases ss, 0
  {
    if ss == [] then NOTHING else InStmt(ss[0]).Plus(InStmts(ss[1..]))
  }

  function InStmt(s: Stmt): Tally
    decreases s, 1
  {
    match s
    case If(init, cond, body, els) =>
      Tally(1, 1, 0).Plus(InStmt(init)).Plus(InExpr(cond)).Plus(InStmts(body)).Plus(InStmt(els))
    case For(init, cond, post, body) =>
      Tally(1, 1, 0).Plus(InStmt(init)).Plus(InExpr(cond)).Plus(InStmt(post)).Plus(InStmts(body))
    case Range(x, body) => Tally(1, 1, 0).Plus(InExpr(x)).Plus(InStmts(body))
    case Switch(init, tag, cases) => Tally(0, 1, 0).Plus(InStmt(init)).Plus(InExpr(tag)).Plus(InCases(cases))
    case TypeSwitch(init, assign, cases) => Tally(0, 1, 0).Plus(InStmt(init)).Plus(InStmt(assign)).Plus(InCases(cases))
    case Select(comms) => Tally(0, 1, 0).Plus(InComms(comms))
    case Branch(counted) => if counted then Tally(0, 0, 1) else NOTHING
    case Block(stmts) => InStmts(stmts)
    case Exprs(exprs) => InExprs(exprs)
    case Labeled(stmt) => InStmt(stmt)
    case Empty => NOTHING
    case Nil => NOTHING
  }

  /** A default clause is no branch. */
  function InCases(cs: seq<Case>): Tally
    decreases cs, 0
  {
    if cs == [] then NOTHING
    else
      var option := Tally(if cs[0].list == [] then 0 else 1, 0, 0);
      option.Plus(InExprs(cs[0].list)).Plus(InStmts(cs[0].body)).Plus(InCases(cs[1..]))
  }

  function InComms(cs: seq<Comm>): Tally
    decreases cs, 0
  {
    if cs == [] then NOTHING
    else
      var option := Tally(if cs[0].comm == Nil then 0 else 1, 0, 0);
      option.Plus(InStmt(cs[0].comm)).Plus(InStmts(cs[0].body)).Plus(InComms(cs[1..]))
  }

  lemma {:induction false} TotalConcat(a: seq<Event>, b: seq<Event>, kind: Kind)
    ensures Total(a + b, kind) == Total(a, kind) + Total(b, kind)
  {
    hide Worth;
    if b == [] {
      assert a + b == a;
    } else {
      TotalConcat(a, b[..|b| - 1], kind);
      assert (a + b)[..|a + b| - 1] == a + b[..|b| - 1];
    }
  }

  lemma MetConcat(a: seq<Event>, b: seq<Event>)
    ensures Met(a + b) == Met(a).Plus(Met(b))
  {
    hide Total;
    TotalConcat(a, b, Branches);
    TotalConcat(a, b, Structures);
    TotalConcat(a, b, Flat);
  }

  lemma MetThree(a: seq<Event>, b: seq<Event>, c: seq<Event>)
    ensures Met(a + b + c) == Met(a).Plus(Met(b)).Plus(Met(c))
  {
    hide Met, Tally.Plus;
    MetConcat(a, b);
    MetConcat(a + b, c);
  }

  lemma MetFour(a: seq<Event>, b: seq<Event>, c: seq<Event>, d: seq<Event>)
    ensures Met(a + b + c + d) == Met(a).Plus(Met(b)).Plus(Met(c)).Plus(Met(d))
  {
    hide Met, Tally.Plus;
    MetThree(a, b, c);
    MetConcat(a + b + c, d);
  }

  lemma MetFive(a: seq<Event>, b: seq<Event>, c: seq<Event>, d: seq<Event>, e: seq<Event>)
    ensures Met(a + b + c + d + e) == Met(a).Plus(Met(b)).Plus(Met(c)).Plus(Met(d)).Plus(Met(e))
  {
    hide Met, Tally.Plus;
    MetFour(a, b, c, d);
    MetConcat(a + b + c + d, e);
  }

  lemma PlusNothing(t: Tally)
    ensures t.Plus(NOTHING) == t == NOTHING.Plus(t)
  {
  }

  lemma TotalOne(e: Event, kind: Kind)
    ensures Total([e], kind) == Worth(e, kind) && Total([], kind) == 0
  {
    assert [e][..0] == [];
  }

  lemma MetOne(e: Event)
    ensures Met([]) == NOTHING && Met([e]) == Tally(Worth(e, Branches), Worth(e, Structures), Worth(e, Flat))
  {
    hide Total;
    TotalOne(e, Branches);
    TotalOne(e, Structures);
    TotalOne(e, Flat);
  }

  lemma MetLeaf(e: Event)
    ensures Met([]) == NOTHING
    ensures Met([e]) == match e {
      case Note(_) => NOTHING
      case Decision(_) => Tally(1, 1, 0)
      case Fork(_) => Tally(0, 1, 0)
      case Option => Tally(1, 0, 0)
      case Operator => Tally(1, 0, 1)
      case Jump => Tally(0, 0, 1)
      case SelfCall => NOTHING
    }
  {
    hide Met;
    MetOne(e);
  }

  lemma MetLeaves(n: nat)
    ensures Met([]) == NOTHING == Met([Note(n)]) && Met([Option]) == Tally(1, 0, 0) && Met([Operator]) == Tally(1, 0, 1)
    ensures Met([Decision(n)]) == Tally(1, 1, 0) && Met([Fork(n)]) == Tally(0, 1, 0)
    ensures Met([Jump]) == Tally(0, 0, 1) && Met([SelfCall]) == NOTHING
  {
    hide Met, Worth;
    MetLeaf(Note(n));
    forall e ensures Met([e]) == match e {
      case Note(_) => NOTHING
      case Decision(_) => Tally(1, 1, 0)
      case Fork(_) => Tally(0, 1, 0)
      case Option => Tally(1, 0, 0)
      case Operator => Tally(1, 0, 1)
      case Jump => Tally(0, 0, 1)
      case SelfCall => NOTHING
    }
    { MetLeaf(e); }
  }

  lemma {:induction false} ExprMet(f: string, e: Expr, n: nat)
    ensures Met(OfExpr(f, e, n)) == InExpr(e)
    decreases e, 1
  {
    hide Met, OfExprs, OfBlock, InExprs, InStmts, Tally.Plus;
    MetLeaves(n);
    match e
    case Name(_) =>
    case Selector(x, _) => ExprMet(f, x, n);
    case Logical(x, y) =>
      ExprMet(f, x, n);
      ExprMet(f, y, n);
      MetThree([Operator], OfExpr(f, x, n), OfExpr(f, y, n));
    case Call(fn, args) =>
      ExprMet(f, fn, n);
      ExprsMet(f, args, n);
      MetThree(if IsSelf(f, fn) then [SelfCall] else [], OfExpr(f, fn, n), OfExprs(f, args, n));
      PlusNothing(InExpr(fn));
    case Parts(parts) => ExprsMet(f, parts, n);
    case FuncLit(body) => BlockMet(f, body, n + 1);
  }

  lemma {:induction false} ExprsMet(f: string, es: seq<Expr>, n: nat)
    ensures Met(OfExprs(f, es, n)) == InExprs(es)
    decreases es, 0
  {
    hide Met;
    MetLeaves(n);
    if es != [] {
      ExprMet(f, es[0], n);
      ExprsMet(f, es[1..], n);
      MetConcat(OfExpr(f, es[0], n), OfExprs(f, es[1..], n));
    }
  }

  lemma {:induction false} BlockMet(f: string, ss: seq<Stmt>, n: nat)
    ensures Met(OfBlock(f, ss, n)) == InStmts(ss)
    decreases ss, 1
  {
    hide Met;
    MetLeaves(n);
    StmtsMet(f, ss, n);
    MetConcat([Note(n)], OfStmts(f, ss, n));
  }

  lemma {:induction false} StmtsMet(f: string, ss: seq<Stmt>, n: nat)
    ensures Met(OfStmts(f, ss, n)) == InStmts(ss)
    decreases ss, 0
  {
    hide Met;
    MetLeaves(n);
    if ss != [] {
      StmtMet(f, ss[0], n);
      StmtsMet(f, ss[1..], n);
      MetConcat(OfStmt(f, ss[0], n), OfStmts(f, ss[1..], n));
    }
  }

  /** What the visitor counts in a statement does not depend on where the statement stands:
      it is what the syntax holds. */
  lemma {:induction false} StmtMet(f: string, s: Stmt, n: nat)
    ensures Met(OfStmt(f, s, n)) == InStmt(s)
    decreases s, 2
  {
    hide Met;
    MetLeaves(n);
    if s != Nil {
      InnerMet(f, s, n);
      MetConcat([Note(n)], OfInner(f, s, n));
    }
  }

  lemma {:induction false} InnerMet(f: string, s: Stmt, n: nat)
    ensures Met(OfInner(f, s, n)) == InStmt(s)
    decreases s, 1
  {
    hide Met, Tally.Plus, OfStmt, OfExpr, OfExprs, OfBlock, OfCases, OfComms;
    hide InExpr, InExprs, InStmts, InCases, InComms;
    match s
    case If(_, _, _, _) => LoopMet(f, s, n);
    case For(_, _, _, _) => LoopMet(f, s, n);
    case Range(_, _) => LoopMet(f, s, n);
    case Switch(_, _, _) => ForkMet(f, s, n);
    case TypeSwitch(_, _, _) => ForkMet(f, s, n);
    case Select(_) => ForkMet(f, s, n);
    case Branch(counted) => MetLeaves(n);
    case Block(stmts) => BlockMet(f, stmts, n);
    case Exprs(exprs) => ExprsMet(f, exprs, n);
    case Labeled(stmt) => StmtMet(f, stmt, n);
    case Empty => MetLeaves(n);
    case Nil => MetLeaves(n);
  }

  lemma {:induction false} LoopMet(f: string, s: Stmt, n: nat)
    requires s.If? || s.For? || s.Range?
    ensures Met(OfInner(f, s, n)) == InStmt(s)
    decreases s, 0
  {
    hide Met, Tally.Plus, OfStmt, OfExpr, OfExprs, OfBlock, OfCases, OfComms;
    hide InExpr, InExprs, InStmts, InCases, InComms;
    MetLeaf(Decision(n));
    match s
    case If(init, cond, body, els) =>
      StmtMet(f, init, n);
      ExprMet(f, cond, n);
      BlockMet(f, body, n + 1);
      StmtMet(f, els, if els.If? then n else n + 1);
      MetFive([Decision(n)], OfStmt(f, init, n), OfExpr(f, cond, n), OfBlock(f, body, n + 1),
              OfStmt(f, els, if els.If? then n else n + 1));
    case For(init, cond, post, body) =>
      StmtMet(f, init, n);
      ExprMet(f, cond, n);
      StmtMet(f, post, n);
      BlockMet(f, body, n + 1);
      MetFive([Decision(n)], OfStmt(f, init, n), OfExpr(f, cond, n), OfStmt(f, post, n), OfBlock(f, body, n + 1));
    case Range(x, body) =>
      ExprMet(f, x, n);
      BlockMet(f, body, n + 1);
      MetThree([Decision(n)], OfExpr(f, x, n), OfBlock(f, body, n + 1));
  }

  lemma {:induction false} ForkMet(f: string, s: Stmt, n: nat)
    requires s.Switch? || s.TypeSwitch? || s.Select?
    ensures Met(OfInner(f, s, n)) == InStmt(s)
    decreases s, 0
  {
    hide Met, Tally.Plus, OfStmt, OfExpr, OfExprs, OfBlock, OfCases, OfComms;
    hide InExpr, InExprs, InStmts, InCases, InComms;
    MetLeaves(n);
    MetLeaves(n + 1);
    match s
    case Switch(init, tag, cases) =>
      StmtMet(f, init, n);
      ExprMet(f, tag, n);
      CasesMet(f, cases, n + 1);
      MetFive([Fork(n)], OfStmt(f, init, n), OfExpr(f, tag, n), [Note(n + 1)], OfCases(f, cases, n + 1));
      PlusNothing(Tally(0, 1, 0).Plus(InStmt(init)).Plus(InExpr(tag)));
    case TypeSwitch(init, assign, cases) =>
      StmtMet(f, init, n);
      StmtMet(f, assign, n);
      CasesMet(f, cases, n + 1);
      MetFive([Fork(n)], OfStmt(f, init, n), OfStmt(f, assign, n), [Note(n + 1)], OfCases(f, cases, n + 1));
      PlusNothing(Tally(0, 1, 0).Plus(InStmt(init)).Plus(InStmt(assign)));
    case Select(comms) =>
      CommsMet(f, comms, n + 1);
      MetThree([Fork(n)], [Note(n + 1)], OfComms(f, comms, n + 1));
      PlusNothing(Tally(0, 1, 0));
  }

  lemma {:induction false} CasesMet(f: string, cs: seq<Case>, n: nat)
    ensures Met(OfCases(f, cs, n)) == InCases(cs)
    decreases cs, 0
  {
    hide Met;
    MetLeaves(n);
    if cs != [] {
      ExprsMet(f, cs[0].list, n);
      StmtsMet(f, cs[0].body, n);
      CasesMet(f, cs[1..], n);
      MetFour(if |cs[0].list| > 0 then [Option] else [], OfExprs(f, cs[0].list, n), OfStmts(f, cs[0].body, n),
              OfCases(f, cs[1..], n));
    }
  }

  lemma {:induction false} CommsMet(f: string, cs: seq<Comm>, n: nat)
    ensures Met(OfComms(f, cs, n)) == InComms(cs)
    decreases cs, 0
  {
    hide Met;
    MetLeaves(n);
    if cs != [] {
      StmtMet(f, cs[0].comm, n);
      StmtsMet(f, cs[0].body, n);
      CommsMet(f, cs[1..], n);
      MetFour(if cs[0].comm != Nil then [Option] else [], OfStmt(f, cs[0].comm, n), OfStmts(f, cs[0].body, n),
              OfComms(f, cs[1..], n));
    }
  }

  // ---------- levels in syntax ----------

  /** levels: for each structure, the number of bodies around it; depth: the most bodies
      around anything; calls: whether the function is called by its name. Bodies are those of
      ifs, loops, switches, type switches, selects and function literals, and an else that
      holds no if; an else-if stands beside its if. */
  datatype Shape = Shape(levels: nat, depth: nat, calls: bool) {
    function Beside(t: Shape): Shape {
      Shape(levels + t.levels, Max(depth, t.depth), calls || t.calls)
    }

    /** A body around it all counts once for each structure in it. */
    function Inside(structures: nat): Shape {
      Shape(levels + structures, depth + 1, calls)
    }
  }

  const PLAIN := Shape(0, 0, false)

  function ExprShape(f: string, e: Expr): Shape
    decreases e, 1
  {
    match e
    case Name(_) => PLAIN
    case Selector(x, _) => ExprShape(f, x)
    case Logical(x, y) => ExprShape(f, x).Beside(ExprShape(f, y))
    case Call(fn, args) => Shape(0, 0, IsSelf(f, fn)).Beside(ExprShape(f, fn)).Beside(ExprsShape(f, args))
    case Parts(parts) => ExprsShape(f, parts)
    case FuncLit(body) => BodyShape(f, body)
  }

  function ExprsShape(f: string, es: seq<Expr>): Shape
    decreases es, 0
  {
    if es == [] then PLAIN else ExprShape(f, es[0]).Beside(ExprsShape(f, es[1..]))
  }

  function BodyShape(f: string, body: seq<Stmt>): Shape
    decreases body, 1
  {
    StmtsShape(f, body).Inside(InStmts(body).structures)
  }

  function StmtsShape(f: string, ss: seq<Stmt>): Shape
    decreases ss, 0
  {
    if ss == [] then PLAIN else StmtShape(f, ss[0]).Beside(StmtsShape(f, ss[1..]))
  }

  function StmtShape(f: string, s: Stmt): Shape
    decreases s, 1
  {
    match s
    case If(init, cond, body, els) =>
      StmtShape(f, init).Beside(ExprShape(f, cond)).Beside(BodyShape(f, body)).Beside(ElseShape(f, els))
    case For(init, cond, post, body) =>
      StmtShape(f, init).Beside(ExprShape(f, cond)).Beside(StmtShape(f, post)).Beside(BodyShape(f, body))
    case Range(x, body) => ExprShape(f, x).Beside(BodyShape(f, body))
    case Switch(init, tag, cases) =>
      StmtShape(f, init).Beside(ExprShape(f, tag)).Beside(CasesShape(f, cases).Inside(InCases(cases).structures))
    case TypeSwitch(init, assign, cases) =>
      StmtShape(f, init).Beside(StmtShape(f, assign)).Beside(CasesShape(f, cases).Inside(InCases(cases).structures))
    case Select(comms) => CommsShape(f, comms).Inside(InComms(comms).structures)
    case Branch(_) => PLAIN
    case Block(stmts) => StmtsShape(f, stmts)
    case Exprs(exprs) => ExprsShape(f, exprs)
    case Labeled(stmt) => StmtShape(f, stmt)
    case Empty => PLAIN
    case Nil => PLAIN
  }

  function ElseShape(f: string, els: Stmt): Shape
    decreases els, 2
  {
    if els.If? || els.Nil? then StmtShape(f, els) else StmtShape(f, els).Inside(InStmt(els).structures)
  }

  function CasesShape(f: string, cs: seq<Case>): Shape
    decreases cs, 0
  {
    if cs == [] then PLAIN
    else ExprsShape(f, cs[0].list).Beside(StmtsShape(f, cs[0].body)).Beside(CasesShape(f, cs[1..]))
  }

  function CommsShape(f: string, cs: seq<Comm>): Shape
    decreases cs, 0
  {
    if cs == [] then PLAIN
    else StmtShape(f, cs[0].comm).Beside(StmtsShape(f, cs[0].body)).Beside(CommsShape(f, cs[1..]))
  }

  /** The events are those of code of this shape at level n. */
  ghost predicate Fits(es: seq<Event>, shape: Shape, n: nat) {
    && Total(es, Levels) == shape.levels + n * Total(es, Structures)
    && Max(n, Deepest(es)) == n + shape.depth
    && (SelfCall in es <==> shape.calls)
  }

  lemma FitsConcat(a: seq<Event>, b: seq<Event>, s: Shape, t: Shape, n: nat)
    requires Fits(a, s, n) && Fits(b, t, n)
    ensures Fits(a + b, s.Beside(t), n)
  {
    hide Total, Deepest;
    TotalConcat(a, b, Levels);
    TotalConcat(a, b, Structures);
    DeepestConcat(a, b);
    Distribute(n, Total(a, Structures), Total(b, Structures));
  }

  /** Events that note their level, seen from one level up. */
  lemma FitsInside(es: seq<Event>, shape: Shape, n: nat)
    requires Fits(es, shape, n + 1) && Deepest(es) >= n + 1
    ensures Fits(es, shape.Inside(Met(es).structures), n)
  {
    hide Total, Deepest;
    Distribute(Total(es, Structures), n, 1);
  }

  lemma FitsLeaf(e: Event, n: nat)
    requires match e case Note(m) => m == n case Decision(m) => m == n case Fork(m) => m == n case _ => true
    ensures Fits([e], Shape(0, 0, e.SelfCall?), n) && Fits([], PLAIN, n)
  {
    TotalOne(e, Levels);
    TotalOne(e, Structures);
    assert [e][..0] == [];
  }

  /** A leaf and the parts that follow it at its level. */
  lemma FitsAfter(e: Event, a: seq<Event>, b: seq<Event>, c: seq<Event>, d: seq<Event>,
                  s: Shape, t: Shape, u: Shape, v: Shape, n: nat)
    requires Fits([e], PLAIN, n) && Fits(a, s, n) && Fits(b, t, n) && Fits(c, u, n) && Fits(d, v, n)
    ensures Fits([e] + a, s, n) && Fits([e] + a + b, s.Beside(t), n)
    ensures Fits([e] + a + b + c, s.Beside(t).Beside(u), n)
    ensures Fits([e] + a + b + c + d, s.Beside(t).Beside(u).Beside(v), n)
  {
    hide Fits, Shape.Beside;
    FitsConcat([e], a, PLAIN, s, n);
    PlainBeside(s);
    FitsConcat([e] + a, b, s, t, n);
    FitsConcat([e] + a + b, c, s.Beside(t), u, n);
    FitsConcat([e] + a + b + c, d, s.Beside(t).Beside(u), v, n);
  }

  lemma PlainBeside(s: Shape)
    ensures PLAIN.Beside(s) == s
  {
  }

  lemma {:induction false} ExprFits(f: string, e: Expr, n: nat)
    ensures Fits(OfExpr(f, e, n), ExprShape(f, e), n)
    decreases e, 1
  {
    hide Fits, Shape.Beside, Shape.Inside, OfExprs, OfBlock, ExprsShape, BodyShape;
    FitsLeaf(Operator, n);
    match e
    case Name(_) =>
    case Selector(x, _) => ExprFits(f, x, n);
    case Logical(x, y) =>
      ExprFits(f, x, n);
      ExprFits(f, y, n);
      FitsAfter(Operator, OfExpr(f, x, n), OfExpr(f, y, n), [], [], ExprShape(f, x), ExprShape(f, y), PLAIN, PLAIN, n);
    case Call(fn, args) =>
      var self := if IsSelf(f, fn) then [SelfCall] else [];
      FitsLeaf(SelfCall, n);
      ExprFits(f, fn, n);
      ExprsFit(f, args, n);
      FitsConcat(self, OfExpr(f, fn, n), Shape(0, 0, IsSelf(f, fn)), ExprShape(f, fn), n);
      FitsConcat(self + OfExpr(f, fn, n), OfExprs(f, args, n),
                 Shape(0, 0, IsSelf(f, fn)).Beside(ExprShape(f, fn)), ExprsShape(f, args), n);
    case Parts(parts) => ExprsFit(f, parts, n);
    case FuncLit(body) => BodyFits(f, body, n);
  }

  lemma {:induction false} ExprsFit(f: string, es: seq<Expr>, n: nat)
    ensures Fits(OfExprs(f, es, n), ExprsShape(f, es), n)
    decreases es, 0
  {
    hide Fits, Shape.Beside;
    FitsLeaf(Jump, n);
    if es != [] {
      ExprFits(f, es[0], n);
      ExprsFit(f, es[1..], n);
      FitsConcat(OfExpr(f, es[0], n), OfExprs(f, es[1..], n), ExprShape(f, es[0]), ExprsShape(f, es[1..]), n);
    }
  }

  lemma {:induction false} BlockFits(f: string, ss: seq<Stmt>, n: nat)
    ensures Fits(OfBlock(f, ss, n), StmtsShape(f, ss), n) && Deepest(OfBlock(f, ss, n)) >= n
    decreases ss, 1
  {
    hide Fits, Shape.Beside;
    StmtsFit(f, ss, n);
    FitsNoted(OfStmts(f, ss, n), StmtsShape(f, ss), n);
  }

  /** A level noted first. */
  lemma FitsNoted(es: seq<Event>, shape: Shape, n: nat)
    requires Fits(es, shape, n)
    ensures Fits([Note(n)] + es, shape, n) && Deepest([Note(n)] + es) >= n
  {
    hide Fits, Shape.Beside;
    FitsLeaf(Note(n), n);
    PlainBeside(shape);
    FitsConcat([Note(n)], es, PLAIN, shape, n);
    DeepestConcat([Note(n)], es);
    assert [Note(n)][..0] == [];
  }

  lemma {:induction false} BodyFits(f: string, body: seq<Stmt>, n: nat)
    ensures Fits(OfBlock(f, body, n + 1), BodyShape(f, body), n)
    decreases body, 2
  {
    hide Fits, OfBlock, Shape.Inside, Met;
    BlockFits(f, body, n + 1);
    BlockMet(f, body, n + 1);
    FitsInside(OfBlock(f, body, n + 1), StmtsShape(f, body), n);
  }

  lemma {:induction false} StmtsFit(f: string, ss: seq<Stmt>, n: nat)
    ensures Fits(OfStmts(f, ss, n), StmtsShape(f, ss), n)
    decreases ss, 0
  {
    hide Fits, Shape.Beside;
    FitsLeaf(Jump, n);
    if ss != [] {
      StmtFits(f, ss[0], n);
      StmtsFit(f, ss[1..], n);
      FitsConcat(OfStmt(f, ss[0], n), OfStmts(f, ss[1..], n), StmtShape(f, ss[0]), StmtsShape(f, ss[1..]), n);
    }
  }

  /** What the visitor meets in a statement is what its shape says, at any level. */
  lemma {:induction false} StmtFits(f: string, s: Stmt, n: nat)
    ensures Fits(OfStmt(f, s, n), StmtShape(f, s), n) && (s != Nil ==> Deepest(OfStmt(f, s, n)) >= n)
    decreases s, 2
  {
    hide Fits, Deepest, StmtShape, OfInner;
    if s == Nil {
      FitsLeaf(Jump, n);
      NilIsPlain(f);
    } else {
      InnerFits(f, s, n);
      FitsNoted(OfInner(f, s, n), StmtShape(f, s), n);
    }
  }

  lemma NilIsPlain(f: string)
    ensures StmtShape(f, Nil) == PLAIN
  {
  }

  lemma {:induction false} ElseFits(f: string, els: Stmt, n: nat)
    ensures Fits(OfStmt(f, els, if els.If? || els.Nil? then n else n + 1), ElseShape(f, els), n)
    decreases els, 3
  {
    hide Fits, Deepest, StmtShape, OfStmt, InStmt, Met, Shape.Inside;
    if els.If? || els.Nil? {
      StmtFits(f, els, n);
    } else {
      StmtFits(f, els, n + 1);
      StmtMet(f, els, n + 1);
      FitsInside(OfStmt(f, els, n + 1), StmtShape(f, els), n);
    }
  }

  lemma {:induction false} InnerFits(f: string, s: Stmt, n: nat)
    requires s != Nil
    ensures Fits(OfInner(f, s, n), StmtShape(f, s), n)
    decreases s, 1
  {
    hide Fits, Shape.Beside, Shape.Inside, OfStmt, OfExpr, OfExprs, OfBlock, OfCases, OfComms;
    hide ExprShape, ExprsShape, StmtsShape, BodyShape, ElseShape, CasesShape, CommsShape, InCases, InComms;
    FitsLeaf(Jump, n);
    match s
    case If(_, _, _, _) => LoopFits(f, s, n);
    case For(_, _, _, _) => LoopFits(f, s, n);
    case Range(_, _) => LoopFits(f, s, n);
    case Switch(_, _, _) => ForkFits(f, s, n);
    case TypeSwitch(_, _, _) => ForkFits(f, s, n);
    case Select(_) => ForkFits(f, s, n);
    case Branch(_) =>
    case Block(stmts) => BlockFits(f, stmts, n);
    case Exprs(exprs) => ExprsFit(f, exprs, n);
    case Labeled(stmt) => StmtFits(f, stmt, n);
    case Empty =>
  }

  lemma {:induction false} LoopFits(f: string, s: Stmt, n: nat)
    requires s.If? || s.For? || s.Range?
    ensures Fits(OfInner(f, s, n), StmtShape(f, s), n)
    decreases s, 0
  {
    hide Fits, Shape.Beside, Shape.Inside, OfStmt, OfExpr, OfExprs, OfBlock, OfCases, OfComms;
    hide ExprShape, ExprsShape, StmtsShape, BodyShape, ElseShape, CasesShape, CommsShape, InCases, InComms;
    FitsLeaf(Decision(n), n);
    match s
    case If(init, cond, body, els) =>
      StmtFits(f, init, n);
      ExprFits(f, cond, n);
      BodyFits(f, body, n);
      ElseFits(f, els, n);
      ElseLevel(f, els, n);
      FitsAfter(Decision(n), OfStmt(f, init, n), OfExpr(f, cond, n), OfBlock(f, body, n + 1),
                OfStmt(f, els, if els.If? then n else n + 1),
                StmtShape(f, init), ExprShape(f, cond), BodyShape(f, body), ElseShape(f, els), n);
    case For(init, cond, post, body) =>
      StmtFits(f, init, n);
      ExprFits(f, cond, n);
      StmtFits(f, post, n);
      BodyFits(f, body, n);
      FitsAfter(Decision(n), OfStmt(f, init, n), OfExpr(f, cond, n), OfStmt(f, post, n), OfBlock(f, body, n + 1),
                StmtShape(f, init), ExprShape(f, cond), StmtShape(f, post), BodyShape(f, body), n);
    case Range(x, body) =>
      ExprFits(f, x, n);
      BodyFits(f, body, n);
      FitsAfter(Decision(n), OfExpr(f, x, n), OfBlock(f, body, n + 1), [], [],
                ExprShape(f, x), BodyShape(f, body), PLAIN, PLAIN, n);
  }

  /** A nil else meets nothing at either level. */
  lemma ElseLevel(f: string, els: Stmt, n: nat)
    ensures OfStmt(f, els, if els.If? || els.Nil? then n else n + 1) == OfStmt(f, els, if els.If? then n else n + 1)
  {
    NilMeetsNothing(f, n);
    NilMeetsNothing(f, n + 1);
  }

  lemma {:induction false} ForkFits(f: string, s: Stmt, n: nat)
    requires s.Switch? || s.TypeSwitch? || s.Select?
    ensures Fits(OfInner(f, s, n), StmtShape(f, s), n)
    decreases s, 0
  {
    hide Fits, Shape.Beside, Shape.Inside, OfStmt, OfExpr, OfExprs, OfBlock, OfCases, OfComms;
    hide ExprShape, ExprsShape, StmtsShape, BodyShape, ElseShape, CasesShape, CommsShape, InCases, InComms;
    FitsLeaf(Fork(n), n);
    match s
    case Switch(init, tag, cases) =>
      var clauses := [Note(n + 1)] + OfCases(f, cases, n + 1);
      StmtFits(f, init, n);
      ExprFits(f, tag, n);
      CasesFit(f, cases, n);
      FitsAfter(Fork(n), OfStmt(f, init, n), OfExpr(f, tag, n), clauses, [],
                StmtShape(f, init), ExprShape(f, tag), CasesShape(f, cases).Inside(InCases(cases).structures),
                PLAIN, n);
      assert [Fork(n)] + OfStmt(f, init, n) + OfExpr(f, tag, n) + clauses == OfInner(f, s, n);
    case TypeSwitch(init, assign, cases) =>
      var clauses := [Note(n + 1)] + OfCases(f, cases, n + 1);
      StmtFits(f, init, n);
      StmtFits(f, assign, n);
      CasesFit(f, cases, n);
      FitsAfter(Fork(n), OfStmt(f, init, n), OfStmt(f, assign, n), clauses, [],
                StmtShape(f, init), StmtShape(f, assign), CasesShape(f, cases).Inside(InCases(cases).structures),
                PLAIN, n);
      assert [Fork(n)] + OfStmt(f, init, n) + OfStmt(f, assign, n) + clauses == OfInner(f, s, n);
    case Select(comms) =>
      var clauses := [Note(n + 1)] + OfComms(f, comms, n + 1);
      CommsFit(f, comms, n);
      FitsAfter(Fork(n), clauses, [], [], [], CommsShape(f, comms).Inside(InComms(comms).structures),
                PLAIN, PLAIN, PLAIN, n);
      assert [Fork(n)] + clauses == OfInner(f, s, n);
  }

  /** Clauses stand in a body, which notes its level though it is empty. */
  lemma {:induction false} CasesFit(f: string, cs: seq<Case>, n: nat)
    ensures Fits([Note(n + 1)] + OfCases(f, cs, n + 1), CasesShape(f, cs).Inside(InCases(cs).structures), n)
    decreases cs, 1
  {
    hide Fits, OfCases, CasesShape, InCases, Shape.Inside, Met, Tally.Plus, Deepest;
    CaseListFits(f, cs, n + 1);
    FitsNoted(OfCases(f, cs, n + 1), CasesShape(f, cs), n + 1);
    FitsInside([Note(n + 1)] + OfCases(f, cs, n + 1), CasesShape(f, cs), n);
    CasesMet(f, cs, n + 1);
    MetLeaf(Note(n + 1));
    MetConcat([Note(n + 1)], OfCases(f, cs, n + 1));
    PlusNothing(InCases(cs));
  }

  lemma {:induction false} CaseListFits(f: string, cs: seq<Case>, n: nat)
    ensures Fits(OfCases(f, cs, n), CasesShape(f, cs), n)
    decreases cs, 0
  {
    hide Fits, Shape.Beside;
    FitsLeaf(Option, n);
    if cs != [] {
      var option := if |cs[0].list| > 0 then [Option] else [];
      ExprsFit(f, cs[0].list, n);
      StmtsFit(f, cs[0].body, n);
      CaseListFits(f, cs[1..], n);
      PlainBeside(ExprsShape(f, cs[0].list));
      FitsConcat(option, OfExprs(f, cs[0].list, n), PLAIN, ExprsShape(f, cs[0].list), n);
      FitsConcat(option + OfExprs(f, cs[0].list, n), OfStmts(f, cs[0].body, n),
                 ExprsShape(f, cs[0].list), StmtsShape(f, cs[0].body), n);
      FitsConcat(option + OfExprs(f, cs[0].list, n) + OfStmts(f, cs[0].body, n), OfCases(f, cs[1..], n),
                 ExprsShape(f, cs[0].list).Beside(StmtsShape(f, cs[0].body)), CasesShape(f, cs[1..]), n);
    }
  }

  lemma {:induction false} CommsFit(f: string, cs: seq<Comm>, n: nat)
    ensures Fits([Note(n + 1)] + OfComms(f, cs, n + 1), CommsShape(f, cs).Inside(InComms(cs).structures), n)
    decreases cs, 1
  {
    hide Fits, OfComms, CommsShape, InComms, Shape.Inside, Met, Tally.Plus, Deepest;
    CommListFits(f, cs, n + 1);
    FitsNoted(OfComms(f, cs, n + 1), CommsShape(f, cs), n + 1);
    FitsInside([Note(n + 1)] + OfComms(f, cs, n + 1), CommsShape(f, cs), n);
    CommsMet(f, cs, n + 1);
    MetLeaf(Note(n + 1));
    MetConcat([Note(n + 1)], OfComms(f, cs, n + 1));
    PlusNothing(InComms(cs));
  }

  lemma {:induction false} CommListFits(f: string, cs: seq<Comm>, n: nat)
    ensures Fits(OfComms(f, cs, n), CommsShape(f, cs), n)
    decreases cs, 0
  {
    hide Fits, Shape.Beside;
    FitsLeaf(Option, n);
    if cs != [] {
      var option := if cs[0].comm != Nil then [Option] else [];
      StmtFits(f, cs[0].comm, n);
      StmtsFit(f, cs[0].body, n);
      CommListFits(f, cs[1..], n);
      PlainBeside(StmtShape(f, cs[0].comm));
      FitsConcat(option, OfStmt(f, cs[0].comm, n), PLAIN, StmtShape(f, cs[0].comm), n);
      FitsConcat(option + OfStmt(f, cs[0].comm, n), OfStmts(f, cs[0].body, n),
                 StmtShape(f, cs[0].comm), StmtsShape(f, cs[0].body), n);
      FitsConcat(option + OfStmt(f, cs[0].comm, n) + OfStmts(f, cs[0].body, n), OfComms(f, cs[1..], n),
                 StmtShape(f, cs[0].comm).Beside(StmtsShape(f, cs[0].body)), CommsShape(f, cs[1..]), n);
    }
  }

  // ---------- what moving does to the score ----------

  ghost predicate HasNote(es: seq<Event>) {
    exists i :: 0 <= i < |es| && es[i].Note?
  }

  lemma WorthMoves(e: Event, kind: Kind, k: nat)
    ensures Worth(Deeper(e, k), kind) == Worth(e, kind) + if kind.Levels? then k * Worth(e, Structures) else 0
    ensures Deeper(e, k) == SelfCall <==> e == SelfCall
  {
  }

  /** Moving k levels down adds k to the level of each structure and changes no other total. */
  lemma {:induction false} TotalMoves(es: seq<Event>, kind: Kind, k: nat)
    ensures var fs := AllDeeper(es, k);
      && Total(fs, kind) == Total(es, kind) + (if kind.Levels? then k * Total(es, Structures) else 0)
      && (SelfCall in fs <==> SelfCall in es)
  {
    hide Worth, Deeper;
    if es != [] {
      var fs, front := AllDeeper(es, k), es[..|es| - 1];
      TotalMoves(front, kind, k);
      WorthMoves(es[|es| - 1], kind, k);
      assert fs[..|fs| - 1] == AllDeeper(front, k);
      assert es == front + [es[|es| - 1]] && fs == AllDeeper(front, k) + [fs[|fs| - 1]];
      Distribute(k, Total(front, Structures), Worth(es[|es| - 1], Structures));
    }
  }

  lemma Distribute(k: int, a: int, b: int)
    ensures k * (a + b) == k * a + k * b
  {
  }

  lemma {:induction false} DeepestMoves(es: seq<Event>, k: nat)
    ensures Deepest(AllDeeper(es, k)) == if HasNote(es) then Deepest(es) + k else 0
    ensures !HasNote(es) ==> Deepest(es) == 0
  {
    if es != [] {
      var fs, front := AllDeeper(es, k), es[..|es| - 1];
      DeepestMoves(front, k);
      assert fs[..|fs| - 1] == AllDeeper(front, k);
      assert HasNote(front) ==> HasNote(es) by {
        if HasNote(front) {
          var i :| 0 <= i < |front| && front[i].Note?;
          assert es[i].Note?;
        }
      }
      assert es[|es| - 1].Note? ==> HasNote(es);
    }
  }

  /** A statement moved k levels down: cognitive grows by k for each structure in it, the
      deepest level by k, and nothing else changes. */
  lemma MovingDeeper(f: string, s: Stmt, n: nat, k: nat, before: Score)
    ensures var t, u := CountAll(before, OfStmt(f, s, n)), CountAll(before, OfStmt(f, s, n + k));
      && u.cyclomatic == t.cyclomatic
      && u.cognitive == t.cognitive + k * InStmt(s).structures
      && u.recursionCounted == t.recursionCounted
      && u.maxNesting == Max(before.maxNesting, if s == Nil then 0 else Deepest(OfStmt(f, s, n)) + k)
  {
    hide Total, Deepest, CountAll, OfStmt, OfInner, AllDeeper, InStmt, HasNote, Noted;
    var es := OfStmt(f, s, n);
    StmtMet(f, s, n);
    StmtMoves(f, s, n, k);
    TotalMoves(es, Branches, k);
    TotalMoves(es, Structures, k);
    TotalMoves(es, Flat, k);
    TotalMoves(es, Levels, k);
    DeepestMoves(es, k);
    StmtHasNote(f, s, n);
    ScoreIsTotal(before, es);
    ScoreIsTotal(before, OfStmt(f, s, n + k));
  }

  lemma StmtHasNote(f: string, s: Stmt, n: nat)
    ensures HasNote(OfStmt(f, s, n)) <==> s != Nil
  {
    if s != Nil {
      assert OfStmt(f, s, n)[0] == Note(n);
    }
  }

  lemma {:induction false} LevelsAtMost(es: seq<Event>, d: nat)
    requires forall i :: 0 <= i < |es| ==> Worth(es[i], Levels) <= d
    ensures Total(es, Levels) <= d * Total(es, Structures)
  {
    hide Worth;
    if es != [] {
      var front, e := es[..|es| - 1], es[|es| - 1];
      LevelsAtMost(front, d);
      LevelAtMost(e, d);
      Distribute(d, Total(front, Structures), Worth(e, Structures));
    }
  }

  lemma LevelAtMost(e: Event, d: nat)
    requires Worth(e, Levels) <= d
    ensures Worth(e, Levels) <= d * Worth(e, Structures)
  {
  }

  /** At level zero the events say what the syntax says. */
  lemma BodyTotals(f: string, body: seq<Stmt>)
    ensures var es, shape := OfBlock(f, body, 0), StmtsShape(f, body);
      && Met(es) == InStmts(body) && Total(es, Levels) == shape.levels && Deepest(es) == shape.depth
      && (SelfCall in es <==> shape.calls) && shape.levels <= shape.depth * InStmts(body).structures
  {
    hide Total, Deepest, OfBlock, InStmts, StmtsShape;
    var es := OfBlock(f, body, 0);
    BlockMet(f, body, 0);
    BlockMoves(f, body, 0, 0);
    BlockFits(f, body, 0);
    LevelsAtMost(es, Deepest(es));
  }

  lemma AtMost(structures: nat, levels: nat, depth: nat)
    requires levels <= depth * structures
    ensures structures + levels <= structures * (1 + depth)
  {
  }

  /** The whole function: cyclomatic is one plus the ifs, loops, clauses that are no default
      and logical operators; cognitive is one for each structure and each body around it, the
      flat costs, and one if the function calls itself; and the deepest level is the depth. So
      cognitive is at most one plus the deepest level for each structure, and the rest. */
  lemma WholeFunction(f: string, body: seq<Stmt>)
    ensures var s := CountAll(Score(1, 0, 0, false), OfBlock(f, body, 0));
      var held, shape := InStmts(body), StmtsShape(f, body);
      && s.cyclomatic == 1 + held.branches
      && s.cognitive == held.structures + shape.levels + held.flat + (if shape.calls then 1 else 0)
      && s.maxNesting == shape.depth
      && held.structures + held.flat <= s.cognitive <= held.structures * (1 + s.maxNesting) + held.flat + 1
  {
    hide Total, Deepest, CountAll, OfBlock, Met, InStmts, StmtsShape;
    BodyTotals(f, body);
    ScoreIsTotal(Score(1, 0, 0, false), OfBlock(f, body, 0));
    AtMost(InStmts(body).structures, StmtsShape(f, body).levels, StmtsShape(f, body).depth);
  }

  /** analyzeFuncComplexity. */
  method AnalyzeFunc(name: string, hasBody: bool, body: seq<Stmt>)
    returns (cyclomatic: nat, cognitive: nat, maxNesting: nat)
    ensures var s := CountAll(Score(1, 0, 0, false), if hasBody then OfBlock(name, body, 0) else []);
      cyclomatic == s.cyclomatic && cognitive == s.cognitive && maxNesting == s.maxNesting
    ensures var held := if hasBody then InStmts(body) else NOTHING;
      var shape := if hasBody then StmtsShape(name, body) else PLAIN;
      && cyclomatic == 1 + held.branches
      && cognitive == held.structures + shape.levels + held.flat + (if shape.calls then 1 else 0)
      && maxNesting == shape.depth
      && held.structures + held.flat <= cognitive <= held.structures * (1 + maxNesting) + held.flat + 1
  {
    var analyzer := new Analyzer(name);
    if hasBody {
      analyzer.VisitBlock(body, 0);
      WholeFunction(name, body);
    }
    return analyzer.cyclomatic, analyzer.cognitive, analyzer.maxNesting;
  }
}
