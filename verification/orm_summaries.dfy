/** buildOrmUsageSummaries (analyzer/orphaned_models.go): which parameters of a function
    end up in an ORM operation, directly or through the functions it calls. */
module OrmSummaries {
  import opened Wrappers

  type Fn = nat

  /** A call instruction. args: for each argument the parameter of the caller it comes
      from, None when it comes from none; receiver: whether the receiver comes from a
      parameter. Calls without a static callee that are no ORM operation are left out. */
  datatype Call =
    | Orm(args: seq<Option<nat>>, receiver: bool)
    | Static(callee: Fn, args: seq<Option<nat>>, receiver: bool)

  /** funcs: the functions looked at, nil ones as None; calls: their call instructions. */
  datatype Program = Program(funcs: seq<Option<Fn>>, calls: map<Fn, seq<Call>>)

  const MAX_PASSES := 4

  function Calls(p: Program, f: Fn): seq<Call> {
    if f in p.calls then p.calls[f] else []
  }

  datatype Fact = Param(fn: Fn, index: nat) | Receiver(fn: Fn)

  // ---------- the rules ----------

  predicate Listed(p: Program, f: Fn) {
    Some(f) in p.funcs
  }

  /** The call is an ORM operation that yields x for the function it stands in. */
  predicate DirectAt(c: Call, x: Fact) {
    c.Orm? && match x
      case Param(_, i) => Some(i) in c.args
      case Receiver(_) => c.receiver
  }

  /** The call hands y, a fact about its callee, on to x. */
  predicate ForwardsAt(c: Call, y: Fact, x: Fact) {
    c.Static? && c.callee == y.fn && match (y, x)
      case (Param(_, j), Param(_, i)) => j < |c.args| && c.args[j] == Some(i)
      case (Receiver(_), Receiver(_)) => c.receiver
      case _ => false
  }

  ghost predicate Direct(p: Program, x: Fact) {
    Listed(p, x.fn) && exists c :: c in Calls(p, x.fn) && DirectAt(c, x)
  }

  ghost predicate Forwards(p: Program, y: Fact, x: Fact) {
    Listed(p, x.fn) && Listed(p, y.fn) && exists c :: c in Calls(p, x.fn) && ForwardsAt(c, y, x)
  }

  /** x has a derivation of height at most k. */
  ghost predicate Derivable(p: Program, x: Fact, k: nat)
    decreases k
  {
    k > 0 && (Direct(p, x) || exists y :: Derivable(p, y, k - 1) && Forwards(p, y, x))
  }

  /** x is in the least set closed under the two rules. */
  ghost predicate InLeastFixpoint(p: Program, x: Fact) {
    exists k: nat :: Derivable(p, x, k)
  }

  // ---------- the tables ----------

  /** params is shared with the summary being updated, receivers is written back at the
      end of a function. */
  datatype Tables = Tables(params: map<Fn, set<nat>>, receivers: map<Fn, bool>)

  predicate Holds(t: Tables, x: Fact) {
    match x
    case Param(f, i) => f in t.params && i in t.params[f]
    case Receiver(f) => f in t.receivers && t.receivers[f]
  }

  ghost predicate Complete(p: Program, t: Tables) {
    && (forall f :: f in t.params <==> Listed(p, f))
    && (forall f :: f in t.receivers <==> Listed(p, f))
  }

  ghost predicate Sound(p: Program, t: Tables) {
    forall x :: Holds(t, x) ==> InLeastFixpoint(p, x)
  }

  ghost predicate Grows(t: Tables, u: Tables) {
    forall x :: Holds(t, x) ==> Holds(u, x)
  }

  ghost predicate SameFacts(t: Tables, u: Tables) {
    forall x :: Holds(t, x) <==> Holds(u, x)
  }

  /** Every fact that the call c yields for f from t is in u, or is f's own receiver
      flag, which is kept aside in driven until the function is done. */
  ghost predicate CallApplied(p: Program, t: Tables, c: Call, f: Fn, u: Tables, driven: bool) {
    && (forall x: Fact :: x.fn == f && DirectAt(c, x) ==> Recorded(u, driven, x))
    && (forall x: Fact, y: Fact :: x.fn == f && Listed(p, y.fn) && Holds(t, y) && ForwardsAt(c, y, x) ==>
       Recorded(u, driven, x))
  }

  predicate Recorded(u: Tables, driven: bool, x: Fact) {
    if x.Param? then Holds(u, x) else driven
  }

  lemma DirectDerives(p: Program, f: Fn, c: Call, x: Fact)
    requires Listed(p, f) && c in Calls(p, f) && x.fn == f && DirectAt(c, x)
    ensures InLeastFixpoint(p, x)
  {
    assert Derivable(p, x, 1);
  }

  lemma ForwardDerives(p: Program, f: Fn, c: Call, y: Fact, x: Fact)
    requires Listed(p, f) && Listed(p, y.fn) && c in Calls(p, f) && x.fn == f && ForwardsAt(c, y, x)
    requires InLeastFixpoint(p, y)
    ensures InLeastFixpoint(p, x)
  {
    var k: nat :| Derivable(p, y, k);
    assert Forwards(p, y, x);
    assert Derivable(p, x, k + 1);
  }

  /** The parameters that the call records for its function. */
  function Found(t: Tables, c: Call): set<nat> {
    match c
    case Orm(args, _) => set i | 0 <= i < |args| && args[i].Some? :: args[i].value
    case Static(callee, args, _) =>
      if callee !in t.params then {}
      else set j | j in t.params[callee] && j < |args| && args[j].Some? :: args[j].value
  }

  predicate Drives(t: Tables, c: Call) {
    match c
    case Orm(_, receiver) => receiver
    case Static(callee, _, receiver) => callee in t.receivers && t.receivers[callee] && receiver
  }

  /** What a call records is what the two rules say, ... */
  lemma RulesAreFound(p: Program, t: Tables, f: Fn, c: Call, x: Fact)
    requires x.fn == f && Complete(p, t)
    ensures DirectAt(c, x) ==> if x.Param? then x.index in Found(t, c) else Drives(t, c)
    ensures forall y :: Holds(t, y) && ForwardsAt(c, y, x) ==> if x.Param? then x.index in Found(t, c) else Drives(t, c)
  {
    if c.Orm? && x.Param? && DirectAt(c, x) {
      var i :| 0 <= i < |c.args| && c.args[i] == Some(x.index);
    }
  }

  /** ... and is in the least fixpoint. */
  lemma FoundIsSound(p: Program, t: Tables, f: Fn, c: Call)
    requires Complete(p, t) && Sound(p, t) && Listed(p, f) && c in Calls(p, f)
    ensures forall i :: i in Found(t, c) ==> InLeastFixpoint(p, Param(f, i))
    ensures Drives(t, c) ==> InLeastFixpoint(p, Receiver(f))
  {
    hide InLeastFixpoint;
    forall i | i in Found(t, c)
      ensures InLeastFixpoint(p, Param(f, i))
    {
      if c.Orm? {
        DirectDerives(p, f, c, Param(f, i));
      } else {
        var j :| j in t.params[c.callee] && j < |c.args| && c.args[j] == Some(i);
        assert Holds(t, Param(c.callee, j));
        ForwardDerives(p, f, c, Param(c.callee, j), Param(f, i));
      }
    }
    if Drives(t, c) {
      if c.Orm? {
        DirectDerives(p, f, c, Receiver(f));
      } else {
        assert Holds(t, Receiver(c.callee));
        ForwardDerives(p, f, c, Receiver(c.callee), Receiver(f));
      }
    }
  }

  function With(t: Tables, f: Fn, found: set<nat>): Tables
    requires f in t.params
  {
    t.(params := t.params[f := t.params[f] + found])
  }

  lemma WithFacts(p: Program, t: Tables, f: Fn, found: set<nat>)
    requires Complete(p, t) && f in t.params
    ensures var u := With(t, f, found);
      && Complete(p, u) && Grows(t, u)
      && (forall x :: Holds(u, x) <==> Holds(t, x) || (x.Param? && x.fn == f && x.index in found))
      && (SameFacts(t, u) <==> found <= t.params[f])
  {
    var u := With(t, f, found);
    if !(found <= t.params[f]) {
      var i :| i in found && i !in t.params[f];
      assert Holds(u, Param(f, i)) && !Holds(t, Param(f, i));
    }
  }

  lemma CallIsApplied(p: Program, t: Tables, f: Fn, c: Call, driven: bool)
    requires Complete(p, t) && f in t.params && (Drives(t, c) ==> driven)
    ensures CallApplied(p, t, c, f, With(t, f, Found(t, c)), driven)
  {
    hide Found, Drives, DirectAt, ForwardsAt, Holds, With, Complete;
    WithFacts(p, t, f, Found(t, c));
    forall x: Fact | x.fn == f
      ensures DirectAt(c, x) ==> Recorded(With(t, f, Found(t, c)), driven, x)
      ensures forall y :: Holds(t, y) && ForwardsAt(c, y, x) ==> Recorded(With(t, f, Found(t, c)), driven, x)
    {
      RulesAreFound(p, t, f, c, x);
    }
  }

  /** The loop body for one call instruction of f. */
  method ApplyCall(p: Program, t: Tables, f: Fn, c: Call, driven0: bool)
    returns (u: Tables, driven: bool, changed: bool)
    requires Complete(p, t) && Listed(p, f) && c in Calls(p, f)
    requires Sound(p, t) && (driven0 ==> InLeastFixpoint(p, Receiver(f)))
    ensures Complete(p, u) && u.receivers == t.receivers
    ensures Sound(p, u) && (driven ==> InLeastFixpoint(p, Receiver(f)))
    ensures Grows(t, u) && (driven0 ==> driven) && CallApplied(p, t, c, f, u, driven)
    ensures changed <==> !(SameFacts(t, u) && driven == driven0)
  {
    hide InLeastFixpoint, CallApplied, SameFacts, Grows, Holds;
    u, driven, changed := t, driven0, false;
    var found: set<nat> := {};
    match c {
      case Orm(args, receiver) =>
        found := set i | 0 <= i < |args| && args[i].Some? :: args[i].value;
        if receiver && !driven {
          driven := true;
          changed := true;
        }
      case Static(callee, args, receiver) =>
        if callee in t.params {
          if t.receivers[callee] && receiver && !driven {
            driven := true;
            changed := true;
          }
          found := set j | j in t.params[callee] && j < |args| && args[j].Some? :: args[j].value;
        }
    }
    assert found == Found(t, c) && driven == (driven0 || Drives(t, c));
    FoundIsSound(p, t, f, c);
    WithFacts(p, t, f, found);
    CallIsApplied(p, t, f, c, driven);
    if !(found <= t.params[f]) {
      changed := true;
    }
    u := t.(params := t.params[f := t.params[f] + found]);
  }

  /** The two rules applied once for f, from the facts in t. */
  ghost predicate FunctionApplied(p: Program, t: Tables, f: Fn, u: Tables) {
    && (forall x: Fact, c :: x.fn == f && c in Calls(p, f) && DirectAt(c, x) ==> Holds(u, x))
    && (forall x: Fact, y: Fact, c ::
          x.fn == f && c in Calls(p, f) && Listed(p, y.fn) && Holds(t, y) && ForwardsAt(c, y, x) ==> Holds(u, x))
  }

  lemma CallStillApplied(p: Program, t: Tables, t': Tables, c: Call, f: Fn, u: Tables, u': Tables, driven: bool,
                         driven': bool)
    requires CallApplied(p, t', c, f, u, driven)
    requires Grows(t, t') && Grows(u, u') && (driven ==> driven')
    ensures CallApplied(p, t, c, f, u', driven')
  {
  }

  /** The loops over a function's blocks and instructions, and the final write back. */
  method ApplyFunction(p: Program, t: Tables, f: Fn) returns (u: Tables, changed: bool)
    requires Complete(p, t) && Listed(p, f) && Sound(p, t)
    ensures Complete(p, u) && Sound(p, u) && Grows(t, u)
    ensures FunctionApplied(p, t, f, u)
    ensures changed <==> !SameFacts(t, u)
  {
    var driven := t.receivers[f];
    u, changed := t, false;
    assert driven ==> Holds(t, Receiver(f));
    for i := 0 to |Calls(p, f)|
      invariant Complete(p, u) && u.receivers == t.receivers && Sound(p, u) && Grows(t, u)
      invariant driven ==> InLeastFixpoint(p, Receiver(f))
      invariant t.receivers[f] ==> driven
      invariant forall j :: 0 <= j < i ==> CallApplied(p, t, Calls(p, f)[j], f, u, driven)
      invariant changed <==> !(SameFacts(t, u) && driven == t.receivers[f])
    {
      hide InLeastFixpoint, Sound, CallApplied;
      var v, driven', changed' := ApplyCall(p, u, f, Calls(p, f)[i], driven);
      forall j | 0 <= j <= i
        ensures CallApplied(p, t, Calls(p, f)[j], f, v, driven')
      {
        CallStillApplied(p, t, if j < i then t else u, Calls(p, f)[j], f, if j < i then u else v, v,
                         if j < i then driven else driven', driven');
      }
      u, driven, changed := v, driven', changed || changed';
    }
    ghost var mid := u;
    u := u.(receivers := u.receivers[f := driven]);
    WrittenBack(p, t, f, mid, driven, u);
  }

  lemma WrittenBack(p: Program, t: Tables, f: Fn, mid: Tables, driven: bool, u: Tables)
    requires Complete(p, t) && Complete(p, mid) && Listed(p, f) && mid.receivers == t.receivers
    requires Sound(p, mid) && Grows(t, mid) && (driven ==> InLeastFixpoint(p, Receiver(f))) &&
      (t.receivers[f] ==> driven)
    requires forall j :: 0 <= j < |Calls(p, f)| ==> CallApplied(p, t, Calls(p, f)[j], f, mid, driven)
    requires u == mid.(receivers := mid.receivers[f := driven])
    ensures Complete(p, u) && Sound(p, u) && Grows(t, u) && FunctionApplied(p, t, f, u)
    ensures SameFacts(t, u) <==> SameFacts(t, mid) && driven == t.receivers[f]
  {
    hide InLeastFixpoint, DirectAt, ForwardsAt;
    assert forall x :: x != Receiver(f) ==> (Holds(u, x) <==> Holds(mid, x));
    assert Holds(u, Receiver(f)) <==> driven;
    assert Holds(t, Receiver(f)) <==> t.receivers[f];
    forall x: Fact, c | x.fn == f && c in Calls(p, f) && DirectAt(c, x)
      ensures Holds(u, x)
    {
      assert CallApplied(p, t, c, f, mid, driven);
      assert Recorded(mid, driven, x);
    }
    forall x: Fact, y: Fact, c | x.fn == f && c in Calls(p, f) && Listed(p, y.fn) && Holds(t, y) && ForwardsAt(c, y, x)
      ensures Holds(u, x)
    {
      assert CallApplied(p, t, c, f, mid, driven);
      assert Recorded(mid, driven, x);
    }
  }

  /** Both rules applied once for every function, from the facts in t. */
  ghost predicate PassApplied(p: Program, t: Tables, u: Tables) {
    && (forall x :: Direct(p, x) ==> Holds(u, x))
    && (forall x, y :: Holds(t, y) && Forwards(p, y, x) ==> Holds(u, x))
  }

  lemma FunctionStillApplied(p: Program, t: Tables, t': Tables, f: Fn, u: Tables, u': Tables)
    requires FunctionApplied(p, t', f, u) && Grows(t, t') && Grows(u, u')
    ensures FunctionApplied(p, t, f, u')
  {
  }

  /** One pass over all functions, in place. */
  method Pass(p: Program, t: Tables) returns (u: Tables, changed: bool)
    requires Complete(p, t) && Sound(p, t)
    ensures Complete(p, u) && Sound(p, u) && Grows(t, u) && PassApplied(p, t, u)
    ensures changed <==> !SameFacts(t, u)
  {
    u, changed := t, false;
    for i := 0 to |p.funcs|
      invariant Complete(p, u) && Sound(p, u) && Grows(t, u)
      invariant forall j :: 0 <= j < i && p.funcs[j].Some? ==> FunctionApplied(p, t, p.funcs[j].value, u)
      invariant changed <==> !SameFacts(t, u)
    {
      hide Sound, FunctionApplied, Holds;
      if p.funcs[i].None? {
        continue;
      }
      var v, changed' := ApplyFunction(p, u, p.funcs[i].value);
      forall j | 0 <= j <= i && p.funcs[j].Some?
        ensures FunctionApplied(p, t, p.funcs[j].value, v)
      {
        FunctionStillApplied(p, t, if j < i then t else u, p.funcs[j].value, if j < i then u else v, v);
      }
      u, changed := v, changed || changed';
    }
    EveryFunctionApplied(p, t, u);
  }

  lemma EveryFunctionApplied(p: Program, t: Tables, u: Tables)
    requires forall j :: 0 <= j < |p.funcs| && p.funcs[j].Some? ==> FunctionApplied(p, t, p.funcs[j].value, u)
    ensures PassApplied(p, t, u)
  {
    hide Holds, DirectAt, ForwardsAt;
    forall x | Direct(p, x)
      ensures Holds(u, x)
    {
      assert FunctionApplied(p, t, x.fn, u);
    }
    forall x, y | Holds(t, y) && Forwards(p, y, x)
      ensures Holds(u, x)
    {
      assert FunctionApplied(p, t, x.fn, u);
    }
  }

  ghost predicate HasHeight(p: Program, t: Tables, k: nat) {
    forall x :: Derivable(p, x, k) ==> Holds(t, x)
  }

  lemma PassAddsHeight(p: Program, t: Tables, u: Tables, k: nat)
    requires HasHeight(p, t, k) && PassApplied(p, t, u)
    ensures HasHeight(p, u, k + 1)
  {
    hide Direct, Forwards, Holds;
  }

  /** A pass that changes nothing has reached the least fixpoint. */
  lemma {:induction false} UnchangedIsClosed(p: Program, t: Tables, k: nat, x: Fact)
    requires PassApplied(p, t, t) && Derivable(p, x, k)
    ensures Holds(t, x)
    decreases k
  {
    hide Direct, Forwards, Holds;
    if !Direct(p, x) {
      var y :| Derivable(p, y, k - 1) && Forwards(p, y, x);
      UnchangedIsClosed(p, t, k - 1, y);
    }
  }

  lemma StableAfterNoChange(p: Program, t: Tables, u: Tables)
    requires PassApplied(p, t, u) && SameFacts(t, u)
    ensures PassApplied(p, u, u)
  {
    hide Direct, Forwards, Holds;
  }

  /** The summaries before the first pass. */
  method Empty(p: Program) returns (t: Tables)
    ensures Complete(p, t) && forall x :: !Holds(t, x)
  {
    t := Tables(map[], map[]);
    for i := 0 to |p.funcs|
      invariant forall f :: f in t.params <==> Some(f) in p.funcs[..i]
      invariant forall f :: f in t.receivers <==> Some(f) in p.funcs[..i]
      invariant (forall f :: f in t.params ==> t.params[f] == {}) && (forall f :: f in t.receivers ==> !t.receivers[f])
    {
      assert p.funcs[..i + 1] == p.funcs[..i] + [p.funcs[i]];
      if p.funcs[i].Some? {
        t := Tables(t.params[p.funcs[i].value := {}], t.receivers[p.funcs[i].value := false]);
      }
    }
    assert p.funcs[..|p.funcs|] == p.funcs;
  }

  /** buildOrmUsageSummaries. Nothing recorded is outside the least fixpoint; everything
      with a derivation of height at most the pass limit is recorded; and when the last
      pass changed nothing the tables are the least fixpoint. */
  method BuildOrmUsageSummaries(p: Program) returns (t: Tables, changed: bool)
    ensures Complete(p, t) && Sound(p, t)
    ensures forall x :: Derivable(p, x, MAX_PASSES) ==> Holds(t, x)
    ensures !changed ==> forall x :: Holds(t, x) <==> InLeastFixpoint(p, x)
  {
    t := Empty(p);
    changed := true;
    var pass := 0;
    while pass < MAX_PASSES && changed
      invariant 0 <= pass <= MAX_PASSES
      invariant Complete(p, t) && Sound(p, t) && HasHeight(p, t, pass)
      invariant !changed ==> PassApplied(p, t, t)
      decreases MAX_PASSES - pass
    {
      hide Sound, PassApplied, HasHeight, SameFacts;
      var u;
      u, changed := Pass(p, t);
      PassAddsHeight(p, t, u, pass);
      if !changed {
        StableAfterNoChange(p, t, u);
      }
      t, pass := u, pass + 1;
    }
    hide PassApplied, Derivable, Holds;
    if !changed {
      forall x, k: nat | Derivable(p, x, k)
        ensures Holds(t, x)
      {
        UnchangedIsClosed(p, t, k, x);
      }
    }
  }
}
