/** expandFunctionAccesses: a function's accesses and those of the functions it calls,
    with memory keys and locksets rewritten for the caller (analyzer/dataflow.go). */
module Dataflow {
  import opened Wrappers
  import opened MemoryKeys

  type Fn = nat

  datatype CallSite = CallSite(name: string, callee: Option<Fn>, args: seq<MemoryKey>, lockset: seq<MemoryKey>)

  /** paramEffects lists the map's entries in the order its iteration happens to take. */
  datatype Summary = Summary(
    params: Params, paramEffects: seq<(nat, seq<Access>)>, receiver: seq<Access>,
    globals: seq<Access>, locals: seq<Access>, unknown: seq<Access>, calls: seq<CallSite>, spawned: seq<Spawn>)

  /** A go statement: what it starts and with which arguments and closure bindings. */
  datatype Spawn = Spawn(callee: Option<Fn>, args: seq<MemoryKey>, bindings: Bindings, id: string)

  type Summaries = map<Fn, Summary>

  /** A function together with what stands for its parameters and free variables. */
  datatype Env = Env(fn: Fn, args: seq<MemoryKey>, bindings: Bindings)

  /** Where a summary keeps an access. */
  datatype Place = ParamEffect(index: nat) | ReceiverEffect | GlobalAccess | LocalAccess | UnknownEffect

  // ---------- the accesses of one function ----------

  function AdaptKey(place: Place, key: MemoryKey, env: Env): MemoryKey {
    match place
    case ParamEffect(i) => if i < |env.args| then SubstituteRoot(key, env.args[i]) else key
    case ReceiverEffect => if |env.args| > 0 then SubstituteRoot(key, env.args[0]) else key
    case GlobalAccess => key
    case LocalAccess =>
      if key.kind == FreeVar && key.rootID in env.bindings then SubstituteRoot(key, env.bindings[key.rootID]) else key
    case UnknownEffect =>
      if key.kind == FreeVar && key.rootID in env.bindings then SubstituteRoot(key, env.bindings[key.rootID])
      else if key.kind == Unknown && NormalizedRootID(key.rootID) in env.bindings then
        var b := env.bindings[NormalizedRootID(key.rootID)];
        key.(rootID := b.rootID, typeName := if key.typeName == "" then b.typeName else key.typeName)
      else key
  }

  /** The lockset of a global access is left alone; all others are substituted. */
  function Adapt(params: Params, place: Place, a: Access, env: Env, goroutine: string): Access {
    a.(key := AdaptKey(place, a.key, env),
       lockset := if place.GlobalAccess? then a.lockset
                  else SubstituteLockset(params, a.lockset, env.args, env.bindings),
       goroutineID := if a.goroutineID == "" then goroutine else a.goroutineID)
  }

  function AdaptAll(params: Params, place: Place, accesses: seq<Access>, env: Env,
                    goroutine: string): (out: seq<Access>)
    ensures |out| == |accesses|
  {
    seq(|accesses|, i requires 0 <= i < |accesses| => Adapt(params, place, accesses[i], env, goroutine))
  }

  function ParamPart(params: Params, groups: seq<(nat, seq<Access>)>, env: Env, goroutine: string): seq<Access> {
    if groups == [] then []
    else
      var (index, effects) := groups[|groups| - 1];
      ParamPart(params, groups[..|groups| - 1], env, goroutine) +
      if index >= |env.args| then [] else AdaptAll(params, ParamEffect(index), effects, env, goroutine)
  }

  function Own(s: Summary, env: Env, goroutine: string): seq<Access> {
    ParamPart(s.params, s.paramEffects, env, goroutine)
    + (if |env.args| == 0 then [] else AdaptAll(s.params, ReceiverEffect, s.receiver, env, goroutine))
    + AdaptAll(s.params, GlobalAccess, s.globals, env, goroutine)
    + AdaptAll(s.params, LocalAccess, s.locals, env, goroutine)
    + AdaptAll(s.params, UnknownEffect, s.unknown, env, goroutine)
  }

  // ---------- calls ----------

  /** The callee's environment; call arguments are seen through the caller's. */
  function Enter(s: Summary, call: CallSite, env: Env): Env
    requires call.callee.Some?
  {
    Env(call.callee.value, SubstituteArgs(s.params, call.args, env.args, env.bindings), map[])
  }

  /** What the caller adds to an access of the callee. */
  function Wrap(s: Summary, call: CallSite, env: Env, a: Access): Access {
    a.(viaCall := call.name,
       lockset := MergeLocksets(a.lockset, SubstituteLockset(s.params, call.lockset, env.args, env.bindings)))
  }

  function WrapAll(s: Summary, call: CallSite, env: Env, accesses: seq<Access>): (out: seq<Access>)
    ensures |out| == |accesses|
  {
    seq(|accesses|, i requires 0 <= i < |accesses| => Wrap(s, call, env, accesses[i]))
  }

  function Expanded(sums: Summaries, env: Env, depth: int, goroutine: string): seq<Access>
    decreases if depth < 0 then 0 else depth + 1, 0
  {
    if depth < 0 || env.fn !in sums then []
    else Own(sums[env.fn], env, goroutine) + CallsPart(sums, env, |sums[env.fn].calls|, depth, goroutine)
  }

  function CallsPart(sums: Summaries, env: Env, n: nat, depth: nat, goroutine: string): seq<Access>
    requires env.fn in sums && n <= |sums[env.fn].calls|
    decreases depth, n + 1
  {
    if n == 0 then []
    else
      var s := sums[env.fn];
      var call := s.calls[n - 1];
      CallsPart(sums, env, n - 1, depth, goroutine) +
      if call.callee.None? then [] else WrapAll(s, call, env, Expanded(sums, Enter(s, call, env), depth - 1, goroutine))
  }

  // ---------- call chains ----------

  // A call chain names the call sites taken, by position, from the outermost in.
  type Chain = seq<nat>

  predicate CanCall(sums: Summaries, env: Env, c: nat) {
    env.fn in sums && c < |sums[env.fn].calls| && sums[env.fn].calls[c].callee.Some?
  }

  function Callee(sums: Summaries, env: Env, c: nat): Env
    requires CanCall(sums, env, c)
  {
    Enter(sums[env.fn], sums[env.fn].calls[c], env)
  }

  /** The environment at the end of a chain, if the chain exists. */
  function EnvAt(sums: Summaries, env: Env, chain: Chain): (e: Option<Env>)
    ensures e.Some? ==> e.value.fn in sums
    decreases |chain|
  {
    if env.fn !in sums then None
    else if chain == [] then Some(env)
    else if CanCall(sums, env, chain[0]) then EnvAt(sums, Callee(sums, env, chain[0]), chain[1..])
    else None
  }

  /** An access of the function at the end of the chain, as the start of it sees it. */
  function Wrapped(sums: Summaries, env: Env, chain: Chain, a: Access): Access
    requires EnvAt(sums, env, chain).Some?
    decreases |chain|
  {
    if chain == [] then a
    else Wrap(sums[env.fn], sums[env.fn].calls[chain[0]], env,
              Wrapped(sums, Callee(sums, env, chain[0]), chain[1..], a))
  }

  /** a comes from the access b of the function at the end of the chain. */
  ghost predicate ByChain(sums: Summaries, env: Env, goroutine: string, a: Access, chain: Chain, b: Access) {
    && EnvAt(sums, env, chain).Some?
    && var e := EnvAt(sums, env, chain).value;
      b in Own(sums[e.fn], e, goroutine) && a == Wrapped(sums, env, chain, b)
  }

  ghost predicate FromChain(sums: Summaries, env: Env, depth: int, goroutine: string, a: Access) {
    exists chain, b :: |chain| <= depth && ByChain(sums, env, goroutine, a, chain, b)
  }

  ghost predicate FromCall(sums: Summaries, env: Env, c: nat, depth: int, goroutine: string, a: Access) {
    && CanCall(sums, env, c)
    && exists n ::
      n in Expanded(sums, Callee(sums, env, c), depth - 1, goroutine) &&
      a == Wrap(sums[env.fn], sums[env.fn].calls[c], env, n)
  }

  ghost predicate FromCallUpTo(sums: Summaries, env: Env, n: nat, depth: int, goroutine: string, a: Access) {
    exists c: nat :: c < n && FromCall(sums, env, c, depth, goroutine, a)
  }

  lemma {:induction false} CallsPartAre(sums: Summaries, env: Env, n: nat, depth: nat, goroutine: string, a: Access)
    requires env.fn in sums && n <= |sums[env.fn].calls|
    ensures a in CallsPart(sums, env, n, depth, goroutine) <==> FromCallUpTo(sums, env, n, depth, goroutine, a)
  {
    hide FromCall, Expanded, WrapAll;
    if n > 0 {
      CallsPartAre(sums, env, n - 1, depth, goroutine, a);
      LastCallIs(sums, env, n - 1, depth, goroutine, a);
      if FromCall(sums, env, n - 1, depth, goroutine, a) {
        assert FromCallUpTo(sums, env, n, depth, goroutine, a);
      }
      if FromCallUpTo(sums, env, n, depth, goroutine, a) {
        var c: nat :| c < n && FromCall(sums, env, c, depth, goroutine, a);
        if c < n - 1 {
          assert FromCallUpTo(sums, env, n - 1, depth, goroutine, a);
        }
      }
    }
  }

  lemma LastCallIs(sums: Summaries, env: Env, c: nat, depth: nat, goroutine: string, a: Access)
    requires env.fn in sums && c < |sums[env.fn].calls|
    ensures a in CallsPart(sums, env, c + 1, depth, goroutine) <==>
      a in CallsPart(sums, env, c, depth, goroutine) || FromCall(sums, env, c, depth, goroutine, a)
  {
    var s := sums[env.fn];
    var call := s.calls[c];
    if call.callee.Some? {
      var nested := Expanded(sums, Enter(s, call, env), depth - 1, goroutine);
      var wrapped := WrapAll(s, call, env, nested);
      if FromCall(sums, env, c, depth, goroutine, a) {
        var n :| n in nested && a == Wrap(s, call, env, n);
        var i :| 0 <= i < |nested| && nested[i] == n;
        assert wrapped[i] == a;
      }
      if a in wrapped {
        var i :| 0 <= i < |wrapped| && wrapped[i] == a;
        assert nested[i] in nested;
      }
    }
  }

  /** A chain is a first call and the rest of the chain. */
  lemma ByChainStep(sums: Summaries, env: Env, goroutine: string, a: Access, c: nat, rest: Chain, n: Access, b: Access)
    requires CanCall(sums, env, c) && ByChain(sums, Callee(sums, env, c), goroutine, n, rest, b)
    requires a == Wrap(sums[env.fn], sums[env.fn].calls[c], env, n)
    ensures ByChain(sums, env, goroutine, a, [c] + rest, b)
  {
    hide Own, Wrap, Callee;
    assert ([c] + rest)[1..] == rest;
  }

  lemma ByChainFirst(sums: Summaries, env: Env, goroutine: string, a: Access, chain: Chain, b: Access)
    returns (n: Access)
    requires ByChain(sums, env, goroutine, a, chain, b) && chain != []
    ensures CanCall(sums, env, chain[0])
    ensures ByChain(sums, Callee(sums, env, chain[0]), goroutine, n, chain[1..], b)
    ensures a == Wrap(sums[env.fn], sums[env.fn].calls[chain[0]], env, n)
  {
    hide Own, Wrap, Callee;
    n := Wrapped(sums, Callee(sums, env, chain[0]), chain[1..], b);
  }

  /** The expansion to depth d holds exactly the accesses of the functions at the ends
      of the call chains of at most d calls, each seen through its chain. */
  lemma {:induction false} ExpandedAreChains(sums: Summaries, env: Env, depth: int, goroutine: string, a: Access)
    ensures a in Expanded(sums, env, depth, goroutine) <==> FromChain(sums, env, depth, goroutine, a)
    decreases if depth < 0 then 0 else depth + 1
  {
    hide Own, Wrap, Callee, CallsPart, ByChain;
    if depth >= 0 && env.fn in sums {
      CallsPartAre(sums, env, |sums[env.fn].calls|, depth, goroutine, a);
      NoCalls(sums, env, goroutine, a);
      if FromCallUpTo(sums, env, |sums[env.fn].calls|, depth, goroutine, a) {
        var c: nat :| c < |sums[env.fn].calls| && FromCall(sums, env, c, depth, goroutine, a);
        var n :| n in Expanded(sums, Callee(sums, env, c), depth - 1, goroutine) &&
          a == Wrap(sums[env.fn], sums[env.fn].calls[c], env, n);
        ExpandedAreChains(sums, Callee(sums, env, c), depth - 1, goroutine, n);
        var rest, b :| |rest| <= depth - 1 && ByChain(sums, Callee(sums, env, c), goroutine, n, rest, b);
        ByChainStep(sums, env, goroutine, a, c, rest, n, b);
      }
      if FromChain(sums, env, depth, goroutine, a) {
        var chain, b :| |chain| <= depth && ByChain(sums, env, goroutine, a, chain, b);
        if chain == [] {
          NoCallsBack(sums, env, goroutine, a, b);
        } else {
          var n := ByChainFirst(sums, env, goroutine, a, chain, b);
          ExpandedAreChains(sums, Callee(sums, env, chain[0]), depth - 1, goroutine, n);
          assert FromCall(sums, env, chain[0], depth, goroutine, a);
        }
      }
    } else if FromChain(sums, env, depth, goroutine, a) {
      var chain, b :| |chain| <= depth && ByChain(sums, env, goroutine, a, chain, b);
      ChainNeedsSummary(sums, env, goroutine, a, chain, b);
    }
  }

  lemma NoCalls(sums: Summaries, env: Env, goroutine: string, a: Access)
    requires env.fn in sums
    ensures a in Own(sums[env.fn], env, goroutine) ==> ByChain(sums, env, goroutine, a, [], a)
  {
    hide Own;
  }

  lemma NoCallsBack(sums: Summaries, env: Env, goroutine: string, a: Access, b: Access)
    requires env.fn in sums && ByChain(sums, env, goroutine, a, [], b)
    ensures a in Own(sums[env.fn], env, goroutine)
  {
    hide Own;
  }

  lemma ChainNeedsSummary(sums: Summaries, env: Env, goroutine: string, a: Access, chain: Chain, b: Access)
    requires ByChain(sums, env, goroutine, a, chain, b)
    ensures env.fn in sums
  {
  }

  // ---------- what a chain does to locksets and keys ----------

  /** l is a lock of the i-th call on the chain, substituted for that call's caller. */
  ghost predicate LockOfCall(sums: Summaries, env: Env, chain: Chain, i: nat, l: MemoryKey)
    requires i < |chain|
  {
    && EnvAt(sums, env, chain[..i]).Some?
    && var e := EnvAt(sums, env, chain[..i]).value;
      && chain[i] < |sums[e.fn].calls|
      && l in SubstituteLockset(sums[e.fn].params, sums[e.fn].calls[chain[i]].lockset, e.args, e.bindings)
  }

  ghost predicate LockOfChain(sums: Summaries, env: Env, chain: Chain, l: MemoryKey) {
    exists i: nat :: i < |chain| && LockOfCall(sums, env, chain, i, l)
  }

  lemma LockOfChainStep(sums: Summaries, env: Env, chain: Chain, l: MemoryKey)
    requires chain != [] && EnvAt(sums, env, chain).Some?
    ensures LockOfChain(sums, env, chain, l) <==>
      || l in SubstituteLockset(sums[env.fn].params, sums[env.fn].calls[chain[0]].lockset, env.args, env.bindings)
      || LockOfChain(sums, Callee(sums, env, chain[0]), chain[1..], l)
  {
    hide SubstituteLockset, Enter;
    var inner, rest := Callee(sums, env, chain[0]), chain[1..];
    assert chain[..0] == [];
    assert LockOfCall(sums, env, chain, 0, l) <==>
      l in SubstituteLockset(sums[env.fn].params, sums[env.fn].calls[chain[0]].lockset, env.args, env.bindings);
    forall i: nat | i < |rest|
      ensures LockOfCall(sums, inner, rest, i, l) <==> LockOfCall(sums, env, chain, i + 1, l)
    {
      assert chain[..i + 1][1..] == rest[..i];
    }
    if LockOfChain(sums, env, chain, l) {
      var i: nat :| i < |chain| && LockOfCall(sums, env, chain, i, l);
      if i > 0 {
        assert LockOfCall(sums, inner, rest, i - 1, l);
      }
    }
  }

  /** An access seen through a chain carries its own locks and, for every call on the
      chain, the locks its caller holds there, seen from the start of the chain. */
  lemma {:induction false} ChainLocksAreKept(sums: Summaries, env: Env, chain: Chain, b: Access, l: MemoryKey)
    requires EnvAt(sums, env, chain).Some?
    ensures l in Wrapped(sums, env, chain, b).lockset <==> l in b.lockset || LockOfChain(sums, env, chain, l)
    decreases |chain|
  {
    hide LockOfChain, SubstituteLockset, Enter, MergeLocksets;
    if chain == [] {
      NoCallNoLock(sums, env, l);
    } else {
      var inner, rest := Callee(sums, env, chain[0]), chain[1..];
      ChainLocksAreKept(sums, inner, rest, b, l);
      LockOfChainStep(sums, env, chain, l);
      MergeLocksetsIsUnion(Wrapped(sums, inner, rest, b).lockset,
                           SubstituteLockset(sums[env.fn].params, sums[env.fn].calls[chain[0]].lockset, env.args,
                                             env.bindings));
    }
  }

  lemma NoCallNoLock(sums: Summaries, env: Env, l: MemoryKey)
    ensures !LockOfChain(sums, env, [], l)
  {
  }

  /** The chain changes nothing else but the call an access is reported under. */
  lemma {:induction false} ChainKeepsTheRest(sums: Summaries, env: Env, chain: Chain, b: Access)
    requires EnvAt(sums, env, chain).Some?
    ensures Wrapped(sums, env, chain, b) ==
      b.(lockset := Wrapped(sums, env, chain, b).lockset, viaCall := Wrapped(sums, env, chain, b).viaCall)
    ensures Wrapped(sums, env, chain, b).viaCall == if chain == [] then b.viaCall else sums[env.fn].calls[chain[0]].name
    decreases |chain|
  {
    if chain != [] {
      ChainKeepsTheRest(sums, Callee(sums, env, chain[0]), chain[1..], b);
    }
  }

  lemma {:induction false} EnvAtLast(sums: Summaries, env: Env, chain: Chain)
    requires chain != []
    ensures var init, c := chain[..|chain| - 1], chain[|chain| - 1];
      var e := EnvAt(sums, env, init);
      EnvAt(sums, env, chain) ==
        if e.Some? && CanCall(sums, e.value, c) && Callee(sums, e.value, c).fn in sums
        then Some(Callee(sums, e.value, c)) else None
    decreases |chain|
  {
    hide Enter;
    if |chain| > 1 && env.fn in sums && CanCall(sums, env, chain[0]) {
      EnvAtLast(sums, Callee(sums, env, chain[0]), chain[1..]);
      assert chain[..|chain| - 1][1..] == chain[1..][..|chain| - 2];
    }
  }

  /** Walk a key of the last function out to the start of the chain, through one call
      site's argument list at a time. */
  function Outward(sums: Summaries, env: Env, chain: Chain, key: MemoryKey): MemoryKey
    requires EnvAt(sums, env, chain).Some?
    decreases |chain|
  {
    if chain == [] then SubstituteArg(sums[env.fn].params, key, env.args, env.bindings)
    else
      EnvAtLast(sums, env, chain);
      var init, c := chain[..|chain| - 1], chain[|chain| - 1];
      var caller := EnvAt(sums, env, init).value;
      var r := Replacement(sums[Callee(sums, caller, c).fn].params, key.kind, key.rootID,
                           sums[caller.fn].calls[c].args, map[]);
      if r.Some? then Outward(sums, env, init, SubstituteRoot(key, r.value)) else key
  }

  /** Substitution looks at a key's root only, so it commutes with putting a key under it. */
  lemma SubstituteArgCommutes(params: Params, key: MemoryKey, root: MemoryKey, args: seq<MemoryKey>, bindings: Bindings)
    ensures SubstituteArg(params, SubstituteRoot(key, root), args, bindings)
      == SubstituteRoot(key, SubstituteArg(params, root, args, bindings))
  {
    var r := Replacement(params, root.kind, root.rootID, args, bindings);
    if r.Some? {
      SubstituteRootAssociative(key, root, r.value);
    }
  }

  /** The arguments composed on the way in give each key the meaning it has when it is
      walked out call by call. */
  lemma {:induction false} KeysComposeAlongChains(sums: Summaries, env: Env, chain: Chain, key: MemoryKey)
    requires EnvAt(sums, env, chain).Some?
    ensures var e := EnvAt(sums, env, chain).value;
      SubstituteArg(sums[e.fn].params, key, e.args, e.bindings) == Outward(sums, env, chain, key)
    decreases |chain|
  {
    if chain != [] {
      hide SubstituteArg, SubstituteRoot;
      EnvAtLast(sums, env, chain);
      var init, c := chain[..|chain| - 1], chain[|chain| - 1];
      var caller := EnvAt(sums, env, init).value;
      var s := sums[caller.fn];
      var e := Callee(sums, caller, c);
      var r := Replacement(sums[e.fn].params, key.kind, key.rootID, s.calls[c].args, map[]);
      SubstituteThroughCall(sums[e.fn].params, s.params, key, s.calls[c].args, caller);
      if r.Some? {
        SubstituteArgCommutes(s.params, key, r.value, caller.args, caller.bindings);
        KeysComposeAlongChains(sums, env, init, SubstituteRoot(key, r.value));
      }
    }
  }

  lemma SubstituteThroughCall(callee: Params, caller: Params, key: MemoryKey, args: seq<MemoryKey>, env: Env)
    ensures var r := Replacement(callee, key.kind, key.rootID, args, map[]);
      SubstituteArg(callee, key, SubstituteArgs(caller, args, env.args, env.bindings), map[])
      == if r.Some? then SubstituteRoot(key, SubstituteArg(caller, r.value, env.args, env.bindings)) else key
  {
  }

  /** An access filed under the parameter its key names is rewritten by that substitution. */
  lemma FiledAccessKey(params: Params, index: nat, key: MemoryKey, env: Env)
    requires key.kind == Param || key.kind == Receiver
    requires ParamIndex(params, key.rootID) == Some(index) && index < |env.args|
    ensures AdaptKey(ParamEffect(index), key, env) == SubstituteArg(params, key, env.args, env.bindings)
    ensures index == 0 ==> AdaptKey(ReceiverEffect, key, env) == SubstituteArg(params, key, env.args, env.bindings)
  {
  }

  // ---------- what an expanded access is ----------

  /** The summary keeps r at this place. */
  ghost predicate FiledAt(s: Summary, place: Place, r: Access) {
    match place
    case ParamEffect(index) => exists g :: g in s.paramEffects && g.0 == index && r in g.1
    case ReceiverEffect => r in s.receiver
    case GlobalAccess => r in s.globals
    case LocalAccess => r in s.locals
    case UnknownEffect => r in s.unknown
  }

  /** The argument the place asks for is there. */
  predicate Applies(place: Place, env: Env) {
    match place
    case ParamEffect(index) => index < |env.args|
    case ReceiverEffect => |env.args| > 0
    case _ => true
  }

  ghost predicate AdaptedFrom(params: Params, place: Place, accesses: seq<Access>, env: Env, goroutine: string,
                              b: Access) {
    exists r :: r in accesses && b == Adapt(params, place, r, env, goroutine)
  }

  lemma AdaptAllAre(params: Params, place: Place, accesses: seq<Access>, env: Env, goroutine: string, b: Access)
    ensures b in AdaptAll(params, place, accesses, env, goroutine) <==>
      AdaptedFrom(params, place, accesses, env, goroutine, b)
  {
    hide Adapt;
    var out := AdaptAll(params, place, accesses, env, goroutine);
    if AdaptedFrom(params, place, accesses, env, goroutine, b) {
      var r :| r in accesses && b == Adapt(params, place, r, env, goroutine);
      var i :| 0 <= i < |accesses| && accesses[i] == r;
      assert out[i] == b;
    }
  }

  ghost predicate GroupGives(params: Params, group: (nat, seq<Access>), env: Env, goroutine: string, b: Access) {
    group.0 < |env.args| && AdaptedFrom(params, ParamEffect(group.0), group.1, env, goroutine, b)
  }

  lemma {:induction false} ParamPartAre(params: Params, groups: seq<(nat, seq<Access>)>, env: Env, goroutine: string,
                                        b: Access)
    ensures b in ParamPart(params, groups, env, goroutine) <==>
      exists g :: g in groups && GroupGives(params, g, env, goroutine, b)
  {
    hide AdaptAll, AdaptedFrom;
    if groups != [] {
      var init, last := groups[..|groups| - 1], groups[|groups| - 1];
      ParamPartAre(params, init, env, goroutine, b);
      AdaptAllAre(params, ParamEffect(last.0), last.1, env, goroutine, b);
      assert b in ParamPart(params, groups, env, goroutine) <==>
             b in ParamPart(params, init, env, goroutine) || GroupGives(params, last, env, goroutine, b);
      if g :| g in groups && GroupGives(params, g, env, goroutine, b) {
        assert g in init || g == last;
      }
      assert last in groups && forall g :: g in init ==> g in groups;
    }
  }

  ghost predicate OwnFrom(s: Summary, env: Env, goroutine: string, b: Access, place: Place, r: Access) {
    FiledAt(s, place, r) && Applies(place, env) && b == Adapt(s.params, place, r, env, goroutine)
  }

  /** The own accesses of a function are those its summary keeps, adapted, where the
      argument they ask for is there. */
  lemma OwnAre(s: Summary, env: Env, goroutine: string, b: Access)
    ensures b in Own(s, env, goroutine) <==> exists place, r :: OwnFrom(s, env, goroutine, b, place, r)
  {
    hide Adapt, AdaptAll, ParamPart;
    ParamPartAre(s.params, s.paramEffects, env, goroutine, b);
    AdaptAllAre(s.params, ReceiverEffect, s.receiver, env, goroutine, b);
    AdaptAllAre(s.params, GlobalAccess, s.globals, env, goroutine, b);
    AdaptAllAre(s.params, LocalAccess, s.locals, env, goroutine, b);
    AdaptAllAre(s.params, UnknownEffect, s.unknown, env, goroutine, b);
    if b in Own(s, env, goroutine) {
      OwnHasPlace(s, env, goroutine, b);
    }
    if place, r :| OwnFrom(s, env, goroutine, b, place, r) {
      if place.ParamEffect? {
        var g :| g in s.paramEffects && g.0 == place.index && r in g.1;
        assert GroupGives(s.params, g, env, goroutine, b);
      }
    }
  }

  lemma OwnHasPlace(s: Summary, env: Env, goroutine: string, b: Access)
    requires b in Own(s, env, goroutine)
    ensures exists place, r :: OwnFrom(s, env, goroutine, b, place, r)
  {
    hide Adapt, AdaptAll, ParamPart;
    ParamPartAre(s.params, s.paramEffects, env, goroutine, b);
    AdaptAllAre(s.params, ReceiverEffect, s.receiver, env, goroutine, b);
    AdaptAllAre(s.params, GlobalAccess, s.globals, env, goroutine, b);
    AdaptAllAre(s.params, LocalAccess, s.locals, env, goroutine, b);
    AdaptAllAre(s.params, UnknownEffect, s.unknown, env, goroutine, b);
    if b in ParamPart(s.params, s.paramEffects, env, goroutine) {
      var g :| g in s.paramEffects && GroupGives(s.params, g, env, goroutine, b);
      var r :| r in g.1 && b == Adapt(s.params, ParamEffect(g.0), r, env, goroutine);
      assert OwnFrom(s, env, goroutine, b, ParamEffect(g.0), r);
    } else if |env.args| > 0 && AdaptedFrom(s.params, ReceiverEffect, s.receiver, env, goroutine, b) {
      var r :| r in s.receiver && b == Adapt(s.params, ReceiverEffect, r, env, goroutine);
      assert OwnFrom(s, env, goroutine, b, ReceiverEffect, r);
    } else if AdaptedFrom(s.params, GlobalAccess, s.globals, env, goroutine, b) {
      var r :| r in s.globals && b == Adapt(s.params, GlobalAccess, r, env, goroutine);
      assert OwnFrom(s, env, goroutine, b, GlobalAccess, r);
    } else if AdaptedFrom(s.params, LocalAccess, s.locals, env, goroutine, b) {
      var r :| r in s.locals && b == Adapt(s.params, LocalAccess, r, env, goroutine);
      assert OwnFrom(s, env, goroutine, b, LocalAccess, r);
    } else {
      var r :| r in s.unknown && b == Adapt(s.params, UnknownEffect, r, env, goroutine);
      assert OwnFrom(s, env, goroutine, b, UnknownEffect, r);
    }
  }

  /** a is the access r that the function at the end of the chain keeps at this place, seen
      through the chain. */
  ghost predicate SeenAs(sums: Summaries, env: Env, goroutine: string, a: Access, chain: Chain, place: Place,
                         r: Access) {
    && EnvAt(sums, env, chain).Some?
    && var e := EnvAt(sums, env, chain).value;
      && FiledAt(sums[e.fn], place, r) && Applies(place, e)
      && a == Wrapped(sums, env, chain, Adapt(sums[e.fn].params, place, r, e, goroutine))
  }

  /** The expansion holds exactly the summary accesses at the ends of the call chains of at
      most d calls whose arguments are there, adapted and seen through their chains. */
  lemma ExpandedIff(sums: Summaries, env: Env, depth: int, goroutine: string, a: Access)
    ensures a in Expanded(sums, env, depth, goroutine) <==>
      exists chain, place, r :: |chain| <= depth && SeenAs(sums, env, goroutine, a, chain, place, r)
  {
    hide Expanded, Own, EnvAt, Wrapped, Adapt, FiledAt, Applies;
    ExpandedAreChains(sums, env, depth, goroutine, a);
    if FromChain(sums, env, depth, goroutine, a) {
      var chain, b :| |chain| <= depth && ByChain(sums, env, goroutine, a, chain, b);
      var e := EnvAt(sums, env, chain).value;
      OwnAre(sums[e.fn], e, goroutine, b);
      var place, r :| OwnFrom(sums[e.fn], e, goroutine, b, place, r);
      assert SeenAs(sums, env, goroutine, a, chain, place, r);
    }
    if chain, place, r :| |chain| <= depth && SeenAs(sums, env, goroutine, a, chain, place, r) {
      var e := EnvAt(sums, env, chain).value;
      var b := Adapt(sums[e.fn].params, place, r, e, goroutine);
      assert OwnFrom(sums[e.fn], e, goroutine, b, place, r);
      OwnAre(sums[e.fn], e, goroutine, b);
      assert ByChain(sums, env, goroutine, a, chain, b);
    }
  }

  /** Where addAccess files a key: under the parameter it names, or by its kind. The keys of
      receivers name the first parameter. */
  predicate WellFiled(params: Params, place: Place, key: MemoryKey) {
    match place
    case ParamEffect(index) => key.kind == Param && ParamIndex(params, key.rootID) == Some(index)
    case ReceiverEffect => key.kind == Receiver && ParamIndex(params, key.rootID) == Some(0)
    case GlobalAccess => key.kind == Global
    case LocalAccess => key.kind == Alloc || key.kind == FreeVar ||
      (key.kind == Param && ParamIndex(params, key.rootID) == None)
    case UnknownEffect => key.kind == Unknown
  }

  ghost predicate WellFiledAll(sums: Summaries) {
    forall f, place, r :: f in sums && FiledAt(sums[f], place, r) ==> WellFiled(sums[f].params, place, r.key)
  }

  lemma AdaptedKey(params: Params, place: Place, key: MemoryKey, env: Env)
    requires WellFiled(params, place, key) && Applies(place, env)
    requires key.kind == Unknown ==> NormalizedRootID(key.rootID) !in env.bindings
    ensures AdaptKey(place, key, env) == SubstituteArg(params, key, env.args, env.bindings)
  {
    hide SubstituteRoot, NormalizedRootID;
    if place.ParamEffect? {
      FiledAccessKey(params, place.index, key, env);
    } else if place.ReceiverEffect? {
      FiledAccessKey(params, 0, key, env);
    }
  }

  lemma {:induction false} BindingsEnd(sums: Summaries, env: Env, chain: Chain)
    requires chain != [] && EnvAt(sums, env, chain).Some?
    ensures EnvAt(sums, env, chain).value.bindings == map[]
    decreases |chain|
  {
    hide SubstituteArgs;
    if |chain| > 1 {
      BindingsEnd(sums, Callee(sums, env, chain[0]), chain[1..]);
    }
  }

  /** The key of an expanded access is the key its summary has, walked out call by call
      through the argument lists; only a key of unknown root in the expanded function itself
      may be named by a closure binding instead. Its locks are its own and those of the calls. */
  lemma ExpandedKey(sums: Summaries, env: Env, goroutine: string, a: Access, chain: Chain, place: Place, r: Access)
    requires WellFiledAll(sums) && SeenAs(sums, env, goroutine, a, chain, place, r)
    ensures (chain == [] && r.key.kind == Unknown && NormalizedRootID(r.key.rootID) in env.bindings) ||
            a.key == Outward(sums, env, chain, r.key)
    ensures (chain == [] && r.key.kind == Unknown && NormalizedRootID(r.key.rootID) in env.bindings) ==>
      var b := env.bindings[NormalizedRootID(r.key.rootID)];
      && a.key.kind == Unknown && a.key.rootID == b.rootID && a.key.fieldPath == r.key.fieldPath
      && (r.key.typeName != "" ==> a.key.typeName == r.key.typeName)
      && (r.key.typeName == "" ==> a.key.typeName == b.typeName)
    ensures var e := EnvAt(sums, env, chain).value;
      forall l :: l in a.lockset <==>
        l in Adapt(sums[e.fn].params, place, r, e, goroutine).lockset || LockOfChain(sums, env, chain, l)
  {
    hide EnvAt, Wrapped, Outward, LockOfChain, AdaptKey, SubstituteArg, NormalizedRootID, WellFiled, FiledAt;
    var e := EnvAt(sums, env, chain).value;
    var b := Adapt(sums[e.fn].params, place, r, e, goroutine);
    assert WellFiled(sums[e.fn].params, place, r.key);
    ChainKeepsTheRest(sums, env, chain, b);
    KeysComposeAlongChains(sums, env, chain, r.key);
    forall l
      ensures l in a.lockset <==> l in b.lockset || LockOfChain(sums, env, chain, l)
    {
      ChainLocksAreKept(sums, env, chain, b, l);
    }
    if chain == [] {
      NoChain(sums, env);
    } else {
      BindingsEnd(sums, env, chain);
    }
    if !(r.key.kind == Unknown && NormalizedRootID(r.key.rootID) in e.bindings) {
      AdaptedKey(sums[e.fn].params, place, r.key, e);
    } else {
      UnknownKeyNamed(sums[e.fn].params, place, r.key, e);
    }
  }

  /** A key of unknown root takes the name of the binding, and its type if it has none. */
  lemma UnknownKeyNamed(params: Params, place: Place, key: MemoryKey, env: Env)
    requires WellFiled(params, place, key)
    requires key.kind == Unknown && NormalizedRootID(key.rootID) in env.bindings
    ensures var b, out := env.bindings[NormalizedRootID(key.rootID)], AdaptKey(place, key, env);
      && out.kind == Unknown && out.rootID == b.rootID && out.fieldPath == key.fieldPath
      && (key.typeName != "" ==> out.typeName == key.typeName)
      && (key.typeName == "" ==> out.typeName == b.typeName)
  {
    hide NormalizedRootID;
  }

  /** Apart from its key, locks, call and goroutine an expanded access is what its summary has;
      the goroutine is the summary's too, and where it names none the one asked for. */
  lemma ExpandedRest(sums: Summaries, env: Env, goroutine: string, a: Access, chain: Chain, place: Place, r: Access)
    requires SeenAs(sums, env, goroutine, a, chain, place, r)
    ensures a == r.(key := a.key, lockset := a.lockset, viaCall := a.viaCall, goroutineID := a.goroutineID)
    ensures r.goroutineID != "" ==> a.goroutineID == r.goroutineID
    ensures r.goroutineID == "" ==> a.goroutineID == goroutine
    ensures chain == [] ==> a.viaCall == r.viaCall
    ensures chain != [] ==> CanCall(sums, env, chain[0])
    ensures chain != [] ==> a.viaCall == sums[env.fn].calls[chain[0]].name
  {
    hide AdaptKey, SubstituteLockset, Wrapped, FiledAt, Applies;
    var e := EnvAt(sums, env, chain).value;
    ChainKeepsTheRest(sums, env, chain, Adapt(sums[e.fn].params, place, r, e, goroutine));
  }

  lemma NoChain(sums: Summaries, env: Env)
    ensures EnvAt(sums, env, []).Some? ==> EnvAt(sums, env, []).value == env
  {
  }

  // ---------- what an expanded access denotes ----------

  /** frames are the roots inside each function on the chain: the start is called with the
      environment's arguments, each further function with those of its call site. */
  ghost predicate Frames<Loc>(field: (Loc, string) -> Loc, ground: Roots<Loc>, sums: Summaries, env: Env, chain: Chain,
                              frames: seq<Roots<Loc>>)
    requires EnvAt(sums, env, chain).Some?
    decreases |chain|
  {
    && |frames| == |chain| + 1
    && var inner := frames[|chain|];
      if chain == [] then Inside(field, ground, ground, inner, sums[env.fn].params, env.args, env.bindings)
      else
        EnvAtLast(sums, env, chain);
        var init, c := chain[..|chain| - 1], chain[|chain| - 1];
        var caller := EnvAt(sums, env, init).value;
        && Frames(field, ground, sums, env, init, frames[..|chain|])
        && Inside(field, ground, frames[|init|], inner, sums[Callee(sums, caller, c).fn].params,
                  sums[caller.fn].calls[c].args, map[])
  }

  /** Every chain has such roots. */
  lemma {:induction false} FramesExist<Loc>(field: (Loc, string) -> Loc, ground: Roots<Loc>, sums: Summaries, env: Env,
                                            chain: Chain) returns (frames: seq<Roots<Loc>>)
    requires EnvAt(sums, env, chain).Some?
    ensures Frames(field, ground, sums, env, chain, frames)
    decreases |chain|
  {
    hide Inside;
    if chain == [] {
      frames := [RootsIn(field, ground, ground, sums[env.fn].params, env.args, env.bindings)];
      RootsInAreInside(field, ground, ground, sums[env.fn].params, env.args, env.bindings);
    } else {
      EnvAtLast(sums, env, chain);
      var init, c := chain[..|chain| - 1], chain[|chain| - 1];
      var caller := EnvAt(sums, env, init).value;
      var params, args := sums[Callee(sums, caller, c).fn].params, sums[caller.fn].calls[c].args;
      var outer := FramesExist(field, ground, sums, env, init);
      frames := outer + [RootsIn(field, ground, outer[|init|], params, args, map[])];
      RootsInAreInside(field, ground, outer[|init|], params, args, map[]);
      assert frames[..|chain|] == outer;
    }
  }

  /** The composed arguments and bindings put into the function at the end what the calls put
      there one by one. */
  lemma {:induction false} EnvIsFrame<Loc>(field: (Loc, string) -> Loc, ground: Roots<Loc>, sums: Summaries, env: Env,
                                           chain: Chain, frames: seq<Roots<Loc>>)
    requires EnvAt(sums, env, chain).Some? && Frames(field, ground, sums, env, chain, frames)
    ensures |frames| == |chain| + 1
    ensures var e := EnvAt(sums, env, chain).value;
      Inside(field, ground, ground, frames[|chain|], sums[e.fn].params, e.args, e.bindings)
    decreases |chain|
  {
    if chain != [] {
      hide SubstituteArg, Binds, Denoted, Inside;
      EnvAtLast(sums, env, chain);
      var init, c := chain[..|chain| - 1], chain[|chain| - 1];
      var caller := EnvAt(sums, env, init).value;
      var s := sums[caller.fn];
      EnvIsFrame(field, ground, sums, env, init, frames[..|chain|]);
      CallIsFrame(field, ground, frames[|init|], frames[|chain|], s.params, sums[Callee(sums, caller, c).fn].params,
                  s.calls[c].args, caller.args, caller.bindings);
    }
  }

  /** Substituting the arguments of a call for the caller moves the caller's roots out. */
  lemma CallIsFrame<Loc>(field: (Loc, string) -> Loc, ground: Roots<Loc>, caller: Roots<Loc>, inner: Roots<Loc>,
                         outside: Params, params: Params, args: seq<MemoryKey>, given: seq<MemoryKey>,
                         bindings: Bindings)
    requires Inside(field, ground, ground, caller, outside, given, bindings)
    requires Inside(field, ground, caller, inner, params, args, map[])
    ensures Inside(field, ground, ground, inner, params, SubstituteArgs(outside, args, given, bindings), map[])
  {
    hide SubstituteArg, Denoted, FirstNamed;
    var composed := SubstituteArgs(outside, args, given, bindings);
    forall key
      ensures Denoted(field, ground, SubstituteArg(outside, key, given, bindings)) == Denoted(field, caller, key)
    {
      SubstituteArgDenotes(field, ground, caller, outside, key, given, bindings);
    }
    forall kind, id
      ensures forall arg :: Binds(params, kind, id, composed, map[], arg) ==>
        inner(kind, id) == Denoted(field, ground, arg)
      ensures (forall arg :: !Binds(params, kind, id, composed, map[], arg)) ==> inner(kind, id) == ground(kind, id)
    {
      forall i: nat | (kind == Param || kind == Receiver) && i < |args| && FirstNamed(params, id, i)
        ensures inner(kind, id) == Denoted(field, ground, composed[i])
        ensures Binds(params, kind, id, composed, map[], composed[i])
      {
        assert Binds(params, kind, id, args, map[], args[i]);
      }
    }
  }

  /** An expanded access denotes, from the start's roots, the location its summary key denotes
      in the function at the end of the chain, however fields lie in memory. */
  lemma ExpandedDenotes<Loc>(field: (Loc, string) -> Loc, ground: Roots<Loc>, sums: Summaries, env: Env,
                             goroutine: string, a: Access, chain: Chain, place: Place, r: Access,
                             frames: seq<Roots<Loc>>)
    requires WellFiledAll(sums) && SeenAs(sums, env, goroutine, a, chain, place, r)
    requires Frames(field, ground, sums, env, chain, frames)
    requires !(chain == [] && r.key.kind == Unknown && NormalizedRootID(r.key.rootID) in env.bindings)
    ensures Denoted(field, ground, a.key) == Denoted(field, frames[|chain|], r.key)
  {
    hide Frames, SeenAs, WellFiledAll, Denoted, Outward, NormalizedRootID, Inside;
    SeenHasEnd(sums, env, goroutine, a, chain, place, r);
    var e := EnvAt(sums, env, chain).value;
    ExpandedKey(sums, env, goroutine, a, chain, place, r);
    KeysComposeAlongChains(sums, env, chain, r.key);
    EnvIsFrame(field, ground, sums, env, chain, frames);
    SubstituteArgDenotes(field, ground, frames[|chain|], sums[e.fn].params, r.key, e.args, e.bindings);
  }

  /** So do the locks of an access or call in the function at the end, in their modes, as long
      as no root that carries the read-lock prefix was passed to it. */
  lemma LocksDenote<Loc>(field: (Loc, string) -> Loc, ground: Roots<Loc>, sums: Summaries, env: Env, chain: Chain,
                         locks: seq<MemoryKey>, frames: seq<Roots<Loc>>, k: nat)
    requires EnvAt(sums, env, chain).Some? && Frames(field, ground, sums, env, chain, frames)
    requires var e := EnvAt(sums, env, chain).value;
      && (forall arg :: arg in e.args ==> !IsReadLock(arg))
      && (forall name :: name in e.bindings ==> !IsReadLock(e.bindings[name]))
    requires k < |locks|
    ensures var e := EnvAt(sums, env, chain).value;
      var seen := SubstituteLockset(sums[e.fn].params, locks, e.args, e.bindings)[k];
      && Denoted(field, ground, LockBase(seen)) == Denoted(field, frames[|chain|], LockBase(locks[k]))
      && (IsReadLock(seen) <==> IsReadLock(locks[k]))
  {
    hide Frames, Denoted, Inside, SubstituteLock, IsReadLock;
    var e := EnvAt(sums, env, chain).value;
    EnvIsFrame(field, ground, sums, env, chain, frames);
    SubstituteLockDenotes(field, ground, frames[|chain|], sums[e.fn].params, locks[k], e.args, e.bindings);
  }

  /** Whether arg, put in the place of the lock's root, gives the lock itself. */
  predicate IsItself(arg: MemoryKey, lock: MemoryKey) {
    && arg.kind == lock.kind && arg.fieldPath == [] && (arg.typeName == "" || arg.typeName == lock.typeName)
    && LockBaseRootID(arg.rootID) == LockBaseRootID(lock.rootID)
    && (!IsReadLock(lock) ==> !IsReadLock(arg))
  }

  /** The own locks of a global access are not substituted: they come out as the other accesses'
      do exactly when the call gives none of their roots another meaning. */
  lemma GlobalLocksIff(params: Params, r: Access, env: Env, goroutine: string)
    ensures Adapt(params, GlobalAccess, r, env, goroutine).lockset ==
            SubstituteLockset(params, r.lockset, env.args, env.bindings) <==>
      forall l, arg ::
        (l in r.lockset && Binds(params, l.kind, LockBaseRootID(l.rootID), env.args, env.bindings, arg)) ==>
          IsItself(arg, l)
  {
    hide Binds, SubstituteLock, IsItself;
    var out := SubstituteLockset(params, r.lockset, env.args, env.bindings);
    forall l
      ensures SubstituteLock(params, l, env.args, env.bindings) == l <==>
        forall arg :: Binds(params, l.kind, LockBaseRootID(l.rootID), env.args, env.bindings, arg) ==> IsItself(arg, l)
    {
      LockStaysIff(params, l, env.args, env.bindings);
    }
    if out == r.lockset {
      forall l | l in r.lockset
        ensures SubstituteLock(params, l, env.args, env.bindings) == l
      {
        var i :| 0 <= i < |r.lockset| && r.lockset[i] == l;
        assert out[i] == SubstituteLock(params, l, env.args, env.bindings);
      }
    }
  }

  lemma LockStaysIff(params: Params, l: MemoryKey, args: seq<MemoryKey>, bindings: Bindings)
    ensures SubstituteLock(params, l, args, bindings) == l <==>
      forall arg :: Binds(params, l.kind, LockBaseRootID(l.rootID), args, bindings, arg) ==> IsItself(arg, l)
  {
    hide Binds, Replacement;
    var r := Replacement(params, l.kind, LockBaseRootID(l.rootID), args, bindings);
    forall arg
      ensures r == Some(arg) <==> Binds(params, l.kind, LockBaseRootID(l.rootID), args, bindings, arg)
    {
      ReplacementIff(params, l.kind, LockBaseRootID(l.rootID), args, bindings, arg);
    }
    if r.Some? {
      ItselfIff(r.value, l);
    } else {
      ReadPrefixAndBase(l.rootID);
    }
  }

  lemma ReadPrefixAndBase(id: string)
    ensures READ_LOCK_PREFIX <= id ==> ReadLockRootID(LockBaseRootID(id)) == id
  {
  }

  lemma ItselfIff(arg: MemoryKey, l: MemoryKey)
    ensures var out := SubstituteRoot(l, arg);
      (if IsReadLock(l) then out.(rootID := ReadLockRootID(LockBaseRootID(out.rootID))) else out) == l <==>
      IsItself(arg, l)
  {
    ReadPrefixAndBase(l.rootID);
    ReadPrefixAndBase(arg.rootID);
    PrefixOfReadLock(LockBaseRootID(arg.rootID));
    assert |arg.fieldPath + l.fieldPath| == |arg.fieldPath| + |l.fieldPath|;
  }

  lemma SeenHasEnd(sums: Summaries, env: Env, goroutine: string, a: Access, chain: Chain, place: Place, r: Access)
    requires SeenAs(sums, env, goroutine, a, chain, place, r)
    ensures EnvAt(sums, env, chain).Some?
  {
  }

  // ---------- the recursive method ----------

  /** The loop that files one group of accesses. */
  method AppendAll(out0: seq<Access>, params: Params, place: Place, accesses: seq<Access>, env: Env, goroutine: string)
    returns (out: seq<Access>)
    ensures out == out0 + AdaptAll(params, place, accesses, env, goroutine)
  {
    hide Adapt;
    out := out0;
    for i := 0 to |accesses|
      invariant out == out0 + AdaptAll(params, place, accesses, env, goroutine)[..i]
    {
      out := out + [Adapt(params, place, accesses[i], env, goroutine)];
    }
  }

  method ExpandFunctionAccesses(sums: Summaries, env: Env, depth: int, goroutine: string) returns (out: seq<Access>)
    ensures out == Expanded(sums, env, depth, goroutine)
    decreases if depth < 0 then 0 else depth + 1
  {
    hide Own, WrapAll, Enter;
    if depth < 0 || env.fn !in sums {
      return [];
    }
    var s := sums[env.fn];
    out := ExpandOwn(s, env, goroutine);
    for i := 0 to |s.calls|
      invariant out == Own(s, env, goroutine) + CallsPart(sums, env, i, depth, goroutine)
    {
      var call := s.calls[i];
      if call.callee.None? {
        continue;
      }
      var nested := ExpandFunctionAccesses(sums, Enter(s, call, env), depth - 1, goroutine);
      out := out + WrapAll(s, call, env, nested);
    }
  }

  /** The loops over the function's own accesses. */
  method ExpandOwn(s: Summary, env: Env, goroutine: string) returns (out: seq<Access>)
    ensures out == Own(s, env, goroutine)
  {
    hide AdaptAll;
    out := [];
    for i := 0 to |s.paramEffects|
      invariant out == ParamPart(s.params, s.paramEffects[..i], env, goroutine)
    {
      assert s.paramEffects[..i + 1][..i] == s.paramEffects[..i];
      var (index, effects) := s.paramEffects[i];
      if index >= |env.args| {
        continue;
      }
      out := AppendAll(out, s.params, ParamEffect(index), effects, env, goroutine);
    }
    assert s.paramEffects[..|s.paramEffects|] == s.paramEffects;
    if |env.args| > 0 {
      out := AppendAll(out, s.params, ReceiverEffect, s.receiver, env, goroutine);
    }
    out := AppendAll(out, s.params, GlobalAccess, s.globals, env, goroutine);
    out := AppendAll(out, s.params, LocalAccess, s.locals, env, goroutine);
    out := AppendAll(out, s.params, UnknownEffect, s.unknown, env, goroutine);
  }

  // ---------- the capped collection ----------

  const MAX_EXPANDED := 5000
  const EXPANSION_DEPTH := 3

  /** One of the program's functions; nested: it has a parent; rootArgs: the keys of its own
      parameters. */
  datatype Function = Function(fn: Fn, name: string, nested: bool, rootArgs: seq<MemoryKey>)

  function ParentID(f: Function): string {
    "parent:" + f.name
  }

  function Unparent(parentID: string, accesses: seq<Access>): (out: seq<Access>)
    ensures |out| == |accesses|
  {
    seq(|accesses|, i requires 0 <= i < |accesses| =>
      if accesses[i].goroutineID == parentID then accesses[i].(goroutineID := "") else accesses[i])
  }

  function Marked(id: string, accesses: seq<Access>): (out: seq<Access>)
    ensures |out| == |accesses|
  {
    seq(|accesses|, i requires 0 <= i < |accesses| => accesses[i].(inGoroutine := true, goroutineID := id))
  }

  function SpawnAccesses(sums: Summaries, spawn: Spawn): seq<Access> {
    if spawn.callee.None? then []
    else Marked(spawn.id, Expanded(sums, Env(spawn.callee.value, spawn.args, spawn.bindings), EXPANSION_DEPTH,
                                   spawn.id))
  }

  function AllSpawns(sums: Summaries, spawns: seq<Spawn>): seq<Access> {
    if spawns == [] then []
    else AllSpawns(sums, spawns[..|spawns| - 1]) + SpawnAccesses(sums, spawns[|spawns| - 1])
  }

  function OwnAccesses(sums: Summaries, f: Function): seq<Access> {
    Expanded(sums, Env(f.fn, f.rootArgs, map[]), EXPANSION_DEPTH, ParentID(f))
  }

  predicate IsExpanded(sums: Summaries, f: Option<Function>) {
    f.Some? && !f.value.nested && f.value.fn in sums
  }

  /** The collection without the cap: for each top-level function its own expansion, which
      runs in no goroutine, and those of the goroutines it starts. */
  function Collected(sums: Summaries, funcs: seq<Option<Function>>): seq<Access> {
    if funcs == [] then []
    else
      var before, f := Collected(sums, funcs[..|funcs| - 1]), funcs[|funcs| - 1];
      if IsExpanded(sums, f) then
        Unparent(ParentID(f.value), before + OwnAccesses(sums, f.value)) + AllSpawns(sums, sums[f.value.fn].spawned)
      else before
  }

  // ---------- what is collected ----------

  /** No access and no goroutine has an ID like those that mark a function's own accesses. */
  ghost predicate NoParentIDs(sums: Summaries) {
    && (forall f, place, r :: f in sums && FiledAt(sums[f], place, r) ==> !("parent:" <= r.goroutineID))
    && (forall f, i :: f in sums && 0 <= i < |sums[f].spawned| ==> !("parent:" <= sums[f].spawned[i].id))
  }

  ghost predicate NoneOf(accesses: seq<Access>, id: string) {
    forall a :: a in accesses ==> a.goroutineID != id
  }

  lemma UnparentConcat(id: string, left: seq<Access>, right: seq<Access>)
    ensures Unparent(id, left + right) == Unparent(id, left) + Unparent(id, right)
    ensures NoneOf(left, id) ==> Unparent(id, left) == left
  {
  }

  lemma UnparentAdapted(params: Params, place: Place, accesses: seq<Access>, env: Env, id: string)
    requires NoneOf(accesses, id)
    ensures Unparent(id, AdaptAll(params, place, accesses, env, id)) == AdaptAll(params, place, accesses, env, "")
  {
    hide AdaptKey, SubstituteLockset;
    forall i | 0 <= i < |accesses|
      ensures accesses[i].goroutineID != id
    {
      assert accesses[i] in accesses;
    }
  }

  lemma {:induction false} UnparentParams(params: Params, groups: seq<(nat, seq<Access>)>, env: Env, id: string)
    requires forall g :: g in groups ==> NoneOf(g.1, id)
    ensures Unparent(id, ParamPart(params, groups, env, id)) == ParamPart(params, groups, env, "")
  {
    hide AdaptAll, Unparent, NoneOf;
    if groups != [] {
      var last := groups[|groups| - 1];
      UnparentParams(params, groups[..|groups| - 1], env, id);
      UnparentAdapted(params, ParamEffect(last.0), last.1, env, id);
      UnparentConcat(id, ParamPart(params, groups[..|groups| - 1], env, id),
                     AdaptAll(params, ParamEffect(last.0), last.1, env, id));
      assert forall xs: seq<Access> :: xs + [] == xs;
    } else {
      UnparentNothing(id);
    }
  }

  lemma UnparentNothing(id: string)
    ensures Unparent(id, []) == []
  {
  }

  lemma FiledAreFree(sums: Summaries, f: Fn, id: string)
    requires NoParentIDs(sums) && f in sums && "parent:" <= id
    ensures forall g :: g in sums[f].paramEffects ==> NoneOf(g.1, id)
    ensures NoneOf(sums[f].receiver, id) && NoneOf(sums[f].globals, id) && NoneOf(sums[f].locals, id)
    ensures NoneOf(sums[f].unknown, id)
  {
    forall g, r | g in sums[f].paramEffects && r in g.1
      ensures r.goroutineID != id
    {
      assert FiledAt(sums[f], ParamEffect(g.0), r);
    }
    assert forall r :: r in sums[f].receiver ==> FiledAt(sums[f], ReceiverEffect, r);
    assert forall r :: r in sums[f].globals ==> FiledAt(sums[f], GlobalAccess, r);
    assert forall r :: r in sums[f].locals ==> FiledAt(sums[f], LocalAccess, r);
    assert forall r :: r in sums[f].unknown ==> FiledAt(sums[f], UnknownEffect, r);
  }

  lemma UnparentOwn(sums: Summaries, env: Env, id: string)
    requires NoParentIDs(sums) && env.fn in sums && "parent:" <= id
    ensures Unparent(id, Own(sums[env.fn], env, id)) == Own(sums[env.fn], env, "")
  {
    hide AdaptAll, Unparent, NoneOf, ParamPart, NoParentIDs;
    var s := sums[env.fn];
    FiledAreFree(sums, env.fn, id);
    UnparentNothing(id);
    UnparentParams(s.params, s.paramEffects, env, id);
    UnparentAdapted(s.params, ReceiverEffect, s.receiver, env, id);
    UnparentAdapted(s.params, GlobalAccess, s.globals, env, id);
    UnparentAdapted(s.params, LocalAccess, s.locals, env, id);
    UnparentAdapted(s.params, UnknownEffect, s.unknown, env, id);
    var params := ParamPart(s.params, s.paramEffects, env, id);
    var receiver := if |env.args| == 0 then [] else AdaptAll(s.params, ReceiverEffect, s.receiver, env, id);
    var globals := AdaptAll(s.params, GlobalAccess, s.globals, env, id);
    var locals := AdaptAll(s.params, LocalAccess, s.locals, env, id);
    UnparentConcat(id, params, receiver);
    UnparentConcat(id, params + receiver, globals);
    UnparentConcat(id, params + receiver + globals, locals);
    UnparentConcat(id, params + receiver + globals + locals, AdaptAll(s.params, UnknownEffect, s.unknown, env, id));
  }

  /** Marking a function's own accesses and clearing the mark is not marking them. */
  lemma {:induction false} UnparentExpanded(sums: Summaries, env: Env, depth: int, id: string)
    requires NoParentIDs(sums) && "parent:" <= id
    ensures Unparent(id, Expanded(sums, env, depth, id)) == Expanded(sums, env, depth, "")
    decreases if depth < 0 then 0 else depth + 1, 0
  {
    hide Own, CallsPart, Unparent, NoParentIDs;
    UnparentNothing(id);
    if depth >= 0 && env.fn in sums {
      UnparentOwn(sums, env, id);
      UnparentCalls(sums, env, |sums[env.fn].calls|, depth, id);
      UnparentConcat(id, Own(sums[env.fn], env, id), CallsPart(sums, env, |sums[env.fn].calls|, depth, id));
    }
  }

  lemma {:induction false} UnparentCalls(sums: Summaries, env: Env, n: nat, depth: nat, id: string)
    requires NoParentIDs(sums) && "parent:" <= id && env.fn in sums && n <= |sums[env.fn].calls|
    ensures Unparent(id, CallsPart(sums, env, n, depth, id)) == CallsPart(sums, env, n, depth, "")
    decreases depth, n + 1
  {
    hide WrapAll, Expanded, Enter, Unparent, NoParentIDs;
    UnparentNothing(id);
    if n > 0 {
      var s := sums[env.fn];
      var call := s.calls[n - 1];
      UnparentCalls(sums, env, n - 1, depth, id);
      var before, nested := CallsPart(sums, env, n - 1, depth, id), [];
      if call.callee.Some? {
        UnparentExpanded(sums, Enter(s, call, env), depth - 1, id);
        var inner := Expanded(sums, Enter(s, call, env), depth - 1, id);
        UnparentWrapped(s, call, env, inner, id);
        nested := WrapAll(s, call, env, inner);
      }
      UnparentConcat(id, before, nested);
    }
  }

  lemma UnparentWrapped(s: Summary, call: CallSite, env: Env, accesses: seq<Access>, id: string)
    ensures Unparent(id, WrapAll(s, call, env, accesses)) == WrapAll(s, call, env, Unparent(id, accesses))
  {
    hide MergeLocksets, SubstituteLockset;
  }

  /** The collection as it is meant: each function's accesses in no goroutine but those its
      summary names, and then those of the goroutines it starts. */
  function Gathered(sums: Summaries, funcs: seq<Option<Function>>): seq<Access> {
    if funcs == [] then []
    else
      var before, f := Gathered(sums, funcs[..|funcs| - 1]), funcs[|funcs| - 1];
      if IsExpanded(sums, f) then
        before + Expanded(sums, Env(f.value.fn, f.value.rootArgs, map[]), EXPANSION_DEPTH, "")
        + AllSpawns(sums, sums[f.value.fn].spawned)
      else before
  }

  /** a is an access of the function, seen from it through a chain of at most three calls. */
  ghost predicate OfRoot(sums: Summaries, f: Function, a: Access) {
    exists chain, place, r ::
      |chain| <= EXPANSION_DEPTH && SeenAs(sums, Env(f.fn, f.rootArgs, map[]), "", a, chain, place, r)
  }

  /** a is such an access of the function that the go statement starts, marked with its ID. */
  ghost predicate OfSpawn(sums: Summaries, spawn: Spawn, a: Access) {
    && spawn.callee.Some? && a.inGoroutine && a.goroutineID == spawn.id
    && exists b, chain, place, r ::
      |chain| <= EXPANSION_DEPTH &&
      SeenAs(sums, Env(spawn.callee.value, spawn.args, spawn.bindings), spawn.id, b, chain, place, r) &&
      b.(inGoroutine := true, goroutineID := spawn.id) == a
  }

  lemma SpawnAccessesAre(sums: Summaries, spawn: Spawn, a: Access)
    ensures a in SpawnAccesses(sums, spawn) <==> OfSpawn(sums, spawn, a)
  {
    hide Expanded, SeenAs;
    if spawn.callee.Some? {
      var env := Env(spawn.callee.value, spawn.args, spawn.bindings);
      var all := Expanded(sums, env, EXPANSION_DEPTH, spawn.id);
      if a in SpawnAccesses(sums, spawn) {
        var i :| 0 <= i < |all| && Marked(spawn.id, all)[i] == a;
        ExpandedIff(sums, env, EXPANSION_DEPTH, spawn.id, all[i]);
      }
      if OfSpawn(sums, spawn, a) {
        var b, chain, place, r :| |chain| <= EXPANSION_DEPTH && SeenAs(sums, env, spawn.id, b, chain, place, r)
          && b.(inGoroutine := true, goroutineID := spawn.id) == a;
        ExpandedIff(sums, env, EXPANSION_DEPTH, spawn.id, b);
        var i :| 0 <= i < |all| && all[i] == b;
        assert Marked(spawn.id, all)[i] == a;
      }
    }
  }

  lemma {:induction false} AllSpawnsAre(sums: Summaries, spawns: seq<Spawn>, a: Access)
    ensures a in AllSpawns(sums, spawns) <==> exists i :: 0 <= i < |spawns| && OfSpawn(sums, spawns[i], a)
  {
    hide SpawnAccesses, OfSpawn;
    if spawns != [] {
      var init := spawns[..|spawns| - 1];
      AllSpawnsAre(sums, init, a);
      SpawnAccessesAre(sums, spawns[|spawns| - 1], a);
      assert forall i :: 0 <= i < |init| ==> init[i] == spawns[i];
    }
  }

  /** One of the functions gives the access. */
  ghost predicate FromFunction(sums: Summaries, f: Option<Function>, a: Access) {
    && IsExpanded(sums, f)
    && (OfRoot(sums, f.value, a) ||
        exists i :: 0 <= i < |sums[f.value.fn].spawned| && OfSpawn(sums, sums[f.value.fn].spawned[i], a))
  }

  lemma {:induction false} GatheredAre(sums: Summaries, funcs: seq<Option<Function>>, a: Access)
    ensures a in Gathered(sums, funcs) <==> exists f :: f in funcs && FromFunction(sums, f, a)
  {
    hide Expanded, AllSpawns, OfSpawn, SeenAs;
    if funcs != [] {
      var init, f := funcs[..|funcs| - 1], funcs[|funcs| - 1];
      GatheredAre(sums, init, a);
      if IsExpanded(sums, f) {
        ExpandedIff(sums, Env(f.value.fn, f.value.rootArgs, map[]), EXPANSION_DEPTH, "", a);
        AllSpawnsAre(sums, sums[f.value.fn].spawned, a);
      }
      assert a in Gathered(sums, funcs) <==> a in Gathered(sums, init) || FromFunction(sums, f, a);
      assert funcs == init + [f];
    }
  }

  lemma FromFunctionIsFree(sums: Summaries, f: Option<Function>, a: Access, id: string)
    requires NoParentIDs(sums) && FromFunction(sums, f, a) && "parent:" <= id
    ensures a.goroutineID != id
  {
    hide SeenAs, FiledAt, EnvAt;
    if OfRoot(sums, f.value, a) {
      var env := Env(f.value.fn, f.value.rootArgs, map[]);
      var chain, place, r :| |chain| <= EXPANSION_DEPTH && SeenAs(sums, env, "", a, chain, place, r);
      ExpandedRest(sums, env, "", a, chain, place, r);
      SeenIsFiled(sums, env, "", a, chain, place, r);
    }
  }

  lemma SeenIsFiled(sums: Summaries, env: Env, goroutine: string, a: Access, chain: Chain, place: Place, r: Access)
    requires SeenAs(sums, env, goroutine, a, chain, place, r)
    ensures exists f :: f in sums && FiledAt(sums[f], place, r)
  {
    hide FiledAt, Wrapped, Adapt;
  }

  lemma {:induction false} CollectedIsGathered(sums: Summaries, funcs: seq<Option<Function>>)
    requires NoParentIDs(sums)
    ensures Collected(sums, funcs) == Gathered(sums, funcs)
  {
    hide Expanded, AllSpawns, Unparent, NoParentIDs, FromFunction;
    if funcs != [] {
      var init, f := funcs[..|funcs| - 1], funcs[|funcs| - 1];
      CollectedIsGathered(sums, init);
      if IsExpanded(sums, f) {
        var id, before := ParentID(f.value), Gathered(sums, init);
        assert "parent:" <= id;
        forall a | a in before
          ensures a.goroutineID != id
        {
          GatheredAre(sums, init, a);
          var g :| g in init && FromFunction(sums, g, a);
          FromFunctionIsFree(sums, g, a, id);
        }
        UnparentConcat(id, before, OwnAccesses(sums, f.value));
        UnparentExpanded(sums, Env(f.value.fn, f.value.rootArgs, map[]), EXPANSION_DEPTH, id);
      }
    }
  }

  /** The collection holds exactly the accesses that a top-level function with a summary makes,
      directly or through at most three calls, as it sees them, and in the same way those of
      the goroutines it starts, marked with their IDs. */
  lemma CollectedIff(sums: Summaries, funcs: seq<Option<Function>>, a: Access)
    requires NoParentIDs(sums)
    ensures a in Collected(sums, funcs) <==> exists f :: f in funcs && FromFunction(sums, f, a)
  {
    hide FromFunction, NoParentIDs;
    CollectedIsGathered(sums, funcs);
    GatheredAre(sums, funcs, a);
  }

  // ---------- the capped loop ----------

  function First(accesses: seq<Access>, n: nat): seq<Access> {
    if |accesses| <= n then accesses else accesses[..n]
  }

  /** The appendAccesses closure. */
  method AppendCapped(accesses: seq<Access>, next: seq<Access>, truncated0: bool, ghost all: seq<Access>)
    returns (out: seq<Access>, truncated: bool)
    requires accesses == First(all, MAX_EXPANDED) && truncated0 == (|all| > MAX_EXPANDED)
    ensures out == First(all + next, MAX_EXPANDED) && truncated == (|all + next| > MAX_EXPANDED)
  {
    out, truncated := accesses, truncated0;
    if |next| == 0 {
      return;
    }
    if |accesses| >= MAX_EXPANDED {
      return accesses, true;
    }
    var remaining := MAX_EXPANDED - |accesses|;
    if |next| > remaining {
      return accesses + next[..remaining], true;
    }
    out := accesses + next;
  }

  /** ExpandConcurrentAccessesWithNotes: the first 5000 accesses of the whole collection, and
      a note exactly when there were more. */
  method CollectCapped(sums: Summaries, funcs: seq<Option<Function>>) returns (accesses: seq<Access>, truncated: bool)
    ensures accesses == First(Collected(sums, funcs), MAX_EXPANDED)
    ensures truncated == (|Collected(sums, funcs)| > MAX_EXPANDED)
  {
    hide First, Unparent, Expanded, AllSpawns;
    accesses, truncated := [], false;
    FirstOfNone();
    for i := 0 to |funcs|
      invariant accesses == First(Collected(sums, funcs[..i]), MAX_EXPANDED)
      invariant truncated == (|Collected(sums, funcs[..i])| > MAX_EXPANDED)
    {
      assert funcs[..i + 1][..i] == funcs[..i];
      if funcs[i].None? || funcs[i].value.nested || funcs[i].value.fn !in sums {
        continue;
      }
      var f := funcs[i].value;
      var own := ExpandFunctionAccesses(sums, Env(f.fn, f.rootArgs, map[]), EXPANSION_DEPTH, ParentID(f));
      ghost var all := Collected(sums, funcs[..i]);
      accesses, truncated := AppendCapped(accesses, own, truncated, all);
      UnparentFirst(ParentID(f), all + own);
      accesses := Unparent(ParentID(f), accesses);
      accesses, truncated := CollectSpawned(sums, accesses, sums[f.fn].spawned, truncated,
                                            Unparent(ParentID(f), all + own));
    }
    assert funcs[..|funcs|] == funcs;
  }

  lemma FirstOfNone()
    ensures First([], MAX_EXPANDED) == []
  {
  }

  lemma UnparentFirst(parentID: string, all: seq<Access>)
    ensures Unparent(parentID, First(all, MAX_EXPANDED)) == First(Unparent(parentID, all), MAX_EXPANDED)
  {
  }

  /** The loop over summary.Spawned. */
  method CollectSpawned(sums: Summaries, accesses: seq<Access>, spawns: seq<Spawn>, truncated0: bool,
                        ghost all: seq<Access>)
    returns (out: seq<Access>, truncated: bool)
    requires accesses == First(all, MAX_EXPANDED) && truncated0 == (|all| > MAX_EXPANDED)
    ensures out == First(all + AllSpawns(sums, spawns), MAX_EXPANDED)
    ensures truncated == (|all + AllSpawns(sums, spawns)| > MAX_EXPANDED)
  {
    hide First, Expanded, SpawnAccesses;
    out, truncated := accesses, truncated0;
    assert all + AllSpawns(sums, []) == all;
    for j := 0 to |spawns|
      invariant out == First(all + AllSpawns(sums, spawns[..j]), MAX_EXPANDED)
      invariant truncated == (|all + AllSpawns(sums, spawns[..j])| > MAX_EXPANDED)
    {
      NextSpawn(sums, all, spawns, j);
      if spawns[j].callee.None? {
        continue;
      }
      var gAccesses := ExpandSpawn(sums, spawns[j]);
      out, truncated := AppendCapped(out, gAccesses, truncated, all + AllSpawns(sums, spawns[..j]));
    }
    assert spawns[..|spawns|] == spawns;
  }

  lemma NextSpawn(sums: Summaries, all: seq<Access>, spawns: seq<Spawn>, j: nat)
    requires j < |spawns|
    ensures all + AllSpawns(sums, spawns[..j + 1]) ==
      (all + AllSpawns(sums, spawns[..j])) + SpawnAccesses(sums, spawns[j])
    ensures spawns[j].callee.None? ==> all + AllSpawns(sums, spawns[..j + 1]) == all + AllSpawns(sums, spawns[..j])
  {
    hide Expanded;
    assert spawns[..j + 1][..j] == spawns[..j];
  }

  method ExpandSpawn(sums: Summaries, spawn: Spawn) returns (gAccesses: seq<Access>)
    requires spawn.callee.Some?
    ensures gAccesses == SpawnAccesses(sums, spawn)
  {
    var env := Env(spawn.callee.value, spawn.args, spawn.bindings);
    gAccesses := ExpandFunctionAccesses(sums, env, EXPANSION_DEPTH, spawn.id);
    gAccesses := Mark(spawn.id, gAccesses);
  }

  /** The loop over gAccesses. */
  method Mark(id: string, accesses: seq<Access>) returns (out: seq<Access>)
    ensures out == Marked(id, accesses)
  {
    out := accesses;
    for i := 0 to |accesses|
      invariant |out| == |accesses|
      invariant forall k :: 0 <= k < |accesses| ==> out[k] == if k < i then Marked(id, accesses)[k] else accesses[k]
    {
      out := out[i := out[i].(inGoroutine := true, goroutineID := id)];
    }
  }
}
