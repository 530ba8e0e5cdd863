/** Memory keys, accesses and their substitution (analyzer/dataflow.go). */
module MemoryKeys {
  import opened Wrappers

  datatype RootKind = Alloc | Global | Param | Receiver | FreeVar | Unknown

  // sameMemoryKey compares all four fields, so it is equality here.
  datatype MemoryKey = MemoryKey(kind: RootKind, rootID: string, typeName: string, fieldPath: seq<string>)

  datatype AccessKind = Read | Write

  datatype Access = Access(
    key: MemoryKey, kind: AccessKind, fn: string, file: string, line: int,
    atomic: bool, inGoroutine: bool, goroutineID: string, lockset: seq<MemoryKey>, viaCall: string)

  const READ_LOCK_PREFIX := "rlock:"

  function ReadLockRootID(rootID: string): string {
    READ_LOCK_PREFIX + rootID
  }

  predicate IsReadLock(key: MemoryKey) {
    READ_LOCK_PREFIX <= key.rootID
  }

  function LockBaseRootID(rootID: string): string {
    if READ_LOCK_PREFIX <= rootID then rootID[|READ_LOCK_PREFIX|..] else rootID
  }

  /** The lock itself, whatever the mode it is taken in. */
  function LockBase(key: MemoryKey): MemoryKey {
    key.(rootID := LockBaseRootID(key.rootID))
  }

  /** substituteRoot: key, seen through the value that stands for its root. */
  function SubstituteRoot(key: MemoryKey, replacement: MemoryKey): MemoryKey {
    MemoryKey(replacement.kind, replacement.rootID,
              if replacement.typeName != "" then replacement.typeName else key.typeName,
              replacement.fieldPath + key.fieldPath)
  }

  /** Substituting through two calls at once or one after the other is the same. */
  lemma SubstituteRootAssociative(key: MemoryKey, inner: MemoryKey, outer: MemoryKey)
    ensures SubstituteRoot(SubstituteRoot(key, inner), outer) == SubstituteRoot(key, SubstituteRoot(inner, outer))
  {
    assert outer.fieldPath + (inner.fieldPath + key.fieldPath) == (outer.fieldPath + inner.fieldPath) + key.fieldPath;
  }

  function TrimPrefix(s: string, prefix: string): string {
    if prefix <= s then s[|prefix|..] else s
  }

  /** normalizedMemoryRootID: the markers for lost precision taken off, each once, in order. */
  function NormalizedRootID(rootID: string): string {
    TrimPrefix(TrimPrefix(TrimPrefix(TrimPrefix(rootID, "container:"), "ambiguous:"), "field-depth:"), "dynamic:")
  }

  function Mark(on: bool, prefix: string, rootID: string): string {
    if on then prefix + rootID else rootID
  }

  /** Whichever markers a root ID carries, in this order, they all come off. */
  lemma MarkersComeOff(rootID: string, container: bool, ambiguous: bool, fieldDepth: bool, dynamic: bool)
    requires rootID != "" ==> rootID[0] !in "cafd"
    ensures
      var marked := Mark(ambiguous, "ambiguous:", Mark(fieldDepth, "field-depth:", Mark(dynamic, "dynamic:", rootID)));
      NormalizedRootID(Mark(container, "container:", marked)) == rootID
  {
    var third := Mark(dynamic, "dynamic:", rootID);
    var second := Mark(fieldDepth, "field-depth:", third);
    var first := Mark(ambiguous, "ambiguous:", second);
    assert rootID != "" ==> rootID[0] != 'c' && rootID[0] != 'a' && rootID[0] != 'f' && rootID[0] != 'd';
    TrimMark(container, "container:", first);
    TrimMark(ambiguous, "ambiguous:", second);
    TrimMark(fieldDepth, "field-depth:", third);
    TrimMark(dynamic, "dynamic:", rootID);
  }

  lemma TrimMark(on: bool, prefix: string, rootID: string)
    requires prefix != "" && (rootID != "" ==> rootID[0] != prefix[0])
    ensures TrimPrefix(Mark(on, prefix, rootID), prefix) == rootID
  {
    assert (prefix + rootID)[..|prefix|] == prefix;
  }

  /** In another order one stays: an alias of a container element is not taken for the
      container. */
  lemma NestedMarkerStays(rootID: string)
    ensures NormalizedRootID("ambiguous:" + ("container:" + rootID)) == "container:" + rootID
  {
    var inner := "container:" + rootID;
    TrimMark(false, "container:", "ambiguous:" + inner);
    TrimMark(true, "ambiguous:", inner);
    TrimMark(false, "field-depth:", inner);
    TrimMark(false, "dynamic:", inner);
  }

  /** A parameter: the root ID its key carries, and its name. None is a nil parameter. */
  datatype Parameter = Parameter(rootID: string, name: string)

  type Params = seq<Option<Parameter>>

  predicate Matches(p: Option<Parameter>, rootID: string) {
    p.Some? && (p.value.rootID == rootID || p.value.name == rootID)
  }

  /** paramIndex: the first parameter the root ID names, by ID or by name. */
  function ParamIndex(params: Params, rootID: string): (r: Option<nat>)
    ensures r.Some? ==> r.value < |params|
  {
    if params == [] then None
    else if Matches(params[0], rootID) then Some(0)
    else
      var r := ParamIndex(params[1..], rootID);
      if r.Some? then Some(r.value + 1) else None
  }

  type Bindings = map<string, MemoryKey>

  /** What stands for the root of a key inside a function called with args and
      closure bindings; None leaves the key as it is. */
  function Replacement(params: Params, kind: RootKind, rootID: string, args: seq<MemoryKey>,
                       bindings: Bindings): Option<MemoryKey> {
    match kind
    case FreeVar => if rootID in bindings then Some(bindings[rootID]) else None
    case Param | Receiver =>
      var i := ParamIndex(params, rootID);
      if i.Some? && i.value < |args| then Some(args[i.value]) else None
    case _ => None
  }

  /** One element of substituteArgs. */
  function SubstituteArg(params: Params, key: MemoryKey, args: seq<MemoryKey>, bindings: Bindings): MemoryKey {
    var r := Replacement(params, key.kind, key.rootID, args, bindings);
    if r.Some? then SubstituteRoot(key, r.value) else key
  }

  function SubstituteArgs(params: Params, keys: seq<MemoryKey>, args: seq<MemoryKey>,
                          bindings: Bindings): (out: seq<MemoryKey>)
    ensures |out| == |keys|
  {
    seq(|keys|, i requires 0 <= i < |keys| => SubstituteArg(params, keys[i], args, bindings))
  }

  /** One element of substituteLockset. */
  function SubstituteLock(params: Params, lock: MemoryKey, args: seq<MemoryKey>, bindings: Bindings): MemoryKey {
    var r := Replacement(params, lock.kind, LockBaseRootID(lock.rootID), args, bindings);
    var out := if r.Some? then SubstituteRoot(lock, r.value) else lock;
    if IsReadLock(lock) then out.(rootID := ReadLockRootID(LockBaseRootID(out.rootID))) else out
  }

  function SubstituteLockset(params: Params, locks: seq<MemoryKey>, args: seq<MemoryKey>,
                             bindings: Bindings): (out: seq<MemoryKey>)
    ensures |out| == |locks|
  {
    seq(|locks|, i requires 0 <= i < |locks| => SubstituteLock(params, locks[i], args, bindings))
  }

  /** Substitution keeps a lock's mode exactly when it does not put a root that
      already carries the read-lock prefix under a write lock. */
  lemma SubstituteLockKeepsMode(params: Params, lock: MemoryKey, args: seq<MemoryKey>, bindings: Bindings)
    ensures
      var r := Replacement(params, lock.kind, LockBaseRootID(lock.rootID), args, bindings);
      (IsReadLock(SubstituteLock(params, lock, args, bindings)) <==> IsReadLock(lock))
      <==> IsReadLock(lock) || r.None? || !IsReadLock(r.value)
  {
    PrefixOfReadLock(LockBaseRootID(SubstituteLock(params, lock, args, bindings).rootID));
  }

  lemma PrefixOfReadLock(id: string)
    ensures READ_LOCK_PREFIX <= ReadLockRootID(id) && LockBaseRootID(ReadLockRootID(id)) == id
  {
    assert ReadLockRootID(id)[..|READ_LOCK_PREFIX|] == READ_LOCK_PREFIX;
  }

  /** An argument root with the prefix does turn a write lock into a read lock. */
  lemma PrefixedArgumentFlipsMode()
    ensures
      var lock := MemoryKey(Param, "mu", "", []);
      var arg := MemoryKey(Param, "rlock:m", "", []);
      !IsReadLock(lock) && IsReadLock(SubstituteLock([Some(Parameter("f|param|0|mu", "mu"))], lock, [arg], map[]))
  {
    assert ParamIndex([Some(Parameter("f|param|0|mu", "mu"))], "mu") == Some(0);
    assert SubstituteLock([Some(Parameter("f|param|0|mu", "mu"))], MemoryKey(Param, "mu", "", []),
                          [MemoryKey(Param, "rlock:m", "", [])], map[]).rootID == "rlock:m";
    assert "rlock:m"[..6] == "rlock:";
  }

  // ---------- what a key denotes ----------

  /** Where the roots of a function's keys lie. */
  type Roots<Loc> = (RootKind, string) -> Loc

  /** The location the field path leads to, for any way fields have of lying in memory. */
  function Follow<Loc>(field: (Loc, string) -> Loc, from: Loc, path: seq<string>): Loc {
    if path == [] then from else Follow(field, field(from, path[0]), path[1..])
  }

  function Denoted<Loc>(field: (Loc, string) -> Loc, roots: Roots<Loc>, key: MemoryKey): Loc {
    Follow(field, roots(key.kind, key.rootID), key.fieldPath)
  }

  lemma {:induction false} FollowOn<Loc>(field: (Loc, string) -> Loc, from: Loc, path: seq<string>, more: seq<string>)
    ensures Follow(field, from, path + more) == Follow(field, Follow(field, from, path), more)
  {
    if path == [] {
      assert path + more == more;
    } else {
      FollowOn(field, field(from, path[0]), path[1..], more);
      assert (path + more)[1..] == path[1..] + more;
    }
  }

  /** The substituted key denotes outside what the key denotes with its root bound to the
      location of the replacement; its type is the replacement's, if that is known. */
  lemma SubstituteRootDenotes<Loc>(field: (Loc, string) -> Loc, outer: Roots<Loc>, inner: Roots<Loc>, key: MemoryKey,
                                   replacement: MemoryKey)
    requires inner(key.kind, key.rootID) == Denoted(field, outer, replacement)
    ensures Denoted(field, outer, SubstituteRoot(key, replacement)) == Denoted(field, inner, key)
    ensures replacement.typeName != "" ==> SubstituteRoot(key, replacement).typeName == replacement.typeName
    ensures replacement.typeName == "" ==> SubstituteRoot(key, replacement).typeName == key.typeName
  {
    FollowOn(field, outer(replacement.kind, replacement.rootID), replacement.fieldPath, key.fieldPath);
  }

  /** i is the first parameter the root ID names. */
  predicate FirstNamed(params: Params, rootID: string, i: nat) {
    i < |params| && Matches(params[i], rootID) && forall j :: 0 <= j < i ==> !Matches(params[j], rootID)
  }

  lemma {:induction false} ParamIndexIsFirst(params: Params, rootID: string, i: nat)
    ensures ParamIndex(params, rootID) == Some(i) <==> FirstNamed(params, rootID, i)
  {
    hide Matches;
    if params != [] && i > 0 {
      ParamIndexIsFirst(params[1..], rootID, i - 1);
      if i < |params| && !Matches(params[0], rootID) && FirstNamed(params[1..], rootID, i - 1) {
        forall j | 0 <= j < i
          ensures !Matches(params[j], rootID)
        {
          assert j > 0 ==> params[j] == params[1..][j - 1];
        }
      }
    }
  }

  /** A call binds the root to arg: a closure binding of its name, or the argument at the
      place of the first parameter it names. */
  predicate Binds(params: Params, kind: RootKind, rootID: string, args: seq<MemoryKey>, bindings: Bindings,
                  arg: MemoryKey) {
    || (kind == FreeVar && rootID in bindings && bindings[rootID] == arg)
    || ((kind == Param || kind == Receiver) &&
        exists i :: 0 <= i < |args| && FirstNamed(params, rootID, i) && args[i] == arg)
  }

  lemma ReplacementIff(params: Params, kind: RootKind, rootID: string, args: seq<MemoryKey>, bindings: Bindings,
                       arg: MemoryKey)
    ensures Replacement(params, kind, rootID, args, bindings) == Some(arg) <==>
      Binds(params, kind, rootID, args, bindings, arg)
  {
    hide ParamIndex, FirstNamed;
    forall i: nat
      ensures ParamIndex(params, rootID) == Some(i) <==> FirstNamed(params, rootID, i)
    {
      ParamIndexIsFirst(params, rootID, i);
    }
  }

  /** The roots inside a call: what it binds lies where the caller finds it, and a root that it
      does not bind is the same everywhere. */
  ghost predicate Inside<Loc>(field: (Loc, string) -> Loc, ground: Roots<Loc>, caller: Roots<Loc>, inner: Roots<Loc>,
                              params: Params, args: seq<MemoryKey>, bindings: Bindings) {
    forall kind, id ::
      && (forall arg :: Binds(params, kind, id, args, bindings, arg) ==> inner(kind, id) == Denoted(field, caller, arg))
      && ((forall arg :: !Binds(params, kind, id, args, bindings, arg)) ==> inner(kind, id) == ground(kind, id))
  }

  function RootsIn<Loc>(field: (Loc, string) -> Loc, ground: Roots<Loc>, caller: Roots<Loc>, params: Params,
                        args: seq<MemoryKey>, bindings: Bindings): Roots<Loc> {
    (kind, id) =>
      var r := Replacement(params, kind, id, args, bindings);
      if r.Some? then Denoted(field, caller, r.value) else ground(kind, id)
  }

  lemma RootsInAreInside<Loc>(field: (Loc, string) -> Loc, ground: Roots<Loc>, caller: Roots<Loc>, params: Params,
                              args: seq<MemoryKey>, bindings: Bindings)
    ensures var inner := RootsIn(field, ground, caller, params, args, bindings);
      Inside(field, ground, caller, inner, params, args, bindings)
  {
    hide Binds, Replacement, Denoted;
    forall kind, id, arg
      ensures Replacement(params, kind, id, args, bindings) == Some(arg) <==>
        Binds(params, kind, id, args, bindings, arg)
    {
      ReplacementIff(params, kind, id, args, bindings, arg);
    }
  }

  /** A key denotes inside what its substituted key denotes outside. */
  lemma SubstituteArgDenotes<Loc>(field: (Loc, string) -> Loc, outer: Roots<Loc>, inner: Roots<Loc>, params: Params,
                                  key: MemoryKey, args: seq<MemoryKey>, bindings: Bindings)
    requires Inside(field, outer, outer, inner, params, args, bindings)
    ensures Denoted(field, outer, SubstituteArg(params, key, args, bindings)) == Denoted(field, inner, key)
  {
    hide Binds, Replacement, SubstituteRoot;
    var r := Replacement(params, key.kind, key.rootID, args, bindings);
    forall arg
      ensures r == Some(arg) <==> Binds(params, key.kind, key.rootID, args, bindings, arg)
    {
      ReplacementIff(params, key.kind, key.rootID, args, bindings, arg);
    }
    if r.Some? {
      SubstituteRootDenotes(field, outer, inner, key, r.value);
    }
  }

  /** A substituted lock is that lock seen from outside, in its mode, where no root that carries
      the read-lock prefix is put in its place. */
  lemma SubstituteLockDenotes<Loc>(field: (Loc, string) -> Loc, outer: Roots<Loc>, inner: Roots<Loc>, params: Params,
                                   lock: MemoryKey, args: seq<MemoryKey>, bindings: Bindings)
    requires Inside(field, outer, outer, inner, params, args, bindings)
    requires forall arg ::
      Binds(params, lock.kind, LockBaseRootID(lock.rootID), args, bindings, arg) ==> !IsReadLock(arg)
    ensures var out := SubstituteLock(params, lock, args, bindings);
      && Denoted(field, outer, LockBase(out)) == Denoted(field, inner, LockBase(lock))
      && (IsReadLock(out) <==> IsReadLock(lock))
  {
    hide Binds, Replacement, Inside;
    var r := Replacement(params, lock.kind, LockBaseRootID(lock.rootID), args, bindings);
    SubstituteArgDenotes(field, outer, inner, params, LockBase(lock), args, bindings);
    SubstituteLockKeepsMode(params, lock, args, bindings);
    if r.Some? {
      ReplacementIff(params, lock.kind, LockBaseRootID(lock.rootID), args, bindings, r.value);
    }
    LockBaseOf(params, lock, args, bindings);
  }

  lemma LockBaseOf(params: Params, lock: MemoryKey, args: seq<MemoryKey>, bindings: Bindings)
    requires var r := Replacement(params, lock.kind, LockBaseRootID(lock.rootID), args, bindings);
      r.Some? ==> !IsReadLock(r.value)
    ensures LockBase(SubstituteLock(params, lock, args, bindings)) ==
      SubstituteArg(params, LockBase(lock), args, bindings)
  {
    hide Replacement;
    PrefixOfReadLock(LockBaseRootID(lock.rootID));
    var out := SubstituteLock(params, lock, args, bindings);
    PrefixOfReadLock(LockBaseRootID(out.rootID));
    PrefixOfReadLock(SubstituteArg(params, LockBase(lock), args, bindings).rootID);
  }

  /** mergeLocksets: base, then the keys of extra that are not there yet. */
  function MergeLocksets(base: seq<MemoryKey>, extra: seq<MemoryKey>): seq<MemoryKey> {
    if extra == [] then base
    else
      var merged := MergeLocksets(base, extra[..|extra| - 1]);
      var key := extra[|extra| - 1];
      if key in merged then merged else merged + [key]
  }

  lemma {:induction false} MergeLocksetsIsUnion(base: seq<MemoryKey>, extra: seq<MemoryKey>)
    ensures base <= MergeLocksets(base, extra)
    ensures forall k :: k in MergeLocksets(base, extra) <==> k in base || k in extra
  {
    if extra != [] {
      MergeLocksetsIsUnion(base, extra[..|extra| - 1]);
      assert extra == extra[..|extra| - 1] + [extra[|extra| - 1]];
    }
  }

  method MergeLocksetsLoop(base: seq<MemoryKey>, extra: seq<MemoryKey>) returns (out: seq<MemoryKey>)
    ensures out == MergeLocksets(base, extra)
  {
    out := base;
    for i := 0 to |extra|
      invariant out == MergeLocksets(base, extra[..i])
    {
      assert extra[..i + 1][..i] == extra[..i];
      var seen := false;
      for j := 0 to |out|
        invariant seen <==> extra[i] in out[..j]
      {
        if out[j] == extra[i] {
          seen := true;
          break;
        }
      }
      assert out[..|out|] == out;
      if !seen {
        out := out + [extra[i]];
      }
    }
    assert extra[..|extra|] == extra;
  }
}
