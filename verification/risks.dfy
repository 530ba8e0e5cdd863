/** risksFromAccesses (analyzer/concurrency.go). */
module Risks {
  import opened MemoryKeys
  import opened Locksets
  import opened Texts

  datatype Level = High | Medium

  // Function, Reasoning and Anchor are texts built from the same two accesses.
  datatype Risk = Risk(level: Level, structName: string, field: string, fn: string, file: string, line: int)

  predicate MayRunConcurrently(a: Access, b: Access) {
    && !(a.goroutineID == "" && b.goroutineID == "")
    && !(a.goroutineID != "" && b.goroutineID != "" && a.goroutineID == b.goroutineID)
  }

  predicate RelatedRoots(a: MemoryKey, b: MemoryKey) {
    || (a.kind == b.kind && a.rootID == b.rootID)
    || (NormalizedRootID(a.rootID) != "" && NormalizedRootID(a.rootID) == NormalizedRootID(b.rootID))
  }

  predicate FieldPathsOverlap(a: seq<string>, b: seq<string>) {
    a <= b || b <= a
  }

  predicate SameOrUnknownMemory(a: MemoryKey, b: MemoryKey) {
    || a == b
    || ((a.kind == Unknown || b.kind == Unknown)
        && !(a.typeName != "" && b.typeName != "" && a.typeName != b.typeName)
        && RelatedRoots(a, b) && FieldPathsOverlap(a.fieldPath, b.fieldPath))
  }

  predicate HasRelevantLock(a: Access) {
    exists l :: l in a.lockset && !IsReadLock(l) && l.kind == a.key.kind && l.rootID == a.key.rootID
  }

  predicate IsSharedGoroutineAccess(a: Access) {
    && !(a.key.kind == Unknown && a.key.fieldPath == [])
    && a.key.kind != Alloc
  }

  /** An unlocked shared write in a goroutine, a risk by itself. */
  predicate LoneWrite(a: Access) {
    a.inGoroutine && a.kind == Write && !a.atomic && !HasRelevantLock(a) && IsSharedGoroutineAccess(a)
  }

  /** A pair that survives all the filters of the double loop. */
  predicate RacyPair(a: Access, b: Access) {
    && MayRunConcurrently(a, b)
    && (a.kind == Write || b.kind == Write)
    && SameOrUnknownMemory(a.key, b.key)
    && !(a.atomic && b.atomic)
    && !LocksetsProtect(a, b)
  }

  function LastField(path: seq<string>): string {
    if path == [] then "" else path[|path| - 1]
  }

  function AccessRisk(a: Access, other: Access): Risk {
    var unknown := a.key.kind == Unknown || other.key.kind == Unknown;
    var same := a.key == other.key && a.key.kind != Unknown;
    Risk(if unknown && !same then Medium else High,
         if a.key.typeName == "" then other.key.typeName else a.key.typeName,
         if a.key.fieldPath != [] then LastField(a.key.fieldPath) else LastField(other.key.fieldPath),
         a.fn, a.file, a.line)
  }

  /** The pair's risk is reported at a write. */
  function PairRisk(a: Access, b: Access): Risk {
    if a.kind == Write then AccessRisk(a, b) else AccessRisk(b, a)
  }

  lemma RacyPairSymmetric(a: Access, b: Access)
    ensures RacyPair(a, b) <==> RacyPair(b, a)
  {
    ProtectSymmetric(a, b);
  }

  /** Growing a lockset can only take pairs away. */
  lemma RacyPairShrinks(a: Access, b: Access, locks: seq<MemoryKey>)
    requires forall l :: l in a.lockset ==> l in locks
    requires RacyPair(a.(lockset := locks), b)
    ensures RacyPair(a, b)
  {
    if LocksetsProtect(a, b) {
      ProtectMonotone(a, b, locks);
    }
  }

  /** The risk of a pair stands at the site of one of its writes. */
  lemma PairRiskIsAtAWrite(a: Access, b: Access)
    requires RacyPair(a, b)
    ensures exists w ::
      (w == a || w == b) && w.kind == Write && PairRisk(a, b).file == w.file && PairRisk(a, b).line == w.line
  {
    var w := if a.kind == Write then a else b;
    assert w.kind == Write;
  }

  /** A risk is of medium level exactly when one of the two keys has an unknown root; a pair
      of known roots gives a risk of high level on the type and the field that both keys name. */
  lemma PairRiskSays(a: Access, b: Access)
    requires RacyPair(a, b)
    ensures PairRisk(a, b).level == Medium <==> a.key.kind == Unknown || b.key.kind == Unknown
    ensures a.key.kind != Unknown && b.key.kind != Unknown ==>
      && PairRisk(a, b).structName == a.key.typeName == b.key.typeName
      && a.key.fieldPath == b.key.fieldPath
      && (a.key.fieldPath != [] ==> PairRisk(a, b).field == a.key.fieldPath[|a.key.fieldPath| - 1])
  {
  }

  /** A write that holds the relevant lock is protected from whatever holds the same locks, in
      a mode that fits. */
  lemma RelevantLockProtects(a: Access, b: Access)
    requires a.kind == Write && HasRelevantLock(a)
    requires forall l :: l in a.lockset && !IsReadLock(l) && l.kind == a.key.kind && l.rootID == a.key.rootID ==>
      exists r :: r in b.lockset && SameLockKey(l, r) && (b.kind == Write ==> !IsReadLock(r))
    ensures LocksetsProtect(a, b) && !LoneWrite(a) && !RacyPair(a, b)
  {
    var l :| l in a.lockset && !IsReadLock(l) && l.kind == a.key.kind && l.rootID == a.key.rootID;
    var r :| r in b.lockset && SameLockKey(l, r) && (b.kind == Write ==> !IsReadLock(r));
    assert LockModesProtect(a.kind, l, b.kind, r);
  }

  // ---------- the report ----------

  /** Why a risk may be reported, when the first n accesses were checked alone and the
      pairs up to (i, j) were checked. */
  predicate PairBefore(p: int, q: int, i: int, j: int) {
    p < q && (p < i || (p == i && q < j))
  }

  ghost predicate FromLone(accesses: seq<Access>, n: nat, r: Risk) {
    exists p :: 0 <= p < n && p < |accesses| && LoneWrite(accesses[p]) && r == AccessRisk(accesses[p], accesses[p])
  }

  ghost predicate FromPair(accesses: seq<Access>, i: int, j: int, r: Risk) {
    exists p, q :: 0 <= p < |accesses| && 0 <= q < |accesses| && PairBefore(p, q, i, j)
      && RacyPair(accesses[p], accesses[q]) && r == PairRisk(accesses[p], accesses[q])
  }

  /** Every reported risk has a reason, and every reason's key is reported. */
  ghost predicate Explains(key: Risk -> string, accesses: seq<Access>, n: nat, i: int, j: int, risks: seq<Risk>) {
    && (forall r :: r in risks ==> FromLone(accesses, n, r) || FromPair(accesses, i, j, r))
    && (forall r :: FromLone(accesses, n, r) || FromPair(accesses, i, j, r) ==> KeyReported(key, risks, key(r)))
  }

  ghost predicate KeyReported(key: Risk -> string, risks: seq<Risk>, k: string) {
    exists r :: r in risks && key(r) == k
  }

  ghost predicate Keyed(key: Risk -> string, risks: seq<Risk>, seen: set<string>) {
    && (forall a, b :: 0 <= a < b < |risks| ==> key(risks[a]) != key(risks[b]))
    && (forall k :: k in seen <==> KeyReported(key, risks, k))
  }

  /** The seen-map guard around every append. */
  method AddRisk(key: Risk -> string, risks0: seq<Risk>, seen0: set<string>, r: Risk)
    returns (risks: seq<Risk>, seen: set<string>)
    requires Keyed(key, risks0, seen0)
    ensures Keyed(key, risks, seen) && KeyReported(key, risks, key(r))
    ensures risks == risks0 || risks == risks0 + [r]
  {
    risks, seen := risks0, seen0;
    if key(r) !in seen {
      seen := seen + {key(r)};
      risks := risks + [r];
      assert r in risks;
      forall k
        ensures k in seen <==> KeyReported(key, risks, k)
      {
        if KeyReported(key, risks0, k) {
          var s :| s in risks0 && key(s) == k;
          assert s in risks;
        }
      }
      forall a | 0 <= a < |risks0|
        ensures key(risks0[a]) != key(r)
      {
        assert KeyReported(key, risks0, key(risks0[a]));
      }
    }
  }

  lemma StillReported(key: Risk -> string, risks: seq<Risk>, more: seq<Risk>, k: string)
    requires KeyReported(key, risks, k) && risks <= more
    ensures KeyReported(key, more, k)
  {
    var r :| r in risks && key(r) == k;
    assert r in more;
  }

  /** One more reason, with its risk added: the report stays explained. */
  lemma ExplainsAdded(key: Risk -> string, accesses: seq<Access>, n: nat, i: int, j: int, n': nat, i': int, j': int,
                      risks: seq<Risk>, more: seq<Risk>, r: Risk)
    requires Explains(key, accesses, n, i, j, risks) && (more == risks || more == risks + [r])
    requires KeyReported(key, more, key(r))
    requires forall s :: FromLone(accesses, n', s) || FromPair(accesses, i', j', s) <==>
      FromLone(accesses, n, s) || FromPair(accesses, i, j, s) || s == r
    ensures Explains(key, accesses, n', i', j', more)
  {
    hide FromLone, FromPair, KeyReported;
    assert risks <= more;
    forall s | FromLone(accesses, n', s) || FromPair(accesses, i', j', s)
      ensures KeyReported(key, more, key(s))
    {
      if s != r {
        StillReported(key, risks, more, key(s));
      }
    }
  }

  lemma NextLone(accesses: seq<Access>, n: nat, s: Risk)
    requires n < |accesses|
    ensures FromLone(accesses, n + 1, s) <==>
      FromLone(accesses, n, s) || (LoneWrite(accesses[n]) && s == AccessRisk(accesses[n], accesses[n]))
  {
  }

  lemma NextPair(accesses: seq<Access>, i: int, j: int, s: Risk)
    requires 0 <= i < j < |accesses|
    ensures FromPair(accesses, i, j + 1, s) <==>
      FromPair(accesses, i, j, s) || (RacyPair(accesses[i], accesses[j]) && s == PairRisk(accesses[i], accesses[j]))
  {
    hide RacyPair, PairRisk;
    if FromPair(accesses, i, j + 1, s) {
      var p, q :| 0 <= p < |accesses| && 0 <= q < |accesses| && PairBefore(p, q, i, j + 1)
        && RacyPair(accesses[p], accesses[q]) && s == PairRisk(accesses[p], accesses[q]);
      if !(p == i && q == j) {
        assert PairBefore(p, q, i, j);
      }
    }
    if FromPair(accesses, i, j, s) {
      var p, q :| 0 <= p < |accesses| && 0 <= q < |accesses| && PairBefore(p, q, i, j)
        && RacyPair(accesses[p], accesses[q]) && s == PairRisk(accesses[p], accesses[q]);
      assert PairBefore(p, q, i, j + 1);
    }
    if RacyPair(accesses[i], accesses[j]) && s == PairRisk(accesses[i], accesses[j]) {
      assert PairBefore(i, j, i, j + 1);
    }
  }

  /** The end of a row is the start of the next. */
  lemma NextRow(accesses: seq<Access>, i: int, s: Risk)
    requires 0 <= i < |accesses|
    ensures FromPair(accesses, i, |accesses|, s) <==> FromPair(accesses, i + 1, i + 2, s)
  {
    hide RacyPair, PairRisk;
    forall p, q | 0 <= p < |accesses| && 0 <= q < |accesses|
      ensures PairBefore(p, q, i, |accesses|) <==> PairBefore(p, q, i + 1, i + 2)
    {
    }
  }

  lemma NothingYet(key: Risk -> string, accesses: seq<Access>)
    ensures Keyed(key, [], {}) && Explains(key, accesses, 0, 0, 1, [])
  {
  }

  lemma RowDone(key: Risk -> string, accesses: seq<Access>, i: int, risks: seq<Risk>)
    requires 0 <= i < |accesses| && Explains(key, accesses, |accesses|, i, |accesses|, risks)
    ensures Explains(key, accesses, |accesses|, i + 1, i + 2, risks)
  {
    hide FromLone, FromPair, KeyReported;
    forall s
      ensures FromPair(accesses, i, |accesses|, s) <==> FromPair(accesses, i + 1, i + 2, s)
    {
      NextRow(accesses, i, s);
    }
  }

  lemma AllDone(key: Risk -> string, accesses: seq<Access>, risks: seq<Risk>, seen: set<string>)
    requires Keyed(key, risks, seen) && Explains(key, accesses, |accesses|, |accesses|, |accesses| + 1, risks)
    ensures forall a, b :: 0 <= a < b < |risks| ==> key(risks[a]) != key(risks[b])
    ensures forall r :: r in risks ==> Justified(accesses, r)
    ensures forall r :: Justified(accesses, r) ==> KeyReported(key, risks, key(r))
  {
    hide RacyPair, LoneWrite, AccessRisk, PairRisk, KeyReported;
    forall s
      ensures FromLone(accesses, |accesses|, s) || FromPair(accesses, |accesses|, |accesses| + 1, s) <==>
        Justified(accesses, s)
    {
      if FromPair(accesses, |accesses|, |accesses| + 1, s) {
        var p, q :| 0 <= p < |accesses| && 0 <= q < |accesses| && PairBefore(p, q, |accesses|, |accesses| + 1)
          && RacyPair(accesses[p], accesses[q]) && s == PairRisk(accesses[p], accesses[q]);
        assert p < q;
      }
      if exists p, q ::
        0 <= p < q < |accesses| && RacyPair(accesses[p], accesses[q]) && s == PairRisk(accesses[p], accesses[q]) {
        var p, q :|
          0 <= p < q < |accesses| && RacyPair(accesses[p], accesses[q]) && s == PairRisk(accesses[p], accesses[q]);
        assert PairBefore(p, q, |accesses|, |accesses| + 1);
      }
    }
  }

  /** The body of the first loop. */
  method CheckAlone(key: Risk -> string, accesses: seq<Access>, n: nat, risks0: seq<Risk>, seen0: set<string>)
    returns (risks: seq<Risk>, seen: set<string>)
    requires n < |accesses| && Keyed(key, risks0, seen0) && Explains(key, accesses, n, 0, 1, risks0)
    ensures Keyed(key, risks, seen) && Explains(key, accesses, n + 1, 0, 1, risks)
  {
    hide FromLone, FromPair, KeyReported, LoneWrite, AccessRisk, Keyed;
    var a := accesses[n];
    forall s
      ensures FromLone(accesses, n + 1, s) <==> FromLone(accesses, n, s) || (LoneWrite(a) && s == AccessRisk(a, a))
    {
      NextLone(accesses, n, s);
    }
    risks, seen := risks0, seen0;
    if LoneWrite(a) {
      risks, seen := AddRisk(key, risks0, seen0, AccessRisk(a, a));
      ExplainsAdded(key, accesses, n, 0, 1, n + 1, 0, 1, risks0, risks, AccessRisk(a, a));
    }
  }

  /** The body of the double loop. */
  method CheckPair(key: Risk -> string, accesses: seq<Access>, i: nat, j: nat, risks0: seq<Risk>, seen0: set<string>)
    returns (risks: seq<Risk>, seen: set<string>)
    requires i < j < |accesses| && Keyed(key, risks0, seen0) && Explains(key, accesses, |accesses|, i, j, risks0)
    ensures Keyed(key, risks, seen) && Explains(key, accesses, |accesses|, i, j + 1, risks)
  {
    hide FromLone, FromPair, KeyReported, RacyPair, PairRisk, Keyed;
    var a, b := accesses[i], accesses[j];
    forall s
      ensures FromPair(accesses, i, j + 1, s) <==>
        FromPair(accesses, i, j, s) || (RacyPair(a, b) && s == PairRisk(a, b))
    {
      NextPair(accesses, i, j, s);
    }
    risks, seen := risks0, seen0;
    if RacyPair(a, b) {
      risks, seen := AddRisk(key, risks0, seen0, PairRisk(a, b));
      ExplainsAdded(key, accesses, |accesses|, i, j, |accesses|, i, j + 1, risks0, risks, PairRisk(a, b));
    }
  }

  /** An unlocked shared goroutine write, or a racy pair in list order, gives this risk. */
  ghost predicate Justified(accesses: seq<Access>, r: Risk) {
    || (exists p :: 0 <= p < |accesses| && LoneWrite(accesses[p]) && r == AccessRisk(accesses[p], accesses[p]))
    || (exists p, q ::
          0 <= p < q < |accesses| && RacyPair(accesses[p], accesses[q]) && r == PairRisk(accesses[p], accesses[q]))
  }

  // ---------- what the pairs mean ----------

  /** Two concurrent, conflicting accesses that some run has under way at once. */
  ghost predicate Race(a: Access, b: Access) {
    && MayRunConcurrently(a, b)
    && (a.kind == Write || b.kind == Write)
    && SameOrUnknownMemory(a.key, b.key)
    && !(a.atomic && b.atomic)
    && CanOverlap(a, b)
  }

  /** For well-locked accesses the locksets decide the matter. */
  lemma RacyPairIff(a: Access, b: Access)
    requires WellLocked(a) && WellLocked(b)
    ensures RacyPair(a, b) <==> Race(a, b)
  {
    hide LocksetsProtect, CanOverlap, WellLocked, SameOrUnknownMemory;
    if a.kind == Write || b.kind == Write {
      ProtectIff(a, b);
    }
  }

  /** A lone write or a race gives this risk. */
  ghost predicate Founded(accesses: seq<Access>, r: Risk) {
    || (exists p :: 0 <= p < |accesses| && LoneWrite(accesses[p]) && r == AccessRisk(accesses[p], accesses[p]))
    || (exists p, q ::
          0 <= p < q < |accesses| && Race(accesses[p], accesses[q]) && r == PairRisk(accesses[p], accesses[q]))
  }

  /** A pair that no run has under way at once gives no risk of its own, and each other pair does. */
  lemma JustifiedIff(accesses: seq<Access>, r: Risk)
    requires forall a :: a in accesses ==> WellLocked(a)
    ensures Justified(accesses, r) <==> Founded(accesses, r)
  {
    hide RacyPair, Race, LoneWrite, AccessRisk, PairRisk, WellLocked;
    forall p, q | 0 <= p < q < |accesses|
      ensures RacyPair(accesses[p], accesses[q]) <==> Race(accesses[p], accesses[q])
    {
      RacyPairIff(accesses[p], accesses[q]);
    }
  }

  /** All accesses are atomic, or all are reads, or none is in a goroutine. */
  predicate Harmless(accesses: seq<Access>) {
    || (forall a :: a in accesses ==> a.atomic)
    || (forall a :: a in accesses ==> a.kind == Read)
    || (forall a :: a in accesses ==> a.goroutineID == "" && !a.inGoroutine)
  }

  lemma HarmlessIsSilent(accesses: seq<Access>, r: Risk)
    requires Harmless(accesses)
    ensures !Justified(accesses, r)
  {
    hide AccessRisk, PairRisk, LocksetsProtect, SameOrUnknownMemory, HasRelevantLock;
  }

  // ---------- the key of a risk ----------

  function LevelText(level: Level): string {
    if level == High then "High" else "Medium"
  }

  /** The text by which two risks are told apart. */
  function KeyText(r: Risk): string {
    r.file + [':'] + Itoa(r.line) + [':'] + LevelText(r.level) + [':'] + r.structName + [':'] + r.field
  }

  /** Names without a colon, as Go's are. */
  predicate PlainNames(a: Access) {
    Free(a.key.typeName, ':') && forall f :: f in a.key.fieldPath ==> Free(f, ':')
  }

  /** With plain names the text tells risks apart, apart from the function they name. */
  lemma KeyTextIff(r: Risk, s: Risk)
    requires Free(r.structName, ':') && Free(r.field, ':') && Free(s.structName, ':') && Free(s.field, ':')
    ensures KeyText(r) == KeyText(s) <==> r == s.(fn := r.fn)
  {
    hide Itoa, Free;
    var file, file' := r.file + [':'] + Itoa(r.line), s.file + [':'] + Itoa(s.line);
    var level, level' := file + [':'] + LevelText(r.level), file' + [':'] + LevelText(s.level);
    LevelTells(r.level, s.level);
    ItoaTells(r.line, s.line, ':');
    ItoaTells(s.line, r.line, ':');
    LastSeparator(r.file, Itoa(r.line), s.file, Itoa(s.line), ':');
    LastSeparator(file, LevelText(r.level), file', LevelText(s.level), ':');
    LastSeparator(level, r.structName, level', s.structName, ':');
    LastSeparator(level + [':'] + r.structName, r.field, level' + [':'] + s.structName, s.field, ':');
  }

  lemma LevelTells(a: Level, b: Level)
    ensures LevelText(a) == LevelText(b) <==> a == b
    ensures Free(LevelText(a), ':') && Free(LevelText(b), ':')
  {
  }

  lemma PlainRisk(a: Access, b: Access)
    requires PlainNames(a) && PlainNames(b)
    ensures Free(AccessRisk(a, b).structName, ':') && Free(AccessRisk(a, b).field, ':')
  {
  }

  lemma JustifiedIsPlain(accesses: seq<Access>, r: Risk)
    requires Justified(accesses, r) && forall a :: a in accesses ==> PlainNames(a)
    ensures Free(r.structName, ':') && Free(r.field, ':')
  {
    hide RacyPair, LoneWrite, AccessRisk, Free, PlainNames;
    if p :| 0 <= p < |accesses| && LoneWrite(accesses[p]) && r == AccessRisk(accesses[p], accesses[p]) {
      PlainRisk(accesses[p], accesses[p]);
    } else {
      var p, q :|
        0 <= p < q < |accesses| && RacyPair(accesses[p], accesses[q]) && r == PairRisk(accesses[p], accesses[q]);
      PlainRisk(accesses[p], accesses[q]);
      PlainRisk(accesses[q], accesses[p]);
    }
  }

  /** The report keeps for every reason its risk, up to the function it names. */
  lemma ReasonIsReported(accesses: seq<Access>, risks: seq<Risk>, s: Risk)
    requires forall a :: a in accesses ==> PlainNames(a)
    requires forall r :: r in risks ==> Justified(accesses, r)
    requires Justified(accesses, s) && KeyReported(KeyText, risks, KeyText(s))
    ensures exists r :: r in risks && s == r.(fn := s.fn)
  {
    hide Justified, KeyText, PlainNames;
    var r :| r in risks && KeyText(r) == KeyText(s);
    JustifiedIsPlain(accesses, r);
    JustifiedIsPlain(accesses, s);
    KeyTextIff(s, r);
  }

  ghost predicate ReportedAt(risks: seq<Risk>, a: Access) {
    exists r :: r in risks && r.file == a.file && r.line == a.line
  }

  /** A risk stands at a write of the pair. */
  ghost predicate ReportedAtAWrite(risks: seq<Risk>, a: Access, b: Access) {
    (a.kind == Write && ReportedAt(risks, a)) || (b.kind == Write && ReportedAt(risks, b))
  }

  /** Every lone write has a risk at its site, and every racy pair one at a write of it. */
  lemma SitesAreReported(accesses: seq<Access>, risks: seq<Risk>)
    requires forall a :: a in accesses ==> PlainNames(a)
    requires forall r :: r in risks ==> Justified(accesses, r)
    requires forall r :: Justified(accesses, r) ==> KeyReported(KeyText, risks, KeyText(r))
    ensures forall a :: a in accesses && LoneWrite(a) ==> ReportedAt(risks, a)
    ensures forall p, q :: 0 <= p < q < |accesses| && RacyPair(accesses[p], accesses[q]) ==>
      ReportedAtAWrite(risks, accesses[p], accesses[q])
  {
    hide RacyPair, LoneWrite, AccessRisk, PlainNames, KeyReported, KeyText, Justified;
    forall a | a in accesses && LoneWrite(a)
      ensures ReportedAt(risks, a)
    {
      LoneIsJustified(accesses, a);
      ReasonIsReported(accesses, risks, AccessRisk(a, a));
      RiskSite(a, a);
    }
    forall p, q | 0 <= p < q < |accesses| && RacyPair(accesses[p], accesses[q])
      ensures ReportedAtAWrite(risks, accesses[p], accesses[q])
    {
      RacyIsJustified(accesses, p, q);
      ReasonIsReported(accesses, risks, PairRisk(accesses[p], accesses[q]));
      PairRiskIsAtAWrite(accesses[p], accesses[q]);
    }
  }

  lemma RiskSite(a: Access, b: Access)
    ensures AccessRisk(a, b).file == a.file && AccessRisk(a, b).line == a.line
  {
  }

  lemma LoneIsJustified(accesses: seq<Access>, a: Access)
    requires a in accesses && LoneWrite(a)
    ensures Justified(accesses, AccessRisk(a, a))
  {
    hide LoneWrite, AccessRisk, RacyPair;
    var p :| 0 <= p < |accesses| && accesses[p] == a;
  }

  /** risksFromAccesses. The report covers every lone write and every racy pair up to the
      key text, holds nothing else, and no two of its risks share a text; with plain names
      each of these has a risk at its site, a pair at one of its writes, and of well-locked
      accesses the racy pairs are those that some run has under way at once. */
  method RisksFromAccesses(accesses: seq<Access>) returns (risks: seq<Risk>)
    ensures forall a, b :: 0 <= a < b < |risks| ==> KeyText(risks[a]) != KeyText(risks[b])
    ensures forall r :: r in risks ==> Justified(accesses, r)
    ensures forall r :: Justified(accesses, r) ==> KeyReported(KeyText, risks, KeyText(r))
    ensures (forall a :: a in accesses ==> PlainNames(a)) ==>
      && (forall a :: a in accesses && LoneWrite(a) ==> ReportedAt(risks, a))
      && (forall p, q :: 0 <= p < q < |accesses| && RacyPair(accesses[p], accesses[q]) ==>
            ReportedAtAWrite(risks, accesses[p], accesses[q]))
    ensures (forall a :: a in accesses ==> WellLocked(a)) ==>
      && (forall r :: r in risks ==> Founded(accesses, r))
      && (forall r :: Founded(accesses, r) ==> KeyReported(KeyText, risks, KeyText(r)))
    ensures Harmless(accesses) ==> risks == []
  {
    hide FromLone, FromPair, KeyReported, RacyPair, LoneWrite, AccessRisk, PairRisk, Keyed, Explains, Justified;
    hide KeyText, PlainNames, ReportedAt, ReportedAtAWrite, WellLocked, Founded, Harmless;
    risks := [];
    var seen: set<string> := {};
    NothingYet(KeyText, accesses);
    for n := 0 to |accesses|
      invariant Keyed(KeyText, risks, seen) && Explains(KeyText, accesses, n, 0, 1, risks)
    {
      risks, seen := CheckAlone(KeyText, accesses, n, risks, seen);
    }
    for i := 0 to |accesses|
      invariant Keyed(KeyText, risks, seen) && Explains(KeyText, accesses, |accesses|, i, i + 1, risks)
    {
      for j := i + 1 to |accesses|
        invariant Keyed(KeyText, risks, seen) && Explains(KeyText, accesses, |accesses|, i, j, risks)
      {
        risks, seen := CheckPair(KeyText, accesses, i, j, risks, seen);
      }
      RowDone(KeyText, accesses, i, risks);
    }
    AllDone(KeyText, accesses, risks, seen);
    if forall a :: a in accesses ==> PlainNames(a) {
      SitesAreReported(accesses, risks);
    }
    if forall a :: a in accesses ==> WellLocked(a) {
      forall r
        ensures Justified(accesses, r) <==> Founded(accesses, r)
      {
        JustifiedIff(accesses, r);
      }
    }
    if Harmless(accesses) && risks != [] {
      HarmlessIsSilent(accesses, risks[0]);
    }
  }

  lemma RacyIsJustified(accesses: seq<Access>, p: nat, q: nat)
    requires p < q < |accesses|
    ensures RacyPair(accesses[p], accesses[q]) ==> Justified(accesses, PairRisk(accesses[p], accesses[q]))
  {
    hide RacyPair, PairRisk, LoneWrite;
  }

  /** What silence means: when no risk carries the key of a concurrent, conflicting pair
      that is not atomic on both sides, no run that respects the locksets has the two
      accesses under way at the same time. */
  lemma SilenceMeansExclusion(key: Risk -> string, accesses: seq<Access>, risks: seq<Risk>, p: nat, q: nat,
                              run: seq<Action>, t: Thread, u: Thread)
    requires forall r :: Justified(accesses, r) ==> KeyReported(key, risks, key(r))
    requires p < q < |accesses| && !KeyReported(key, risks, key(PairRisk(accesses[p], accesses[q])))
    requires MayRunConcurrently(accesses[p], accesses[q]) && SameOrUnknownMemory(accesses[p].key, accesses[q].key)
    requires accesses[p].kind == Write || accesses[q].kind == Write
    requires !(accesses[p].atomic && accesses[q].atomic)
    requires t != u && t in Exec(run).running && u in Exec(run).running
    ensures !(Exec(run).running[t] == accesses[p] && Exec(run).running[u] == accesses[q])
  {
    hide KeyReported, AccessRisk, LoneWrite, SameOrUnknownMemory, LocksetsProtect, Exec;
    RacyIsJustified(accesses, p, q);
    if Exec(run).running[t].kind == Write || Exec(run).running[u].kind == Write {
      ProtectedPairsExclude(run, t, u);
    }
  }

  /** The same by site: where no risk stands at a write of such a pair, the two accesses are
      never under way at the same time. */
  lemma QuietSitesExclude(accesses: seq<Access>, risks: seq<Risk>, p: nat, q: nat,
                          run: seq<Action>, t: Thread, u: Thread)
    requires p < q < |accesses|
    requires RacyPair(accesses[p], accesses[q]) ==> ReportedAtAWrite(risks, accesses[p], accesses[q])
    requires !ReportedAtAWrite(risks, accesses[p], accesses[q])
    requires MayRunConcurrently(accesses[p], accesses[q]) && SameOrUnknownMemory(accesses[p].key, accesses[q].key)
    requires accesses[p].kind == Write || accesses[q].kind == Write
    requires !(accesses[p].atomic && accesses[q].atomic)
    requires t != u && t in Exec(run).running && u in Exec(run).running
    ensures !(Exec(run).running[t] == accesses[p] && Exec(run).running[u] == accesses[q])
  {
    hide ReportedAtAWrite, SameOrUnknownMemory, LocksetsProtect, Exec;
    if Exec(run).running[t].kind == Write || Exec(run).running[u].kind == Write {
      ProtectedPairsExclude(run, t, u);
    }
  }
}
