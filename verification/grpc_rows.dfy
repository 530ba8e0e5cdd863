/** The rows that keep gRPC endpoints (analyzer/storage.go): the short name travels behind
    a marker in the proto file's column, the implementations as lines of one text. */
module GrpcRows {
  import opened Texts

  datatype Endpoint = Endpoint(service: string, method_: string, fullMethod: string, rpcType: string, handler: string,
                               handlerType: string, serviceDesc: string, protoFile: string, shortName: string,
                               package: string, registered: bool, implementations: seq<string>, file: string, line: int)

  /** The columns of the conflict target. */
  datatype Key = Key(service: string, method_: string, rpcType: string, package: string, file: string, line: int)

  datatype Row = Row(fullPath: string, handlerPath: string, handlerType: string, serviceDesc: string, protoFile: string,
                     registered: int, implementations: string)

  const MARKER := "\nshort_name:"

  // ---------- Go's strings ----------

  predicate IsSpace(c: char) {
    var n := c as int;
    9 <= n <= 13 || n == 32 || n == 0x85 || n == 0xA0 || n == 0x1680 || 0x2000 <= n <= 0x200A ||
    n == 0x2028 || n == 0x2029 || n == 0x202F || n == 0x205F || n == 0x3000
  }

  function TrimLeft(s: string): string {
    if s != "" && IsSpace(s[0]) then TrimLeft(s[1..]) else s
  }

  function TrimRight(s: string): string {
    if s != "" && IsSpace(s[|s| - 1]) then TrimRight(s[..|s| - 1]) else s
  }

  function TrimSpace(s: string): string {
    TrimRight(TrimLeft(s))
  }

  predicate OccursAt(s: string, m: string, i: int) {
    0 <= i <= |s| - |m| && s[i..i + |m|] == m
  }

  predicate Contains(s: string, m: string) {
    exists i :: 0 <= i <= |s| && OccursAt(s, m, i)
  }

  /** The first place of m at or behind i, or -1. */
  function IndexFrom(s: string, m: string, i: nat): (at: int)
    ensures at == -1 || i <= at <= |s| - |m|
    decreases |s| - i
  {
    if i + |m| > |s| then -1 else if OccursAt(s, m, i) then i else IndexFrom(s, m, i + 1)
  }

  function Split(s: string, sep: char): (parts: seq<string>)
    ensures parts != []
  {
    if s == "" then [""]
    else if s[0] == sep then [""] + Split(s[1..], sep)
    else [[s[0]] + Split(s[1..], sep)[0]] + Split(s[1..], sep)[1..]
  }

  function Join(parts: seq<string>, sep: char): string {
    if parts == [] then "" else if |parts| == 1 then parts[0] else parts[0] + [sep] + Join(parts[1..], sep)
  }

  // ---------- one row ----------

  function ShortNameFromService(service: string): string {
    if service == "" then "" else var parts := Split(service, '.'); parts[|parts| - 1]
  }

  function KeyOf(e: Endpoint): Key {
    Key(e.service, e.method_, e.rpcType, e.package, e.file, e.line)
  }

  function RowOf(e: Endpoint): Row {
    var short := if e.shortName == "" then ShortNameFromService(e.service) else e.shortName;
    Row(e.fullMethod, e.handler, e.handlerType, e.serviceDesc,
        if short != "" then e.protoFile + MARKER + short else e.protoFile,
        if e.registered then 1 else 0, Join(e.implementations, '\n'))
  }

  function EndpointOf(key: Key, row: Row): Endpoint {
    var at := IndexFrom(row.protoFile, MARKER, 0);
    var proto := if at >= 0 then row.protoFile[..at] else row.protoFile;
    var stored := if at >= 0 then TrimSpace(row.protoFile[at + |MARKER|..]) else "";
    Endpoint(key.service, key.method_, row.fullPath, key.rpcType, row.handlerPath, row.handlerType, row.serviceDesc,
             proto,
             if stored == "" then ShortNameFromService(key.service) else stored, key.package, row.registered != 0,
             if TrimSpace(row.implementations) != "" then Split(row.implementations, '\n') else [], key.file, key.line)
  }

  // ---------- the marker ----------

  lemma {:induction false} IndexIsFirst(s: string, m: string, i: nat)
    ensures var at := IndexFrom(s, m, i);
      && (at >= 0 ==> at >= i && OccursAt(s, m, at))
      && forall j :: i <= j && (at < 0 || j < at) ==> !OccursAt(s, m, j)
    decreases |s| - i
  {
    if i + |m| <= |s| && !OccursAt(s, m, i) {
      IndexIsFirst(s, m, i + 1);
    }
  }

  /** The marker has its only newline at its head. */
  lemma NoNewlineInside(s: string, i: nat)
    requires OccursAt(s, MARKER, i)
    ensures forall j :: i < j < i + |MARKER| ==> s[j] != '\n'
  {
    forall j | i < j < i + |MARKER|
      ensures s[j] != '\n'
    {
      assert s[j] == s[i..i + |MARKER|][j - i] == MARKER[j - i];
    }
  }

  /** So it cannot lie across the end of a text and the marker that follows it. */
  lemma MarkerCannotStraddle(proto: string, tail: string, i: nat)
    requires i < |proto| && OccursAt(proto + MARKER + tail, MARKER, i)
    ensures OccursAt(proto, MARKER, i)
  {
    var s := proto + MARKER + tail;
    NoNewlineInside(s, i);
    assert s[|proto|] == MARKER[0] == '\n';
    assert s[i..i + |MARKER|] == proto[i..i + |MARKER|];
  }

  /** What is read from the proto column is what was written exactly when the text has no
      marker of its own. */
  lemma ProtoIff(proto: string, short: string)
    ensures var s := if short != "" then proto + MARKER + short else proto;
      var at := IndexFrom(s, MARKER, 0);
      && (Contains(proto, MARKER) <==> (if at >= 0 then s[..at] else s) != proto)
      && (!Contains(proto, MARKER) && short == "" ==> at < 0)
      && (!Contains(proto, MARKER) && short != "" ==> at >= 0 && s[at + |MARKER|..] == short)
  {
    var s := if short != "" then proto + MARKER + short else proto;
    var at := IndexFrom(s, MARKER, 0);
    IndexIsFirst(s, MARKER, 0);
    if Contains(proto, MARKER) {
      var i :| 0 <= i <= |proto| && OccursAt(proto, MARKER, i);
      assert s[i..i + |MARKER|] == proto[i..i + |MARKER|];
      assert OccursAt(s, MARKER, i);
    } else if short != "" {
      assert s[|proto|..|proto| + |MARKER|] == MARKER;
      assert OccursAt(s, MARKER, |proto|);
      if at < |proto| {
        MarkerCannotStraddle(proto, short, at);
      }
    }
  }

  // ---------- lines ----------

  lemma {:induction false} SplitOne(a: string, rest: string, sep: char)
    requires Free(a, sep)
    ensures Split(a, sep) == [a]
    ensures Split(a + [sep] + rest, sep) == [a] + Split(rest, sep)
  {
    var s := a + [sep] + rest;
    if a == "" {
      assert s[1..] == rest;
    } else {
      assert s[1..] == a[1..] + [sep] + rest && a == [a[0]] + a[1..];
      SplitOne(a[1..], rest, sep);
    }
  }

  lemma {:induction false} SplitJoin(parts: seq<string>, sep: char)
    requires parts != [] && forall p :: p in parts ==> Free(p, sep)
    ensures Split(Join(parts, sep), sep) == parts
  {
    if |parts| == 1 {
      SplitOne(parts[0], "", sep);
    } else {
      SplitOne(parts[0], Join(parts[1..], sep), sep);
      SplitJoin(parts[1..], sep);
    }
  }

  lemma {:induction false} SplitIsFree(s: string, sep: char)
    ensures forall p :: p in Split(s, sep) ==> Free(p, sep)
  {
    if s != "" {
      SplitIsFree(s[1..], sep);
      assert Split(s[1..], sep)[0] in Split(s[1..], sep);
    }
  }

  lemma {:induction false} SplitLast(before: string, name: string, sep: char)
    requires Free(name, sep)
    ensures var parts := Split(before + [sep] + name, sep);
      parts[|parts| - 1] == name
  {
    var s := before + [sep] + name;
    SplitOne(name, "", sep);
    if before == "" {
      assert s[1..] == name;
    } else {
      SplitLast(before[1..], name, sep);
      assert s[1..] == before[1..] + [sep] + name;
      SplitHasTwo(before[1..], name, sep);
    }
  }

  lemma {:induction false} SplitHasTwo(before: string, name: string, sep: char)
    ensures |Split(before + [sep] + name, sep)| >= 2
  {
    var s := before + [sep] + name;
    if before != "" && before[0] != sep {
      SplitHasTwo(before[1..], name, sep);
      assert s[1..] == before[1..] + [sep] + name;
    } else {
      assert s[0] == sep;
    }
  }

  /** The short name is what follows the last dot, or all of a name without one. */
  lemma ShortNameIsLast(before: string, name: string)
    requires Free(name, '.')
    ensures ShortNameFromService(before + "." + name) == name && ShortNameFromService(name) == name
  {
    SplitLast(before, name, '.');
    SplitOne(name, "", '.');
  }

  predicate Blank(s: string) {
    forall i :: 0 <= i < |s| ==> IsSpace(s[i])
  }

  lemma {:induction false} LeftBlank(s: string)
    ensures Blank(TrimLeft(s)) <==> Blank(s)
    ensures TrimLeft(s) == "" <==> Blank(s)
  {
    if s != "" && IsSpace(s[0]) {
      LeftBlank(s[1..]);
      assert forall i :: 1 <= i < |s| ==> s[i] == s[1..][i - 1];
    }
  }

  lemma {:induction false} RightBlank(s: string)
    ensures TrimRight(s) == "" <==> Blank(s)
  {
    if s != "" && IsSpace(s[|s| - 1]) {
      RightBlank(s[..|s| - 1]);
    }
  }

  lemma TrimBlank(s: string)
    ensures TrimSpace(s) == "" <==> Blank(s)
  {
    LeftBlank(s);
    RightBlank(TrimLeft(s));
  }

  lemma {:induction false} JoinBlank(parts: seq<string>)
    ensures Blank(Join(parts, '\n')) <==> forall p :: p in parts ==> Blank(p)
  {
    if |parts| > 1 {
      JoinBlank(parts[1..]);
      BlankConcat(parts[0], "\n");
      BlankConcat(parts[0] + "\n", Join(parts[1..], '\n'));
      assert parts == [parts[0]] + parts[1..];
    }
  }

  lemma BlankConcat(a: string, b: string)
    ensures Blank(a + b) <==> Blank(a) && Blank(b)
  {
    assert forall i :: 0 <= i < |b| ==> (a + b)[|a| + i] == b[i];
    assert forall i :: 0 <= i < |a| ==> (a + b)[i] == a[i];
  }

  /** The list comes back exactly when it is empty, or no part has a newline and not all
      parts are blank. */
  lemma LinesIff(parts: seq<string>)
    ensures var s := Join(parts, '\n');
      (if TrimSpace(s) != "" then Split(s, '\n') else []) == parts <==>
      parts == [] || ((forall p :: p in parts ==> Free(p, '\n')) && exists p :: p in parts && !Blank(p))
  {
    var s := Join(parts, '\n');
    TrimBlank(s);
    JoinBlank(parts);
    SplitIsFree(s, '\n');
    if parts != [] && forall p :: p in parts ==> Free(p, '\n') {
      SplitJoin(parts, '\n');
    }
  }

  // ---------- the round trip ----------

  /** The endpoint can be read back as it was stored. */
  predicate Storable(e: Endpoint) {
    && !Contains(e.protoFile, MARKER)
    && ((e.shortName != "" && e.shortName == TrimSpace(e.shortName)) ||
        (TrimSpace(e.shortName) == "" && e.shortName == ShortNameFromService(e.service)))
    && (e.implementations == [] ||
        ((forall p :: p in e.implementations ==> Free(p, '\n')) && exists p :: p in e.implementations && !Blank(p)))
  }

  lemma RoundTripIff(e: Endpoint)
    ensures EndpointOf(KeyOf(e), RowOf(e)) == e <==> Storable(e)
  {
    hide IndexFrom, Contains, TrimSpace, Split, Join, ShortNameFromService, Free, Blank;
    ProtoIff(e.protoFile, if e.shortName == "" then ShortNameFromService(e.service) else e.shortName);
    LinesIff(e.implementations);
    TrimEmpty();
  }

  lemma TrimEmpty()
    ensures TrimSpace("") == ""
  {
  }

  /** A proto file that holds the marker is cut there. */
  lemma MarkedProtoIsCut(e: Endpoint)
    requires e.protoFile == "a.proto" + MARKER + "b"
    ensures EndpointOf(KeyOf(e), RowOf(e)) != e
  {
    hide EndpointOf, RowOf, KeyOf;
    RoundTripIff(e);
    assert e.protoFile[7..7 + |MARKER|] == MARKER;
    assert OccursAt(e.protoFile, MARKER, 7);
  }

  // ---------- the table ----------

  function Upserted(rows: map<Key, Row>, es: seq<Endpoint>): map<Key, Row> {
    if es == [] then rows else Upserted(rows, es[..|es| - 1])[KeyOf(es[|es| - 1]) := RowOf(es[|es| - 1])]
  }

  class Table {
    var rows: map<Key, Row>

    method UpsertGRPCEndpoints(es: seq<Endpoint>)
      modifies this
      ensures rows == Upserted(old(rows), es)
    {
      assert es[..0] == [];
      for i := 0 to |es|
        invariant rows == Upserted(old(rows), es[..i])
      {
        rows := rows[KeyOf(es[i]) := RowOf(es[i])];
        assert es[..i + 1][..i] == es[..i];
      }
      assert es[..|es|] == es;
    }
  }

  ghost predicate LastOf(es: seq<Endpoint>, k: Key, i: nat) {
    i < |es| && KeyOf(es[i]) == k && forall j :: i < j < |es| ==> KeyOf(es[j]) != k
  }

  lemma {:induction false} LastOneIsKept(rows: map<Key, Row>, es: seq<Endpoint>, k: Key, i: nat)
    requires LastOf(es, k, i)
    ensures k in Upserted(rows, es) && Upserted(rows, es)[k] == RowOf(es[i])
  {
    hide RowOf, KeyOf;
    var front := es[..|es| - 1];
    if i < |front| {
      assert LastOf(front, k, i);
      LastOneIsKept(rows, front, k, i);
    }
  }

  lemma {:induction false} OthersStay(rows: map<Key, Row>, es: seq<Endpoint>, k: Key)
    requires forall i :: 0 <= i < |es| ==> KeyOf(es[i]) != k
    ensures k in Upserted(rows, es) <==> k in rows
    ensures k in rows ==> Upserted(rows, es)[k] == rows[k]
  {
    hide RowOf, KeyOf;
    if es != [] {
      OthersStay(rows, es[..|es| - 1], k);
    }
  }

  /** Of the endpoints with one key the last is kept, and comes back as it was exactly when
      it is storable. */
  lemma LastOneIsRead(rows: map<Key, Row>, es: seq<Endpoint>, k: Key, i: nat)
    requires LastOf(es, k, i)
    ensures k in Upserted(rows, es) && (EndpointOf(k, Upserted(rows, es)[k]) == es[i] <==> Storable(es[i]))
  {
    LastOneIsKept(rows, es, k, i);
    RoundTripIff(es[i]);
  }
}
