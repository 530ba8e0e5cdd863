/** Windows and cursor streaming over a result list (analyzer/query_options.go,
    analyzer/streaming.go). The text of a cursor (base64 of JSON), the hash behind a
    fingerprint and the environment are parameters; Go's 64-bit addition is not. */
module Streaming {
  import opened Wrappers
  import opened Texts

  const MAX_INT: int := 0x7fff_ffff_ffff_ffff
  const CURSOR_VERSION := 1
  const DEFAULT_MAX_CHUNK_SIZE := 50

  /** Go's int on a 64-bit machine. */
  type Int = x: int | -MAX_INT - 1 <= x <= MAX_INT

  /** The addition of two ints that are not negative: past the largest it wraps around. */
  function Add(a: Int, b: Int): Int
    requires a >= 0 && b >= 0
  {
    if a + b > MAX_INT then a + b - 0x1_0000_0000_0000_0000 else a + b
  }

  // ---------- options ----------

  /** What the text of a cursor stands for: the empty text, a text that does not decode, or
      a record, whoever wrote it. */
  datatype Cursor = NoCursor | Garbage | Token(version: Int, offset: Int, total: Int, fingerprint: string)

  datatype QueryOptions = QueryOptions(limit: Int, offset: Int, maxItems: Int, cursor: Cursor, chunkSize: Int)

  /** The environment's number, when it has one. */
  function EffectiveMaxChunkSize(env: Option<Int>): (cap: Int)
    ensures cap > 0
  {
    if env.Some? && env.value > 0 then env.value else DEFAULT_MAX_CHUNK_SIZE
  }

  function ClampChunkSize(n: Int, env: Option<Int>): Int {
    if n <= 0 then n else if n > EffectiveMaxChunkSize(env) then EffectiveMaxChunkSize(env) else n
  }

  function NotNegative(n: Int): Int {
    if n < 0 then 0 else n
  }

  function NormalizeQueryOptions(opts: QueryOptions, env: Option<Int>): QueryOptions {
    QueryOptions(NotNegative(opts.limit), NotNegative(opts.offset), NotNegative(opts.maxItems), opts.cursor,
                 ClampChunkSize(NotNegative(opts.chunkSize), env))
  }

  // ---------- the window ----------

  datatype Window<T> = Window(items: seq<T>, total: nat, truncated: bool)

  /** Where the window ends that begins at start. */
  function WindowEnd(total: Int, start: Int, maxItems: Int, limit: Int): (end: Int)
    requires 0 <= start <= total && maxItems >= 0 && limit >= 0
    ensures start <= end <= total
  {
    var capped := if maxItems > 0 && Add(start, maxItems) < total then Add(start, maxItems) else total;
    var limited := if limit > 0 && Add(start, limit) < capped then Add(start, limit) else capped;
    if limited < start then start else limited
  }

  function ApplyQueryWindow<T>(items: seq<T>, options: QueryOptions, env: Option<Int>): Window<T>
    requires |items| <= MAX_INT
  {
    var opts, total := NormalizeQueryOptions(options, env), |items|;
    if total == 0 then Window([], 0, false)
    else
      var start: Int := if opts.offset > total then total else opts.offset;
      var end := WindowEnd(total, start, opts.maxItems, opts.limit);
      Window(items[start..end], total, start > 0 || end < total)
  }

  /** The first n items, or all when n is zero or less. */
  function Take<T>(items: seq<T>, n: int): seq<T> {
    if 0 < n < |items| then items[..n] else items
  }

  function Drop<T>(items: seq<T>, n: int): seq<T> {
    if n <= 0 then items else if n < |items| then items[n..] else []
  }

  /** The sum of the offset and a bound is past the largest int. */
  predicate Wraps(offset: Int, bound: Int) {
    offset > 0 && bound > 0 && offset + bound > MAX_INT
  }

  /** How many of n items a bound leaves. */
  function Least(n: nat, bound: int): nat {
    if 0 < bound < n then bound else n
  }

  lemma WindowEndIs(total: Int, start: Int, maxItems: Int, limit: Int)
    requires 0 <= start <= total && maxItems >= 0 && limit >= 0
    ensures WindowEnd(total, start, maxItems, limit) ==
      if Wraps(start, maxItems) || Wraps(start, limit) then start
      else start + Least(Least(total - start, maxItems), limit)
  {
  }

  lemma TakeIsSlice<T>(items: seq<T>, start: nat, end: nat, bound: int)
    requires start <= end <= |items|
    ensures Take(items[start..end], bound) == items[start..start + Least(end - start, bound)]
  {
  }

  /** What the options ask for, as a part of the list. */
  lemma WantedIsSlice<T>(items: seq<T>, opts: QueryOptions)
    requires opts.offset < |items|
    ensures var start := NotNegative(opts.offset);
      Take(Take(Drop(items, opts.offset), opts.maxItems), opts.limit) ==
      items[start..start + Least(Least(|items| - start, NotNegative(opts.maxItems)), NotNegative(opts.limit))]
  {
    hide Take;
    var start := NotNegative(opts.offset);
    assert Drop(items, opts.offset) == items[start..|items|];
    TakeIsSlice(items, start, |items|, opts.maxItems);
    TakeIsSlice(items, start, start + Least(|items| - start, opts.maxItems), opts.limit);
  }

  /** The window is what the options ask for exactly when there is nothing past the offset
      or no sum wraps around; otherwise it is empty. Truncated says that something is
      missing. */
  lemma WindowIff<T>(items: seq<T>, opts: QueryOptions, env: Option<Int>)
    requires |items| <= MAX_INT
    ensures var w := ApplyQueryWindow(items, opts, env);
      && w.total == |items|
      && (w.truncated <==> |w.items| < |items|)
      && (w.items == Take(Take(Drop(items, opts.offset), opts.maxItems), opts.limit) <==>
          opts.offset >= |items| || (!Wraps(opts.offset, opts.maxItems) && !Wraps(opts.offset, opts.limit)))
      && (opts.offset < |items| && (Wraps(opts.offset, opts.maxItems) || Wraps(opts.offset, opts.limit)) ==>
         w.items == [])
  {
    hide WindowEnd, Take;
    if opts.offset >= |items| || items == [] {
      assert Drop(items, opts.offset) == [];
      TakeNothing<T>(opts.maxItems);
      TakeNothing<T>(opts.limit);
    } else {
      WindowEndIs(|items|, NotNegative(opts.offset), NotNegative(opts.maxItems), NotNegative(opts.limit));
      WantedIsSlice(items, opts);
    }
  }

  lemma TakeNothing<T>(bound: int)
    ensures Take<T>([], bound) == []
  {
  }

  // ---------- the stream ----------

  /** Fault is Go's panic on slice bounds that are out of range. */
  datatype Page<T> = Page(chunk: seq<T>, total: nat, next: Cursor, hasMore: bool) | Rejected(total: nat) | Fault

  /** decodeStreamCursor and the comparison after it. */
  predicate Accepts(cursor: Cursor, total: nat, fingerprint: string) {
    match cursor
    case NoCursor => true
    case Garbage => false
    case Token(version, _, t, f) => version == CURSOR_VERSION && f == fingerprint && t == total
  }

  /** Where an accepted cursor points: no offset is below zero or past the end. */
  function OffsetOf(cursor: Cursor, total: nat): nat {
    if !cursor.Token? || cursor.offset < 0 then 0 else if cursor.offset > total then total else cursor.offset
  }

  function PageEnd(total: Int, offset: Int, chunkSize: Int): (end: Int)
    requires 0 <= offset <= total
    ensures end <= total
  {
    if chunkSize > 0 && Add(offset, chunkSize) < total then Add(offset, chunkSize) else total
  }

  lemma PageEndIs(total: Int, offset: Int, chunkSize: Int)
    requires 0 <= offset <= total
    ensures PageEnd(total, offset, chunkSize) < offset <==> chunkSize > 0 && offset + chunkSize > MAX_INT
    ensures PageEnd(total, offset, chunkSize) >= offset ==>
      PageEnd(total, offset, chunkSize) == offset + Least(total - offset, chunkSize)
  {
  }

  function ApplyStreamWindow<T>(items: seq<T>, fingerprint: string, cursor: Cursor, size: Int,
                                env: Option<Int>): Page<T>
    requires |items| <= MAX_INT
  {
    var total, chunkSize := |items|, ClampChunkSize(size, env);
    if !Accepts(cursor, total, fingerprint) then Rejected(total)
    else
      var offset := OffsetOf(cursor, total);
      var end := PageEnd(total, offset, chunkSize);
      if end < offset then Fault
      else
        var next := if end < total then Token(CURSOR_VERSION, end, total, fingerprint) else NoCursor;
        Page(items[offset..end], total, next, end < total)
  }

  /** A cursor, even a forged one, is refused or leads to a part of the list that starts at
      its offset and is no longer than asked; the next cursor is accepted and points behind
      that part. The one fault is a chunk size so large that the sum wraps around. */
  lemma PageIsInBounds<T>(items: seq<T>, fingerprint: string, cursor: Cursor, size: Int, env: Option<Int>)
    requires |items| <= MAX_INT
    ensures var p := ApplyStreamWindow(items, fingerprint, cursor, size, env);
      var offset, chunkSize := OffsetOf(cursor, |items|), ClampChunkSize(size, env);
      && (!p.Fault? ==> p.total == |items|)
      && (p.Rejected? <==> !Accepts(cursor, |items|, fingerprint))
      && (p.Fault? <==> Accepts(cursor, |items|, fingerprint) && chunkSize > 0 && offset + chunkSize > MAX_INT)
      && (p.Page? ==>
          && items[offset..] == p.chunk + items[offset + |p.chunk|..]
          && (size > 0 ==> |p.chunk| <= size && |p.chunk| <= EffectiveMaxChunkSize(env))
          && (p.hasMore <==> offset + |p.chunk| < |items|)
          && (p.hasMore ==> size > 0 && |p.chunk| == chunkSize && Accepts(p.next, |items|, fingerprint)
                            && p.next.Token? && OffsetOf(p.next, |items|) == offset + |p.chunk|)
          && (!p.hasMore ==> p.next == NoCursor))
  {
    hide PageEnd, OffsetOf, EffectiveMaxChunkSize;
    var total, chunkSize := |items|, ClampChunkSize(size, env);
    OffsetIsWithin(cursor, total);
    PageEndIs(total, OffsetOf(cursor, total), chunkSize);
    var offset, end := OffsetOf(cursor, total), PageEnd(total, OffsetOf(cursor, total), chunkSize);
    if Accepts(cursor, total, fingerprint) && end >= offset {
      SliceApart(items, offset, end);
      IssuedPointsAt(end, total, fingerprint);
    }
  }

  lemma OffsetIsWithin(cursor: Cursor, total: nat)
    ensures OffsetOf(cursor, total) <= total
  {
  }

  lemma SliceApart<T>(items: seq<T>, a: nat, b: nat)
    requires a <= b <= |items|
    ensures items[a..] == items[a..b] + items[b..]
  {
  }

  lemma IssuedPointsAt(end: Int, total: Int, fingerprint: string)
    requires 0 <= end <= total
    ensures OffsetOf(Token(CURSOR_VERSION, end, total, fingerprint), total) == end
  {
  }

  /** The result of streamOrWindow, with the window's fields for a call without streaming. */
  datatype Answer<T> =
    | Answer(chunk: seq<T>, total: nat, truncated: bool, hasMore: bool, next: Cursor)
    | Refused(total: nat)
    | Crash

  /** A dataset as the fingerprint sees it. */
  datatype Identity = Identity(identifier: string, total: nat, first: string, last: string)

  function IdentityOf<T>(identifier: string, items: seq<T>, key: T -> string): Identity {
    if items == [] then Identity(identifier, 0, "", "")
    else Identity(identifier, |items|, key(items[0]), key(items[|items| - 1]))
  }

  const BAR := ['|']

  /** The text streamFingerprint hashes. */
  function Text(i: Identity): string {
    i.identifier + BAR + Itoa(i.total) + BAR + i.first + BAR + i.last
  }

  /** streamFingerprint; sha stands for the hash, cut off and in hex. */
  function Fingerprint<T>(sha: string -> string, identifier: string, items: seq<T>, key: T -> string): string {
    sha(Text(IdentityOf(identifier, items, key)))
  }

  function StreamOrWindow<T>(items: seq<T>, identifier: string, key: T -> string, sha: string -> string,
                             opts: QueryOptions, env: Option<Int>): Answer<T>
    requires |items| <= MAX_INT
  {
    var chunkSize := ClampChunkSize(opts.chunkSize, env);
    if chunkSize <= 0 then
      var w := ApplyQueryWindow(items, opts, env);
      Answer(w.items, w.total, w.truncated, false, NoCursor)
    else
      var shown := if opts.maxItems > 0 && |items| > opts.maxItems then items[..opts.maxItems] else items;
      match ApplyStreamWindow(shown, Fingerprint(sha, identifier, shown, key), opts.cursor, chunkSize, env)
      case Page(chunk, total, next, hasMore) => Answer(chunk, total, hasMore || opts.cursor != NoCursor, hasMore, next)
      case Rejected(total) => Refused(total)
      case Fault => Crash
  }

  // ---------- whole sessions ----------

  /** No chunk size the environment lets through can make a sum wrap around. */
  predicate Safe(total: int, env: Option<Int>) {
    total + EffectiveMaxChunkSize(env) <= MAX_INT
  }

  /** One call that streams: its chunk starts where the cursor points, is not empty unless
      nothing is left, and the next cursor points behind it. */
  lemma OneCall<T>(items: seq<T>, identifier: string, key: T -> string, sha: string -> string, opts: QueryOptions,
                   env: Option<Int>)
    requires |items| <= MAX_INT && Safe(|items|, env) && opts.chunkSize > 0
    ensures var shown := Take(items, opts.maxItems);
      var known := Fingerprint(sha, identifier, shown, key);
      var a, from := StreamOrWindow(items, identifier, key, sha, opts, env), OffsetOf(opts.cursor, |shown|);
      && (!Accepts(opts.cursor, |shown|, known) ==> a == Refused(|shown|))
      && (Accepts(opts.cursor, |shown|, known) ==>
          && a.Answer? && a.total == |shown|
          && from + |a.chunk| <= |shown|
          && shown[from..] == a.chunk + shown[from + |a.chunk|..]
          && |a.chunk| <= opts.chunkSize && |a.chunk| <= EffectiveMaxChunkSize(env)
          && (a.hasMore <==> from + |a.chunk| < |shown|)
          && (a.truncated <==> a.hasMore || opts.cursor != NoCursor)
          && (a.hasMore ==> |a.chunk| > 0)
          && (a.hasMore ==> Accepts(a.next, |shown|, known) && OffsetOf(a.next, |shown|) == from + |a.chunk|)
          && (!a.hasMore ==> a.next == NoCursor))
  {
    hide ApplyStreamWindow, Accepts, Fingerprint;
    var shown := Take(items, opts.maxItems);
    PageIsInBounds(shown, Fingerprint(sha, identifier, shown, key), opts.cursor, ClampChunkSize(opts.chunkSize, env),
                   env);
  }

  /** On a first streaming page, truncated says that items are missing, as it does for a
      window, unless maxItems cut the list to what fits into the page: then nothing says so. */
  lemma FirstPageTruncatedIff<T>(items: seq<T>, identifier: string, key: T -> string, sha: string -> string,
                                 opts: QueryOptions, env: Option<Int>)
    requires |items| <= MAX_INT && Safe(|items|, env) && opts.chunkSize > 0 && opts.cursor == NoCursor
    ensures var a := StreamOrWindow(items, identifier, key, sha, opts, env);
      && a.Answer?
      && ((a.truncated <==> |a.chunk| < |items|) <==>
         !(0 < opts.maxItems < |items| && opts.maxItems <= ClampChunkSize(opts.chunkSize, env)))
  {
    OneCall(items, identifier, key, sha, opts, env);
  }

  /** The pages a client gets that asks for sizes(i) items in call i and passes each next
      cursor back until there is no more. */
  function Read<T>(items: seq<T>, identifier: string, key: T -> string, sha: string -> string,
                   maxItems: Int, sizes: nat -> Int, env: Option<Int>, cursor: Cursor, i: nat): seq<seq<T>>
    requires |items| <= MAX_INT && Safe(|items|, env)
    requires forall j :: sizes(j) > 0
    requires Accepts(cursor, |Take(items, maxItems)|, Fingerprint(sha, identifier, Take(items, maxItems), key))
    decreases |Take(items, maxItems)| - OffsetOf(cursor, |Take(items, maxItems)|)
  {
    var opts := QueryOptions(0, 0, maxItems, cursor, sizes(i));
    OneCall(items, identifier, key, sha, opts, env);
    var a := StreamOrWindow(items, identifier, key, sha, opts, env);
    if !a.hasMore then [a.chunk]
    else [a.chunk] + Read(items, identifier, key, sha, maxItems, sizes, env, a.next, i + 1)
  }

  function Joined<T>(pages: seq<seq<T>>): seq<T> {
    if pages == [] then [] else pages[0] + Joined(pages[1..])
  }

  lemma JoinedCons<T>(page: seq<T>, pages: seq<seq<T>>)
    ensures Joined([page] + pages) == page + Joined(pages)
    ensures Joined([page]) == page
  {
    assert ([page] + pages)[1..] == pages && [page][1..] == [];
  }

  /** The pages are the rest of the shown list, in order, with nothing left out or given
      twice; each is as short as asked and within the cap, and only a stream over an empty
      rest has an empty page. */
  lemma {:induction false} ReadsTheRest<T>(items: seq<T>, identifier: string, key: T -> string, sha: string -> string,
                                           maxItems: Int, sizes: nat -> Int, env: Option<Int>, cursor: Cursor, i: nat)
    requires |items| <= MAX_INT && Safe(|items|, env)
    requires forall j :: sizes(j) > 0
    requires Accepts(cursor, |Take(items, maxItems)|, Fingerprint(sha, identifier, Take(items, maxItems), key))
    ensures var shown := Take(items, maxItems);
      var rest, pages := shown[OffsetOf(cursor, |shown|)..],
        Read(items, identifier, key, sha, maxItems, sizes, env, cursor, i);
      && Joined(pages) == rest
      && |pages| >= 1
      && (forall k :: 0 <= k < |pages| ==> |pages[k]| <= sizes(i + k) && |pages[k]| <= EffectiveMaxChunkSize(env))
      && (forall k :: 0 <= k < |pages| ==> |pages[k]| > 0 || rest == [])
    decreases |Take(items, maxItems)| - OffsetOf(cursor, |Take(items, maxItems)|)
  {
    hide StreamOrWindow, Accepts, OffsetOf, Take, EffectiveMaxChunkSize, Fingerprint, Safe, Joined;
    var shown := Take(items, maxItems);
    var from, opts := OffsetOf(cursor, |shown|), QueryOptions(0, 0, maxItems, cursor, sizes(i));
    OneCall(items, identifier, key, sha, opts, env);
    var a := StreamOrWindow(items, identifier, key, sha, opts, env);
    if a.hasMore {
      ReadsTheRest(items, identifier, key, sha, maxItems, sizes, env, a.next, i + 1);
      var more := Read(items, identifier, key, sha, maxItems, sizes, env, a.next, i + 1);
      JoinedCons(a.chunk, more);
    } else {
      JoinedCons(a.chunk, [[]]);
      assert shown[from + |a.chunk|..] == [];
    }
  }

  /** A stream from the start reads the first maxItems items, or all without that bound. */
  lemma ReadsAll<T>(items: seq<T>, identifier: string, key: T -> string, sha: string -> string,
                    maxItems: Int, sizes: nat -> Int, env: Option<Int>)
    requires |items| <= MAX_INT && Safe(|items|, env)
    requires forall j :: sizes(j) > 0
    ensures Joined(Read(items, identifier, key, sha, maxItems, sizes, env, NoCursor, 0)) ==
            if maxItems > 0 && maxItems < |items| then items[..maxItems] else items
  {
    hide Read;
    ReadsTheRest(items, identifier, key, sha, maxItems, sizes, env, NoCursor, 0);
  }

  // ---------- a dataset that changes ----------

  /** A cursor handed out over one list is accepted over another exactly when both shown
      lists have the same length and the same joined text. */
  lemma AcceptedIff<T>(items: seq<T>, identifier: string, changed: seq<T>, identifier': string, key: T -> string,
                       sha: string -> string, opts: QueryOptions, opts': QueryOptions, env: Option<Int>)
    requires |items| <= MAX_INT && |changed| <= MAX_INT && Safe(|items|, env) && Safe(|changed|, env)
    requires opts.chunkSize > 0 && opts'.chunkSize > 0
    requires forall x, y :: sha(x) == sha(y) ==> x == y
    requires var a := StreamOrWindow(items, identifier, key, sha, opts, env);
      a.Answer? && a.hasMore && opts'.cursor == a.next
    ensures var x, y := Take(items, opts.maxItems), Take(changed, opts'.maxItems);
      StreamOrWindow(changed, identifier', key, sha, opts', env).Answer? <==>
        |x| == |y| && Text(IdentityOf(identifier, x, key)) == Text(IdentityOf(identifier', y, key))
  {
    hide Text, IdentityOf;
    OneCall(items, identifier, key, sha, opts, env);
    OneCall(changed, identifier', key, sha, opts', env);
  }

  /** Without a bar in the keys the joined text tells all four parts apart. */
  lemma TextIff(i: Identity, j: Identity)
    requires Free(i.first, '|') && Free(i.last, '|') && Free(j.first, '|') && Free(j.last, '|')
    ensures Text(i) == Text(j) <==> i == j
  {
    hide Itoa;
    ItoaTells(i.total, j.total, '|');
    ItoaTells(j.total, i.total, '|');
    LastSeparator(i.identifier, Itoa(i.total), j.identifier, Itoa(j.total), '|');
    LastSeparator(i.identifier + BAR + Itoa(i.total), i.first, j.identifier + BAR + Itoa(j.total), j.first, '|');
    LastSeparator(i.identifier + BAR + Itoa(i.total) + BAR + i.first, i.last,
                  j.identifier + BAR + Itoa(j.total) + BAR + j.first, j.last, '|');
  }

  /** So where no key has a bar, exactly the same identifier, length, first and last key
      pass, whatever the identifiers look like. */
  lemma AcceptedFields<T>(items: seq<T>, identifier: string, changed: seq<T>, identifier': string, key: T -> string,
                          sha: string -> string, opts: QueryOptions, opts': QueryOptions, env: Option<Int>)
    requires |items| <= MAX_INT && |changed| <= MAX_INT && Safe(|items|, env) && Safe(|changed|, env)
    requires opts.chunkSize > 0 && opts'.chunkSize > 0
    requires forall x, y :: sha(x) == sha(y) ==> x == y
    requires forall item :: item in items || item in changed ==> Free(key(item), '|')
    requires var a := StreamOrWindow(items, identifier, key, sha, opts, env);
      a.Answer? && a.hasMore && opts'.cursor == a.next
    ensures var x, y := Take(items, opts.maxItems), Take(changed, opts'.maxItems);
      StreamOrWindow(changed, identifier', key, sha, opts', env).Answer? <==>
        IdentityOf(identifier, x, key) == IdentityOf(identifier', y, key)
  {
    hide Text, StreamOrWindow;
    var x, y := Take(items, opts.maxItems), Take(changed, opts'.maxItems);
    AcceptedIff(items, identifier, changed, identifier', key, sha, opts, opts', env);
    assert forall item :: item in x ==> item in items;
    assert forall item :: item in y ==> item in changed;
    TextIff(IdentityOf(identifier, x, key), IdentityOf(identifier', y, key));
  }

  /** A change between the first and the last item is not noticed. */
  lemma MiddleChangePasses(sha: string -> string, env: Option<Int>)
    requires Safe(3, env)
    ensures var before, after := ["a", "b", "c"], ["a", "x", "c"];
      var first := StreamOrWindow(before, "", (s: string) => s, sha, QueryOptions(0, 0, 0, NoCursor, 1), env);
      && first.Answer? && first.chunk == ["a"]
      && var second := StreamOrWindow(after, "", (s: string) => s, sha, QueryOptions(0, 0, 0, first.next, 1), env);
         second.Answer? && second.chunk == ["x"]
  {
    hide Text;
  }

  /** Nor is one of the first and the last key that moves a bar from one to the other. */
  lemma MovedBarPasses(sha: string -> string, env: Option<Int>)
    requires Safe(2, env)
    ensures var before, after := ["a|b", "c"], ["a", "b|c"];
      var first := StreamOrWindow(before, "", (s: string) => s, sha, QueryOptions(0, 0, 0, NoCursor, 1), env);
      && first.Answer? && first.chunk == ["a|b"]
      && var second := StreamOrWindow(after, "", (s: string) => s, sha, QueryOptions(0, 0, 0, first.next, 1), env);
         second.Answer? && second.chunk == ["b|c"]
  {
    hide Text;
    SameText();
  }

  lemma SameText()
    ensures Text(Identity("", 2, "a|b", "c")) == Text(Identity("", 2, "a", "b|c"))
  {
    assert "a|b" + BAR + "c" == "a" + BAR + "b|c";
  }

  // ---------- sums that wrap around ----------

  /** Everything from the second item on, asked for with the largest bound: nothing. */
  lemma LargestBoundEmptiesTheWindow(env: Option<Int>)
    ensures ApplyQueryWindow([1, 2, 3], QueryOptions(0, 1, MAX_INT, NoCursor, 0), env).items == []
    ensures ApplyQueryWindow([1, 2, 3], QueryOptions(MAX_INT, 1, 0, NoCursor, 0), env).items == []
  {
  }

  /** A stream whose second call asks for the largest chunk, where the environment lets it. */
  lemma LargestChunkFaults(sha: string -> string)
    ensures var first := StreamOrWindow(["a", "b"], "", (s: string) => s, sha, QueryOptions(0, 0, 0, NoCursor, 1),
                                        Some(MAX_INT));
      && first.Answer? && first.hasMore
      && StreamOrWindow(["a", "b"], "", (s: string) => s, sha, QueryOptions(0, 0, 0, first.next, MAX_INT),
                        Some(MAX_INT)) == Crash
  {
    hide Text;
  }
}
