/** The symbol table and its shadow vector index (analyzer/storage.go). Tables are maps;
    a store method is one atomic step. */
module VectorIndex {
  import opened Wrappers
  import opened Embeddings

  type Id = string

  /** A code symbol; attrs are the columns that are only stored. */
  datatype Symbol = Symbol(id: Id, attrs: string, lines: (int, int), source: string, embedding: seq<Byte>)

  datatype SymbolHash = SymbolHash(id: Id, sourceHash: string, version: int)

  const DEFAULT_DIMENSION := 16

  /** The tables: code_symbols, symbol_hashes, code_symbol_vec_map with its next row ID,
      and code_symbol_vec with its recorded dimension. */
  datatype Tables = Tables(
    symbols: map<Id, Symbol>, hashes: map<Id, SymbolHash>,
    rowOf: map<Id, nat>, nextRow: nat,
    vectors: map<nat, seq<Float>>, dimension: Option<nat>)

  const EMPTY := Tables(map[], map[], map[], 0, map[], None)

  // ---------- the invariant ----------

  ghost predicate RowsDistinct(t: Tables) {
    && (forall a, b :: a in t.rowOf && b in t.rowOf && t.rowOf[a] == t.rowOf[b] ==> a == b)
    && (forall a :: a in t.rowOf ==> t.rowOf[a] < t.nextRow)
  }

  predicate HasVector(t: Tables, id: Id) {
    id in t.rowOf && t.rowOf[id] in t.vectors
  }

  /** The symbol's stored embedding has the index's dimension. */
  predicate Indexable(t: Tables, id: Id) {
    id in t.symbols && t.dimension.Some? && |Decode(t.symbols[id].embedding)| == t.dimension.value
  }

  /** id's vector row is there exactly when it should be, and holds the stored vector. */
  ghost predicate Agrees(t: Tables, id: Id) {
    (HasVector(t, id) <==> Indexable(t, id)) &&
      (HasVector(t, id) ==> t.vectors[t.rowOf[id]] == Decode(t.symbols[id].embedding))
  }

  ghost predicate Owned(t: Tables, r: nat) {
    exists id :: id in t.rowOf && t.rowOf[id] == r
  }

  ghost predicate RowsOwned(t: Tables) {
    && (forall r {:trigger Owned(t, r)} :: r in t.vectors ==> Owned(t, r))
    && (forall r :: r in t.vectors ==> r < t.nextRow)
  }

  /** Before the first dimension is set there is nothing to index. */
  ghost predicate DimensionSet(t: Tables) {
    && (t.dimension.Some? ==> t.dimension.value > 0)
    && (forall id :: id in t.symbols && Decode(t.symbols[id].embedding) != [] ==> t.dimension.Some?)
  }

  /** The vector table holds exactly one row, with the stored vector, for each symbol
      whose embedding has the current dimension. */
  ghost predicate Indexed(t: Tables) {
    RowsDistinct(t) && RowsOwned(t) && DimensionSet(t) && forall id :: Agrees(t, id)
  }

  // ---------- one symbol ----------

  function WithRow(t: Tables, id: Id): Tables {
    if id in t.rowOf then t else t.(rowOf := t.rowOf[id := t.nextRow], nextRow := t.nextRow + 1)
  }

  function WithVector(t: Tables, id: Id, vec: seq<Float>): Tables {
    var u := WithRow(t, id);
    u.(vectors := u.vectors[u.rowOf[id] := vec])
  }

  /** The embedding upsertSymbolsTx stores: a symbol with source but no embedding gets
      the deterministic one. */
  function Filled(det: string -> seq<Float>, s: Symbol): Symbol {
    if |s.embedding| == 0 && s.source != "" then s.(embedding := Encode(det(s.source))) else s
  }

  /** The deterministic embedding has 16 entries. */
  ghost predicate Deterministic(det: string -> seq<Float>) {
    forall source :: |det(source)| == DEFAULT_DIMENSION
  }

  /** upsertSymbolsTx for one symbol; None when the vector table refuses the vector's length. */
  function UpsertOne(det: string -> seq<Float>, t: Tables, s: Symbol): Option<Tables> {
    var f := Filled(det, s);
    var vec := Decode(f.embedding);
    var u := t.(symbols := t.symbols[s.id := f]);
    if vec == [] then Some(u)
    else if t.dimension == Some(|vec|) then Some(WithVector(u, s.id, vec))
    else None
  }

  function UpsertAll(det: string -> seq<Float>, t: Tables, symbols: seq<Symbol>): Option<Tables> {
    if symbols == [] then Some(t)
    else
      var u := UpsertAll(det, t, symbols[..|symbols| - 1]);
      if u.None? then None else UpsertOne(det, u.value, symbols[|symbols| - 1])
  }

  /** After filling in, the symbol has an embedding that decodes. */
  predicate Embeds(det: string -> seq<Float>, s: Symbol) {
    Decode(Filled(det, s).embedding) != []
  }

  lemma WithRowDistinct(t: Tables, id: Id)
    requires RowsDistinct(t)
    ensures RowsDistinct(WithRow(t, id)) && id in WithRow(t, id).rowOf
    ensures forall a :: a in t.rowOf ==> a in WithRow(t, id).rowOf && WithRow(t, id).rowOf[a] == t.rowOf[a]
  {
  }

  lemma WithVectorRows(t: Tables, id: Id, vec: seq<Float>)
    requires RowsDistinct(t) && RowsOwned(t)
    ensures RowsDistinct(WithVector(t, id, vec)) && RowsOwned(WithVector(t, id, vec))
  {
    WithRowDistinct(t, id);
    var u, v := WithRow(t, id), WithVector(t, id, vec);
    assert v.rowOf == u.rowOf && v.nextRow == u.nextRow;
    hide WithRow;
    assert Owned(v, u.rowOf[id]);
    forall r | r in t.vectors
      ensures Owned(v, r)
    {
      assert Owned(t, r);
      var a :| a in t.rowOf && t.rowOf[a] == r;
      assert a in u.rowOf && u.rowOf[a] == r;
    }
  }

  lemma WithVectorOthers(t: Tables, id: Id, vec: seq<Float>, a: Id)
    requires RowsDistinct(t) && RowsOwned(t) && a != id
    ensures var u := WithVector(t, id, vec);
      && (HasVector(u, a) <==> HasVector(t, a))
      && (HasVector(t, a) ==> u.vectors[u.rowOf[a]] == t.vectors[t.rowOf[a]])
  {
  }

  lemma WithVectorSelf(t: Tables, id: Id, vec: seq<Float>)
    ensures var u := WithVector(t, id, vec);
      && HasVector(u, id) && u.vectors[u.rowOf[id]] == vec
      && u.symbols == t.symbols && u.dimension == t.dimension && u.hashes == t.hashes
  {
  }

  lemma RowsUnchanged(t: Tables, u: Tables)
    requires u.rowOf == t.rowOf && u.nextRow == t.nextRow && u.vectors == t.vectors
    requires RowsDistinct(t) && RowsOwned(t)
    ensures RowsDistinct(u) && RowsOwned(u)
  {
    forall r | r in u.vectors
      ensures Owned(u, r)
    {
      assert Owned(t, r);
    }
  }

  lemma HasVectorUnchanged(t: Tables, u: Tables, id: Id)
    requires u.rowOf == t.rowOf && u.vectors == t.vectors
    ensures HasVector(u, id) <==> HasVector(t, id)
    ensures HasVector(t, id) ==> u.vectors[u.rowOf[id]] == t.vectors[t.rowOf[id]]
  {
  }

  // ---------- batches ----------

  /** ensureVectorTableForSymbols: the dimension the first symbol that has one asks for. */
  function BatchDimension(symbols: seq<Symbol>): nat {
    if symbols == [] then 0
    else if Decode(symbols[0].embedding) != [] then |Decode(symbols[0].embedding)|
    else if symbols[0].source != "" then DEFAULT_DIMENSION
    else BatchDimension(symbols[1..])
  }

  function FillAll(det: string -> seq<Float>, symbols: seq<Symbol>): (out: seq<Symbol>)
    ensures |out| == |symbols|
  {
    seq(|symbols|, i requires 0 <= i < |symbols| => Filled(det, symbols[i]))
  }

  /** code_symbols after the batch. */
  function Put(det: string -> seq<Float>, m: map<Id, Symbol>, symbols: seq<Symbol>): map<Id, Symbol> {
    if symbols == [] then m
    else
      var s := symbols[|symbols| - 1];
      Put(det, m, symbols[..|symbols| - 1])[s.id := Filled(det, s)]
  }

  /** The last symbol of an ID is stored as it is, but one with a source and no embedding
      gets the deterministic one. */
  lemma {:induction false} StoredEmbedding(det: string -> seq<Float>, m: map<Id, Symbol>, symbols: seq<Symbol>, i: nat)
    requires i < |symbols| && forall j :: i < j < |symbols| ==> symbols[j].id != symbols[i].id
    ensures var s := symbols[i];
      && s.id in Put(det, m, symbols)
      && var stored := Put(det, m, symbols)[s.id];
        && (s.embedding != [] || s.source == "" ==> stored == s)
        && (s.embedding == [] && s.source != "" ==>
              stored == s.(embedding := stored.embedding) && Decode(stored.embedding) == det(s.source))
  {
    hide Decode, Encode;
    if i == |symbols| - 1 {
      DecodeEncode(det(symbols[i].source));
    } else {
      StoredEmbedding(det, m, symbols[..|symbols| - 1], i);
    }
  }

  lemma UpsertOneSymbols(det: string -> seq<Float>, t: Tables, s: Symbol)
    requires UpsertOne(det, t, s).Some?
    ensures var u := UpsertOne(det, t, s).value;
      u.symbols == t.symbols[s.id := Filled(det, s)] && u.dimension == t.dimension && u.hashes == t.hashes
  {
    hide Decode, Filled;
  }

  lemma {:induction false} UpsertAllSymbols(det: string -> seq<Float>, t: Tables, symbols: seq<Symbol>)
    requires UpsertAll(det, t, symbols).Some?
    ensures UpsertAll(det, t, symbols).value.symbols == Put(det, t.symbols, symbols)
    ensures UpsertAll(det, t, symbols).value.dimension == t.dimension &&
      UpsertAll(det, t, symbols).value.hashes == t.hashes
  {
    hide Filled, UpsertOne;
    if symbols != [] {
      var init := symbols[..|symbols| - 1];
      UpsertAllSymbols(det, t, init);
      UpsertOneSymbols(det, UpsertAll(det, t, init).value, symbols[|symbols| - 1]);
    }
  }

  /** The batch goes through exactly when every vector in it has the table's dimension. */
  lemma {:induction false} UpsertAllIff(det: string -> seq<Float>, t: Tables, symbols: seq<Symbol>)
    ensures UpsertAll(det, t, symbols).Some? <==>
      forall i :: 0 <= i < |symbols| && Embeds(det, symbols[i]) ==>
        t.dimension == Some(|Decode(Filled(det, symbols[i]).embedding)|)
  {
    hide Decode, Filled;
    if symbols != [] {
      var init, last := symbols[..|symbols| - 1], symbols[|symbols| - 1];
      UpsertAllIff(det, t, init);
      if UpsertAll(det, t, init).Some? {
        UpsertAllSymbols(det, t, init);
      }
      assert forall i :: 0 <= i < |init| ==> symbols[i] == init[i];
    }
  }

  // ---------- when a batch keeps the index in step ----------

  /** The last symbol of the batch with this ID has no embedding. */
  predicate EndsBare(det: string -> seq<Float>, batch: seq<Symbol>, id: Id) {
    batch != [] &&
    var last := batch[|batch| - 1];
    if last.id == id then !Embeds(det, last) else EndsBare(det, batch[..|batch| - 1], id)
  }

  predicate EmbedsIn(det: string -> seq<Float>, batch: seq<Symbol>, id: Id) {
    exists i :: 0 <= i < |batch| && batch[i].id == id && Embeds(det, batch[i])
  }

  /** The ID ends without an embedding, but had a vector row before or within the batch. */
  predicate Stranded(det: string -> seq<Float>, m: map<Id, Symbol>, d: Option<nat>, batch: seq<Symbol>, id: Id) {
    EndsBare(det, batch, id) && ((id in m && d == Some(|Decode(m[id].embedding)|)) || EmbedsIn(det, batch, id))
  }

  lemma UpsertOneRows(det: string -> seq<Float>, t: Tables, s: Symbol)
    requires RowsDistinct(t) && RowsOwned(t) && DimensionSet(t) && UpsertOne(det, t, s).Some?
    ensures var u := UpsertOne(det, t, s).value;
      RowsDistinct(u) && RowsOwned(u) && DimensionSet(u)
  {
    hide Decode, Filled, RowsDistinct, RowsOwned, WithVector;
    var f := Filled(det, s);
    var u := t.(symbols := t.symbols[s.id := f]);
    RowsUnchanged(t, u);
    WithVectorRows(u, s.id, Decode(f.embedding));
    WithVectorSelf(u, s.id, Decode(f.embedding));
  }

  /** The other IDs are left alone. */
  lemma UpsertOneOthers(det: string -> seq<Float>, t: Tables, s: Symbol, id: Id)
    requires RowsDistinct(t) && RowsOwned(t) && UpsertOne(det, t, s).Some? && id != s.id
    ensures var u := UpsertOne(det, t, s).value;
      (HasVector(u, id) <==> HasVector(t, id)) && (Agrees(u, id) <==> Agrees(t, id))
  {
    hide Decode, Filled, RowsDistinct, RowsOwned, WithVector, HasVector;
    var f := Filled(det, s);
    var u := t.(symbols := t.symbols[s.id := f]);
    RowsUnchanged(t, u);
    HasVectorUnchanged(t, u, id);
    WithVectorOthers(u, s.id, Decode(f.embedding), id);
    WithVectorSelf(u, s.id, Decode(f.embedding));
  }

  /** The symbol's own ID: with an embedding it is in step, and without one it is in step
      exactly when it has no vector row. */
  lemma UpsertOneSelf(det: string -> seq<Float>, t: Tables, s: Symbol)
    requires DimensionSet(t) && UpsertOne(det, t, s).Some?
    ensures var u := UpsertOne(det, t, s).value;
      && (HasVector(u, s.id) <==> HasVector(t, s.id) || Embeds(det, s))
      && (Agrees(u, s.id) <==> Embeds(det, s) || !HasVector(t, s.id))
  {
    hide Decode, Filled, WithVector;
    var f := Filled(det, s);
    WithVectorSelf(t.(symbols := t.symbols[s.id := f]), s.id, Decode(f.embedding));
  }

  lemma EmbedsInSnoc(det: string -> seq<Float>, batch: seq<Symbol>, id: Id)
    requires batch != []
    ensures var init, last := batch[..|batch| - 1], batch[|batch| - 1];
      EmbedsIn(det, batch, id) <==> EmbedsIn(det, init, id) || (last.id == id && Embeds(det, last))
  {
    hide Embeds;
    var init := batch[..|batch| - 1];
    if EmbedsIn(det, init, id) {
      var i :| 0 <= i < |init| && init[i].id == id && Embeds(det, init[i]);
      assert batch[i] == init[i];
    }
  }

  lemma {:induction false} BatchAt(det: string -> seq<Float>, t: Tables, batch: seq<Symbol>, id: Id)
    requires RowsDistinct(t) && RowsOwned(t) && DimensionSet(t) && UpsertAll(det, t, batch).Some?
    ensures var u := UpsertAll(det, t, batch).value;
      && RowsDistinct(u) && RowsOwned(u) && DimensionSet(u)
      && (HasVector(u, id) <==> HasVector(t, id) || EmbedsIn(det, batch, id))
      && (Agrees(t, id) ==> (Agrees(u, id) <==>
         !(EndsBare(det, batch, id) && (HasVector(t, id) || EmbedsIn(det, batch, id)))))
  {
    hide RowsDistinct, RowsOwned, DimensionSet, HasVector, Agrees, Embeds, EmbedsIn, UpsertOne;
    if batch == [] {
      NothingEmbeds(det, id);
    } else {
      var init, last := batch[..|batch| - 1], batch[|batch| - 1];
      var w := UpsertAll(det, t, init).value;
      BatchAt(det, t, init, id);
      EmbedsInSnoc(det, batch, id);
      UpsertOneRows(det, w, last);
      if last.id == id {
        UpsertOneSelf(det, w, last);
      } else {
        UpsertOneOthers(det, w, last, id);
      }
    }
  }

  lemma NothingEmbeds(det: string -> seq<Float>, id: Id)
    ensures !EmbedsIn(det, [], id)
  {
  }

  /** After a batch that goes through, the index is in step exactly when the batch strands
      no vector row. */
  lemma BatchKeepsIff(det: string -> seq<Float>, t: Tables, batch: seq<Symbol>)
    requires Indexed(t) && UpsertAll(det, t, batch).Some?
    ensures Indexed(UpsertAll(det, t, batch).value) <==> forall id :: !Stranded(det, t.symbols, t.dimension, batch, id)
  {
    hide RowsDistinct, RowsOwned, DimensionSet, UpsertAll, EndsBare, EmbedsIn, Decode, HasVector;
    var u := UpsertAll(det, t, batch).value;
    BatchAt(det, t, batch, "");
    forall id
      ensures Agrees(u, id) <==> !Stranded(det, t.symbols, t.dimension, batch, id)
    {
      BatchAt(det, t, batch, id);
      assert Agrees(t, id);
    }
  }

  lemma {:induction false} NoneStranded(det: string -> seq<Float>, batch: seq<Symbol>, id: Id)
    requires forall i :: 0 <= i < |batch| ==> Embeds(det, batch[i])
    ensures !EndsBare(det, batch, id)
  {
    if batch != [] {
      NoneStranded(det, batch[..|batch| - 1], id);
    }
  }

  /** So a batch of symbols that all embed keeps the index in step. */
  lemma UpsertAllKeeps(det: string -> seq<Float>, t: Tables, batch: seq<Symbol>)
    requires Indexed(t) && UpsertAll(det, t, batch).Some?
    requires forall i :: 0 <= i < |batch| ==> Embeds(det, batch[i])
    ensures Indexed(UpsertAll(det, t, batch).value)
  {
    hide Indexed, UpsertAll, Embeds, EndsBare;
    BatchKeepsIff(det, t, batch);
    forall id
      ensures !Stranded(det, t.symbols, t.dimension, batch, id)
    {
      NoneStranded(det, batch, id);
    }
  }

  /** A vector row that stays: the symbol is stored with a source, then without one. */
  lemma EmptiedSymbolKeepsItsRow(det: string -> seq<Float>)
    requires Deterministic(det)
    ensures var full, empty := Symbol("a", "", (1, 1), "source", []), Symbol("a", "", (1, 1), "", []);
      var t := UpsertAll(det, EMPTY.(dimension := Some(DEFAULT_DIMENSION)), [full]);
      && t.Some? && Indexed(t.value)
      && var u := UpsertAll(det, t.value, [empty]);
         u.Some? && !Indexed(u.value) && HasVector(u.value, "a") && Decode(u.value.symbols["a"].embedding) == []
  {
    hide Decode, Encode, Indexed, WithVector;
    var full, empty := Symbol("a", "", (1, 1), "source", []), Symbol("a", "", (1, 1), "", []);
    var start := EMPTY.(dimension := Some(DEFAULT_DIMENSION));
    SetUpIsIndexed();
    NothingDecodes();
    DecodeEncode(det("source"));
    UpsertOne1(det, start, full);
    UpsertAllKeeps(det, start, [full]);
    var t := UpsertAll(det, start, [full]).value;
    UpsertOne1(det, t, empty);
    UpsertOneSelf(det, start, full);
    InStepIsSet(t);
    UpsertOneSelf(det, t, empty);
    var u := UpsertAll(det, t, [empty]).value;
    NotInStep(u, "a");
  }

  lemma SetUpIsIndexed()
    ensures Indexed(EMPTY.(dimension := Some(DEFAULT_DIMENSION)))
  {
  }

  lemma NothingDecodes()
    ensures Decode([]) == [] && Encode([]) == []
  {
  }

  lemma UpsertOne1(det: string -> seq<Float>, t: Tables, s: Symbol)
    ensures UpsertAll(det, t, [s]) == UpsertOne(det, t, s)
  {
    assert [s][..0] == [];
  }

  lemma InStepIsSet(t: Tables)
    requires Indexed(t)
    ensures DimensionSet(t)
  {
  }

  lemma NotInStep(t: Tables, id: Id)
    requires !Agrees(t, id)
    ensures !Indexed(t)
  {
  }

  // ---------- incremental updates ----------

  predicate IsStale(t: Tables, h: SymbolHash) {
    h.id !in t.hashes || t.hashes[h.id].sourceHash != h.sourceHash || t.hashes[h.id].version != h.version
  }

  /** The IDs that GetStaleSymbolHashes reports. */
  function StaleIds(t: Tables, hashes: seq<SymbolHash>): set<Id> {
    set i | 0 <= i < |hashes| && IsStale(t, hashes[i]) :: hashes[i].id
  }

  function Changed(symbols: seq<Symbol>, stale: set<Id>): seq<Symbol> {
    if symbols == [] then []
    else
      var last := symbols[|symbols| - 1];
      Changed(symbols[..|symbols| - 1], stale) + if last.id in stale then [last] else []
  }

  function PutHashes(m: map<Id, SymbolHash>, hashes: seq<SymbolHash>): map<Id, SymbolHash> {
    if hashes == [] then m
    else PutHashes(m, hashes[..|hashes| - 1])[hashes[|hashes| - 1].id := hashes[|hashes| - 1]]
  }

  /** Every recorded hash is that of the stored source. */
  ghost predicate HashesAgree(hash: string -> string, t: Tables) {
    forall id :: id in t.hashes ==> id in t.symbols && t.hashes[id].sourceHash == hash(t.symbols[id].source)
  }

  /** Symbols and hashes as ExtractCodeSymbolsFromSyntax makes them: one hash for each
      symbol, side by side. Symbols may share an ID, as the init functions of a package do. */
  ghost predicate Aligned(hash: string -> string, symbols: seq<Symbol>, hashes: seq<SymbolHash>) {
    && |symbols| == |hashes|
    && (forall i :: 0 <= i < |symbols| ==>
          hashes[i].id == symbols[i].id && hashes[i].sourceHash == hash(symbols[i].source))
  }

  ghost predicate CollisionFree(hash: string -> string) {
    forall a, b :: hash(a) == hash(b) ==> a == b
  }

  lemma {:induction false} ChangedAre(symbols: seq<Symbol>, stale: set<Id>)
    ensures forall s :: s in Changed(symbols, stale) <==> s in symbols && s.id in stale
  {
    if symbols != [] {
      ChangedAre(symbols[..|symbols| - 1], stale);
      assert symbols == symbols[..|symbols| - 1] + [symbols[|symbols| - 1]];
    }
  }

  function SourceOf(m: map<Id, Symbol>, id: Id): Option<string> {
    if id in m then Some(m[id].source) else None
  }

  ghost predicate SameSources(m: map<Id, Symbol>, n: map<Id, Symbol>) {
    forall id :: SourceOf(m, id) == SourceOf(n, id)
  }

  lemma FilledKeepsSource(det: string -> seq<Float>, s: Symbol)
    ensures Filled(det, s).source == s.source
  {
  }

  /** The source that the last symbol with this ID has. */
  function LastSource(symbols: seq<Symbol>, id: Id): Option<string> {
    if symbols == [] then None
    else if symbols[|symbols| - 1].id == id then Some(symbols[|symbols| - 1].source)
    else LastSource(symbols[..|symbols| - 1], id)
  }

  function LastHash(hashes: seq<SymbolHash>, id: Id): Option<SymbolHash> {
    if hashes == [] then None
    else if hashes[|hashes| - 1].id == id then Some(hashes[|hashes| - 1])
    else LastHash(hashes[..|hashes| - 1], id)
  }

  /** For the IDs of a batch the last symbol decides; nothing else changes. */
  lemma {:induction false} PutSource(det: string -> seq<Float>, m: map<Id, Symbol>, symbols: seq<Symbol>, id: Id)
    ensures SourceOf(Put(det, m, symbols), id) ==
            if LastSource(symbols, id).Some? then LastSource(symbols, id) else SourceOf(m, id)
  {
    hide Filled;
    if symbols != [] {
      PutSource(det, m, symbols[..|symbols| - 1], id);
      FilledKeepsSource(det, symbols[|symbols| - 1]);
    }
  }

  lemma {:induction false} PutHashesAt(m: map<Id, SymbolHash>, hashes: seq<SymbolHash>, id: Id)
    ensures id in PutHashes(m, hashes) <==> id in m || LastHash(hashes, id).Some?
    ensures LastHash(hashes, id).Some? ==> PutHashes(m, hashes)[id] == LastHash(hashes, id).value
    ensures LastHash(hashes, id).None? && id in m ==> PutHashes(m, hashes)[id] == m[id]
  {
    if hashes != [] {
      PutHashesAt(m, hashes[..|hashes| - 1], id);
    }
  }

  /** Storing the stale symbols only is storing them all at the stale IDs, and storing
      nothing at the others. */
  lemma {:induction false} ChangedSource(det: string -> seq<Float>, m: map<Id, Symbol>, symbols: seq<Symbol>,
                                         stale: set<Id>, id: Id)
    ensures SourceOf(Put(det, m, Changed(symbols, stale)), id) ==
            if id in stale then SourceOf(Put(det, m, symbols), id) else SourceOf(m, id)
  {
    hide Filled;
    if symbols != [] {
      var init, last := symbols[..|symbols| - 1], symbols[|symbols| - 1];
      ChangedSource(det, m, init, stale, id);
      FilledKeepsSource(det, last);
      var changed := Changed(init, stale);
      assert (changed + [last])[..|changed|] == changed && changed + [] == changed;
    }
  }

  /** Wherever the batch is skipped, the source it would leave is stored already. */
  ghost predicate SkipsAreStored(m: map<Id, Symbol>, symbols: seq<Symbol>, stale: set<Id>) {
    forall id :: id !in stale && LastSource(symbols, id).Some? ==> SourceOf(m, id) == LastSource(symbols, id)
  }

  /** Storing only the stale symbols leaves the same sources as storing them all exactly
      when the source of every skipped ID is stored already: for every batch, with or
      without shared IDs and missing hashes. */
  lemma IncrementalIff(det: string -> seq<Float>, t: Tables, symbols: seq<Symbol>, hashes: seq<SymbolHash>)
    ensures var stale := StaleIds(t, hashes);
      SameSources(Put(det, t.symbols, Changed(symbols, stale)), Put(det, t.symbols, symbols)) <==>
      SkipsAreStored(t.symbols, symbols, stale)
  {
    hide Put, Changed, StaleIds, SourceOf, LastSource;
    var stale := StaleIds(t, hashes);
    var some, all := Put(det, t.symbols, Changed(symbols, stale)), Put(det, t.symbols, symbols);
    forall id
      ensures SourceOf(some, id) == SourceOf(all, id) <==>
              (id !in stale && LastSource(symbols, id).Some? ==> SourceOf(t.symbols, id) == LastSource(symbols, id))
    {
      ChangedSource(det, t.symbols, symbols, stale, id);
      PutSource(det, t.symbols, symbols, id);
    }
  }

  lemma {:induction false} LastHashIsThere(hashes: seq<SymbolHash>, id: Id)
    requires LastHash(hashes, id).Some?
    ensures LastHash(hashes, id).value in hashes && LastHash(hashes, id).value.id == id
  {
    if hashes[|hashes| - 1].id != id {
      LastHashIsThere(hashes[..|hashes| - 1], id);
    }
  }

  /** The last hash of an ID is that of its last source. */
  lemma {:induction false} LastAligned(hash: string -> string, symbols: seq<Symbol>, hashes: seq<SymbolHash>, id: Id)
    requires Aligned(hash, symbols, hashes)
    ensures LastHash(hashes, id).Some? <==> LastSource(symbols, id).Some?
    ensures LastHash(hashes, id).Some? ==> LastHash(hashes, id).value.sourceHash == hash(LastSource(symbols, id).value)
  {
    if symbols != [] {
      LastAligned(hash, symbols[..|symbols| - 1], hashes[..|hashes| - 1], id);
    }
  }

  lemma AgreeingSkips(hash: string -> string, t: Tables, symbols: seq<Symbol>, hashes: seq<SymbolHash>)
    requires CollisionFree(hash) && HashesAgree(hash, t) && Aligned(hash, symbols, hashes)
    ensures SkipsAreStored(t.symbols, symbols, StaleIds(t, hashes))
  {
    hide LastHash, LastSource, Aligned;
    forall id | id !in StaleIds(t, hashes) && LastSource(symbols, id).Some?
      ensures SourceOf(t.symbols, id) == LastSource(symbols, id)
    {
      LastAligned(hash, symbols, hashes, id);
      LastHashIsThere(hashes, id);
      var k :| 0 <= k < |hashes| && hashes[k] == LastHash(hashes, id).value;
      assert !IsStale(t, hashes[k]);
    }
  }

  /** So it does where every recorded hash is that of the stored source; and the hashes
      are right for the next time. */
  lemma IncrementalIsComplete(hash: string -> string, det: string -> seq<Float>, t: Tables, symbols: seq<Symbol>,
                              hashes: seq<SymbolHash>)
    requires CollisionFree(hash) && HashesAgree(hash, t) && Aligned(hash, symbols, hashes)
    ensures var changed := Changed(symbols, StaleIds(t, hashes));
      && SameSources(Put(det, t.symbols, changed), Put(det, t.symbols, symbols))
      && HashesAgree(hash, Incremental(det, t, Batch(symbols, hashes)))
  {
    hide Put, Changed, StaleIds, PutHashes, CollisionFree, IsStale, LastHash, LastSource, Aligned, SkipsAreStored;
    AgreeingSkips(hash, t, symbols, hashes);
    IncrementalIff(det, t, symbols, hashes);
    var u := Incremental(det, t, Batch(symbols, hashes));
    forall id | id in u.hashes
      ensures id in u.symbols && u.hashes[id].sourceHash == hash(u.symbols[id].source)
    {
      assert SourceOf(u.symbols, id) == SourceOf(Put(det, t.symbols, symbols), id);
      PutSource(det, t.symbols, symbols, id);
      PutHashesAt(t.hashes, hashes, id);
      LastAligned(hash, symbols, hashes, id);
    }
  }

  datatype Batch = Batch(symbols: seq<Symbol>, hashes: seq<SymbolHash>)

  /** The two tables after a call of UpsertChangedSymbols that goes through. */
  function Incremental(det: string -> seq<Float>, t: Tables, b: Batch): Tables {
    t.(symbols := Put(det, t.symbols, Changed(b.symbols, StaleIds(t, b.hashes))),
       hashes := PutHashes(t.hashes, b.hashes))
  }

  function IncrementalRun(det: string -> seq<Float>, batches: seq<Batch>): Tables {
    if batches == [] then EMPTY
    else Incremental(det, IncrementalRun(det, batches[..|batches| - 1]), batches[|batches| - 1])
  }

  function FullRun(det: string -> seq<Float>, batches: seq<Batch>): map<Id, Symbol> {
    if batches == [] then map[]
    else Put(det, FullRun(det, batches[..|batches| - 1]), batches[|batches| - 1].symbols)
  }

  /** An ID is skipped exactly when every hash offered for it is recorded, for this very version. */
  lemma SkippedIff(t: Tables, hashes: seq<SymbolHash>, id: Id)
    ensures id !in StaleIds(t, hashes) <==>
      forall h :: h in hashes && h.id == id ==>
        id in t.hashes && t.hashes[id].sourceHash == h.sourceHash && t.hashes[id].version == h.version
  {
    if id in StaleIds(t, hashes) {
      var i :| 0 <= i < |hashes| && IsStale(t, hashes[i]) && hashes[i].id == id;
      assert hashes[i] in hashes;
    }
  }

  /** A batch that has gone through stores nothing when it comes again. */
  lemma SecondTimeStoresNothing(det: string -> seq<Float>, t: Tables, b: Batch)
    requires forall i, j :: 0 <= i < j < |b.hashes| ==> b.hashes[i].id != b.hashes[j].id
    ensures Incremental(det, Incremental(det, t, b), b).symbols == Incremental(det, t, b).symbols
  {
    hide PutHashes;
    var u := Incremental(det, t, b);
    forall i | 0 <= i < |b.hashes|
      ensures !IsStale(u, b.hashes[i])
    {
      LastOfDistinct(b.hashes, i);
      PutHashesAt(t.hashes, b.hashes, b.hashes[i].id);
    }
    NothingChanged(b.symbols);
    assert StaleIds(u, b.hashes) == {};
  }

  lemma {:induction false} LastOfDistinct(hashes: seq<SymbolHash>, i: nat)
    requires i < |hashes| && forall k, j :: 0 <= k < j < |hashes| ==> hashes[k].id != hashes[j].id
    ensures LastHash(hashes, hashes[i].id) == Some(hashes[i])
  {
    if i < |hashes| - 1 {
      LastOfDistinct(hashes[..|hashes| - 1], i);
    }
  }

  lemma {:induction false} NothingChanged(symbols: seq<Symbol>)
    ensures Changed(symbols, {}) == []
  {
    if symbols != [] {
      NothingChanged(symbols[..|symbols| - 1]);
    }
  }

  /** A store that only UpsertChangedSymbols writes to never falls behind: after any run of
      batches its sources are those of the run that stores every symbol each time. */
  lemma {:induction false} IncrementalRunIsComplete(hash: string -> string, det: string -> seq<Float>,
                                                    batches: seq<Batch>)
    requires CollisionFree(hash)
    requires forall k :: 0 <= k < |batches| ==> Aligned(hash, batches[k].symbols, batches[k].hashes)
    ensures HashesAgree(hash, IncrementalRun(det, batches))
    ensures SameSources(IncrementalRun(det, batches).symbols, FullRun(det, batches))
  {
    hide Put, Changed, StaleIds, PutHashes, CollisionFree, HashesAgree;
    if batches == [] {
      NothingRecorded(hash);
    } else {
      var init, b := batches[..|batches| - 1], batches[|batches| - 1];
      IncrementalRunIsComplete(hash, det, init);
      var t, m := IncrementalRun(det, init), FullRun(det, init);
      IncrementalIsComplete(hash, det, t, b.symbols, b.hashes);
      forall id
        ensures SourceOf(Put(det, t.symbols, b.symbols), id) == SourceOf(Put(det, m, b.symbols), id)
      {
        PutSource(det, t.symbols, b.symbols, id);
        PutSource(det, m, b.symbols, id);
      }
    }
  }

  lemma NothingRecorded(hash: string -> string)
    ensures HashesAgree(hash, EMPTY)
  {
  }

  /** Where that fails: UpsertSymbols changes a source and leaves its hash, so when the
      source changes back it is skipped, and the version in between stays. */
  lemma ChangedBackIsMissed(hash: string -> string, det: string -> seq<Float>)
    ensures var v1, v2 := Symbol("a", "", (1, 1), "v1", []), Symbol("a", "", (1, 1), "v2", []);
      var h1 := SymbolHash("a", hash("v1"), 1);
      var stored := Incremental(det, EMPTY, Batch([v1], [h1]));
      var rewritten := stored.(symbols := Put(det, stored.symbols, [v2]));
      && SourceOf(Incremental(det, rewritten, Batch([v1], [h1])).symbols, "a") == Some("v2")
      && SourceOf(Put(det, rewritten.symbols, [v1]), "a") == Some("v1")
  {
    hide Put, Changed, PutHashes;
    var v1, v2 := Symbol("a", "", (1, 1), "v1", []), Symbol("a", "", (1, 1), "v2", []);
    var h1 := SymbolHash("a", hash("v1"), 1);
    var stored := Incremental(det, EMPTY, Batch([v1], [h1]));
    var rewritten := stored.(symbols := Put(det, stored.symbols, [v2]));
    PutHashesAt(map[], [h1], "a");
    assert !IsStale(rewritten, h1);
    PutSource(det, stored.symbols, [v2], "a");
    PutSource(det, rewritten.symbols, [v1], "a");
    ChangedSource(det, rewritten.symbols, [v1], StaleIds(rewritten, [h1]), "a");
  }

  /** A symbol that comes without a hash is never stored. */
  lemma SymbolWithoutHashIsDropped(t: Tables, symbols: seq<Symbol>, hashes: seq<SymbolHash>, s: Symbol)
    requires s in symbols && forall i :: 0 <= i < |hashes| ==> hashes[i].id != s.id
    ensures s !in Changed(symbols, StaleIds(t, hashes))
  {
    ChangedAre(symbols, StaleIds(t, hashes));
  }

  // ---------- the store ----------

  class Store {
    var symbols: map<Id, Symbol>
    var hashes: map<Id, SymbolHash>
    var rowOf: map<Id, nat>
    var nextRow: nat
    var vectors: map<nat, seq<Float>>
    var dimension: Option<nat>

    constructor ()
      ensures T() == EMPTY && Indexed(T())
    {
      symbols, hashes, rowOf, nextRow, vectors, dimension := map[], map[], map[], 0, map[], None;
    }

    function T(): Tables
      reads this
    {
      Tables(symbols, hashes, rowOf, nextRow, vectors, dimension)
    }

    /** vectorRowIDTx. */
    method VectorRowID(id: Id) returns (row: nat)
      modifies this`rowOf, this`nextRow
      ensures T() == WithRow(old(T()), id) && id in rowOf && row == rowOf[id]
    {
      if id !in rowOf {
        rowOf := rowOf[id := nextRow];
        nextRow := nextRow + 1;
      }
      row := rowOf[id];
    }

    /** rebuildVectorTable, on a fresh vector table. */
    method RebuildVectorTable(d: nat)
      requires d > 0 && dimension == Some(d) && vectors == map[] && RowsDistinct(T())
      modifies this`rowOf, this`nextRow, this`vectors
      ensures Indexed(T())
    {
      var todo := symbols.Keys;
      assert RowsOwned(T());
      while todo != {}
        invariant todo <= symbols.Keys && RowsDistinct(T()) && RowsOwned(T())
        invariant forall id :: Rebuilt(T(), todo, id)
        decreases |todo|
      {
        hide RowsDistinct, RowsOwned, Rebuilt, Decode;
        var id :| id in todo;
        var vec := Decode(symbols[id].embedding);
        RebuildOne(T(), todo, id);
        if |vec| == d {
          var row := VectorRowID(id);
          vectors := vectors[row := vec];
        }
        todo := todo - {id};
      }
      AllRebuilt(T());
    }

    /** ensureVectorTable. */
    method EnsureVectorTable(d: nat) returns (ok: bool)
      requires Indexed(T())
      modifies this`rowOf, this`nextRow, this`vectors, this`dimension
      ensures ok <==> d > 0
      ensures Indexed(T()) && if ok then dimension == Some(d) else T() == old(T())
    {
      if d <= 0 {
        return false;
      }
      if dimension.Some? {
        if dimension.value == d {
          return true;
        }
        vectors := map[];
      } else {
        NothingIndexed(T());
      }
      dimension := Some(d);
      RebuildVectorTable(d);
      return true;
    }

    /** ensureVectorTableForSymbols. */
    method EnsureVectorTableForSymbols(batch: seq<Symbol>)
      requires Indexed(T())
      modifies this`rowOf, this`nextRow, this`vectors, this`dimension
      ensures Indexed(T())
      ensures dimension == if BatchDimension(batch) > 0 then Some(BatchDimension(batch)) else old(dimension)
    {
      var d := BatchDimension(batch);
      if d == 0 {
        return;
      }
      var ok := EnsureVectorTable(d);
    }

    /** The loop body of upsertSymbolsTx. */
    method UpsertSymbol(det: string -> seq<Float>, symbol: Symbol) returns (ok: bool)
      modifies this`symbols, this`rowOf, this`nextRow, this`vectors
      ensures ok <==> UpsertOne(det, old(T()), symbol).Some?
      ensures ok ==> T() == UpsertOne(det, old(T()), symbol).value
    {
      var s := Filled(det, symbol);
      symbols := symbols[s.id := s];
      var vec := Decode(s.embedding);
      if |vec| == 0 {
        return true;
      }
      if dimension != Some(|vec|) {
        return false;
      }
      var row := VectorRowID(s.id);
      vectors := vectors[row := vec];
      return true;
    }

    /** upsertSymbolsTx with the rollback of InTransaction. */
    method UpsertSymbolsTx(det: string -> seq<Float>, batch: seq<Symbol>) returns (ok: bool)
      modifies this`symbols, this`rowOf, this`nextRow, this`vectors
      ensures ok <==> UpsertAll(det, old(T()), batch).Some?
      ensures T() == if ok then UpsertAll(det, old(T()), batch).value else old(T())
    {
      var symbols0, rowOf0, nextRow0, vectors0 := symbols, rowOf, nextRow, vectors;
      ghost var t := T();
      for i := 0 to |batch|
        invariant UpsertAll(det, t, batch[..i]) == Some(T())
        invariant hashes == t.hashes && dimension == t.dimension
      {
        hide UpsertAll, UpsertOne;
        UpsertAllNext(det, t, batch, i);
        var done := UpsertSymbol(det, batch[i]);
        if !done {
          UpsertAllStops(det, t, batch, i + 1);
          symbols, rowOf, nextRow, vectors := symbols0, rowOf0, nextRow0, vectors0;
          return false;
        }
      }
      assert batch[..|batch|] == batch;
      return true;
    }

    /** UpsertSymbols. The batch goes through exactly when its vectors have the length that
        the vector table was set up for; the index is in step afterwards exactly when the
        batch fails as a whole or strands no vector row. */
    method UpsertSymbols(det: string -> seq<Float>, batch: seq<Symbol>) returns (ok: bool)
      requires Deterministic(det) && Indexed(T())
      modifies this
      ensures ok <==> Fits(det, batch)
      ensures symbols == (if ok then Put(det, old(symbols), batch) else old(symbols)) && hashes == old(hashes)
      ensures Indexed(T()) <==> !ok || forall id :: !Stranded(det, old(symbols), dimension, batch, id)
    {
      hide Indexed, Deterministic, Embeds, Decode, Stranded;
      if |batch| == 0 {
        NoneIsStranded(det, symbols, dimension);
        return true;
      }
      var batch' := FillAll(det, batch);
      EnsureVectorTableForSymbols(batch');
      ghost var t := T();
      FillAllIsFilled(det, batch, t);
      ok := UpsertSymbolsTx(det, batch');
      UpsertAllIff(det, t, batch);
      FirstVectorDecides(det, batch);
      if ok {
        UpsertAllSymbols(det, t, batch);
        BatchKeepsIff(det, t, batch);
      }
    }

    /** UpsertChangedSymbols without a provider. */
    method UpsertChangedSymbols(det: string -> seq<Float>, batch: seq<Symbol>, newHashes: seq<SymbolHash>)
      returns (ok: bool)
      requires Deterministic(det) && Indexed(T())
      modifies this
      ensures var changed := Changed(batch, StaleIds(old(T()), newHashes));
        && (ok <==> Fits(det, changed))
        && symbols == (if ok then Put(det, old(symbols), changed) else old(symbols))
        && hashes == (if ok then PutHashes(old(hashes), newHashes) else old(hashes))
        && (Indexed(T()) <==> !ok || forall id :: !Stranded(det, old(symbols), dimension, changed, id))
    {
      hide Indexed, Deterministic, Stranded, Fits;
      var changed := Changed(batch, StaleIds(T(), newHashes));
      ok := UpsertSymbols(det, changed);
      if ok {
        ghost var t := T();
        hashes := PutHashes(hashes, newHashes);
        HashesOutsideIndex(t, T());
      }
    }

    /** SemanticSearch: the symbols it ranks are exactly those of the query's dimension. */
    method SearchCandidates(query: seq<Float>) returns (candidates: Option<set<Id>>)
      requires Indexed(T())
      modifies this`rowOf, this`nextRow, this`vectors, this`dimension
      ensures Indexed(T())
      ensures query == [] ==> candidates == None && T() == old(T())
      ensures query != [] ==>
        candidates.Some? && forall id :: id in candidates.value <==>
          id in symbols && |Decode(symbols[id].embedding)| == |query|
    {
      if |query| == 0 {
        return None;
      }
      var ok := EnsureVectorTable(|query|);
      candidates := Some(set id | id in rowOf && rowOf[id] in vectors && id in symbols);
      forall id
        ensures id in candidates.value <==> id in symbols && |Decode(symbols[id].embedding)| == |query|
      {
        assert Agrees(T(), id);
      }
    }
  }

  /** The loop's claim for one symbol: as the invariant says, but for those still to do. */
  ghost predicate Rebuilt(t: Tables, todo: set<Id>, id: Id) {
    && (HasVector(t, id) <==> Indexable(t, id) && id !in todo)
    && (HasVector(t, id) ==> t.vectors[t.rowOf[id]] == Decode(t.symbols[id].embedding))
  }

  lemma RebuildOne(t: Tables, todo: set<Id>, id: Id)
    requires RowsDistinct(t) && RowsOwned(t) && id in todo && id in t.symbols && t.dimension.Some?
    requires forall a :: Rebuilt(t, todo, a)
    ensures var vec := Decode(t.symbols[id].embedding);
      var u := if |vec| == t.dimension.value then WithVector(t, id, vec) else t;
      RowsDistinct(u) && RowsOwned(u) && forall a :: Rebuilt(u, todo - {id}, a)
  {
    hide RowsDistinct, RowsOwned, Decode, HasVector, WithVector;
    var vec := Decode(t.symbols[id].embedding);
    if |vec| == t.dimension.value {
      var u := WithVector(t, id, vec);
      WithVectorRows(t, id, vec);
      WithVectorSelf(t, id, vec);
      forall a
        ensures Rebuilt(u, todo - {id}, a)
      {
        assert Rebuilt(t, todo, a);
        if a != id {
          WithVectorOthers(t, id, vec, a);
        }
      }
    } else {
      forall a
        ensures Rebuilt(t, todo - {id}, a)
      {
        assert Rebuilt(t, todo, a);
      }
    }
  }

  lemma AllRebuilt(t: Tables)
    requires RowsDistinct(t) && RowsOwned(t) && t.dimension.Some? && t.dimension.value > 0
    requires forall a :: Rebuilt(t, {}, a)
    ensures Indexed(t)
  {
    forall a
      ensures Agrees(t, a)
    {
      assert Rebuilt(t, {}, a);
    }
  }

  lemma NothingIndexed(t: Tables)
    requires Indexed(t) && t.dimension.None?
    ensures t.vectors == map[]
  {
    if t.vectors.Keys != {} {
      var r :| r in t.vectors;
      var id := OwnerIsIndexable(t, r);
    }
  }

  /** Every vector row belongs to a symbol of the index's dimension. */
  lemma OwnerIsIndexable(t: Tables, r: nat) returns (id: Id)
    requires Indexed(t) && r in t.vectors
    ensures id in t.rowOf && t.rowOf[id] == r && Indexable(t, id)
  {
    assert Owned(t, r);
    id :| id in t.rowOf && t.rowOf[id] == r;
    assert Agrees(t, id);
  }

  // ---------- what a batch needs ----------

  /** Every vector of the batch has the length that the vector table is set up for. */
  predicate Fits(det: string -> seq<Float>, batch: seq<Symbol>) {
    forall i :: 0 <= i < |batch| && Embeds(det, batch[i]) ==>
      |Decode(Filled(det, batch[i]).embedding)| == BatchDimension(FillAll(det, batch))
  }

  /** Where every symbol embeds, that says that all vectors have one length. */
  lemma FitsIff(det: string -> seq<Float>, batch: seq<Symbol>)
    requires forall i :: 0 <= i < |batch| ==> Embeds(det, batch[i])
    ensures Fits(det, batch) <==>
      forall i, j :: 0 <= i < j < |batch| ==>
        |Decode(Filled(det, batch[i]).embedding)| == |Decode(Filled(det, batch[j]).embedding)|
  {
    hide Decode, Filled;
    if batch != [] {
      assert FillAll(det, batch)[0] == Filled(det, batch[0]);
      assert Embeds(det, batch[0]);
      assert BatchDimension(FillAll(det, batch)) == |Decode(Filled(det, batch[0]).embedding)|;
    }
  }

  /** A batch with a vector sets the dimension. */
  lemma FirstVectorDecides(det: string -> seq<Float>, batch: seq<Symbol>)
    ensures (exists i :: 0 <= i < |batch| && Embeds(det, batch[i])) ==> BatchDimension(FillAll(det, batch)) > 0
  {
    hide Filled, Decode;
    if i :| 0 <= i < |batch| && Embeds(det, batch[i]) {
      SomeVectorDecides(FillAll(det, batch), i);
    }
  }

  lemma {:induction false} SomeVectorDecides(batch: seq<Symbol>, i: nat)
    requires i < |batch| && Decode(batch[i].embedding) != []
    ensures BatchDimension(batch) > 0
  {
    hide Decode;
    if i > 0 {
      SomeVectorDecides(batch[1..], i - 1);
    }
  }

  lemma NoneIsStranded(det: string -> seq<Float>, m: map<Id, Symbol>, d: Option<nat>)
    ensures forall id :: !Stranded(det, m, d, [], id)
  {
  }

  lemma UpsertAllNext(det: string -> seq<Float>, t: Tables, batch: seq<Symbol>, i: nat)
    requires i < |batch| && UpsertAll(det, t, batch[..i]).Some?
    ensures UpsertAll(det, t, batch[..i + 1]) == UpsertOne(det, UpsertAll(det, t, batch[..i]).value, batch[i])
  {
    assert batch[..i + 1][..i] == batch[..i];
  }

  lemma {:induction false} UpsertAllStops(det: string -> seq<Float>, t: Tables, batch: seq<Symbol>, n: nat)
    requires n <= |batch| && UpsertAll(det, t, batch[..n]).None?
    ensures UpsertAll(det, t, batch).None?
    decreases |batch| - n
  {
    hide UpsertOne;
    if n < |batch| {
      assert batch[..n + 1][..n] == batch[..n];
      UpsertAllStops(det, t, batch, n + 1);
    } else {
      assert batch[..n] == batch;
    }
  }

  /** Filling in twice is filling in once. */
  lemma {:induction false} FillAllIsFilled(det: string -> seq<Float>, batch: seq<Symbol>, t: Tables)
    requires Deterministic(det)
    ensures UpsertAll(det, t, FillAll(det, batch)) == UpsertAll(det, t, batch)
  {
    if batch != [] {
      FillAllIsFilled(det, batch[..|batch| - 1], t);
      assert FillAll(det, batch)[..|batch| - 1] == FillAll(det, batch[..|batch| - 1]);
    }
  }

  lemma HashesOutsideIndex(t: Tables, u: Tables)
    requires u == t.(hashes := u.hashes)
    ensures Indexed(t) <==> Indexed(u)
  {
    InStepWithout(t, u.hashes);
    InStepWithout(u, t.hashes);
    assert u.(hashes := t.hashes) == t;
  }

  /** The recorded hashes are no part of the index. */
  lemma InStepWithout(t: Tables, hashes: map<Id, SymbolHash>)
    ensures Indexed(t) ==> Indexed(t.(hashes := hashes))
  {
    hide Decode;
    if Indexed(t) {
      var u := t.(hashes := hashes);
      RowsUnchanged(t, u);
      forall id
        ensures Agrees(u, id)
      {
        assert Agrees(t, id);
      }
    }
  }
}
