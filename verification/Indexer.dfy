/** One run of the indexer over a store left by earlier runs. A run may be cut
    off before any of its transactions: `left` counts those that still commit. */
module Indexer {
  import opened Protocol
  import opened Subsequences
  import opened EdgeResolution
  import EdgeResolver
  import Batches
  import opened IndexModel
  import opened IndexProperties
  import opened IndexStore
  import EmbeddedText

  datatype Status = Finished | Interrupted | NameTaken

  ghost function Upto(paths: seq<string>, i: nat): set<string>
    requires i <= |paths|
  {
    set p | p in paths[..i]
  }

  // ----- files

  /** The files of `done` that a language covers are stored as they are now. */
  ghost predicate UpToDate(w: World, repo: map<string, Source>, db: Db, done: set<string>) {
    forall p | p in done && p in Supported(w, repo) :: Stored(w, db, p, repo[p])
  }

  /** From `start`, the rows of `done` were touched and no others. */
  ghost predicate Touched(w: World, repo: map<string, Source>, start: Db, db: Db, done: set<string>) {
    && db.files.Keys == start.files.Keys + done * Supported(w, repo)
    && (forall p | p !in done && p in start.files :: db.files[p] == start.files[p])
    && db.edges == start.edges && db.embeddings == start.embeddings
  }

  lemma SkippedUpToDate(w: World, repo: map<string, Source>, db: Db, done: set<string>, path: string)
    requires Sound(w) && Inv(w, db) && UpToDate(w, repo, db, done) && path in repo
    requires w.language(path).None? || (path in db.files && db.files[path].hash == w.hash(repo[path]))
    ensures UpToDate(w, repo, db, done + {path})
  {
    if w.language(path).Some? {
      HashTells(w, db, path, repo[path]);
    }
  }

  lemma ReplacedUpToDate(w: World, repo: map<string, Source>, db: Db, done: set<string>, path: string, r: Db)
    requires Sound(w) && NoStrays(db) && UpToDate(w, repo, db, done) && path in repo && w.language(path).Some?
    requires Insertable(DeletePath(db, path).symbols, w.extract(path, repo[path]).symbols)
    requires r == ReplaceFile(db, path, w.extract(path, repo[path]),
        FileRow(w.hash(repo[path]), w.language(path).value))
    ensures UpToDate(w, repo, r, done + {path})
  {
    var x, row := w.extract(path, repo[path]), FileRow(w.hash(repo[path]), w.language(path).value);
    ReplacedStored(w, db, path, repo[path]);
    forall p | p in done && p in Supported(w, repo) && p != path
      ensures Stored(w, r, p, repo[p])
    {
      ReplacedOthers(w, db, path, x, row, p);
    }
  }

  /** The files the index does not hold as they are now. */
  function Stale(w: World, repo: map<string, Source>, files: map<string, FileRow>): set<string> {
    set p | p in Supported(w, repo) && !(p in files && files[p].hash == w.hash(repo[p]))
  }

  ghost predicate SharesName(x: Extraction, y: Extraction) {
    exists s, t | s in x.symbols && t in y.symbols :: QName(s) == QName(t)
  }

  /** The file yields a name twice, or one that another stored file yields. */
  ghost predicate Clashes(w: World, db: Db, path: string, source: Source) {
    || !NoRepeats(QNames(w.extract(path, source).symbols))
    || exists other, source' | other != path && Stored(w, db, other, source') ::
         SharesName(w.extract(path, source), w.extract(other, source'))
  }

  /** A stale file of the repository clashes with what is stored. */
  ghost predicate RepoClashes(w: World, repo: map<string, Source>, db: Db) {
    exists path | path in repo :: Clashes(w, db, path, repo[path])
  }

  lemma RefusedForClash(w: World, db: Db, path: string, source: Source)
    requires Inv(w, db) && !Insertable(DeletePath(db, path).symbols, w.extract(path, source).symbols)
    ensures Clashes(w, db, path, source)
  {
    var x := w.extract(path, source);
    if NoRepeats(QNames(x.symbols)) {
      var s :| s in x.symbols && QName(s) in DeletePath(db, path).symbols;
      var t := db.symbols[QName(s)];
      var source' :| Stored(w, db, t.path, source');
      var y := w.extract(t.path, source');
      KeyedNames(y.symbols);
      assert QName(s) in SymbolsOf(db, t.path);
      assert Keyed(QName, y.symbols)[QName(s)] in y.symbols;
      assert SharesName(x, y);
    }
  }

  // ----- the files of a run, one after the other

  /** What a run whose index knew the files `known` makes of one file; nothing if
      a name is taken. */
  ghost function FileStep(
      w: World, repo: map<string, Source>, known: map<string, FileRow>, db: Db, path: string): Option<Db>
    requires path in repo
  {
    if path !in Stale(w, repo, known) then Some(db)
    else if !Insertable(DeletePath(db, path).symbols, w.extract(path, repo[path]).symbols) then None
    else
      Some(ReplaceFile(db, path, w.extract(path, repo[path]), FileRow(w.hash(repo[path]), w.language(path).value)))
  }

  ghost function FileSteps(
      w: World, repo: map<string, Source>, known: map<string, FileRow>, db: Db, paths: seq<string>): Option<Db>
    requires forall p <- paths :: p in repo
  {
    if paths == [] then Some(db)
    else
      var before := FileSteps(w, repo, known, db, paths[..|paths| - 1]);
      if before.None? then None else FileStep(w, repo, known, before.value, paths[|paths| - 1])
  }

  ghost predicate FilesDone(w: World, repo: map<string, Source>, start: Db, db: Db, done: set<string>) {
    Inv(w, db) && UpToDate(w, repo, db, done) && Touched(w, repo, start, db, done)
  }

  lemma FileStepTouched(w: World, repo: map<string, Source>, start: Db, db: Db, done: set<string>, path: string)
    requires Touched(w, repo, start, db, done) && path in repo && path !in done
    requires FileStep(w, repo, start.files, db, path).Some?
    ensures Touched(w, repo, start, FileStep(w, repo, start.files, db, path).value, done + {path})
  {
  }

  /** A file skipped for its hash still has the row the run started with. */
  lemma FileStepUpToDate(w: World, repo: map<string, Source>, start: Db, db: Db, done: set<string>, path: string)
    requires Sound(w) && Inv(w, db) && UpToDate(w, repo, db, done) && path in repo
    requires path in start.files ==> path in db.files && db.files[path] == start.files[path]
    requires FileStep(w, repo, start.files, db, path).Some?
    ensures UpToDate(w, repo, FileStep(w, repo, start.files, db, path).value, done + {path})
  {
    if path in Stale(w, repo, start.files) {
      ReplacedUpToDate(w, repo, db, done, path, FileStep(w, repo, start.files, db, path).value);
    } else {
      SkippedUpToDate(w, repo, db, done, path);
    }
  }

  lemma FileStepDone(w: World, repo: map<string, Source>, start: Db, db: Db, done: set<string>, path: string)
    requires Sound(w) && FilesDone(w, repo, start, db, done) && path in repo && path !in done
    requires FileStep(w, repo, start.files, db, path).Some?
    ensures FilesDone(w, repo, start, FileStep(w, repo, start.files, db, path).value, done + {path})
  {
    FileStepTouched(w, repo, start, db, done, path);
    FileStepUpToDate(w, repo, start, db, done, path);
    if path in Stale(w, repo, start.files) {
      ReplaceKeeps(w, db, path, repo[path]);
    }
  }

  lemma {:induction false} FileStepsDone(w: World, repo: map<string, Source>, start: Db, paths: seq<string>)
    requires Sound(w) && Inv(w, start) && NoRepeats(paths) && forall p <- paths :: p in repo
    requires FileSteps(w, repo, start.files, start, paths).Some?
    ensures FilesDone(w, repo, start, FileSteps(w, repo, start.files, start, paths).value, Upto(paths, |paths|))
  {
    if paths != [] {
      var front, last := paths[..|paths| - 1], paths[|paths| - 1];
      FileStepsDone(w, repo, start, front);
      FileStepDone(w, repo, start, FileSteps(w, repo, start.files, start, front).value, Upto(front, |front|), last);
      assert Upto(paths, |paths|) == Upto(front, |front|) + {last};
    }
  }

  /** Parses every file whose hash is not the one the index had at the start. */
  method UpdateFiles(w: World, repo: map<string, Source>, paths: seq<string>, store: Store, left: nat)
    returns (status: Status, parsed: set<string>, rest: nat, ghost n: nat)
    requires NoRepeats(paths) && forall p <- paths :: p in repo
    modifies store
    ensures n <= |paths| && FileSteps(w, repo, old(store.files), old(store.Contents()),
        paths[..n]) == Some(store.Contents())
    ensures parsed == Stale(w, repo, old(store.files)) * Upto(paths, n)
    ensures status.Finished? ==> n == |paths|
    ensures status.NameTaken? ==> n < |paths| && FileStep(w, repo, old(store.files), store.Contents(), paths[n]).None?
  {
    var known := store.files;
    rest, parsed := left, {};
    for i := 0 to |paths|
      invariant FileSteps(w, repo, known, old(store.Contents()), paths[..i]) == Some(store.Contents())
      invariant parsed == Stale(w, repo, known) * Upto(paths, i)
    {
      var path := paths[i];
      n := i;
      assert path in paths && paths[..i + 1][..i] == paths[..i];
      assert Upto(paths, i + 1) == Upto(paths, i) + {path};
      if w.language(path).Some? && !(path in known && known[path].hash == w.hash(repo[path])) {
        if rest == 0 {
          return Interrupted, parsed, 0, n;
        }
        rest := rest - 1;
        var ok := store.Replace(path, w.extract(path, repo[path]), w.hash(repo[path]), w.language(path).value);
        if !ok {
          return NameTaken, parsed, rest, n;
        }
        parsed := parsed + {path};
      }
    }
    assert paths[..|paths|] == paths;
    n := |paths|;
    status := Finished;
  }

  lemma DeletedUpToDate(w: World, repo: map<string, Source>, db: Db, path: string)
    requires UpToDate(w, repo, db, repo.Keys) && path !in Supported(w, repo)
    ensures UpToDate(w, repo, DeletePath(db, path), repo.Keys)
  {
    forall p | p in Supported(w, repo)
      ensures Stored(w, DeletePath(db, path), p, repo[p])
    {
      DeletedOthers(w, db, path, p);
    }
  }

  ghost function Drops(db: Db, paths: seq<string>): Db {
    if paths == [] then db else DeletePath(Drops(db, paths[..|paths| - 1]), paths[|paths| - 1])
  }

  lemma {:induction false} DropsDone(w: World, repo: map<string, Source>, db: Db, paths: seq<string>)
    requires Inv(w, db) && UpToDate(w, repo, db, repo.Keys) && forall p <- paths :: p !in Supported(w, repo)
    ensures Inv(w, Drops(db, paths)) && UpToDate(w, repo, Drops(db, paths), repo.Keys)
    ensures Drops(db, paths).files.Keys == db.files.Keys - Upto(paths, |paths|)
    ensures Drops(db, paths).embeddings == db.embeddings
  {
    if paths != [] {
      var front, last := paths[..|paths| - 1], paths[|paths| - 1];
      DropsDone(w, repo, db, front);
      DeleteKeeps(w, Drops(db, front), last);
      DeletedUpToDate(w, repo, Drops(db, front), last);
      assert Upto(paths, |paths|) == Upto(front, |front|) + {last};
    }
  }

  /** Deletes the files the index knew that are gone or no longer covered. */
  method DropVanished(store: Store, vanished: seq<string>, left: nat) returns (status: Status, rest: nat, ghost n: nat)
    modifies store
    ensures n <= |vanished| && store.Contents() == Drops(old(store.Contents()), vanished[..n])
    ensures !status.NameTaken? && (status.Finished? ==> n == |vanished|)
  {
    rest := left;
    for i := 0 to |vanished|
      invariant store.Contents() == Drops(old(store.Contents()), vanished[..i])
    {
      n := i;
      assert vanished[..i + 1][..i] == vanished[..i];
      if rest == 0 {
        return Interrupted, 0, n;
      }
      rest := rest - 1;
      store.Delete(vanished[i]);
    }
    n := |vanished|;
    status := Finished;
  }

  // ----- edges

  lemma SameStored(w: World, a: Db, b: Db, p: string, source: Source)
    requires a.files == b.files && a.symbols == b.symbols && a.refs == b.refs && a.imports == b.imports
    ensures Stored(w, a, p, source) <==> Stored(w, b, p, source)
  {
    assert SymbolsOf(a, p) == SymbolsOf(b, p);
  }

  /** What is said about files does not depend on the two derived tables. */
  lemma SameFileTables(w: World, repo: map<string, Source>, a: Db, b: Db)
    requires a.files == b.files && a.symbols == b.symbols && a.refs == b.refs && a.imports == b.imports
    ensures WholeFiles(w, a) ==> WholeFiles(w, b)
    ensures Built(w, repo, a) ==> Built(w, repo, b)
  {
    forall p, source
      ensures Stored(w, a, p, source) <==> Stored(w, b, p, source)
    {
      SameStored(w, a, b, p, source);
    }
    if WholeFiles(w, a) {
      forall p | p in b.files
        ensures exists source :: Stored(w, b, p, source)
      {
        var source :| Stored(w, a, p, source);
        assert Stored(w, b, p, source);
      }
    }
  }

  /** Resolves all edges over the whole index and replaces the table. */
  method UpdateEdges(store: Store)
    modifies store`edges
    ensures EdgesCurrent(store.Contents())
  {
    var keys := store.Keys();
    var refs := store.References();
    var imports := store.Imports();
    var languages := Languages(store.files);
    var edges := EdgeResolver.Resolved(keys, refs, imports, languages);
    store.ReplaceEdges(edges);
    assert store.edges == EdgeSet(TablesOf(keys, imports, languages), refs);
    assert Resolves(store.Contents(), keys, refs, imports, store.edges);
  }

  // ----- embeddings

  /** The embedding of `q` is missing, or not that of its present text. */
  ghost predicate Outdated(w: World, symbols: map<string, Symbol>, embeddings: map<string, EmbeddingRow>, q: string) {
    && q in symbols && Embeddable(symbols[q])
    && exists text :: TextOf(symbols, q, text) && !(q in embeddings && embeddings[q].hash == w.textHash(text))
  }

  /** The items carry the present text of their symbols. */
  ghost predicate Present(w: World, symbols: map<string, Symbol>, items: seq<Batches.Pending>) {
    forall e <- items :: e.qname in symbols && TextOf(symbols, e.qname, e.text) && e.digest == w.textHash(e.text)
  }

  ghost predicate HasText(symbols: map<string, Symbol>, q: string) {
    q in symbols && exists text :: TextOf(symbols, q, text)
  }

  function ItemNames(items: seq<Batches.Pending>): seq<string> {
    seq(|items|, i requires 0 <= i < |items| => items[i].qname)
  }

  /** Lists the symbols whose text hash is not the stored one. */
  method FindPending(w: World, store: Store) returns (pending: seq<Batches.Pending>)
    ensures Present(w, store.symbols, pending) && NoRepeats(ItemNames(pending))
    ensures forall q :: q in ItemNames(pending) <==> Outdated(w, store.symbols, store.embeddings, q)
    ensures forall q | q in store.symbols && Embeddable(store.symbols[q]) :: HasText(store.symbols, q)
  {
    pending := [];
    var rows := store.EmbeddableSymbols();
    for i := 0 to |rows|
      invariant Present(w, store.symbols, pending) && NoRepeats(ItemNames(pending))
      invariant forall q :: q in rows[..i] ==> HasText(store.symbols, q)
      invariant forall q :: q in ItemNames(pending) <==>
          q in rows[..i] && Outdated(w, store.symbols, store.embeddings, q)
    {
      var q := rows[i];
      assert q in rows && q !in rows[..i];
      var methods: seq<MethodRow> := store.MethodsOf(q);
      var symbol := store.symbols[q];
      var text := EmbeddingText(symbol, if symbol.kind.ClassKind? then Signatures(methods) else []);
      assert TextOf(store.symbols, q, text);
      OutdatedByText(w, store.symbols, store.embeddings, q, text);
      if !(q in store.embeddings && store.embeddings[q].hash == w.textHash(text)) {
        var item := Batches.Pending(q, w.textHash(text), text);
        assert ItemNames(pending + [item]) == ItemNames(pending) + [q];
        pending := pending + [item];
      }
      assert rows[..i + 1] == rows[..i] + [q];
    }
    assert rows[..|rows|] == rows;
  }

  lemma OutdatedByText(
      w: World, symbols: map<string, Symbol>, embeddings: map<string, EmbeddingRow>, q: string, text: string)
    requires q in symbols && Embeddable(symbols[q]) && TextOf(symbols, q, text)
    ensures Outdated(w, symbols, embeddings, q) <==> !(q in embeddings && embeddings[q].hash == w.textHash(text))
  {
    if Outdated(w, symbols, embeddings, q) {
      var t :| TextOf(symbols, q, t) && !(q in embeddings && embeddings[q].hash == w.textHash(t));
      OneText(symbols, q, t, text);
    }
  }

  /** The rows stored for the items of a request. */
  function Rows(w: World, items: seq<Batches.Pending>): seq<Upsert> {
    seq(|items|, i requires 0 <= i < |items| =>
      Upsert(items[i].qname, EmbeddingRow(items[i].digest, w.unit(w.embed(items[i].text)))))
  }

  lemma {:induction false} UpsertedTwice(table: map<string, EmbeddingRow>, a: seq<Upsert>, b: seq<Upsert>)
    ensures Upserted(Upserted(table, a), b) == Upserted(table, a + b)
  {
    if b == [] {
      assert a + b == a;
    } else {
      UpsertedTwice(table, a, b[..|b| - 1]);
      assert (a + b)[..|a + b| - 1] == a + b[..|b| - 1];
    }
  }

  /** The rows stored for a batch the embedder answered with `vectors`. */
  function VectorRows(w: World, batch: seq<Batches.Pending>, vectors: seq<Vector>): (r: seq<Upsert>)
    requires |vectors| == |batch|
    ensures (forall k | 0 <= k < |batch| :: vectors[k] == w.embed(batch[k].text)) ==> r == Rows(w, batch)
  {
    seq(|batch|, k requires 0 <= k < |batch| =>
      Upsert(batch[k].qname, EmbeddingRow(batch[k].digest, w.unit(vectors[k]))))
  }

  lemma RowsJoin(w: World, a: seq<Batches.Pending>, b: seq<Batches.Pending>)
    ensures Rows(w, a + b) == Rows(w, a) + Rows(w, b)
  {
  }

  /** Sends the batches to the embedder and stores the vectors, batch by batch. The
      last batch sent may not have been stored. */
  method EmbedBatches(w: World, store: Store, batches: seq<seq<Batches.Pending>>, left: nat)
    returns (status: Status, sent: seq<Batches.Pending>, ghost stored: seq<Batches.Pending>, rest: nat)
    modifies store`embeddings
    ensures store.embeddings == Upserted(old(store.embeddings), Rows(w, stored))
    ensures stored <= sent <= Batches.Flatten(batches)
    ensures !status.NameTaken? && (status.Finished? ==> stored == sent == Batches.Flatten(batches))
  {
    sent, stored, rest := [], [], left;
    for i := 0 to |batches|
      invariant sent == stored == Batches.Flatten(batches[..i]) && sent <= Batches.Flatten(batches)
      invariant store.embeddings == Upserted(old(store.embeddings), Rows(w, stored))
    {
      var batch := batches[i];
      FlattenNext(batches, i);
      var vectors := seq(|batch|, k requires 0 <= k < |batch| => w.embed(batch[k].text));
      sent := sent + batch;
      if rest == 0 {
        return Interrupted, sent, stored, 0;
      }
      rest := rest - 1;
      RowsJoin(w, stored, batch);
      UpsertedTwice(old(store.embeddings), Rows(w, stored), Rows(w, batch));
      store.StoreEmbeddings(VectorRows(w, batch, vectors));
      stored := stored + batch;
    }
    assert batches[..|batches|] == batches;
    status := Finished;
  }

  lemma {:induction false} FlattenPrefix(batches: seq<seq<Batches.Pending>>, i: nat)
    requires i <= |batches|
    ensures Batches.Flatten(batches[..i]) <= Batches.Flatten(batches)
  {
    if i == |batches| {
      assert batches[..i] == batches;
    } else {
      FlattenPrefix(batches[..|batches| - 1], i);
      assert batches[..|batches| - 1][..i] == batches[..i];
    }
  }

  lemma FlattenNext(batches: seq<seq<Batches.Pending>>, i: nat)
    requires i < |batches|
    ensures Batches.Flatten(batches[..i]) + batches[i] == Batches.Flatten(batches[..i + 1]) <= Batches.Flatten(batches)
  {
    assert batches[..i + 1][..i] == batches[..i];
    FlattenPrefix(batches, i + 1);
  }

  lemma {:induction false} UpsertedRows(table: map<string, EmbeddingRow>, rows: seq<Upsert>, q: string)
    ensures q in Upserted(table, rows) ==>
              (q in table && Upserted(table, rows)[q] == table[q] && forall r <- rows :: r.qname != q)
              || Upsert(q, Upserted(table, rows)[q]) in rows
    ensures q in table || (exists r <- rows :: r.qname == q) ==> q in Upserted(table, rows)
  {
    if rows != [] {
      assert rows == rows[..|rows| - 1] + [rows[|rows| - 1]];
      UpsertedRows(table, rows[..|rows| - 1], q);
    }
  }

  lemma RowIsEmbedding(w: World, symbols: map<string, Symbol>, items: seq<Batches.Pending>, r: Upsert)
    requires Present(w, symbols, items) && r in Rows(w, items)
    ensures r.qname in symbols && exists text :: TextOf(symbols, r.qname, text) && r.row == Embedding(w, text)
    ensures r.qname in ItemNames(items)
  {
    var i :| 0 <= i < |items| && Rows(w, items)[i] == r;
    assert items[i] in items;
    assert ItemNames(items)[i] == r.qname;
  }

  /** Embeddings stay true whatever part of the batches was stored. */
  lemma UpsertedTrue(w: World, db: Db, items: seq<Batches.Pending>)
    requires TrueEmbeddings(w, db) && Present(w, db.symbols, items)
    ensures TrueEmbeddings(w, db.(embeddings := Upserted(db.embeddings, Rows(w, items))))
  {
    var table := Upserted(db.embeddings, Rows(w, items));
    forall q | q in table
      ensures exists text :: table[q] == Embedding(w, text)
    {
      UpsertedRows(db.embeddings, Rows(w, items), q);
      if Upsert(q, table[q]) in Rows(w, items) {
        RowIsEmbedding(w, db.symbols, items, Upsert(q, table[q]));
      } else {
        var text :| db.embeddings[q] == Embedding(w, text);
      }
    }
  }

  /** Once all pending items are stored, each embeddable symbol has the embedding
      of its present text. */
  lemma UpsertedCurrent(w: World, db: Db, items: seq<Batches.Pending>, q: string)
    requires Sound(w) && TrueEmbeddings(w, db) && Present(w, db.symbols, items)
    requires forall p :: p in ItemNames(items) <==> Outdated(w, db.symbols, db.embeddings, p)
    requires q in db.symbols && Embeddable(db.symbols[q]) && HasText(db.symbols, q)
    ensures Embedded(w, db.(embeddings := Upserted(db.embeddings, Rows(w, items))), q)
  {
    var table := Upserted(db.embeddings, Rows(w, items));
    UpsertedRows(db.embeddings, Rows(w, items), q);
    var text :| TextOf(db.symbols, q, text);
    OutdatedByText(w, db.symbols, db.embeddings, q, text);
    if q in ItemNames(items) {
      var i :| 0 <= i < |items| && ItemNames(items)[i] == q;
      assert Rows(w, items)[i] in Rows(w, items) && Rows(w, items)[i].qname == q;
      RowIsEmbedding(w, db.symbols, items, Upsert(q, table[q]));
    } else {
      HashTellsText(w, db, q, text);
      if Upsert(q, table[q]) in Rows(w, items) {
        RowIsEmbedding(w, db.symbols, items, Upsert(q, table[q]));
      }
    }
  }

  lemma AllUpserted(w: World, db: Db, items: seq<Batches.Pending>)
    requires Sound(w) && TrueEmbeddings(w, db) && Present(w, db.symbols, items)
    requires forall p :: p in ItemNames(items) <==> Outdated(w, db.symbols, db.embeddings, p)
    requires forall q | q in db.symbols && Embeddable(db.symbols[q]) :: HasText(db.symbols, q)
    ensures forall q | q in db.symbols && Embeddable(db.symbols[q]) ::
              Embedded(w, db.(embeddings := Upserted(db.embeddings, Rows(w, items))), q)
  {
    forall q | q in db.symbols && Embeddable(db.symbols[q])
      ensures Embedded(w, db.(embeddings := Upserted(db.embeddings, Rows(w, items))), q)
    {
      UpsertedCurrent(w, db, items, q);
    }
  }

  // ----- a run

  /** The first half of a run: the file tables. */
  method RunFiles(w: World, repo: map<string, Source>, paths: seq<string>, store: Store, left: nat)
    returns (status: Status, parsed: set<string>, rest: nat)
    requires Sound(w) && Inv(w, store.Contents())
    requires NoRepeats(paths) && forall p :: p in paths <==> p in repo
    modifies store
    ensures Inv(w, store.Contents()) && store.embeddings == old(store.embeddings)
    ensures parsed <= Stale(w, repo, old(store.files))
    ensures status.Finished? ==> Built(w, repo, store.Contents()) && parsed == Stale(w, repo, old(store.files))
    ensures status.NameTaken? ==> RepoClashes(w, repo, store.Contents())
  {
    ghost var start := store.Contents();
    var known := store.files.Keys;
    ghost var n;
    status, parsed, rest, n := UpdateFiles(w, repo, paths, store, left);
    Refreshed(w, repo, start, paths, n, store.Contents());
    AllFilesDone(w, repo, start, store.Contents(), Upto(paths, n));
    if status.NameTaken? {
      NameTakenClashes(w, repo, start.files, store.Contents(), paths[n]);
    }
    if !status.Finished? {
      return;
    }
    assert Upto(paths, n) == repo.Keys;
    ghost var refreshed := store.Contents();
    var vanished := SortedNames(known - Supported(w, repo));
    status, rest, n := DropVanished(store, vanished, rest);
    Cleared(w, repo, known, refreshed, vanished, n);
  }

  /** After the first `n` files. */
  lemma Refreshed(w: World, repo: map<string, Source>, start: Db, paths: seq<string>, n: nat, db: Db)
    requires Sound(w) && Inv(w, start)
    requires NoRepeats(paths) && (forall p <- paths :: p in repo) && n <= |paths|
    requires FileSteps(w, repo, start.files, start, paths[..n]) == Some(db)
    ensures FilesDone(w, repo, start, db, Upto(paths, n))
  {
    FileStepsDone(w, repo, start, paths[..n]);
    assert Upto(paths[..n], n) == Upto(paths, n);
  }

  /** After all of them. */
  lemma AllFilesDone(w: World, repo: map<string, Source>, start: Db, db: Db, done: set<string>)
    requires FilesDone(w, repo, start, db, done)
    ensures Inv(w, db) && db.embeddings == start.embeddings
    ensures done == repo.Keys ==>
              UpToDate(w, repo, db, repo.Keys) && db.files.Keys == start.files.Keys + Supported(w, repo)
  {
    assert repo.Keys * Supported(w, repo) == Supported(w, repo);
  }

  lemma NameTakenClashes(w: World, repo: map<string, Source>, known: map<string, FileRow>, db: Db, path: string)
    requires Inv(w, db) && path in repo && FileStep(w, repo, known, db, path).None?
    ensures RepoClashes(w, repo, db)
  {
    RefusedForClash(w, db, path, repo[path]);
  }

  lemma BuiltWhen(w: World, repo: map<string, Source>, db: Db)
    requires NoStrays(db) && UpToDate(w, repo, db, repo.Keys) && db.files.Keys == Supported(w, repo)
    ensures Built(w, repo, db)
  {
  }

  /** After the first `n` deletions, or all of them. */
  lemma Cleared(w: World, repo: map<string, Source>, known: set<string>, db: Db, vanished: seq<string>, n: nat)
    requires Inv(w, db) && UpToDate(w, repo, db, repo.Keys) && db.files.Keys == known + Supported(w, repo)
    requires (forall p :: p in vanished <==> p in known - Supported(w, repo)) && n <= |vanished|
    ensures Inv(w, Drops(db, vanished[..n])) && Drops(db, vanished[..n]).embeddings == db.embeddings
    ensures n == |vanished| ==> Built(w, repo, Drops(db, vanished[..n]))
  {
    var first := vanished[..n];
    assert forall p <- first :: p in vanished;
    DropsDone(w, repo, db, first);
    if n == |vanished| {
      assert first == vanished;
      AllGone(known, Supported(w, repo), vanished);
      assert Drops(db, first).files.Keys == Supported(w, repo);
      BuiltWhen(w, repo, Drops(db, first));
    }
  }

  lemma AllGone(known: set<string>, supported: set<string>, vanished: seq<string>)
    requires forall p :: p in vanished <==> p in known - supported
    ensures known + supported - Upto(vanished, |vanished|) == supported
  {
    assert Upto(vanished, |vanished|) == known - supported;
  }

  lemma EmbeddingsKeep(w: World, repo: map<string, Source>, db: Db, items: seq<Batches.Pending>)
    requires Inv(w, db) && Built(w, repo, db) && EdgesCurrent(db) && Present(w, db.symbols, items)
    ensures var r := db.(embeddings := Upserted(db.embeddings, Rows(w, items)));
            Inv(w, r) && Built(w, repo, r) && EdgesCurrent(r)
  {
    var r := db.(embeddings := Upserted(db.embeddings, Rows(w, items)));
    SameFileTables(w, repo, db, r);
    UpsertedTrue(w, db, items);
    EdgesStayCurrent(db, r);
  }

  lemma EdgesStayCurrent(a: Db, b: Db)
    requires EdgesCurrent(a) && b == a.(embeddings := b.embeddings)
    ensures EdgesCurrent(b)
  {
    var keys, refs, imports :| Resolves(a, keys, refs, imports, a.edges);
    assert Resolves(b, keys, refs, imports, b.edges);
  }

  lemma PruneCurrent(w: World, db: Db)
    requires TrueEmbeddings(w, db)
    requires forall q | q in db.symbols && Embeddable(db.symbols[q]) :: Embedded(w, db, q)
    ensures TrueEmbeddings(w, Pruned(db)) && EmbeddingsCurrent(w, Pruned(db))
  {
    forall q | q in Pruned(db).embeddings
      ensures Embedded(w, Pruned(db), q) && exists text :: Pruned(db).embeddings[q] == Embedding(w, text)
    {
      assert Embedded(w, db, q);
    }
  }

  lemma PruneFinishes(w: World, repo: map<string, Source>, db: Db)
    requires Inv(w, db) && Built(w, repo, db) && EdgesCurrent(db)
    requires forall q | q in db.symbols && Embeddable(db.symbols[q]) :: Embedded(w, db, q)
    ensures Inv(w, Pruned(db)) && Built(w, repo, Pruned(db)) && EdgesCurrent(Pruned(db))
        && EmbeddingsCurrent(w, Pruned(db))
  {
    SameFileTables(w, repo, db, Pruned(db));
    EdgesStayCurrent(db, Pruned(db));
    PruneCurrent(w, db);
  }

  /** The second half of a run: edges and embeddings. */
  method RunDerived(w: World, repo: map<string, Source>, store: Store, left: nat)
    returns (status: Status, sent: seq<Batches.Pending>, rest: nat)
    requires Sound(w) && Inv(w, store.Contents()) && Built(w, repo, store.Contents())
    modifies store
    ensures Inv(w, store.Contents()) && Built(w, repo, store.Contents())
    ensures status.Finished? ==> EdgesCurrent(store.Contents()) && EmbeddingsCurrent(w, store.Contents())
    ensures NoRepeats(ItemNames(sent)) && Present(w, store.symbols, sent)
    ensures forall q :: q in ItemNames(sent) ==> Outdated(w, store.symbols, old(store.embeddings), q)
    ensures status.Finished? ==> forall q ::
        Outdated(w, store.symbols, old(store.embeddings), q) ==> q in ItemNames(sent)
    ensures !status.NameTaken?
  {
    sent, rest := [], left;
    if rest == 0 {
      return Interrupted, sent, rest;
    }
    rest := rest - 1;
    ghost var start := store.Contents();
    UpdateEdges(store);
    SameFileTables(w, repo, start, store.Contents());
    status, sent, rest := RunEmbeddings(w, repo, store, rest);
  }

  /** Embeds what changed and drops the embeddings nothing needs any more. */
  method RunEmbeddings(w: World, repo: map<string, Source>, store: Store, left: nat)
    returns (status: Status, sent: seq<Batches.Pending>, rest: nat)
    requires Sound(w) && Inv(w, store.Contents()) && Built(w, repo, store.Contents()) && EdgesCurrent(store.Contents())
    modifies store`embeddings
    ensures Inv(w, store.Contents()) && Built(w, repo, store.Contents()) && EdgesCurrent(store.Contents())
    ensures status.Finished? ==> EmbeddingsCurrent(w, store.Contents())
    ensures NoRepeats(ItemNames(sent)) && Present(w, store.symbols, sent)
    ensures forall q :: q in ItemNames(sent) ==> Outdated(w, store.symbols, old(store.embeddings), q)
    ensures status.Finished? ==> forall q ::
        Outdated(w, store.symbols, old(store.embeddings), q) ==> q in ItemNames(sent)
    ensures !status.NameTaken?
  {
    ghost var linked := store.Contents();
    var pending := FindPending(w, store);
    var batches := Batches.Split(pending);
    ghost var stored;
    status, sent, stored, rest := EmbedBatches(w, store, batches, left);
    SentPart(w, store.symbols, pending, sent);
    SentPart(w, store.symbols, pending, stored);
    EmbeddingsKeep(w, repo, linked, stored);
    if !status.Finished? {
      return;
    }
    if rest == 0 {
      return Interrupted, sent, rest;
    }
    rest := rest - 1;
    AllUpserted(w, linked, sent);
    PruneFinishes(w, repo, store.Contents());
    store.Prune();
  }

  lemma SentPart(w: World, symbols: map<string, Symbol>, pending: seq<Batches.Pending>, sent: seq<Batches.Pending>)
    requires sent <= pending && Present(w, symbols, pending) && NoRepeats(ItemNames(pending))
    ensures Present(w, symbols, sent) && NoRepeats(ItemNames(sent))
    ensures forall q :: q in ItemNames(sent) ==> q in ItemNames(pending)
  {
    assert ItemNames(sent) <= ItemNames(pending);
  }

  /** One run on the contents `repo`, over an index in whatever state earlier runs
      left it. Cut off anywhere, it leaves whole files and true embeddings; only
      stale files were parsed and only symbols whose text changed were sent to
      the embedder, each once. If it finishes, all tables are those of `repo`,
      and every stale file and changed symbol was treated. It fails only if a file
      of `repo` yields a name twice, or one another stored file yields. */
  method IndexRepo(w: World, repo: map<string, Source>, paths: seq<string>, store: Store, left: nat)
    returns (status: Status, parsed: set<string>, sent: seq<Batches.Pending>)
    requires Sound(w) && Inv(w, store.Contents())
    requires NoRepeats(paths) && forall p :: p in paths <==> p in repo
    modifies store
    ensures Inv(w, store.Contents())
    ensures parsed <= Stale(w, repo, old(store.files)) && NoRepeats(ItemNames(sent))
    ensures forall q :: q in ItemNames(sent) ==> Outdated(w, store.symbols, old(store.embeddings), q)
    ensures status.Finished? ==>
      && Built(w, repo, store.Contents()) && EdgesCurrent(store.Contents()) && EmbeddingsCurrent(w, store.Contents())
      && parsed == Stale(w, repo, old(store.files))
      && forall q :: Outdated(w, store.symbols, old(store.embeddings), q) ==> q in ItemNames(sent)
    ensures status.Finished? ==> forall q ::
              q in store.embeddings <==> q in store.symbols && store.symbols[q].kind != TypeKind
    ensures status.Finished? ==> forall q, was :: NeedsVector(w, store.symbols, old(store.embeddings), q, was)
                                                  ==> q in ItemNames(sent)
    ensures status.NameTaken? ==> RepoClashes(w, repo, store.Contents())
  {
    var rest;
    sent := [];
    status, parsed, rest := RunFiles(w, repo, paths, store, left);
    if status.Finished? {
      status, sent, rest := RunDerived(w, repo, store, rest);
    }
    if status.Finished? {
      AllEditedOutdated(w, store.Contents(), old(store.embeddings));
    }
  }

  /** The embedding of `q` was made of the text of `was`, and `q` is a function or
      method whose body was edited since. */
  ghost predicate NeedsVector(
      w: World, symbols: map<string, Symbol>, embeddings: map<string, EmbeddingRow>, q: string, was: Symbol)
  {
    && q in embeddings && embeddings[q].hash == w.textHash(EmbeddingText(was, []))
    && q in symbols && symbols[q].kind != TypeKind && EmbeddedText.Edited(was, symbols[q])
  }

  lemma EditedOutdated(w: World, db: Db, embeddings: map<string, EmbeddingRow>, q: string, was: Symbol)
    requires Sound(w) && EmbeddingsCurrent(w, db) && NeedsVector(w, db.symbols, embeddings, q, was)
    ensures Outdated(w, db.symbols, embeddings, q)
  {
    assert Embedded(w, db, q);
    var text :| TextOf(db.symbols, q, text);
    EmbeddedText.EditShows(was, db.symbols[q]);
    OutdatedByText(w, db.symbols, embeddings, q, text);
  }

  lemma AllEditedOutdated(w: World, db: Db, embeddings: map<string, EmbeddingRow>)
    requires Sound(w) && EmbeddingsCurrent(w, db)
    ensures forall q, was :: NeedsVector(w, db.symbols, embeddings, q, was) ==> Outdated(w, db.symbols, embeddings, q)
  {
    forall q, was | NeedsVector(w, db.symbols, embeddings, q, was)
      ensures Outdated(w, db.symbols, embeddings, q)
    {
      EditedOutdated(w, db, embeddings, q, was);
    }
  }

  lemma EmptyHolds(w: World)
    ensures Inv(w, EmptyDb())
  {
  }

  /** Indexes the contents over the given index and from nothing: if both runs
      finish they leave the same tables, embeddings included, whatever earlier
      runs, finished or cut off, had left in the first index. */
  method IndexBeside(w: World, repo: map<string, Source>, paths: seq<string>, store: Store, left: nat, left': nat)
    returns (status: Status, status': Status, anew: Store)
    requires Sound(w) && Inv(w, store.Contents())
    requires NoRepeats(paths) && forall p :: p in paths <==> p in repo
    modifies store
    ensures status.Finished? && status'.Finished? ==> anew.Contents() == store.Contents()
  {
    EmptyHolds(w);
    anew := new Store();
    var parsed, sent;
    status, parsed, sent := IndexRepo(w, repo, paths, store, left);
    status', parsed, sent := IndexRepo(w, repo, paths, anew, left');
    if status.Finished? && status'.Finished? {
      IncrementalIsFresh(w, repo, store.Contents(), anew.Contents());
      EmbeddingsAlike(w, store.Contents(), anew.Contents());
    }
  }

  /** Once a run finished, the next one on the same contents finds no file to
      parse and nothing to embed. */
  lemma NextRunIsIdle(w: World, repo: map<string, Source>, db: Db)
    requires Built(w, repo, db) && EmbeddingsCurrent(w, db)
    ensures Stale(w, repo, db.files) == {}
    ensures forall q :: !Outdated(w, db.symbols, db.embeddings, q)
  {
    forall p | p in Supported(w, repo)
      ensures p in db.files && db.files[p].hash == w.hash(repo[p])
    {
      assert Stored(w, db, p, repo[p]);
    }
    forall q
      ensures !Outdated(w, db.symbols, db.embeddings, q)
    {
      if q in db.symbols && Embeddable(db.symbols[q]) {
        assert Embedded(w, db, q);
        var text :| TextOf(db.symbols, q, text) && db.embeddings[q] == Embedding(w, text);
        OutdatedByText(w, db.symbols, db.embeddings, q, text);
      }
    }
  }
}
