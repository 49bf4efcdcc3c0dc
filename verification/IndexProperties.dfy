/** Why an incremental run ends where a run on an empty index does. */
module IndexProperties {
  import opened Sorting
  import opened EdgeResolution
  import opened EdgeProperties
  import EdgeMeaning
  import opened IndexModel

  // ----- one transaction

  lemma {:induction false} KeyedNames(symbols: seq<Symbol>)
    ensures forall q :: q in Keyed(QName, symbols) <==> exists s :: s in symbols && QName(s) == q
    ensures forall q | q in Keyed(QName, symbols) ::
        Keyed(QName, symbols)[q] in symbols && QName(Keyed(QName, symbols)[q]) == q
  {
    if symbols != [] {
      var front, last := symbols[..|symbols| - 1], symbols[|symbols| - 1];
      assert symbols == front + [last];
      KeyedNames(front);
      forall q
        ensures q in Keyed(QName, symbols) <==> exists s :: s in symbols && QName(s) == q
      {
        assert q in Keyed(QName, symbols) <==> q in Keyed(QName, front) || q == QName(last);
        if q in Keyed(QName, front) {
          var s :| s in front && QName(s) == q;
          assert s in symbols;
        }
      }
    }
  }

  /** Replacing the rows of `path` in the table of symbols. */
  lemma ReplacedSymbols(db: Db, path: string, added: map<string, Symbol>, r: Db)
    requires forall q | q in added :: added[q].path == path
    requires r.symbols == DeletePath(db, path).symbols + added
    ensures SymbolsOf(r, path) == added
  {
    var own := SymbolsOf(r, path);
    forall q
      ensures q in own <==> q in added
      ensures q in own ==> own[q] == added[q]
    {
    }
  }

  lemma ReplacedOtherSymbols(db: Db, path: string, added: map<string, Symbol>, r: Db, other: string)
    requires other != path && forall q | q in added :: added[q].path == path && q !in DeletePath(db, path).symbols
    requires r.symbols == DeletePath(db, path).symbols + added
    ensures SymbolsOf(r, other) == SymbolsOf(db, other)
  {
    var own, was := SymbolsOf(r, other), SymbolsOf(db, other);
    forall q
      ensures q in own <==> q in was
      ensures q in own ==> own[q] == was[q]
    {
      if q in was {
        assert q in DeletePath(db, path).symbols;
      }
    }
  }

  lemma ReplacedStored(w: World, db: Db, path: string, source: Source)
    requires Sound(w) && NoStrays(db) && w.language(path).Some?
    requires Insertable(DeletePath(db, path).symbols, w.extract(path, source).symbols)
    ensures Stored(w, ReplaceFile(db, path, w.extract(path, source), FileRow(w.hash(source), w.language(path).value)),
        path, source)
  {
    var x := w.extract(path, source);
    var r := ReplaceFile(db, path, x, FileRow(w.hash(source), w.language(path).value));
    KeyedNames(x.symbols);
    ReplacedSymbols(db, path, Keyed(QName, x.symbols), r);
  }

  /** Rows of other files are not touched. */
  lemma ReplacedOthers(w: World, db: Db, path: string, x: Extraction, row: FileRow, other: string)
    requires (forall s <- x.symbols :: s.path == path) && other != path
    requires Insertable(DeletePath(db, path).symbols, x.symbols)
    ensures SymbolsOf(ReplaceFile(db, path, x, row), other) == SymbolsOf(db, other)
    ensures forall source :: Stored(w, ReplaceFile(db, path, x, row), other, source) <==> Stored(w, db, other, source)
  {
    KeyedNames(x.symbols);
    ReplacedOtherSymbols(db, path, Keyed(QName, x.symbols), ReplaceFile(db, path, x, row), other);
  }

  lemma ReplacedNoStrays(db: Db, path: string, x: Extraction, row: FileRow)
    requires NoStrays(db) && forall s <- x.symbols :: s.path == path
    ensures NoStrays(ReplaceFile(db, path, x, row))
  {
    KeyedNames(x.symbols);
  }

  lemma DeletedOthers(w: World, db: Db, path: string, other: string)
    requires other != path
    ensures forall source :: Stored(w, DeletePath(db, path), other, source) <==> Stored(w, db, other, source)
  {
    assert SymbolsOf(DeletePath(db, path), other) == SymbolsOf(db, other);
  }

  lemma ReplaceKeeps(w: World, db: Db, path: string, source: Source)
    requires Sound(w) && Inv(w, db) && w.language(path).Some?
    requires Insertable(DeletePath(db, path).symbols, w.extract(path, source).symbols)
    ensures Inv(w, ReplaceFile(db, path, w.extract(path, source), FileRow(w.hash(source), w.language(path).value)))
  {
    var x := w.extract(path, source);
    var row := FileRow(w.hash(source), w.language(path).value);
    var r := ReplaceFile(db, path, x, row);
    ReplacedStored(w, db, path, source);
    ReplacedNoStrays(db, path, x, row);
    forall p | p in r.files
      ensures exists s :: Stored(w, r, p, s)
    {
      if p != path {
        ReplacedOthers(w, db, path, x, row, p);
        var s :| Stored(w, db, p, s);
        assert Stored(w, r, p, s);
      }
    }
  }

  lemma DeleteKeeps(w: World, db: Db, path: string)
    requires Inv(w, db)
    ensures Inv(w, DeletePath(db, path))
  {
    var r := DeletePath(db, path);
    forall p | p in r.files
      ensures exists s :: Stored(w, r, p, s)
    {
      DeletedOthers(w, db, path, p);
      var s :| Stored(w, db, p, s);
      assert Stored(w, r, p, s);
    }
  }

  /** A file whose stored hash is that of its contents is stored as it is now. */
  lemma HashTells(w: World, db: Db, path: string, source: Source)
    requires Sound(w) && Inv(w, db) && path in db.files && db.files[path].hash == w.hash(source)
    ensures Stored(w, db, path, source)
  {
    var s :| Stored(w, db, path, s);
    assert s == source;
  }

  // ----- a finished run

  lemma StoredAlike(w: World, a: Db, b: Db, p: string, source: Source)
    requires Stored(w, a, p, source) && Stored(w, b, p, source)
    ensures a.files[p] == b.files[p] && a.refs[p] == b.refs[p] && a.imports[p] == b.imports[p]
    ensures SymbolsOf(a, p) == SymbolsOf(b, p)
  {
  }

  /** The repository's contents determine the file tables. */
  lemma BuiltAlike(w: World, repo: map<string, Source>, a: Db, b: Db)
    requires Built(w, repo, a) && Built(w, repo, b)
    ensures a.files == b.files && a.symbols == b.symbols && a.refs == b.refs && a.imports == b.imports
  {
    forall p | p in a.files
      ensures a.files[p] == b.files[p] && a.refs[p] == b.refs[p] && a.imports[p] == b.imports[p]
      ensures SymbolsOf(a, p) == SymbolsOf(b, p)
    {
      StoredAlike(w, a, b, p, repo[p]);
    }
    BuiltSymbols(a, b);
    BuiltSymbols(b, a);
    SameMap(a.files, b.files);
    SameMap(a.refs, b.refs);
    SameMap(a.imports, b.imports);
    SameMap(a.symbols, b.symbols);
  }

  lemma SameMap<V>(a: map<string, V>, b: map<string, V>)
    requires a.Keys == b.Keys && forall k | k in a :: a[k] == b[k]
    ensures a == b
  {
  }

  lemma BuiltSymbols(a: Db, b: Db)
    requires NoStrays(a) && forall p | p in a.files :: SymbolsOf(a, p) == SymbolsOf(b, p)
    ensures forall q | q in a.symbols :: q in b.symbols && a.symbols[q] == b.symbols[q]
  {
    forall q | q in a.symbols
      ensures q in b.symbols && a.symbols[q] == b.symbols[q]
    {
      var p := a.symbols[q].path;
      assert q in SymbolsOf(a, p);
      assert SymbolsOf(a, p)[q] == SymbolsOf(b, p)[q];
    }
  }

  lemma {:induction false} KeyedSqueeze(rows: seq<Import>)
    ensures Keyed(BindingKey, rows) == Keyed(BindingKey, Squeeze(rows))
  {
    if |rows| >= 2 {
      var front, last := rows[..|rows| - 1], rows[|rows| - 1];
      KeyedSqueeze(front);
      if last == front[|front| - 1] {
        assert Keyed(BindingKey, front)[BindingKey(last)] == last;
        assert Keyed(BindingKey, rows) == Keyed(BindingKey, front);
      } else {
        assert (Squeeze(front) + [last])[..|Squeeze(front)|] == Squeeze(front);
      }
    }
  }

  lemma SameBindings(a: seq<Import>, b: seq<Import>)
    requires Sorted(ImportLe, a) && Sorted(ImportLe, b) && forall i :: i in a <==> i in b
    ensures Keyed(BindingKey, a) == Keyed(BindingKey, b)
  {
    ImportOrder();
    SqueezeLists(ImportLe, a);
    SqueezeLists(ImportLe, b);
    ListingUnique(ImportLe, Squeeze(a), Squeeze(b));
    KeyedSqueeze(a);
    KeyedSqueeze(b);
  }

  lemma SameKeys(keys: seq<SymbolKey>, keys': seq<SymbolKey>, symbols: map<string, Symbol>)
    requires ListsKeys(keys, symbols) && ListsKeys(keys', symbols)
    requires forall q | q in symbols :: QName(symbols[q]) == q
    ensures Keyed(NameKey, keys) == Keyed(NameKey, keys')
  {
    forall k, l | k in keys && l in keys && NameKey(k) == NameKey(l)
      ensures k == l
    {
      var q :| q in symbols && KeyOf(symbols[q]) == k;
      var r :| r in symbols && KeyOf(symbols[r]) == l;
      assert q == r;
    }
    KeyedBySet(NameKey, keys, keys');
  }

  /** The file tables determine the edges, in whatever order rows are read. */
  lemma ResolvedAlike(
      a: Db, b: Db, keys: seq<SymbolKey>, refs: seq<Reference>, imports: seq<Import>,
      keys': seq<SymbolKey>, refs': seq<Reference>, imports': seq<Import>)
    requires NoStrays(a) && a.files == b.files && a.symbols == b.symbols && a.refs == b.refs && a.imports == b.imports
    requires Resolves(a, keys, refs, imports, a.edges) && Resolves(b, keys', refs', imports', b.edges)
    ensures a.edges == b.edges
  {
    SameKeys(keys, keys', a.symbols);
    SameBindings(imports, imports');
    ReferenceOrderIndependent(TablesOf(keys, imports, Languages(a.files)), refs, refs');
  }

  /** After a completed run on the contents `repo`, the five tables are the same,
      whatever the index held when the run began. In particular they are those
      of a run on an empty index. */
  lemma IncrementalIsFresh(w: World, repo: map<string, Source>, a: Db, b: Db)
    requires Built(w, repo, a) && EdgesCurrent(a)
    requires Built(w, repo, b) && EdgesCurrent(b)
    ensures a.files == b.files && a.symbols == b.symbols && a.refs == b.refs && a.imports == b.imports
    ensures a.edges == b.edges
  {
    BuiltAlike(w, repo, a, b);
    var keys, refs, imports :| Resolves(a, keys, refs, imports, a.edges);
    var keys', refs', imports' :| Resolves(b, keys', refs', imports', b.edges);
    ResolvedAlike(a, b, keys, refs, imports, keys', refs', imports');
  }

  /** `m` is declared in the class or function `c`. */
  predicate DeclaredIn(m: Symbol, c: Symbol) {
    m.path == c.path && m.scope == (if c.scope == "" then c.name else c.scope + "." + c.name) && m.scope != ""
  }

  lemma KeyedOfTables(db: Db, keys: seq<SymbolKey>, q: string)
    requires NoStrays(db) && ListsKeys(keys, db.symbols) && q in db.symbols
    ensures q in Keyed(NameKey, keys) && Keyed(NameKey, keys)[q] == KeyOf(db.symbols[q])
  {
    forall k, l | k in keys && l in keys && NameKey(k) == NameKey(l)
      ensures k == l
    {
      var p :| p in db.symbols && KeyOf(db.symbols[p]) == k;
      var r :| r in db.symbols && KeyOf(db.symbols[r]) == l;
      assert p == r;
    }
    KeyedHolds(NameKey, keys);
    assert KeyOf(db.symbols[q]) in keys;
  }

  /** While the edges are current, each symbol declared in another has the edge that
      says so, between the qualified names of the two. */
  lemma DeclarationsHaveEdges(db: Db, q: string, m: string)
    requires NoStrays(db) && EdgesCurrent(db) && q in db.symbols && m in db.symbols
    requires DeclaredIn(db.symbols[m], db.symbols[q])
    ensures Edge(q, m, Defines) in db.edges
  {
    var keys, refs, imports :| Resolves(db, keys, refs, imports, db.edges);
    var t := TablesOf(keys, imports, Languages(db.files));
    KeyedOfTables(db, keys, m);
    var key := t.byName[m];
    assert key in t.byName.Values && key.qname == m;
    assert EdgeMeaning.Contains(t, key, Edge(q, m, Defines));
    EdgeMeaning.EdgesExactly(t, refs, Edge(q, m, Defines));
  }

  // ----- embeddings

  lemma MethodOrder()
    ensures TotalOrder(MethodLe)
  {
    RowOrder();
    forall a, b | MethodLe(a, b) && MethodLe(b, a)
      ensures a == b
    {
      assert [a.name, a.signature] == [b.name, b.signature];
      assert [a.name, a.signature][0] == [b.name, b.signature][0];
      assert [a.name, a.signature][1] == [b.name, b.signature][1];
    }
    forall a, b, c | MethodLe(a, b) && MethodLe(b, c)
      ensures MethodLe(a, c)
    {
      if a.line == b.line == c.line {
        assert RowLe([a.name, a.signature], [b.name, b.signature])
            && RowLe([b.name, b.signature], [c.name, c.signature]);
      }
    }
  }

  lemma OneText(symbols: map<string, Symbol>, q: string, text: string, text': string)
    requires q in symbols && TextOf(symbols, q, text) && TextOf(symbols, q, text')
    ensures text == text'
  {
    var rows :| ListsMethods(rows, symbols, q) &&
      text == EmbeddingText(symbols[q], if symbols[q].kind.ClassKind? then Signatures(rows) else []);
    var rows' :| ListsMethods(rows', symbols, q) &&
      text' == EmbeddingText(symbols[q], if symbols[q].kind.ClassKind? then Signatures(rows') else []);
    MethodOrder();
    ListingUnique(MethodLe, rows, rows');
  }

  /** The embedding kept because its hash is that of the present text is the
      embedding of the present text. */
  lemma HashTellsText(w: World, db: Db, q: string, text: string)
    requires Sound(w) && TrueEmbeddings(w, db) && q in db.embeddings
    requires db.embeddings[q].hash == w.textHash(text)
    ensures db.embeddings[q] == Embedding(w, text)
  {
    var t :| db.embeddings[q] == Embedding(w, t);
    assert t == text;
  }

  /** After completed runs the embeddings agree as well. */
  lemma EmbeddingsAlike(w: World, a: Db, b: Db)
    requires a.symbols == b.symbols && EmbeddingsCurrent(w, a) && EmbeddingsCurrent(w, b)
    ensures a.embeddings == b.embeddings
  {
    forall q | q in a.embeddings
      ensures q in b.embeddings && a.embeddings[q] == b.embeddings[q]
    {
      assert q in b.embeddings;
      assert Embedded(w, a, q) && Embedded(w, b, q);
      var text :| TextOf(a.symbols, q, text) && a.embeddings[q] == Embedding(w, text);
      var text' :| TextOf(b.symbols, q, text') && b.embeddings[q] == Embedding(w, text');
      OneText(a.symbols, q, text, text');
    }
    assert forall q :: q in b.embeddings ==> q in a.embeddings;
  }
}
