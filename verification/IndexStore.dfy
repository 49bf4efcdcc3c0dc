/** The index of one repository: tables updated in place, one transaction at a
    time, and the readers the indexer resolves and embeds from. */
module IndexStore {
  import opened Subsequences
  import opened Sorting
  import opened EdgeResolution
  import opened IndexModel
  import opened IndexProperties

  /** A row for the table of embeddings. */
  datatype Upsert = Upsert(qname: string, row: EmbeddingRow)

  function Upserted(table: map<string, EmbeddingRow>, rows: seq<Upsert>): map<string, EmbeddingRow> {
    if rows == [] then table
    else Upserted(table, rows[..|rows| - 1])[rows[|rows| - 1].qname := rows[|rows| - 1].row]
  }

  function Pruned(db: Db): Db {
    db.(embeddings := map q | q in db.embeddings && q in db.symbols && Embeddable(db.symbols[q]) :: db.embeddings[q])
  }

  class Store {
    var files: map<string, FileRow>
    var symbols: map<string, Symbol>
    var refs: map<string, seq<Reference>>
    var imports: map<string, seq<Import>>
    var edges: set<Edge>
    var embeddings: map<string, EmbeddingRow>

    ghost function Contents(): Db
      reads this
    {
      Db(files, symbols, refs, imports, edges, embeddings)
    }

    constructor ()
      ensures Contents() == EmptyDb()
    {
      files, symbols, refs, imports, edges, embeddings := map[], map[], map[], map[], {}, map[];
    }

    // ----- transactions

    /** Replaces everything stored for one file; a name already taken by another
        file, or given twice, undoes it all. */
    method Replace(path: string, x: Extraction, digest: Digest, language: string) returns (ok: bool)
      modifies this
      ensures ok == Insertable(DeletePath(old(Contents()), path).symbols, x.symbols)
      ensures ok ==> Contents() == ReplaceFile(old(Contents()), path, x, FileRow(digest, language))
      ensures !ok ==> Contents() == old(Contents())
    {
      var table;
      ok, table := InsertedAll(map q | q in symbols && symbols[q].path != path :: symbols[q], x.symbols);
      if ok {
        files := (files - {path})[path := FileRow(digest, language)];
        symbols := table;
        refs := (refs - {path})[path := x.references];
        imports := (imports - {path})[path := x.imports];
      }
    }

    method Delete(path: string)
      modifies this
      ensures Contents() == DeletePath(old(Contents()), path)
    {
      files := files - {path};
      symbols := map q | q in symbols && symbols[q].path != path :: symbols[q];
      refs := refs - {path};
      imports := imports - {path};
    }

    method ReplaceEdges(rows: seq<Edge>)
      modifies this`edges
      ensures edges == set e | e in rows
    {
      edges := {};
      for i := 0 to |rows|
        invariant edges == set e | e in rows[..i]
      {
        edges := edges + {rows[i]};
      }
      assert rows[..|rows|] == rows;
    }

    method StoreEmbeddings(rows: seq<Upsert>)
      modifies this`embeddings
      ensures embeddings == Upserted(old(embeddings), rows)
    {
      for i := 0 to |rows|
        invariant embeddings == Upserted(old(embeddings), rows[..i])
      {
        assert rows[..i + 1][..i] == rows[..i];
        embeddings := embeddings[rows[i].qname := rows[i].row];
      }
      assert rows[..|rows|] == rows;
    }

    method Prune()
      modifies this`embeddings
      ensures Contents() == Pruned(old(Contents()))
    {
      embeddings := map q | q in embeddings && q in symbols && Embeddable(symbols[q]) :: embeddings[q];
    }

    // ----- readers

    /** The names of all symbols, in order. */
    method Names() returns (names: seq<string>)
      ensures Sorted(TextLe, names) && NoRepeats(names) && forall q :: q in names <==> q in symbols
    {
      names := SortedNames(symbols.Keys);
    }

    method Keys() returns (rows: seq<SymbolKey>)
      ensures ListsKeys(rows, symbols)
      ensures |rows| == |symbols.Keys|
      ensures (forall q <- symbols :: QName(symbols[q]) == q) ==>
                forall i, j | 0 <= i < j < |rows| :: TextLe(rows[i].qname, rows[j].qname)
    {
      var names := Names();
      rows := [];
      for i := 0 to |names|
        invariant |rows| == i
        invariant forall k | 0 <= k < i :: rows[k] == KeyOf(symbols[names[k]])
      {
        assert names[i] in names;
        rows := rows + [KeyOf(symbols[names[i]])];
      }
      NamesKeys(symbols, names, rows);
    }

    method References() returns (rows: seq<Reference>)
      ensures ListsRows(rows, refs)
    {
      rows := AllRows(refs);
    }

    method Imports() returns (rows: seq<Import>)
      ensures ListsRows(rows, imports) && Sorted(ImportLe, rows)
    {
      var all := AllRows(imports);
      rows := Sort(ImportLe, all);
      ImportOrder();
      SortSorts(ImportLe, all);
      forall r
        ensures r in rows <==> r in all
      {
        SameElements(all, rows, r);
      }
    }

    /** The functions, methods and classes by name. */
    method EmbeddableSymbols() returns (rows: seq<string>)
      ensures forall q :: q in rows <==> q in symbols && Embeddable(symbols[q])
      ensures Sorted(TextLe, rows) && NoRepeats(rows)
    {
      var names := Names();
      rows := [];
      for i := 0 to |names|
        invariant forall q :: q in rows <==> q in names[..i] && Embeddable(symbols[q])
        invariant Sorted(TextLe, rows) && NoRepeats(rows)
      {
        assert names[i] in names && names[..i + 1] == names[..i] + [names[i]];
        if Embeddable(symbols[names[i]]) {
          AppendSorted(names, i, rows);
          rows := rows + [names[i]];
        }
      }
      assert names[..|names|] == names;
    }

    /** The methods of a class in source order. */
    method MethodsOf(cls: string) returns (rows: seq<MethodRow>)
      ensures ListsMethods(rows, symbols, cls)
    {
      var found: seq<MethodRow> := [];
      var todo := symbols.Keys;
      while todo != {}
        invariant todo <= symbols.Keys && NoRepeats(found)
        invariant forall r :: r in found <==>
          exists q | q in symbols.Keys - todo :: IsMethodOf(symbols[q], cls) && RowOf(symbols[q]) == r
      {
        var q :| q in todo;
        todo := todo - {q};
        if IsMethodOf(symbols[q], cls) && RowOf(symbols[q]) !in found {
          found := found + [RowOf(symbols[q])];
        }
      }
      rows := Sort(MethodLe, found);
      MethodOrder();
      SortSorts(MethodLe, found);
      SortLists(MethodLe, found);
    }
  }

  /** Lists a set of names in order. */
  method SortedNames(names: set<string>) returns (rows: seq<string>)
    ensures Sorted(TextLe, rows) && NoRepeats(rows) && forall q :: q in rows <==> q in names
  {
    var all: seq<string> := [];
    var todo := names;
    while todo != {}
      invariant todo <= names && NoRepeats(all) && forall q :: q in all <==> q in names - todo
    {
      var q :| q in todo;
      assert q !in all;
      todo := todo - {q};
      all := all + [q];
    }
    rows := Sort(TextLe, all);
    TextOrder();
    SortSorts(TextLe, all);
    SortLists(TextLe, all);
  }

  lemma AppendSorted(names: seq<string>, i: nat, rows: seq<string>)
    requires i < |names| && Sorted(TextLe, names) && NoRepeats(names)
    requires Sorted(TextLe, rows) && NoRepeats(rows) && forall q <- rows :: q in names[..i]
    ensures Sorted(TextLe, rows + [names[i]]) && NoRepeats(rows + [names[i]])
  {
    forall k | 0 <= k < |rows|
      ensures TextLe(rows[k], names[i]) && rows[k] != names[i]
    {
      assert rows[k] in rows;
      var j :| 0 <= j < i && names[..i][j] == rows[k];
      assert names[j] == rows[k];
    }
  }

  lemma NamesKeys(symbols: map<string, Symbol>, names: seq<string>, rows: seq<SymbolKey>)
    requires NoRepeats(names) && Sorted(TextLe, names) && forall q :: q in names <==> q in symbols
    requires |rows| == |names| && forall k | 0 <= k < |rows| ::
        names[k] in symbols && rows[k] == KeyOf(symbols[names[k]])
    ensures ListsKeys(rows, symbols) && |rows| == |symbols.Keys|
    ensures (forall q <- symbols :: QName(symbols[q]) == q) ==>
              forall i, j | 0 <= i < j < |rows| :: TextLe(rows[i].qname, rows[j].qname)
  {
    forall key
      ensures key in rows <==> exists q | q in symbols :: KeyOf(symbols[q]) == key
    {
      if key in rows {
        var k :| 0 <= k < |rows| && rows[k] == key;
        assert KeyOf(symbols[names[k]]) == key;
      }
      if q :| q in symbols && KeyOf(symbols[q]) == key {
        assert q in names;
        var k :| 0 <= k < |names| && names[k] == q;
        assert rows[k] == key;
      }
    }
    ListedOnce(names, symbols.Keys);
  }

  lemma {:induction false} ListedOnce(names: seq<string>, all: set<string>)
    requires NoRepeats(names) && forall q :: q in names <==> q in all
    ensures |names| == |all|
  {
    if names == [] {
      assert all == {};
    } else {
      var last := names[|names| - 1];
      forall q
        ensures q in names[..|names| - 1] <==> q in all - {last}
      {
        assert q in names <==> q in names[..|names| - 1] || q == last;
      }
      ListedOnce(names[..|names| - 1], all - {last});
    }
  }

  method AllRows<T(!new)>(table: map<string, seq<T>>) returns (rows: seq<T>)
    ensures ListsRows(rows, table)
  {
    rows := [];
    var todo := table.Keys;
    while todo != {}
      invariant todo <= table.Keys
      invariant forall r :: r in rows <==> exists p | p in table.Keys - todo :: r in table[p]
    {
      var p :| p in todo;
      todo := todo - {p};
      rows := rows + table[p];
    }
  }

  /** Inserts the rows one by one, until a name is taken. */
  method InsertedAll(kept: map<string, Symbol>, rows: seq<Symbol>) returns (ok: bool, table: map<string, Symbol>)
    ensures ok == Insertable(kept, rows)
    ensures ok ==> table == kept + Keyed(QName, rows)
  {
    table := kept;
    for i := 0 to |rows|
      invariant Insertable(kept, rows[..i])
      invariant table == kept + Keyed(QName, rows[..i])
    {
      InsertableNext(kept, rows, i);
      if QName(rows[i]) in table {
        return false, kept;
      }
      table := table[QName(rows[i]) := rows[i]];
    }
    assert rows[..|rows|] == rows;
    return true, table;
  }

  lemma NamesKeyed(rows: seq<Symbol>, q: string)
    ensures q in QNames(rows) <==> q in Keyed(QName, rows)
  {
    KeyedNames(rows);
    if q in QNames(rows) {
      var j :| 0 <= j < |rows| && QNames(rows)[j] == q;
      assert rows[j] in rows && QName(rows[j]) == q;
    }
    if q in Keyed(QName, rows) {
      var s :| s in rows && QName(s) == q;
      var j :| 0 <= j < |rows| && rows[j] == s;
      assert QNames(rows)[j] == q;
    }
  }

  lemma InsertableNext(kept: map<string, Symbol>, rows: seq<Symbol>, i: nat)
    requires i < |rows| && Insertable(kept, rows[..i])
    ensures Keyed(QName, rows[..i + 1]) == Keyed(QName, rows[..i])[QName(rows[i]) := rows[i]]
    ensures Insertable(kept, rows[..i + 1]) <==>
            QName(rows[i]) !in kept && QName(rows[i]) !in Keyed(QName, rows[..i])
    ensures Insertable(kept, rows) ==> Insertable(kept, rows[..i + 1])
  {
    var front, next := rows[..i], rows[..i + 1];
    assert next[..i] == front && next == front + [rows[i]];
    NamesKeyed(front, QName(rows[i]));
    assert QNames(next) == QNames(front) + [QName(rows[i])];
    assert QNames(next) == QNames(rows)[..i + 1];
    NextName(QNames(front), QName(rows[i]));
  }

  lemma NextName(names: seq<string>, q: string)
    requires NoRepeats(names)
    ensures NoRepeats(names + [q]) <==> q !in names
  {
    if q in names {
      var j :| 0 <= j < |names| && names[j] == q;
      assert (names + [q])[j] == (names + [q])[|names|];
    }
  }
}
