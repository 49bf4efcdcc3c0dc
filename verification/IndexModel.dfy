/** The tables of one repository's index and what each transaction does to them. */
module IndexModel {
  import opened Protocol
  import opened Subsequences
  import opened Sorting
  import opened Names
  import opened EdgeResolution

  type Source = seq<bv8>
  type Digest = string
  type Vector = seq<real>

  datatype Symbol = Symbol(
    path: string, scope: string, name: string, kind: SymbolKind, startLine: int, endLine: int,
    signature: string, docstring: string, body: string, fields: seq<string>)

  datatype Extraction = Extraction(symbols: seq<Symbol>, references: seq<Reference>, imports: seq<Import>)

  /** Everything outside the store: which files have a language, what parsing a
      file yields, the two hashes, and the embedding backend. */
  datatype World = World(
    language: string -> Option<string>,
    extract: (string, Source) -> Extraction,
    hash: Source -> Digest,
    textHash: string -> Digest,
    embed: string -> Vector,
    unit: Vector -> Vector)

  /** Hashes do not collide, and a file's rows carry its path. */
  ghost predicate Sound(w: World) {
    && (forall a, b | w.hash(a) == w.hash(b) :: a == b)
    && (forall a, b | w.textHash(a) == w.textHash(b) :: a == b)
    && (forall path, source :: forall s <- w.extract(path, source).symbols :: s.path == path)
  }

  datatype FileRow = FileRow(hash: Digest, language: string)
  datatype EmbeddingRow = EmbeddingRow(hash: Digest, vector: Vector)

  /** The tables. References and imports are kept by the file they were read in. */
  datatype Db = Db(
    files: map<string, FileRow>,
    symbols: map<string, Symbol>,
    refs: map<string, seq<Reference>>,
    imports: map<string, seq<Import>>,
    edges: set<Edge>,
    embeddings: map<string, EmbeddingRow>)

  function EmptyDb(): Db {
    Db(map[], map[], map[], map[], {}, map[])
  }

  function QName(s: Symbol): string {
    Qualified(s.path, if s.scope == "" then s.name else s.scope + "." + s.name)
  }

  // ----- transactions

  function DeletePath(db: Db, path: string): Db {
    db.(files := db.files - {path},
        symbols := map q | q in db.symbols && db.symbols[q].path != path :: db.symbols[q],
        refs := db.refs - {path},
        imports := db.imports - {path})
  }

  function QNames(symbols: seq<Symbol>): seq<string> {
    seq(|symbols|, i requires 0 <= i < |symbols| => QName(symbols[i]))
  }

  /** No name is inserted twice or taken already. */
  ghost predicate Insertable(taken: map<string, Symbol>, symbols: seq<Symbol>) {
    NoRepeats(QNames(symbols)) && forall s <- symbols :: QName(s) !in taken
  }

  function InsertFile(db: Db, path: string, x: Extraction, row: FileRow): Db {
    db.(files := db.files[path := row],
        symbols := db.symbols + Keyed(QName, x.symbols),
        refs := db.refs[path := x.references],
        imports := db.imports[path := x.imports])
  }

  function ReplaceFile(db: Db, path: string, x: Extraction, row: FileRow): Db {
    InsertFile(DeletePath(db, path), path, x, row)
  }

  // ----- what the tables hold

  function SymbolsOf(db: Db, path: string): map<string, Symbol> {
    map q | q in db.symbols && db.symbols[q].path == path :: db.symbols[q]
  }

  /** The rows of `path` are those parsing `source` yields. */
  ghost predicate Stored(w: World, db: Db, path: string, source: Source) {
    var x := w.extract(path, source);
    && w.language(path).Some?
    && path in db.files && db.files[path] == FileRow(w.hash(source), w.language(path).value)
    && path in db.refs && db.refs[path] == x.references
    && path in db.imports && db.imports[path] == x.imports
    && SymbolsOf(db, path) == Keyed(QName, x.symbols)
  }

  ghost predicate NoStrays(db: Db) {
    && db.refs.Keys == db.files.Keys == db.imports.Keys
    && forall q | q in db.symbols :: db.symbols[q].path in db.files && QName(db.symbols[q]) == q
  }

  /** Each file is stored whole, as some earlier run read it. */
  ghost predicate WholeFiles(w: World, db: Db) {
    NoStrays(db) && forall p | p in db.files :: exists source :: Stored(w, db, p, source)
  }

  /** The vector of each embedding is that of the text behind its hash. */
  ghost predicate TrueEmbeddings(w: World, db: Db) {
    forall q | q in db.embeddings :: exists text :: db.embeddings[q] == Embedding(w, text)
  }

  function Embedding(w: World, text: string): EmbeddingRow {
    EmbeddingRow(w.textHash(text), w.unit(w.embed(text)))
  }

  /** What every transaction of every run keeps. */
  ghost predicate Inv(w: World, db: Db) {
    WholeFiles(w, db) && TrueEmbeddings(w, db)
  }

  /** The files of the repository that some language covers. */
  function Supported(w: World, repo: map<string, Source>): set<string> {
    set p | p in repo && w.language(p).Some?
  }

  /** The file tables are those of the repository's present contents. */
  ghost predicate Built(w: World, repo: map<string, Source>, db: Db) {
    && db.files.Keys == Supported(w, repo) && NoStrays(db)
    && forall p | p in db.files :: Stored(w, db, p, repo[p])
  }

  // ----- edges

  function KeyOf(s: Symbol): SymbolKey {
    SymbolKey(QName(s), s.path, s.scope, s.name, s.kind)
  }

  ghost predicate ListsKeys(rows: seq<SymbolKey>, symbols: map<string, Symbol>) {
    forall k :: k in rows <==> exists q | q in symbols :: KeyOf(symbols[q]) == k
  }

  /** `rows` are the rows of all files, in some order. */
  ghost predicate ListsRows<T(!new)>(rows: seq<T>, table: map<string, seq<T>>) {
    forall r :: r in rows <==> exists p | p in table :: r in table[p]
  }

  function Languages(files: map<string, FileRow>): map<string, string> {
    map p | p in files :: files[p].language
  }

  /** `edges` is what resolving the rows of the tables, as they are read, gives. */
  ghost predicate Resolves(db: Db, keys: seq<SymbolKey>, refs: seq<Reference>, imports: seq<Import>, edges: set<Edge>) {
    && ListsKeys(keys, db.symbols) && ListsRows(refs, db.refs)
    && ListsRows(imports, db.imports) && Sorted(ImportLe, imports)
    && edges == EdgeSet(TablesOf(keys, imports, Languages(db.files)), refs)
  }

  ghost predicate EdgesCurrent(db: Db) {
    exists keys, refs, imports :: Resolves(db, keys, refs, imports, db.edges)
  }

  // ----- embeddings

  predicate Embeddable(s: Symbol) {
    !s.kind.TypeKind?
  }

  /** A method of a class; names are unique within a class, so the signature
      never decides the order. */
  datatype MethodRow = MethodRow(line: int, name: string, signature: string)

  predicate MethodLe(a: MethodRow, b: MethodRow) {
    a.line < b.line || (a.line == b.line && RowLe([a.name, a.signature], [b.name, b.signature]))
  }

  predicate IsMethodOf(s: Symbol, cls: string) {
    s.kind.MethodKind? && s.path == PathPart(cls) && s.scope == InnerPart(cls)
  }

  function RowOf(s: Symbol): MethodRow {
    MethodRow(s.startLine, s.name, s.signature)
  }

  ghost predicate ListsMethods(rows: seq<MethodRow>, symbols: map<string, Symbol>, cls: string) {
    && Sorted(MethodLe, rows) && NoRepeats(rows)
    && forall r :: r in rows <==> exists q | q in symbols :: IsMethodOf(symbols[q], cls) && RowOf(symbols[q]) == r
  }

  /** The non-empty parts, one to a line. */
  function Lines(parts: seq<string>): string {
    if parts == [] then ""
    else if parts[0] == "" then Lines(parts[1..])
    else if Lines(parts[1..]) == "" then parts[0]
    else parts[0] + "\n" + Lines(parts[1..])
  }

  function Signatures(rows: seq<MethodRow>): seq<string> {
    seq(|rows|, i requires 0 <= i < |rows| => rows[i].signature)
  }

  function EmbeddingText(s: Symbol, signatures: seq<string>): string {
    Lines([s.path, QName(s), s.signature, s.docstring] + if s.kind.ClassKind? then s.fields + signatures else [s.body])
  }

  ghost predicate TextOf(symbols: map<string, Symbol>, q: string, text: string)
    requires q in symbols
  {
    exists rows ::
      ListsMethods(rows, symbols, q) &&
      text == EmbeddingText(symbols[q], if symbols[q].kind.ClassKind? then Signatures(rows) else [])
  }

  /** `q` has the embedding of its present text. */
  ghost predicate Embedded(w: World, db: Db, q: string)
    requires q in db.symbols
  {
    q in db.embeddings && exists text :: TextOf(db.symbols, q, text) && db.embeddings[q] == Embedding(w, text)
  }

  /** Exactly the embeddable symbols have an embedding, each of its present text. */
  ghost predicate EmbeddingsCurrent(w: World, db: Db) {
    && (forall q :: q in db.embeddings <==> q in db.symbols && Embeddable(db.symbols[q]))
    && forall q | q in db.embeddings :: Embedded(w, db, q)
  }
}
