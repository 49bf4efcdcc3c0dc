/** What an as-written reference or import of the indexed repository resolves to,
    and the set of edges that makes. */
module EdgeResolution {
  import opened Protocol
  import opened Subsequences
  import opened Sorting
  import opened Names
  import opened Hierarchy

  datatype SymbolKind = FunctionKind | MethodKind | ClassKind | TypeKind
  datatype RefKind = BaseRef | CallRef | TypeRef
  datatype EdgeKind = Calls | Defines | Imports | Inherits | ReferencesType

  datatype SymbolKey = SymbolKey(qname: string, path: string, scope: string, name: string, kind: SymbolKind)
  datatype Reference = Reference(source: string, kind: RefKind, target: string)
  datatype Import = Import(path: string, localName: string, moduleName: string, importedName: string)
  datatype Edge = Edge(source: string, target: string, kind: EdgeKind)

  /** What resolution looks names up in. */
  datatype Tables = Tables(
    byName: map<string, SymbolKey>,
    imports: map<(string, string), Import>,
    languages: map<string, string>)

  const Python: string := "python"
  const CallTargets: set<SymbolKind> := {FunctionKind, MethodKind, ClassKind}
  const TypeTargets: set<SymbolKind> := {ClassKind, TypeKind}
  const Probes: seq<string> := [
    ".ts", ".tsx", ".js", ".jsx", ".mjs", ".cjs",
    "/index.ts", "/index.tsx", "/index.js", "/index.jsx"]

  predicate Is(t: Tables, qname: string, kinds: set<SymbolKind>) {
    qname in t.byName && t.byName[qname].kind in kinds
  }

  predicate IsPython(t: Tables, path: string) {
    path in t.languages && t.languages[path] == Python
  }

  // ----- imports

  /** The Python files that answer to a dotted module name. */
  ghost function Answers(languages: map<string, string>, dotted: string): set<string> {
    set p | p in languages && languages[p] == Python && dotted in ModuleNames(p)
  }

  ghost predicate AnsweredOnce(languages: map<string, string>, dotted: string, path: string) {
    Answers(languages, dotted) == {path}
  }

  /** The symbol `inner` of the file `path`, if there is one. */
  function Member(t: Tables, path: string, inner: seq<string>): Option<string> {
    if inner == [] then Some(path)
    else if Qualified(path, Join(inner)) in t.byName then Some(Qualified(path, Join(inner)))
    else None
  }

  /** Tries ever shorter prefixes of `dotted`, from length `cut` on down. */
  ghost function ViaModules(t: Tables, dotted: seq<string>, cut: nat): Option<string>
    requires cut <= |dotted|
  {
    if cut == 0 then None
    else if path :| AnsweredOnce(t.languages, Join(dotted[..cut]), path) then Member(t, path, dotted[cut..])
    else ViaModules(t, dotted, cut - 1)
  }

  function FirstIndexed(t: Tables, specifier: string, probes: seq<string>): Option<string> {
    if probes == [] then None
    else if specifier + probes[0] in t.languages then Some(specifier + probes[0])
    else FirstIndexed(t, specifier, probes[1..])
  }

  function EcmaPath(t: Tables, specifier: string): Option<string> {
    if specifier in t.languages then Some(specifier) else FirstIndexed(t, specifier, Probes)
  }

  function DottedImport(imp: Import, rest: seq<string>): seq<string> {
    Split(imp.moduleName) + (if imp.importedName == "" then [] else [imp.importedName]) + rest
  }

  function Chain(imp: Import, rest: seq<string>): seq<string> {
    (if imp.importedName == "" || imp.importedName == "default" then [] else [imp.importedName]) + rest
  }

  /** What the name bound by `imp`, followed by the members `rest`, stands for. */
  ghost function ViaImport(t: Tables, imp: Import, rest: seq<string>): Option<string> {
    if IsPython(t, imp.path) then ViaModules(t, DottedImport(imp, rest), |DottedImport(imp, rest)|)
    else if EcmaPath(t, imp.moduleName).None? then None
    else Member(t, EcmaPath(t, imp.moduleName).value, Chain(imp, rest))
  }

  // ----- references

  predicate SelfName(t: Tables, path: string, name: string) {
    if IsPython(t, path) then name == "self" || name == "cls" else name == "this"
  }

  /** The class that self or this means inside `source`. */
  function OwnerInner(t: Tables, source: string): string {
    if source in t.byName && t.byName[source].kind.ClassKind? then InnerPart(source) else Owner(InnerPart(source))
  }

  /** The first class that defines the member `rest`. */
  function FirstDefiner(t: Tables, classes: seq<string>, rest: string, kinds: set<SymbolKind>): Option<string> {
    if classes == [] then None
    else if Is(t, classes[0] + "." + rest, kinds) then Some(classes[0] + "." + rest)
    else FirstDefiner(t, classes[1..], rest, kinds)
  }

  /** The reference goes through self or this to a member of a known class. */
  predicate ThroughSelf(t: Tables, source: string, target: string) {
    |Split(target)| > 1 && SelfName(t, PathPart(source), Split(target)[0]) && OwnerInner(t, source) != ""
  }

  ghost function ViaSelf(
      t: Tables, bases: NameLists, source: string, target: string, kinds: set<SymbolKind>): Option<string>
  {
    FirstDefiner(t, Linearised(bases, Qualified(PathPart(source), OwnerInner(t, source))), Join(Split(target)[1..]),
        kinds)
  }

  /** What the first part of `target` was imported as decides. */
  ghost function ViaBinding(t: Tables, source: string, target: string, kinds: set<SymbolKind>): Option<string> {
    var parts := Split(target);
    if (PathPart(source), parts[0]) !in t.imports then None
    else
      var resolved := ViaImport(t, t.imports[(PathPart(source), parts[0])], parts[1..]);
      if resolved.Some? && Is(t, resolved.value, kinds) then resolved else None
  }

  ghost function Resolve(
      t: Tables, bases: NameLists, source: string, target: string, kinds: set<SymbolKind>, hierarchy: bool)
    : Option<string>
  {
    if Is(t, Qualified(PathPart(source), target), kinds) then Some(Qualified(PathPart(source), target))
    else if hierarchy && ThroughSelf(t, source, target) && ViaSelf(t, bases, source, target, kinds).Some? then
      ViaSelf(t, bases, source, target, kinds)
    else ViaBinding(t, source, target, kinds)
  }

  // ----- edges

  function Targets(kind: RefKind): set<SymbolKind> {
    if kind.CallRef? then CallTargets else TypeTargets
  }

  function Kind(kind: RefKind): EdgeKind {
    match kind
    case BaseRef => Inherits
    case CallRef => Calls
    case TypeRef => ReferencesType
  }

  ghost function EdgeOf(t: Tables, bases: NameLists, ref: Reference): Option<Edge> {
    var target := Resolve(t, bases, ref.source, ref.target, Targets(ref.kind), ref.kind.CallRef?);
    if target.Some? then Some(Edge(ref.source, target.value, Kind(ref.kind))) else None
  }

  /** The base relation, the bases of a class in the order of the references. */
  ghost function BaseRelation(t: Tables, refs: seq<Reference>): NameLists {
    if refs == [] then map[]
    else
      var before, ref := BaseRelation(t, refs[..|refs| - 1]), refs[|refs| - 1];
      var edge := EdgeOf(t, map[], ref);
      if ref.kind.BaseRef? && edge.Some?
      then before[ref.source := Listed(before, ref.source) + [edge.value.target]]
      else before
  }

  ghost function RefEdges(t: Tables, bases: NameLists, refs: seq<Reference>): set<Edge> {
    set ref | ref in refs && EdgeOf(t, bases, ref).Some? :: EdgeOf(t, bases, ref).value
  }

  ghost function ImportEdges(t: Tables): set<Edge> {
    set imp | imp in t.imports.Values && ViaImport(t, imp, []).Some? ::
      Edge(imp.path, ViaImport(t, imp, []).value, Imports)
  }

  function DefineEdges(t: Tables): set<Edge> {
    set s | s in t.byName.Values && s.scope != "" :: Edge(Qualified(s.path, s.scope), s.qname, Defines)
  }

  ghost function EdgeSet(t: Tables, refs: seq<Reference>): set<Edge> {
    RefEdges(t, BaseRelation(t, Sort(RefLe, refs)), refs) + ImportEdges(t) + DefineEdges(t)
  }

  /** The last value of each key. */
  function Keyed<K, V>(key: V -> K, values: seq<V>): map<K, V> {
    if values == [] then map[]
    else Keyed(key, values[..|values| - 1])[key(values[|values| - 1]) := values[|values| - 1]]
  }

  function NameKey(s: SymbolKey): string { s.qname }

  function BindingKey(i: Import): (string, string) { (i.path, i.localName) }

  ghost function TablesOf(symbols: seq<SymbolKey>, imports: seq<Import>, languages: map<string, string>): Tables {
    Tables(Keyed(NameKey, symbols), Keyed(BindingKey, imports), languages)
  }

  // ----- the order of rows

  function RefKindName(kind: RefKind): string {
    match kind
    case BaseRef => "base"
    case CallRef => "call"
    case TypeRef => "type"
  }

  function EdgeKindName(kind: EdgeKind): string {
    match kind
    case Calls => "CALLS"
    case Defines => "DEFINES"
    case Imports => "IMPORTS"
    case Inherits => "INHERITS"
    case ReferencesType => "REFERENCES_TYPE"
  }

  function RefKey(r: Reference): seq<string> { [r.source, RefKindName(r.kind), r.target] }

  function EdgeKey(e: Edge): seq<string> { [e.source, e.target, EdgeKindName(e.kind)] }

  function ImportKey(i: Import): seq<string> { [i.path, i.localName, i.moduleName, i.importedName] }

  predicate RefLe(a: Reference, b: Reference) { RowLe(RefKey(a), RefKey(b)) }

  predicate EdgeLe(a: Edge, b: Edge) { RowLe(EdgeKey(a), EdgeKey(b)) }

  predicate ImportLe(a: Import, b: Import) { RowLe(ImportKey(a), ImportKey(b)) }

  lemma KindNamesDiffer(a: RefKind, b: RefKind, c: EdgeKind, d: EdgeKind)
    ensures RefKindName(a) == RefKindName(b) ==> a == b
    ensures EdgeKindName(c) == EdgeKindName(d) ==> c == d
  {
    assert RefKindName(a)[0] == RefKindName(b)[0] ==> a == b;
    assert EdgeKindName(c)[0] == EdgeKindName(d)[0] && EdgeKindName(c)[1] == EdgeKindName(d)[1] ==> c == d;
  }

  lemma RefOrder()
    ensures TotalOrder(RefLe)
  {
    forall a, b | RefKey(a) == RefKey(b)
      ensures a == b
    {
      KindNamesDiffer(a.kind, b.kind, Calls, Calls);
      assert RefKey(a)[0] == RefKey(b)[0] && RefKey(a)[1] == RefKey(b)[1] && RefKey(a)[2] == RefKey(b)[2];
    }
    KeyOrder(RefKey, RefLe);
  }

  lemma EdgeOrder()
    ensures TotalOrder(EdgeLe)
  {
    forall a, b | EdgeKey(a) == EdgeKey(b)
      ensures a == b
    {
      KindNamesDiffer(BaseRef, BaseRef, a.kind, b.kind);
      assert EdgeKey(a)[0] == EdgeKey(b)[0] && EdgeKey(a)[1] == EdgeKey(b)[1] && EdgeKey(a)[2] == EdgeKey(b)[2];
    }
    KeyOrder(EdgeKey, EdgeLe);
  }

  lemma ImportOrder()
    ensures TotalOrder(ImportLe)
  {
    forall a, b | ImportKey(a) == ImportKey(b)
      ensures a == b
    {
      assert ImportKey(a)[0] == ImportKey(b)[0] && ImportKey(a)[1] == ImportKey(b)[1];
      assert ImportKey(a)[2] == ImportKey(b)[2] && ImportKey(a)[3] == ImportKey(b)[3];
    }
    KeyOrder(ImportKey, ImportLe);
  }

  /** `edges` is the sorted list of `found`. */
  ghost predicate Listing(edges: seq<Edge>, found: set<Edge>) {
    Sorted(EdgeLe, edges) && NoRepeats(edges) && forall e :: e in edges <==> e in found
  }
}
