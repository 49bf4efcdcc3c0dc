/** The resolver as it runs: its tables are filled row by row, the base relation
    while the sorted references are walked. */
module EdgeResolver {
  import opened Protocol
  import opened Subsequences
  import opened Sorting
  import opened Names
  import opened Hierarchy
  import opened EdgeResolution

  /** `modules` lists, without repetition, the files that answer to each name,
      taking only the files in `done` into account. */
  ghost predicate ListsAnswers(modules: NameLists, languages: map<string, string>, done: set<string>) {
    forall d ::
      NoRepeats(Listed(modules, d)) &&
      forall p :: p in Listed(modules, d) <==> p in done && p in Answers(languages, d)
  }

  method Resolved(
      symbols: seq<SymbolKey>, references: seq<Reference>, imports: seq<Import>, languages: map<string, string>)
    returns (edges: seq<Edge>)
    ensures Listing(edges, EdgeSet(TablesOf(symbols, imports, languages), references))
  {
    var resolver := new Resolver(symbols, imports, languages);
    edges := resolver.Edges(references);
  }

  class Resolver {
    const languages: map<string, string>
    var byName: map<string, SymbolKey>
    var imports: map<(string, string), Import>
    var modules: NameLists
    var bases: NameLists

    ghost function T(): Tables
      reads this
    {
      Tables(byName, imports, languages)
    }

    ghost predicate Valid()
      reads this
    {
      ListsAnswers(modules, languages, languages.Keys)
    }

    constructor (symbols: seq<SymbolKey>, importRows: seq<Import>, indexed: map<string, string>)
      ensures Valid() && T() == TablesOf(symbols, importRows, indexed) && bases == map[]
    {
      languages := indexed;
      byName, imports, modules, bases := map[], map[], map[], map[];
      new;
      for i := 0 to |symbols|
        invariant byName == Keyed(NameKey, symbols[..i])
        invariant imports == map[] && modules == map[] && bases == map[]
      {
        assert symbols[..i + 1][..i] == symbols[..i];
        byName := byName[symbols[i].qname := symbols[i]];
      }
      assert symbols[..|symbols|] == symbols;
      for i := 0 to |importRows|
        invariant imports == Keyed(BindingKey, importRows[..i])
        invariant byName == Keyed(NameKey, symbols) && modules == map[] && bases == map[]
      {
        assert importRows[..i + 1][..i] == importRows[..i];
        imports := imports[(importRows[i].path, importRows[i].localName) := importRows[i]];
      }
      assert importRows[..|importRows|] == importRows;
      ListModules();
    }

    /** Enters every Python file under each name it answers to. The files come in
        any order. */
    method ListModules()
      requires modules == map[]
      modifies this`modules
      ensures Valid()
    {
      var todo := languages.Keys;
      while todo != {}
        invariant todo <= languages.Keys
        invariant ListsAnswers(modules, languages, languages.Keys - todo)
      {
        var path :| path in todo;
        ghost var before := modules;
        if languages[path] == Python {
          ModuleNamesAreSuffixes(path, "");
          EnterFile(path, ModuleNames(path));
          FileListed(before, modules, languages, languages.Keys - todo, path);
        } else {
          NotPython(before, languages, languages.Keys - todo, path);
        }
        assert languages.Keys - todo + {path} == languages.Keys - (todo - {path});
        todo := todo - {path};
      }
      assert languages.Keys - todo == languages.Keys;
    }

    method EnterFile(path: string, names: seq<string>)
      requires NoRepeats(names)
      modifies this`modules
      ensures Entered(old(modules), modules, names, path)
    {
      for i := 0 to |names|
        invariant Entered(old(modules), modules, names[..i], path)
      {
        EnterName(old(modules), modules, names[..i], names[i], path);
        assert names[..i + 1] == names[..i] + [names[i]];
        modules := modules[names[i] := Listed(modules, names[i]) + [path]];
      }
      assert names[..|names|] == names;
    }

    /** What an import binding and the members behind it stand for. */
    method ResolveImport(imp: Import, rest: seq<string>) returns (r: Option<string>)
      requires Valid()
      ensures r == ViaImport(T(), imp, rest)
    {
      if imp.path in languages && languages[imp.path] == Python {
        r := ResolveModules(DottedImport(imp, rest));
        return;
      }
      var path := EcmaPath(Tables(byName, imports, languages), imp.moduleName);
      if path.None? {
        return None;
      }
      return Member(Tables(byName, imports, languages), path.value, Chain(imp, rest));
    }

    /** Looks up ever shorter prefixes among the modules. */
    method ResolveModules(dotted: seq<string>) returns (r: Option<string>)
      requires Valid()
      ensures r == ViaModules(T(), dotted, |dotted|)
    {
      var cut := |dotted|;
      while cut > 0
        invariant 0 <= cut <= |dotted|
        invariant ViaModules(T(), dotted, cut) == ViaModules(T(), dotted, |dotted|)
      {
        var paths := Listed(modules, Join(dotted[..cut]));
        OnlyAnswer(modules, languages, Join(dotted[..cut]));
        if |paths| == 1 {
          return Member(Tables(byName, imports, languages), paths[0], dotted[cut..]);
        }
        cut := cut - 1;
      }
      return None;
    }

    /** The definition of `rest` in a class, or in the nearest base that has it. */
    method FindDefiner(root: string, rest: string, kinds: set<SymbolKind>) returns (r: Option<string>)
      ensures r == FirstDefiner(T(), Linearised(bases, root), rest, kinds)
    {
      var classes := Linearise(bases, root);
      for i := 0 to |classes|
        invariant FirstDefiner(T(), classes[i..], rest, kinds) == FirstDefiner(T(), classes, rest, kinds)
      {
        if Is(Tables(byName, imports, languages), classes[i] + "." + rest, kinds) {
          return Some(classes[i] + "." + rest);
        }
        assert classes[i..][1..] == classes[i + 1..];
      }
      return None;
    }

    method ResolveReference(source: string, target: string, kinds: set<SymbolKind>, hierarchy: bool)
      returns (r: Option<string>)
      requires Valid()
      ensures r == Resolve(T(), bases, source, target, kinds, hierarchy)
    {
      var t := Tables(byName, imports, languages);
      var path, parts := PathPart(source), Split(target);
      if Is(t, Qualified(path, target), kinds) {
        return Some(Qualified(path, target));
      }
      if hierarchy && ThroughSelf(t, source, target) {
        r := FindDefiner(Qualified(path, OwnerInner(t, source)), Join(parts[1..]), kinds);
        if r.Some? {
          return;
        }
      }
      if (path, parts[0]) in imports {
        var resolved := ResolveImport(imports[(path, parts[0])], parts[1..]);
        if resolved.Some? && Is(t, resolved.value, kinds) {
          return resolved;
        }
      }
      return None;
    }

    /** Resolves the base references and fills the base relation. */
    method AddBases(ordered: seq<Reference>) returns (found: set<Edge>)
      requires Valid() && bases == map[]
      modifies this`bases
      ensures bases == BaseRelation(T(), ordered)
      ensures found == RefEdges(T(), map[], OfKind(ordered, {BaseRef}))
    {
      found := {};
      for i := 0 to |ordered|
        invariant bases == BaseRelation(T(), ordered[..i])
        invariant found == RefEdges(T(), map[], OfKind(ordered[..i], {BaseRef}))
      {
        var ref := ordered[i];
        assert ordered[..i + 1][..i] == ordered[..i];
        KindAppended(ordered[..i + 1], {BaseRef});
        if ref.kind.BaseRef? {
          var target := ResolveReference(ref.source, ref.target, TypeTargets, false);
          IgnoresBases(T(), bases, map[], ref);
          RefEdgesAppended(T(), map[], OfKind(ordered[..i], {BaseRef}), ref);
          if target.Some? {
            found := found + {Edge(ref.source, target.value, Inherits)};
            bases := bases[ref.source := Listed(bases, ref.source) + [target.value]];
          }
        }
      }
      assert ordered[..|ordered|] == ordered;
    }

    /** Resolves calls and type uses over the finished base relation. */
    method AddUses(ordered: seq<Reference>) returns (found: set<Edge>)
      requires Valid()
      ensures found == RefEdges(T(), bases, OfKind(ordered, {CallRef, TypeRef}))
    {
      found := {};
      for i := 0 to |ordered|
        invariant found == RefEdges(T(), bases, OfKind(ordered[..i], {CallRef, TypeRef}))
      {
        var ref := ordered[i];
        assert ordered[..i + 1][..i] == ordered[..i];
        KindAppended(ordered[..i + 1], {CallRef, TypeRef});
        if !ref.kind.BaseRef? {
          var target := ResolveReference(ref.source, ref.target, Targets(ref.kind), ref.kind.CallRef?);
          RefEdgesAppended(T(), bases, OfKind(ordered[..i], {CallRef, TypeRef}), ref);
          if target.Some? {
            found := found + {Edge(ref.source, target.value, Kind(ref.kind))};
          }
        }
      }
      assert ordered[..|ordered|] == ordered;
    }

    method AddImports() returns (found: set<Edge>)
      requires Valid()
      ensures found == ImportEdges(T())
    {
      found := {};
      var todo := imports.Values;
      while todo != {}
        invariant todo <= imports.Values
        invariant forall e :: e in found <==>
          exists imp | imp in imports.Values - todo ::
              ViaImport(T(), imp, []) == Some(e.target) && e == Edge(imp.path, e.target, Imports)
      {
        var imp :| imp in todo;
        var target := ResolveImport(imp, []);
        if target.Some? {
          found := found + {Edge(imp.path, target.value, Imports)};
        }
        todo := todo - {imp};
      }
    }

    /** Every edge of the repository, sorted and without repetitions. */
    method Edges(references: seq<Reference>) returns (edges: seq<Edge>)
      requires Valid() && bases == map[]
      modifies this`bases
      ensures Listing(edges, EdgeSet(T(), references))
    {
      var ordered := Sort(RefLe, references);
      var inherited := AddBases(ordered);
      var used := AddUses(ordered);
      var imported := AddImports();
      var t := Tables(byName, imports, languages);
      KindsTogether(t, bases, ordered, references);
      edges := SortedEdges(inherited + used + imported + DefineEdges(t));
    }
  }

  // ----- lists and sets

  method SortedEdges(found: set<Edge>) returns (edges: seq<Edge>)
    ensures Listing(edges, found)
  {
    var rows: seq<Edge> := [];
    var todo := found;
    while todo != {}
      invariant todo <= found && NoRepeats(rows)
      invariant forall e :: e in rows <==> e in found - todo
    {
      var e :| e in todo;
      assert e !in rows;
      rows := rows + [e];
      todo := todo - {e};
    }
    edges := Sort(EdgeLe, rows);
    EdgeOrder();
    SortSorts(EdgeLe, rows);
    SortLists(EdgeLe, rows);
  }

  /** `path` was entered under each of `names`. */
  ghost predicate Entered(before: NameLists, after: NameLists, names: seq<string>, path: string) {
    forall d :: Listed(after, d) == Listed(before, d) + if d in names then [path] else []
  }

  lemma EnterName(before: NameLists, after: NameLists, names: seq<string>, name: string, path: string)
    requires Entered(before, after, names, path) && name !in names
    ensures Entered(before, after[name := Listed(after, name) + [path]], names + [name], path)
  {
    var r := after[name := Listed(after, name) + [path]];
    forall d
      ensures Listed(r, d) == Listed(before, d) + if d in names + [name] then [path] else []
    {
      assert Listed(after, d) == Listed(before, d) + if d in names then [path] else [];
      assert d in names + [name] <==> d in names || d == name;
    }
  }

  lemma FileListed(before: NameLists, after: NameLists, languages: map<string, string>, done: set<string>, path: string)
    requires path in languages && path !in done && languages[path] == Python
    requires ListsAnswers(before, languages, done)
    requires Entered(before, after, ModuleNames(path), path)
    ensures ListsAnswers(after, languages, done + {path})
  {
    forall d
      ensures NoRepeats(Listed(after, d))
      ensures forall p :: p in Listed(after, d) <==> p in done + {path} && p in Answers(languages, d)
    {
      AnswerAppended(Listed(before, d), Listed(after, d), done, Answers(languages, d), path, d in ModuleNames(path));
    }
  }

  lemma AnswerAppended(
      before: seq<string>, after: seq<string>, done: set<string>, answers: set<string>, path: string, answering: bool)
    requires NoRepeats(before) && forall p :: p in before <==> p in done && p in answers
    requires path !in done && (answering <==> path in answers)
    requires after == before + if answering then [path] else []
    ensures NoRepeats(after) && forall p :: p in after <==> p in done + {path} && p in answers
  {
    assert path !in before;
  }

  lemma NotPython(modules: NameLists, languages: map<string, string>, done: set<string>, path: string)
    requires path in languages && languages[path] != Python && ListsAnswers(modules, languages, done)
    ensures ListsAnswers(modules, languages, done + {path})
  {
  }

  lemma Singleton(s: seq<string>, x: string)
    requires NoRepeats(s) && forall y :: y in s <==> y == x
    ensures s == [x]
  {
    assert x in s;
    RepeatFreeFits(s, {x});
  }

  lemma OnlyAnswer(modules: NameLists, languages: map<string, string>, d: string)
    requires ListsAnswers(modules, languages, languages.Keys)
    ensures |Listed(modules, d)| == 1 <==> exists p :: AnsweredOnce(languages, d, p)
    ensures forall p | AnsweredOnce(languages, d, p) :: Listed(modules, d) == [p]
  {
    var paths := Listed(modules, d);
    forall p | AnsweredOnce(languages, d, p)
      ensures paths == [p]
    {
      Singleton(paths, p);
    }
    if |paths| == 1 {
      assert paths[0] in paths;
      assert AnsweredOnce(languages, d, paths[0]);
    }
  }

  function OfKind(refs: seq<Reference>, kinds: set<RefKind>): seq<Reference> {
    if refs == [] then []
    else OfKind(refs[..|refs| - 1], kinds) + if refs[|refs| - 1].kind in kinds then [refs[|refs| - 1]] else []
  }

  lemma KindAppended(refs: seq<Reference>, kinds: set<RefKind>)
    requires refs != []
    ensures OfKind(refs, kinds) == OfKind(refs[..|refs| - 1], kinds) + if refs[|refs| - 1].kind in kinds
        then [refs[|refs| - 1]] else []
  {
  }

  lemma {:induction false} OfKindHolds(refs: seq<Reference>, kinds: set<RefKind>, r: Reference)
    ensures r in OfKind(refs, kinds) <==> r in refs && r.kind in kinds
  {
    if refs != [] {
      OfKindHolds(refs[..|refs| - 1], kinds, r);
      assert refs == refs[..|refs| - 1] + [refs[|refs| - 1]];
    }
  }

  lemma IgnoresBases(t: Tables, a: NameLists, b: NameLists, ref: Reference)
    requires !ref.kind.CallRef?
    ensures EdgeOf(t, a, ref) == EdgeOf(t, b, ref)
  {
  }

  lemma RefEdgesAppended(t: Tables, bases: NameLists, refs: seq<Reference>, ref: Reference)
    ensures RefEdges(t, bases, refs + [ref]) ==
            RefEdges(t, bases, refs) + if EdgeOf(t, bases, ref).Some? then {EdgeOf(t, bases, ref).value} else {}
  {
  }

  /** Base references resolved without a hierarchy, the others with it. */
  lemma KindsTogether(t: Tables, bases: NameLists, ordered: seq<Reference>, references: seq<Reference>)
    requires ordered == Sort(RefLe, references)
    ensures RefEdges(t, map[], OfKind(ordered, {BaseRef})) + RefEdges(t, bases, OfKind(ordered, {CallRef, TypeRef})) ==
            RefEdges(t, bases, references)
  {
    var inherited, used := OfKind(ordered, {BaseRef}), OfKind(ordered, {CallRef, TypeRef});
    forall e
      ensures e in RefEdges(t, map[], inherited) + RefEdges(t, bases, used) <==> e in RefEdges(t, bases, references)
    {
      if e in RefEdges(t, bases, references) {
        var r :| r in references && EdgeOf(t, bases, r) == Some(e);
        KindSplit(t, bases, ordered, references, r);
      }
      if e in RefEdges(t, map[], inherited) {
        var r :| r in inherited && EdgeOf(t, map[], r) == Some(e);
        KindSplit(t, bases, ordered, references, r);
      }
      if e in RefEdges(t, bases, used) {
        var r :| r in used && EdgeOf(t, bases, r) == Some(e);
        KindSplit(t, bases, ordered, references, r);
      }
    }
  }

  lemma KindSplit(t: Tables, bases: NameLists, ordered: seq<Reference>, references: seq<Reference>, r: Reference)
    requires ordered == Sort(RefLe, references)
    ensures r in references <==> r in OfKind(ordered, {BaseRef}) || r in OfKind(ordered, {CallRef, TypeRef})
    ensures r in OfKind(ordered, {BaseRef}) ==> EdgeOf(t, map[], r) == EdgeOf(t, bases, r)
  {
    SameElements(references, ordered, r);
    OfKindHolds(ordered, {BaseRef}, r);
    OfKindHolds(ordered, {CallRef, TypeRef}, r);
    if r.kind.BaseRef? {
      IgnoresBases(t, map[], bases, r);
    }
  }
}
