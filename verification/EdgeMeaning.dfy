/** The edge table, edge by edge: which references, imports and definitions have
    one and where it ends, with the kinds, the names for self and the file
    extensions written out. */
module EdgeMeaning {
  import opened Protocol
  import opened Sorting
  import opened Names
  import opened Hierarchy
  import opened EdgeResolution
  import opened EdgeProperties

  // ----- what a reference may refer to

  predicate Named(t: Tables, name: string, kind: SymbolKind) {
    name in t.byName && t.byName[name].kind == kind
  }

  /** A call may mean a function, a method or a class; a base or an annotation a
      class or a type. */
  predicate Suits(t: Tables, kind: RefKind, name: string) {
    || Named(t, name, ClassKind)
    || (kind.CallRef? && (Named(t, name, FunctionKind) || Named(t, name, MethodKind)))
    || (!kind.CallRef? && Named(t, name, TypeKind))
  }

  lemma SuitsIs(t: Tables, kind: RefKind, name: string)
    ensures Suits(t, kind, name) <==> Is(t, name, Targets(kind))
  {
  }

  // ----- one target per reference

  /** What a reference stands for, given all references of the repository. */
  ghost function Meaning(t: Tables, refs: seq<Reference>, ref: Reference): Option<string> {
    Resolve(t, BaseRelation(t, Sort(RefLe, refs)), ref.source, ref.target, Targets(ref.kind), ref.kind == CallRef)
  }

  /** The edge comes from a reference to what it means. */
  ghost predicate Refers(t: Tables, refs: seq<Reference>, ref: Reference, e: Edge) {
    && ref in refs && e.source == ref.source && Meaning(t, refs, ref) == Some(e.target)
    && match ref.kind
       case CallRef => e.kind == Calls
       case BaseRef => e.kind == Inherits
       case TypeRef => e.kind == ReferencesType
  }

  /** The edge says that the class or function `s.scope` contains `s`. */
  predicate Contains(t: Tables, s: SymbolKey, e: Edge) {
    s in t.byName.Values && s.scope != "" && e == Edge(s.path + "::" + s.scope, s.qname, EdgeKind.Defines)
  }

  ghost predicate Brings(t: Tables, imp: Import, e: Edge) {
    imp in t.imports.Values && e.kind == Imports && e.source == imp.path && ViaImport(t, imp, []) == Some(e.target)
  }

  /** The table has one edge for each reference that means something, for each
      import that leads to an indexed file or symbol and for each nested symbol, and
      no others. */
  lemma EdgesExactly(t: Tables, refs: seq<Reference>, e: Edge)
    ensures e in EdgeSet(t, refs) <==>
            || (exists ref :: Refers(t, refs, ref, e))
            || (exists imp :: Brings(t, imp, e))
            || (exists s :: Contains(t, s, e))
  {
    ReferenceEdges(t, refs, e);
    if e in ImportEdges(t) {
      var imp :| imp in t.imports.Values && ViaImport(t, imp, []) == Some(e.target) && e.source == imp.path;
      assert Brings(t, imp, e);
    }
    if imp :| Brings(t, imp, e) {
      assert e == Edge(imp.path, ViaImport(t, imp, []).value, Imports);
    }
    if e in DefineEdges(t) {
      var s :| s in t.byName.Values && s.scope != ""
        && e == Edge(Qualified(s.path, s.scope), s.qname, EdgeKind.Defines);
      assert Contains(t, s, e);
    }
    if s :| Contains(t, s, e) {
      assert e == Edge(Qualified(s.path, s.scope), s.qname, EdgeKind.Defines);
    }
  }

  lemma ReferenceEdges(t: Tables, refs: seq<Reference>, e: Edge)
    ensures e in RefEdges(t, BaseRelation(t, Sort(RefLe, refs)), refs) <==> exists ref :: Refers(t, refs, ref, e)
  {
    var bases := BaseRelation(t, Sort(RefLe, refs));
    if e in RefEdges(t, bases, refs) {
      var ref :| ref in refs && EdgeOf(t, bases, ref) == Some(e);
      assert Refers(t, refs, ref, e);
    }
    if ref :| Refers(t, refs, ref, e) {
      assert EdgeOf(t, bases, ref) == Some(e);
    }
  }

  /** A reference that means something has its edge. */
  lemma MeantIsThere(t: Tables, refs: seq<Reference>, ref: Reference, target: string)
    requires ref in refs && Meaning(t, refs, ref) == Some(target)
    ensures ref.kind == CallRef ==> Edge(ref.source, target, Calls) in EdgeSet(t, refs)
    ensures ref.kind == BaseRef ==> Edge(ref.source, target, Inherits) in EdgeSet(t, refs)
    ensures ref.kind == TypeRef ==> Edge(ref.source, target, ReferencesType) in EdgeSet(t, refs)
  {
    var kind := if ref.kind == CallRef then Calls else if ref.kind == BaseRef then Inherits else ReferencesType;
    assert Refers(t, refs, ref, Edge(ref.source, target, kind));
    EdgesExactly(t, refs, Edge(ref.source, target, kind));
  }

  // ----- the base relation is that of the edges

  /** `c` is reached from `root` along `n` edges of the table that say inherits. */
  ghost predicate InheritedIn(t: Tables, refs: seq<Reference>, root: string, c: string, n: nat)
    decreases n
  {
    if n == 0 then c == root
    else exists d :: InheritedIn(t, refs, root, d, n - 1) && Edge(d, c, Inherits) in EdgeSet(t, refs)
  }

  /** No class, given or not, changes what a base refers to. */
  lemma BaseMeaning(t: Tables, a: NameLists, b: NameLists, ref: Reference)
    requires ref.kind == BaseRef
    ensures EdgeOf(t, a, ref) == EdgeOf(t, b, ref)
  {
  }

  ghost predicate Bases(t: Tables, ref: Reference, c: string, b: string) {
    ref.kind == BaseRef && ref.source == c && EdgeOf(t, map[], ref) == Some(Edge(c, b, Inherits))
  }

  lemma {:induction false} ListedBases(t: Tables, refs: seq<Reference>, c: string, b: string)
    ensures b in Listed(BaseRelation(t, refs), c) <==> exists ref :: ref in refs && Bases(t, ref, c, b)
  {
    if refs != [] {
      var front, last := refs[..|refs| - 1], refs[|refs| - 1];
      ListedBases(t, front, c, b);
      assert refs == front + [last];
      LastBase(t, front, last, c, b);
      if ref :| ref in refs && Bases(t, ref, c, b) {
        assert ref in front || ref == last;
      }
      if ref :| ref in front && Bases(t, ref, c, b) {
        assert ref in refs;
      }
    }
  }

  lemma LastBase(t: Tables, front: seq<Reference>, last: Reference, c: string, b: string)
    ensures b in Listed(BaseRelation(t, front + [last]), c) <==>
            b in Listed(BaseRelation(t, front), c) || Bases(t, last, c, b)
  {
    assert (front + [last])[..|front|] == front;
  }

  lemma ListedInherits(t: Tables, refs: seq<Reference>, c: string, b: string)
    ensures b in Listed(BaseRelation(t, Sort(RefLe, refs)), c) <==> Edge(c, b, Inherits) in EdgeSet(t, refs)
  {
    var sorted, e := Sort(RefLe, refs), Edge(c, b, Inherits);
    ListedBases(t, sorted, c, b);
    EdgesExactly(t, refs, e);
    RefOrder();
    SortSorts(RefLe, refs);
    forall ref
      ensures ref in sorted && Bases(t, ref, c, b) <==> Refers(t, refs, ref, e)
    {
      SameElements(refs, sorted, ref);
      if ref.kind == BaseRef {
        BaseMeaning(t, map[], BaseRelation(t, sorted), ref);
      }
    }
  }

  lemma {:induction false} ReachedInherits(t: Tables, refs: seq<Reference>, root: string, c: string, n: nat)
    ensures ReachedIn(BaseRelation(t, Sort(RefLe, refs)), root, c, n) <==> InheritedIn(t, refs, root, c, n)
    decreases n
  {
    if n > 0 {
      forall d
        ensures ReachedIn(BaseRelation(t, Sort(RefLe, refs)), root, d, n - 1) <==> InheritedIn(t, refs, root, d, n - 1)
        ensures c in Listed(BaseRelation(t, Sort(RefLe, refs)), d) <==> Edge(d, c, Inherits) in EdgeSet(t, refs)
      {
        ReachedInherits(t, refs, root, d, n - 1);
        ListedInherits(t, refs, d, c);
      }
    }
  }

  // ----- calls through self and this

  /** `word` is what code in the file calls the object it runs on, or its class. */
  predicate SaysSelf(t: Tables, path: string, word: string) {
    if path in t.languages && t.languages[path] == "python" then word in {"self", "cls"} else word == "this"
  }

  /** `source` is the class `cls` of the file itself, or a member of it. */
  ghost predicate Inside(t: Tables, path: string, cls: string, source: string) {
    && ':' !in path && cls != ""
    && if Named(t, source, ClassKind) then source == path + "::" + cls
       else exists name :: '.' !in name && source == path + "::" + (cls + "." + name)
  }

  /** A class reached from `root` in `n` inheritance steps has the member. */
  ghost predicate HasMember(t: Tables, refs: seq<Reference>, root: string, member: string, c: string, n: nat) {
    InheritedIn(t, refs, root, c, n) && Suits(t, CallRef, c + "." + member)
  }

  /** And no class has it in fewer. */
  ghost predicate HasNearest(t: Tables, refs: seq<Reference>, root: string, member: string, c: string, n: nat) {
    HasMember(t, refs, root, member, c, n) && forall d, m | HasMember(t, refs, root, member, d, m) :: n <= m
  }

  lemma {:induction false} LeastReach(bases: NameLists, root: string, c: string, k: nat) returns (n: nat)
    requires ReachedIn(bases, root, c, k)
    ensures n <= k && ReachedIn(bases, root, c, n) && forall m: nat | m < n :: !ReachedIn(bases, root, c, m)
  {
    n := k;
    if m: nat :| m < k && ReachedIn(bases, root, c, m) {
      n := LeastReach(bases, root, c, m);
    }
  }

  lemma NearestSteps(t: Tables, refs: seq<Reference>, root: string, member: string, target: Option<string>)
    returns (c: string, n: nat)
    requires MeansNearest(t, BaseRelation(t, Sort(RefLe, refs)), root, member, Targets(CallRef), target)
    ensures HasNearest(t, refs, root, member, c, n) && target == Some(c + "." + member)
  {
    var bases := BaseRelation(t, Sort(RefLe, refs));
    c :| Definer(t, bases, root, member, Targets(CallRef), c) && Nearest(t, bases, root, member, Targets(CallRef), c)
      && target == Some(c + "." + member);
    var k :| ReachedIn(bases, root, c, k);
    n := LeastReach(bases, root, c, k);
    ReachedInherits(t, refs, root, c, n);
    SuitsIs(t, CallRef, c + "." + member);
    forall d, m | HasMember(t, refs, root, member, d, m)
      ensures n <= m
    {
      ReachedInherits(t, refs, root, d, m);
      SuitsIs(t, CallRef, d + "." + member);
      assert Within(bases, root, d, m);
    }
  }

  lemma NoSteps(t: Tables, refs: seq<Reference>, root: string, member: string, c: string, n: nat)
    requires !Definer(t, BaseRelation(t, Sort(RefLe, refs)), root, member, Targets(CallRef), c)
    ensures !HasMember(t, refs, root, member, c, n)
  {
    ReachedInherits(t, refs, root, c, n);
    SuitsIs(t, CallRef, c + "." + member);
  }

  lemma ReadsSelf(t: Tables, path: string, cls: string, source: string, word: string, member: string)
    requires Inside(t, path, cls, source) && SaysSelf(t, path, word)
    ensures ThroughSelf(t, source, word + "." + member)
    ensures PathPart(source) == path && OwnerInner(t, source) == cls
    ensures Split(word + "." + member)[0] == word && Join(Split(word + "." + member)[1..]) == member
  {
    SplitFirst(word, member);
    JoinSplit(member);
    if Named(t, source, ClassKind) {
      QualifiedParts(path, cls);
    } else {
      var name :| '.' !in name && source == path + "::" + (cls + "." + name);
      QualifiedParts(path, cls + "." + name);
      OwnerOf(cls, name);
    }
  }

  /** The name bound in the file leads, through its import, to something the
      reference may refer to. */
  ghost predicate Imported(t: Tables, path: string, parts: seq<string>, kind: RefKind, target: string)
    requires parts != []
  {
    && (path, parts[0]) in t.imports && Suits(t, kind, target)
    && ViaImport(t, t.imports[(path, parts[0])], parts[1..]) == Some(target)
  }

  /** A call through self or this that means no symbol of its file directly has one
      edge, to the member of a nearest class that has it along the inheritance
      edges; only if no class has it do the imports decide. */
  lemma SelfCallEdge(
      t: Tables, refs: seq<Reference>, path: string, cls: string, source: string, word: string, member: string)
    requires Inside(t, path, cls, source) && SaysSelf(t, path, word)
    requires !Suits(t, CallRef, path + "::" + (word + "." + member))
    requires Reference(source, CallRef, word + "." + member) in refs
    ensures
      var ref, root := Reference(source, CallRef, word + "." + member), path + "::" + cls;
      if exists c, n :: HasMember(t, refs, root, member, c, n) then
        exists c, n :: HasNearest(t, refs, root, member, c, n) && Meaning(t, refs, ref) == Some(c + "." + member)
                       && Edge(source, c + "." + member, Calls) in EdgeSet(t, refs)
      else
        forall target :: Meaning(t, refs, ref) == Some(target)
                         <==> Imported(t, path, Split(ref.target), CallRef, target)
  {
    var ref, root := Reference(source, CallRef, word + "." + member), path + "::" + cls;
    var bases := BaseRelation(t, Sort(RefLe, refs));
    ReadsSelf(t, path, cls, source, word, member);
    SuitsIs(t, CallRef, path + "::" + ref.target);
    SelfCallNearest(t, bases, source, ref.target, Targets(CallRef));
    if MeansNearest(t, bases, root, member, Targets(CallRef), Meaning(t, refs, ref)) {
      var c, n := NearestSteps(t, refs, root, member, Meaning(t, refs, ref));
      MeantIsThere(t, refs, ref, c + "." + member);
    } else {
      forall c, n
        ensures !HasMember(t, refs, root, member, c, n)
      {
        NoSteps(t, refs, root, member, c, n);
      }
      BindingImported(t, source, ref.target, CallRef);
    }
  }

  lemma BindingImported(t: Tables, source: string, target: string, kind: RefKind)
    ensures forall found :: ViaBinding(t, source, target, Targets(kind)) == Some(found)
                            <==> Imported(t, PathPart(source), Split(target), kind, found)
  {
    forall found
      ensures Suits(t, kind, found) <==> Is(t, found, Targets(kind))
    {
      SuitsIs(t, kind, found);
    }
  }

  // ----- all other references

  /** The reference is a call through self or this inside some class. */
  predicate CallsSelf(t: Tables, ref: Reference) {
    && ref.kind == CallRef && '.' in ref.target && SaysSelf(t, PathPart(ref.source), Split(ref.target)[0])
    && (Named(t, ref.source, ClassKind) || '.' in InnerPart(ref.source))
  }

  /** A reference means the symbol of its own file with that name if there is one,
      and otherwise what its first part was imported as leads to. */
  lemma MeansLocalOrImported(t: Tables, refs: seq<Reference>, ref: Reference, target: string)
    ensures Suits(t, ref.kind, PathPart(ref.source) + "::" + ref.target) ==>
              Meaning(t, refs, ref) == Some(PathPart(ref.source) + "::" + ref.target)
    ensures !Suits(t, ref.kind, PathPart(ref.source) + "::" + ref.target) && !CallsSelf(t, ref) ==>
              (Meaning(t, refs, ref) == Some(target)
               <==> Imported(t, PathPart(ref.source), Split(ref.target), ref.kind, target))
  {
    SuitsIs(t, ref.kind, PathPart(ref.source) + "::" + ref.target);
    BindingImported(t, ref.source, ref.target, ref.kind);
    if '.' !in ref.target {
      SplitWord(ref.target);
    }
    if '.' !in InnerPart(ref.source) {
      SplitWord(InnerPart(ref.source));
    }
  }

  // ----- imports

  /** `name` is what the parts after a module file lead to: the file itself, or the
      symbol in it they name. */
  predicate LeadsTo(t: Tables, file: string, parts: seq<string>, name: string) {
    if parts == [] then name == file else name == file + "::" + Join(parts) && name in t.byName
  }

  lemma MemberLeads(t: Tables, file: string, parts: seq<string>, name: string)
    ensures Member(t, file, parts) == Some(name) <==> LeadsTo(t, file, parts, name)
  {
  }

  /** In the longest prefix of the dotted path that exactly one Python file answers
      to, `name` is what the rest leads to. */
  ghost predicate LongestLeads(t: Tables, dotted: seq<string>, name: string) {
    exists cut: nat, file: string ::
      LongestAnswered(t, dotted, |dotted|, cut, file) && LeadsTo(t, file, dotted[cut..], name)
  }

  /** The files an ECMAScript specifier may mean, the first indexed one decides. */
  function Candidates(specifier: string): seq<string> {
    [specifier,
     specifier + ".ts", specifier + ".tsx", specifier + ".js", specifier + ".jsx", specifier + ".mjs",
     specifier + ".cjs",
     specifier + "/index.ts", specifier + "/index.tsx", specifier + "/index.js", specifier + "/index.jsx"]
  }

  predicate FirstCandidate(t: Tables, specifier: string, i: nat) {
    && i < |Candidates(specifier)| && Candidates(specifier)[i] in t.languages
    && forall j | 0 <= j < i :: Candidates(specifier)[j] !in t.languages
  }

  lemma {:induction false} FirstProbe(t: Tables, specifier: string, probes: seq<string>) returns (i: nat)
    ensures i <= |probes| && forall j | 0 <= j < i :: specifier + probes[j] !in t.languages
    ensures i < |probes| ==> specifier + probes[i] in t.languages
    ensures FirstIndexed(t, specifier, probes) == if i < |probes| then Some(specifier + probes[i]) else None
  {
    i := 0;
    if probes != [] && specifier + probes[0] !in t.languages {
      i := FirstProbe(t, specifier, probes[1..]);
      i := i + 1;
    }
  }

  /** `file` is the first indexed file the specifier may mean. */
  ghost predicate Finds(t: Tables, specifier: string, file: string) {
    exists i: nat :: FirstCandidate(t, specifier, i) && Candidates(specifier)[i] == file
  }

  lemma CandidatesAre(specifier: string)
    ensures |Candidates(specifier)| == |Probes| + 1 && Candidates(specifier)[0] == specifier
    ensures forall k | 0 <= k < |Probes| :: Candidates(specifier)[k + 1] == specifier + Probes[k]
  {
    assert |Probes| == 10;
    forall k | 0 <= k < 10
      ensures Candidates(specifier)[k + 1] == specifier + Probes[k]
    {
      assert k in {0, 1, 2, 3, 4, 5, 6, 7, 8, 9};
    }
  }

  lemma EcmaFinds(t: Tables, specifier: string)
    ensures EcmaPath(t, specifier).Some? ==> Finds(t, specifier, EcmaPath(t, specifier).value)
    ensures EcmaPath(t, specifier).None? ==> forall i: nat :: !FirstCandidate(t, specifier, i)
  {
    CandidatesAre(specifier);
    if specifier in t.languages {
      assert FirstCandidate(t, specifier, 0);
    } else {
      var k := FirstProbe(t, specifier, Probes);
      if k < |Probes| {
        forall j | 0 <= j < k + 1
          ensures Candidates(specifier)[j] !in t.languages
        {
          if j > 0 {
            assert Candidates(specifier)[j - 1 + 1] == specifier + Probes[j - 1];
          }
        }
        assert Candidates(specifier)[k + 1] == specifier + Probes[k];
        assert FirstCandidate(t, specifier, k + 1);
      } else {
        forall i: nat | i < |Candidates(specifier)|
          ensures Candidates(specifier)[i] !in t.languages
        {
          if i > 0 {
            assert Candidates(specifier)[i] == specifier + Probes[i - 1];
          }
        }
      }
    }
  }

  lemma EcmaFile(t: Tables, specifier: string, file: string)
    ensures EcmaPath(t, specifier) == Some(file) <==> Finds(t, specifier, file)
  {
    EcmaFinds(t, specifier);
    forall i: nat, j: nat | FirstCandidate(t, specifier, i) && FirstCandidate(t, specifier, j)
      ensures i == j
    {
    }
  }

  /** The module and imported name of a Python import. */
  lemma ImportFrontReads(imp: Import)
    ensures Join(DottedImport(imp, [])) ==
            imp.moduleName + if imp.importedName == "" then "" else "." + imp.importedName
  {
    var parts := Split(imp.moduleName);
    JoinSplit(imp.moduleName);
    if imp.importedName == "" {
      assert DottedImport(imp, []) == parts;
    } else {
      assert DottedImport(imp, []) == parts + [imp.importedName];
      JoinAppend(parts, [imp.importedName]);
    }
  }

  /** The parts a Python import with a member chain stands for. */
  lemma DottedImportReads(imp: Import, rest: seq<string>)
    ensures Join(DottedImport(imp, rest)) ==
            imp.moduleName + (if imp.importedName == "" then "" else "." + imp.importedName)
            + if rest == [] then "" else "." + Join(rest)
  {
    ImportFrontReads(imp);
    if rest != [] {
      assert DottedImport(imp, rest) == DottedImport(imp, []) + rest;
      JoinAppend(DottedImport(imp, []), rest);
    }
  }

  lemma {:induction false} JoinAppend(a: seq<string>, b: seq<string>)
    requires a != [] && b != []
    ensures Join(a + b) == Join(a) + "." + Join(b)
  {
    assert (a + b)[1..] == a[1..] + b;
    if |a| > 1 {
      JoinAppend(a[1..], b);
    } else {
      assert a[1..] + b == b;
    }
  }

  /** An import binding leads to what its dotted path means in a Python file; in any
      other file to what follows in the module file its specifier finds, a default
      import standing for the file. */
  lemma ImportsExactly(t: Tables, imp: Import, rest: seq<string>, name: string)
    ensures ViaImport(t, imp, rest) == Some(name) <==>
            if imp.path in t.languages && t.languages[imp.path] == "python" then
              LongestLeads(t, DottedImport(imp, rest), name)
            else
              var chain := (if imp.importedName == "" || imp.importedName == "default" then [] else [imp.importedName])
                           + rest;
              exists file :: Finds(t, imp.moduleName, file) && LeadsTo(t, file, chain, name)
  {
    if IsPython(t, imp.path) {
      var dotted := DottedImport(imp, rest);
      PythonImportLongest(t, imp, rest, name);
      forall cut: nat, file | LongestAnswered(t, dotted, |dotted|, cut, file)
        ensures Member(t, file, dotted[cut..]) == Some(name) <==> LeadsTo(t, file, dotted[cut..], name)
      {
      }
      LongestThrough(t, dotted, name);
    } else {
      forall file
        ensures EcmaPath(t, imp.moduleName) == Some(file) <==> Finds(t, imp.moduleName, file)
      {
        EcmaFile(t, imp.moduleName, file);
      }
    }
  }

  lemma LongestThrough(t: Tables, dotted: seq<string>, name: string)
    ensures ThroughLongest(t, dotted, |dotted|, name) <==> LongestLeads(t, dotted, name)
  {
    if cut: nat, file :| Through(t, dotted, |dotted|, name, cut, file) {
      MemberLeads(t, file, dotted[cut..], name);
    }
    if cut: nat, file: string :|
       LongestAnswered(t, dotted, |dotted|, cut, file) && LeadsTo(t, file, dotted[cut..], name) {
      MemberLeads(t, file, dotted[cut..], name);
      assert Through(t, dotted, |dotted|, name, cut, file);
    }
  }

  // ----- rows with the same key, and the order of the list

  /** Row `i` is the last of its key. */
  ghost predicate LastOf<K, V>(key: V -> K, values: seq<V>, i: nat) {
    i < |values| && forall j | i < j < |values| :: key(values[j]) != key(values[i])
  }

  /** Of rows with the same name or binding the last one counts. */
  lemma {:induction false} LastRowCounts<K, V>(key: V -> K, values: seq<V>, k: K, v: V)
    ensures k in Keyed(key, values) && Keyed(key, values)[k] == v <==>
            exists i: nat :: LastOf(key, values, i) && values[i] == v && key(v) == k
  {
    if values != [] {
      var front, n := values[..|values| - 1], |values| - 1;
      LastRowCounts(key, front, k, v);
      if key(values[n]) == k {
        if values[n] == v {
          assert LastOf(key, values, n);
        }
      } else {
        if i: nat :| LastOf(key, front, i) && front[i] == v && key(v) == k {
          assert LastOf(key, values, i);
        }
        if i: nat :| LastOf(key, values, i) && values[i] == v && key(v) == k {
          assert LastOf(key, front, i);
        }
      }
    }
  }

  function Rank(kind: EdgeKind): nat {
    match kind
    case Calls => 0
    case Defines => 1
    case Imports => 2
    case Inherits => 3
    case ReferencesType => 4
  }

  /** Edges are listed by source, then target, then kind in this order. */
  lemma EdgesOrdered(a: Edge, b: Edge)
    ensures EdgeLe(a, b) <==>
            if a.source != b.source then TextLe(a.source, b.source)
            else if a.target != b.target then TextLe(a.target, b.target)
            else Rank(a.kind) <= Rank(b.kind)
  {
    var x, y := EdgeKindName(a.kind), EdgeKindName(b.kind);
    var none: seq<string> := [];
    assert EdgeKey(a) == [a.source] + [a.target, x] && EdgeKey(b) == [b.source] + [b.target, y];
    assert [a.target, x] == [a.target] + [x] && [b.target, y] == [b.target] + [y];
    assert [x] == [x] + none && [y] == [y] + none;
    RowHead(a.source, b.source, [a.target, x], [b.target, y]);
    RowHead(a.target, b.target, [x], [y]);
    RowHead(x, y, none, none);
    if a.kind != b.kind {
      KindNamesDiffer(BaseRef, BaseRef, a.kind, b.kind);
      KindsOrdered(a.kind, b.kind);
    }
  }

  lemma RowHead(p: string, q: string, r: seq<string>, s: seq<string>)
    ensures RowLe([p] + r, [q] + s) <==> if p != q then TextLe(p, q) else RowLe(r, s)
  {
    assert ([p] + r)[1..] == r && ([q] + s)[1..] == s;
  }

  lemma TextHead(a: string, b: string)
    requires a != [] && b != []
    ensures TextLe(a, b) <==> if a[0] != b[0] then a[0] <= b[0] else TextLe(a[1..], b[1..])
  {
  }

  lemma KindsOrdered(a: EdgeKind, b: EdgeKind)
    requires a != b
    ensures TextLe(EdgeKindName(a), EdgeKindName(b)) <==> Rank(a) <= Rank(b)
  {
    var x, y := EdgeKindName(a), EdgeKindName(b);
    TextHead(x, y);
    if x[0] == y[0] {
      TextHead(x[1..], y[1..]);
      assert x[1..][0] == x[1] && y[1..][0] == y[1];
    }
  }
}
