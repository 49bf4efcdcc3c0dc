/** What resolution guarantees: where edges end, which file a Python import
    means, which definition a self call means, and that the order of its inputs
    does not matter. */
module EdgeProperties {
  import opened Protocol
  import opened Sorting
  import opened Names
  import opened Hierarchy
  import opened EdgeResolution

  // ----- where edges end

  lemma {:induction false} ViaModulesIndexed(t: Tables, dotted: seq<string>, cut: nat)
    requires cut <= |dotted| && ViaModules(t, dotted, cut).Some?
    ensures Indexed(t, ViaModules(t, dotted, cut).value)
  {
    if path :| AnsweredOnce(t.languages, Join(dotted[..cut]), path) && cut > 0 {
      assert path in Answers(t.languages, Join(dotted[..cut]));
    }
    if cut > 0 && !exists path :: AnsweredOnce(t.languages, Join(dotted[..cut]), path) {
      ViaModulesIndexed(t, dotted, cut - 1);
    }
  }

  /** `name` is an indexed file or symbol. */
  predicate Indexed(t: Tables, name: string) {
    name in t.languages || name in t.byName
  }

  lemma {:induction false} FirstIndexedIndexed(t: Tables, specifier: string, probes: seq<string>)
    requires FirstIndexed(t, specifier, probes).Some?
    ensures FirstIndexed(t, specifier, probes).value in t.languages
  {
    if specifier + probes[0] !in t.languages {
      FirstIndexedIndexed(t, specifier, probes[1..]);
    }
  }

  lemma ViaImportIndexed(t: Tables, imp: Import, rest: seq<string>)
    requires ViaImport(t, imp, rest).Some?
    ensures Indexed(t, ViaImport(t, imp, rest).value)
  {
    if IsPython(t, imp.path) {
      ViaModulesIndexed(t, DottedImport(imp, rest), |DottedImport(imp, rest)|);
    } else if imp.moduleName !in t.languages {
      FirstIndexedIndexed(t, imp.moduleName, Probes);
    }
  }

  lemma {:induction false} FirstDefinerDefines(t: Tables, classes: seq<string>, rest: string, kinds: set<SymbolKind>)
    returns (i: nat)
    ensures FirstDefiner(t, classes, rest, kinds).Some? <==> i < |classes|
    ensures i < |classes| ==> FirstDefiner(t, classes, rest, kinds) == Some(classes[i] + "." + rest)
                              && Is(t, classes[i] + "." + rest, kinds)
    ensures forall j | 0 <= j < i && j < |classes| :: !Is(t, classes[j] + "." + rest, kinds)
  {
    if classes == [] || Is(t, classes[0] + "." + rest, kinds) {
      i := 0;
    } else {
      i := FirstDefinerDefines(t, classes[1..], rest, kinds);
      i := i + 1;
    }
  }

  lemma ResolveIs(t: Tables, bases: NameLists, source: string, target: string, kinds: set<SymbolKind>, hierarchy: bool)
    requires Resolve(t, bases, source, target, kinds, hierarchy).Some?
    ensures Is(t, Resolve(t, bases, source, target, kinds, hierarchy).value, kinds)
  {
    var classes := Linearised(bases, Qualified(PathPart(source), OwnerInner(t, source)));
    var _ := FirstDefinerDefines(t, classes, Join(Split(target)[1..]), kinds);
  }

  /** Every edge of a reference ends at a symbol of a kind it may refer to, every
      import edge at an indexed file or symbol. */
  lemma EdgesEndIndexed(t: Tables, refs: seq<Reference>, e: Edge)
    requires e in EdgeSet(t, refs)
    ensures e.kind.Calls? ==> Is(t, e.target, CallTargets)
    ensures e.kind.Inherits? || e.kind.ReferencesType? ==> Is(t, e.target, TypeTargets)
    ensures e.kind.Imports? ==> Indexed(t, e.target)
  {
    var bases := BaseRelation(t, Sort(RefLe, refs));
    if e in RefEdges(t, bases, refs) {
      var ref :| ref in refs && EdgeOf(t, bases, ref) == Some(e);
      ResolveIs(t, bases, ref.source, ref.target, Targets(ref.kind), ref.kind.CallRef?);
    } else if e in ImportEdges(t) {
      var imp :| imp in t.imports.Values && ViaImport(t, imp, []) == Some(e.target);
      ViaImportIndexed(t, imp, []);
    }
  }

  // ----- Python imports

  /** `path` alone answers to the first `cut` parts of `dotted`, and no longer
      prefix has a single answer. */
  ghost predicate LongestAnswered(t: Tables, dotted: seq<string>, top: nat, cut: nat, path: string)
    requires top <= |dotted|
  {
    && 0 < cut <= top
    && AnsweredOnce(t.languages, Join(dotted[..cut]), path)
    && forall c | cut < c <= top :: Unanswered(t, dotted, c)
  }

  /** The first `c` parts of `dotted` have no answer, or several. */
  ghost predicate Unanswered(t: Tables, dotted: seq<string>, c: nat)
    requires c <= |dotted|
  {
    forall p :: !AnsweredOnce(t.languages, Join(dotted[..c]), p)
  }

  /** `target` is what the longest prefix with a single answer leads to. */
  ghost predicate ThroughLongest(t: Tables, dotted: seq<string>, top: nat, target: string)
    requires top <= |dotted|
  {
    exists cut: nat, path :: Through(t, dotted, top, target, cut, path)
  }

  ghost predicate Through(t: Tables, dotted: seq<string>, top: nat, target: string, cut: nat, path: string)
    requires top <= |dotted|
  {
    LongestAnswered(t, dotted, top, cut, path) && Member(t, path, dotted[cut..]) == Some(target)
  }

  lemma {:induction false} ViaModulesLongest(t: Tables, dotted: seq<string>, top: nat, target: string)
    requires top <= |dotted|
    ensures ViaModules(t, dotted, top) == Some(target) <==> ThroughLongest(t, dotted, top, target)
  {
    if top > 0 {
      if path :| AnsweredOnce(t.languages, Join(dotted[..top]), path) {
        AnsweredThrough(t, dotted, top, target);
      } else {
        ViaModulesLongest(t, dotted, top - 1, target);
        ShorterLongest(t, dotted, top, target);
      }
    }
  }

  /** If the whole prefix has an answer, it alone decides. */
  lemma AnsweredThrough(t: Tables, dotted: seq<string>, top: nat, target: string)
    requires 0 < top <= |dotted| && exists path :: AnsweredOnce(t.languages, Join(dotted[..top]), path)
    ensures ViaModules(t, dotted, top) == Some(target) <==> ThroughLongest(t, dotted, top, target)
  {
    var path :| AnsweredOnce(t.languages, Join(dotted[..top]), path);
    assert LongestAnswered(t, dotted, top, top, path);
    OneAnswer(t, dotted, top, path);
    forall p | AnsweredOnce(t.languages, Join(dotted[..top]), p)
      ensures p == path
    {
      assert LongestAnswered(t, dotted, top, top, p);
    }
    if Member(t, path, dotted[top..]) == Some(target) {
      assert Through(t, dotted, top, target, top, path);
    }
  }

  lemma ShorterLongest(t: Tables, dotted: seq<string>, top: nat, target: string)
    requires 0 < top <= |dotted| && Unanswered(t, dotted, top)
    ensures ThroughLongest(t, dotted, top, target) <==> ThroughLongest(t, dotted, top - 1, target)
  {
    var less := top - 1;
    if cut: nat, path :| Through(t, dotted, top, target, cut, path) {
      ShorterAnswered(t, dotted, top, cut, path);
      assert Through(t, dotted, less, target, cut, path);
    }
    if cut: nat, path :| Through(t, dotted, less, target, cut, path) {
      ShorterAnswered(t, dotted, top, cut, path);
      assert Through(t, dotted, top, target, cut, path);
    }
  }

  lemma ShorterAnswered(t: Tables, dotted: seq<string>, top: nat, cut: nat, path: string)
    requires 0 < top <= |dotted| && Unanswered(t, dotted, top)
    ensures LongestAnswered(t, dotted, top, cut, path) <==> LongestAnswered(t, dotted, top - 1, cut, path)
  {
    if LongestAnswered(t, dotted, top, cut, path) {
      assert cut != top;
      forall c | cut < c <= top - 1
        ensures Unanswered(t, dotted, c)
      {
      }
    }
    if LongestAnswered(t, dotted, top - 1, cut, path) {
      forall c | cut < c <= top
        ensures Unanswered(t, dotted, c)
      {
        assert c == top || c <= top - 1;
      }
    }
  }

  lemma OneAnswer(t: Tables, dotted: seq<string>, top: nat, path: string)
    requires top <= |dotted| && LongestAnswered(t, dotted, top, top, path)
    ensures forall cut: nat, p | LongestAnswered(t, dotted, top, cut, p) :: cut == top && p == path
  {
    forall cut: nat, p | LongestAnswered(t, dotted, top, cut, p)
      ensures cut == top && p == path
    {
      assert path in Answers(t.languages, Join(dotted[..top]));
      assert AnsweredOnce(t.languages, Join(dotted[..top]), path);
      assert cut < top ==> Unanswered(t, dotted, top);
    }
  }

  /** A Python import resolves through the longest dotted prefix that exactly one
      indexed file answers to, and through no other. */
  lemma PythonImportLongest(t: Tables, imp: Import, rest: seq<string>, target: string)
    requires IsPython(t, imp.path)
    ensures ViaImport(t, imp, rest) == Some(target) <==>
            ThroughLongest(t, DottedImport(imp, rest), |DottedImport(imp, rest)|, target)
  {
    ViaModulesLongest(t, DottedImport(imp, rest), |DottedImport(imp, rest)|, target);
  }

  // ----- self and this

  /** `c` can be reached in as few base steps as any class that defines `rest`. */
  ghost predicate Nearest(t: Tables, bases: NameLists, root: string, rest: string, kinds: set<SymbolKind>, c: string) {
    forall other, n | Within(bases, root, other, n) && Is(t, other + "." + rest, kinds) :: Within(bases, root, c, n)
  }

  /** A class reached from `root` that defines the member `rest`. */
  ghost predicate Definer(t: Tables, bases: NameLists, root: string, rest: string, kinds: set<SymbolKind>, c: string) {
    Reached(bases, root, c) && Is(t, c + "." + rest, kinds)
  }

  lemma FirstDefinerNearest(t: Tables, bases: NameLists, root: string, rest: string, kinds: set<SymbolKind>)
    returns (c: string)
    requires FirstDefiner(t, Linearised(bases, root), rest, kinds).Some?
    ensures FirstDefiner(t, Linearised(bases, root), rest, kinds) == Some(c + "." + rest)
    ensures Definer(t, bases, root, rest, kinds, c) && Nearest(t, bases, root, rest, kinds, c)
  {
    var classes := Linearised(bases, root);
    LinearisedIsReachable(bases, root);
    var i := FirstDefinerDefines(t, classes, rest, kinds);
    c := classes[i];
    forall other, n | Within(bases, root, other, n) && Is(t, other + "." + rest, kinds)
      ensures Within(bases, root, c, n)
    {
      assert Reached(bases, root, other);
      var j :| 0 <= j < |classes| && classes[j] == other;
      NearestFirst(bases, root, i, j, n);
    }
  }

  lemma NoDefiner(t: Tables, bases: NameLists, root: string, rest: string, kinds: set<SymbolKind>, c: string)
    requires FirstDefiner(t, Linearised(bases, root), rest, kinds).None?
    ensures !Definer(t, bases, root, rest, kinds, c)
  {
    var classes := Linearised(bases, root);
    LinearisedIsReachable(bases, root);
    var i := FirstDefinerDefines(t, classes, rest, kinds);
    assert Reached(bases, root, c) ==> c in classes;
  }

  /** `target` is the member `rest` of a nearest class that defines it. */
  ghost predicate MeansNearest(
      t: Tables, bases: NameLists, root: string, rest: string, kinds: set<SymbolKind>, target: Option<string>) {
    exists c ::
      Definer(t, bases, root, rest, kinds, c) && Nearest(t, bases, root, rest, kinds, c)
          && target == Some(c + "." + rest)
  }

  lemma FirstDefinerMeansNearest(t: Tables, bases: NameLists, root: string, rest: string, kinds: set<SymbolKind>)
    ensures var first := FirstDefiner(t, Linearised(bases, root), rest, kinds);
      if first.None? then forall c :: !Definer(t, bases, root, rest, kinds, c)
      else MeansNearest(t, bases, root, rest, kinds, first)
  {
    if FirstDefiner(t, Linearised(bases, root), rest, kinds).Some? {
      var c := FirstDefinerNearest(t, bases, root, rest, kinds);
    } else {
      forall c
        ensures !Definer(t, bases, root, rest, kinds, c)
      {
        NoDefiner(t, bases, root, rest, kinds, c);
      }
    }
  }

  /** A call through self or this that no symbol of its file answers directly
      means the definition of a nearest class that has one; the imports decide
      only if no class within reach defines the member. */
  lemma SelfCallNearest(t: Tables, bases: NameLists, source: string, target: string, kinds: set<SymbolKind>)
    requires !Is(t, Qualified(PathPart(source), target), kinds) && ThroughSelf(t, source, target)
    ensures
      var root, rest := Qualified(PathPart(source), OwnerInner(t, source)), Join(Split(target)[1..]);
      var meaning := Resolve(t, bases, source, target, kinds, true);
      || MeansNearest(t, bases, root, rest, kinds, meaning)
      || ((forall c :: !Definer(t, bases, root, rest, kinds, c)) && meaning == ViaBinding(t, source, target, kinds))
  {
    FirstDefinerMeansNearest(t, bases, Qualified(PathPart(source), OwnerInner(t, source)), Join(Split(target)[1..]),
        kinds);
  }

  // ----- the order of inputs

  /** The bases of `c`, as the search takes them up after `seen`. */
  ghost function Searched(t: Tables, refs: seq<Reference>, c: string, seen: seq<string>): seq<string> {
    Extend(seen, Listed(BaseRelation(t, refs), c))
  }

  lemma {:induction false} SqueezedBases(t: Tables, refs: seq<Reference>, c: string, seen: seq<string>)
    ensures Searched(t, refs, c, seen) == Searched(t, Squeeze(refs), c, seen)
  {
    if |refs| >= 2 {
      var front, last := refs[..|refs| - 1], refs[|refs| - 1];
      SqueezedBases(t, front, c, seen);
      if last == refs[|refs| - 2] {
        BaseRepeated(t, refs, c, seen);
      } else {
        BaseAppended(t, front, Squeeze(front), last, c, seen);
        assert refs == front + [last];
      }
    }
  }

  lemma BaseRepeated(t: Tables, refs: seq<Reference>, c: string, seen: seq<string>)
    requires |refs| >= 2 && refs[|refs| - 1] == refs[|refs| - 2]
    ensures Searched(t, refs, c, seen) == Searched(t, refs[..|refs| - 1], c, seen)
  {
    var front, last := refs[..|refs| - 1], refs[|refs| - 1];
    var start := refs[..|refs| - 2];
    assert front == start + [last] && refs == front + [last];
    BaseAdded(t, start, last, c, seen);
    BaseAdded(t, front, last, c, seen);
  }

  lemma BaseAppended(t: Tables, a: seq<Reference>, b: seq<Reference>, ref: Reference, c: string, seen: seq<string>)
    requires Searched(t, a, c, seen) == Searched(t, b, c, seen)
    ensures Searched(t, a + [ref], c, seen) == Searched(t, b + [ref], c, seen)
  {
    BaseAdded(t, a, ref, c, seen);
    BaseAdded(t, b, ref, c, seen);
  }

  lemma BaseAdded(t: Tables, refs: seq<Reference>, ref: Reference, c: string, seen: seq<string>)
    ensures Searched(t, refs + [ref], c, seen) ==
            var edge := EdgeOf(t, map[], ref);
            var r := Searched(t, refs, c, seen);
            if ref.kind.BaseRef? && edge.Some? && ref.source == c && edge.value.target !in r
                then r + [edge.value.target] else r
  {
    assert (refs + [ref])[..|refs|] == refs;
    var listed := Listed(BaseRelation(t, refs), c);
    var edge := EdgeOf(t, map[], ref);
    if ref.kind.BaseRef? && edge.Some? && ref.source == c {
      assert (listed + [edge.value.target])[..|listed|] == listed;
    }
  }

  /** The sorted references, repetitions dropped, depend on the set only. */
  lemma SqueezedSort(a: seq<Reference>, b: seq<Reference>)
    requires forall r :: r in a <==> r in b
    ensures Squeeze(Sort(RefLe, a)) == Squeeze(Sort(RefLe, b))
  {
    RefOrder();
    SortSorts(RefLe, a);
    SortSorts(RefLe, b);
    SqueezeLists(RefLe, Sort(RefLe, a));
    SqueezeLists(RefLe, Sort(RefLe, b));
    forall r
      ensures r in Sort(RefLe, a) <==> r in Sort(RefLe, b)
    {
      SameElements(a, Sort(RefLe, a), r);
      SameElements(b, Sort(RefLe, b), r);
    }
    ListingUnique(RefLe, Squeeze(Sort(RefLe, a)), Squeeze(Sort(RefLe, b)));
  }

  lemma SameBases(t: Tables, a: seq<Reference>, b: seq<Reference>)
    requires forall r :: r in a <==> r in b
    ensures SameSearch(BaseRelation(t, Sort(RefLe, a)), BaseRelation(t, Sort(RefLe, b)))
  {
    SqueezedSort(a, b);
    forall c, seen
      ensures Extend(seen, Listed(BaseRelation(t, Sort(RefLe, a)), c)) == Extend(seen,
          Listed(BaseRelation(t, Sort(RefLe, b)), c))
    {
      SqueezedBases(t, Sort(RefLe, a), c, seen);
      SqueezedBases(t, Sort(RefLe, b), c, seen);
      assert Searched(t, Sort(RefLe, a), c, seen) == Searched(t, Sort(RefLe, b), c, seen);
    }
  }

  lemma SameEdgeOf(t: Tables, a: NameLists, b: NameLists, ref: Reference)
    requires SameSearch(a, b)
    ensures EdgeOf(t, a, ref) == EdgeOf(t, b, ref)
  {
    SameLinearised(a, b, Qualified(PathPart(ref.source), OwnerInner(t, ref.source)));
  }

  /** The edges depend on the set of references only. */
  lemma ReferenceOrderIndependent(t: Tables, a: seq<Reference>, b: seq<Reference>)
    requires forall r :: r in a <==> r in b
    ensures EdgeSet(t, a) == EdgeSet(t, b)
  {
    var basesA, basesB := BaseRelation(t, Sort(RefLe, a)), BaseRelation(t, Sort(RefLe, b));
    SameBases(t, a, b);
    forall r
      ensures EdgeOf(t, basesA, r) == EdgeOf(t, basesB, r)
    {
      SameEdgeOf(t, basesA, basesB, r);
    }
    assert RefEdges(t, basesA, a) == RefEdges(t, basesB, b);
  }

  ghost predicate DistinctKeys<K, V(!new)>(key: V -> K, values: seq<V>) {
    forall v, w | v in values && w in values && key(v) == key(w) :: v == w
  }

  lemma {:induction false} KeyedHolds<K, V(!new)>(key: V -> K, values: seq<V>)
    requires DistinctKeys(key, values)
    ensures forall v <- values :: key(v) in Keyed(key, values) && Keyed(key, values)[key(v)] == v
    ensures forall k <- Keyed(key, values) :: Keyed(key, values)[k] in values && key(Keyed(key, values)[k]) == k
  {
    if values != [] {
      var front := values[..|values| - 1];
      assert values == front + [values[|values| - 1]];
      KeyedHolds(key, front);
    }
  }

  lemma KeyedBySet<K, V(!new)>(key: V -> K, a: seq<V>, b: seq<V>)
    requires DistinctKeys(key, a) && forall v :: v in a <==> v in b
    ensures Keyed(key, a) == Keyed(key, b)
  {
    KeyedHolds(key, a);
    KeyedHolds(key, b);
    var m, n := Keyed(key, a), Keyed(key, b);
    forall k
      ensures k in m <==> k in n
      ensures k in m ==> m[k] == n[k]
    {
      if k in m { assert m[k] in b; }
      if k in n { assert n[k] in a; }
    }
  }

  /** The list of edges is the same for any order of distinctly named symbols,
      any order of imports with distinct bindings, and any order and duplication
      of references. */
  lemma OrderIndependent(
      symbols: seq<SymbolKey>, symbols': seq<SymbolKey>, imports: seq<Import>, imports': seq<Import>,
      refs: seq<Reference>, refs': seq<Reference>, languages: map<string, string>, edges: seq<Edge>, edges': seq<Edge>)
    requires DistinctKeys(NameKey, symbols) && forall s :: s in symbols <==> s in symbols'
    requires DistinctKeys(BindingKey, imports) && forall i :: i in imports <==> i in imports'
    requires forall r :: r in refs <==> r in refs'
    requires Listing(edges, EdgeSet(TablesOf(symbols, imports, languages), refs))
    requires Listing(edges', EdgeSet(TablesOf(symbols', imports', languages), refs'))
    ensures edges == edges'
  {
    KeyedBySet(NameKey, symbols, symbols');
    KeyedBySet(BindingKey, imports, imports');
    ReferenceOrderIndependent(TablesOf(symbols, imports, languages), refs, refs');
    ListedAlike(edges, edges', EdgeSet(TablesOf(symbols, imports, languages), refs));
  }

  lemma ListedAlike(edges: seq<Edge>, edges': seq<Edge>, found: set<Edge>)
    requires Listing(edges, found) && Listing(edges', found)
    ensures edges == edges'
  {
    EdgeOrder();
    ListingUnique(EdgeLe, edges, edges');
  }
}
