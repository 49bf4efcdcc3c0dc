/** Dotted names, qualified names and the module names a Python file answers to. */
module Names {
  import opened Protocol
  import opened Subsequences

  // ----- dotted names

  /** Position of the first `c`, or the length of `s`. */
  function Find(s: string, c: char): (i: nat)
    ensures i <= |s| && (i < |s| ==> s[i] == c) && c !in s[..i]
    ensures forall j | 0 <= j < i :: s[j] != c
  {
    if s == "" || s[0] == c then 0 else 1 + Find(s[1..], c)
  }

  function Split(s: string): (parts: seq<string>)
    ensures parts != []
    ensures forall p <- parts :: '.' !in p
    decreases |s|
  {
    var i := Find(s, '.');
    if i == |s| then [s] else [s[..i]] + Split(s[i + 1..])
  }

  function Join(parts: seq<string>): string {
    if parts == [] then ""
    else if |parts| == 1 then parts[0]
    else parts[0] + "." + Join(parts[1..])
  }

  lemma {:induction false} JoinSplit(s: string)
    ensures Join(Split(s)) == s
    decreases |s|
  {
    var i := Find(s, '.');
    if i < |s| {
      JoinSplit(s[i + 1..]);
      assert Split(s)[1..] == Split(s[i + 1..]);
      assert s == s[..i] + "." + s[i + 1..];
    }
  }

  lemma SplitWord(word: string)
    requires '.' !in word
    ensures Split(word) == [word]
  {
  }

  lemma SplitFirst(word: string, rest: string)
    requires '.' !in word
    ensures Split(word + "." + rest) == [word] + Split(rest)
  {
    var s := word + "." + rest;
    assert s[|word|] == '.' && s[..|word|] == word && s[|word| + 1..] == rest;
    assert forall j | 0 <= j < |word| :: s[j] in word;
    assert Find(s, '.') == |word|;
  }

  lemma {:induction false} SplitLast(front: string, word: string)
    requires '.' !in word
    ensures Split(front + "." + word) == Split(front) + [word]
    decreases |front|
  {
    var i := Find(front, '.');
    if i == |front| {
      SplitFirst(front, word);
      SplitWord(word);
    } else {
      var rest := front[i + 1..];
      assert front == front[..i] + "." + rest;
      assert front + "." + word == front[..i] + "." + (rest + "." + word);
      SplitFirst(front[..i], rest + "." + word);
      SplitFirst(front[..i], rest);
      SplitLast(rest, word);
    }
  }

  lemma OwnerOf(front: string, word: string)
    requires '.' !in word
    ensures Owner(front + "." + word) == front
  {
    SplitLast(front, word);
    assert (Split(front) + [word])[..|Split(front)|] == Split(front);
    JoinSplit(front);
  }

  /** What precedes the last dot, nothing if there is none. */
  function Owner(s: string): string {
    var parts := Split(s);
    Join(parts[..|parts| - 1])
  }

  // ----- qualified names

  /** Position of the first "::", or the length of `s`. */
  function FindColons(s: string): (i: nat)
    ensures i <= |s| && (i < |s| ==> i + 2 <= |s| && s[i..i + 2] == "::")
  {
    if s == "" then 0
    else if |s| >= 2 && s[0] == ':' && s[1] == ':' then 0
    else 1 + FindColons(s[1..])
  }

  function PathPart(qname: string): string {
    qname[..FindColons(qname)]
  }

  function InnerPart(qname: string): string {
    var i := FindColons(qname);
    if i < |qname| then qname[i + 2..] else ""
  }

  function Qualified(path: string, inner: string): string {
    path + "::" + inner
  }

  lemma {:induction false} FindColonsAfter(path: string, inner: string)
    requires ':' !in path
    ensures FindColons(path + "::" + inner) == |path|
  {
    if path != "" {
      assert (path + "::" + inner)[1..] == path[1..] + "::" + inner;
      assert path[0] in path;
      FindColonsAfter(path[1..], inner);
    }
  }

  /** Taking a qualified name apart gives back path and inner name, for paths
      without a colon. */
  lemma QualifiedParts(path: string, inner: string)
    requires ':' !in path
    ensures PathPart(Qualified(path, inner)) == path
    ensures InnerPart(Qualified(path, inner)) == inner
  {
    FindColonsAfter(path, inner);
  }

  // ----- modules

  function DotSlashes(s: string): string {
    if s == "" then "" else [if s[0] == '/' then '.' else s[0]] + DotSlashes(s[1..])
  }

  predicate EndsWith(s: string, suffix: string) {
    |suffix| <= |s| && s[|s| - |suffix|..] == suffix
  }

  const Init: string := "__init__"

  /** The path of a Python file without ".py", with dots for slashes. */
  function Stem(path: string): string {
    DotSlashes(if |path| >= 3 then path[..|path| - 3] else "")
  }

  /** The full name of the module a Python file is: a package's own file is named
      by its directory, and one at the root has no name. */
  function ModulePath(path: string): Option<string> {
    var stem := Stem(path);
    if EndsWith(stem, "." + Init) then Some(stem[..|stem| - |Init| - 1])
    else if stem == Init then None
    else Some(stem)
  }

  /** Every name a Python file answers to as a module. */
  function ModuleNames(path: string): seq<string> {
    if ModulePath(path).None? then []
    else
      var parts := Split(ModulePath(path).value);
      seq(|parts|, i requires 0 <= i < |parts| => Join(parts[i..]))
  }

  /** `name` is all of `dotted` or what follows one of its dots. */
  ghost predicate DottedSuffix(dotted: string, name: string) {
    name == dotted || exists front :: dotted == front + "." + name
  }

  ghost predicate SuffixOf(parts: seq<string>, name: string) {
    exists i | 0 <= i < |parts| :: Join(parts[i..]) == name
  }

  lemma {:induction false} SuffixesAreDotted(dotted: string, name: string)
    ensures SuffixOf(Split(dotted), name) <==> DottedSuffix(dotted, name)
    decreases |dotted|
  {
    var parts := Split(dotted);
    var k := Find(dotted, '.');
    JoinSplit(dotted);
    assert parts[0..] == parts;
    if k < |dotted| {
      var rest := dotted[k + 1..];
      assert dotted == dotted[..k] + "." + rest;
      SuffixesAreDotted(rest, name);
      SuffixesShift(parts, name);
      assert parts[1..] == Split(rest);
      DottedShift(dotted, k, name);
    } else {
      forall front
        ensures dotted != front + "." + name
      {
        assert (front + "." + name)[|front|] == '.';
      }
    }
  }

  lemma SuffixesShift(parts: seq<string>, name: string)
    requires parts != []
    ensures SuffixOf(parts, name) <==> name == Join(parts) || SuffixOf(parts[1..], name)
  {
    assert parts[0..] == parts;
    forall i | 0 <= i < |parts| - 1
      ensures parts[1..][i..] == parts[i + 1..]
    {
    }
    if SuffixOf(parts, name) && name != Join(parts) {
      var i :| 0 <= i < |parts| && Join(parts[i..]) == name;
      assert parts[1..][i - 1..] == parts[i..];
    }
    if SuffixOf(parts[1..], name) {
      var i :| 0 <= i < |parts| - 1 && Join(parts[1..][i..]) == name;
      assert Join(parts[i + 1..]) == name;
    }
  }

  lemma DottedShift(dotted: string, k: nat, name: string)
    requires k < |dotted| && dotted[k] == '.' && '.' !in dotted[..k]
    ensures DottedSuffix(dotted, name) <==> name == dotted || DottedSuffix(dotted[k + 1..], name)
  {
    var rest := dotted[k + 1..];
    assert dotted == dotted[..k] + "." + rest;
    if DottedSuffix(dotted, name) && name != dotted {
      var front :| dotted == front + "." + name;
      assert dotted[|front|] == '.';
      assert forall j | 0 <= j < k :: dotted[j] in dotted[..k];
      assert k <= |front|;
      if k == |front| {
        assert rest == name;
      } else {
        assert rest == front[k + 1..] + "." + name;
      }
    }
    if DottedSuffix(rest, name) {
      if name == rest {
        assert dotted == dotted[..k] + "." + name;
      } else {
        var front :| rest == front + "." + name;
        assert dotted == (dotted[..k] + "." + front) + "." + name;
      }
    }
  }

  /** A Python file answers to exactly the dotted suffixes of its module's name,
      each listed once; a package file at the root answers to none. */
  lemma ModuleNamesAreSuffixes(path: string, name: string)
    ensures name in ModuleNames(path) <==> ModulePath(path).Some? && DottedSuffix(ModulePath(path).value, name)
    ensures NoRepeats(ModuleNames(path))
  {
    if ModulePath(path).Some? {
      var dotted := ModulePath(path).value;
      var parts := Split(dotted);
      SuffixesAreDotted(dotted, name);
      if SuffixOf(parts, name) {
        var i :| 0 <= i < |parts| && Join(parts[i..]) == name;
        assert ModuleNames(path)[i] == name;
      }
      forall i, j | 0 <= i < j < |parts|
        ensures Join(parts[i..]) != Join(parts[j..])
      {
        LongerSuffix(parts, i, j);
      }
    }
  }

  lemma {:induction false} LongerSuffix(parts: seq<string>, i: nat, j: nat)
    requires i < j < |parts|
    ensures |Join(parts[i..])| > |Join(parts[j..])|
    decreases j - i
  {
    assert parts[i..][1..] == parts[i + 1..];
    if i + 1 < j {
      LongerSuffix(parts, i + 1, j);
    }
  }

  /** `dotted` spells the path `path` with dots for slashes. */
  predicate Dots(path: string, dotted: string) {
    |dotted| == |path| && forall i | 0 <= i < |path| :: dotted[i] == if path[i] == '/' then '.' else path[i]
  }

  lemma {:induction false} DotSlashesDots(s: string)
    ensures Dots(s, DotSlashes(s))
  {
    if s != "" {
      DotSlashesDots(s[1..]);
    }
  }

  lemma DotsAlike(path: string, a: string, b: string)
    requires Dots(path, a) && Dots(path, b)
    ensures a == b
  {
  }

  lemma StemDots(path: string, extended: string, dotted: string)
    requires |extended| == |path| + 3 && extended[..|path|] == path && Dots(path, dotted)
    ensures Stem(extended) == dotted
  {
    assert extended[..|extended| - 3] == path;
    DotSlashesDots(path);
    DotsAlike(path, DotSlashes(path), dotted);
  }

  lemma PackageFile(path: string, dotted: string)
    requires Dots(path, dotted)
    ensures ModulePath(path + "/__init__.py") == Some(dotted)
  {
    var stem := dotted + "." + Init;
    StemDots(path + "/" + Init, path + "/__init__.py", stem);
    assert stem[|dotted|..] == "." + Init && stem[..|dotted|] == dotted;
  }

  lemma ModuleFile(path: string, dotted: string)
    requires Dots(path, dotted) && dotted != Init && !EndsWith(dotted, "." + Init)
    ensures ModulePath(path + ".py") == Some(dotted)
  {
    StemDots(path, path + ".py", dotted);
  }

  lemma RootPackageFile()
    ensures ModulePath("__init__.py") == None
  {
    StemDots(Init, "__init__.py", Init);
  }

  /** The module file `m.py` and the package file `m/__init__.py` both answer to `m`,
      with dots for slashes, and to what follows one of its dots; the package file of
      the root answers to nothing. */
  lemma ModuleFilesAnswer(path: string, dotted: string, name: string)
    requires Dots(path, dotted)
    ensures name in ModuleNames(path + "/__init__.py") <==> DottedSuffix(dotted, name)
    ensures dotted != "__init__" && !EndsWith(dotted, ".__init__") ==>
              (name in ModuleNames(path + ".py") <==> DottedSuffix(dotted, name))
    ensures name !in ModuleNames("__init__.py")
  {
    PackageFile(path, dotted);
    ModuleNamesAreSuffixes(path + "/__init__.py", name);
    RootPackageFile();
    ModuleNamesAreSuffixes("__init__.py", name);
    if dotted != "__init__" && !EndsWith(dotted, ".__init__") {
      assert Init == "__init__" && "." + Init == ".__init__";
      ModuleFile(path, dotted);
      ModuleNamesAreSuffixes(path + ".py", name);
    }
  }
}
