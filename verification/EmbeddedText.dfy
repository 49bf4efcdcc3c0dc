/** What the text embedded for a symbol contains, line by line, and that editing a
    body changes it. */
module EmbeddedText {
  import opened Protocol
  import opened Subsequences
  import opened Sorting
  import opened Names
  import opened EdgeResolution
  import opened IndexModel

  // ----- lines

  /** The text has `line` at `at`, from one line break or end to the next. */
  predicate PlacedAt(text: string, line: string, at: nat) {
    && at + |line| <= |text| && text[at..at + |line|] == line
    && (at == 0 || text[at - 1] == '\n')
    && (at + |line| == |text| || text[at + |line|] == '\n')
  }

  /** What a part takes up, with the line break after it. */
  function Width(part: string): nat {
    if part == "" then 0 else |part| + 1
  }

  function End(parts: seq<string>, starts: seq<nat>): nat
    requires |starts| == |parts|
  {
    if parts == [] then 0 else starts[|parts| - 1] + Width(parts[|parts| - 1])
  }

  /** The text consists of the parts that are not empty, in order, a line break
      between any two and nothing else: part `i` stands at `starts[i]`. */
  ghost predicate Laid(text: string, parts: seq<string>, starts: seq<nat>) {
    && |starts| == |parts|
    && (forall i | 0 <= i < |parts| && parts[i] != "" :: PlacedAt(text, parts[i], starts[i]))
    && (parts != [] ==> starts[0] == 0)
    && (forall i | 0 < i < |parts| :: starts[i] == starts[i - 1] + Width(parts[i - 1]))
    && End(parts, starts) == (if text == "" then 0 else |text| + 1)
  }

  lemma {:induction false} LinesLast(front: seq<string>, last: string)
    ensures Lines(front + [last]) ==
            if last == "" then Lines(front)
            else if Lines(front) == "" then last
            else Lines(front) + "\n" + last
  {
    if front == [] {
      assert front + [last] == [last];
    } else {
      assert (front + [last])[1..] == front[1..] + [last];
      LinesLast(front[1..], last);
    }
  }

  lemma {:induction false} LinesLaid(parts: seq<string>) returns (starts: seq<nat>)
    ensures Laid(Lines(parts), parts, starts)
  {
    starts := [];
    if parts != [] {
      var front, last := parts[..|parts| - 1], parts[|parts| - 1];
      assert parts == front + [last];
      starts := LinesLaid(front);
      LaidLast(front, last, starts);
      starts := starts + [End(front, starts)];
    }
  }

  lemma LaidLast(front: seq<string>, last: string, starts: seq<nat>)
    requires Laid(Lines(front), front, starts)
    ensures Laid(Lines(front + [last]), front + [last], starts + [End(front, starts)])
  {
    var text, text' := Lines(front), Lines(front + [last]);
    LinesLast(front, last);
    forall i | 0 <= i < |front| && front[i] != ""
      ensures PlacedAt(text', front[i], starts[i])
    {
      StillPlaced(text, text', front[i], starts[i]);
    }
    if last != "" {
      LastPlaced(text, last, End(front, starts));
    }
  }

  lemma LastPlaced(text: string, last: string, at: nat)
    requires at == if text == "" then 0 else |text| + 1
    ensures PlacedAt(if text == "" then last else text + "\n" + last, last, at)
  {
  }

  lemma StillPlaced(text: string, text': string, line: string, at: nat)
    requires PlacedAt(text, line, at) && text <= text' && (|text| < |text'| && text != "" ==> text'[|text|] == '\n')
    requires line != ""
    ensures PlacedAt(text', line, at)
  {
    assert text'[at..at + |line|] == text[at..at + |line|];
  }

  // ----- the text of a symbol

  /** The parts of the text of a function or method. */
  function CodeParts(s: Symbol): seq<string> {
    [s.path, QName(s), s.signature, s.docstring, s.body]
  }

  /** Those of a class, with its methods' signatures. */
  function ClassParts(s: Symbol, signatures: seq<string>): seq<string> {
    [s.path, QName(s), s.signature, s.docstring] + s.fields + signatures
  }

  /** The text of a function or method is its path, name, signature, docstring and
      body, one below the other; that of a class ends with its fields and its
      methods' signatures instead. Empty parts are left out. */
  lemma TextReads(s: Symbol, signatures: seq<string>) returns (starts: seq<nat>)
    ensures s.kind != ClassKind ==> Laid(EmbeddingText(s, signatures), CodeParts(s), starts)
    ensures s.kind == ClassKind ==> Laid(EmbeddingText(s, signatures), ClassParts(s, signatures), starts)
  {
    if s.kind == ClassKind {
      assert [s.path, QName(s), s.signature, s.docstring] + (s.fields + signatures) == ClassParts(s, signatures);
      starts := LinesLaid(ClassParts(s, signatures));
    } else {
      assert [s.path, QName(s), s.signature, s.docstring] + [s.body] == CodeParts(s);
      starts := LinesLaid(CodeParts(s));
    }
  }

  /** The method signatures of a class come in the order of the lines the methods
      start at, and all of them do. */
  lemma SignaturesInOrder(symbols: map<string, Symbol>, q: string, text: string)
    requires q in symbols && symbols[q].kind == ClassKind && TextOf(symbols, q, text)
    requires QName(symbols[q]) == q && ':' !in symbols[q].path
    ensures exists rows: seq<MethodRow> ::
              && text == EmbeddingText(symbols[q], Signatures(rows))
              && (forall i, j | 0 <= i < j < |rows| :: rows[i].line <= rows[j].line)
              && (forall r :: r in rows <==>
                    exists m | m in symbols :: MethodIn(symbols[m], symbols[q]) && RowOf(symbols[m]) == r)
  {
    var c := symbols[q];
    var rows: seq<MethodRow> :| ListsMethods(rows, symbols, q) && text == EmbeddingText(c, Signatures(rows));
    QualifiedParts(c.path, if c.scope == "" then c.name else c.scope + "." + c.name);
    forall m | m in symbols
      ensures IsMethodOf(symbols[m], q) <==> MethodIn(symbols[m], c)
    {
    }
    assert forall i, j | 0 <= i < j < |rows| :: MethodLe(rows[i], rows[j]);
  }

  predicate MethodIn(m: Symbol, c: Symbol) {
    m.kind == MethodKind && m.path == c.path && m.scope == if c.scope == "" then c.name else c.scope + "." + c.name
  }

  // ----- edits

  /** `s` is `was` with another body. */
  predicate Edited(was: Symbol, s: Symbol) {
    && was.kind != ClassKind && s.kind != ClassKind
    && s.path == was.path && s.scope == was.scope && s.name == was.name
    && s.signature == was.signature && s.docstring == was.docstring
    && s.body != was.body
  }

  /** A function or method whose body changed has another text. */
  lemma EditShows(was: Symbol, s: Symbol)
    requires Edited(was, s)
    ensures EmbeddingText(was, []) != EmbeddingText(s, [])
  {
    var front := [s.path, QName(s), s.signature, s.docstring];
    LinesLast(front, was.body);
    LinesLast(front, s.body);
    var head := Lines(front) + "\n";
    assert (head + was.body)[|head|..] == was.body && (head + s.body)[|head|..] == s.body;
  }
}
