/** Sorting under a total order, and the orders the index sorts by. */
module Sorting {
  import opened Subsequences

  ghost predicate TotalOrder<T(!new)>(le: (T, T) -> bool) {
    && (forall a, b :: le(a, b) || le(b, a))
    && (forall a, b | le(a, b) && le(b, a) :: a == b)
    && (forall a, b, c | le(a, b) && le(b, c) :: le(a, c))
  }

  ghost predicate Sorted<T>(le: (T, T) -> bool, s: seq<T>) {
    forall i, j | 0 <= i < j < |s| :: le(s[i], s[j])
  }

  function Insert<T>(le: (T, T) -> bool, x: T, s: seq<T>): (r: seq<T>)
    ensures multiset(r) == multiset(s) + multiset{x}
  {
    if s == [] || le(x, s[0]) then [x] + s
    else
      assert s == [s[0]] + s[1..];
      [s[0]] + Insert(le, x, s[1..])
  }

  function Sort<T>(le: (T, T) -> bool, s: seq<T>): (r: seq<T>)
    ensures multiset(r) == multiset(s)
  {
    if s == [] then []
    else
      assert s == [s[0]] + s[1..];
      Insert(le, s[0], Sort(le, s[1..]))
  }

  lemma {:induction false} InsertSorts<T(!new)>(le: (T, T) -> bool, x: T, s: seq<T>)
    requires TotalOrder(le) && Sorted(le, s)
    ensures Sorted(le, Insert(le, x, s))
  {
    if s != [] && !le(x, s[0]) {
      var r := Insert(le, x, s[1..]);
      InsertSorts(le, x, s[1..]);
      forall i | 0 <= i < |r|
        ensures le(s[0], r[i])
      {
        assert r[i] in multiset(r);
        assert r[i] in s[1..] || r[i] == x;
      }
    }
  }

  lemma {:induction false} SortSorts<T(!new)>(le: (T, T) -> bool, s: seq<T>)
    requires TotalOrder(le)
    ensures Sorted(le, Sort(le, s))
  {
    if s != [] {
      SortSorts(le, s[1..]);
      InsertSorts(le, s[0], Sort(le, s[1..]));
    }
  }

  lemma SameElements<T>(a: seq<T>, b: seq<T>, x: T)
    requires multiset(a) == multiset(b)
    ensures x in a <==> x in b
  {
    assert x in multiset(a) <==> x in multiset(b);
  }

  /** A sorted listing of a bag is unique. */
  lemma {:induction false} SortedUnique<T(!new)>(le: (T, T) -> bool, a: seq<T>, b: seq<T>)
    requires TotalOrder(le) && Sorted(le, a) && Sorted(le, b) && multiset(a) == multiset(b)
    ensures a == b
  {
    assert |a| == |multiset(a)| == |multiset(b)| == |b|;
    if a != [] {
      SameElements(a, b, a[0]);
      SameElements(a, b, b[0]);
      assert a[0] == b[0];
      TailBag(a);
      TailBag(b);
      SortedUnique(le, a[1..], b[1..]);
      assert a == [a[0]] + a[1..] && b == [b[0]] + b[1..];
    }
  }

  lemma TailBag<T>(s: seq<T>)
    requires s != []
    ensures multiset(s[1..]) == multiset(s) - multiset{s[0]}
  {
    assert s == [s[0]] + s[1..];
  }

  /** A repeat-free sorted listing of a set is unique. */
  lemma {:induction false} ListingUnique<T(!new)>(le: (T, T) -> bool, a: seq<T>, b: seq<T>)
    requires TotalOrder(le) && Sorted(le, a) && Sorted(le, b) && NoRepeats(a) && NoRepeats(b)
    requires forall x :: x in a <==> x in b
    ensures a == b
  {
    assert b == [] || b[0] in b;
    if a != [] {
      assert a[0] in b && b[0] in a;
      assert a[0] == b[0];
      assert a == [a[0]] + a[1..] && b == [b[0]] + b[1..];
      forall x
        ensures x in a[1..] <==> x in b[1..]
      {
        assert x in a[1..] ==> x in a && x != a[0];
        assert x in b[1..] ==> x in b && x != b[0];
      }
      ListingUnique(le, a[1..], b[1..]);
    }
  }

  /** The sequence without repetitions of the element just before. */
  function Squeeze<T(==)>(s: seq<T>): seq<T> {
    if |s| < 2 then s
    else if s[|s| - 1] == s[|s| - 2] then Squeeze(s[..|s| - 1])
    else Squeeze(s[..|s| - 1]) + [s[|s| - 1]]
  }

  lemma {:induction false} SqueezeLists<T(!new)>(le: (T, T) -> bool, s: seq<T>)
    requires TotalOrder(le) && Sorted(le, s)
    ensures Sorted(le, Squeeze(s)) && NoRepeats(Squeeze(s))
    ensures forall x :: x in Squeeze(s) <==> x in s
  {
    if |s| >= 2 {
      var front, last := s[..|s| - 1], s[|s| - 1];
      SqueezeLists(le, front);
      assert s == front + [last];
      assert front[|front| - 1] == s[|s| - 2];
      if last != front[|front| - 1] {
        forall i | 0 <= i < |Squeeze(front)|
          ensures Squeeze(front)[i] != last && le(Squeeze(front)[i], last)
        {
          assert Squeeze(front)[i] in front;
          var j :| 0 <= j < |front| && front[j] == Squeeze(front)[i];
          assert le(front[j], front[|front| - 1]) || j == |front| - 1;
        }
      }
    }
  }

  lemma SortLists<T(!new)>(le: (T, T) -> bool, s: seq<T>)
    requires TotalOrder(le) && NoRepeats(s)
    ensures NoRepeats(Sort(le, s)) && forall x :: x in Sort(le, s) <==> x in s
  {
    forall x
      ensures x in Sort(le, s) <==> x in s
    {
      SameElements(Sort(le, s), s, x);
    }
    NoRepeatsCounts(s);
    CountsNoRepeats(Sort(le, s));
  }

  lemma {:induction false} NoRepeatsCounts<T(!new)>(s: seq<T>)
    requires NoRepeats(s)
    ensures forall x :: multiset(s)[x] <= 1
  {
    if s != [] {
      NoRepeatsCounts(s[1..]);
      assert s == [s[0]] + s[1..];
      assert s[0] !in multiset(s[1..]);
    }
  }

  lemma {:induction false} CountsNoRepeats<T(!new)>(s: seq<T>)
    requires forall x :: multiset(s)[x] <= 1
    ensures NoRepeats(s)
  {
    if s != [] {
      assert s == [s[0]] + s[1..];
      forall x
        ensures multiset(s[1..])[x] <= 1
      {
        assert multiset(s)[x] <= 1;
      }
      CountsNoRepeats(s[1..]);
      assert multiset(s)[s[0]] <= 1;
      assert s[0] !in multiset(s[1..]);
      forall j | 0 < j < |s|
        ensures s[0] != s[j]
      {
        assert s[1..][j - 1] in multiset(s[1..]);
      }
    }
  }

  // ----- lexicographic order

  /** Compares element by element; a proper prefix comes first. */
  predicate Lex<T(==)>(le: (T, T) -> bool, a: seq<T>, b: seq<T>) {
    a == [] || (b != [] && (if a[0] == b[0] then Lex(le, a[1..], b[1..]) else le(a[0], b[0])))
  }

  lemma {:induction false} LexTotal<T(!new)>(le: (T, T) -> bool, a: seq<T>, b: seq<T>)
    requires TotalOrder(le)
    ensures Lex(le, a, b) || Lex(le, b, a)
  {
    if a != [] && b != [] && a[0] == b[0] {
      LexTotal(le, a[1..], b[1..]);
    }
  }

  lemma {:induction false} LexAntisymmetric<T(!new)>(le: (T, T) -> bool, a: seq<T>, b: seq<T>)
    requires TotalOrder(le) && Lex(le, a, b) && Lex(le, b, a)
    ensures a == b
  {
    if a != [] && b != [] {
      assert a[0] == b[0];
      LexAntisymmetric(le, a[1..], b[1..]);
      assert a == [a[0]] + a[1..] && b == [b[0]] + b[1..];
    }
  }

  lemma {:induction false} LexTransitive<T(!new)>(le: (T, T) -> bool, a: seq<T>, b: seq<T>, c: seq<T>)
    requires TotalOrder(le) && Lex(le, a, b) && Lex(le, b, c)
    ensures Lex(le, a, c)
  {
    if a != [] && a[0] == b[0] == c[0] {
      LexTransitive(le, a[1..], b[1..], c[1..]);
    }
  }

  predicate CharLe(a: char, b: char) {
    a <= b
  }

  predicate TextLe(a: string, b: string) {
    Lex(CharLe, a, b)
  }

  /** Texts are compared as in a dictionary, by their characters. */
  lemma {:induction false} TextLeExactly(a: string, b: string)
    ensures TextLe(a, b) <==> a <= b || exists k: nat :: DiffersAt(a, b, k) && a[k] < b[k]
  {
    if a != [] && b != [] {
      assert a == [a[0]] + a[1..] && b == [b[0]] + b[1..];
      if a[0] == b[0] {
        TextLeExactly(a[1..], b[1..]);
        forall k: nat
          ensures DiffersAt(a, b, k + 1) <==> DiffersAt(a[1..], b[1..], k)
        {
          DiffersLater(a, b, k);
        }
        if k: nat :| DiffersAt(a[1..], b[1..], k) && a[1..][k] < b[1..][k] {
          assert DiffersAt(a, b, k + 1) && a[k + 1] < b[k + 1];
        }
        if k: nat :| DiffersAt(a, b, k) && a[k] < b[k] {
          assert k > 0 && DiffersAt(a, b, k - 1 + 1);
        }
      } else {
        assert DiffersAt(a, b, 0);
      }
    }
  }

  /** `k` is the first place where the texts differ. */
  predicate DiffersAt(a: string, b: string, k: nat) {
    k < |a| && k < |b| && a[k] != b[k] && forall j | 0 <= j < k :: a[j] == b[j]
  }

  lemma DiffersLater(a: string, b: string, k: nat)
    requires a != [] && b != [] && a[0] == b[0]
    ensures DiffersAt(a, b, k + 1) <==> DiffersAt(a[1..], b[1..], k)
  {
    if DiffersAt(a[1..], b[1..], k) {
      forall j | 0 <= j < k + 1
        ensures a[j] == b[j]
      {
        assert j > 0 ==> a[1..][j - 1] == b[1..][j - 1];
      }
    }
  }

  /** Rows are compared column by column. */
  predicate RowLe(a: seq<string>, b: seq<string>) {
    Lex(TextLe, a, b)
  }

  lemma LexOrder<T(!new)>(le: (T, T) -> bool, lex: (seq<T>, seq<T>) -> bool)
    requires TotalOrder(le) && forall a, b :: lex(a, b) == Lex(le, a, b)
    ensures TotalOrder(lex)
  {
    forall a, b ensures lex(a, b) || lex(b, a) { LexTotal(le, a, b); }
    forall a, b | lex(a, b) && lex(b, a) ensures a == b { LexAntisymmetric(le, a, b); }
    forall a, b, c | lex(a, b) && lex(b, c) ensures lex(a, c) { LexTransitive(le, a, b, c); }
  }

  lemma TextOrder()
    ensures TotalOrder(TextLe)
  {
    LexOrder(CharLe, TextLe);
  }

  lemma RowOrder()
    ensures TotalOrder(RowLe)
  {
    LexOrder(CharLe, TextLe);
    LexOrder(TextLe, RowLe);
  }

  /** Ordering by a key that tells all values apart. */
  lemma KeyOrder<T(!new)>(key: T -> seq<string>, le: (T, T) -> bool)
    requires forall a, b :: le(a, b) == RowLe(key(a), key(b))
    requires forall a, b | key(a) == key(b) :: a == b
    ensures TotalOrder(le)
  {
    RowOrder();
    forall a, b, c | le(a, b) && le(b, c)
      ensures le(a, c)
    {
      assert RowLe(key(a), key(b)) && RowLe(key(b), key(c));
    }
  }
}
