/** Subsequences: some elements left out, the order kept. */
module Subsequences {

  predicate Subsequence<T(==)>(a: seq<T>, b: seq<T>)
    decreases |b|
  {
    a == [] ||
    (b != [] &&
     (Subsequence(a, b[..|b| - 1]) ||
      (a[|a| - 1] == b[|b| - 1] && Subsequence(a[..|a| - 1], b[..|b| - 1]))))
  }

  ghost predicate NoRepeats<T(!new)>(a: seq<T>) {
    forall i, j | 0 <= i < j < |a| :: a[i] != a[j]
  }

  lemma {:induction false} Reflexive<T>(a: seq<T>)
    ensures Subsequence(a, a)
  {
    if a != [] {
      Reflexive(a[..|a| - 1]);
    }
  }

  lemma AppendBoth<T>(a: seq<T>, b: seq<T>, x: T)
    requires Subsequence(a, b)
    ensures Subsequence(a + [x], b + [x])
  {
    assert (a + [x])[..|a|] == a && (b + [x])[..|b|] == b;
  }

  lemma {:induction false} Remove<T>(a: seq<T>, b: seq<T>, i: nat)
    requires Subsequence(a, b) && i < |a|
    ensures Subsequence(a[..i] + a[i + 1..], b)
    decreases |b|
  {
    var r := a[..i] + a[i + 1..];
    var a', b' := a[..|a| - 1], b[..|b| - 1];
    if Subsequence(a, b') {
      Remove(a, b', i);
    } else if i == |a| - 1 {
      assert r == a';
    } else {
      Remove(a', b', i);
      assert r[..|r| - 1] == a'[..i] + a'[i + 1..];
    }
  }

  lemma {:induction false} Contained<T>(a: seq<T>, b: seq<T>, x: T)
    requires Subsequence(a, b) && x in a
    ensures x in b
    decreases |b|
  {
    if Subsequence(a, b[..|b| - 1]) {
      Contained(a, b[..|b| - 1], x);
    } else if x != a[|a| - 1] {
      Contained(a[..|a| - 1], b[..|b| - 1], x);
    }
  }

  lemma {:induction false} InheritsNoRepeats<T(!new)>(a: seq<T>, b: seq<T>)
    requires Subsequence(a, b) && NoRepeats(b)
    ensures NoRepeats(a)
    decreases |b|
  {
    if a != [] {
      if Subsequence(a, b[..|b| - 1]) {
        InheritsNoRepeats(a, b[..|b| - 1]);
      } else {
        InheritsNoRepeats(a[..|a| - 1], b[..|b| - 1]);
        forall i | 0 <= i < |a| - 1
          ensures a[i] != a[|a| - 1]
        {
          assert a[i] in a[..|a| - 1];
          Contained(a[..|a| - 1], b[..|b| - 1], a[i]);
        }
      }
    }
  }

  lemma Prefix<T>(a: seq<T>, c: seq<T>, b: seq<T>)
    requires Subsequence(a + c, b)
    ensures Subsequence(a, b)
    decreases |c|
  {
    if c == [] {
      assert a + c == a;
    } else {
      Remove(a + c, b, |a + c| - 1);
      assert (a + c)[..|a + c| - 1] + (a + c)[|a + c|..] == a + c[..|c| - 1];
      Prefix(a, c[..|c| - 1], b);
    }
  }
}
