/** A class and its indexed bases, nearest first: breadth-first search over a
    base relation that may contain cycles. */
module Hierarchy {
  import opened Subsequences

  type NameLists = map<string, seq<string>>

  function Listed(bases: NameLists, c: string): seq<string> {
    if c in bases then bases[c] else []
  }

  /** `c` is reached from `root` by following bases `n` times. */
  ghost predicate ReachedIn(bases: NameLists, root: string, c: string, n: nat)
    decreases n
  {
    if n == 0 then c == root
    else exists d :: ReachedIn(bases, root, d, n - 1) && c in Listed(bases, d)
  }

  ghost predicate Reached(bases: NameLists, root: string, c: string) {
    exists n :: ReachedIn(bases, root, c, n)
  }

  /** `c` is reached from `root` in at most `n` steps. */
  ghost predicate Within(bases: NameLists, root: string, c: string, n: nat) {
    exists m: nat :: m <= n && ReachedIn(bases, root, c, m)
  }

  // ----- the search as a function

  /** `seen` followed by the classes of `more` it does not contain. */
  function Extend(seen: seq<string>, more: seq<string>): seq<string>
    decreases |more|
  {
    if more == [] then seen
    else
      var r := Extend(seen, more[..|more| - 1]);
      if more[|more| - 1] in r then r else r + [more[|more| - 1]]
  }

  /** Every class the search can meet. */
  ghost function Universe(bases: NameLists, root: string): set<string> {
    {root} + set c, b | c in bases && b in bases[c] :: b
  }

  lemma {:induction false} ExtendFits(seen: seq<string>, more: seq<string>, u: set<string>)
    requires NoRepeats(seen) && (forall c <- seen :: c in u) && forall c <- more :: c in u
    ensures seen <= Extend(seen, more) && NoRepeats(Extend(seen, more))
    ensures forall c :: c in Extend(seen, more) <==> c in seen || c in more
    ensures forall c <- Extend(seen, more) :: c in u
    decreases |more|
  {
    if more != [] {
      ExtendFits(seen, more[..|more| - 1], u);
      assert more == more[..|more| - 1] + [more[|more| - 1]];
    }
  }

  lemma {:induction false} RepeatFreeFits(s: seq<string>, u: set<string>)
    requires NoRepeats(s) && forall c <- s :: c in u
    ensures |s| <= |u|
  {
    if s != [] {
      var last := s[|s| - 1];
      forall c | c in s[..|s| - 1]
        ensures c in u - {last}
      {
      }
      RepeatFreeFits(s[..|s| - 1], u - {last});
    }
  }

  ghost predicate Searching(bases: NameLists, root: string, seen: seq<string>, k: nat) {
    && k <= |seen| && seen != [] && seen[0] == root
    && NoRepeats(seen)
    && forall c <- seen :: c in Universe(bases, root)
  }

  lemma SearchGoesOn(bases: NameLists, root: string, seen: seq<string>, k: nat)
    requires Searching(bases, root, seen, k) && k < |seen|
    ensures Searching(bases, root, Extend(seen, Listed(bases, seen[k])), k + 1)
    ensures |seen| <= |Universe(bases, root)|
  {
    ExtendFits(seen, Listed(bases, seen[k]), Universe(bases, root));
    RepeatFreeFits(seen, Universe(bases, root));
  }

  /** The classes met when those before position `k` were expanded already. */
  ghost function Search(bases: NameLists, root: string, seen: seq<string>, k: nat): seq<string>
    requires Searching(bases, root, seen, k)
    decreases |Universe(bases, root)| - k
  {
    if k == |seen| then seen
    else
      SearchGoesOn(bases, root, seen, k);
      Search(bases, root, Extend(seen, Listed(bases, seen[k])), k + 1)
  }

  ghost function Linearised(bases: NameLists, root: string): seq<string> {
    Search(bases, root, [root], 0)
  }

  // ----- the search as it runs

  /** Takes up the bases of one class: those not met yet are met and queued. */
  method TakeUp(met: seq<string>, waiting: seq<string>, more: seq<string>)
    returns (seen: seq<string>, queue: seq<string>)
    ensures seen == Extend(met, more) && met <= seen && queue == waiting + seen[|met|..]
  {
    seen, queue := met, waiting;
    for i := 0 to |more|
      invariant seen == Extend(met, more[..i])
      invariant met <= seen && queue == waiting + seen[|met|..]
    {
      assert more[..i + 1][..i] == more[..i];
      if more[i] !in seen {
        seen := seen + [more[i]];
        queue := queue + [more[i]];
      }
    }
    assert more[..|more|] == more;
  }

  /** The search, with a queue of the classes met and not yet expanded. */
  method Linearise(bases: NameLists, root: string) returns (seen: seq<string>)
    ensures seen == Linearised(bases, root)
  {
    seen := [root];
    var queue := [root];
    ghost var k := 0;
    while queue != []
      invariant Searching(bases, root, seen, k) && queue == seen[k..]
      invariant Search(bases, root, seen, k) == Linearised(bases, root)
      decreases |Universe(bases, root)| - k
    {
      var current := queue[0];
      SearchGoesOn(bases, root, seen, k);
      seen, queue := TakeUp(seen, queue[1..], Listed(bases, current));
      k := k + 1;
    }
  }

  // ----- what the search returns

  /** `d` gives each class met a number of steps that reaches it; classes are
      met in the order of `d`, and those before `k` are expanded. */
  ghost predicate Levels(bases: NameLists, root: string, seen: seq<string>, k: nat, d: seq<nat>) {
    && Searching(bases, root, seen, k) && |d| == |seen| && d[0] == 0
    && (forall i | 0 <= i < |seen| :: ReachedIn(bases, root, seen[i], d[i]))
    && (forall i, j | 0 <= i < j < |d| :: d[i] <= d[j])
    && (forall j | 0 <= j < |d| && k < |d| :: d[j] <= d[k] + 1)
    && (forall i | 0 <= i < k :: Expanded(seen, d, i, Listed(bases, seen[i])))
  }

  /** The classes of `more` are among those met, at most one step further out
      than the `i`-th. */
  ghost predicate Expanded(seen: seq<string>, d: seq<nat>, i: nat, more: seq<string>)
    requires i < |d| == |seen|
  {
    forall c <- more :: exists j | 0 <= j < |seen| :: seen[j] == c && d[j] <= d[i] + 1
  }

  lemma ExpandedStays(seen: seq<string>, d: seq<nat>, i: nat, more: seq<string>, seen': seq<string>, d': seq<nat>)
    requires i < |d| == |seen| && |d'| == |seen'| && seen <= seen' && d <= d' && Expanded(seen, d, i, more)
    ensures Expanded(seen', d', i, more)
  {
    forall c | c in more
      ensures exists j | 0 <= j < |seen'| :: seen'[j] == c && d'[j] <= d'[i] + 1
    {
      var j :| 0 <= j < |seen| && seen[j] == c && d[j] <= d[i] + 1;
      assert seen'[j] == c;
    }
  }

  /** The classes met so far while the `k`-th is being expanded. */
  ghost predicate Expanding(
      bases: NameLists, root: string, seen: seq<string>, k: nat, d: seq<nat>, r: seq<string>, e: seq<nat>) {
    && k < |seen| == |d| && seen <= r && d <= e && |e| == |r|
    && (forall i | 0 <= i < |r| :: ReachedIn(bases, root, r[i], e[i]))
    && (forall i, j | 0 <= i < j < |e| :: e[i] <= e[j])
    && (forall j | 0 <= j < |e| :: e[j] <= e[k] + 1)
  }

  lemma {:induction false} ExtendLevels(
      bases: NameLists, root: string, seen: seq<string>, k: nat, d: seq<nat>, more: seq<string>)
    returns (e: seq<nat>)
    requires Expanding(bases, root, seen, k, d, seen, d)
    requires forall c <- more :: c in Listed(bases, seen[k])
    ensures Expanding(bases, root, seen, k, d, Extend(seen, more), e)
    ensures Expanded(Extend(seen, more), e, k, more)
    decreases |more|
  {
    e := d;
    if more != [] {
      var front, last := more[..|more| - 1], more[|more| - 1];
      e := ExtendLevels(bases, root, seen, k, d, front);
      var r := Extend(seen, front);
      assert more == front + [last];
      if last in r {
        var j :| 0 <= j < |r| && r[j] == last;
        assert e[j] <= e[k] + 1;
      } else {
        MeetNew(bases, root, seen, k, d, r, e, last);
        ExpandedStays(r, e, k, front, r + [last], e + [e[k] + 1]);
        e := e + [e[k] + 1];
        assert (r + [last])[|r|] == last;
      }
    }
  }

  lemma MeetNew(
      bases: NameLists, root: string, seen: seq<string>, k: nat, d: seq<nat>, r: seq<string>, e: seq<nat>, c: string)
    requires Expanding(bases, root, seen, k, d, r, e) && c in Listed(bases, r[k])
    ensures Expanding(bases, root, seen, k, d, r + [c], e + [e[k] + 1])
  {
    assert ReachedIn(bases, root, r[k], e[k]);
    assert ReachedIn(bases, root, c, e[k] + 1);
  }

  lemma StepLevels(bases: NameLists, root: string, seen: seq<string>, k: nat, d: seq<nat>) returns (e: seq<nat>)
    requires Levels(bases, root, seen, k, d) && k < |seen|
    ensures Levels(bases, root, Extend(seen, Listed(bases, seen[k])), k + 1, e)
  {
    var more := Listed(bases, seen[k]);
    var r := Extend(seen, more);
    SearchGoesOn(bases, root, seen, k);
    e := ExtendLevels(bases, root, seen, k, d, more);
    forall i | 0 <= i < k + 1
      ensures Expanded(r, e, i, Listed(bases, r[i]))
    {
      if i < k {
        ExpandedStays(seen, d, i, Listed(bases, seen[i]), r, e);
      }
    }
  }

  lemma {:induction false} SearchLevels(bases: NameLists, root: string, seen: seq<string>, k: nat, d: seq<nat>)
    returns (e: seq<nat>)
    requires Levels(bases, root, seen, k, d)
    ensures Levels(bases, root, Search(bases, root, seen, k), |Search(bases, root, seen, k)|, e)
    decreases |Universe(bases, root)| - k
  {
    e := d;
    if k < |seen| {
      SearchGoesOn(bases, root, seen, k);
      e := StepLevels(bases, root, seen, k, d);
      e := SearchLevels(bases, root, Extend(seen, Listed(bases, seen[k])), k + 1, e);
    }
  }

  /** A class reached in `n` steps is met at a level of at most `n`. */
  lemma {:induction false} MetInTime(bases: NameLists, root: string, seen: seq<string>, d: seq<nat>, c: string, n: nat)
    returns (j: nat)
    requires Levels(bases, root, seen, |seen|, d) && ReachedIn(bases, root, c, n)
    ensures j < |seen| && seen[j] == c && d[j] <= n
    decreases n
  {
    if n == 0 {
      j := 0;
    } else {
      var b :| ReachedIn(bases, root, b, n - 1) && c in Listed(bases, b);
      var i := MetInTime(bases, root, seen, d, b, n - 1);
      assert Expanded(seen, d, i, Listed(bases, seen[i]));
      j :| 0 <= j < |seen| && seen[j] == c && d[j] <= d[i] + 1;
    }
  }

  /** The search meets every class that can be reached and nothing else, each
      once, the root first. */
  lemma LinearisedIsReachable(bases: NameLists, root: string)
    ensures NoRepeats(Linearised(bases, root))
    ensures Linearised(bases, root) != [] && Linearised(bases, root)[0] == root
    ensures forall c :: c in Linearised(bases, root) <==> Reached(bases, root, c)
  {
    var seen := Linearised(bases, root);
    var d := RootLevels(bases, root);
    forall c
      ensures c in seen <==> Reached(bases, root, c)
    {
      if c in seen {
        var i :| 0 <= i < |seen| && seen[i] == c;
        assert ReachedIn(bases, root, c, d[i]);
      }
      if Reached(bases, root, c) {
        var n :| ReachedIn(bases, root, c, n);
        var _ := MetInTime(bases, root, seen, d, c, n);
      }
    }
  }

  lemma RootLevels(bases: NameLists, root: string) returns (d: seq<nat>)
    ensures Levels(bases, root, Linearised(bases, root), |Linearised(bases, root)|, d)
  {
    assert Levels(bases, root, [root], 0, [0]);
    d := SearchLevels(bases, root, [root], 0, [0]);
  }

  /** Classes are met in non-decreasing distance: if the later of two can be
      reached in at most `n` steps, so can the earlier one. */
  lemma NearestFirst(bases: NameLists, root: string, i: nat, j: nat, n: nat)
    requires i <= j < |Linearised(bases, root)|
    requires Within(bases, root, Linearised(bases, root)[j], n)
    ensures Within(bases, root, Linearised(bases, root)[i], n)
  {
    var seen := Linearised(bases, root);
    var d := RootLevels(bases, root);
    var m: nat :| m <= n && ReachedIn(bases, root, seen[j], m);
    var j' := MetInTime(bases, root, seen, d, seen[j], m);
    assert j' == j;
    assert ReachedIn(bases, root, seen[i], d[i]);
  }

  // ----- repeated bases

  /** Two tables list the same bases, up to repetitions the search ignores. */
  ghost predicate SameSearch(a: NameLists, b: NameLists) {
    forall c, seen :: Extend(seen, Listed(a, c)) == Extend(seen, Listed(b, c))
  }

  lemma {:induction false} SameSearchSame(a: NameLists, b: NameLists, root: string, seen: seq<string>, k: nat)
    requires SameSearch(a, b) && Searching(a, root, seen, k) && Searching(b, root, seen, k)
    ensures Search(a, root, seen, k) == Search(b, root, seen, k)
    decreases |Universe(a, root)| - k
  {
    if k < |seen| {
      SearchGoesOn(a, root, seen, k);
      SearchGoesOn(b, root, seen, k);
      assert Extend(seen, Listed(a, seen[k])) == Extend(seen, Listed(b, seen[k]));
      SameSearchSame(a, b, root, Extend(seen, Listed(a, seen[k])), k + 1);
    }
  }

  lemma SameLinearised(a: NameLists, b: NameLists, root: string)
    requires SameSearch(a, b)
    ensures Linearised(a, root) == Linearised(b, root)
  {
    SameSearchSame(a, b, root, [root], 0);
  }
}
