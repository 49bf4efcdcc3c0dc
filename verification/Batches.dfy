/** Splitting the symbols to embed into requests: in order, within the caps, and
    into as few requests as the caps allow. */
module Batches {

  datatype Pending = Pending(qname: string, digest: string, text: string)

  const MaxItems: nat := 256
  const MaxChars: nat := 600_000

  function Chars(items: seq<Pending>): nat {
    if items == [] then 0 else Chars(items[..|items| - 1]) + |items[|items| - 1].text|
  }

  function Flatten(batches: seq<seq<Pending>>): seq<Pending> {
    if batches == [] then [] else Flatten(batches[..|batches| - 1]) + batches[|batches| - 1]
  }

  /** A request the embedder takes: a single item may exceed the character cap. */
  predicate Fits(batch: seq<Pending>) {
    batch != [] && |batch| <= 256 && (Chars(batch) <= 600_000 || |batch| == 1)
  }

  /** An order-preserving partition of `pending` into requests. */
  predicate Splits(batches: seq<seq<Pending>>, pending: seq<Pending>) {
    Flatten(batches) == pending && forall b <- batches :: Fits(b)
  }

  predicate Overflows(batch: seq<Pending>, next: Pending) {
    |batch| >= MaxItems || Chars(batch) + |next.text| > MaxChars
  }

  /** No batch could have taken the first item of the one after it. */
  predicate Greedy(batches: seq<seq<Pending>>) {
    forall i | 0 <= i < |batches| - 1 :: Full(batches, i)
  }

  predicate Full(batches: seq<seq<Pending>>, i: nat)
    requires i + 1 < |batches|
  {
    batches[i + 1] != [] && Overflows(batches[i], batches[i + 1][0])
  }

  /** `current` may follow `batches`. */
  predicate Follows(batches: seq<seq<Pending>>, current: seq<Pending>) {
    batches != [] ==> current != [] && Overflows(batches[|batches| - 1], current[0])
  }

  lemma Closed(batches: seq<seq<Pending>>, current: seq<Pending>)
    requires Greedy(batches) && Follows(batches, current) && (forall b <- batches :: Fits(b)) && Fits(current)
    ensures Greedy(batches + [current]) && Flatten(batches + [current]) == Flatten(batches) + current
    ensures forall b <- batches + [current] :: Fits(b)
  {
    var r := batches + [current];
    assert r[..|batches|] == batches;
    forall i | 0 <= i < |r| - 1
      ensures Full(r, i)
    {
      if i + 1 < |batches| {
        assert Full(batches, i);
      }
    }
  }

  /** `batches` and the open batch `current` split the items `taken` so far. */
  ghost predicate Ready(batches: seq<seq<Pending>>, current: seq<Pending>, taken: seq<Pending>) {
    && Flatten(batches) + current == taken
    && Greedy(batches) && Follows(batches, current) && (forall b <- batches :: Fits(b))
    && (current == [] || Fits(current))
  }

  lemma Grows(batches: seq<seq<Pending>>, current: seq<Pending>, taken: seq<Pending>, item: Pending)
    requires Ready(batches, current, taken) && (current == [] || !Overflows(current, item))
    ensures Ready(batches, current + [item], taken + [item])
  {
    CharsAppendOne(current, item);
    assert Flatten(batches) + (current + [item]) == taken + [item];
  }

  lemma Overflowed(batches: seq<seq<Pending>>, current: seq<Pending>, taken: seq<Pending>, item: Pending)
    requires Ready(batches, current, taken) && current != [] && Overflows(current, item)
    ensures Ready(batches + [current], [item], taken + [item])
  {
    Closed(batches, current);
    var r := batches + [current];
    assert Flatten(r) == taken;
    assert r[|r| - 1] == current && [item][0] == item;
    assert Follows(r, [item]);
    assert |[item]| == 1;
  }

  lemma CharsAppendOne(current: seq<Pending>, item: Pending)
    ensures Chars(current + [item]) == Chars(current) + |item.text|
  {
    assert (current + [item])[..|current|] == current;
  }

  method Split(pending: seq<Pending>) returns (batches: seq<seq<Pending>>)
    ensures Splits(batches, pending) && Greedy(batches)
    ensures forall other | Splits(other, pending) :: |batches| <= |other|
  {
    batches := [];
    var current: seq<Pending> := [];
    var chars := 0;
    for i := 0 to |pending|
      invariant Ready(batches, current, pending[..i]) && chars == Chars(current)
    {
      var item := pending[i];
      assert pending[..i + 1] == pending[..i] + [item];
      if current != [] && (|current| >= MaxItems || chars + |item.text| > MaxChars) {
        Overflowed(batches, current, pending[..i], item);
        batches := batches + [current];
        current, chars := [], 0;
        assert current + [item] == [item];
      } else {
        Grows(batches, current, pending[..i], item);
      }
      CharsAppendOne(current, item);
      current := current + [item];
      chars := chars + |item.text|;
    }
    if current != [] {
      Closed(batches, current);
      batches := batches + [current];
    }
    assert pending[..|pending|] == pending;
    GreedyIsFewest(batches, pending);
  }

  // ----- why no partition has fewer batches

  lemma {:induction false} CharsAppend(a: seq<Pending>, b: seq<Pending>)
    ensures Chars(a + b) == Chars(a) + Chars(b)
  {
    if b == [] {
      assert a + b == a;
    } else {
      CharsAppend(a, b[..|b| - 1]);
      assert (a + b)[..|a + b| - 1] == a + b[..|b| - 1];
    }
  }

  /** Items in the first `k` batches. */
  function Upto(batches: seq<seq<Pending>>, k: nat): nat
    requires k <= |batches|
  {
    |Flatten(batches[..k])|
  }

  lemma {:induction false} BatchIsSlice(batches: seq<seq<Pending>>, k: nat)
    requires k < |batches|
    ensures Upto(batches, k) <= Upto(batches, k + 1) <= |Flatten(batches)|
    ensures Flatten(batches)[Upto(batches, k)..Upto(batches, k + 1)] == batches[k]
    ensures Upto(batches, k + 1) == Upto(batches, k) + |batches[k]|
  {
    assert batches[..k + 1][..k] == batches[..k];
    if k + 1 == |batches| {
      assert batches[..k + 1] == batches;
    } else {
      var front := batches[..|batches| - 1];
      BatchIsSlice(front, k);
      assert front[..k] == batches[..k] && front[..k + 1] == batches[..k + 1];
    }
  }

  /** A batch that starts no earlier than another and ends before it could have
      taken one more item. */
  lemma NotShorter(pending: seq<Pending>, g: nat, g': nat, o: nat, o': nat)
    requires o <= g < g' < o' <= |pending|
    requires Fits(pending[o..o'])
    ensures !Overflows(pending[g..g'], pending[g'])
  {
    assert pending[o..o'] == pending[o..g] + (pending[g..g'] + [pending[g']] + pending[g' + 1..o']);
    CharsAppend(pending[o..g], pending[g..g'] + [pending[g']] + pending[g' + 1..o']);
    CharsAppend(pending[g..g'] + [pending[g']], pending[g' + 1..o']);
    CharsAppend(pending[g..g'], [pending[g']]);
    assert Chars([pending[g']]) == |pending[g'].text| by {
      assert [pending[g']][..0] == [];
    }
  }

  /** After the same number of batches the greedy partition is never behind. */
  lemma {:induction false} GreedyStaysAhead(
      batches: seq<seq<Pending>>, other: seq<seq<Pending>>, pending: seq<Pending>, k: nat)
    requires Splits(batches, pending) && Greedy(batches) && Splits(other, pending)
    requires k <= |batches| && k <= |other|
    ensures Upto(other, k) <= Upto(batches, k)
  {
    assert batches[..|batches|] == batches;
    if k > 0 {
      GreedyStaysAhead(batches, other, pending, k - 1);
      BatchIsSlice(batches, k - 1);
      BatchIsSlice(other, k - 1);
      assert Fits(batches[k - 1]) && Fits(other[k - 1]);
      if k < |batches| && Upto(batches, k) < Upto(other, k) {
        BatchIsSlice(batches, k);
        assert Full(batches, k - 1);
        NotShorter(pending, Upto(batches, k - 1), Upto(batches, k), Upto(other, k - 1), Upto(other, k));
      }
    }
  }

  lemma GreedyIsFewest(batches: seq<seq<Pending>>, pending: seq<Pending>)
    requires Splits(batches, pending) && Greedy(batches)
    ensures forall other | Splits(other, pending) :: |batches| <= |other|
  {
    forall other | Splits(other, pending)
      ensures |batches| <= |other|
    {
      assert other[..|other|] == other;
      if |other| < |batches| {
        assert Fits(batches[|other|]);
        GreedyStaysAhead(batches, other, pending, |other|);
        BatchIsSlice(batches, |other|);
      }
    }
  }
}
