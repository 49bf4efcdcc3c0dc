/** The code shown for an intent: the best seeds, what one hop along the edges
    adds to them, in which order, and what is dropped to fit the budget. */
module Retrieval {
  import opened Protocol
  import opened Subsequences
  import opened Sorting
  import opened EdgeResolution
  import EdgeResolver

  const TopK: nat := 5

  datatype Scored = Scored(name: string, score: real)

  // ----- seeds

  /** Best score first, equal scores by name. */
  predicate Better(a: Scored, b: Scored) {
    a.score > b.score || (a.score == b.score && TextLe(a.name, b.name))
  }

  lemma BetterOrder()
    ensures TotalOrder(Better)
  {
    RowOrder();
    TextOrder();
  }

  /** `a` scores at least as high as `b`; of equal scores the first name comes first. */
  predicate NoWorse(a: Scored, b: Scored) {
    a.score >= b.score && (a.score == b.score ==> TextLe(a.name, b.name))
  }

  /** The vectors compared with the intent, the best few of them kept. */
  method Seeds(vectors: seq<Scored>) returns (seeds: seq<Scored>)
    requires NoRepeats(vectors)
    ensures |seeds| == if |vectors| < 5 then |vectors| else 5
    ensures NoRepeats(seeds) && forall s | s in seeds :: s in vectors
    ensures forall i, j | 0 <= i < j < |seeds| :: NoWorse(seeds[i], seeds[j])
    ensures forall s, v | s in seeds && v in vectors && v !in seeds :: NoWorse(s, v)
  {
    var ranked := Sort(Better, vectors);
    BetterOrder();
    SortSorts(Better, vectors);
    SortLists(Better, vectors);
    assert |ranked| == |multiset(ranked)| == |multiset(vectors)| == |vectors|;
    seeds := if |ranked| < TopK then ranked else ranked[..TopK];
    forall s, v | s in seeds && v in vectors && v !in seeds
      ensures NoWorse(s, v)
    {
      FirstAreBest(ranked, |seeds|, s, v);
    }
    forall i, j | 0 <= i < j < |seeds|
      ensures NoWorse(seeds[i], seeds[j])
    {
      assert Better(ranked[i], ranked[j]);
    }
  }

  lemma FirstAreBest(ranked: seq<Scored>, n: nat, s: Scored, v: Scored)
    requires Sorted(Better, ranked) && n <= |ranked| && s in ranked[..n] && v in ranked && v !in ranked[..n]
    ensures Better(s, v)
  {
    var i :| 0 <= i < n && ranked[..n][i] == s;
    var j :| 0 <= j < |ranked| && ranked[j] == v;
    assert forall k | 0 <= k < n :: ranked[k] in ranked[..n];
    assert i < j;
  }

  // ----- one hop

  type SeedScores = map<string, real>

  predicate ValidScores(seeds: SeedScores) {
    forall s | s in seeds :: -1.0 <= seeds[s] <= 1.0
  }

  /** The node an edge pulls into the neighbourhood of a seed. */
  function Neighbor(edge: Edge, seeds: SeedScores): Option<string> {
    if edge.kind.Calls? then
      if edge.source in seeds then Some(edge.target)
      else if edge.target in seeds then Some(edge.source)
      else None
    else if edge.kind.Inherits? || edge.kind.ReferencesType? then
      if edge.source in seeds then Some(edge.target) else None
    else if edge.kind.Defines? then
      if edge.target in seeds then Some(edge.source) else None
    else None
  }

  /** The hop rules: a seed pulls in what it calls, inherits or uses as a type,
      what calls it, and the class that defines it. */
  predicate Pulls(edge: Edge, seed: string, node: string) {
    match edge.kind
    case Calls => (edge.source == seed && edge.target == node) || (edge.target == seed && edge.source == node)
    case Inherits => edge.source == seed && edge.target == node
    case ReferencesType => edge.source == seed && edge.target == node
    case Defines => edge.target == seed && edge.source == node
    case Imports => false
  }

  /** `seed` pulls `node` in along some edge. */
  predicate PulledBy(edges: set<Edge>, seeds: SeedScores, seed: string, node: string) {
    seed in seeds && exists edge <- edges :: Pulls(edge, seed, node)
  }

  /** The edge is shown if and only if it pulls anything in. */
  lemma ShownPulls(edge: Edge, seeds: SeedScores)
    ensures Neighbor(edge, seeds).Some? <==> exists seed, node :: seed in seeds && Pulls(edge, seed, node)
  {
    if Neighbor(edge, seeds).Some? {
      var seed := if edge.kind.Defines? || edge.source !in seeds then edge.target else edge.source;
      assert seed in seeds && Pulls(edge, seed, Neighbor(edge, seeds).value);
    }
  }

  /** For a node that is no seed, the edge pulls it in from exactly one seed. */
  lemma NeighborPulls(edge: Edge, seeds: SeedScores, node: string)
    requires node !in seeds
    ensures Neighbor(edge, seeds) == Some(node) <==> exists seed :: seed in seeds && Pulls(edge, seed, node)
    ensures Neighbor(edge, seeds) == Some(node) ==>
              forall seed | seed in seeds && Pulls(edge, seed, node) ::
                seed == if edge.source in seeds then edge.source else edge.target
  {
    if Neighbor(edge, seeds) == Some(node) {
      var seed := if edge.source in seeds then edge.source else edge.target;
      assert seed in seeds && Pulls(edge, seed, node);
    }
  }

  /** `rank` has the seeds with their scores, and each node some seed of `edges`
      pulls in with the best score among those that do. */
  ghost predicate Ranked(edges: set<Edge>, seeds: SeedScores, rank: SeedScores) {
    && (forall s | s in seeds :: s in rank && rank[s] == seeds[s])
    && (forall n | n in rank && n !in seeds ::
          && (exists s :: PulledBy(edges, seeds, s, n) && seeds[s] == rank[n])
          && (forall s | PulledBy(edges, seeds, s, n) :: seeds[s] <= rank[n]))
    && (forall n, s | n !in seeds && PulledBy(edges, seeds, s, n) :: n in rank)
  }

  lemma RankedNext(edges: set<Edge>, seeds: SeedScores, rank: SeedScores, edge: Edge, node: string, rank': SeedScores)
    requires ValidScores(seeds) && Ranked(edges, seeds, rank)
    requires Neighbor(edge, seeds) == Some(node) && node !in seeds
    requires var anchor := if edge.source in seeds then edge.source else edge.target;
             anchor in seeds && rank' == rank[node := Max(if node in rank then rank[node] else -1.0, seeds[anchor])]
    ensures Ranked(edges + {edge}, seeds, rank')
  {
    var anchor := if edge.source in seeds then edge.source else edge.target;
    NeighborPulls(edge, seeds, node);
    assert PulledBy(edges + {edge}, seeds, anchor, node);
    forall n, s | n !in seeds
      ensures PulledBy(edges + {edge}, seeds, s, n) <==> PulledBy(edges, seeds, s, n) || (n == node && s == anchor)
    {
      NeighborPulls(edge, seeds, n);
    }
  }

  lemma RankedSame(edges: set<Edge>, seeds: SeedScores, rank: SeedScores, edge: Edge)
    requires Ranked(edges, seeds, rank)
    requires Neighbor(edge, seeds).None? || Neighbor(edge, seeds).value in seeds
    ensures Ranked(edges + {edge}, seeds, rank)
  {
    forall n, s | n !in seeds
      ensures PulledBy(edges + {edge}, seeds, s, n) <==> PulledBy(edges, seeds, s, n)
    {
      NeighborPulls(edge, seeds, n);
    }
  }

  function Max(a: real, b: real): real {
    if a < b then b else a
  }

  /** Ranks the one-hop neighbourhood of the seeds. `kept` are the edges shown. */
  method Expand(edges: set<Edge>, seeds: SeedScores) returns (rank: SeedScores, kept: seq<Edge>)
    requires ValidScores(seeds)
    ensures Ranked(edges, seeds, rank)
    ensures Listing(kept, set e | e in edges && Neighbor(e, seeds).Some?)
  {
    var touching := EdgeResolver.SortedEdges(set e | e in edges && e.kind != Imports
        && (e.source in seeds || e.target in seeds));
    rank, kept := seeds, [];
    ghost var done: set<Edge> := {};
    for i := 0 to |touching|
      invariant done == (set e | e in touching[..i]) && Ranked(done, seeds, rank)
      invariant KeptUpto(kept, touching, i, seeds)
    {
      var edge := touching[i];
      assert touching[..i + 1] == touching[..i] + [edge];
      var neighbor := Neighbor(edge, seeds);
      KeptNext(kept, touching, i, seeds);
      rank := Raised(done, rank, seeds, edge);
      if neighbor.Some? {
        kept := kept + [edge];
      }
      done := done + {edge};
    }
    assert touching[..|touching|] == touching;
    RankedTouching(edges, done, seeds, rank);
  }

  /** Takes one edge into account. */
  method Raised(ghost done: set<Edge>, rank: SeedScores, seeds: SeedScores, edge: Edge) returns (r: SeedScores)
    requires ValidScores(seeds) && Ranked(done, seeds, rank)
    ensures Ranked(done + {edge}, seeds, r)
  {
    r := rank;
    var neighbor := Neighbor(edge, seeds);
    if neighbor.None? || neighbor.value in seeds {
      RankedSame(done, seeds, rank, edge);
    } else {
      var anchor := if edge.source in seeds then edge.source else edge.target;
      var best := Max(if neighbor.value in rank then rank[neighbor.value] else -1.0, seeds[anchor]);
      r := rank[neighbor.value := best];
      RankedNext(done, seeds, rank, edge, neighbor.value, r);
    }
  }

  /** `kept` are those of the first `i` of `edges` that pull a node in, in their
      order. */
  ghost predicate KeptUpto(kept: seq<Edge>, edges: seq<Edge>, i: nat, seeds: SeedScores) {
    && i <= |edges| && Sorted(EdgeLe, edges) && NoRepeats(edges)
    && Sorted(EdgeLe, kept) && NoRepeats(kept)
    && forall e :: e in kept <==> e in edges[..i] && Neighbor(e, seeds).Some?
  }

  lemma KeptNext(kept: seq<Edge>, edges: seq<Edge>, i: nat, seeds: SeedScores)
    requires KeptUpto(kept, edges, i, seeds) && i < |edges|
    ensures KeptUpto(if Neighbor(edges[i], seeds).Some? then kept + [edges[i]] else kept, edges, i + 1, seeds)
  {
    assert edges[..i + 1] == edges[..i] + [edges[i]];
    forall k | 0 <= k < |kept|
      ensures EdgeLe(kept[k], edges[i]) && kept[k] != edges[i]
    {
      assert kept[k] in kept;
      var j :| 0 <= j < i && edges[j] == kept[k];
    }
  }

  /** Edges that touch no seed pull nothing in. */
  lemma RankedTouching(edges: set<Edge>, touching: set<Edge>, seeds: SeedScores, rank: SeedScores)
    requires Ranked(touching, seeds, rank) && touching <= edges
    requires forall e :: e in touching <==> e in edges && e.kind != Imports && (e.source in seeds || e.target in seeds)
    ensures Ranked(edges, seeds, rank)
  {
    forall s, n
      ensures PulledBy(edges, seeds, s, n) <==> PulledBy(touching, seeds, s, n)
    {
      if PulledBy(edges, seeds, s, n) {
        var e :| e in edges && Pulls(e, s, n);
        assert e in touching;
      }
    }
  }

  // ----- order

  datatype Node = Node(name: string, seed: bool, rank: real)

  /** Seeds first, then by rank, then by name. */
  predicate Before(a: Node, b: Node) {
    if a.seed != b.seed then a.seed else Better(Scored(a.name, a.rank), Scored(b.name, b.rank))
  }

  lemma BeforeOrder()
    ensures TotalOrder(Before)
  {
    BetterOrder();
    forall a, b | Before(a, b) && Before(b, a)
      ensures a == b
    {
      assert Scored(a.name, a.rank) == Scored(b.name, b.rank);
    }
    forall a, b, c | Before(a, b) && Before(b, c)
      ensures Before(a, c)
    {
      if a.seed == b.seed == c.seed {
        assert Better(Scored(a.name, a.rank), Scored(b.name, b.rank))
            && Better(Scored(b.name, b.rank), Scored(c.name, c.rank));
      }
    }
  }

  /** The ranked nodes that the index has, in the order they are shown. */
  method Ordered(rank: SeedScores, seeds: SeedScores, indexed: set<string>) returns (nodes: seq<Node>)
    ensures NoRepeats(nodes) && SeedsFirst(nodes)
    ensures forall i, j | 0 <= i < j < |nodes| && nodes[i].seed == nodes[j].seed ::
              && nodes[i].rank >= nodes[j].rank
              && (nodes[i].rank == nodes[j].rank ==> TextLe(nodes[i].name, nodes[j].name))
    ensures forall n :: n in nodes <==>
              n.name in rank && n.name in indexed && n == Node(n.name, n.name in seeds, rank[n.name])
  {
    var rows: seq<Node> := [];
    var todo := rank.Keys * indexed;
    while todo != {}
      invariant todo <= rank.Keys * indexed && NoRepeats(rows)
      invariant forall n :: n in rows <==>
        n.name in rank.Keys * indexed - todo && n == Node(n.name, n.name in seeds, rank[n.name])
    {
      var name :| name in todo;
      var node := Node(name, name in seeds, rank[name]);
      assert node !in rows;
      rows := rows + [node];
      todo := todo - {name};
    }
    nodes := Sort(Before, rows);
    BeforeOrder();
    SortSorts(Before, rows);
    SortLists(Before, rows);
    assert forall i, j | 0 <= i < j < |nodes| :: Before(nodes[i], nodes[j]);
  }

  // ----- the budget

  predicate SeedsFirst(nodes: seq<Node>) {
    forall i, j | 0 <= i < j < |nodes| && nodes[j].seed :: nodes[i].seed
  }

  /** How many nodes are there by expansion. */
  function Expansions(nodes: seq<Node>): nat {
    if nodes == [] then 0 else Expansions(nodes[..|nodes| - 1]) + if nodes[|nodes| - 1].seed then 0 else 1
  }

  /** All seeds and the first `j` expansion nodes. */
  function Keep(nodes: seq<Node>, j: nat): seq<Node> {
    if nodes == [] then []
    else
      var front, last := nodes[..|nodes| - 1], nodes[|nodes| - 1];
      Keep(front, j) + if last.seed || Expansions(front) < j then [last] else []
  }

  lemma {:induction false} KeepAll(nodes: seq<Node>)
    ensures forall j | j >= Expansions(nodes) :: Keep(nodes, j) == nodes
  {
    if nodes != [] {
      KeepAll(nodes[..|nodes| - 1]);
    }
  }

  lemma {:induction false} KeptExpansions(nodes: seq<Node>, j: nat)
    requires j <= Expansions(nodes)
    ensures Expansions(Keep(nodes, j)) == j
  {
    if nodes != [] {
      var front, last := nodes[..|nodes| - 1], nodes[|nodes| - 1];
      var kept := Keep(front, j);
      assert (kept + [last])[..|kept|] == kept && kept + [] == kept;
      if j <= Expansions(front) {
        KeptExpansions(front, j);
      } else {
        KeepAll(front);
      }
    }
  }

  /** Deleting the last expansion node keeps one fewer. */
  lemma {:induction false} DeleteLast(nodes: seq<Node>, j: nat, i: nat)
    requires 0 < j <= Expansions(nodes)
    requires i < |Keep(nodes, j)| && !Keep(nodes, j)[i].seed
    requires forall k | i < k < |Keep(nodes, j)| :: Keep(nodes, j)[k].seed
    ensures Keep(nodes, j)[..i] + Keep(nodes, j)[i + 1..] == Keep(nodes, j - 1)
  {
    var front, last := nodes[..|nodes| - 1], nodes[|nodes| - 1];
    var kept := Keep(nodes, j);
    if Expansions(front) < j {
      KeepAll(front);
      assert !last.seed && j - 1 == Expansions(front);
      assert kept == front + [last] && kept[|front|] == last;
      assert i == |front|;
      assert Keep(nodes, j - 1) == Keep(front, j - 1) + [] == front;
    } else {
      var inner := Keep(front, j);
      assert kept == inner + if last.seed then [last] else [];
      assert forall k | 0 <= k < |inner| :: inner[k] == kept[k];
      DeleteLast(front, j, i);
      assert kept[..i] + kept[i + 1..] == (inner[..i] + inner[i + 1..]) + if last.seed then [last] else [];
    }
  }

  /** `kept` are the seeds and the most expansion nodes, counted from the front,
      that fit; only the seeds if no number of them fits. */
  ghost predicate Trimmed(nodes: seq<Node>, kept: seq<Node>, size: seq<Node> -> nat, budget: nat) {
    exists j: nat :: TrimmedTo(nodes, kept, size, budget, j)
  }

  ghost predicate TrimmedTo(nodes: seq<Node>, kept: seq<Node>, size: seq<Node> -> nat, budget: nat, j: nat) {
    && j <= Expansions(nodes) && kept == Keep(nodes, j)
    && (size(kept) <= budget || j == 0)
    && forall more | j < more <= Expansions(nodes) :: TooLong(nodes, size, budget, more)
  }

  ghost predicate TooLong(nodes: seq<Node>, size: seq<Node> -> nat, budget: nat, j: nat) {
    size(Keep(nodes, j)) > budget
  }

  /** Drops expansion nodes from the end until the rendered block fits, or only
      seeds are left. */
  method Fit(nodes: seq<Node>, size: seq<Node> -> nat, budget: nat) returns (kept: seq<Node>)
    ensures Trimmed(nodes, kept, size, budget)
  {
    kept := nodes;
    ghost var j := Expansions(nodes);
    KeepAll(nodes);
    while size(kept) > budget
      invariant 0 <= j <= Expansions(nodes) && kept == Keep(nodes, j)
      invariant forall more | j < more <= Expansions(nodes) :: TooLong(nodes, size, budget, more)
      decreases j
    {
      assert TooLong(nodes, size, budget, j);
      KeptExpansions(nodes, j);
      var i := LastExpansion(kept);
      if i == |kept| {
        break;
      }
      DeleteLast(nodes, j, i);
      kept := kept[..i] + kept[i + 1..];
      j := j - 1;
    }
    assert TrimmedTo(nodes, kept, size, budget, j);
  }

  /** Position of the last expansion node, or the length of the list. */
  method LastExpansion(nodes: seq<Node>) returns (i: nat)
    ensures i == |nodes| <==> Expansions(nodes) == 0
    ensures i < |nodes| ==> !nodes[i].seed && forall k | i < k < |nodes| :: nodes[k].seed
    ensures i <= |nodes|
  {
    var k := |nodes|;
    assert nodes[..k] == nodes;
    while k > 0
      invariant 0 <= k <= |nodes| && forall l | k <= l < |nodes| :: nodes[l].seed
      invariant Expansions(nodes) == Expansions(nodes[..k])
    {
      assert nodes[..k][..k - 1] == nodes[..k - 1];
      if !nodes[k - 1].seed {
        return k - 1;
      }
      k := k - 1;
    }
    return |nodes|;
  }

  /** In the order nodes are shown, what is kept is the seeds followed by a prefix
      of the expansion nodes: cutting the list short. */
  lemma {:induction false} SeedsCounted(nodes: seq<Node>)
    requires SeedsFirst(nodes)
    ensures Expansions(nodes) <= |nodes|
    ensures forall i | 0 <= i < |nodes| :: nodes[i].seed <==> i < |nodes| - Expansions(nodes)
  {
    if nodes != [] {
      var front := nodes[..|nodes| - 1];
      if nodes[|nodes| - 1].seed {
        AllSeeds(front);
      }
      SeedsCounted(front);
    }
  }

  /** Trimming a list in the order nodes are shown cuts it short, after the seeds
      at the earliest. */
  lemma TrimmedCuts(nodes: seq<Node>, kept: seq<Node>, size: seq<Node> -> nat, budget: nat)
    requires SeedsFirst(nodes) && Trimmed(nodes, kept, size, budget)
    ensures |nodes| - Expansions(nodes) <= |kept| <= |nodes| && kept == nodes[..|kept|]
    ensures forall n | |kept| < n <= |nodes| :: size(nodes[..n]) > budget
    ensures size(kept) <= budget || |kept| == |nodes| - Expansions(nodes)
  {
    SeedsCounted(nodes);
    var j: nat :| TrimmedTo(nodes, kept, size, budget, j);
    KeepCuts(nodes, j, |nodes| - Expansions(nodes) + j);
    forall n | |kept| < n <= |nodes|
      ensures size(nodes[..n]) > budget
    {
      LongerCut(nodes, size, budget, n - (|nodes| - Expansions(nodes)), n);
    }
  }

  lemma LongerCut(nodes: seq<Node>, size: seq<Node> -> nat, budget: nat, more: nat, n: nat)
    requires SeedsFirst(nodes) && more <= Expansions(nodes) <= |nodes| && n == |nodes| - Expansions(nodes) + more
    requires TooLong(nodes, size, budget, more)
    ensures size(nodes[..n]) > budget
  {
    KeepCuts(nodes, more, n);
  }

  lemma {:induction false} KeepCuts(nodes: seq<Node>, j: nat, n: nat)
    requires SeedsFirst(nodes) && j <= Expansions(nodes) <= |nodes| && n == |nodes| - Expansions(nodes) + j
    ensures Keep(nodes, j) == nodes[..n]
  {
    if nodes != [] {
      var front, last := nodes[..|nodes| - 1], nodes[|nodes| - 1];
      SeedsCounted(front);
      SeedsCounted(nodes);
      if j <= Expansions(front) {
        KeepCuts(front, j, |front| - Expansions(front) + j);
      } else {
        KeepAll(front);
      }
    }
  }

  lemma {:induction false} AllSeeds(nodes: seq<Node>)
    requires forall n <- nodes :: n.seed
    ensures Expansions(nodes) == 0
  {
    if nodes != [] {
      AllSeeds(nodes[..|nodes| - 1]);
    }
  }
}
