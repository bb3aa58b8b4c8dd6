/** Finite directed graphs as sets of edges: paths, reachability, closed sets, cycles. */
module Graphs {

  type Name = string

  type Edges = set<(Name, Name)>

  ghost predicate Path(edges: Edges, p: seq<Name>) {
    |p| > 0 && forall i :: 0 <= i < |p| - 1 ==> (p[i], p[i + 1]) in edges
  }

  ghost predicate PathBetween(edges: Edges, p: seq<Name>, a: Name, b: Name) {
    Path(edges, p) && p[0] == a && p[|p| - 1] == b
  }

  ghost predicate Reaches(edges: Edges, a: Name, b: Name) {
    exists p :: PathBetween(edges, p, a, b)
  }

  ghost predicate ReachedFrom(edges: Edges, seeds: set<Name>, x: Name) {
    exists s :: s in seeds && Reaches(edges, s, x)
  }

  ghost predicate ReachesSome(edges: Edges, x: Name, base: set<Name>) {
    exists b :: b in base && Reaches(edges, x, b)
  }

  /** A path with at least one edge from a node back to itself. */
  ghost predicate OnCycle(edges: Edges, x: Name) {
    exists y :: (x, y) in edges && Reaches(edges, y, x)
  }

  ghost predicate Cyclic(edges: Edges) {
    exists x :: OnCycle(edges, x)
  }

  ghost predicate Closed(edges: Edges, s: set<Name>) {
    forall a, b :: (a, b) in edges && a in s ==> b in s
  }

  /** Closed under predecessors. */
  ghost predicate BackClosed(edges: Edges, s: set<Name>) {
    forall a, b :: (a, b) in edges && b in s ==> a in s
  }

  function Induced(edges: Edges, s: set<Name>): Edges {
    set e | e in edges && e.0 in s && e.1 in s
  }

  // ------------------------------------------------------------------ paths

  lemma Stay(edges: Edges, a: Name)
    ensures Reaches(edges, a, a)
  {
    assert PathBetween(edges, [a], a, a);
  }

  lemma Extend(edges: Edges, a: Name, b: Name, c: Name)
    requires Reaches(edges, a, b) && (b, c) in edges
    ensures Reaches(edges, a, c)
  {
    var p :| PathBetween(edges, p, a, b);
    assert PathBetween(edges, p + [c], a, c);
  }

  lemma Prepend(edges: Edges, a: Name, b: Name, c: Name)
    requires (a, b) in edges && Reaches(edges, b, c)
    ensures Reaches(edges, a, c)
  {
    var p :| PathBetween(edges, p, b, c);
    assert PathBetween(edges, [a] + p, a, c);
  }

  /** The second node of a path that goes anywhere. */
  lemma FirstStep(edges: Edges, a: Name, b: Name) returns (next: Name)
    requires Reaches(edges, a, b) && a != b
    ensures (a, next) in edges && Reaches(edges, next, b)
  {
    var p :| PathBetween(edges, p, a, b);
    next := p[1];
    assert PathBetween(edges, p[1..], next, b);
  }

  lemma {:induction false} ClosedCovers(edges: Edges, s: set<Name>, p: seq<Name>)
    requires Closed(edges, s) && Path(edges, p) && p[0] in s
    ensures p[|p| - 1] in s
    decreases |p|
  {
    if |p| > 1 {
      ClosedCovers(edges, s, p[1..]);
    }
  }

  lemma {:induction false} BackClosedCovers(edges: Edges, s: set<Name>, p: seq<Name>)
    requires BackClosed(edges, s) && Path(edges, p) && p[|p| - 1] in s
    ensures p[0] in s
    decreases |p|
  {
    if |p| > 1 {
      BackClosedCovers(edges, s, p[1..]);
    }
  }

  /** A closed set of reachable nodes that covers the seeds is exactly what they reach. */
  lemma ClosedIsReachable(edges: Edges, seeds: set<Name>, s: set<Name>)
    requires Closed(edges, s) && seeds <= s
    requires forall x :: x in s ==> ReachedFrom(edges, seeds, x)
    ensures forall x :: x in s <==> ReachedFrom(edges, seeds, x)
  {
    forall x | ReachedFrom(edges, seeds, x) ensures x in s {
      var a :| a in seeds && Reaches(edges, a, x);
      var p :| PathBetween(edges, p, a, x);
      ClosedCovers(edges, s, p);
    }
  }

  /** The same backwards: exactly the nodes that reach the base. */
  lemma BackClosedIsReaching(edges: Edges, base: set<Name>, s: set<Name>)
    requires BackClosed(edges, s) && base <= s
    requires forall x :: x in s ==> ReachesSome(edges, x, base)
    ensures forall x :: x in s <==> ReachesSome(edges, x, base)
  {
    forall x | ReachesSome(edges, x, base) ensures x in s {
      var b :| b in base && Reaches(edges, x, b);
      var p :| PathBetween(edges, p, x, b);
      BackClosedCovers(edges, s, p);
    }
  }

  // ------------------------------------------------------------------- rank

  /** The nodes of `nodes` that lie strictly ahead of `x`. */
  ghost function Ahead(edges: Edges, nodes: set<Name>, x: Name): set<Name> {
    set y | y in nodes && exists z :: (x, z) in edges && Reaches(edges, z, y)
  }

  lemma SmallerSubset(a: set<Name>, b: set<Name>, x: Name)
    requires a <= b && x in b && x !in a
    ensures |a| < |b|
  {
    var rest := b - {x} - a;
    assert b == (a + rest) + {x};
    assert |a + rest| == |a| + |rest|;
  }

  lemma LessRemains(all: set<Name>, a: set<Name>, b: set<Name>)
    requires a <= b <= all && a != b
    ensures |all - b| < |all - a|
  {
    var x :| x in b && x !in a;
    SmallerSubset(all - b, all - a, x);
  }

  /** Without a cycle, the number of nodes ahead decreases along every edge. */
  lemma AcyclicRank(edges: Edges, nodes: set<Name>, a: Name, b: Name)
    requires !Cyclic(edges) && (a, b) in edges && b in nodes
    ensures |Ahead(edges, nodes, b)| < |Ahead(edges, nodes, a)|
  {
    Stay(edges, b);
    assert b in Ahead(edges, nodes, a);
    assert !OnCycle(edges, b);
    assert b !in Ahead(edges, nodes, b);
    forall y | y in Ahead(edges, nodes, b) ensures y in Ahead(edges, nodes, a) {
      var z :| (b, z) in edges && Reaches(edges, z, y);
      Prepend(edges, b, z, y);
    }
    SmallerSubset(Ahead(edges, nodes, b), Ahead(edges, nodes, a), b);
  }

  /** Every edge leads to a smaller rank. */
  ghost predicate Ranks(edges: Edges, rank: Name -> nat) {
    forall a, b :: (a, b) in edges ==> rank(b) < rank(a)
  }

  lemma {:induction false} RankDescends(edges: Edges, rank: Name -> nat, p: seq<Name>)
    requires Ranks(edges, rank) && Path(edges, p)
    ensures rank(p[|p| - 1]) + |p| <= rank(p[0]) + 1
    decreases |p|
  {
    if |p| > 1 {
      RankDescends(edges, rank, p[1..]);
    }
  }

  /** Acyclicity is exactly the existence of a rank. */
  lemma AcyclicIffRanked(edges: Edges)
    ensures !Cyclic(edges) <==> exists rank :: Ranks(edges, rank)
  {
    if !Cyclic(edges) {
      var nodes := set e | e in edges :: e.1;
      ghost var rank: Name -> nat := (x: Name) => |Ahead(edges, nodes, x)|;
      forall a, b | (a, b) in edges ensures rank(b) < rank(a) {
        assert (a, b).1 in nodes;
        AcyclicRank(edges, nodes, a, b);
      }
      assert Ranks(edges, rank);
    } else {
      var x :| OnCycle(edges, x);
      var y :| (x, y) in edges && Reaches(edges, y, x);
      var p :| PathBetween(edges, p, y, x);
      forall rank | Ranks(edges, rank) ensures false {
        RankDescends(edges, rank, p);
      }
    }
  }
}
