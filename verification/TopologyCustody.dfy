/** Which parameters the custody schema of each class carries: a fixpoint by whole rounds,
    proved to be exactly the parameters of everything the class can reach. */
module TopologyCustody {
  import opened Graphs
  import opened TopologyModel
  import opened TopologyChecks

  type Custody = map<Name, set<Parameter>>

  /** Births, and the cold members below the root. */
  function CustodyEdges(t: Topology): Edges {
    EdgesOf(t) + set m | m in t.members :: (ROOT, m.actor)
  }

  function Below(t: Topology, a: ActorClass): set<Name> {
    Targets(a) + if a.name == ROOT then MemberNames(t) else {}
  }

  function Gathered(names: set<Name>, from: Custody): set<Parameter>
    requires names <= from.Keys
  {
    set x, p | x in names && p in from[x] :: p
  }

  /** What a class contributes before anything is inherited. */
  function Base(t: Topology, sources: Custody, a: ActorClass): set<Parameter>
    requires {a.name} + Below(t, a) <= sources.Keys
  {
    (if a.children != [] && a.roleParent.None? then sources[a.name] else {})
    + (if a.name == ROOT then {OriginalRoot} else {})
    + Gathered(Below(t, a), sources)
  }

  ghost predicate OneClassEach(t: Topology) {
    forall x, y :: x in t.actors && y in t.actors && x.name == y.name ==> x == y
  }

  /** Every class and everything below it is known. */
  ghost predicate Declares(t: Topology, sources: Custody) {
    sources.Keys == Declared(t) && forall a :: a in t.actors ==> Below(t, a) <= sources.Keys
  }

  /** Every accepted topology, with its derived sources, meets what the fixpoint needs. */
  lemma AcceptedDeclares(t: Topology, spell: Name -> Name, sources: Custody)
    requires WellFormed(t, spell) && sources.Keys == Declared(t)
    ensures Declares(t, sources) && OneClassEach(t) && ROOT in Declared(t)
  {
    WellFormedIsConnected(t, spell);
    forall a | a in t.actors ensures Below(t, a) <= sources.Keys {
      TargetsAreEdges(t, a);
    }
  }

  lemma BelowAreEdges(t: Topology, a: ActorClass)
    requires OneClassEach(t) && a in t.actors
    ensures forall y :: y in Below(t, a) <==> (a.name, y) in CustodyEdges(t)
  {
    TargetsAreEdges(t, a);
  }

  /** `p` is contributed by some class that `x` reaches. */
  ghost predicate Contributed(edges: Edges, base: Custody, x: Name, p: Parameter) {
    exists y :: Reaches(edges, x, y) && y in base && p in base[y]
  }

  lemma ContributedAbove(edges: Edges, base: Custody, x: Name, y: Name, p: Parameter)
    requires (x, y) in edges && Contributed(edges, base, y, p)
    ensures Contributed(edges, base, x, p)
  {
    var z :| Reaches(edges, y, z) && z in base && p in base[z];
    Prepend(edges, x, y, z);
  }

  /** Between the base and the contributions. */
  ghost predicate Between(edges: Edges, base: Custody, custody: Custody) {
    && custody.Keys == base.Keys
    && (forall x :: x in base ==> base[x] <= custody[x])
    && forall x, p :: x in custody && p in custody[x] ==> Contributed(edges, base, x, p)
  }

  function InitialCustody(t: Topology, sources: Custody): Custody
    requires Declares(t, sources) && OneClassEach(t)
  {
    map a | a in t.actors :: a.name := Base(t, sources, a)
  }

  /** One class inherits from the previous round. */
  lemma InheritsOnce(edges: Edges, base: Custody, before: Custody, custody: Custody, x: Name, below: set<Name>)
    requires Between(edges, base, before) && Between(edges, base, custody)
    requires x in base && below <= before.Keys && forall y :: y in below ==> (x, y) in edges
    ensures Between(edges, base, custody[x := custody[x] + Gathered(below, before)])
  {
    forall p | p in Gathered(below, before) ensures Contributed(edges, base, x, p) {
      var y :| y in below && p in before[y];
      ContributedAbove(edges, base, x, y, p);
    }
  }

  ghost predicate HasInherited(x: Name, below: set<Name>, before: Custody, custody: Custody) {
    below <= before.Keys && x in custody && Gathered(below, before) <= custody[x]
  }

  method InheritOne(x: Name, below: set<Name>, before: Custody, custody: Custody, ghost edges: Edges, ghost base: Custody)
    returns (more: Custody)
    requires Between(edges, base, before) && Between(edges, base, custody)
    requires x in base && below <= before.Keys && forall y :: y in below ==> (x, y) in edges
    ensures Between(edges, base, more) && HasInherited(x, below, before, more)
    ensures forall y :: y in custody ==> custody[y] <= more[y]
  {
    InheritsOnce(edges, base, before, custody, x, below);
    more := custody[x := custody[x] + Gathered(below, before)];
  }

  method InheritAt(t: Topology, i: nat, before: Custody, custody: Custody, ghost base: Custody) returns (more: Custody)
    requires i < |t.actors| && Declares(t, before) && OneClassEach(t)
    requires Between(CustodyEdges(t), base, before) && Between(CustodyEdges(t), base, custody)
    ensures Between(CustodyEdges(t), base, more)
    ensures HasInherited(t.actors[i].name, Below(t, t.actors[i]), before, more)
    ensures forall y :: y in custody ==> custody[y] <= more[y]
  {
    var a := t.actors[i];
    BelowAreEdges(t, a);
    more := InheritOne(a.name, Below(t, a), before, custody, CustodyEdges(t), base);
  }

  method Inherit(t: Topology, before: Custody, ghost base: Custody) returns (custody: Custody)
    requires Declares(t, before) && OneClassEach(t) && Between(CustodyEdges(t), base, before)
    ensures Between(CustodyEdges(t), base, custody)
    ensures forall x :: x in before ==> before[x] <= custody[x]
    ensures forall a :: a in t.actors ==> HasInherited(a.name, Below(t, a), before, custody)
  {
    custody := before;
    for i := 0 to |t.actors|
      invariant Between(CustodyEdges(t), base, custody)
      invariant forall x :: x in before ==> before[x] <= custody[x]
      invariant forall j :: 0 <= j < i ==> HasInherited(t.actors[j].name, Below(t, t.actors[j]), before, custody)
    {
      ghost var last := custody;
      custody := InheritAt(t, i, before, custody, base);
      StillInherited(t, i, before, last, custody);
    }
  }

  lemma StillInherited(t: Topology, i: nat, before: Custody, last: Custody, custody: Custody)
    requires i <= |t.actors| && last.Keys <= custody.Keys && forall x :: x in last ==> last[x] <= custody[x]
    requires forall j :: 0 <= j < i ==> HasInherited(t.actors[j].name, Below(t, t.actors[j]), before, last)
    ensures forall j :: 0 <= j < i ==> HasInherited(t.actors[j].name, Below(t, t.actors[j]), before, custody)
  {
    forall j | 0 <= j < i ensures HasInherited(t.actors[j].name, Below(t, t.actors[j]), before, custody) {
      assert HasInherited(t.actors[j].name, Below(t, t.actors[j]), before, last);
    }
  }

  // ------------------------------------------------------------ termination

  function Pairs(custody: Custody): set<(Name, Parameter)> {
    set x, p | x in custody && p in custody[x] :: (x, p)
  }

  function Everything(base: Custody): set<(Name, Parameter)> {
    set x, y, p | x in base && y in base && p in base[y] :: (x, p)
  }

  lemma PairsBounded(edges: Edges, base: Custody, custody: Custody)
    requires Between(edges, base, custody)
    ensures Pairs(custody) <= Everything(base)
  {
    forall x, p | x in custody && p in custody[x] ensures (x, p) in Everything(base) {
      assert Contributed(edges, base, x, p);
    }
  }

  lemma FewerPairsLeft(all: set<(Name, Parameter)>, a: set<(Name, Parameter)>, b: set<(Name, Parameter)>)
    requires a <= b <= all && a != b
    ensures |all - b| < |all - a|
  {
    assert all - a == (all - b) + (b - a);
    assert b - a != {};
  }

  lemma MorePairs(a: Custody, b: Custody)
    requires a.Keys == b.Keys && a != b && forall x :: x in a ==> a[x] <= b[x]
    ensures Pairs(a) <= Pairs(b) && Pairs(a) != Pairs(b)
  {
    var x :| x in a && a[x] != b[x];
    var p :| p in b[x] && p !in a[x];
    assert (x, p) in Pairs(b) && (x, p) !in Pairs(a);
  }

  // -------------------------------------------------------------- exactness

  /** Every class carries what the classes below it carry. */
  ghost predicate Carries(edges: Edges, custody: Custody) {
    forall x, y :: (x, y) in edges ==> x in custody && y in custody && custody[y] <= custody[x]
  }

  lemma {:induction false} CarriesAlong(edges: Edges, base: Custody, custody: Custody, path: seq<Name>, p: Parameter)
    requires Between(edges, base, custody) && Carries(edges, custody)
    requires Path(edges, path) && path[|path| - 1] in base && p in base[path[|path| - 1]]
    ensures path[0] in custody && p in custody[path[0]]
    decreases |path|
  {
    if |path| > 1 {
      CarriesAlong(edges, base, custody, path[1..], p);
      assert (path[0], path[1]) in edges;
    }
  }

  lemma FixpointCarries(t: Topology, custody: Custody)
    requires OneClassEach(t) && ROOT in Declared(t)
    requires forall a :: a in t.actors ==> HasInherited(a.name, Below(t, a), custody, custody)
    ensures Carries(CustodyEdges(t), custody)
  {
    forall x, y | (x, y) in CustodyEdges(t) ensures x in custody && y in custody && custody[y] <= custody[x] {
      var a :| a in t.actors && a.name == x;
      BelowAreEdges(t, a);
      assert HasInherited(a.name, Below(t, a), custody, custody);
      assert custody[y] <= Gathered(Below(t, a), custody);
    }
  }

  lemma FixpointIsExact(edges: Edges, base: Custody, custody: Custody)
    requires Between(edges, base, custody) && Carries(edges, custody)
    ensures forall x, p :: x in custody ==> (p in custody[x] <==> Contributed(edges, base, x, p))
  {
    forall x, p | x in custody && Contributed(edges, base, x, p) ensures p in custody[x] {
      var y :| Reaches(edges, x, y) && y in base && p in base[y];
      var path :| PathBetween(edges, path, x, y);
      CarriesAlong(edges, base, custody, path, p);
    }
  }

  lemma BaseIsBetween(edges: Edges, base: Custody)
    ensures Between(edges, base, base)
  {
    forall x, p | x in base && p in base[x] ensures Contributed(edges, base, x, p) {
      Stay(edges, x);
    }
  }

  lemma RoundsEnd(edges: Edges, base: Custody, before: Custody, after: Custody)
    requires Between(edges, base, before) && Between(edges, base, after) && before != after
    requires forall x :: x in before ==> before[x] <= after[x]
    ensures |Everything(base) - Pairs(after)| < |Everything(base) - Pairs(before)|
  {
    MorePairs(before, after);
    PairsBounded(edges, base, after);
    FewerPairsLeft(Everything(base), Pairs(before), Pairs(after));
  }

  method Rounds(t: Topology, base: Custody) returns (custody: Custody)
    requires Declares(t, base) && OneClassEach(t)
    ensures Between(CustodyEdges(t), base, custody)
    ensures forall a :: a in t.actors ==> HasInherited(a.name, Below(t, a), custody, custody)
  {
    custody := base;
    BaseIsBetween(CustodyEdges(t), base);
    while true
      invariant Between(CustodyEdges(t), base, custody)
      decreases |Everything(base) - Pairs(custody)|
    {
      var before := custody;
      custody := Inherit(t, before, base);
      if custody == before {
        return;
      }
      RoundsEnd(CustodyEdges(t), base, before, custody);
    }
  }

  /** A class carries a parameter exactly when it reaches a class that contributes it. */
  method CustodyParameters(t: Topology, sources: Custody) returns (custody: Custody)
    requires Declares(t, sources) && OneClassEach(t) && ROOT in Declared(t)
    ensures custody.Keys == Declared(t)
    ensures forall x, p :: x in custody ==>
      (p in custody[x] <==> Contributed(CustodyEdges(t), InitialCustody(t, sources), x, p))
  {
    var base := InitialCustody(t, sources);
    assert base.Keys == Declared(t);
    custody := Rounds(t, base);
    FixpointCarries(t, custody);
    FixpointIsExact(CustodyEdges(t), base, custody);
  }
}
